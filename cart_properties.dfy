/**
 Properties of the cart transitions: what each operation does to the line
 items, to the id-to-amount view of the cart, and to the cart's well-formedness,
 and how consecutive operations relate.
 */
module CartProperties {
  import opened CartLogic

  // ---------------------------------------------------------------------------
  // The id-to-amount view under the three kinds of edit the operations make

  /** Setting the amount of the first item with some id sets that id's amount in the view. */
  lemma {:induction false} QuantitiesSetAmount(cart: seq<LineItem>, i: nat, a: int)
    requires i < |cart|
    requires IndexOf(cart, cart[i].id) == Some(i)
    ensures Quantities(cart[i := cart[i].(amount := a)]) == Quantities(cart)[cart[i].id := a]
  {
    var id := cart[i].id;
    var updated := cart[i := cart[i].(amount := a)];
    if i == 0 {
      assert updated[1..] == cart[1..];
    } else {
      assert updated[1..] == cart[1..][i - 1 := cart[i].(amount := a)];
      assert IndexOf(cart[1..], id) == Some(i - 1);
      QuantitiesSetAmount(cart[1..], i - 1, a);
      assert cart[0].id != id;
      assert Quantities(updated)
          == Quantities(cart[1..])[id := a][cart[0].id := cart[0].amount]
          == Quantities(cart[1..])[cart[0].id := cart[0].amount][id := a];
    }
  }

  /** Appending an item whose id is absent adds that id with the item's amount. */
  lemma {:induction false} QuantitiesAppend(cart: seq<LineItem>, x: LineItem)
    requires IndexOf(cart, x.id).None?
    ensures Quantities(cart + [x]) == Quantities(cart)[x.id := x.amount]
  {
    if cart == [] {
      assert [x][1..] == [];
    } else {
      assert (cart + [x])[1..] == cart[1..] + [x];
      assert cart[0].id != x.id;
      QuantitiesAppend(cart[1..], x);
      assert Quantities(cart + [x])
          == Quantities(cart[1..])[x.id := x.amount][cart[0].id := cart[0].amount]
          == Quantities(cart[1..])[cart[0].id := cart[0].amount][x.id := x.amount];
    }
  }

  /** The map step of `QuantitiesWithout` when the head item has the filtered id. */
  lemma MapOverwriteThenRemove(m: map<int, int>, id: int, v: int)
    ensures m[id := v] - {id} == m - {id}
  {
  }

  /** The map step of `QuantitiesWithout` when the head item has another id and is kept. */
  lemma MapRemoveThenUpdate(m: map<int, int>, id: int, key: int, v: int)
    requires key != id
    ensures (m - {id})[key := v] == m[key := v] - {id}
  {
  }

  /** Filtering out an id removes exactly that key from the view. */
  lemma {:induction false} QuantitiesWithout(cart: seq<LineItem>, id: int)
    ensures Quantities(Without(cart, id)) == Quantities(cart) - {id}
  {
    if cart != [] {
      var head, tail := cart[0], cart[1..];
      QuantitiesWithout(tail, id);
      if head.id == id {
        MapOverwriteThenRemove(Quantities(tail), id, head.amount);
      } else {
        var rest := Without(tail, id);
        assert ([head] + rest)[1..] == rest;
        MapRemoveThenUpdate(Quantities(tail), id, head.id, head.amount);
      }
    }
  }

  // ---------------------------------------------------------------------------
  // addProduct

  /** A successful add raises the product's amount by one in the view and changes no other amount. */
  lemma AddRefinesQuantities(cart: seq<LineItem>, productId: int, stock: Option<int>, product: Option<Product>)
    requires product.Some? ==> product.value.id == productId
    ensures var r := AddProduct(cart, productId, stock, product);
      r.outcome == Ok ==> Quantities(r.cart) == Quantities(cart)[productId := AmountIn(cart, productId) + 1]
  {
    var r := AddProduct(cart, productId, stock, product);
    if r.outcome == Ok {
      match IndexOf(cart, productId)
      case Some(i) =>
        QuantitiesSetAmount(cart, i, cart[i].amount + 1);
      case None =>
        QuantitiesAppend(cart, LineItem(productId, product.value.attrs, 1));
    }
  }

  /** A product not in the cart, with stock of at least one, is appended once with amount one. */
  lemma AddNewProduct(cart: seq<LineItem>, productId: int, stockAmount: int, product: Option<Product>)
    requires productId !in Quantities(cart)
    requires stockAmount >= 1
    ensures var r := AddProduct(cart, productId, Some(stockAmount), product);
      match product
      case None => r == Step(AddFailed, cart)
      case Some(p) =>
        && r.outcome == Ok
        && |r.cart| == |cart| + 1
        && r.cart[..|cart|] == cart
        && r.cart[|cart|] == LineItem(p.id, p.attrs, 1)
  {
  }

  /** A product in the cart with amount q, when q + 1 fits the stock, has amount q + 1 at the same position. */
  lemma AddExistingProduct(cart: seq<LineItem>, i: nat, stockAmount: int, product: Option<Product>)
    requires i < |cart| && IndexOf(cart, cart[i].id) == Some(i)
    requires cart[i].amount + 1 <= stockAmount
    ensures var r := AddProduct(cart, cart[i].id, Some(stockAmount), product);
      && r.outcome == Ok
      && |r.cart| == |cart|
      && r.cart[i] == cart[i].(amount := cart[i].amount + 1)
      && forall j :: 0 <= j < |cart| && j != i ==> r.cart[j] == cart[j]
  {
  }

  /** When the product's amount plus one exceeds the stock, the add fails and the cart stays as it is. */
  lemma AddOverStock(cart: seq<LineItem>, productId: int, stockAmount: int, product: Option<Product>)
    requires AmountIn(cart, productId) + 1 > stockAmount
    ensures AddProduct(cart, productId, Some(stockAmount), product) == Step(StockExceeded, cart)
  {
  }

  /** The add keeps ids unique when the lookup answers with the product it was asked for. */
  lemma AddKeepsWellFormed(cart: seq<LineItem>, productId: int, stock: Option<int>, product: Option<Product>)
    requires WellFormed(cart)
    requires product.Some? ==> product.value.id == productId
    ensures WellFormed(AddProduct(cart, productId, stock, product).cart)
  {
  }

  // ---------------------------------------------------------------------------
  // removeProduct

  /** A successful remove drops exactly the product's key from the view. */
  lemma RemoveRefinesQuantities(cart: seq<LineItem>, productId: int)
    ensures var r := RemoveProduct(cart, productId);
      r.outcome == Ok ==> Quantities(r.cart) == Quantities(cart) - {productId}
  {
    QuantitiesWithout(cart, productId);
  }

  /** Filtering distributes over concatenation: the kept items stay in their order. */
  lemma {:induction false} WithoutAppend(a: seq<LineItem>, b: seq<LineItem>, id: int)
    ensures Without(a + b, id) == Without(a, id) + Without(b, id)
  {
    if a != [] {
      assert (a + b)[1..] == a[1..] + b;
      WithoutAppend(a[1..], b, id);
    } else {
      assert a + b == b;
    }
  }

  /** Dropping the first item keeps ids unique. */
  lemma UniqueTail(cart: seq<LineItem>)
    requires Unique(cart) && cart != []
    ensures Unique(cart[1..])
  {
    var tail := cart[1..];
    forall j, k | 0 <= j < |tail| && 0 <= k < |tail| && tail[j].id == tail[k].id
      ensures j == k
    {
      assert cart[j + 1].id == cart[k + 1].id;
    }
  }

  /** In a cart with unique ids, filtering out the id at position i drops exactly that item. */
  lemma {:induction false} WithoutDropsAt(cart: seq<LineItem>, i: nat)
    requires Unique(cart)
    requires i < |cart|
    ensures Without(cart, cart[i].id) == cart[..i] + cart[i + 1..]
  {
    var id, tail := cart[i].id, cart[1..];
    if i == 0 {
      forall k | 0 <= k < |tail| ensures tail[k].id != id {
        assert cart[k + 1].id != cart[0].id;
      }
    } else {
      UniqueTail(cart);
      assert tail[i - 1] == cart[i];
      WithoutDropsAt(tail, i - 1);
      assert cart[0].id != id;
      assert cart[..i] == [cart[0]] + tail[..i - 1];
      assert cart[i + 1..] == tail[i..];
    }
  }

  /** In a cart with unique ids, removing a present product drops exactly its one line item. */
  lemma RemoveDropsOneItem(cart: seq<LineItem>, i: nat)
    requires Unique(cart)
    requires i < |cart|
    ensures RemoveProduct(cart, cart[i].id) == Step(Ok, cart[..i] + cart[i + 1..])
  {
    WithoutDropsAt(cart, i);
  }

  /** Removing an absent product fails and leaves the cart as it is. */
  lemma RemoveAbsent(cart: seq<LineItem>, productId: int)
    requires forall k :: 0 <= k < |cart| ==> cart[k].id != productId
    ensures RemoveProduct(cart, productId) == Step(RemoveFailed, cart)
  {
  }

  /** Every item the filter keeps comes from the cart it filtered. */
  lemma {:induction false} WithoutMember(cart: seq<LineItem>, id: int, k: nat)
    requires k < |Without(cart, id)|
    ensures Without(cart, id)[k] in cart
  {
    var tail := cart[1..];
    assert cart == [cart[0]] + tail;
    if cart[0].id == id {
      WithoutMember(tail, id, k);
    } else if k > 0 {
      WithoutMember(tail, id, k - 1);
    }
  }

  /** Filtering keeps a subsequence, so unique ids and positive amounts survive it. */
  lemma {:induction false} WithoutKeepsWellFormed(cart: seq<LineItem>, id: int)
    requires WellFormed(cart)
    ensures WellFormed(Without(cart, id))
  {
    if cart != [] {
      var tail := cart[1..];
      UniqueTail(cart);
      WithoutKeepsWellFormed(tail, id);
      if cart[0].id != id {
        var rest := Without(tail, id);
        var r := [cart[0]] + rest;
        forall k | 0 <= k < |rest| ensures rest[k].id != cart[0].id {
          WithoutMember(tail, id, k);
          assert rest[k] in tail;
          var t :| 0 <= t < |tail| && tail[t] == rest[k];
          assert cart[t + 1].id != cart[0].id;
        }
        forall j, k | 0 <= j < |r| && 0 <= k < |r| && r[j].id == r[k].id
          ensures j == k
        {
          if j > 0 && k > 0 {
            assert rest[j - 1].id == rest[k - 1].id;
          }
        }
        assert Positive(r) by {
          forall k | 0 <= k < |r| ensures r[k].amount >= 1 {
            if k > 0 { assert r[k] == rest[k - 1]; }
          }
        }
      }
    }
  }

  /** A remove keeps ids unique and amounts positive. */
  lemma RemoveKeepsWellFormed(cart: seq<LineItem>, productId: int)
    requires WellFormed(cart)
    ensures WellFormed(RemoveProduct(cart, productId).cart)
  {
    WithoutKeepsWellFormed(cart, productId);
  }

  /** A second remove of the same product fails: the first one left none of its items. */
  lemma RemoveTwiceFails(cart: seq<LineItem>, productId: int)
    ensures RemoveProduct(RemoveProduct(cart, productId).cart, productId).outcome == RemoveFailed
  {
  }

  /** Adding a product that was absent and then removing it gives back the cart it started from. */
  lemma AddThenRemove(cart: seq<LineItem>, productId: int, stock: Option<int>, p: Product)
    requires productId !in Quantities(cart)
    requires p.id == productId
    requires AddProduct(cart, productId, stock, Some(p)).outcome == Ok
    ensures RemoveProduct(AddProduct(cart, productId, stock, Some(p)).cart, productId) == Step(Ok, cart)
  {
    var x := LineItem(p.id, p.attrs, 1);
    WithoutAppend(cart, [x], productId);
    assert [x][1..] == [];
  }

  // ---------------------------------------------------------------------------
  // updateProductAmount

  /** A successful update sets the product's amount in the view to exactly the requested amount. */
  lemma UpdateRefinesQuantities(cart: seq<LineItem>, productId: int, amount: int, stock: Option<int>)
    ensures var r := UpdateProductAmount(cart, productId, amount, stock);
      r.outcome == Ok ==> Quantities(r.cart) == Quantities(cart)[productId := amount]
  {
    var r := UpdateProductAmount(cart, productId, amount, stock);
    if r.outcome == Ok {
      QuantitiesSetAmount(cart, IndexOf(cart, productId).value, amount);
    }
  }

  /** An amount of zero or less is ignored without consulting anything. */
  lemma UpdateIgnoresNonPositive(cart: seq<LineItem>, productId: int, amount: int, stock: Option<int>)
    requires amount <= 0
    ensures UpdateProductAmount(cart, productId, amount, stock) == Step(Ignored, cart)
  {
  }

  /** The stock is checked before the item's presence: an amount over stock fails even for an absent item. */
  lemma UpdateChecksStockFirst(cart: seq<LineItem>, productId: int, amount: int, stockAmount: int)
    requires 0 < amount && stockAmount < amount
    ensures UpdateProductAmount(cart, productId, amount, Some(stockAmount)) == Step(StockExceeded, cart)
  {
  }

  /** Within stock, a present item gets exactly the amount at its position, and nothing else changes. */
  lemma UpdatePresent(cart: seq<LineItem>, i: nat, amount: int, stockAmount: int)
    requires i < |cart| && IndexOf(cart, cart[i].id) == Some(i)
    requires 0 < amount <= stockAmount
    ensures var r := UpdateProductAmount(cart, cart[i].id, amount, Some(stockAmount));
      && r.outcome == Ok
      && |r.cart| == |cart|
      && r.cart[i] == cart[i].(amount := amount)
      && forall j :: 0 <= j < |cart| && j != i ==> r.cart[j] == cart[j]
  {
  }

  /** A failed stock lookup, for an amount above zero, fails the update and the cart stays as it is. */
  lemma UpdateLookupFailed(cart: seq<LineItem>, productId: int, amount: int)
    requires amount > 0
    ensures UpdateProductAmount(cart, productId, amount, None) == Step(UpdateFailed, cart)
  {
  }

  /** Within stock, an absent item fails the update and the cart stays as it is. */
  lemma UpdateAbsent(cart: seq<LineItem>, productId: int, amount: int, stockAmount: int)
    requires productId !in Quantities(cart)
    requires 0 < amount <= stockAmount
    ensures UpdateProductAmount(cart, productId, amount, Some(stockAmount)) == Step(UpdateFailed, cart)
  {
  }

  /** An update keeps ids unique and amounts positive: ids are untouched and only an amount above zero is written. */
  lemma UpdateKeepsWellFormed(cart: seq<LineItem>, productId: int, amount: int, stock: Option<int>)
    requires WellFormed(cart)
    ensures WellFormed(UpdateProductAmount(cart, productId, amount, stock).cart)
  {
  }

  /** Repeating a successful update against the same stock answer succeeds and changes nothing. */
  lemma UpdateIdempotent(cart: seq<LineItem>, productId: int, amount: int, stock: Option<int>)
    requires UpdateProductAmount(cart, productId, amount, stock).outcome == Ok
    ensures var c := UpdateProductAmount(cart, productId, amount, stock).cart;
      UpdateProductAmount(c, productId, amount, stock) == Step(Ok, c)
  {
    var i := IndexOf(cart, productId).value;
    var c := UpdateProductAmount(cart, productId, amount, stock).cart;
    forall k | 0 <= k < i ensures c[k].id != productId {
      assert c[k] == cart[k];
    }
    assert c[i].id == productId;
    assert IndexOf(c, productId) == Some(i);
    assert c[i := c[i].(amount := amount)] == c;
  }

  // ---------------------------------------------------------------------------
  // Messages

  /** Failures raise pairwise distinct messages. */
  lemma MessagesDistinct(o1: Outcome, o2: Outcome)
    requires Message(o1).Some? && Message(o2).Some? && o1 != o2
    ensures Message(o1) != Message(o2)
  {
  }
}
