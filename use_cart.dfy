/**
 The cart provider: the in-memory cart and the snapshot the durable store
 holds, updated in place by the three operations. Each operation works on a
 copy of the cart, edits the copy, and only on success writes it back to both
 the in-memory cart and the store. The answers of the remote stock and product
 lookups are parameters; `None` stands for a request that failed.
 */
module UseCart {
  import opened CartLogic
  import CartProperties

  class CartProvider {
    /** The cart the provider exposes to its callers. */
    var cart: seq<LineItem>
    /** What the durable store holds under the cart's key; `None` when the key is absent. */
    var stored: Option<seq<LineItem>>

    /** Reloading the store yields the in-memory cart. */
    ghost predicate Valid()
      reads this
    {
      Load(stored) == cart
    }

    /** The initial state: the cart is read from the store, empty when the store holds nothing. */
    constructor (store: Option<seq<LineItem>>)
      ensures Valid()
      ensures stored == store
      ensures cart == Load(store)
    {
      stored := store;
      cart := Load(store);
    }

    /** Writes a new cart to the in-memory state and to the store. */
    method Commit(updated: seq<LineItem>)
      modifies this
      ensures cart == updated && stored == Some(updated)
      ensures Valid()
    {
      cart := updated;
      stored := Some(updated);
    }

    /**
     `addProduct`: on a copy of the cart, raise the product's amount in place or append it
     with amount one; commit only when the stock allows it and every lookup answered.
     */
    method AddProduct(productId: int, stock: Option<int>, product: Option<Product>) returns (outcome: Outcome)
      requires Valid()
      modifies this
      ensures Valid()
      ensures Step(outcome, cart) == CartLogic.AddProduct(old(cart), productId, stock, product)
      ensures stored == if outcome == Ok then Some(cart) else old(stored)
      ensures Message(outcome).Some? <==> outcome != Ok
      ensures WellFormed(old(cart)) && (product.Some? ==> product.value.id == productId) ==> WellFormed(cart)
    {
      if WellFormed(cart) && (product.Some? ==> product.value.id == productId) {
        CartProperties.AddKeepsWellFormed(cart, productId, stock, product);
      }
      var cartUpdated := cart;
      var found := IndexOf(cartUpdated, productId);
      if stock.None? {
        return AddFailed;
      }
      var currentAmount := if found.Some? then cartUpdated[found.value].amount else 0;
      var amount := currentAmount + 1;
      if amount > stock.value {
        return StockExceeded;
      }
      if found.Some? {
        var i := found.value;
        cartUpdated := cartUpdated[i := cartUpdated[i].(amount := amount)];
      } else {
        if product.None? {
          return AddFailed;
        }
        var newProduct := LineItem(product.value.id, product.value.attrs, 1);
        cartUpdated := cartUpdated + [newProduct];
      }
      Commit(cartUpdated);
      outcome := Ok;
    }

    /** `removeProduct`: filter out the product's items and commit, or fail when there are none. */
    method RemoveProduct(productId: int) returns (outcome: Outcome)
      requires Valid()
      modifies this
      ensures Valid()
      ensures Step(outcome, cart) == CartLogic.RemoveProduct(old(cart), productId)
      ensures stored == if outcome == Ok then Some(cart) else old(stored)
      ensures Message(outcome).Some? <==> outcome != Ok
      ensures WellFormed(old(cart)) ==> WellFormed(cart)
    {
      if WellFormed(cart) {
        CartProperties.RemoveKeepsWellFormed(cart, productId);
      }
      var cartUpdated := cart;
      var found := IndexOf(cartUpdated, productId);
      if found.Some? {
        cartUpdated := Without(cartUpdated, productId);
      } else {
        return RemoveFailed;
      }
      Commit(cartUpdated);
      outcome := Ok;
    }

    /**
     `updateProductAmount`: ignore a non-positive amount; otherwise check the stock first and
     the item's presence second, and set the amount in place on a copy before committing it.
     */
    method UpdateProductAmount(productId: int, amount: int, stock: Option<int>) returns (outcome: Outcome)
      requires Valid()
      modifies this
      ensures Valid()
      ensures Step(outcome, cart) == CartLogic.UpdateProductAmount(old(cart), productId, amount, stock)
      ensures stored == if outcome == Ok then Some(cart) else old(stored)
      ensures Message(outcome).Some? <==> outcome != Ok && outcome != Ignored
      ensures WellFormed(old(cart)) ==> WellFormed(cart)
    {
      if WellFormed(cart) {
        CartProperties.UpdateKeepsWellFormed(cart, productId, amount, stock);
      }
      if amount <= 0 {
        return Ignored;
      }
      var cartUpdated := cart;
      var found := IndexOf(cartUpdated, productId);
      if stock.None? {
        return UpdateFailed;
      }
      if amount > stock.value {
        return StockExceeded;
      }
      if found.Some? {
        var i := found.value;
        cartUpdated := cartUpdated[i := cartUpdated[i].(amount := amount)];
        Commit(cartUpdated);
        outcome := Ok;
      } else {
        outcome := UpdateFailed;
      }
    }
  }

  /** The scenarios of the hook's intended behaviour, checked against the provider's contracts. */
  method Scenarios(a: Attributes)
  {
    var p := new CartProvider(None);
    assert p.cart == [];
    var o := p.AddProduct(1, Some(5), Some(Product(1, a)));
    assert o == Ok && p.cart == [LineItem(1, a, 1)] && p.stored == Some(p.cart);

    var q := new CartProvider(Some([LineItem(1, a, 5)]));
    o := q.AddProduct(1, Some(5), Some(Product(1, a)));
    assert o == StockExceeded && q.cart == [LineItem(1, a, 5)];

    var r := new CartProvider(Some([LineItem(2, a, 3)]));
    o := r.RemoveProduct(5);
    assert o == RemoveFailed && r.cart == [LineItem(2, a, 3)];

    var s := new CartProvider(Some([LineItem(1, a, 2)]));
    o := s.UpdateProductAmount(1, 7, Some(10));
    assert o == Ok && s.cart == [LineItem(1, a, 7)] && s.stored == Some([LineItem(1, a, 7)]);
    o := s.UpdateProductAmount(1, 0, Some(10));
    assert o == Ignored && s.cart == [LineItem(1, a, 7)];
  }
}
