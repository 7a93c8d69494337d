/**
 The cart-mutation engine of the shopping-cart hook, as pure transitions.

 A cart is an ordered sequence of line items. Each of the three operations
 (add a product, remove a product, set a product's amount) maps the cart it
 starts from, and the answers of the remote lookups it needs, to a `Step`:
 the outcome tag the caller sees and the cart that results. A step whose
 outcome is not `Ok` leaves the cart exactly as it was.
 */
module CartLogic {

  datatype Option<T> = None | Some(value: T)

  /** Catalog attributes of a product, passed through from the lookup service. */
  datatype Attributes = Attributes(title: string, price: int, image: string)

  /** What `GET products/{id}` answers: the product's id and its attributes. */
  datatype Product = Product(id: int, attrs: Attributes)

  /** A line item: the product's id and attributes plus the amount in the cart. */
  datatype LineItem = LineItem(id: int, attrs: Attributes, amount: int)

  /** The outcome of an operation; each one except `Ok` and `Ignored` shows one error message. */
  datatype Outcome = Ok | StockExceeded | AddFailed | RemoveFailed | UpdateFailed | Ignored

  datatype Step = Step(outcome: Outcome, cart: seq<LineItem>)

  /** The user-facing message an outcome raises, if any. */
  function Message(o: Outcome): (m: Option<string>)
    ensures m.None? <==> o == Ok || o == Ignored
  {
    match o
    case Ok => None
    case Ignored => None
    case StockExceeded => Some("Quantidade solicitada fora de estoque")
    case AddFailed => Some("Erro na adição do produto")
    case RemoveFailed => Some("Erro na remoção do produto")
    case UpdateFailed => Some("Erro na alteração de quantidade do produto")
  }

  /** The cart the hook starts with: what the store holds, or the empty cart when it holds nothing. */
  function Load(store: Option<seq<LineItem>>): (c: seq<LineItem>)
    ensures store.None? ==> c == []
    ensures store.Some? ==> c == store.value
  {
    if store.Some? then store.value else []
  }

  /** No two line items share an id. */
  ghost predicate Unique(cart: seq<LineItem>) {
    forall j, k :: 0 <= j < |cart| && 0 <= k < |cart| && cart[j].id == cart[k].id ==> j == k
  }

  /** Every line item has an amount of at least one. */
  ghost predicate Positive(cart: seq<LineItem>) {
    forall k :: 0 <= k < |cart| ==> cart[k].amount >= 1
  }

  /** The carts the hook is meant to keep: unique ids, positive amounts. */
  ghost predicate WellFormed(cart: seq<LineItem>) {
    Unique(cart) && Positive(cart)
  }

  /** The position of the first line item with the given id, as `Array.prototype.find` locates it. */
  function IndexOf(cart: seq<LineItem>, id: int): (r: Option<nat>)
    ensures r.Some? ==> r.value < |cart| && cart[r.value].id == id
    ensures r.Some? ==> forall k :: 0 <= k < r.value ==> cart[k].id != id
    ensures r.None? <==> forall k :: 0 <= k < |cart| ==> cart[k].id != id
  {
    if cart == [] then None
    else if cart[0].id == id then Some(0)
    else match IndexOf(cart[1..], id)
      case None => None
      case Some(k) => Some(k + 1)
  }

  /** The cart with every line item of the given id filtered out, order kept. */
  function Without(cart: seq<LineItem>, id: int): (r: seq<LineItem>)
    ensures |r| <= |cart|
    ensures forall k :: 0 <= k < |r| ==> r[k].id != id
    ensures forall k :: 0 <= k < |cart| && cart[k].id != id ==> cart[k] in r
    ensures (forall k :: 0 <= k < |cart| ==> cart[k].id != id) ==> r == cart
    ensures (exists k :: 0 <= k < |cart| && cart[k].id == id) ==> |r| < |cart|
  {
    if cart == [] then []
    else if cart[0].id == id then Without(cart[1..], id)
    else [cart[0]] + Without(cart[1..], id)
  }

  /**
   The cart seen as a map from product id to amount. Where ids repeat, the
   first line item wins, as it does for `find`.
   */
  function Quantities(cart: seq<LineItem>): (m: map<int, int>)
    ensures forall id :: id in m <==> IndexOf(cart, id).Some?
    ensures forall id :: id in m ==> m[id] == cart[IndexOf(cart, id).value].amount
  {
    if cart == [] then map[]
    else Quantities(cart[1..])[cart[0].id := cart[0].amount]
  }

  /**
   The amount of the product in the cart, zero when it is absent: the amount
   `addProduct` starts from before adding one.
   */
  function AmountIn(cart: seq<LineItem>, id: int): (q: int)
    ensures IndexOf(cart, id).None? ==> q == 0
    ensures IndexOf(cart, id).Some? ==> q == cart[IndexOf(cart, id).value].amount
  {
    var m := Quantities(cart);
    if id in m then m[id] else 0
  }

  /** `addProduct`: the stock answer and, for a product not yet in the cart, the product answer. */
  function AddProduct(cart: seq<LineItem>, productId: int, stock: Option<int>, product: Option<Product>): (r: Step)
    ensures r.outcome == Ok || r.outcome == StockExceeded || r.outcome == AddFailed
    ensures r.outcome != Ok ==> r.cart == cart
    ensures r.outcome == Ok ==> stock.Some? && AmountIn(cart, productId) + 1 <= stock.value
    ensures r.outcome == StockExceeded <==> stock.Some? && AmountIn(cart, productId) + 1 > stock.value
  {
    match stock
    case None => Step(AddFailed, cart)
    case Some(stockAmount) =>
      var found := IndexOf(cart, productId);
      var currentAmount := if found.Some? then cart[found.value].amount else 0;
      var amount := currentAmount + 1;
      if amount > stockAmount then Step(StockExceeded, cart)
      else if found.Some? then Step(Ok, cart[found.value := cart[found.value].(amount := amount)])
      else match product
        case None => Step(AddFailed, cart)
        case Some(p) => Step(Ok, cart + [LineItem(p.id, p.attrs, 1)])
  }

  /** `removeProduct`: filter out the product's line items, or fail when there are none. */
  function RemoveProduct(cart: seq<LineItem>, productId: int): (r: Step)
    ensures r.outcome == Ok || r.outcome == RemoveFailed
    ensures r.outcome == Ok <==> productId in Quantities(cart)
    ensures r.outcome != Ok ==> r.cart == cart
    ensures r.outcome == Ok ==> |r.cart| < |cart|
    ensures forall k :: 0 <= k < |r.cart| ==> r.cart[k].id != productId
  {
    if IndexOf(cart, productId).Some? then Step(Ok, Without(cart, productId))
    else Step(RemoveFailed, cart)
  }

  /** `updateProductAmount`: ignore non-positive amounts, check the stock, then the item's presence. */
  function UpdateProductAmount(cart: seq<LineItem>, productId: int, amount: int, stock: Option<int>): (r: Step)
    ensures r.outcome == Ok || r.outcome == Ignored || r.outcome == StockExceeded || r.outcome == UpdateFailed
    ensures r.outcome == Ignored <==> amount <= 0
    ensures amount > 0 && stock.None? ==> r.outcome == UpdateFailed
    ensures r.outcome == StockExceeded <==> amount > 0 && stock.Some? && amount > stock.value
    ensures r.outcome == Ok <==>
      amount > 0 && stock.Some? && amount <= stock.value && productId in Quantities(cart)
    ensures r.outcome != Ok ==> r.cart == cart
    ensures r.outcome == Ok ==> |r.cart| == |cart|
  {
    if amount <= 0 then Step(Ignored, cart)
    else match stock
      case None => Step(UpdateFailed, cart)
      case Some(stockAmount) =>
        var found := IndexOf(cart, productId);
        if amount > stockAmount then Step(StockExceeded, cart)
        else if found.Some? then Step(Ok, cart[found.value := cart[found.value].(amount := amount)])
        else Step(UpdateFailed, cart)
  }
}
