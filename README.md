# Shopping-cart hook: cart-mutation engine

This project models the cart state of a storefront's cart hook (`CartProvider` in
`src/hooks/useCart.tsx`). The cart is an ordered list of line items. Each item has a
product id, the product's catalog attributes and an amount. Three operations change the cart:

- **addProduct** raises an item's amount by one in place, or appends the product with
  amount one. It is refused when the new amount would exceed the product's stock.
- **removeProduct** filters out the product's items. It fails when the product is absent.
- **updateProductAmount** sets an item's amount exactly. It ignores amounts of zero or
  less, and it checks the stock before it checks that the item exists.

An operation that succeeds writes the new cart to memory and to the durable store. An
operation that is refused (stock exceeded, item missing) or whose lookup fails changes neither
of them and raises exactly one error message. A store write that itself fails is not modelled
(see `UseCart.CartProvider.Commit` under "## Left out").

Files:

- `cart_logic.dfy` (module `CartLogic`): the data model and the three operations as pure
  transitions. Each transition maps a cart, plus the answers of the remote lookups, to a
  `Step`: an outcome tag and the resulting cart. It also holds `IndexOf` (the `find` the source
  uses), `Without` (the `filter`), the id-to-amount view `Quantities`, the store loader `Load`
  and the message table `Message`.
- `cart_properties.dfy` (module `CartProperties`): lemmas about the transitions. They cover
  what each successful operation does to the id-to-amount view, each case of each operation,
  unique ids and positive amounts being preserved, remove dropping exactly one item, and
  add-then-remove and update-twice.
- `use_cart.dfy` (module `UseCart`): class `CartProvider`. It has the in-memory `cart` and the
  `stored` snapshot as fields. Its methods copy the cart and edit the copy in place. Only on
  success do they commit the copy to both fields. Each method is proved equal to its transition in
  `CartLogic`, and each keeps the invariant `Valid()`: reloading the store gives the in-memory cart.
  `Scenarios` checks four example runs against these contracts.

Remote lookups are parameters. `stock: Option<int>` is the answer of `GET stock/{id}`.
`product: Option<Product>` is the answer of `GET products/{id}`. `None` means the request
failed; the source's `catch` turns that into the operation's generic error.

Where the code settles a case one particular way, the model follows the code:

- The appended item takes its id from the product lookup's answer (`{...product.data, amount: 1}`),
  not from the requested id. The lemmas that need the two to agree take that as a hypothesis.
- `find` picks the first item with the id, and `filter` drops every item with it. The model does
  the same on any list, even one with repeated ids. Uniqueness appears only as a hypothesis
  (`WellFormed`) that the operations are proved to preserve.
- A missing item in `updateProductAmount` is reported with the same message as a failed
  stock lookup (both reach the `catch`). Both are the outcome `UpdateFailed`.

## Model

| member | source | states |
|---|---|---|
| CartLogic.Message | src/hooks/useCart.tsx:48-122 | exactly the outcomes other than success and the silent ignore raise a message, each with the source's text |
| CartLogic.Load | src/hooks/useCart.tsx:27-35 | the initial cart is the stored cart, or empty when nothing is stored |
| CartLogic.IndexOf | src/hooks/useCart.tsx:41 | the result is the position of the first item with the id; none exactly when no item has it |
| CartLogic.Without | src/hooks/useCart.tsx:78 | no kept item has the id; every item with another id is kept; the list is unchanged when no item had the id, and strictly shorter when one did (order: `WithoutAppend`) |
| CartLogic.AmountIn | src/hooks/useCart.tsx:45 | the current amount is that of the first item with the id, or 0 when no item has it |
| CartLogic.Quantities | src/hooks/useCart.tsx:45 | the view's keys are exactly the ids in the cart, each mapped to the amount of its first item |
| CartLogic.AddProduct | src/hooks/useCart.tsx:37-69 | the outcome is success, stock-exceeded or add-failed; failure leaves the cart unchanged; stock-exceeded exactly when the current amount (or 0) plus one exceeds the stock |
| CartLogic.RemoveProduct | src/hooks/useCart.tsx:71-89 | success exactly when the id is present; no item with the id remains; failure leaves the cart unchanged |
| CartLogic.UpdateProductAmount | src/hooks/useCart.tsx:91-124 | the outcome is success, ignored, stock-exceeded or update-failed; ignored exactly when amount <= 0; a failed stock lookup for amount > 0 gives update-failed; stock-exceeded exactly when amount > stock (present or not); success exactly when within stock and present; otherwise unchanged |
| CartProperties.QuantitiesSetAmount | src/hooks/useCart.tsx:54 | setting the first item's amount in place sets that id's amount in the view and nothing else |
| CartProperties.QuantitiesAppend | src/hooks/useCart.tsx:59 | pushing an item with an absent id adds that id with its amount to the view |
| CartProperties.QuantitiesWithout | src/hooks/useCart.tsx:78 | filtering an id removes exactly that key from the view |
| CartProperties.AddRefinesQuantities | src/hooks/useCart.tsx:45-59 | a successful add raises the product's amount by one and changes no other product's amount |
| CartProperties.AddNewProduct | src/hooks/useCart.tsx:53-59 | an absent product with stock >= 1 is appended once at the end with amount 1, earlier items kept in order; a failed product lookup gives add-failed and no change |
| CartProperties.AddExistingProduct | src/hooks/useCart.tsx:45-54 | a present product with amount q and q + 1 <= stock gets amount q + 1 at its position; no other item changes |
| CartProperties.AddOverStock | src/hooks/useCart.tsx:45-51 | when (current amount or 0) + 1 > stock the outcome is stock-exceeded and the cart is unchanged |
| CartProperties.AddKeepsWellFormed | src/hooks/useCart.tsx:41-59 | add keeps ids unique and amounts positive when the lookup answers with the requested product |
| CartProperties.RemoveRefinesQuantities | src/hooks/useCart.tsx:77-78 | a successful remove drops exactly that product from the view |
| CartProperties.WithoutAppend | src/hooks/useCart.tsx:78 | filtering distributes over concatenation, so the kept items keep their order |
| CartProperties.WithoutDropsAt | src/hooks/useCart.tsx:78 | with unique ids, filtering out the id of the item at position i yields exactly the items before and after it, in order |
| CartProperties.RemoveDropsOneItem | src/hooks/useCart.tsx:74-84 | with unique ids, removing a present product yields the old cart minus exactly that one item, order kept |
| CartProperties.RemoveAbsent | src/hooks/useCart.tsx:79-87 | removing an absent id gives remove-failed and the cart unchanged |
| CartProperties.WithoutMember | src/hooks/useCart.tsx:78 | every item the filter keeps is an item of the original cart |
| CartProperties.WithoutKeepsWellFormed | src/hooks/useCart.tsx:78 | filtering keeps ids unique and amounts positive |
| CartProperties.RemoveKeepsWellFormed | src/hooks/useCart.tsx:71-89 | remove keeps ids unique and amounts positive |
| CartProperties.RemoveTwiceFails | src/hooks/useCart.tsx:75-81 | removing the same product a second time fails |
| CartProperties.AddThenRemove | src/hooks/useCart.tsx:56-84 | adding an absent product and then removing it gives back the original cart |
| CartProperties.UpdateRefinesQuantities | src/hooks/useCart.tsx:111-112 | a successful update sets the product's amount in the view to exactly the requested amount, others unchanged |
| CartProperties.UpdateIgnoresNonPositive | src/hooks/useCart.tsx:97-99 | an amount <= 0 is ignored with the cart unchanged, whatever the stock |
| CartProperties.UpdateChecksStockFirst | src/hooks/useCart.tsx:104-109 | an amount above the stock gives stock-exceeded and no change, even for an absent item |
| CartProperties.UpdatePresent | src/hooks/useCart.tsx:111-114 | within stock, a present item gets exactly the amount at its position and no other item changes |
| CartProperties.UpdateLookupFailed | src/hooks/useCart.tsx:104-122 | for amount > 0, a failed stock lookup gives update-failed and the cart unchanged |
| CartProperties.UpdateAbsent | src/hooks/useCart.tsx:115-122 | within stock, an absent item gives update-failed and no change |
| CartProperties.UpdateKeepsWellFormed | src/hooks/useCart.tsx:101-114 | update keeps ids unique and amounts positive |
| CartProperties.UpdateIdempotent | src/hooks/useCart.tsx:101-114 | repeating a successful update with the same stock answer succeeds and changes nothing |
| CartProperties.MessagesDistinct | src/hooks/useCart.tsx:48-122 | the four error messages are pairwise distinct |
| UseCart.CartProvider.constructor | src/hooks/useCart.tsx:27-35 | the cart starts as the stored cart, or empty; reloading the store gives the cart |
| UseCart.CartProvider.Commit | src/hooks/useCart.tsx:61-63 | the new cart is written to memory and to the store, which then agree |
| UseCart.CartProvider.AddProduct | src/hooks/useCart.tsx:37-69 | the outcome and new cart are those of the add transition; the store is written exactly on success and then equals the cart; one message exactly on failure; well-formedness kept |
| UseCart.CartProvider.RemoveProduct | src/hooks/useCart.tsx:71-89 | the outcome and new cart are those of the remove transition; the store is written exactly on success; one message exactly on failure; well-formedness kept |
| UseCart.CartProvider.UpdateProductAmount | src/hooks/useCart.tsx:91-124 | the outcome and new cart are those of the update transition; the store is written exactly on success; no message when ignored, one on failure; well-formedness kept |

## Left out

- React wiring (`createContext`, `useState`, `useContext`, the provider's JSX and the `useCart` hook): UI framework plumbing with no cart logic.
- The HTTP client: the stock and product lookups are the parameters `stock` and `product`, with `None` for a failed request.
- UseCart.CartProvider.Commit: the store write cannot fail in the model. In the source, `setCart` runs before `localStorage.setItem`, so if `setItem` throws (storage quota exceeded, say) the `catch` shows the operation's generic message while the in-memory cart has already changed and the store keeps the old cart. The model's promise that a failed operation changes nothing, and that the store always reloads to the cart, holds only for store writes that succeed.
- `localStorage` and JSON encoding: the store is the field `stored`, holding the cart itself. JSON round-tripping is a library concern, and so is a stored value that does not parse.
- `toast.error`: each operation returns an outcome tag, and `Message` maps the tag to the text the source shows.
- Asynchrony: overlapping calls that both read the old cart and race to write (last write wins) are not modelled. Each operation is one atomic step.
- Aliasing: `[...cart]` copies only the list, so assigning `amount` to a found item also changes the old React state's item. The model uses value semantics.
- JavaScript numbers: amounts and stock are unbounded integers. Fractional amounts and non-numeric lookup answers are not modelled.
- `src/types` and `src/services/api` are not part of this model. `Attributes` stands in for the product's opaque fields (title, price, image).
