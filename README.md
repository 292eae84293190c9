# Shopping cart of the border3d armor storefront, in Dafny

The storefront is a single React component tree (`src/App.tsx`). Almost all of
it is markup. Its only state with logic is the in-memory shopping cart that
`App` holds in the `cartItems` state cell. The cart is an ordered list of cart
lines, and it changes in three ways:

- `addToCart` adds one unit of a product. If a line with the product's id
  already exists, that line gets one more unit. Otherwise a new line with
  quantity 1 is appended.
- `updateQuantity` sets a line's quantity to an absolute value. A value below 1
  is handed to `removeFromCart` instead.
- `removeFromCart` filters out the lines with the id.

Two totals are derived from the lines on every render and never stored: the
item count (`cartCount`) and the drawer's subtotal (`total`). A second, tiny
state cell is the FAQ accordion's `openIndex`, which holds one open question or
none.

The model has six modules:

- `Wrappers` (`wrappers.dfy`) holds `Option`.
- `ShoppingCart` (`cart.dfy`) holds the values: `Product`, `CartLine` and
  `Notice`. It also holds the pure transitions `Add`, `Update`, `SetQuantity`,
  `Increment` and `Remove`, the query `Find`, and the folds `Count` and
  `Subtotal`. It defines the cart invariant `Valid`: ids are distinct and every
  quantity is at least 1.
- `CartLaws` (`cart_laws.dfy`) holds what the transitions promise. This covers
  the invariants they keep, the lines they leave alone, how the totals move, and
  carts reachable from the empty cart through any sequence of clicks.
- `CartStore` (`cart_store.dfy`) has the class `Cart`. Its `lines` field is the
  `cartItems` cell. Its handler methods replace `lines` with the transition's
  result and return the notification the handler raises.
- `Faq` (`faq.dfy`) holds the accordion toggle and the class `Accordion` that
  owns `openIndex`.
- `CartScenarios` (`cart_scenarios.dfy`) states concrete sessions over two
  catalog products.

Modelling choices:

- Prices are integer cents rather than floating-point dollars. For example,
  2.25 becomes 225.
- Quantities are unbounded integers, not doubles.
- A cart line copies every field of the product, as the object spread in
  `addToCart` does, and adds a quantity. `ProductOf` strips the quantity again.
- `Count` and `Subtotal` are left folds starting at 0, as `Array.prototype.reduce` is.
- A toast becomes a returned `Notice` carrying the toast's exact text.

Two details of the code the model keeps (`src/App.tsx:805-813`):

- A line is more than an id and a quantity. It carries the product's name,
  price, image and category, copied at first add.
- `addToCart` increments every line whose id matches, not only the first. The cart
  invariant keeps that to exactly one line, and `CartLaws.AddExisting` states
  the single-line result under `DistinctIds`.

## Model

| member | source | states |
|---|---|---|
| `ShoppingCart.NewLine` | src/App.tsx:813 | The appended line carries exactly the product's fields (`ProductOf` gives the product back) and quantity 1 |
| `ShoppingCart.Find` | src/App.tsx:805 | `find` returns a line if and only if some line has the id. The line returned has that id and is the first line with it |
| `ShoppingCart.Increment` | src/App.tsx:807-811 | The increment `map` keeps the length. Every line with the id gains one unit. Every other line stays unchanged in the same position |
| `ShoppingCart.SetQuantity` | src/App.tsx:823-827 | The update `map` keeps the length. Every line with the id gets exactly quantity `q`. Every other line stays unchanged in the same position |
| `ShoppingCart.Remove` | src/App.tsx:831 | The `filter` keeps exactly the lines whose id differs. No line with the id remains. The result is no longer than the input. Without such a line the cart is returned unchanged |
| `ShoppingCart.Add` | src/App.tsx:804-814 | For an absent id the result is the old lines followed by the product's new line. For a present id the length is kept, every line with the id gains one unit and every other line stays in place. `CartLaws.AddNew`, `CartLaws.AddExisting` and `CartLaws.AddTotals` state what this means for `find` and the totals |
| `ShoppingCart.Update` | src/App.tsx:818-828 | Below 1 the result is the removal's. From 1 up the length is kept, every line with the id gets exactly `q` and every other line stays in place. `CartLaws.UpdateBelowOneIsRemove`, `CartLaws.UpdateSetsExactly` and `CartLaws.UpdateAbsent` restate this through `find` |
| `ShoppingCart.Count` | src/App.tsx:835 | When every quantity is at least 1, the number of lines is at most `cartCount`. `CartLaws.CountAppend` and `CartLaws.CountReplace` state how it moves |
| `ShoppingCart.Subtotal` | src/App.tsx:712 | With no negative price and every quantity at least 1, `total` is never negative. `CartLaws.CountAppend` and `CartLaws.CountReplace` state how it moves |
| `ShoppingCart.AddNotice` | src/App.tsx:815 | `addToCart` raises a success notification whose text starts with the product's name |
| `ShoppingCart.RemoveNotice` | src/App.tsx:832 | `removeFromCart` raises an informational notification |
| `ShoppingCart.UpdateNotice` | src/App.tsx:818-828 | `updateQuantity` notifies if and only if the quantity is below 1, and then with the removal's notification |
| `CartLaws.CountAppend` | src/App.tsx:835 | The count and subtotal folds split over concatenation: the total of `a + b` is the total of `a` plus the total of `b` |
| `CartLaws.CountReplace` | src/App.tsx:712 | Replacing one line changes the count by the difference in quantity, and the subtotal by the difference in `price * quantity` |
| `CartLaws.FindUnique` | src/App.tsx:805 | With distinct ids, `find` returns the one line that has the id |
| `CartLaws.AddNew` | src/App.tsx:813 | Adding an absent product appends exactly one line at the end and keeps the old lines in front. The new line has quantity 1 and the product's fields, and it is what `find` now returns |
| `CartLaws.AddExisting` | src/App.tsx:805-811 | Adding a present product keeps the length and every other line. `find` now returns the old line with one more unit. Ids stay distinct, so no duplicate line is created |
| `CartLaws.AddPreservesValid` | src/App.tsx:803-816 | `addToCart` keeps ids distinct and every quantity at least 1 |
| `CartLaws.AddTotals` | src/App.tsx:809-813 | One add raises the count by exactly 1. It raises the subtotal by the price stored on the product's line, or by the product's price when the line is new |
| `CartLaws.AddExistingTotals` | src/App.tsx:809 | Incrementing an existing line adds 1 to the count and that line's price to the subtotal |
| `CartLaws.AddNewTotals` | src/App.tsx:813 | Appending a new line adds 1 to the count and the product's price to the subtotal |
| `CartLaws.UpdateBelowOneIsRemove` | src/App.tsx:819-821 | A quantity below 1 has exactly the effect of `removeFromCart`: the same cart and the same informational notification |
| `CartLaws.UpdateSetsExactly` | src/App.tsx:823-827 | A quantity of 1 or more is an absolute set on the matching line only, with no notification. The length and the other lines are unchanged |
| `CartLaws.UpdateAbsent` | src/App.tsx:823-827 | Updating an id that is not in the cart leaves the cart unchanged, whatever the quantity |
| `CartLaws.UpdateTotals` | src/App.tsx:825 | Setting a line to `q` changes the count by `q - old quantity`, and the subtotal by `price * q - price * old quantity` |
| `CartLaws.SetQuantityPreservesValid` | src/App.tsx:823-827 | Setting a quantity of 1 or more keeps ids distinct and quantities at least 1 |
| `CartLaws.UpdatePreservesValid` | src/App.tsx:818-828 | `updateQuantity` keeps the cart invariant for every quantity, including those below 1 |
| `CartLaws.RemoveAppend` | src/App.tsx:831 | The filter works line by line: removing from `a + b` equals removing from `a` and from `b` and concatenating, so the kept lines keep their order |
| `CartLaws.RemoveIdempotent` | src/App.tsx:831 | Removing an id twice equals removing it once |
| `CartLaws.RemovePreservesValid` | src/App.tsx:831 | `removeFromCart` keeps ids distinct and quantities at least 1 |
| `CartLaws.RemoveAt` | src/App.tsx:831 | With distinct ids, removing a present line drops exactly that line. The lines before and after it stay in place |
| `CartLaws.RemoveTotals` | src/App.tsx:830-833 | Removing a present line shortens the cart by one. It lowers the count by that line's quantity and the subtotal by its `price * quantity` |
| `CartLaws.ReachableValid` | src/App.tsx:800-835 | Every cart reached from the empty cart by any sequence of add, update and remove clicks has distinct ids and quantities of at least 1. It therefore has no more lines than `cartCount` |
| `CartLaws.ApplyKeepsPrices` | src/App.tsx:803-833 | If every line carries its catalog price, that stays true after any single click, provided an added product comes from the catalog |
| `CartLaws.ReachablePricedBy` | src/App.tsx:813 | In every cart reached from the empty cart by adding catalog products, each line carries its product's catalog price |
| `CartLaws.ReachableAddTotals` | src/App.tsx:803-816 | In every reachable cart, adding a catalog product raises `cartCount` by 1 and `total` by exactly that product's price |
| `CartStore.Cart.constructor` | src/App.tsx:800 | A session starts with an empty, valid cart |
| `CartStore.Cart.CartCount` | src/App.tsx:835 | The item count of a valid cart is at least its number of lines |
| `CartStore.Cart.Total` | src/App.tsx:712 | The drawer's total of a valid cart with no negative price is never negative |
| `CartStore.Cart.AddToCart` | src/App.tsx:803-816 | The handler replaces the lines with `Add` and returns the success notice naming the product. It keeps the invariant, raises the count by 1 and raises the total by the price on the product's line (the product's price for a new line) |
| `CartStore.Cart.UpdateQuantity` | src/App.tsx:818-828 | The handler replaces the lines with `Update` and returns the removal notice only when the quantity is below 1. It keeps the invariant |
| `CartStore.Cart.RemoveFromCart` | src/App.tsx:830-833 | The handler replaces the lines with `Remove` and always returns the informational notice. It keeps the invariant |
| `Faq.Toggle` | src/App.tsx:549 | After a click, question `j` is open if and only if `j` is the clicked question and that question was not already open. Clicking the open question closes everything, and at most one question is ever open |
| `Faq.ToggleTwice` | src/App.tsx:549 | Clicking a question twice leaves it open if it was the open one before. Otherwise the accordion ends up closed, even if another question was open |
| `Faq.Accordion.constructor` | src/App.tsx:532 | The accordion starts with no question open |
| `Faq.Accordion.Click` | src/App.tsx:549 | The click handler's new `openIndex` is `Toggle` of the old one |
| `CartScenarios.AddAddAdd` | src/App.tsx:803-835 | Given the empty cart, adding Dwarf Kingsguard twice and then The Winged Hussar gives two lines with quantities 2 and 1, 3 items and a subtotal of 1250 cents |
| `CartScenarios.UpdateIsAbsolute` | src/App.tsx:823-827 | Updating a line of quantity 2 to 5 gives 5, not 7 |
| `CartScenarios.RemoveSecond` | src/App.tsx:831 | Removing id 3 from lines 1 and 3 leaves line 1 |
| `CartScenarios.Session` | src/App.tsx:800-835 | Three adds, an update to 5 and an update to 0 through the store's handlers give the success notice naming the product, 3 items and 1250 cents, then no notice, then the removal notice |
| `CartScenarios.UpdateZeroAndNegative` | src/App.tsx:819-821 | Updating to 0 and updating to -3 both remove the line |

## Left out

- Rendering: the JSX, layout, CSS classes, images, icons and the UI library components are presentation only.
- Toast display: the `sonner` library is foreign code. The handlers return a `Notice` value with the toast's text instead.
- The checkout and other stand-alone toasts carry no state.
- The window scroll listener and its `isScrolled` threshold are browser event I/O.
- The mobile menu flag and the cart drawer's open flag are plain booleans with nothing to prove.
- Prices are integer cents. Floating-point arithmetic and the `toFixed(2)` formatting are not modelled.
- Quantities are integers. A JavaScript `number` could hold a fraction, but every caller passes an existing quantity plus or minus 1.
- CartLaws.AddTotals: a JavaScript `number` is a double. From 2^53 on, `item.quantity + 1` no longer adds exactly 1. The model's quantities are unbounded, so this law, `CartLaws.ReachableAddTotals` and the count clause of `CartStore.Cart.AddToCart` hold only for quantities below that bound in the source.
- React runs updates asynchronously and batches them. The model applies each handler at once. Because the three cart handlers use the updater form (`prev => …`), a sequence of handler calls with given arguments gives the same cart.
- CartStore.Cart.UpdateQuantity: the drawer's minus and plus buttons (`src/App.tsx:751`, `src/App.tsx:758`) pass the rendered `item.quantity` minus or plus 1, not one computed from the pending cart. The model assumes each of those clicks sees the cart rendered after the previous click; two clicks batched before a re-render set the same quantity twice in the source.
- Faq.Accordion.Click: the FAQ click handler computes the new index from the rendered `openIndex`, not from an updater. The model assumes each click sees the state rendered after the previous click.
- The static catalog, portfolio, review and FAQ arrays are constant content. Two catalog products appear only as scenario inputs.
- Footer link slugs are a one-off string rewrite over constant text.
