# Shopping-cart state machine, modelled in Dafny

This project models the cart logic of a client-side shop page. The shop keeps
an ordered catalog of products. Each product has a name (`nombre`), a price
(`precio`), an image path (`imagen`) and an integer `stock`. The stock counter
has two jobs. It is the remaining inventory, and a stock below 5 also means
"this product is in the cart". The handlers for add, remove, empty and
payment confirmation change these counters. After every successful change
they save the whole catalog to the browser's "cart" storage slot. The cart
summary and the payment summary both list the products whose stock is below
5, and each total adds every listed price once.

Modules:

- `Catalog` (catalog.dfy): the `Product` record and `MaxStock = 5`. It also
  holds derived cart membership (`InCart`), the cart list (`Lines`) and the
  total (`Total`), the reset used by "empty cart" (`Reset`), and lemmas that
  characterise the list and the total.
- `Summary` (summary.dfy): the two loops that build the cart summary and
  the payment summary. Each is a method proved to produce `Lines` and `Total`.
- `Cart` (cart.dfy): the state, which is the catalog in memory, the "cart"
  slot and the "customerData" slot. It defines the four handlers as pure
  functions returning `(next state, outcome)`, the cart-slot restore, and
  `Step`/`Run` over sequences of user actions.
- `CartProperties` (cart_properties.dfy): properties that relate several
  calls. These include round-trips, bounds, idempotence, totals and the
  persist/restore agreement.

Modelling choices:

- Prices are whole cents (`int`). Stock is an unbounded `int`, because
  nothing checks the catalog document's values. "Stock in [0, 5]" is
  therefore a hypothesis (`Bounded`) that the handlers preserve, not a type.
- The product index is an `int`. An index outside the catalog, including a
  negative one, makes `products[index].stock` throw. The handler's catch block
  turns this into an error alert. The model returns `Error(AddFailed)` or
  `Error(RemoveFailed)` and leaves the state unchanged.
- Each storage slot is an `Option` that holds an exact copy of the value
  last written. JSON serialisation is treated as the identity.
- Alerts are modelled only as the handler's `Outcome`. `Ok` is success.
  `OutOfStock` is the "Producto sin stock" alert. `NoOp` means remove at full
  stock, which shows nothing. `Error(...)` is a catch-block alert.
- Checkout saves the customer, then removes the cart slot, then runs the
  empty-cart handler. That handler saves the reset catalog again, so the
  "cart" slot is present after a successful checkout.

## Model

| member | source | states |
|---|---|---|
| Cart.AddTo | public/js/script.js:57-70 | Succeeds iff the index is in range and its stock is positive. Success lowers that stock by exactly 1, changes no other product or field, and saves the new catalog to the cart slot. A stock of 0 or less reports out-of-stock and an out-of-range index reports an error; both leave the whole state unchanged |
| Cart.RemoveFrom | public/js/script.js:73-84 | Succeeds iff the index is in range and its stock is below 5. Success raises that stock by exactly 1, changes nothing else, and saves. At stock 5 or more it is a silent no-op with no state change and no save. An out-of-range index reports an error and changes nothing |
| Cart.EmptyCart | public/js/script.js:87-98 | Always succeeds. Every stock becomes 5; length, order, names, prices and images are kept; the reset catalog is saved and the customer slot is untouched |
| Cart.ConfirmPayment | public/js/script.js:193-213 | Succeeds iff name and email are both non-empty, otherwise reports the payment error and changes nothing. On success the customer slot holds (name, email), every stock is 5 with names and prices kept, and the cart slot holds the reset catalog rather than being absent |
| Cart.Restore | public/js/script.js:132-139 | When the cart slot is present, the catalog in memory becomes the saved one and the result is in sync with the slot. When the slot is absent, nothing changes. The slots themselves are never altered |
| Cart.Persist | public/js/script.js:127-129 | Writes the whole catalog to the cart slot, so the slot then mirrors the catalog in memory. The catalog and the customer slot are unchanged |
| Catalog.Reset | public/js/script.js:89-91 | Keeps length and every name, price and image, and sets every stock to 5 |
| Summary.UpdateCartSummary | public/js/script.js:100-124 | The loop builds exactly the cart list (`Lines`), and its running total equals `Total` and the sum of the listed prices |
| Summary.UpdatePaymentSummary | public/js/script.js:172-190 | The independent loop lists the same products with the same names and prices in the same order, and gives the same total as the cart summary |
| Catalog.LinesAreInCart | public/js/script.js:109-117 | Every cart line names a catalog position whose product is in the cart, and shows that product's name and price |
| Catalog.InCartHasLine | public/js/script.js:109-117 | Every product with stock below 5 has its line, bound to its own index, in the cart list |
| Catalog.LinesIncreasing | public/js/script.js:109-117 | Cart lines appear in strictly increasing catalog order, so no product is listed twice |
| Catalog.LinesEmptyIff | public/js/script.js:109-110 | The cart list is empty iff no product has stock below 5 |
| Catalog.TotalIsSumOfLines | public/js/script.js:109-123 | The displayed total is the sum of the prices on the displayed lines |
| Catalog.TotalUpdate | public/js/script.js:118 | Changing one product changes the total only by the difference between that product's old and new contribution |
| Catalog.QuantityIrrelevant | public/js/script.js:110-118 | Two catalogs with the same shelf and the same membership have the same cart list and total. Each product is counted once, however far its stock is below 5 |
| Catalog.NothingInCart | public/js/script.js:109-123 | With no stock below 5, the cart list is empty and the total is 0 |
| Catalog.ResetIdempotent | public/js/script.js:89-91 | Resetting twice equals resetting once |
| CartProperties.StepSavesOnlyOnSuccess | public/js/script.js:57-98 | Every successful handler leaves the cart slot equal to the catalog. Every failed or silent handler leaves the whole state unchanged, with no save |
| CartProperties.RestoreAfterSuccess | public/js/script.js:127-139 | After any successful handler, restoring from the cart slot gives back exactly the state in memory |
| CartProperties.StepPreservesBounds | public/js/script.js:59-60 | If every stock is in [0,5] before add, remove, empty or checkout, it still is afterwards |
| CartProperties.RunPreservesBounds | public/js/script.js:57-98 | Stocks stay in [0,5] across any sequence of user actions |
| CartProperties.RunKeepsShelf | public/js/script.js:57-98 | No sequence of actions changes the catalog's length, order, names, prices or images |
| CartProperties.RunKeepsSync | public/js/script.js:127-129 | Once the cart slot mirrors the catalog, it keeps doing so after any sequence of actions |
| CartProperties.EmptyIdempotent | public/js/script.js:87-98 | Emptying twice gives the same state as emptying once |
| CartProperties.EmptyClearsCart | public/js/script.js:87-124 | After emptying, the cart list is empty and the total is 0 |
| CartProperties.CheckoutClearsCart | public/js/script.js:193-213 | After a successful checkout the cart list is empty, the total is 0, and the cart slot is present and restores to the reset catalog |
| CartProperties.AddThenRemove | public/js/script.js:57-84 | For 0 < stock <= 5, add then remove succeeds twice and restores the original catalog, with the cart slot holding it |
| CartProperties.RemoveThenAdd | public/js/script.js:57-84 | For 0 <= stock < 5, remove then add succeeds twice and restores the original catalog |
| CartProperties.AddTotal | public/js/script.js:59-62 | A successful add raises the total by the product's price iff its stock was exactly 5, and otherwise leaves the total unchanged |
| CartProperties.RemoveTotal | public/js/script.js:75-78 | A successful remove lowers the total by the product's price iff its stock was exactly 4, and otherwise leaves the total unchanged |
| CartProperties.SingleProductScenario | public/js/script.js:57-124 | One product at 9.99 at stock 5: four adds give stock 1, one cart line at 9.99 and a total of 9.99; emptying gives stock 5 and a total of 0 |
| CartProperties.TwoProductTotal | public/js/script.js:109-123 | Products at 10.00 with stock 5 and at 20.00 with stock 4 give one cart line, for the second product, and a total of 20.00 |

## Left out

- Fetching the catalog (`loadProducts`, public/js/script.js:4-15) is network I/O. Only its result, a catalog, enters the model as the initial `products`.
- Page startup order (public/js/script.js:239-244) is left out. When the asynchronous fetch succeeds (public/js/script.js:10), it overwrites the restored cart later; when it fails, the catch at public/js/script.js:12-13 leaves the restored catalog in memory. That race is not modelled. `Restore` models only the restore step itself.
- Restore has no parse-error path, because the code has none: `JSON.parse` at public/js/script.js:135 has no catch, so a cart slot that is not valid JSON throws. The model treats slots as exact copies of what was written.
- DOM construction, modal show/hide, `alert` texts and the 3-second auto-dismiss of the in-modal message (public/js/script.js:22-55, 142-169, 227-236) are user-interface effects. Handlers report an `Outcome` instead.
- Floating-point price sums and `toFixed(2)` formatting are left out. Prices are whole cents, so totals are exact.
- Cart.AddTo: a throw after the stock has changed is not modelled. Such a throw can come from re-rendering (public/js/script.js:61-62) or from the cart-slot write in `saveCartToLocalStorage` (public/js/script.js:128, for example a full storage quota). The catch at public/js/script.js:67-68 then shows the add error alert, the lowered stock stays in memory, and the cart slot keeps the previous catalog. The model assumes rendering and storage writes succeed.
- Cart.RemoveFrom: a throw after the stock has changed is not modelled, for the same reasons (public/js/script.js:77-79). The catch at public/js/script.js:81-82 then shows the remove error alert, the raised stock stays in memory, and the cart slot keeps the previous catalog.
- Cart.EmptyCart: its catch block (public/js/script.js:95-96) is not modelled. A throw there would need a malformed catalog entry, a failing re-render, or a failing cart-slot write at public/js/script.js:94. In the last two cases every stock is already 5 in memory but the cart slot keeps the previous catalog.
- Cart.ConfirmPayment: a failing `localStorage.setItem` inside `saveCustomerDataToJson` (public/js/script.js:216-224), for example a full storage quota, is not modelled. The customer write always succeeds.
- Cart.AddTo: non-integer or non-numeric indices and non-numeric stock values, which JavaScript would coerce, are not modelled. Index and stock are integers.
- `server.js` is a static file server with no cart logic.
