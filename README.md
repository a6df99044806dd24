# Shopping cart of tp-poo-panier, modelled in Dafny

The page `assets/js/script.js` keeps a shopping cart as a global, ordered list
of line items (reference, name, unit price, quantity). The user can delete a
product by reference, add one through four prompts, and edit a row's quantity.
After each change the page recomputes the footer: the subtotal, 20% VAT on the
subtotal before delivery, the delivery fee of the selected mode (relay point 5,
home 12), the total price with delivery and the final total. It then saves the
cart to the browser's local storage, and reloads it from there at start-up.

The model has four modules:

- `Wrappers` (`wrappers.dfy`): `Option`, for parsed inputs and the stored entry.
- `CartItems` (`cart_items.dfy`): the `LineItem` value, the starting sample
  cart, the line price, the subtotal (a left-to-right sum), removal by reference
  (`Without`), and lemmas about them, including how a quantity edit moves the
  subtotal.
- `CartTotals` (`cart_totals.dfy`): the delivery modes and their fee table, the
  `Totals` record, `TotalsOf` as the specification of the footer, and lemmas
  about it, including the worked examples.
- `ShoppingCart` (`shopping_cart.dfy`): a `Storage` class for the "cart" entry
  of local storage, and a `Cart` class whose `products: seq<LineItem>` field
  plays the global list. Its methods reassign the list as the page does. Each
  one ends as the page does: totals recomputed and the list saved. So after
  every change `storage.cart == Some(products)`. `SaveThenLoad` proves that
  loading right after a save gives back the same list.

Items are values. The quantity listener changes the one object that its row was
built from, so `SetQuantity` picks that item by its row index. It does not pick
it by reference, because references may repeat: the page never checks for
duplicates. `deleteProduct` filters the list, so it removes every item with the
given reference, not only the first one. The model does the same.

## Model

| member | source | states |
|---|---|---|
| `CartItems.Without` | assets/js/script.js:87 | the kept items are exactly the items of the cart whose reference differs, and the list never grows |
| `CartItems.LinePriceDelta` | assets/js/script.js:160-163 | when a row's quantity is set, its line price changes by unit price × (new − old quantity) |
| `CartItems.SubtotalReplace` | assets/js/script.js:26-31 | replacing one row changes the subtotal by the new line price minus the old one |
| `CartItems.SubtotalAppend` | assets/js/script.js:26-31 | the running sum over two consecutive parts of the cart is the sum of their subtotals |
| `CartItems.SubtotalPush` | assets/js/script.js:112-117 | appending an item raises the subtotal by exactly its line price |
| `CartItems.SubtotalAfterQuantityEdit` | assets/js/script.js:160-166 | after a quantity edit the subtotal moves by unit price × (new − old quantity) |
| `CartItems.SubtotalNonNegative` | assets/js/script.js:26-31 | with non-negative prices and quantities the subtotal is non-negative (the page does not enforce either) |
| `CartItems.WithoutRemovesAll` | assets/js/script.js:87 | after deletion no item carries the deleted reference: every match is removed |
| `CartItems.WithoutAbsent` | assets/js/script.js:87 | deleting a reference that no item carries leaves the cart unchanged |
| `CartItems.WithoutConcat` | assets/js/script.js:87 | deletion distributes over concatenation, so kept items keep their original relative order |
| `CartItems.WithoutShrinksIffPresent` | assets/js/script.js:87 | deletion shortens the cart if and only if some item carries the reference |
| `CartItems.WithoutIdempotent` | assets/js/script.js:87 | deleting the same reference twice equals deleting it once |
| `CartItems.DeleteUndoesPush` | assets/js/script.js:85-117 | appending an item with a fresh reference and then deleting that reference restores the cart |
| `CartTotals.FinalTotalClosedForm` | assets/js/script.js:38-45 | final total = subtotal + delivery fee + subtotal/5, and = total price + VAT |
| `CartTotals.VatIgnoresDelivery` | assets/js/script.js:38-42 | VAT is one fifth of the subtotal and does not depend on the delivery mode |
| `CartTotals.TotalPriceAddsFee` | assets/js/script.js:9-12 | the displayed total price is subtotal + fee, with relay costing 5 and home 12 |
| `CartTotals.EmptyCartTotals` | assets/js/script.js:24-45 | an empty cart has no VAT and totals exactly the delivery fee |
| `CartTotals.PushRaisesFinalTotal` | assets/js/script.js:112-120 | appending an item raises the final total by 1.2 × its line price |
| `CartTotals.QuantityEditMovesFinalTotal` | assets/js/script.js:158-166 | a quantity edit moves the final total by 1.2 × the change in that line's price |
| `CartTotals.SoapRelayScenario` | assets/js/script.js:24-45 | the cart [5K96 Savon, 6, 4] with relay gives subtotal 24, VAT 4.8, fee 5, total price 29, final 33.8 |
| `CartTotals.SoapHomeScenario` | assets/js/script.js:24-45 | the same cart with home delivery gives a final total of 40.8 |
| `CartTotals.SampleCartScenario` | assets/js/script.js:2-6 | the starting cart has subtotal 64, VAT 12.8, and with relay total price 69 and final total 81.8 |
| `CartTotals.SampleQuantityTenScenario` | assets/js/script.js:160-163 | setting the soap row of the starting cart to 10 makes its line price 60 and the final total 125 |
| `ShoppingCart.Storage.constructor` | assets/js/script.js:71 | the "cart" entry holds whatever was stored before the page opened, or nothing |
| `ShoppingCart.Cart.constructor` | assets/js/script.js:2-6 | the cart starts as the three sample items, in order |
| `ShoppingCart.Cart.ComputeTotals` | assets/js/script.js:24-50 | the accumulating loop yields exactly `TotalsOf(products, mode)`, and one price-column value per row equal to that row's line price |
| `ShoppingCart.Cart.Save` | assets/js/script.js:59-61 | the "cart" entry afterwards holds the current items |
| `ShoppingCart.Cart.UpdateTotals` | assets/js/script.js:24-54 | the footer shows `TotalsOf(products, mode)` and the entry holds the current items |
| `ShoppingCart.Cart.Delete` | assets/js/script.js:85-90 | the new cart is `Without(old cart, reference)`: no match remains, an absent reference changes nothing, the cart shrinks iff the reference was present; totals recomputed and saved |
| `ShoppingCart.Cart.Add` | assets/js/script.js:102-128 | with a valid price and quantity the cart is the old cart with the new item appended, with the totals shown and the cart saved; otherwise (alert) the cart and storage are unchanged |
| `ShoppingCart.Cart.SetQuantity` | assets/js/script.js:158-167 | only that row's quantity changes: every other row, and that row's reference, name and unit price, stay; the row shows unit price × new quantity; the subtotal moves by the price of the difference; totals saved |
| `ShoppingCart.Cart.Load` | assets/js/script.js:70-78 | a stored cart replaces the items wholesale and the totals are shown; with nothing stored the items are kept; the entry is unchanged |
| `ShoppingCart.Cart.SaveThenLoad` | assets/js/script.js:59-78 | saving and then loading leaves the items unchanged, keeps them stored, and shows their totals |
| `ShoppingCart.Cart.Start` | assets/js/script.js:174-178 | page start: the items become the stored cart if any, the totals are shown, and the entry holds the items |

## Left out

- Table rendering and event wiring (`generateTable`, the row templates, `querySelector`, `textContent` writes, `addEventListener`, the delete button's inline handler): user interface. The model keeps only the values these write: the footer totals and the per-row prices.
- The writes to the price column go through `getElementById` on `price-<reference>`. With duplicate references they reach only the first matching row. This is a property of the document, not of the cart, and is not modelled.
- ShoppingCart.Cart.Add: the model always rebuilds the table, shows the totals and saves after a valid add. On the page, the rebuild (assets/js/script.js:137-171) looks up each row's input with the CSS selector `#quantity-<reference>` and calls `addEventListener` on the result. Some references break this. With "Pack x" or "A.b" the selector is valid but matches nothing, so the lookup returns null. With "Pack 2", "A.1" or a reference holding a quote the selector is invalid, so the lookup throws. In both cases the rebuild throws after the item was pushed, and the totals and the save are skipped. The model does not say which references the selector accepts, so it does not model this failure.
- ShoppingCart.Cart.Delete: while an item with such a reference is in the list, the rebuild after deletion fails the same way, so the recompute and save are skipped; the inline delete handler also breaks on a reference holding `'` or `\`. Not modelled.
- ShoppingCart.Cart.Load: a loaded list holding such a reference makes the same rebuild fail, so the re-save and the totals are skipped. Not modelled.
- ShoppingCart.Cart.Start: the start-up rebuild fails the same way on such a reference. Not modelled.
- Serialisation: `JSON.stringify`/`JSON.parse` are taken to give back the same list. A corrupt stored entry, which would make parsing throw, is not modelled.
- Input collection: `prompt`, `parseFloat`, `parseInt` and `alert`. `Add` receives the parsed price and quantity as `Option` values, with `None` standing for `NaN`. A cancelled price or quantity prompt gives `null`, which parses to `NaN`, so it takes the modelled `None` path. `Add` receives the reference and name as strings. A cancelled reference or name prompt pushes `null` as that field, and this is not modelled. An item whose reference is `null` also cannot be deleted: the delete handler passes the string `'null'`, which differs from `null`.
- ShoppingCart.Cart.SetQuantity: takes the new quantity as an integer. An empty or non-numeric input field makes `parseInt` return `NaN`, which the page stores as the quantity and which then turns every total into `NaN`. That path is not modelled.
- Floating point: prices, quantities and totals are exact reals and integers. IEEE-754 rounding (for example 0.2 × 24 as a double), infinities and `NaN` are not modelled.
- The 1..10 quantity range exists only as attributes of the HTML input. The logic does not enforce it, so the model has no such invariant.
- The delivery selector's value is one of the two modes. A value outside the fee table, which the page's select cannot produce, is not modelled.
