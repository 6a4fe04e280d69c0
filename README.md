# Single-register POS: order, stock and payment bookkeeping in Dafny

This project models the bookkeeping core of a single-register point-of-sale
web application and proves properties of that model. The application has
five parts, each with its own module.

- **Catalog.** The product catalog store (`ProductRepository`) and the
  service in front of it (`ProductService`). The store is a process-wide
  list of product records. It is appended to, filtered, merged into, and
  debited through a stock update that clamps at zero.
- **Ledger.** The order ledger (`SalesRepository`). It holds the list of
  sales and a global order counter. The counter is seeded from the largest
  recorded order number and bumped for every sale.
- **Checkout.** The sales endpoint (`POST`/`GET /api/sales`). POST records
  the sale first and then debits the stock of each item, one after the
  other.
- **Terminal and payment dialog.**
  - The terminal keeps the cart: add, remove, change quantity, total, next
    order number, product filter and category list.
  - The payment dialog handles split payments, remaining balance, change, a
    cap on card payments and completeness, all with a one-cent tolerance.
- **Report pages.** The reports page covers KPIs, the daily trend,
  category totals and payment-method totals. The sales history page covers
  the period filter, the period total, order labels and payment badges.

The modules are:

| module | file | models |
|---|---|---|
| `Js` | `js.dfy` | the JavaScript value semantics the code relies on: truthiness, `||`, `parseInt`, `parseFloat`, `String(n)`, `padStart`, `toLowerCase`, `includes`, `slice` |
| `Records` | `records.dfy` | cart lines (kept as item snapshots in a sale), payments, sale bodies and sales |
| `Sorting` | `sorting.dfy` | `Array.prototype.sort` with a numeric comparator, as a stable insertion sort by key |
| `Catalog` | `catalog.dfy` | `ProductRepository`: class `ProductStore` over a sequence of products |
| `CatalogService` | `catalog_service.dfy` | `ProductService` |
| `Ledger` | `ledger.dfy` | `SalesRepository`: class `SalesLedger` with the sales and the order counter |
| `Checkout` | `checkout.dfy` | the body of `POST` and `GET` in `src/app/api/sales/route.js` |
| `Cart` | `cart.dfy` | `POSTerminal`: cart transitions, total, order number, filter, categories; class `Terminal` |
| `Payments` | `payments.dfy` | `PaymentModal`: derived amounts, add/remove payment, completeness; class `PaymentSession` |
| `Reports` | `reports.dfy` | the aggregation of `src/app/reports/page.js` |
| `SalesPage` | `sales_page.dfy` | the filter, total and row labels of `src/app/sales/page.js` |

Modelling conventions:

- Money is `real`. The dialog's tolerance is the named constant
  `Payments.Tolerance` (0.01). There is no IEEE rounding.
- Timestamps are integers.
- `Date.now()`, `crypto.randomUUID()` and the current time are parameters
  the caller supplies.
- The clock readings of the sales page form a `Clock` value. They are the
  start of today, the start of the last seven days and the start of the
  month.
- The day label of the report trend (`toLocaleDateString`) is a parameter
  `dayKey: int -> string`.
- Plain objects used as dictionaries (`catMap`, `payMap`, `trendMap`) are
  `Reports.Dict`. A `Dict` keeps its keys in insertion order, which is the
  order `Object.keys` reports for non-numeric keys.
- Backend product fields other than the integer id are `Js.JsValue`. The
  inventory form sends text, and the service converts only truthy values,
  so a field can hold a string, a number, `NaN` or an empty value.
- Where the code changes state in place, the model does too:
  - the catalog store, the ledger, the terminal's cart and the payment
    dialog are classes whose methods reassign their `seq` fields;
  - the checkout debit loop and the three dictionary loops of the reports
    page are `while` loops, proved against the functions that specify them.

Behaviours worth knowing, where the model follows the code:

- **No stock re-check and no rollback.** Checkout does not re-check stock
  against the catalog, does not validate payments on the server, and does
  not roll back. An oversold product ends at stock 0 (`Checkout.DebitTotal`).
  An item whose product is missing is skipped (`Checkout.DebitUntouched`).
- **Stock can be negative.** Non-negative stock is not a store invariant.
  `add` and `update` store whatever `parseInt` gives, including a negative
  number. Only `updateStock` clamps, so the model proves that non-negative
  stock *stays* non-negative under stock updates and debits
  (`Catalog.UpdateStockKeepsFloor`, `Checkout.DebitKeepsFloor`).
- **Method labels are display strings.** Payment methods are recorded as
  the labels `"Efectivo"` and `"Tarjetas"`, not as an enumerated set.
- **Stale quantity ceiling.** The ceiling `updateQuantity` checks is the
  stock copied into the cart line when it was added, not the current stock
  (`Cart.StaleStockCeiling`).

## Model

| member | source | states |
|---|---|---|
| Js.Or | src/backend/services/ProductService.js:17-18 | `v \|\| d` is v when v is truthy and d otherwise |
| Js.ParseInt | src/backend/services/ProductService.js:17 | `parseInt` gives NaN or a whole number |
| Js.ParseFloat | src/backend/services/ProductService.js:16 | `parseFloat` gives NaN or a number, and gives a number operand back unchanged |
| Js.Trunc | src/backend/services/ProductService.js:29 | for a number written without an exponent, `parseInt` truncates toward zero: the result lies within one of x, on the side of zero |
| Js.NatToString | src/frontend/components/POSTerminal.js:31 | for n below 10^21, which `String` writes without an exponent, `String(n)` is a non-empty run of digits with no leading zero |
| Js.NatToStringValue | src/frontend/components/POSTerminal.js:31 | the digits of `String(n)` read back as n |
| Js.PadStart | src/frontend/components/POSTerminal.js:31 | the result has length max(\|s\|, width), ends with s, and is fill characters before that |
| Js.PaddedDigits | src/frontend/components/POSTerminal.js:31 | zero-padding `String(n)` keeps a non-empty run of digits worth n |
| Js.IntDigitsParse | src/backend/services/ProductService.js:17 | a plain run of digits parses with `parseInt` to its value |
| Js.HexDigitsParse | src/backend/services/ProductService.js:17 | with no radix, "0x" followed by a non-empty run of hexadecimal digits parses with `parseInt` to their base-16 value |
| Js.HexWithoutDigits | src/backend/services/ProductService.js:17 | "0x" not followed by a hexadecimal digit parses to NaN |
| Js.FloatDigitsParse | src/backend/services/ProductService.js:16 | a plain run of digits parses with `parseFloat` to its value |
| Js.ParseIntPaddedRoundTrip | src/frontend/components/POSTerminal.js:31 | `parseInt` of the zero-padded `String(n)` gives n back |
| Js.ParseFloatNatRoundTrip | src/frontend/components/PaymentModal.js:31 | `parseFloat` of `String(n)` gives n back |
| Js.ParseIntNegative | src/backend/services/ProductService.js:17 | `parseInt("-" + String(n))` gives -n, so a negative stock text reaches the store |
| Js.ToLower | src/frontend/components/POSTerminal.js:39 | same length; upper-case ASCII letters become lower case and every other character is kept |
| Js.IncludesEmpty | src/frontend/components/POSTerminal.js:39 | every name includes the empty search text |
| Js.Prefix | src/app/sales/page.js:138 | `slice(0, n)` is the prefix of length min(\|s\|, n) |
| Js.FirstAt | src/frontend/components/POSTerminal.js:25 | the first-occurrence position by which `new Set` orders its values: the position of a value's first occurrence, or -1 exactly when it does not occur |
| Sorting.SortByKey | src/backend/repositories/SalesRepository.js:16 | the sort keeps the length and is a permutation of its input |
| Sorting.SortByKeySorted | src/backend/repositories/SalesRepository.js:16 | the sort's result is in non-decreasing key order |
| Sorting.SortByKeyOfSorted | src/backend/repositories/SalesRepository.js:16 | a sequence already in key order is left as it is |
| Sorting.SortByKeyStable | src/backend/repositories/SalesRepository.js:16 | the sort is stable: for every key, the elements with that key come out in the order they went in |
| Sorting.SortByKeySameElements | src/backend/repositories/SalesRepository.js:16 | a value is in the sorted result exactly when it is in the input |
| Catalog.Merge | src/backend/repositories/ProductRepository.js:51 | `{ ...p, ...data }`: every field data carries (id, name, price, category, image, stock) replaces p's, every field it omits keeps p's, and an empty patch changes nothing |
| Catalog.MergeIdempotent | src/backend/repositories/ProductRepository.js:51 | merging the same data twice is merging it once |
| Catalog.StockValue | src/backend/repositories/ProductRepository.js:63 | `stock \|\| 0`: the number for a truthy stock, 0 for a missing or falsy one |
| Catalog.ApplyDelta | src/backend/repositories/ProductRepository.js:63-66 | the new stock is `max(0, (stock \|\| 0) + delta)`, never negative, and no other field changes |
| Catalog.FindIndex | src/backend/repositories/ProductRepository.js:61 | `findIndex`: the first position with the id, or -1 exactly when no product has it |
| Catalog.UpdateStockIn | src/backend/repositories/ProductRepository.js:59-71 | only the first product with the id changes, as ApplyDelta says; ids and every other record are kept |
| Catalog.UpdateStockKeepsFloor | src/backend/repositories/ProductRepository.js:64 | a store with no negative stock has none after any stock update |
| Catalog.WithoutId | src/backend/repositories/ProductRepository.js:39 | a product is kept exactly when it was stored and has another id |
| Catalog.WithoutIdAppend | src/backend/repositories/ProductRepository.js:39 | deleting distributes over concatenation, so the kept products stay in order |
| Catalog.WithoutIdAbsent | src/backend/repositories/ProductRepository.js:39 | deleting an id no product has leaves the store as it is |
| Catalog.DeleteIdempotent | src/backend/repositories/ProductRepository.js:38-41 | deleting twice is deleting once |
| Catalog.HotPatch | src/backend/repositories/ProductRepository.js:13-16 | only images change: a product takes the image of the seed entry with its id, and products absent from the seed are untouched |
| Catalog.ProductStore.constructor | src/backend/repositories/ProductRepository.js:8-9 | the first load copies the seed list |
| Catalog.ProductStore.Reload | src/backend/repositories/ProductRepository.js:10-16 | a later load applies the hot-patch and keeps every stock |
| Catalog.ProductStore.GetAll | src/backend/repositories/ProductRepository.js:24-26 | returns the stored list |
| Catalog.ProductStore.GetById | src/backend/repositories/ProductRepository.js:28-30 | the first stored product with the id, or None exactly when there is none |
| Catalog.ProductStore.Add | src/backend/repositories/ProductRepository.js:32-36 | appends exactly the given record with the supplied id and returns it; earlier records are kept |
| Catalog.ProductStore.Delete | src/backend/repositories/ProductRepository.js:38-41 | the store becomes WithoutId of the old store, and the result is always true |
| Catalog.ProductStore.Update | src/backend/repositories/ProductRepository.js:49-56 | merges data into the first product with the id and returns it; an unknown id gives None and changes nothing |
| Catalog.ProductStore.UpdateStock | src/backend/repositories/ProductRepository.js:59-71 | the store becomes UpdateStockIn of the old store; None exactly for an unknown id, otherwise the updated record |
| CatalogService.Defaulted | src/backend/services/ProductService.js:14-19 | price is `parseFloat(price)`; stock is `parseInt(stock)`, or 0 when that is NaN or 0; the image is the placeholder when missing or empty |
| CatalogService.Coerced | src/backend/services/ProductService.js:27-29 | only a truthy price or stock is parsed; a falsy one is passed through unconverted, and no other field changes |
| CatalogService.GetProducts | src/backend/services/ProductService.js:4-6 | returns the store's list |
| CatalogService.AddProduct | src/backend/services/ProductService.js:8-20 | a falsy name or price (0 included) gives the error and leaves the store unchanged; otherwise the defaulted record is appended with the supplied id |
| CatalogService.DeleteProduct | src/backend/services/ProductService.js:22-24 | deletes every product with the id and always reports success |
| CatalogService.UpdateProduct | src/backend/services/ProductService.js:26-32 | merges the coerced data into the first product with the id; None and no change for an unknown id |
| Ledger.MaxOrderNumber | src/backend/repositories/SalesRepository.js:8 | at least every stored order number (missing counts as 0) and equal to one of them unless 0 |
| Ledger.NewestFirstOrdered | src/backend/repositories/SalesRepository.js:16 | the newest-first order is a permutation of the sales in non-increasing date order |
| Ledger.FindSale | src/backend/repositories/SalesRepository.js:39 | the first position with the id, or -1 exactly when no sale has it |
| Ledger.WithStatus | src/backend/repositories/SalesRepository.js:38-45 | only the status of the first sale with the id changes; every other sale and field is kept |
| Ledger.AppendKeepsDistinct | src/backend/repositories/SalesRepository.js:24-34 | appending a sale numbered above every stored number keeps order numbers distinct |
| Ledger.StatusKeepsDistinct | src/backend/repositories/SalesRepository.js:41 | a status change keeps order numbers distinct |
| Ledger.SalesLedger.constructor | src/backend/repositories/SalesRepository.js:3-12 | the counter starts at the largest stored order number, so it is at least every one of them |
| Ledger.SalesLedger.Reload | src/backend/repositories/SalesRepository.js:7-10 | a counter that is 0 is seeded again from the store; any other counter is kept |
| Ledger.SalesLedger.GetAll | src/backend/repositories/SalesRepository.js:15-17 | the stored list itself is replaced by its newest-first sort, and that list is returned |
| Ledger.SalesLedger.GetById | src/backend/repositories/SalesRepository.js:19-21 | `find`: the first stored sale with the id, or None exactly when there is none |
| Ledger.SalesLedger.Add | src/backend/repositories/SalesRepository.js:23-36 | the counter goes up by exactly one and numbers the new COMPLETED sale, which is above every earlier number and carries the body's fields; distinct numbers stay distinct |
| Ledger.SalesLedger.UpdateStatus | src/backend/repositories/SalesRepository.js:38-45 | the list becomes WithStatus of the old list and the counter is untouched; None exactly for an unknown id |
| Checkout.DebitAll | src/app/api/sales/route.js:18-22 | debiting keeps the number of products and their ids |
| Checkout.DebitOnlyStock | src/app/api/sales/route.js:18-22 | debiting changes no field but stock |
| Checkout.DebitUntouched | src/app/api/sales/route.js:18-22 | a product no item names keeps its record, so items with unknown ids change nothing |
| Checkout.DebitKeepsFloor | src/app/api/sales/route.js:21 | a catalog with no negative stock has none after the debits, whatever the quantities |
| Checkout.DebitTotal | src/app/api/sales/route.js:18-22 | a product ends at `max(0, stock - total quantity asked for it)`: overselling ends at 0 instead of failing |
| Checkout.DebitItems | src/app/api/sales/route.js:18-22 | the loop leaves the catalog exactly as DebitAll of the items, one clamped stock update per item in order |
| Checkout.PostSale | src/app/api/sales/route.js:10-30 | the sale is appended with the next order number, then the catalog becomes DebitAll of the items; without an items array nothing is debited |
| Checkout.GetSales | src/app/api/sales/route.js:5-8 | returns the ledger sorted in place newest first, a permutation in non-increasing date order |
| Cart.FindLine | src/frontend/components/POSTerminal.js:44 | the first line with the id, or -1 exactly when no line has it |
| Cart.NewLine | src/frontend/components/POSTerminal.js:59 | `{ ...product, quantity: 1 }`: the product's id, name, price, category and stock with quantity 1 |
| Cart.IncrementedOne | src/frontend/components/POSTerminal.js:55-57 | the product's one line keeps every field but gets one more unit, and every other line is kept |
| Cart.AddToCart | src/frontend/components/POSTerminal.js:43-61 | a refused add leaves the cart as it is; an accepted add appends the product as a new line with quantity 1 when it has no line, and otherwise gives its line one more unit; lines of other products are unchanged |
| Cart.AddToCartQuantity | src/frontend/components/POSTerminal.js:43-61 | an accepted add raises the product's quantity by exactly one and keeps one line per id; a refused add leaves the cart as it is |
| Cart.AddToCartCeiling | src/frontend/components/POSTerminal.js:47-50 | an accepted add never takes the quantity above the offered stock |
| Cart.AddToCartKeepsValid | src/frontend/components/POSTerminal.js:43-61 | adding keeps one line per id with `1 <= quantity <= stock` |
| Cart.AddToCartKeepsShape | src/frontend/components/POSTerminal.js:43-61 | adding keeps one line per id with every quantity at least 1, whatever stock is offered |
| Cart.RemoveFromCart | src/frontend/components/POSTerminal.js:63-65 | a line remains exactly when it was in the cart and has another id |
| Cart.RemoveAppend | src/frontend/components/POSTerminal.js:64 | removing distributes over concatenation, so the other lines keep their order |
| Cart.RemoveKeepsUnique | src/frontend/components/POSTerminal.js:64 | removing keeps one line per id |
| Cart.RemoveKeepsValid | src/frontend/components/POSTerminal.js:63-65 | removing keeps the cart valid and no line with the id is left |
| Cart.RemoveKeepsShape | src/frontend/components/POSTerminal.js:63-65 | removing keeps one line per id with every quantity at least 1 |
| Cart.UpdateQuantity | src/frontend/components/POSTerminal.js:67-84 | only quantities change, and only on lines with the id |
| Cart.UpdateQuantityEffect | src/frontend/components/POSTerminal.js:67-84 | a positive delta past the line's stock is refused; otherwise the quantity becomes `max(1, q + delta)` |
| Cart.UpdateQuantityKeepsValid | src/frontend/components/POSTerminal.js:67-84 | every quantity change keeps one line per id with `1 <= quantity <= stock` |
| Cart.UpdateQuantityKeepsShape | src/frontend/components/POSTerminal.js:67-84 | every quantity change keeps one line per id with every quantity at least 1 |
| Cart.StaleStockCeiling | src/frontend/components/POSTerminal.js:69-71 | the ceiling is the line's copied stock: a line can reach 2 when adding the product with current stock 1 is refused |
| Cart.TotalAppend | src/frontend/components/POSTerminal.js:115 | a new line adds its `price * quantity` to the total |
| Cart.TotalReplace | src/frontend/components/POSTerminal.js:115 | replacing a line changes the total by the difference of the two amounts |
| Cart.TotalNonNegative | src/frontend/components/POSTerminal.js:115 | with non-negative prices and quantities the total is never negative |
| Cart.IncrementedTotal | src/frontend/components/POSTerminal.js:55-57 | giving the product's one line another unit adds that line's price to the total |
| Cart.AddToCartTotal | src/frontend/components/POSTerminal.js:52-60 | an accepted add raises the total by one unit price |
| Cart.NextOrderNumber | src/frontend/components/POSTerminal.js:29-30 | at least 1, above every recorded number, and one more than the largest of them |
| Cart.FormattedOrderNumberReadsBack | src/frontend/components/POSTerminal.js:31 | the displayed number has at least four digits and parses back to the next order number |
| Cart.FilteredProducts | src/frontend/components/POSTerminal.js:37-41 | a product is shown exactly when it matches the category (or "Todos") and its lower-cased name includes the lower-cased query |
| Cart.FilterShowsAll | src/frontend/components/POSTerminal.js:37-41 | "Todos" with an empty search shows every product, in order |
| Cart.Dedup | src/frontend/components/POSTerminal.js:24-26 | `new Set`: no duplicates, the same values, the first value first |
| Cart.DedupOfUnique | src/frontend/components/POSTerminal.js:25 | values already distinct stay as they are |
| Cart.DedupOrder | src/frontend/components/POSTerminal.js:25-26 | `new Set` keeps values in the order of their first occurrence |
| Cart.DedupPrefix | src/frontend/components/POSTerminal.js:25 | the distinct values of a prefix come first, in the same order, in the distinct values of the whole |
| Cart.Categories | src/frontend/components/POSTerminal.js:24-26 | "Todos" first and no duplicates; "Todos" and the defaults lead in their own order; a category is listed exactly when it is "Todos", a default or some product's category |
| Cart.Terminal.constructor | src/frontend/components/POSTerminal.js:16 | the cart starts empty |
| Cart.Terminal.AddProduct | src/frontend/components/POSTerminal.js:43-61 | the cart becomes AddToCart of the old cart, for any offered product, and keeps one line per id with positive quantities |
| Cart.Terminal.RemoveLine | src/frontend/components/POSTerminal.js:63-65 | the cart becomes RemoveFromCart of the old cart and keeps its shape |
| Cart.Terminal.ChangeQuantity | src/frontend/components/POSTerminal.js:67-84 | the cart becomes UpdateQuantity of the old cart and keeps its shape |
| Cart.Terminal.CompletePayment | src/frontend/components/POSTerminal.js:87-113 | with no payments nothing is sent and the cart is kept (reading the first payment's method fails); otherwise the body sent carries the cart, its total and the dialog's payments, paid amount and change, and the cart is then emptied |
| Payments.TotalPaidAppend | src/frontend/components/PaymentModal.js:17 | the paid amount of a concatenation is the sum of the parts |
| Payments.RemainingAndChange | src/frontend/components/PaymentModal.js:18-19 | remaining and change are never negative, at most one is positive, and their difference is `total - totalPaid` |
| Payments.IsCompleteIff | src/frontend/components/PaymentModal.js:54 | complete exactly when the paid amount is at least the total minus the tolerance |
| Payments.AddPayment | src/frontend/components/PaymentModal.js:30-42 | the list changes exactly when the text parses to a positive number that, for a card, is within the remaining balance plus the tolerance; then one positive payment of the chosen method is appended and earlier payments are kept |
| Payments.AddPaymentPositive | src/frontend/components/PaymentModal.js:30-42 | adding a payment keeps every amount in the list positive |
| Payments.AddPaymentPaid | src/frontend/components/PaymentModal.js:40 | an accepted payment is the parsed amount and adds exactly that to the paid amount |
| Payments.AddPaymentRejectsNonPositive | src/frontend/components/PaymentModal.js:31-32 | NaN and non-positive amounts never change the list |
| Payments.CardChangeBounded | src/frontend/components/PaymentModal.js:35-38 | a card payment raises the change by at most the tolerance |
| Payments.CashAlwaysAccepted | src/frontend/components/PaymentModal.js:35-40 | the add handler appends any positive cash amount, whatever is owed (the dialog offers the Add button only while more than the tolerance is owed) |
| Payments.RemovePayment | src/frontend/components/PaymentModal.js:44-48 | `splice(i, 1)`: an index in range removes exactly that payment keeping the others in order, a negative one counts from the end, one past the end removes nothing, and one below minus the length removes the first |
| Payments.RemovePaymentPaid | src/frontend/components/PaymentModal.js:44-48 | removing a payment takes exactly its amount off the paid amount |
| Payments.RemovePaymentKeepsOthers | src/frontend/components/PaymentModal.js:44-48 | removing a payment keeps every other payment |
| Payments.PaymentSession.Open | src/frontend/components/PaymentModal.js:9-14 | an opened dialog has no payments and cash selected |
| Payments.PaymentSession.Reopen | src/frontend/components/PaymentModal.js:9-15 | opening again, or a new total, discards the payments and selects cash |
| Payments.PaymentSession.SelectMethod | src/frontend/components/PaymentModal.js:95-106 | only the selected method changes |
| Payments.PaymentSession.Add | src/frontend/components/PaymentModal.js:30-42 | the payments become AddPayment of the old ones and stay positive |
| Payments.PaymentSession.Remove | src/frontend/components/PaymentModal.js:44-48 | the payments become RemovePayment of the old ones and stay positive |
| Payments.PaymentSession.Confirm | src/frontend/components/PaymentModal.js:50-54 | confirming is possible exactly when complete, and hands over the payments, their sum and the change |
| Reports.Put | src/app/reports/page.js:38 | `d[k] = v`: a new key goes last in key order, an existing key keeps its place |
| Reports.AccumulateSums | src/app/reports/page.js:62 | each key ends at its old value plus the amounts the pairs carry for it; old keys keep their order and new keys follow |
| Reports.Entries | src/app/reports/page.js:65-68 | one entry per key, in key order, with that key's value |
| Reports.NonVoid | src/app/reports/page.js:25 | a sale is kept exactly when its status is not VOID |
| Reports.NonVoidAppend | src/app/reports/page.js:25 | the filter distributes over concatenation |
| Reports.RevenueAppend | src/app/reports/page.js:28 | revenue of a concatenation is the sum of the parts |
| Reports.RevenueOfNewSale | src/app/reports/page.js:25-29 | a new non-void sale adds its total and one order; a voided one adds nothing |
| Reports.KpisOf | src/app/reports/page.js:28-30 | the revenue is the sum of the valid sales' totals, the order count their number, and the average ticket their quotient, or 0 when there are no orders |
| Reports.KpisOfNewSale | src/app/reports/page.js:25-30 | a new non-void sale raises the revenue by its total and the order count by one; a voided one changes no KPI |
| Reports.ItemPairs | src/app/reports/page.js:61-62 | each item contributes `price * quantity` under `category \|\| 'Otros'` |
| Reports.CategoryTotalsMeaning | src/app/reports/page.js:54-64 | a category's total is the sum of its items' amounts, and a category is listed exactly when some item falls in it |
| Reports.MissingCategoryIsOther | src/app/reports/page.js:61 | an item without a category counts under "Otros" |
| Reports.CategoryLoop | src/app/reports/page.js:54-64 | the outer loop over the sales builds exactly CategoryTotals |
| Reports.CategoryItems | src/app/reports/page.js:56-63 | the inner loop over one sale's items adds exactly that sale's pairs to the dictionary |
| Reports.AccumulateAppend | src/app/reports/page.js:55-63 | accumulating a concatenation is accumulating the first part and then the second |
| Reports.Normalize | src/app/reports/page.js:75-78 | 'cash' becomes "Efectivo", 'card' and 'Tarjeta' become "Tarjetas", any other label is kept |
| Reports.NormalizeIdempotent | src/app/reports/page.js:77-78 | normalising twice is normalising once |
| Reports.PaymentPairsOf | src/app/reports/page.js:74-80 | each payment contributes its amount under its normalised method |
| Reports.PaymentTotalsMeaning | src/app/reports/page.js:71-83 | a method's total is the sum of the payments normalised to it; "Efectivo" and "Tarjetas" always come first |
| Reports.PaymentLoop | src/app/reports/page.js:71-83 | the nested loops build exactly PaymentTotals |
| Reports.PositiveEntriesMeaning | src/app/reports/page.js:86-91 | an entry is listed exactly when its key is in the run with a positive value, and it carries that value |
| Reports.PositiveEntriesAppend | src/app/reports/page.js:86-87 | the filter distributes over concatenation, so the listed methods keep the key order |
| Reports.PositiveEntriesOrder | src/app/reports/page.js:86-91 | with distinct keys, the listed entries name their keys in the order of the key list |
| Reports.PaymentStats | src/app/reports/page.js:86-91 | an entry is listed exactly when it is a key of the totals with a positive value, and it carries that value; entries follow the key order |
| Reports.TrendMapMeaning | src/app/reports/page.js:33-42 | a day has a bucket exactly when some sale falls on it; the bucket holds the day's total and the date of its last sale |
| Reports.TrendPoints | src/app/reports/page.js:44-49 | one point per day bucket, in key order |
| Reports.LastSeven | src/app/reports/page.js:51 | `slice(-7)`: exactly min(7, n) elements, the last ones, and the whole input when it has at most seven |
| Reports.LastSevenSorted | src/app/reports/page.js:50-51 | the last seven of a run sorted by date are sorted |
| Reports.LastSevenLatest | src/app/reports/page.js:50-51 | the last seven of a sorted arrangement come from the run, and no point left out is later than one kept |
| Reports.LatestSeven | src/app/reports/page.js:50-51 | sorting by date and keeping the last seven gives min(7, n) points, oldest first, and none left out is later than one kept |
| Reports.SalesTrendShape | src/app/reports/page.js:44-51 | the trend has min(7, days) points: the last ones of the day buckets sorted by date, in chronological order, each a bucket, and no bucket left out is later than one shown |
| Reports.TrendLoop | src/app/reports/page.js:33-42 | the loop builds exactly TrendMap |
| Reports.ComputeReport | src/app/reports/page.js:16-99 | no sales gives zeros and empty series; otherwise the figures of the non-void sales, or failure when one of them has no items |
| SalesPage.FilteredSales | src/app/sales/page.js:17-41 | a sale is listed exactly when it passes the period filter |
| SalesPage.FilterKeepsAll | src/app/sales/page.js:17-41 | a filter that keeps every date keeps the whole list, in order |
| SalesPage.NoStartKeepsAll | src/app/sales/page.js:32-40 | custom mode without a start date, and an unknown period, keep every sale |
| SalesPage.CustomRangeInclusive | src/app/sales/page.js:32-38 | in custom mode a sale is listed exactly when start <= date <= end (or now), both ends included |
| SalesPage.TotalSalesMatchesReports | src/app/sales/page.js:60-62 | over the whole ledger the page total is the revenue the reports page shows |
| SalesPage.VoidNotCounted | src/app/sales/page.js:60-62 | a voided sale never changes the total |
| SalesPage.OrderLabelReadsBack | src/app/sales/page.js:136-138 | a numbered sale's label is "#" and at least four digits that parse back to its number; otherwise it is a prefix of the id of at most eight characters |
| SalesPage.PaymentBadge | src/app/sales/page.js:142-147 | "Mixto (n)" for a split payment; for one payment "Efectivo" exactly when its method is 'cash'; a sale without payments fails |
| SalesPage.CashBadgeShowsCard | src/app/sales/page.js:146 | one payment recorded as "Efectivo" is shown as "Tarjeta" |
| SalesPage.PaymentBadgeNormalized | src/app/sales/page.js:142-147 | as PaymentBadge, except a single payment is shown as cash exactly when its label normalises to "Efectivo" |
| SalesPage.NormalizedBadgeAgreesWithTerminal | src/app/sales/page.js:146 | the terminal's cash label and 'cash' show as cash; the card labels show as card |

## Left out

- The HTTP wrappers (`NextResponse`, JSON bodies, status codes, the
  `try/catch` that turns an exception into a 400 response) and every
  `console.log`.
- The data-fetching hooks (`fetch`, `BroadcastChannel`, window-focus
  refresh), the upload route, and all rendering, `alert` and `confirm`.
- Payments.PaymentSession.Add: can be called in any state. The dialog
  renders the amount field and the Add button only while more than the
  tolerance is still owed (`remaining > 0.01`), and that rendering gate is
  not modelled.
- The void handler in `src/app/api/sales/[id]/route.js` is not part of
  this model. Only `SalesRepository.updateStatus` is modelled, and nothing
  is claimed about stock on void.
- Concurrency: requests racing on the process-wide stores are not
  modelled. Every operation runs alone.
- Floating point and `toFixed`: amounts are exact reals. The dialog's
  default amount text (`remaining.toFixed(2)`) is not modelled; the amount
  text is a parameter.
- Js.ParseFloat: does not model exponents, `Infinity`, or leading white
  space other than space, tab, carriage return and line feed, because the
  form fields are plain decimal numbers.
- Js.ParseInt: does not model leading white space other than space, tab,
  carriage return and line feed, nor a radix argument, which the code
  never passes. Nor does it model a number operand that `String` writes
  in exponent form (|x| >= 1e21 or 0 < |x| < 1e-6): JavaScript reads only
  the digits before the exponent, so `parseInt(5e-7)` is 5 and
  `parseInt(1e21)` is 1, while the model truncates the number (0 and
  10^21). Such a stock can reach `ProductService.update` when the edit
  form sends back a stored 22-digit stock.
- Js.NatToString: does not model n >= 10^21, which `String` writes in
  exponent form ("1e+21"); the model gives its decimal digits. Order
  numbers stay far below that bound.
- Js.ToLower: lower-cases ASCII letters only, because there is no Unicode
  case folding in the model.
- Record fields other than those listed in `Records` and `Catalog.Product`
  are not carried. Product ids are integers, sale ids strings.
- Date parsing and time zones:
  - The sales page's clock readings (`new Date()`, the start of day, week
    and month) are the `Clock` parameter.
  - A custom end date is the timestamp of 23:59:59 on that day, supplied by
    the caller.
- Reports.TrendMap: the day label comes from the `dayKey` parameter,
  because `toLocaleDateString` depends on the locale. Integer-like labels,
  which `Object.keys` would list first, are not distinguished.
- Reports.ComputeReport: `sales` being `null` is not modelled. A missing
  `payments` field is treated as an empty list.
- Cart.Terminal: its invariant is one line per id with positive
  quantities, not `quantity <= stock`, because the stale ceiling lets a
  line pass its stock (`Cart.StaleStockCeiling`); `Cart.CartValid` is kept
  only while no product is offered with more stock than its line carries.
- The `addToCart` refusal check reads the rendered `cart` while the update
  uses the pending state `prev`. With one click at a time the two agree, so
  both are the same cart here.
- The success message that `handlePayment` shows, and the failure path
  when saving the sale fails (the cart is then kept), are not modelled.
  The exception that an empty payment list raises is modelled only as
  "nothing is sent and the cart is kept".

## Findings

| source | as written | input that shows it | evidently intended | confidence | as-written member | corrected member |
|---|---|---|---|---|---|---|
| src/app/sales/page.js:146 | a single payment is labelled "Efectivo" only when its method is 'cash', and "Tarjeta" otherwise | a sale paid at the terminal with one payment `{ method: "Efectivo", amount: 10 }` | show cash for the label the terminal records ("Efectivo"), normalising older labels the way src/app/reports/page.js:77-78 does | not executed | SalesPage.PaymentBadge (with SalesPage.CashBadgeShowsCard) | SalesPage.PaymentBadgeNormalized (with SalesPage.NormalizedBadgeAgreesWithTerminal) |
