# storepro sale bookkeeping, modelled in Dafny

This project models the sale-transaction core of the storepro point-of-sale
program (an Electron/React application written in TypeScript) and proves
properties of the model. It covers:

- **The sale screen** (`src/renderer/pages/Landing.tsx`, module `SaleScreen`).
  A cart of product rows is built from SKU buttons, the search box, the
  digit (multiplier) buttons, the row delete buttons and the void button.
  A payment turns the cart into a purchase record once the tender covers
  the subtotal and tax. A receipt is then made, which sorts the cart.
- **The older sale screen** (`src/renderer/components/Landing.tsx`, module
  `LegacyScreen`). Its rows are flat records. Its tax is a flat 15%. Its
  receipt carries a fixed order number.
- **The payment panel** (`src/renderer/components/PaymentPanel.tsx`, module
  `PaymentPanel`). It keeps a line of typed digits and shows them as an
  amount with two decimals. Its submit parses that amount back as a
  number.
- **The purchase-order form** (`src/renderer/components/AddToInventory.tsx`,
  module `PurchaseOrder`). Lines merge by SKU. Rows can be deleted. The
  inventory submit raises each product's stock by what was ordered of it.
- **The receipt and the end-of-day report** (`src/renderer/tools/receipt.ts`,
  modules `Receipt`, `Sorting`, `Dictionary` and `EndOfDay`).
  - `formatReceipt` pads the order number, sorts the rows stably by
    quantity, and computes the totals.
  - `generateEOD` queries the day's purchases and sums their prices per
    payment method. It counts purchases per hour label and quantities per
    product.
  - `alignStr` lays out the report's lines.
- **The date extensions** (`src/@types/extensions.ts`, module `Extensions`).
  `toDatabaseString` and `toUTCDate` build fixed-width UTC timestamp
  strings, whose string order is the chronological order.

Shared modules:

- `Text`: decimal strings, `padStart` and `padEnd`.
- `Money`: mathjs `round` and `toFixed(2)`.
- `Lists`: `findIndex`, `splice`, `map`, linqify's `Sum` and `Where`.
- `Entities`: the database records.
- `Wrappers`: `Option`.

State that the source changes in place is modelled as classes with
`modifies` clauses: each screen's React state, and the payment panel's
input. The receipt sort is an in-place array algorithm
(`Sorting.SortInPlace`) proved against a functional specification
(`Sorting.SortByQty`). Pure code is modelled as functions and lemmas.

The model works on mathematical values:

- Money is an exact real number and quantities are integers.
- The database is modelled by its inputs and outputs. A lookup is a list of
  stored products passed in (the first match wins). A save is the record
  handed back. A failed query or save is `None`.
- The clock is a `DateTime` parameter.

Where the code and its documentation differ, the model follows the code:

- The end-of-day totals sum each purchase's `price` (the subtotal before
  tax), not what was paid.
- The query window covers both of its ends.
- After a payment the cart is sorted for the receipt but not emptied.
- Every payment is recorded as a debit payment, whichever button was
  pressed.
- The void button keeps a pending multiplier.
- A failed end-of-day query makes the whole report fail, because the
  original promise is the one awaited.
- Tax rules differ between files:
  - the sale screen settles on `round(Σ tax × costPrice, 3)`, which
    ignores row quantities;
  - both receipts and the older screen use 15% of the subtotal.

## Model

| member | source | states |
|---|---|---|
| SaleScreen.SaleScreen.constructor | src/renderer/pages/Landing.tsx:119-124 | The screen starts with an empty cart, no multiplier, an empty search box and nothing paid. |
| SaleScreen.SaleScreen.AddProduct | src/renderer/pages/Landing.tsx:160-184 | The cart and multiplier become `AfterAdd` of the old ones. A SKU in the cart raises its first row. A stored SKU appends a row. An unknown SKU changes nothing. The search box and the payment stay. |
| SaleScreen.SaleScreen.SearchProduct | src/renderer/pages/Landing.tsx:186-212 | An empty box clears the input. A product whose SKU or name matches is appended as a new row, even if its SKU is already in the cart, and the box and multiplier are cleared. No match keeps the text and the cart. |
| SaleScreen.SaleScreen.PressDigit | src/renderer/pages/Landing.tsx:571-581 | Pressing the pending digit clears the multiplier. Any other digit replaces it. Nothing else changes. |
| SaleScreen.SaleScreen.RemoveRow | src/renderer/pages/Landing.tsx:469-470 | Exactly row `i` is removed. An index past the end removes nothing. |
| SaleScreen.SaleScreen.Void | src/renderer/pages/Landing.tsx:655 | The cart and the payment are cleared. The multiplier and the search box stay. |
| SaleScreen.SaleScreen.FormatReceipt | src/renderer/pages/Landing.tsx:307-323 | The cart itself is sorted by quantity, largest first. The receipt is built from the sorted cart. |
| SaleScreen.SaleScreen.Pay | src/renderer/pages/Landing.tsx:220-266 | The record is `Settle` of the cart and tender. Only when the record exists and both saves succeed are the payment noted and the receipt made (which sorts the cart). Otherwise the state is unchanged. |
| SaleScreen.PurchaseItems | src/renderer/pages/Landing.tsx:243-248 | There is one purchase item per cart row, in cart order, with the same product and quantity. |
| SaleScreen.AddExisting | src/renderer/pages/Landing.tsx:166-168 | For a SKU already in the cart, an add raises exactly its first row by the multiplier or 1. The row count and every other row stay, and the multiplier is cleared. |
| SaleScreen.AddNew | src/renderer/pages/Landing.tsx:169-178 | For a SKU not in the cart: a stored SKU appends exactly one row, with that stored product and the multiplier or 1, and clears the multiplier. An unknown SKU leaves the cart and the multiplier. |
| SaleScreen.MultiplierUsedOnce | src/renderer/pages/Landing.tsx:166-183 | Adding the same product twice raises its row by the multiplier and then by 1. The multiplier is used by the first add only. |
| SaleScreen.ToggleTwice | src/renderer/pages/Landing.tsx:579-581 | Pressing a digit twice from no multiplier, or from a different pending digit, leads to no multiplier. From that digit pending it ends pending. |
| SaleScreen.AddRaisesSubTotal | src/renderer/pages/Landing.tsx:166-178 | An add that finds a product raises the subtotal by that product's cost price times the multiplier or 1. An add that finds none leaves the cart. |
| SaleScreen.TaxIgnoresQuantity | src/renderer/pages/Landing.tsx:227 | The settlement tax does not change when a row's quantity changes. |
| SaleScreen.SettleExactlyWhenCovered | src/renderer/pages/Landing.tsx:224-232 | A purchase is made exactly when the tender exceeds subtotal plus rounded tax minus half a cent. |
| SaleScreen.SettleRecord | src/renderer/pages/Landing.tsx:234-248 | The record holds the tender as paid, the subtotal as price, the rounded tax, the debit method and the given time. It has one item per cart row, in order. |
| SaleScreen.DisplayedTaxNearSettled | src/renderer/pages/Landing.tsx:513-518 | The totals panel's unrounded tax is within 0.0005 of the tax the payment settles on. |
| LegacyScreen.LegacyScreen.constructor | src/renderer/components/Landing.tsx:86-91 | The screen starts with an empty cart, no multiplier and an empty search box. |
| LegacyScreen.LegacyScreen.AddProduct | src/renderer/components/Landing.tsx:129-164 | The cart and multiplier become `AfterAdd` of the old ones: merge on SKU, or append a flat row copied from the stored product, or (for an unknown SKU) change nothing and keep the multiplier. |
| LegacyScreen.LegacyScreen.SearchProduct | src/renderer/components/Landing.tsx:166-211 | An empty box changes nothing. A match is appended without merging, and the box and multiplier are cleared. No match keeps the text. |
| LegacyScreen.LegacyScreen.PressDigit | src/renderer/components/Landing.tsx:505-518 | Pressing the pending digit clears the multiplier. Any other digit replaces it. |
| LegacyScreen.LegacyScreen.RemoveRow | src/renderer/components/Landing.tsx:409-412 | Exactly row `i` is removed. |
| LegacyScreen.LegacyScreen.FormatReceipt | src/renderer/components/Landing.tsx:245-298 | The cart itself is sorted by quantity. The receipt is built from it with the fixed order number. |
| LegacyScreen.AddExisting | src/renderer/components/Landing.tsx:135-137 | An existing SKU raises exactly its first row by the multiplier or 1. Every other row stays and the multiplier is cleared. |
| LegacyScreen.AddNew | src/renderer/components/Landing.tsx:139-157 | A new, stored SKU appends exactly one row `{name, qty: multiplier or 1, unitPrice: costPrice, sku}` of a stored product with that SKU. An unknown SKU leaves the cart and the multiplier. |
| LegacyScreen.AddKeepsSkusDistinct | src/renderer/components/Landing.tsx:135-157 | If the cart's SKUs are distinct before an add, they are distinct after it. |
| LegacyScreen.AddRaisesSubTotal | src/renderer/components/Landing.tsx:135-157 | An add that changes the cart raises the subtotal by the unit price times the multiplier or 1. |
| LegacyScreen.RemoveLowersSubTotal | src/renderer/components/Landing.tsx:410-455 | Deleting a row lowers the subtotal by exactly that row's unit price times its quantity. |
| LegacyScreen.TotalsShape | src/renderer/components/Landing.tsx:455-457 | Tax is 15% of the subtotal and the total is 115% of it. |
| LegacyScreen.ReceiptOfSorted | src/renderer/components/Landing.tsx:252-297 | The printed rows are the cart sorted stably by quantity, largest first. The sorted cart is a permutation of the cart. Each row is costed at unit price × 100 and the order number is fixed. Sorting keeps the totals. |
| PaymentPanel.GetDecimal | src/renderer/components/PaymentPanel.tsx:34-46 | The loop's result equals `Decimal`: "0.00" for no input, otherwise the input zero-padded to three characters with a point before the last two. |
| PaymentPanel.SplitAt | src/renderer/components/PaymentPanel.tsx:29 | There is no split exactly when the character is absent. Otherwise the string is the part before, the character, then the rest, and the part before holds no such character. |
| PaymentPanel.RemoveFirst | src/renderer/components/PaymentPanel.tsx:18 | `replace('.', '')` leaves a string without a point unchanged. Otherwise it removes exactly the first point and keeps everything before and after it. |
| PaymentPanel.Backspaced | src/renderer/components/PaymentPanel.tsx:66-72 | Input longer than one character loses its last character. Other input becomes empty. |
| PaymentPanel.PaymentPanel.constructor | src/renderer/components/PaymentPanel.tsx:16-20 | The input starts as the initial value's two-decimal form without its point, or empty when there is no or a zero initial value. |
| PaymentPanel.PaymentPanel.KeyPress | src/renderer/components/PaymentPanel.tsx:65 | The key is appended to the input. |
| PaymentPanel.PaymentPanel.Backspace | src/renderer/components/PaymentPanel.tsx:66-72 | The input becomes `Backspaced` of the old input. |
| PaymentPanel.PaymentPanel.Edit | src/renderer/components/PaymentPanel.tsx:61 | The input becomes the edited text. |
| PaymentPanel.PaymentPanel.Submit | src/renderer/components/PaymentPanel.tsx:28-32 | The tender handed on is the parsed value of the shown amount. |
| PaymentPanel.DecimalParts | src/renderer/components/PaymentPanel.tsx:37-45 | The shown amount is a whole part of at least one character, a point and two decimals. Without the point it is the padded input. |
| PaymentPanel.DecimalShape | src/renderer/components/PaymentPanel.tsx:37-45 | The shown amount has a point third from the end. Removing the first point of an input without one gives back the padded input. |
| PaymentPanel.ParseDecimal | src/renderer/components/PaymentPanel.tsx:29 | `parseFloat` of digits, a point and digits is the numeral of all the digits with as many decimals as follow the point. |
| PaymentPanel.EmptyShowsZero | src/renderer/components/PaymentPanel.tsx:35-36 | No input shows "0.00", which parses as zero. |
| PaymentPanel.TenderIsCents | src/renderer/components/PaymentPanel.tsx:28-46 | For input made of digits, the tender is the typed number of cents divided by 100. |
| PaymentPanel.InitialRoundTrip | src/renderer/components/PaymentPanel.tsx:16-46 | Opening the panel on a positive amount and submitting at once hands on that amount rounded to cents. |
| PaymentPanel.BackspaceUndoesKey | src/renderer/components/PaymentPanel.tsx:65-72 | A key press followed by a backspace restores the input. |
| PaymentPanel.KeysKeepDigits | src/renderer/components/PaymentPanel.tsx:65-72 | Digit keys and backspace keep an all-digit input all-digit. |
| PurchaseOrder.PurchaseOrderForm.constructor | src/renderer/components/AddToInventory.tsx:54-59 | The form starts with no lines and the empty line (no SKU, cost 0, tax 1.15, stock 0, quantity 0). |
| PurchaseOrder.PurchaseOrderForm.AddToOrder | src/renderer/components/AddToInventory.tsx:70-99 | The lines become `AfterAddToOrder` of the old lines and the edited line. The edited line is reset to the empty line. |
| PurchaseOrder.PurchaseOrderForm.RemoveRow | src/renderer/components/AddToInventory.tsx:527-529 | Exactly row `i` is removed. The edited line stays. |
| PurchaseOrder.PurchaseOrderForm.SubmitInventory | src/renderer/components/AddToInventory.tsx:101-114 | One restocked product is saved per line, in line order. The form is cleared even when the save fails. |
| PurchaseOrder.PurchaseOrderForm.SetQuantity | src/renderer/components/AddToInventory.tsx:494-501 | An empty quantity box sets the quantity to 0. Any other text sets it to the box's number. Nothing else changes. |
| PurchaseOrder.AddMergesExisting | src/renderer/components/AddToInventory.tsx:74-88 | For a SKU already listed, its first line becomes the edited line with both quantities added. The line count and every other line stay. |
| PurchaseOrder.AddAppendsNew | src/renderer/components/AddToInventory.tsx:91-93 | For a SKU not listed, the edited line is appended as it is. |
| PurchaseOrder.AddKeepsSkusUnique | src/renderer/components/AddToInventory.tsx:74-93 | One line per SKU before an add means one line per SKU after it. |
| PurchaseOrder.AddRaisesOrderedQty | src/renderer/components/AddToInventory.tsx:74-93 | An add raises what is ordered of the edited SKU by the edited quantity. What is ordered of every other SKU stays. |
| PurchaseOrder.OrderedQtyRemove | src/renderer/components/AddToInventory.tsx:527-529 | Deleting a row lowers what is ordered of its SKU by exactly its quantity. |
| PurchaseOrder.UniqueOrderedQty | src/renderer/components/AddToInventory.tsx:74-93 | With one line per SKU, a line's quantity is everything ordered of its SKU. |
| PurchaseOrder.SubmitRestocks | src/renderer/components/AddToInventory.tsx:105-107 | Each saved product keeps its line's SKU, name, cost price and tax. Its stock is the old stock (0 when missing) plus the line's quantity, which with one line per SKU is everything ordered of it. |
| Receipt.FormatReceipt | src/renderer/tools/receipt.ts:14-58 | The caller's array is sorted in place by quantity, and the receipt is built from the sorted rows. |
| Receipt.OrderNumberDigits | src/renderer/tools/receipt.ts:20 | The order number is all digits and reads back as the id. It has exactly nine characters for ids below 10^9, and an id of nine or more digits is printed unpadded. |
| Receipt.ReceiptTotals | src/renderer/tools/receipt.ts:24-57 | Each row carries its item's quantity and unit price in cents. Tax is 15% of the subtotal and the total is 115% of it. |
| Receipt.SortKeepsTotals | src/renderer/tools/receipt.ts:22-28 | Sorting keeps the subtotal. The printed rows are a permutation of the item rows, sorted the same way. |
| Receipt.RowsSort | src/renderer/tools/receipt.ts:22-57 | Building the rows and sorting commute. |
| Sorting.SortInPlace | src/renderer/tools/receipt.ts:22 | The in-place array sort leaves the array equal to `SortByQty` of its old contents. |
| Sorting.InsertNext | src/renderer/tools/receipt.ts:22 | One pass moves the next element into place among the sorted prefix. The rest of the array is unchanged. |
| Sorting.ShiftUp | src/renderer/tools/receipt.ts:22 | The inner loop of a pass moves every element just before position `i` whose quantity is below that of the element being placed up one place, stops at the first one whose quantity is at least as large, and leaves the rest of the array as it was. |
| Sorting.InsertAt | src/renderer/tools/receipt.ts:22 | Inserting an element lands it right after the last element of at least its quantity, when every element behind that one has a smaller quantity. |
| Sorting.SortPermutation | src/renderer/tools/receipt.ts:22 | The sorted rows are the input rows, each exactly as often. |
| Sorting.SortOrdered | src/renderer/tools/receipt.ts:22 | The sorted rows run from the largest quantity to the smallest. |
| Sorting.SortStable | src/renderer/tools/receipt.ts:22 | Rows of equal quantity keep their relative order. |
| Sorting.SortKeepsOrdered | src/renderer/tools/receipt.ts:22 | Rows already in order are left as they are. |
| EndOfDay.GenerateEod | src/renderer/tools/receipt.ts:107-180 | The loop's report equals `Eod` of the query outcome: per-method price sums and the hour and product tables. A failed query gives no report. |
| EndOfDay.WindowChronological | src/renderer/tools/receipt.ts:120-132 | A timestamp is in the query window exactly when, to the second, it is between today's and tomorrow's dates, both included. |
| EndOfDay.MethodTotalsPartition | src/renderer/tools/receipt.ts:118-148 | The three method totals add up to the prices of all purchases with a known method. |
| EndOfDay.TotalSalesIsSumOfPrices | src/renderer/tools/receipt.ts:118-148 | With every method known, total sales are the sum of all prices. No purchases gives an all-zero report. |
| EndOfDay.HourLabelInjective | src/renderer/tools/receipt.ts:151-154 | Different hours of the day have different labels. |
| EndOfDay.LocalHourWholeOffset | src/renderer/tools/receipt.ts:152-154 | `getHours()` is the UTC hour shifted by the clock's offset and wrapped into a day. On a UTC clock it is the UTC hour. |
| EndOfDay.HourCount | src/renderer/tools/receipt.ts:150-159 | Each label's count is the number of purchases whose local hour has that label (`PurchasesAt`). |
| EndOfDay.HourTotal | src/renderer/tools/receipt.ts:150-159 | The hour counts add up to the number of purchases, and labels appear once. |
| EndOfDay.ProductCount | src/renderer/tools/receipt.ts:160-172 | Each product's figure is its total quantity over all loaded items. Items without a product are skipped. |
| EndOfDay.AlignStrShape | src/renderer/tools/receipt.ts:182-195 | A line starts with `name:` and ends with the value. When both fit, the line is exactly `width` characters with separator characters between them. |
| EndOfDay.RulerShape | src/renderer/tools/receipt.ts:222 | The separator line is exactly `width` dashes. |
| EndOfDay.RenderedMethodLines | src/renderer/tools/receipt.ts:214-229 | The method lines come as credit, debit, cash, each naming its method and ending with `$` and its amount to two decimals. |
| EndOfDay.RenderedProductLine | src/renderer/tools/receipt.ts:232-238 | There is one line per product, naming it and ending with `$` and its cost price times its quantity. |
| Dictionary.BumpLookup | src/renderer/tools/receipt.ts:155-159 | Add-or-set raises its own key's value by the amount and leaves every other key's value. |
| Dictionary.BumpKeys | src/renderer/tools/receipt.ts:155-159 | Keys keep their order, a new key goes last, and distinct keys stay distinct. |
| Dictionary.BumpTotal | src/renderer/tools/receipt.ts:155-159 | Add-or-set raises the sum of all values by exactly the amount. |
| Extensions.DatabaseStringShape | src/@types/extensions.ts:17-37 | For a valid date with a four-digit year, the string is 19 characters and reads back as the date's six UTC fields, with months counted from 1. |
| Extensions.UTCDateIsPrefix | src/@types/extensions.ts:39-46 | `toUTCDate` is a prefix of `toDatabaseString`, 10 characters for a four-digit year. |
| Extensions.DatabaseStringIgnoresMilliseconds | src/@types/extensions.ts:32-36 | The milliseconds do not affect the string. |
| Extensions.DatabaseStringOrder | src/@types/extensions.ts:17-37 | String order on two timestamps is chronological order to the second. |
| Extensions.DatabaseStringInjective | src/@types/extensions.ts:17-37 | Two dates give the same string exactly when they agree to the second. |
| Extensions.FourDigits | src/@types/extensions.ts:18 | A four-digit year prints as four digits that read back as the year. |
| Text.ZeroPadValue | src/renderer/tools/receipt.ts:20 | Zero-padding a digit string on the left keeps it all digits and keeps its value. |
| Text.Pad2Value | src/@types/extensions.ts:19-31 | A two-digit field prints as exactly two digits that read back as its value. |
| Text.NatStringValue | src/renderer/tools/receipt.ts:20 | `toString()` of a natural number reads back as that number. |
| Money.RoundError | src/renderer/pages/Landing.tsx:227-228 | `round(x, d)` is within half a unit of the last decimal of `x`. |
| Money.RoundCentsNonPositive | src/renderer/pages/Landing.tsx:228-232 | The amount rounded to cents is at most zero exactly when the amount is below half a cent. |
| Money.Fixed2Shape | src/renderer/components/PaymentPanel.tsx:18 | `toFixed(2)` of a non-negative amount is digits, a point and two digits, whose value is the amount rounded to cents. |
| Entities.FindBySku | src/renderer/pages/Landing.tsx:170-172 | The lookup finds a stored product with that SKU, and finds none exactly when no stored product has it. |
| Entities.FindBySkuOrName | src/renderer/pages/Landing.tsx:195-198 | The lookup finds a stored product with that SKU or name, and fails exactly when none has either. |
| Lists.FirstIndex | src/renderer/pages/Landing.tsx:167 | `findIndex` gives the first index whose element matches, and none exactly when nothing matches. |
| Lists.RemoveAt | src/renderer/pages/Landing.tsx:469 | `splice(i, 1)` drops exactly element `i` and shifts the rest down. An index past the end changes nothing. |
| Lists.SumPermutation | src/renderer/tools/receipt.ts:22-26 | linqify's `Sum` does not depend on the order of the elements. |

## Left out

- User interface: rendering, focus, the hover windows, battery and connection indicators, menus, the settings link, and the product-selection drop-down of the purchase-order form. Only the state these screens keep and the handlers named above are modelled.
- The database (typeorm): a lookup is a list of stored products passed in, and a save is the record handed back, with failure as `None`. Asynchronous ordering, interleaved clicks and the lack of atomicity between the two payment saves are not modelled.
- The printer, and the receipt library's layout of headers, footers, columns and wrapping. The model states the fields handed to the layout, not the laid-out text.
- The clock. The receipt date, `Date.today()` and the purchase timestamp are parameters, and datejs formatting (`toString('dd/MM/yyyy hh:mm tt')`, `toDateString`, `toStandardFormat`) is not modelled.
- Time zones. A date is given by its UTC fields. The end-of-day time table reads the local hour as the UTC time shifted by a fixed offset in minutes (`EndOfDay.LocalHour`), so daylight-saving changes within the queried day are not modelled.
- IEEE-754 floating point. Money is an exact real, so binary rounding of sums and of `toFixed` on values such as 1.005 is not captured, and neither are `NaN` or `Infinity`.
- PaymentPanel.ParseFloat: models `Number.parseFloat` only on digits with at most one point. Signs, exponents and a numeric prefix followed by other text are not modelled.
- PaymentPanel.PaymentPanel.constructor: a negative initial value is taken as given by `toFixed(2)`, including its sign, and is not accepted by the tender lemmas. The panel is only opened with the amount previously paid.
- linqify's `Dictionary` compares product keys by object identity. The model compares product records by value.
- The discount lookup of the older screen's search. Its result is discarded, so it has no behaviour to state.
- `submitOrder` of the purchase-order form. It creates a supplier and order records and only saves them.
- Quantities are integers. The purchase-order form allows fractional weights, which the model does not capture.
- The purchase-order form shares the `emptyItem` object between resets, and the cost-price and description handlers write into it in place. The model resets to a fresh empty line, so this aliasing is not captured.
