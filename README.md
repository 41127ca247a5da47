# Saree shop point of sale: checkout and catalog administration

This project models the two screens of an Angular point-of-sale application
for a saree and dress shop, and proves properties of that model.

- **The cashier screen** (`CashierDashboardComponent`) is a checkout state machine. Its handlers:
  - scan a product code into a cart of lines;
  - set a line discount;
  - remove a line;
  - hold the current cart as a parked bill and resume it later;
  - finalize the sale. Finalizing takes the sold units off the catalog's stock and records a bill.
- **The admin screen** (`AdminDashboardComponent`) edits two lists:
  - the product catalog: add, delete, edit and update;
  - the cashier names: add a trimmed name, delete by name, clear all.

Both screens are classes whose methods update their fields in place, as the components do.
The rules the cashier handlers apply are also stated as pure functions, and the lemmas are proved about those functions:

- the discount clamp;
- the cart total;
- the change rule;
- the effect of one scan;
- the effect of the stock loop.

Each method's contract ties its new state to these functions.

Modules:

- `Lists`: the JavaScript array operations the screens use.
  - `FirstIndex` stands for `find`/`findIndex`.
  - `FilterOut` stands for `filter` with `!==`.
  - `Sum` stands for a numeric `reduce` from 0.
- `Text`: `String.prototype.trim`, with the ECMAScript white-space set, and the decimal rendering of an id.
- `Catalog`: the product record and the quick-pick seed list.
- `Billing`: cart lines, bills and the checkout rules, with their lemmas.
- `Cashier`: the class `CashierDashboard`.
- `Admin`: the class `AdminDashboard`.

Modelling choices:

- Money is in paise (hundredths of a rupee), as unbounded integers. The component computes in floating-point rupees; see "Left out".
- `alert` messages become returned outcome values. The answer to `confirm` is a boolean argument.
- `Date.now()` and `new Date().toLocaleString()` are the arguments `now` and `date`.
- The barcode reaches `AddProductByBarcode` already parsed: `None` stands for `NaN`.

**Discounts larger than one unit's price.** `updateCartItemDiscount` clamps the requested discount to the line subtotal, `price * cartQuantity` (cashier-dashboard.component.ts:75). `calculateTotal` then takes that discount off *each unit*: `cartQuantity * (price - discount)` (:136).
Clamping to the subtotal might be expected to bring the line to 0. Instead, two sarees at 1899 rupees with a 5000-rupee request get a discount of 3798 rupees, and the line comes to -3798 rupees.

The model computes this negative total. `Billing.TwoSareesFullDiscount` and `Billing.FullDiscountLineAmount` state the outcome.

## Model

| member | source | states |
|---|---|---|
| `Lists.FirstIndex` | src/app/cashier-dashboard/cashier-dashboard.component.ts:186 | The index `findIndex` returns: it holds the key, no earlier element does, and there is none exactly when no element holds it |
| `Lists.FirstIndexAppended` | src/app/admin-dashboard/admin-dashboard.component.ts:45-46 | An element appended with a key no earlier element has is the first match for that key |
| `Lists.SumAppend` | src/app/cashier-dashboard/cashier-dashboard.component.ts:135-138 | A `reduce` from 0 over a concatenation is the sum of the reduces over its parts |
| `Lists.SumNonNegative` | src/app/cashier-dashboard/cashier-dashboard.component.ts:135-138 | A `reduce` from 0 of terms that are all non-negative is non-negative |
| `Lists.FilterOut` | src/app/admin-dashboard/admin-dashboard.component.ts:52 | The filtered list is no longer than the original and holds no element with the removed key |
| `Lists.FilterOutAppend` | src/app/admin-dashboard/admin-dashboard.component.ts:52 | Filtering distributes over concatenation, so the survivors keep their relative order |
| `Lists.FilterOutNoMatch` | src/app/cashier-dashboard/cashier-dashboard.component.ts:80 | Filtering a list with no matching element returns it unchanged |
| `Lists.FilterOutSingle` | src/app/cashier-dashboard/cashier-dashboard.component.ts:80 | When exactly one element matches, filtering removes that element and nothing else |
| `Lists.FilterOutCount` | src/app/admin-dashboard/admin-dashboard.component.ts:77 | Every occurrence of a matching element is removed and every occurrence of any other element is kept |
| `Text.Trim` | src/app/admin-dashboard/admin-dashboard.component.ts:71-72 | `trim` never lengthens its input, and a non-empty result starts and ends with a non-space |
| `Text.TrimSlice` | src/app/admin-dashboard/admin-dashboard.component.ts:71-72 | `trim` keeps a contiguous slice of the input and strips only white space before and after it |
| `Text.TrimBlank` | src/app/admin-dashboard/admin-dashboard.component.ts:71-72 | `trim` returns the empty string exactly when the input is all white space, and otherwise a string that starts and ends with a non-space |
| `Text.DecimalText` | src/app/cashier-dashboard/cashier-dashboard.component.ts:130 | The rendered id is non-empty and trimming leaves it whole, so a quick pick never hits the blank-input guard |
| `Catalog.QuickProductsStocked` | src/app/cashier-dashboard/cashier-dashboard.component.ts:27-36 | The eight quick-pick products have distinct ids, positive prices and stock on hand |
| `Billing.NewLine` | src/app/cashier-dashboard/cashier-dashboard.component.ts:122 | A new cart line copies the product's id, price and stock, holds one unit with no discount, is well formed exactly when the price is non-negative, and adds the price to the total |
| `Billing.OrElseFilled` | src/app/cashier-dashboard/cashier-dashboard.component.ts:159-160 | The fallback for an empty customer field keeps non-empty text and otherwise gives the fallback text, so it is never empty when the fallback is not |
| `Billing.RestoreClearsSentinel` | src/app/cashier-dashboard/cashier-dashboard.component.ts:192-193 | A restored field never reads as the fallback text, and any other text is kept |
| `Billing.LineAmountBounds` | src/app/cashier-dashboard/cashier-dashboard.component.ts:136 | A line's amount is price times quantity without a discount, at most that with a non-negative discount, and not negative while the discount is at most the unit price |
| `Billing.CartTotal` | src/app/cashier-dashboard/cashier-dashboard.component.ts:134-138 | The `reduce` from 0 gives 0 on an empty cart |
| `Billing.CartTotalNonNegative` | src/app/cashier-dashboard/cashier-dashboard.component.ts:134-138 | The total is not negative when no line's discount exceeds its unit price |
| `Billing.SetDiscount` | src/app/cashier-dashboard/cashier-dashboard.component.ts:75 | Setting a discount replaces that line's discount by the clamp of the request to [0, price × quantity] and changes nothing else in the cart |
| `Billing.ClampDiscount` | src/app/cashier-dashboard/cashier-dashboard.component.ts:75 | The discount is the point of [0, price × quantity] nearest the requested one: kept when inside, the subtotal when above, 0 when negative |
| `Billing.ChangeFor` | src/app/cashier-dashboard/cashier-dashboard.component.ts:142-148 | Change is never negative; with cash covering the total, total plus change equals the tender; otherwise it is 0 |
| `Billing.RestoreOrElse` | src/app/cashier-dashboard/cashier-dashboard.component.ts:192-193 | Resuming undoes the hold's fallback text for every customer field except one that equalled the fallback text |
| `Billing.SetDiscountEffect` | src/app/cashier-dashboard/cashier-dashboard.component.ts:74-77 | Setting a discount keeps the cart well formed, changes only that line and moves the total by the change in the line amount |
| `Billing.FullDiscountLineAmount` | src/app/cashier-dashboard/cashier-dashboard.component.ts:75-76 | A discount clamped at the line subtotal and taken off every unit leaves q·p·(1−q), which is negative for two or more units at a positive price |
| `Billing.TwoSareesFullDiscount` | src/app/cashier-dashboard/cashier-dashboard.component.ts:74-77 | Two scans of product 2001 and a 5000-rupee discount request give one line of two units and a total of −3798 rupees |
| `Billing.DropLineWellFormed` | src/app/cashier-dashboard/cashier-dashboard.component.ts:79-82 | Dropping one line of a well-formed cart leaves a well-formed cart |
| `Billing.RemoveLineEffect` | src/app/cashier-dashboard/cashier-dashboard.component.ts:79-82 | Removing a product's line keeps the cart well formed and the other lines in order, and takes exactly that line's amount off the total; an absent id changes nothing |
| `Billing.Lookup` | src/app/cashier-dashboard/cashier-dashboard.component.ts:98-99 | The product found is the first with the scanned id; there is none exactly when the code did not parse or no product has it |
| `Billing.AddByCode` | src/app/cashier-dashboard/cashier-dashboard.component.ts:101-124 | A refused scan leaves the cart as it was |
| `Billing.AddByCodeSucceeds` | src/app/cashier-dashboard/cashier-dashboard.component.ts:101-124 | A scan reports not-found exactly when no product matches, and succeeds exactly when the product exists and the cart holds fewer units of it than its stock |
| `Billing.AddByCodeQuantities` | src/app/cashier-dashboard/cashier-dashboard.component.ts:113-122 | A successful scan adds exactly one unit of the scanned product and none of any other; a refused one changes no quantity |
| `Billing.AddByCodeKeepsLines` | src/app/cashier-dashboard/cashier-dashboard.component.ts:113-122 | Lines keep their positions: only the scanned product's line may gain a unit, and a new line is appended at the end |
| `Billing.AddByCodeWellFormed` | src/app/cashier-dashboard/cashier-dashboard.component.ts:113-122 | Scanning keeps the cart one line per product with well-formed lines |
| `Billing.AddByCodeInStock` | src/app/cashier-dashboard/cashier-dashboard.component.ts:111-121 | The stock guards keep every line within its product's stock on hand |
| `Billing.BumpLineTotal` | src/app/cashier-dashboard/cashier-dashboard.component.ts:134-138 | One more unit on a line raises the total by that line's net unit price |
| `Billing.AppendLineTotal` | src/app/cashier-dashboard/cashier-dashboard.component.ts:122 | A new line raises the total by the product's price |
| `Billing.AddByCodeTotal` | src/app/cashier-dashboard/cashier-dashboard.component.ts:95-127 | A successful scan raises the total by the net unit price of the scanned product's line |
| `Billing.SellLineAt` | src/app/cashier-dashboard/cashier-dashboard.component.ts:216-217 | One iteration of the stock loop takes the line's units off only the entry `find` picks for its id, and changes nothing else |
| `Billing.SellLine` | src/app/cashier-dashboard/cashier-dashboard.component.ts:216-217 | One iteration of the stock loop keeps the catalog's length |
| `Billing.ApplySale` | src/app/cashier-dashboard/cashier-dashboard.component.ts:215-218 | The stock loop keeps the catalog's length |
| `Billing.ApplySaleAt` | src/app/cashier-dashboard/cashier-dashboard.component.ts:215-218 | After the stock loop, the entry `find` picks for each id has lost exactly the units the cart holds of that id; every other entry and field is unchanged |
| `Billing.SaleTakesLineUnits` | src/app/cashier-dashboard/cashier-dashboard.component.ts:215-218 | With one line per product, each product in the cart loses exactly its line's units |
| `Billing.NoOversell` | src/app/cashier-dashboard/cashier-dashboard.component.ts:215-218 | When every line is within stock, no product's stock goes negative |
| `Billing.RemoveAt` | src/app/cashier-dashboard/cashier-dashboard.component.ts:199 | `splice(index, 1)` removes exactly entry `index`: the entries before it keep their positions, the ones after it move down by one, and the multiset loses just that bill |
| `Cashier.CashierDashboard.constructor` | src/app/cashier-dashboard/cashier-dashboard.component.ts:46-72 | The screen starts with the quick-pick catalog, an empty cart, Cash payment and the stored ledgers, and satisfies the screen invariant |
| `Cashier.CashierDashboard.CalculateChange` | src/app/cashier-dashboard/cashier-dashboard.component.ts:142-148 | The change shown follows the change rule |
| `Cashier.CashierDashboard.CalculateTotal` | src/app/cashier-dashboard/cashier-dashboard.component.ts:134-140 | The total is the cart total and the change follows it |
| `Cashier.CashierDashboard.UpdateCartItemDiscount` | src/app/cashier-dashboard/cashier-dashboard.component.ts:74-77 | The cart becomes the clamped-discount cart, the invariant is kept and the total moves by the change in that line's amount |
| `Cashier.CashierDashboard.RemoveCartItem` | src/app/cashier-dashboard/cashier-dashboard.component.ts:79-82 | The cart loses exactly the line with that id (or nothing), the others keep their order, and the total drops by that line's amount |
| `Cashier.CashierDashboard.ScanCode` | src/app/cashier-dashboard/cashier-dashboard.component.ts:98-122 | The in-place scan produces exactly the outcome and cart of the scan rule |
| `Cashier.CashierDashboard.AddProductByBarcode` | src/app/cashier-dashboard/cashier-dashboard.component.ts:95-127 | A blank input changes nothing; otherwise the input is cleared and the cart follows the scan rule; the invariant is kept and the total is recomputed only on success |
| `Cashier.CashierDashboard.AddQuickProduct` | src/app/cashier-dashboard/cashier-dashboard.component.ts:129-132 | A quick pick is a scan of the product's id that always gets past the blank-input guard |
| `Cashier.CashierDashboard.HoldBill` | src/app/cashier-dashboard/cashier-dashboard.component.ts:150-177 | An empty cart is refused with nothing changed; otherwise exactly one held bill holding the cart and total is appended and the cart, customer, tender and change are reset |
| `Cashier.CashierDashboard.LoadHeldBill` | src/app/cashier-dashboard/cashier-dashboard.component.ts:189-199 | The held bill becomes the cart with restored customer fields, Cash payment and its recomputed total, and exactly that entry leaves the held list |
| `Cashier.CashierDashboard.ResumeBill` | src/app/cashier-dashboard/cashier-dashboard.component.ts:179-202 | A declined discard or an unknown id changes nothing; otherwise the first held bill with that id is restored and removed |
| `Cashier.CashierDashboard.DecrementStock` | src/app/cashier-dashboard/cashier-dashboard.component.ts:215-218 | The in-place stock loop leaves the catalog that the stock rule gives, and prices stay non-negative |
| `Cashier.CashierDashboard.Checkout` | src/app/cashier-dashboard/cashier-dashboard.component.ts:215-242 | The sale takes the cart's units off the stock, appends the bill with the customer fallbacks, and resets the screen |
| `Cashier.CashierDashboard.FinalizeBill` | src/app/cashier-dashboard/cashier-dashboard.component.ts:204-243 | An empty cart or a short cash tender changes nothing; the sale goes through exactly otherwise, with the stock, bill and reset effects of `Checkout` |
| `Cashier.CashierDashboard.HoldThenResume` | src/app/cashier-dashboard/cashier-dashboard.component.ts:150-202 | Holding a cart and resuming it at once restores the cart, total and held list, and restores the customer fields except a name or phone equal to the fallback text |
| `Admin.AdminDashboard.constructor` | src/app/admin-dashboard/admin-dashboard.component.ts:21-33 | The screen starts from the stored lists with an empty form and no selection |
| `Admin.AdminDashboard.AddProduct` | src/app/admin-dashboard/admin-dashboard.component.ts:40-49 | A form with no name or a non-positive price is refused with nothing changed; otherwise exactly the form product with id `now` is appended and the form is reset; a fresh `now` makes it the product `find` returns for that id |
| `Admin.AdminDashboard.DeleteProduct` | src/app/admin-dashboard/admin-dashboard.component.ts:51-54 | No product with the id remains, the rest are filtered in order, and an absent id changes nothing |
| `Admin.AdminDashboard.EditProduct` | src/app/admin-dashboard/admin-dashboard.component.ts:56-59 | The form is in edit mode on the given product |
| `Admin.AdminDashboard.UpdateProduct` | src/app/admin-dashboard/admin-dashboard.component.ts:61-68 | With no selection, or with edit mode closed, nothing changes; otherwise only the first product with the selected id is replaced (none if absent), the length is kept, and edit mode closes |
| `Admin.AdminDashboard.AddCashier` | src/app/admin-dashboard/admin-dashboard.component.ts:70-74 | A blank name is ignored; otherwise the non-empty trimmed name is appended |
| `Admin.AdminDashboard.DeleteCashier` | src/app/admin-dashboard/admin-dashboard.component.ts:76-79 | Every equal name is removed and the rest are filtered in order |
| `Admin.AdminDashboard.ClearAll` | src/app/admin-dashboard/admin-dashboard.component.ts:81-85 | Both lists become empty |

## Left out

- `printBill` (HTML receipt building, `window.open` and a GST split in floating point), `viewBill` and `logout`: alert text, page reload and router navigation.
- Persistence: every `localStorage` read and write and the `JSON.parse`/`stringify` round trips, including the admin `saveToLocal`. The constructors take the stored lists as arguments.
- `ngOnInit` writing the catalog to storage: only its reset of `products` to the quick-pick list is modelled.
- Object sharing between lists.
  - The component copies `QUICK_PRODUCTS` shallowly, so stock decrements also change the shared quick-pick objects; the model resets `products` to the original seed values.
  - Cart lines, held bills and finalized bills are values here. The sharing between `cart` and a held bill's `items` is never observed afterwards, because the cart is reset or replaced right after.
- `Number.prototype.toString` of an id beyond 10^21, which switches to exponent notation: `DecimalText` always writes plain digits.
- `parseInt` on the barcode text: the parsed code is an argument.
- Two-way form binding: the templates are not part of this model. On the cashier screen `paymentMode`, `cashTendered`, `customerName`, `customerPhone` and `barcodeInput`, and on the admin screen `newProduct`, `selectedProduct` and `newCashier`, change here only through the modelled handlers. The handlers read whatever values those fields hold, so `AddProduct` reads a form that only a direct field write fills, and `UpdateProduct` writes back the product exactly as `EditProduct` selected it.
- The login screen, the unrouted billing stub and the route table: framework glue with no state of their own.
- Cashier.CashierDashboard.constructor: requires the stored held bills to hold well-formed carts, since `holdBill` is the only handler that adds held entries (`resumeBill` at :200 rewrites the storage without the resumed entry and `logout` at :91 clears it); the component accepts any stored data.
- Cashier.CashierDashboard.AddProductByBarcode: stock bounds are not a screen invariant, because `resumeBill` restores a held cart without re-checking stock. Their preservation by a scan is stated separately as `Billing.AddByCodeInStock`.
- Billing.ApplySale: its own contract gives only the length; what the loop does to each entry is `Billing.ApplySaleAt`.
- Floating point: the component computes prices, discounts, totals and change in floating-point rupees, while the model uses exact integer paise. Rounding of user-entered discounts and tenders is not captured, nor is a `cashTendered < total` comparison at :210 that refuses a tender equal to the exact total because the float sum came out slightly above it. Likewise the admin `price <= 0` check (admin-dashboard.component.ts:41) runs on a floating-point rupee value, which the model takes as whole paise.
