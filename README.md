# pos-presentation in Dafny

This project models the nine working pages of the pos-presentation point-of-sale web
app. Each page is one `app/<page>/page.tsx` React component that talks to a Supabase
backend.

- **Shift** (`shift.dfy`). A cashier shift opens with a staff member and an opening
  float. The paid sales since the shift started are added up. Closing the shift with
  the counted cash writes the variance note ("BALANCE" or "SELISIH: n"). The history
  list shows each closed shift as "STABIL" or with its difference, and a history row
  can be deleted.
- **Orders** (`orders.dfy`). This is the order-entry screen. It has the menu search,
  the cart (adding an item again raises its quantity), the table picker (occupied
  tables cannot be picked) and the rule that enables the submit button.
- **Kitchen** (`kitchen.dfy`). The kitchen display has status buttons that move an
  order forward, the per-status counters, the status labels and the zone filter.
- **Tables** (`tables.dfy`). The table grid shows status counters, badges, and cards
  whose details and actions depend on the table's status.
- **Revenue** (`revenue.dfy`). The revenue report has the dine-in and takeaway tabs,
  the total and the average, the CSV export of the active tab, and the reset.
- **Insight** (`insight.dfy`). The analytics page makes one pass over the revenue
  records. It builds the per-weekday totals and the per-product quantities as
  insertion-ordered dictionaries, then keeps the five best-selling products.
- **Dashboard** (`dashboard.dfy`). It shows today's revenue, the transaction count and
  the average bill. Seven hourly sales buckets, at the even hours 08 to 20, get bar
  percentages relative to the largest bucket; sales at other hours fall in no bucket. The restaurant name comes from the user's metadata.
- **ProfitLoss** (`profit_loss.dfy`). It shows income, expenses, net profit and
  margin, the health label and the capped expense bar, and exports a CSV data URI.
- **Payment** (`payment.dfy`). The checkout has the fixed bill with 10 % tax and a 5 %
  service charge, and the payment methods. The cash field keeps only digits and shows
  them as id-ID rupiah. The page also has the quick-cash buttons, the change, the
  guard on the pay button and the success view.

Two shared modules sit under these pages. `Basics` holds `Option`, the `Toast` shown
by `sonner`, and the array helpers `filter`, `reduce`, `map` and `join` with their
algebra. `Decimal` holds JavaScript number-to-string conversion, `parseInt` of digit
strings, `padStart(2, '0')`, `replace(/\D/g, "")` and id-ID thousands grouping, each
with its round trip.

How the code is shaped:

- A page whose React state changes is a class. Its fields are the `useState` values
  and its methods are the event handlers.
- A `setX(prev => …)` updater is a pure function, and its method ensures
  `x == Updater(old(x), …)`.
- A backend call is a parameter that says how the call ended:
  - `Shift.Reply`: no user, error, or success;
  - `Revenue.FetchReply`, `Insight.InsightReply` and `Dashboard.DashReply`: an error,
    or rows, which may be null;
  - `Revenue.DeleteReply`: an error with its message, or success.
- The shift page's writes land in a `store` field, which holds the owner's rows of the
  `shifts` table.
- Clocks and locale formatting are parameters:
  - `toLocaleDateString` and `toLocaleTimeString` of the revenue export are
    `dateText, timeText: int -> string`, and the insight weekday name is
    `dayKey: int -> string`;
  - the dashboard's `getHours` is `hourOf: int -> nat`;
  - the profit-loss `toFixed(2)` is `fixed2: real -> string`;
  - the current hour that names a new shift is `hour: int`, and the current time is
    `now: int` on the shift page, `now: string` (the "HH.MM" sync time) on the
    dashboard and `today: string` in the revenue export's file name.
- JavaScript numbers are modelled as `int` where the page only adds whole amounts, and
  as `real` where it divides or multiplies by a fraction.

## Model

| member | source | states |
|---|---|---|
| Shift.ShiftName | app/shift/page.tsx:148 | a new shift is "PAGI" exactly when the hour is before 15, otherwise "SORE" |
| Shift.SalesSinceSnoc | app/shift/page.tsx:77-84 | one more order adds its amount (null as 0) exactly when it is paid, completed or success and not older than the shift's start |
| Shift.SalesSinceNonNegative | app/shift/page.tsx:84 | the shift's sales are not negative when no single amount is |
| Shift.ActiveShiftOf | app/shift/page.tsx:69-74 | a shift is found iff exactly one of the owner's rows is active, and then it is that row |
| Shift.StartedShiftIsFound | app/shift/page.tsx:144-152 | after a shift is inserted while none is active, the active-shift lookup of lines 69-74 finds the new row |
| Shift.ClosedShiftIsGone | app/shift/page.tsx:177-185 | after the shift found is closed, the lookup of lines 69-74 finds no active shift |
| Shift.ClosedHistory | app/shift/page.tsx:96-103 | the history holds only closed rows of the owner, and every closed row |
| Shift.ClosedHistoryOrder | app/shift/page.tsx:96-103 | the history keeps the rows in table order: it works piecewise on a concatenation |
| Shift.ClosedShiftInHistory | app/shift/page.tsx:177-191 | a shift closed from the page appears in the reloaded history with the counted cash, the sales and the note written on close |
| Shift.CloseNotes | app/shift/page.tsx:182 | the close note is "BALANCE" iff the variance is 0; otherwise it is "SELISIH: " followed by text that parses back to the variance |
| Shift.NotesRoundTrip | app/shift/page.tsx:182 | the variance can always be read back from the note written on close |
| Shift.CloseRows | app/shift/page.tsx:175-185 | the close update gives every row with the shift's id the counted cash, the sales, the end time, the closed status and the note, and leaves every other row unchanged |
| Shift.HistoryBadge | app/shift/page.tsx:344-370 | a history row shows "STABIL" iff actual cash minus (opening float + recorded sales) is 0, and otherwise shows that difference |
| Shift.BalanceLaw | app/shift/page.tsx:168-182 | the row written on close is closed; its history variance equals the variance computed at close; it shows "STABIL" iff its note is "BALANCE"; its note reads back to its variance |
| Shift.WithoutId | app/shift/page.tsx:128 | after a delete, the list has no row with that id, every remaining row was there before, and every row with another id is kept |
| Shift.WithoutIdOrder | app/shift/page.tsx:128 | deleting works piecewise on a concatenation, so the other rows keep their order |
| Shift.WithoutIdSingle | app/shift/page.tsx:128 | a single row is dropped exactly when it has the id |
| Shift.WithoutAbsentId | app/shift/page.tsx:120-128 | deleting an id that no row has changes nothing |
| Shift.ShiftPage.constructor | app/shift/page.tsx:21-28 | the initial page state: no shift, empty history and inputs, sales 0 |
| Shift.ShiftPage.SelectStaff | app/shift/page.tsx:240 | the staff picker holds the chosen name |
| Shift.ShiftPage.SetOpeningCash | app/shift/page.tsx:255 | the opening-float field holds the typed value |
| Shift.ShiftPage.SetActualCash | app/shift/page.tsx:306 | the counted-cash field holds the typed value |
| Shift.ShiftPage.FetchActiveShift | app/shift/page.tsx:65-90 | with no user nothing changes; an error clears the shift; on success the current shift is the owner's single active row, and the sales are those booked since its start |
| Shift.ShiftPage.StartShift | app/shift/page.tsx:135-163 | a missing staff name or float is refused with its toast; on success one active row with the staff, the float, the shift name and the start time is appended, becomes the current shift, and the sales are reset to 0; on failure nothing changes |
| Shift.ShiftPage.EndShift | app/shift/page.tsx:165-197 | a missing counted cash is refused and changes nothing; on success the current row is closed with the counted cash, the sales and the variance note, the shift is cleared and the input emptied; on failure nothing changes |
| Shift.ShiftPage.FetchShiftHistory | app/shift/page.tsx:92-104 | on success the list is the owner's closed rows; with no user or no data it stays as it was |
| Shift.ShiftPage.RefreshHistory | app/shift/page.tsx:106-111 | reloads the list as the fetch does and always reports "Histori diperbarui" |
| Shift.ShiftPage.DeleteHistory | app/shift/page.tsx:113-133 | without confirmation nothing happens; on success the id leaves both the table and the list; on failure both stay and an error toast is shown |
| Orders.FindLine | app/orders/page.tsx:91 | a cart line is found iff some line has the item's id, and the line found has that id |
| Orders.AddExistingItem | app/orders/page.tsx:91-92 | adding an item already in the cart raises that line's quantity by one and changes no other line |
| Orders.AddNewItem | app/orders/page.tsx:93 | adding an item not in the cart appends it with quantity 1 |
| Orders.CartUpdateWellFormed | app/orders/page.tsx:89-95 | the cart keeps one line per item id, each with a quantity of at least 1 |
| Orders.IncrementAbsent | app/orders/page.tsx:92 | the increment leaves a cart without the id unchanged |
| Orders.TotalAfterIncrement | app/orders/page.tsx:92-98 | raising one line's quantity raises the total by that item's price |
| Orders.AddToCartTotal | app/orders/page.tsx:89-98 | a click raises the cart total by exactly the item's price when the cart's lines with its id carry that item |
| Orders.CartUpdateFromMenu | app/orders/page.tsx:89-95 | clicking a menu item keeps every cart line a copy of a menu item |
| Orders.MenuClickTotal | app/orders/page.tsx:50-98 | with distinct menu ids and a cart built from the menu, every click on a menu item raises the total by exactly its price |
| Orders.Lower | app/orders/page.tsx:122 | lower-casing keeps the length, leaves no capital A to Z, turns each capital into its small letter and keeps every other character |
| Orders.LowerIdempotent | app/orders/page.tsx:122 | lower-casing twice is lower-casing once |
| Orders.VisibleMenu | app/orders/page.tsx:121-122 | the menu shows exactly the items whose lower-cased name contains the lower-cased query, each taken from the menu |
| Orders.VisibleMenuKeepsOrder | app/orders/page.tsx:121-122 | the search works piecewise on a concatenation of menus, so the shown items keep the menu's order |
| Orders.VisibleMenuSingle | app/orders/page.tsx:121-122 | a single item is shown exactly when its lower-cased name contains the lower-cased query |
| Orders.SearchIgnoresQueryCase | app/orders/page.tsx:122 | typing the query in capitals or small letters shows the same items |
| Orders.EmptyQueryShowsAll | app/orders/page.tsx:122 | an empty search shows the whole menu in order |
| Orders.FindTable | app/orders/page.tsx:97 | the table found has the id; when none is found, no table has it |
| Orders.ClickTable | app/orders/page.tsx:182-183 | clicking an occupied table keeps the selection; clicking any other table selects it |
| Orders.ClickKeepsSelectionFree | app/orders/page.tsx:179-183 | once the selected table is free, no click can make it occupied |
| Orders.SubmitEnabledIffCart | app/orders/page.tsx:217 | with a free table selected, submit is enabled iff the cart is not empty |
| Orders.InitialSelectionFree | app/orders/page.tsx:36-47 | table ids are unique and the initially selected table "1" is free |
| Orders.OrderEntry.constructor | app/orders/page.tsx:32-47 | for a menu with distinct ids, the initial state: the eight tables, empty cart and query, table "1" selected |
| Orders.OrderEntry.AddToCart | app/orders/page.tsx:89-98 | for an item of the menu, the cart becomes the `addToCart` update of the old cart, stays well formed and built from the menu, and its total rises by exactly the item's price |
| Orders.OrderEntry.SetSearchQuery | app/orders/page.tsx:116 | the query holds the typed text |
| Orders.OrderEntry.SelectTable | app/orders/page.tsx:182-183 | the selection follows the click rule and never becomes an occupied table |
| Kitchen.WithStatusEffect | app/kitchen/page.tsx:88-90 | the board keeps its length and order; the orders with the id get the new status and keep every other field; all other orders are unchanged |
| Kitchen.WithStatusAbsent | app/kitchen/page.tsx:89 | an id that no order has leaves the board as it was |
| Kitchen.WithStatusKeepsIds | app/kitchen/page.tsx:89 | status updates keep the ids unique |
| Kitchen.OfferedTransitions | app/kitchen/page.tsx:226-256 | the buttons offer exactly these moves: pending to preparing, pending to served, preparing to ready, and ready to served |
| Kitchen.OfferedMovesForward | app/kitchen/page.tsx:226-256 | every offered move goes strictly forward, and a served order is offered none |
| Kitchen.ButtonNeverMovesBack | app/kitchen/page.tsx:226-256 | pressing a button never moves any order on the board backwards |
| Kitchen.StatsPartition | app/kitchen/page.tsx:120-124 | the pending, preparing and ready counters plus the served orders account for the whole board |
| Kitchen.StatusCountAfterUpdate | app/kitchen/page.tsx:88-124 | moving one order adds one to its new status's counter and removes one from its old status's counter |
| Kitchen.StatusTextDistinct | app/kitchen/page.tsx:107-118 | the four status labels are distinct |
| Kitchen.FilteredOrders | app/kitchen/page.tsx:92 | "Semua" shows every order; another zone shows exactly the orders of that zone |
| Kitchen.FilteredOrdersKeepOrder | app/kitchen/page.tsx:92 | the zone filter keeps the board's order |
| Kitchen.InitialBoard | app/kitchen/page.tsx:23-83 | the five initial orders have distinct ids |
| Kitchen.KitchenBoard.constructor | app/kitchen/page.tsx:23-86 | the initial board with zone "Semua" |
| Kitchen.KitchenBoard.UpdateOrderStatus | app/kitchen/page.tsx:88-90 | the board becomes the status update of the old board, and ids stay unique |
| Kitchen.KitchenBoard.SelectZone | app/kitchen/page.tsx:164 | the zone holds the chosen zone |
| Tables.StatsPartition | app/tables/page.tsx:36-41 | the occupied, available and reserved counters add up to the total |
| Tables.BadgeDistinct | app/tables/page.tsx:54-63 | the three badges are distinct |
| Tables.CardShape | app/tables/page.tsx:100-151 | only an occupied card shows guests, duration, bill, "Tambah Order" and "Bayar"; only an available card shows "Buka Meja"; a reserved card has no actions |
| Tables.InitialStats | app/tables/page.tsx:21-41 | the twelve tables: 5 occupied, 5 available and 2 reserved |
| Revenue.FilteredData | app/revenue/page.tsx:61-64 | the tab shows exactly the records that pass its test: `table_number` 0 for takeaway, above 0 for dine-in |
| Revenue.FilteredDataKeepsOrder | app/revenue/page.tsx:61-64 | a tab keeps the fetch order |
| Revenue.TabsDisjoint | app/revenue/page.tsx:61-64 | no record is on both tabs |
| Revenue.TabsCover | app/revenue/page.tsx:61-64 | the two tabs together hold every record with a table number of at least 0, each once |
| Revenue.AverageTransaction | app/revenue/page.tsx:110-112 | average times count equals the total over all records (a null amount counts 0); with no records the average is 0 |
| Revenue.AverageBounds | app/revenue/page.tsx:110-112 | with no negative amounts the average lies between 0 and the total |
| Revenue.ExportCsv | app/revenue/page.tsx:66-88 | there is nothing to download iff the tab is empty, and then the error toast is shown; otherwise the file is named "Laporan_<tab>_<date>.csv" and the success toast names the tab |
| Revenue.ExportLayout | app/revenue/page.tsx:71-78 | the file is the header, a line break, then the tab's records one per line in tab order, each as its six comma-joined fields |
| Revenue.ExportLineBreaks | app/revenue/page.tsx:71-78 | when no field holds a newline, the file has the header's own line break plus exactly one per record |
| Revenue.RevenuePage.constructor | app/revenue/page.tsx:35-37 | no records and the dine-in tab |
| Revenue.RevenuePage.FetchRevenue | app/revenue/page.tsx:43-58 | on success the list is the fetched rows (null is empty); on error the list stays and "Gagal memuat laporan" is shown |
| Revenue.RevenuePage.ResetRevenue | app/revenue/page.tsx:91-107 | on a successful delete the list is emptied with its success toast; on error the list stays and the toast carries the message |
| Revenue.RevenuePage.SetTab | app/revenue/page.tsx:173-179 | the tab holds the chosen tab |
| Insight.UpsertGet | app/insight/page.tsx:52 | after `d[k] = (d[k] \|\| 0) + delta`, `k` holds its old value (0 if absent) plus `delta`, and every other key is unchanged |
| Insight.UpsertKeys | app/insight/page.tsx:52-64 | the keys keep their insertion order; a new key is appended |
| Insight.GetSomeIffKey | app/insight/page.tsx:57 | a lookup succeeds iff some entry has the key |
| Insight.UpsertUnique | app/insight/page.tsx:57 | the update keeps each key once |
| Insight.UpsertSum | app/insight/page.tsx:52 | the update raises the sum of the values by `delta` |
| Insight.AddItemGet | app/insight/page.tsx:56-57 | an item raises only its own name's count (`name \|\| title`), by `quantity \|\| 1`; a nameless item changes nothing |
| Insight.TallyItemsGet | app/insight/page.tsx:55-58 | one record's items raise each name's count by the sum of that name's quantities |
| Insight.ProductCountsGet | app/insight/page.tsx:50-59 | the count of a name is the sum of its quantities over all items of all records |
| Insight.TallyItemsHasKey | app/insight/page.tsx:55-58 | a name is a key after a record's items iff it was before or one of the items has it |
| Insight.ProductCountsHasKey | app/insight/page.tsx:50-59 | a name is counted iff some item of an array-valued `items` column carries it |
| Insight.NonArrayRecordIgnored | app/insight/page.tsx:54 | a record whose `items` is not an array adds no product |
| Insight.TallyItemsUnique | app/insight/page.tsx:55-58 | tallying keeps each name once |
| Insight.ProductCountsUnique | app/insight/page.tsx:47-59 | the product dictionary holds each name once |
| Insight.DailyTotalsGet | app/insight/page.tsx:50-52 | the total of a weekday is the sum of the amounts of that weekday's records (null counts 0) |
| Insight.DailyTotalsSum | app/insight/page.tsx:50-52 | the weekday totals add up to the grand total |
| Insight.InsertDesc | app/insight/page.tsx:65 | insertion adds exactly the one entry |
| Insight.InsertDescSorted | app/insight/page.tsx:65 | insertion keeps the entries sorted by count, largest first |
| Insight.SortDesc | app/insight/page.tsx:65 | sorting permutes the entries |
| Insight.SortDescSorted | app/insight/page.tsx:65 | the sorted entries run from the largest count down |
| Insight.TopProductsSize | app/insight/page.tsx:64-66 | the top list has five entries, or all products when there are fewer, and repeats no entry of the counts |
| Insight.TopProductsFacts | app/insight/page.tsx:64-66 | the top list is sorted by count; each entry is a product's count; an entry left out sells no more than any entry kept |
| Insight.InsightPage.constructor | app/insight/page.tsx:22-23 | empty chart and top list |
| Insight.InsightPage.ProcessData | app/insight/page.tsx:46-68 | the chart is the weekday totals (as name/total points) and the top list is the top five of the product counts |
| Insight.InsightPage.FetchData | app/insight/page.tsx:29-44 | records are processed only when the fetch succeeded with data; otherwise chart and list stay |
| Dashboard.RestaurantName | app/dashboard/page.tsx:29-35 | the metadata name when it is present and not empty, otherwise "Warung Berkah" |
| Dashboard.Grouped | app/dashboard/page.tsx:55-61 | seven bucket totals, each the sum of the amounts of the rows whose padded hour is the bucket's label |
| Dashboard.HoursAreEvenHours | app/dashboard/page.tsx:55 | the labels are the hours 8, 10, …, 20 padded to two digits |
| Dashboard.BucketMembership | app/dashboard/page.tsx:55-58 | a row falls in bucket i iff its hour is 8 + 2i, so rows at odd hours or outside 08-20 fall in no bucket |
| Dashboard.BucketsSumIsFilter | app/dashboard/page.tsx:56-61 | buckets with distinct labels together sum the rows with any of their labels, each row once |
| Dashboard.BucketsSumOfGrouped | app/dashboard/page.tsx:56-61 | the sum of the computed bucket totals is the bucket sum |
| Dashboard.BucketsAtMostRevenue | app/dashboard/page.tsx:52-61 | with no negative amounts the buckets never hold more than the day's revenue |
| Dashboard.MaxWith | app/dashboard/page.tsx:63 | `Math.max(...totals, 1)` is at least 1 and every total, and is 1 or one of the totals |
| Dashboard.Hourly | app/dashboard/page.tsx:64-68 | each bucket is labelled "HH:00" and keeps its total |
| Dashboard.PercentageBounds | app/dashboard/page.tsx:67 | a share of the maximum lies in 0..100 and is 100 for the maximum |
| Dashboard.PercentagesInRange | app/dashboard/page.tsx:63-68 | for non-negative totals every bar lies in 0..100 percent, and a bucket equal to `Math.max(...totals, 1)` gets the full bar, so the largest bucket does when it is at least 1 |
| Dashboard.AvgBill | app/dashboard/page.tsx:75 | average times transactions equals revenue; 0 with no transactions |
| Dashboard.Sync | app/dashboard/page.tsx:37-83 | an error leaves the dashboard as it was; otherwise the name, revenue, count, average bill and sync time come from the rows (null as none), and the chart is the seven "HH:00" buckets with their totals and bar percentages |
| Dashboard.SyncedBarsInRange | app/dashboard/page.tsx:52-70 | after a sync with no negative amounts every bar lies in 0..100 percent and the bucket equal to the largest total (at least 1) is full |
| ProfitLoss.Compute | app/profit-loss/page.tsx:46-69 | income and expenses are the column sums (null as 0); net profit + expenses = income; margin × income = net × 100 when income > 0, otherwise margin is 0 |
| ProfitLoss.MarginAtMost100 | app/profit-loss/page.tsx:55-56 | with no negative expenses the margin never exceeds 100 |
| ProfitLoss.LabelIff | app/profit-loss/page.tsx:138-146 | "Performa Bagus" iff net profit ≥ 0; "Defisit Keuangan" iff it is negative |
| ProfitLoss.ExpenseBarWidth | app/profit-loss/page.tsx:192 | the bar is at most 100 %, not negative for a positive income, and is the raw ratio whenever that is within 100 and exactly 100 when it is above; with income 0 the ratio is taken over 1, so the bar is expenses × 100 up to a cap of 100 |
| ProfitLoss.CsvReadsBack | app/profit-loss/page.tsx:73-79 | four two-field rows in order income, expenses, net profit, margin; the three amounts parse back to the figures |
| ProfitLoss.CsvLayout | app/profit-loss/page.tsx:81-83 | the data URI is the prefix, then the header line over the four row lines |
| ProfitLoss.CsvFileName | app/profit-loss/page.tsx:88 | the download name is "Laporan_Keuangan_", the date and ".csv", and the date can be cut back out of it |
| Payment.Total | app/payment/page.tsx:25-28 | the total is 115 % of the subtotal |
| Payment.FixedBill | app/payment/page.tsx:18-28 | the order comes to 125000 before and 143750 after tax and service |
| Payment.RupiahDigits | app/payment/page.tsx:180 | the digits of "Rp " plus the id-ID grouped amount are the amount's decimal digits |
| Payment.RupiahRoundTrip | app/payment/page.tsx:48 | a rupiah text reads back as its amount |
| Payment.CashInputRoundTrip | app/payment/page.tsx:178-181 | the field becomes "" iff the edit left no digit, and the stored text reads back as the number its digits spell |
| Payment.CashInputIdempotent | app/payment/page.tsx:178-181 | re-editing the field without change stores the same text |
| Payment.PayDisabled | app/payment/page.tsx:259 | the pay button is disabled iff cash is chosen and the change is negative; other methods are never blocked |
| Payment.ChangePanelOf | app/payment/page.tsx:199-205 | the change panel shows iff cash is chosen and the amount is positive; it shows the change when that is not negative, else "Kurang" |
| Payment.SuccessChange | app/payment/page.tsx:69-72 | the success view lists change iff cash was used and the change is positive, and lists exactly that change |
| Payment.PaidCashCovers | app/payment/page.tsx:259 | when cash can be paid, the cash received covers the 143750 bill |
| Payment.PaymentPage.constructor | app/payment/page.tsx:14-16 | no method, empty cash field, not paid |
| Payment.PaymentPage.SelectMethod | app/payment/page.tsx:151 | the chosen method is selected |
| Payment.PaymentPage.TypeCash | app/payment/page.tsx:170-181 | while cash is chosen, the field stores the rupiah text of the typed digits, and its amount is the typed digits' value |
| Payment.PaymentPage.PressQuickCash | app/payment/page.tsx:170-192 | while cash is chosen, the field shows the amount as rupiah and reads back as that amount |
| Payment.PaymentPage.PressPay | app/payment/page.tsx:255-263 | the page is paid iff it was already paid, or a method is chosen and the button is not disabled |
| Decimal.NatRoundTrip | app/payment/page.tsx:48 | parsing the decimal digits of n gives n |
| Decimal.IntRoundTrip | app/shift/page.tsx:182 | parsing the decimal text of any integer, sign included, gives it back |
| Decimal.TwoDigitsRoundTrip | app/dashboard/page.tsx:58 | `padStart(2, '0')` of an hour below 100 is two digits that read back as the hour |
| Decimal.TwoDigitsInjective | app/dashboard/page.tsx:58 | different hours get different padded labels |
| Decimal.GroupThousandsDigits | app/payment/page.tsx:180 | id-ID grouping only inserts separators: removing the non-digits gives back the digits |

## Left out

- Supabase itself is left out: queries, auth sessions and realtime channels. Every
  backend answer is a parameter saying how the call ended. The realtime subscriptions
  (which only re-run a fetch) are not modelled. The history reload that
  `handleEndShift` starts without waiting for it is the separate
  `Shift.ShiftPage.FetchShiftHistory` step, not part of `Shift.ShiftPage.EndShift`.
- Shift.ShiftPage.FetchShiftHistory: the list is every closed row of the owner in
  table order. The query's `order('end_time', { ascending: false })` and `limit(5)`
  are not modelled: the model does not sort by end time and keeps more than five rows.
- The login, register and settings pages, the sidebar, the layout and the root
  redirect are outside the nine pages and are not part of this model.
- Loading, syncing and processing flags, the `mounted` guard, `setTimeout` and
  `confirm()` are not modelled. The confirmation answer is a parameter of
  `Shift.ShiftPage.DeleteHistory`.
- Styling is not modelled: colour helpers, class names and the red colour of a
  negative history variance. The revenue export button is disabled for an empty tab;
  the model keeps only the handler's own guard against that case (`Revenue.ExportCsv`).
- Locale and time formatting are parameters, not definitions. This covers
  `toLocaleDateString`, `toLocaleTimeString`, the weekday name, `getHours`, the
  shift-name hour and `toFixed`. On-screen `toLocaleString` displays outside the cash
  field and the table bill are not modelled. This includes the orders total × 1.1,
  the payment amounts, the revenue figures and the profit-loss ratio and margin texts.
- Orders.Lower: lower-cases only A to Z. JavaScript's full Unicode case mapping is not
  modelled, including mappings that change the length, such as "İ" to two code units.
- Floating point is exact `real` arithmetic. IEEE rounding of the tax, the averages
  and the percentages is not modelled, nor are `Number.parseInt`'s precision loss
  above 2^53 and exponent notation for very large numbers.
- JavaScript objects used as dictionaries are association lists in insertion order.
  The reordering of integer-like keys and keys inherited from `Object.prototype` are
  not modelled.
- The menu items of the orders page are a constructor parameter. There is no handler
  for "Kirim ke Dapur", so submitting only has its enabled state.
- The CSV blob, object URL, `encodeURI` and anchor click of the two exports are not
  modelled. What is modelled is each export's content and file name:
  - for the revenue export, `Revenue.ExportCsv`;
  - for the profit-loss export, the data URI before `encodeURI` (`ProfitLoss.CsvContent`)
    and the download name (`ProfitLoss.CsvFileName`).
- The stale `history` closure in `handleDeleteHistory` and any concurrency between
  handlers are not modelled. Each handler runs to completion against the current
  state.
- Insight.SortDesc: the stability of `Array.prototype.sort` among equal counts is not
  proved. The proved facts are the permutation and the descending order.
- Revenue.ExportLineBreaks: counts line breaks relative to the header's own count,
  which is one. It does not restate that count.
- Shift.ShiftPage.FetchActiveShift: a failed or empty orders query is passed as an
  empty row list.
