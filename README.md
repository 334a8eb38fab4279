# Game-center dashboard: a verified model of its billing and bookkeeping core

This project models the logic of a game-center ("gamenet") management dashboard. The dashboard is
written in TypeScript/React and keeps its data in a hosted Postgres database. The model covers:

- **Device sessions.** A device (PC, PlayStation, billiard table, other) is started, paused,
  resumed and stopped. The model covers the database-backed hook and the in-memory one, the
  paused-seconds bookkeeping of both, and the billing of the active time at the device's hourly
  rate.
- **Device screens.** The dashboard cards show a running clock in Persian digits and offer the
  buttons each device status allows. The devices page filters by type and toggles maintenance.
  The add and edit dialogs pick default rates and validate the form.
- **Buffet.** The cart, its total and item count, and the product search. A sale builds its
  sale rows and writes back the product stock.
- **Text helpers.** Persian/ASCII digit conversion, `trim`, `padStart`, `parseInt`, and the
  duration text of the session invoice.
- **Aggregations.** The reports hook computes daily revenue, revenue per device type and usage
  per two-hour slot. The invoices hook groups invoices by day. The recent-activity feed shows
  "time ago" labels. The notification bell keeps read/unread state.

Timestamps are integer milliseconds since the epoch. The current time `now` is always a
parameter. `Math.floor`, `Math.ceil`, `Math.round` and JavaScript's truncating `%` are stated
exactly on integers and rationals (module `JsMath`).

Each source file is one module:

| module | file | source |
|---|---|---|
| `DevicesDB` | devices_db.dfy | src/hooks/useDevicesDB.ts |
| `MockDevices` | devices_mock.dfy | src/hooks/useDevices.ts |
| `DeviceCardDB` | device_card_db.dfy | src/components/dashboard/DeviceCardDB.tsx |
| `DeviceCard` | device_card.dfy | src/components/dashboard/DeviceCard.tsx |
| `DevicesPage` | devices_page.dfy | src/pages/Devices.tsx |
| `Products` | products.dfy | src/hooks/useProducts.ts |
| `Buffet` | buffet.dfy | src/pages/Buffet.tsx |
| `InvoiceDialog` | invoice_dialog.dfy | src/components/devices/InvoiceDialog.tsx |
| `EditDeviceDialog` | edit_device_dialog.dfy | src/components/devices/EditDeviceDialog.tsx |
| `AddDeviceDialog` | add_device_dialog.dfy | src/components/devices/AddDeviceDialog.tsx |
| `Reports` | reports.dfy | src/hooks/useReports.ts |
| `AllInvoices` | all_invoices.dfy | src/hooks/useAllInvoices.ts |
| `RecentActivity` | recent_activity.dfy | src/hooks/useRecentActivity.ts |
| `Notifications` | notifications.dfy | src/hooks/useNotifications.ts |

The other modules are shared:

- `Types`: the entities of src/types/index.ts.
- `ClockDisplay`: what both dashboard cards share.
- `JsMath` and `JsText`: JavaScript arithmetic and string primitives.
- `PersianDigits`: the digit conversions.
- `Seqs`: `reduce`/`filter` folds.
- `Sorting`: `Array.prototype.sort` with a newest-first comparator, as a stable insertion sort.
- `OrderedMap`: JavaScript's `Map` in insertion order.
- `Tally`: the `m.set(k, (m.get(k) || 0) + w)` counting idiom.
- `Wrappers`: `Option`.

A hook that changes state is a class. Its fields are the React state it sets, and in the
database-backed hooks also the tables it writes. The class's methods take the query results as
parameters: `None` stands for a query that returned an error, and a boolean parameter such as
`insertOk` or `readOk` says whether a write or a refetch succeeded. Most methods are proved against
pure functions. Pure code (`prev.map(...)`, `filter`, `reduce`, conditional expressions) is
modelled as functions, with lemmas about them. Loops that push onto an array or fill a `Map` are
methods with loop invariants, proved equal to the function that specifies them.

## Model

| member | source | states |
|---|---|---|
| DevicesDB.ResumedPausedSeconds | src/hooks/useDevicesDB.ts:98-107 | Resume writes the stored paused total (null counts as 0) plus the whole seconds since `paused_at` (null reads as the epoch). |
| DevicesDB.FinalPausedSeconds | src/hooks/useDevicesDB.ts:144-150 | Stop folds an ongoing pause's whole seconds into the paused total; while running, the stored total is kept. |
| DevicesDB.BilledSeconds | src/hooks/useDevicesDB.ts:152 | Billed seconds are the whole seconds from start to end minus the paused seconds, never clamped to zero. |
| DevicesDB.Cost | src/hooks/useDevicesDB.ts:153-154 | The cost is the least whole amount covering seconds × rate / 3600 (`Math.ceil`). |
| DevicesDB.CostZero | src/hooks/useDevicesDB.ts:153-154 | No time, or a zero rate, costs nothing. |
| DevicesDB.CostPositive | src/hooks/useDevicesDB.ts:153-154 | Any positive time at a positive rate costs at least 1. |
| DevicesDB.CostMonotone | src/hooks/useDevicesDB.ts:153-154 | At a non-negative rate, more time never costs less. |
| DevicesDB.TogglePatch | src/hooks/useDevicesDB.ts:96-121 | The toggle writes a resume (unpaused, timestamp cleared, resumed total) for a paused session, else a pause at `now` with the total untouched. |
| DevicesDB.StopPatchFor | src/hooks/useDevicesDB.ts:141-166 | Stop writes the end time, the cost of the billed seconds, unpaused, no timestamp and the folded paused total. |
| DevicesDB.ToggleEffect | src/hooks/useDevicesDB.ts:96-121 | After the toggle's write, a running session is paused at `now` with its total kept, and a paused one is resumed with the whole paused seconds added. Identity, start and owner are kept. |
| DevicesDB.StopEffect | src/hooks/useDevicesDB.ts:141-166 | After stop's write the session is closed at `end`, with the folded paused total, the cost at `rate`, and no pause flag or timestamp. |
| DevicesDB.TransitionsKeepPauseConsistent | src/hooks/useDevicesDB.ts:58-166 | Start, toggle and stop all keep `is_paused` true exactly when `paused_at` is stored. |
| DevicesDB.ResumeNeverLowersPausedTotal | src/hooks/useDevicesDB.ts:98-107 | On a consistent row, with a clock that does not run backwards, resume never lowers the paused total. |
| DevicesDB.OnePauseCycle | src/hooks/useDevicesDB.ts:89-166 | Start, pause, resume and stop, in clock order, bill the run's whole seconds minus the pause's whole seconds. The result is between 0 and the run's whole seconds. |
| DevicesDB.ResumeThenStopExample | src/hooks/useDevicesDB.ts:89-166 | Worked example: a 100 s run with a 30 s pause at 36000 per hour bills 70 s and costs 700. |
| DevicesDB.StopWhilePausedExample | src/hooks/useDevicesDB.ts:144-154 | Stopping while paused folds the ongoing pause: 25 s with a pause from 5 s bills 5 s. |
| DevicesDB.FindSession | src/hooks/useDevicesDB.ts:40 | `find`: the session found is one for the device with no earlier session for it, and none is found exactly when no session is for the device. |
| DevicesDB.OpenFirstSession | src/hooks/useDevicesDB.ts:30-40 | Searching the open sessions finds the first session of the whole table that is open and for the device, or none exactly when there is none. |
| DevicesDB.FetchPairsOpenSessions | src/hooks/useDevicesDB.ts:19-43 | After a fetch the devices are the table's rows in order. A device carries no session exactly when no open session is for it; otherwise it carries the first open session for it in table order. |
| DevicesDB.StartIsUnguarded | src/hooks/useDevicesDB.ts:58-82 | Start checks no status: starting twice leaves two open sessions for the device. |
| DevicesDB.FindDevice | src/hooks/useDevicesDB.ts:90 | `find`: the device found has the id and no earlier device has it; none is found exactly when no device has the id. |
| DevicesDB.GetStats | src/hooks/useDevicesDB.ts:187-192 | The available, occupied and maintenance counts add up to the number of devices. |
| DevicesDB.DevicesHook.FetchDevices | src/hooks/useDevicesDB.ts:19-50 | When both queries succeed, the snapshot becomes each device row paired with its open session; when either fails, the snapshot is kept. The tables are unchanged. |
| DevicesDB.DevicesHook.StartSession | src/hooks/useDevicesDB.ts:58-87 | Appends a running session with no pause, marks the device occupied without a status check, and refetches. A failed insert writes nothing; a failed status update keeps the new session and skips the refetch. |
| DevicesDB.DevicesHook.PauseSession | src/hooks/useDevicesDB.ts:89-132 | Writes the toggle on the snapshot's session of the device and refetches. A device missing from the snapshot, a device without a session, or a failed write changes nothing. |
| DevicesDB.DevicesHook.StopSession | src/hooks/useDevicesDB.ts:134-185 | Writes the closing columns at the snapshot's rate, frees the device and refetches. A device missing from the snapshot, a device without a session, or a failed session write changes nothing; a failed status update keeps the closed session and skips the refetch. |
| DevicesDB.DevicesHook.Stats | src/hooks/useDevicesDB.ts:187-192 | `getStats()` over the snapshot: the counts add up to the total. |
| Types.StatsAddUp | src/hooks/useDevicesDB.ts:187-192 | Every device has exactly one of the three statuses, so the counts add up to the total. |
| Types.FindProduct | src/hooks/useProducts.ts:45 | `products.find`: the product found is in the list with the id, and none is found exactly when no product has the id. |
| Types.FindProductIsFirst | src/hooks/useProducts.ts:45 | The product found is the first one with the id. |
| MockDevices.ActionsKeepTheList | src/hooks/useDevices.ts:27-89 | Every action keeps the list's length and order and each device's id, name, type and rate. Devices with another id are unchanged. |
| MockDevices.StartEffect | src/hooks/useDevices.ts:27-44 | Start makes the device occupied, whatever its status was, with a fresh session: id `"s"` followed by the decimal `now`, the device's id, no user, started at `now`, no end time, not paused, no timestamp, paused total 0. |
| MockDevices.ToggleEffect | src/hooks/useDevices.ts:46-76 | No session: unchanged. Running, or paused without a timestamp: paused at `now`, total kept. Paused with a timestamp: resumed, clearing it and adding the time since it. |
| MockDevices.ToggleNeverLowersPausedTotal | src/hooks/useDevices.ts:50-61 | With a clock that does not run backwards, the toggle never lowers the paused total. |
| MockDevices.StopEffect | src/hooks/useDevices.ts:78-89 | Stop frees the device and drops its session; no cost is computed. |
| MockDevices.ActionsKeepPauseConsistent | src/hooks/useDevices.ts:27-89 | Every action keeps each session's pause flag and timestamp in agreement. |
| MockDevices.StartThenStop | src/hooks/useDevices.ts:27-89 | Start then stop leaves the device free, without a session, and everything else as it was. |
| MockDevices.GetStats | src/hooks/useDevices.ts:91-96 | The three status counts add up to the number of devices. |
| ClockDisplay.SplitBounds | src/components/dashboard/DeviceCardDB.tsx:67-69 | A non-negative elapsed time splits into hours, minutes < 60 and seconds < 60. These add up to the elapsed time less its sub-second milliseconds. |
| ClockDisplay.SplitOfFields | src/components/dashboard/DeviceCardDB.tsx:67-69 | The split is unique: in-range fields are read back exactly. |
| ClockDisplay.SplitNegative | src/components/dashboard/DeviceCardDB.tsx:65-69 | A negative elapsed time gives negative hours and minutes and seconds in [-60, 0], so the card shows minus signs. |
| ClockDisplay.FieldReadsBack | src/components/dashboard/DeviceCardDB.tsx:71 | A field of a non-negative number is at least two Persian digits and reads back as that number. |
| ClockDisplay.ClockReadsBack | src/components/dashboard/DeviceCardDB.tsx:67-73 | The clock text of a non-negative elapsed time reads back as its split fields. |
| ClockDisplay.InitialClockIsZero | src/components/dashboard/DeviceCardDB.tsx:29 | The clock before the first tick reads as zero hours, minutes and seconds. |
| ClockDisplay.ButtonsPerStatus | src/components/dashboard/DeviceCardDB.tsx:129-177 | Start exactly when free; pause and stop exactly when occupied; "resume" exactly when paused; nothing clickable in maintenance. |
| ClockDisplay.RenderingsAgree | src/components/dashboard/DeviceCard.tsx:71-75 | Padding then converting (database card) and converting then padding with `۰` (mock card) give the same text. |
| DeviceCardDB.ClockShowsActiveTime | src/components/dashboard/DeviceCardDB.tsx:60-69 | The clock shows whole h/m/s of the time since start less the stored paused seconds. A pause in progress is not taken off. |
| DeviceCardDB.CardButtonsFollowStatus | src/components/dashboard/DeviceCardDB.tsx:129-177 | A card's buttons follow its device's status; only a free device offers start. |
| DeviceCardDB.Card.Tick | src/components/dashboard/DeviceCardDB.tsx:55-77 | A tick sets the clock text only when occupied with a running session; otherwise nothing changes. |
| DeviceCard.ClockMatchesDatabaseCard | src/components/dashboard/DeviceCard.tsx:71-75 | This card's clock shows the same text as the database card's for the same elapsed time. |
| DeviceCard.ClockShowsActiveTime | src/components/dashboard/DeviceCard.tsx:60-69 | The clock shows whole h/m/s of the unpaused time. |
| DeviceCard.CardButtonsFollowStatus | src/components/dashboard/DeviceCard.tsx:132-179 | Start only when free; pause and stop only when occupied; none in maintenance. |
| DeviceCard.Card.Tick | src/components/dashboard/DeviceCard.tsx:55-79 | A tick sets the clock text only when occupied with a running session; otherwise nothing changes. |
| DevicesPage.FilterShowsExactlyTheType | src/pages/Devices.tsx:39-41 | `all` shows the list unchanged; a type filter shows only devices of that type and every device of that type, never an `other` device. |
| DevicesPage.FilterKeepsOrder | src/pages/Devices.tsx:39-41 | The filter of a concatenation is the concatenation of the filters, and one device is kept exactly when it passes; so the devices shown are those that pass, in list order, each as often as listed. |
| DevicesPage.ToggledMaintenance | src/pages/Devices.tsx:46 | Maintenance goes to available; every other status, occupied included, goes to maintenance. |
| DevicesPage.ToggleTwice | src/pages/Devices.tsx:46 | Toggling twice restores free and serviced devices; an occupied device comes back free. |
| DevicesPage.SetMaintenanceRequest | src/pages/Devices.tsx:43-49 | For a listed id, the toggled status of the first device with the id; an unknown id requests nothing. |
| DevicesPage.StartClick | src/pages/Devices.tsx:51-56 | Selects the first listed device with the id for the start dialog; an unknown id keeps the selection. |
| DevicesPage.StartConfirm | src/pages/Devices.tsx:58-63 | With a device selected, requests its start and clears the selection; with none, does nothing. |
| DevicesPage.ClickThenConfirm | src/pages/Devices.tsx:51-63 | Clicking start on a listed device and confirming requests a start of that very device. |
| Products.DeviceColumn | src/hooks/useProducts.ts:50 | An absent or empty device id is stored as null, any other as itself. |
| Products.BuildSaleRows | src/hooks/useProducts.ts:44-56 | One row per item, in order, with its product id, quantity, unit price and price × quantity. None exactly when some product is not in the snapshot. |
| Products.StockAfterValue | src/hooks/useProducts.ts:64-73 | A listed product ends at its snapshot stock minus the quantity of the last item for it. Untouched products and unknown ids are unchanged. |
| Products.LastWriteWins | src/hooks/useProducts.ts:64-73 | Two items for one product (stock 5, quantities 1 and 2) leave 3, not 2. |
| Products.StockCanGoNegative | src/hooks/useProducts.ts:70 | Nothing checks stock: selling 3 of a stock of 1 leaves -2. |
| Products.ProductsHook.WriteStock | src/hooks/useProducts.ts:64-73 | The update loop leaves the stock the items' writes give, in order; the snapshot and the sales are unchanged. |
| Products.ProductsHook.CreateSale | src/hooks/useProducts.ts:39-83 | Succeeds exactly when every product is in the snapshot and the insert succeeds. Then the rows are appended, the stock written item by item, and the snapshot reloaded with the new stock when the reload succeeds. On failure nothing is written. |
| Products.Restock | src/hooks/useProducts.ts:14-24 | A reloaded product keeps its id, name, price and category and takes the table's stock. |
| Products.Restocked | src/hooks/useProducts.ts:14-31 | `fetchProducts()` after a sale: the reloaded snapshot has the same length, and each position holds that position's product reloaded with the table's stock. |
| Products.FindRestocked | src/hooks/useProducts.ts:45 | Searching the reloaded snapshot finds the reloaded version of the product found before. |
| Products.ReloadSyncs | src/hooks/useProducts.ts:64-76 | After a sale's writes, the reloaded snapshot agrees with the table's stock. |
| Products.TwoSalesDeductCumulatively | src/hooks/useProducts.ts:39-76 | Two one-item sales of a product, the second from the snapshot reloaded after the first, deduct both quantities from its stock. |
| Buffet.SearchKeepsExactlyTheMatches | src/pages/Buffet.tsx:25-27 | The search keeps only products whose name or category contains the query, and every such product; an empty query keeps all. |
| Buffet.SearchKeepsOrder | src/pages/Buffet.tsx:25-27 | The search of a concatenation is the concatenation of the searches, and one product is kept exactly when it matches; so the matches appear in list order, each as often as listed. |
| Buffet.Increment | src/pages/Buffet.tsx:33-37 | Each entry for the product gains one; other entries are unchanged and nothing moves. |
| Buffet.AddExisting | src/pages/Buffet.tsx:29-38 | Adding a product already in the cart changes only its entry, by one; the length is kept. |
| Buffet.AddNew | src/pages/Buffet.tsx:39 | Adding a new product appends an entry of quantity 1. |
| Buffet.AddKeepsIdsDistinct | src/pages/Buffet.tsx:29-40 | `addToCart` keeps product ids in the cart pairwise distinct. |
| Buffet.IncrementCount | src/pages/Buffet.tsx:114 | Incrementing raises the item count by one per matching entry. |
| Buffet.AddCountsOne | src/pages/Buffet.tsx:114 | Every `addToCart` raises the item count by exactly one. |
| Buffet.IncrementTotal | src/pages/Buffet.tsx:43-48 | Incrementing adds the product's price per matching entry to the total. |
| Buffet.AddRaisesTotalByPrice | src/pages/Buffet.tsx:43-48 | With distinct ids, `addToCart` raises the total by the product's price (0 if unlisted). |
| Buffet.ClearedCartIsEmpty | src/pages/Buffet.tsx:159 | A cleared cart is empty, with item count 0 and total 0. |
| InvoiceDialog.FieldsExact | src/components/devices/InvoiceDialog.tsx:37-39 | For seconds ≥ 0: hours·3600 + minutes·60 + secs = seconds, with minutes and secs below 60. |
| InvoiceDialog.PartsShown | src/components/devices/InvoiceDialog.tsx:41-44 | The hour part iff hours > 0, the minute part iff minutes > 0, and the seconds part iff secs > 0 and hours = 0. The order is hours, minutes, seconds, with at most two parts. |
| InvoiceDialog.PartsArePositive | src/components/devices/InvoiceDialog.tsx:41-44 | Every part shows a positive count. |
| InvoiceDialog.NoPartsReadsZero | src/components/devices/InvoiceDialog.tsx:46 | A duration ≤ 0 has no parts and reads "۰ ثانیه". |
| InvoiceDialog.LongSessionsHideSeconds | src/components/devices/InvoiceDialog.tsx:44 | An hour or more never shows seconds. |
| InvoiceDialog.FormatDuration | src/components/devices/InvoiceDialog.tsx:36-47 | The method pushing the parts returns the parts joined with " و ", or "۰ ثانیه" when there are none. |
| PersianDigits.ToPersian | src/components/devices/InvoiceDialog.tsx:33-34 | Same length; each ASCII digit becomes the Persian digit of its value, everything else stays. |
| PersianDigits.ToEnglish | src/components/devices/EditDeviceDialog.tsx:24-25 | Same length; each Persian digit becomes the ASCII digit of its value, everything else stays. |
| PersianDigits.ConversionsClearDigits | src/components/devices/EditDeviceDialog.tsx:21-25 | Each conversion leaves no digit of the other script, so applying it twice is applying it once. |
| PersianDigits.EnglishOfPersian | src/components/devices/EditDeviceDialog.tsx:21-25 | toEnglishNumber undoes toPersianNumber on text without Persian digits. |
| PersianDigits.PersianOfEnglish | src/components/devices/EditDeviceDialog.tsx:21-25 | toPersianNumber undoes toEnglishNumber on text without ASCII digits. |
| PersianDigits.PersianNumberReadsBack | src/components/devices/EditDeviceDialog.tsx:46 | A number shown in Persian digits reads back as itself through toEnglishNumber and parseInt. |
| PersianDigits.PersianPadCommutes | src/components/dashboard/DeviceCard.tsx:71-74 | Padding with '0' then converting equals converting then padding with '۰'. |
| JsText.TrimEmptyIff | src/components/devices/EditDeviceDialog.tsx:46 | `trim()` is empty exactly when every character is whitespace. |
| JsText.TrimShape | src/components/devices/EditDeviceDialog.tsx:46 | The trimmed text is a slice of the original with no whitespace at either end. |
| JsText.ParseIntDecimalToString | src/components/devices/EditDeviceDialog.tsx:46 | `parseInt(s, 10)` reads back what toString wrote. |
| JsText.ParseIntToString | src/components/devices/AddDeviceDialog.tsx:123 | `parseInt(s)` reads back what toString wrote; no toString output looks hexadecimal. |
| JsText.ContainsIff | src/pages/Buffet.tsx:25-27 | `includes` finds the query as a slice at some offset. |
| EditDeviceDialog.Submit | src/components/devices/EditDeviceDialog.tsx:44-51 | Saves the trimmed name and the parsed rate, or nothing when the trimmed name is empty or the rate is not a positive number. |
| EditDeviceDialog.SubmitRejectsBlankOrNonPositive | src/components/devices/EditDeviceDialog.tsx:46-47 | A save never carries a whitespace-only name or a rate ≤ 0. |
| EditDeviceDialog.OpenThenSaveUnchanged | src/components/devices/EditDeviceDialog.tsx:37-51 | Opening on a device with a non-blank name and positive rate and saving unedited saves the trimmed name and the same rate. |
| EditDeviceDialog.RetypingTheShownRate | src/components/devices/EditDeviceDialog.tsx:81-82 | Typing back the shown Persian rate leaves the stored rate as it was. |
| EditDeviceDialog.PersianTypedRateIsSaved | src/components/devices/EditDeviceDialog.tsx:46 | A rate typed in Persian digits is saved as its value. |
| AddDeviceDialog.FindRate | src/components/devices/AddDeviceDialog.tsx:49 | `deviceTypes.find(...)?.defaultRate`: the rate of the first entry with the type, and none exactly when no entry has it. |
| AddDeviceDialog.DefaultRates | src/components/devices/AddDeviceDialog.tsx:26-31 | pc 50000, playstation 80000, billiard 120000, other 50000, and 50000 for unlisted types. |
| AddDeviceDialog.OnTypeChange | src/components/devices/AddDeviceDialog.tsx:48-55 | The type changes and the rate becomes its default; the name is kept. |
| AddDeviceDialog.OnRateInput | src/components/devices/AddDeviceDialog.tsx:123 | The rate becomes `parseInt(value)`, or 0 when that is NaN or 0. |
| AddDeviceDialog.Submit | src/components/devices/AddDeviceDialog.tsx:57-69 | A blank trimmed name adds nothing. Otherwise the form is handed on; success resets it to ('', pc, 50000) and closes, failure keeps both. |
| AddDeviceDialog.SubmitPassesNameUntrimmed | src/components/devices/AddDeviceDialog.tsx:59-62 | The name is checked trimmed but passed as typed. |
| AddDeviceDialog.BlankNameNeverAdded | src/components/devices/AddDeviceDialog.tsx:59 | A whitespace-only name never reaches `onAdd`. |
| JsMath.CeilDiv | src/hooks/useDevicesDB.ts:154 | The least integer at least a / b. |
| JsMath.RoundDiv | src/hooks/useReports.ts:140 | The integer nearest a / b, halves up. |
| JsMath.Rem | src/components/dashboard/DeviceCardDB.tsx:68 | JavaScript's `%`: a = q·b + r for the quotient q rounded toward zero, with r of the sign of a and \|r\| < b. |
| JsMath.TruncDiv | src/components/dashboard/DeviceCardDB.tsx:68 | The quotient of `%`, rounded toward zero: below a/b by less than 1 for a ≥ 0, above it by less than 1 for a < 0. |
| JsMath.NestedFloorDiv | src/hooks/useRecentActivity.ts:17-20 | Nested floors are the floor of the product: ⌊⌊a/b⌋/c⌋ = ⌊a/(b·c)⌋. |
| Sorting.SortDesc | src/hooks/useRecentActivity.ts:123 | The sorted copy is newest first and a permutation of its input. |
| Sorting.NewestAreNewest | src/hooks/useRecentActivity.ts:123-124 | Sort-then-slice keeps exactly min(n, length) elements of the input, newest first, none newer left out. |
| OrderedMap.SetAt | src/hooks/useAllInvoices.ts:107 | After `set(k, v)` the entry for k holds v and the keys stay distinct. |
| OrderedMap.GetSetOther | src/hooks/useAllInvoices.ts:107 | `set` leaves every other key's value alone. |
| Tally.TallyValue | src/hooks/useReports.ts:129-133 | After the counting loop a key is present iff it was before or some element is filed under it. Its value is the old one (0 if new) plus their weights. |
| Tally.TallySum | src/hooks/useReports.ts:129-133 | The tally's values sum to the old values plus all the weights. |
| Reports.PercentBounds | src/hooks/useReports.ts:140 | A part between 0 and the whole is 0..100 percent; the whole is 100. |
| Reports.Lookup | src/hooks/useReports.ts:92 | The row of day d when the window holds it, none otherwise. |
| Reports.DailyRevenueOf | src/hooks/useReports.ts:80-116 | Seven rows for the days from `weekAgo`. Each holds exactly the session costs and sale prices created on its day. |
| Reports.OutsideWindowIgnored | src/hooks/useReports.ts:90-96 | A session dated outside the window changes no row. |
| Reports.DaysSumSnoc | src/hooks/useReports.ts:90-105 | One more element adds its weight to the days' sum exactly when its day is among them. |
| Reports.WindowSum | src/hooks/useReports.ts:90-105 | When every element falls in the window, the per-day sums add up to the whole sum. |
| Reports.WindowColumns | src/hooks/useReports.ts:108-116 | Each column of the window sums the per-day revenues of that column. |
| Reports.TypeRevenueOf | src/hooks/useReports.ts:129-141 | The type loop followed by the row conversion yields the type rows. |
| Reports.TypeTotalsMeaning | src/hooks/useReports.ts:129-133 | Each type that occurs appears once, a missing type counting as `other`, with its sessions' revenue; the values sum to all session revenue. |
| Reports.RowsOfEntries | src/hooks/useReports.ts:135-141 | Rows follow the map's entries one for one; their revenues sum to its values. |
| Reports.TypeRowsMeaning | src/hooks/useReports.ts:121-141 | One row per type that occurs, none twice, each with its revenue, label and share. The revenues sum to the devices figure. |
| Reports.MaxOr1 | src/hooks/useReports.ts:158 | At least 1 and at least every value, and equal to one of them or 1. |
| Reports.SeedSlots | src/hooks/useReports.ts:146-149 | The seeding loop gives slots 10, 12, …, 22, 0 with count 0. |
| Reports.CountSlots | src/hooks/useReports.ts:151-156 | The count loop adds one to each session's two-hour slot, leaving the map as the tally of the sessions by slot. |
| Reports.HourlyUsageOf | src/hooks/useReports.ts:146-164 | The seed and count loops followed by the conversion give the hourly rows. |
| Reports.HourRowsMeaning | src/hooks/useReports.ts:146-164 | Eight rows labelled 10, 12, …, 22, 0. Each usage is the sessions started in the slot as a percentage of the busiest slot (or 1), so it lies in [0, 100]. |
| Reports.WeekAddsUp | src/hooks/useReports.ts:169-178 | With everything dated in the week, the daily columns add up to the devices and buffet figures. The total is their sum and the average is round(total / 7). |
| Reports.ReportsHook.FetchReports | src/hooks/useReports.ts:46-185 | No game center, or a failed query: only `loading` changes. Otherwise all four report states are replaced. |
| AllInvoices.PushSessionInvoices | src/hooks/useAllInvoices.ts:61-73 | The session loop pushes one invoice per finished session, in fetch order, and nothing else. |
| AllInvoices.PushSaleInvoices | src/hooks/useAllInvoices.ts:86-99 | The sale loop appends one invoice per sale, in fetch order, after what is already there. |
| AllInvoices.BuildInvoices | src/hooks/useAllInvoices.ts:61-99 | The two push loops produce one invoice per session, then one per sale, in order. |
| AllInvoices.InvoicesAt | src/hooks/useAllInvoices.ts:61-99 | The i-th invoice is the i-th session's, then the sales' follow. |
| AllInvoices.InvoicesTotal | src/hooks/useAllInvoices.ts:61-99 | The amounts (null as 0) add up to the session costs plus the sale prices. |
| AllInvoices.InvoiceIdsDistinct | src/hooks/useAllInvoices.ts:63-98 | With distinct session ids and sale ids, the invoice ids are distinct. |
| AllInvoices.GroupByDate | src/hooks/useAllInvoices.ts:102-108 | The grouping loop builds the date map. |
| AllInvoices.GroupedValue | src/hooks/useAllInvoices.ts:102-108 | A date is a key iff some invoice has it. Its list is exactly that date's invoices, in push order. |
| AllInvoices.GroupedSum | src/hooks/useAllInvoices.ts:102-108 | The groups' totals add up to all the amounts. |
| AllInvoices.GroupsPartition | src/hooks/useAllInvoices.ts:102-108 | Each group holds only invoices of its date and is non-empty; every invoice is in its date's group. |
| AllInvoices.DaysNewestFirst | src/hooks/useAllInvoices.ts:111-112 | Days are strictly newest first: sorted by date, no date twice. |
| AllInvoices.DaysHoldTheirInvoices | src/hooks/useAllInvoices.ts:111-123 | Each day holds exactly its date's invoices (as a multiset), at least one, latest time first, with their sum as total. |
| AllInvoices.DaysCoverAll | src/hooks/useAllInvoices.ts:102-123 | Every invoice is listed in the day of its date. |
| AllInvoices.DaysTotal | src/hooks/useAllInvoices.ts:113-123 | The day totals add up to all session costs plus all sale prices. |
| AllInvoices.InvoicesHook.FetchInvoices | src/hooks/useAllInvoices.ts:32-131 | No game center, or a failed query: only `loading` changes. Otherwise the days are replaced by the grouped days. |
| RecentActivity.ClassifyMeaning | src/hooks/useRecentActivity.ts:16-27 | The chained floors pick one of four ranges of the elapsed time. The number shown is the whole minutes (1-59), hours (1-23) or days (≥ 1); a future time is "just now". |
| RecentActivity.TimeAgoJustNow | src/hooks/useRecentActivity.ts:14-28 | The label is "همین الان" exactly when less than a minute has passed. |
| RecentActivity.DurationMeaning | src/hooks/useRecentActivity.ts:85-89 | The hours are the whole hours elapsed, shown iff a full hour passed. The minutes are 0..59 and with the hours make up the whole minutes. |
| RecentActivity.PushSession | src/hooks/useRecentActivity.ts:72-102 | Pushes the "started" entry, then the "finished" one iff the session has an end time and a nonzero cost. |
| RecentActivity.PushSessionActivities | src/hooks/useRecentActivity.ts:67-103 | The session loop pushes each session's entries in order. |
| RecentActivity.PushSaleActivities | src/hooks/useRecentActivity.ts:106-120 | The sale loop appends one entry per sale. |
| RecentActivity.BuildActivities | src/hooks/useRecentActivity.ts:64-120 | Both loops together build the session entries, then the sale entries. |
| RecentActivity.SessionActivityCounts | src/hooks/useRecentActivity.ts:67-103 | The session loop yields one "started" per session, one "finished" per ended session, and no sale entry. |
| RecentActivity.SaleActivityCounts | src/hooks/useRecentActivity.ts:106-120 | The sale loop yields exactly one sale entry per sale and nothing else. |
| RecentActivity.ActivityCounts | src/hooks/useRecentActivity.ts:64-120 | One start per session, one end per ended session, and one entry per sale. The length is their sum. |
| RecentActivity.RecentAreNewest | src/hooks/useRecentActivity.ts:123-124 | min(10, all) entries, newest first, each a built entry. No entry left out is newer than one kept. |
| RecentActivity.RecentActivityHook.FetchActivities | src/hooks/useRecentActivity.ts:35-131 | No game center, or a failed query: only `loading` changes. Otherwise the feed is replaced by the ten newest entries. |
| Notifications.LongSessionHoursMeaning | src/hooks/useNotifications.ts:65-67 | The hours are the whole hours since start. A session of the query (over three hours) shows at least 3. |
| Notifications.PushLowStock | src/hooks/useNotifications.ts:39-48 | One unread low-stock notification per product row, in order. |
| Notifications.PushLongSessions | src/hooks/useNotifications.ts:63-76 | One unread long-session notification per session row, in order. |
| Notifications.PushMaintenance | src/hooks/useNotifications.ts:87-96 | One unread maintenance notification per device row, in order. |
| Notifications.BuildNotifications | src/hooks/useNotifications.ts:28-97 | Low stock, then long sessions, then maintenance; a failed query skips only its own part. |
| Notifications.BuiltAllUnread | src/hooks/useNotifications.ts:28-97 | A fresh list has one notification per row of each successful query, all unread, so the count is its length. |
| Notifications.UnreadCount | src/hooks/useNotifications.ts:125 | The number of unread entries, never more than the list length. |
| Notifications.MarkedRead | src/hooks/useNotifications.ts:115-119 | Same length and order. An entry is read iff it was read already or has the id; nothing but `read` changes. |
| Notifications.AllRead | src/hooks/useNotifications.ts:121-123 | Same length and order, every entry read, nothing else changed. |
| Notifications.MarkAsReadIdempotent | src/hooks/useNotifications.ts:115-119 | Marking an id twice equals marking it once. |
| Notifications.MarkUnknownId | src/hooks/useNotifications.ts:115-119 | An id no notification has changes nothing. |
| Notifications.MarkAllAsReadClears | src/hooks/useNotifications.ts:121-125 | After "mark all", the unread count is 0, whatever was marked before. |
| Notifications.MarkAsReadCount | src/hooks/useNotifications.ts:115-125 | Marking an id lowers the unread count by exactly the unread entries with that id. |
| Notifications.NotificationsHook.FetchNotifications | src/hooks/useNotifications.ts:21-105 | No game center: only `loading` changes. Otherwise the list is replaced by the built notifications. |
| Notifications.NotificationsHook.MarkAsRead | src/hooks/useNotifications.ts:115-119 | The list becomes its marked copy. |
| Notifications.NotificationsHook.MarkAllAsRead | src/hooks/useNotifications.ts:121-123 | The list becomes all read, so the unread count is 0. |

## Left out

- Database I/O is replaced by tables held as class fields and by query results passed as parameters. Query filters are treated as already applied to the data passed in:
  - `is('end_time', null)`, `not(... 'is', null)` and the 30-day window;
  - `created_at >= weekAgo` and `.limit(20)`;
  - `stock < 10`, `start_time < threeHoursAgo` and `status = 'maintenance'`.
- Realtime channels, toasts and console logging are not modelled.
- Request failures are parameters. The device hook's inserts, updates and refetch, and `createSale`'s insert and reload, each take a success flag. `createSale`'s stock updates are not checked for errors in the source, so the model takes them to succeed.
- Products.ProductsHook.CreateSale: the reload after a sale is modelled as each snapshot product taking the table's new stock. `fetchProducts` also re-reads the other columns, the `is_active` filter and the ordering; the model keeps those from the snapshot because no other column of the products table is modelled. The reload is not awaited in the source; the model completes it before the sale returns.
- `fetchDevices` after a start, pause or stop is not awaited either; the model completes it before the operation returns.
- A query that returns null data without an error is treated as returning no rows.
- Clocks and timers:
  - `new Date()` and `Date.now()` are replaced by the parameter `now`.
  - `setInterval` ticks are modelled as one `Tick` call per reading.
  - React effects, state batching and re-render order are not modelled.
- `setHours(getHours() - 3)` is taken as exactly 3 × 3600000 ms; clock changes for daylight saving are not modelled.
- Dates and locale:
  - Day keys (`toISOString().split('T')[0]`) become whole day numbers.
  - `getHours()` becomes an hour 0..23.
  - A `toLocaleTimeString` time of day becomes a minute of the day, so `localeCompare` on two times compares minutes.
  - `getDay()` and the Persian day names, `toLocaleString` digit grouping and ISO formatting are not modelled.
- Floating point is not modelled. `Math.ceil`, `Math.round`, `/` and `%` are exact on rationals, so `(ms / 1000) / 60` is treated as ms / 60000. IEEE rounding is not covered. The in-memory hook's fractional paused seconds are stored as whole milliseconds: every amount added is a whole number of milliseconds divided by 1000.
- Strings are sequences of Unicode scalar values, not UTF-16 code units. Regular expressions appear only as the character maps they perform.
- `typeLabels[type]` on an inherited Object property such as `toString` is not modelled: an unlisted type is labelled with itself.
- The hourly map, like the source's, gains keys for even hours 2-8 when sessions start then. These keys count toward the maximum but produce no row.
- Stability: `Array.prototype.sort` is modelled by a stable insertion sort, but no contract states stability:
- Sorting.SortDesc: states sorted newest first and a permutation, not that equal-key elements keep their input order.
- Sorting.NewestAreNewest: states which keys are kept and their order, not which of two equal-key elements is kept when the slice cuts between them.
- RecentActivity.RecentAreNewest: states the feed's order by time only, not the order of two activities with the same time.
- AllInvoices.DaysHoldTheirInvoices: states each day's order by time only, not the order of two invoices with the same time.
- RecentActivity.TimeAgo: only the "just now" case is proved about the text as a whole. The three numeric phrases are stated through ClassifyMeaning, on the number they show.
- `InvoiceData` and its `grandTotal` are built by code that is not part of this model.
- `startSession(deviceId, customerName)`: `useDevicesDB`'s `startSession` takes no customer-name parameter, so the model drops the name the devices page passes.
- `addDevice`, `deleteDevice`, `updateDevice`, `updateDeviceStatus` and `updateSessionCustomerName` are taken by src/pages/Devices.tsx from the device hook, but src/hooks/useDevicesDB.ts does not define them. The page model returns the request it would make.
- Start guards: `startSession` in useDevicesDB.ts does not check the device's status, nor does the one in useDevices.ts (DevicesDB.StartIsUnguarded, MockDevices.StartEffect); only the card buttons guard it.
- Elapsed time is never clamped to zero. A start time ahead of the clock gives a negative clock (ClockDisplay.SplitNegative) and, in billing, possibly negative seconds (DevicesDB.BilledSeconds).
- The other screens are not modelled: authentication, settings, users, the charts page, the layout components, the product dialogs, and the hooks that only fetch and map fields (daily revenue, default rates, sales history).
