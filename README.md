# orderup-asaf-hub: a Dafny model of the POS front-end logic

The application is a React/Capacitor point-of-sale front-end for a
restaurant. It polls the restaurant's server for orders, chimes and
auto-prints brand-new ones, and prints receipts on a Bluetooth thermal
printer using ESC/POS commands. It also lets staff change an order's
status, log in with a device token, read an in-app debug log, manage POS
devices and edit the restaurant's receipt settings.

This project models the sequential logic inside those screens and
services, and proves what it promises:

- **Records.** `OrderTypes` and `RestaurantTypes` hold the order, item and
  settings records and the eight-valued order status.
- **Receipts.** `Receipt` describes the receipt as a list of pieces.
  `ReceiptSteps` mirrors the receipt builder's appends one by one. The
  `Printer` module holds the `ThermalPrinterService` class: its one-field
  session (the connected device) and the accumulating receipt builder.
- **Orders page.** `Orders` has the tab filter, the badge colours and
  labels, and the `OrdersPage` class. Its `Poll` method is one step of the
  polling loop: it takes in the reply, detects brand-new orders, chimes,
  auto-prints and keeps the printed-order ledger.
- **Order details.** `OrderDetails` has the status transition table of the
  order details dialog and the outcome of a status change request.
- **Login.** `Login` has the API address normalisation and the `LoginPage`
  class with its guarded login sequence.
- **Debug log.** `DebugLogger` is the bounded, newest-first log buffer.
  `DebugView` has the debug page's filter and per-level counts.
- **Devices.** `PosDevices` is the device list page.
- **Settings.** `RestaurantSettings` is the settings dialog: it merges the
  stored settings over the defaults and edits one field at a time.
- **Shared helpers.** `Text` models the JavaScript string operations used:
  `trim`, case folding, `startsWith` and `includes`. `Seqs` holds
  order-preserving filtering and subsequences. `Wrappers` holds `Option`
  and `Outcome`.

Several inputs are parameters of the operations rather than modelled:

- **The outside world.** Server replies, Bluetooth plugin outcomes, the
  user's confirmation, generated tokens, clock-based ids and the
  number-to-string rendering all come in this way.
- **Storage.** Browser storage is a `map<string, string>` field, and only
  where a property needs it.

## Model

| member | source | states |
|---|---|---|
| OrderTypes.ParseStatus | src/types/order.ts:28 | a wire string parses to a status exactly when it is one of the eight documented spellings, and that status is spelt the same way |
| OrderTypes.ParseName | src/types/order.ts:28 | parsing a status's spelling gives the status back |
| RestaurantTypes.DefaultSettings | src/types/restaurant.ts:12-21 | the default name and both default footers are non-empty; every optional key has a default |
| Receipt.InitThenCut | src/services/thermalPrinter.ts:94-179 | every receipt starts with ESC @ and ends with the cut command GS V 0 |
| Receipt.RenderInitAndCut | src/services/thermalPrinter.ts:94-179 | the initialise piece prints as ESC @ and the cut piece as GS V 0 |
| Receipt.LayoutEnds | src/services/thermalPrinter.ts:94-179 | the first piece of every receipt is the initialisation and the last is the cut |
| Receipt.OptionalLine | src/services/thermalPrinter.ts:111-172 | the phone, address, notes, payment and shipping lines each appear exactly when their field is non-empty; payment and shipping carry the raw value |
| Receipt.HeadPhone | src/services/thermalPrinter.ts:111-113 | the phone line is in the customer block exactly when the phone is non-empty |
| Receipt.HeadAddress | src/services/thermalPrinter.ts:114-116 | the address line is in the customer block exactly when the address is non-empty |
| Receipt.TailNotes | src/services/thermalPrinter.ts:159-162 | the notes text appears exactly when the order has notes |
| Receipt.TailPayment | src/services/thermalPrinter.ts:165-167 | the payment line appears exactly when a payment method is set |
| Receipt.TailShipping | src/services/thermalPrinter.ts:170-172 | the shipping line appears exactly when a shipping method is set |
| Receipt.DeliveryFeeLineIffPositive | src/services/thermalPrinter.ts:150-152 | the delivery-fee line appears exactly when the fee is positive |
| Receipt.DeliveryFeeLineShowsFee | src/services/thermalPrinter.ts:150-152 | any delivery-fee line shows the order's own fee |
| Receipt.TotalsPresent | src/services/thermalPrinter.ts:149-154 | the subtotal and total lines are always present |
| Receipt.ItemsInOrder | src/services/thermalPrinter.ts:125-144 | the "qty x name" headers of the receipt are exactly the order's items, one each, in order |
| Receipt.ItemShape | src/services/thermalPrinter.ts:125-144 | an item's block opens with its header and closes with its total; its note line appears exactly when it has a note |
| Receipt.ItemChoiceGroups | src/services/thermalPrinter.ts:129-136 | an item prints one group line per choice group |
| Receipt.ChoiceGroupCount | src/services/thermalPrinter.ts:130-135 | a list of choice groups prints one group line per group |
| Receipt.ChoicesLayoutPieces | src/services/thermalPrinter.ts:130-135 | the choices block holds only group lines and "+ sub-item" lines |
| Receipt.ItemsLayoutPieces | src/services/thermalPrinter.ts:125-144 | the items section holds only item pieces |
| Receipt.OutsideItems | src/services/thermalPrinter.ts:90-182 | a piece that is not an item piece is on the receipt exactly when it is in the head or the tail |
| ReceiptSteps.StepsMatchLayout | src/services/thermalPrinter.ts:90-182 | the append-by-append construction of the receipt equals the printed layout |
| Printer.ThermalPrinterService.constructor | src/services/thermalPrinter.ts:9 | a new service has no device |
| Printer.ThermalPrinterService.IsConnected | src/services/thermalPrinter.ts:204-206 | connected exactly when a device is held |
| Printer.ThermalPrinterService.PrinterName | src/services/thermalPrinter.ts:211-213 | no name without a device; otherwise the device's name exactly when it is non-empty |
| Printer.ThermalPrinterService.Initialize | src/services/thermalPrinter.ts:16-23 | fails with the Bluetooth error exactly when the plugin fails to start |
| Printer.ThermalPrinterService.ConnectToPrinter | src/services/thermalPrinter.ts:28-47 | succeeds exactly when initialise, pick and connect all succeed; the device is set only then and is otherwise unchanged |
| Printer.ThermalPrinterService.Disconnect | src/services/thermalPrinter.ts:52-61 | no device: nothing changes; a successful disconnect forgets the device; a failed one keeps it |
| Printer.ThermalPrinterService.SendCommand | src/services/thermalPrinter.ts:66-85 | refused without a device before anything is written; otherwise the command is written and fails exactly when the write does |
| Printer.ThermalPrinterService.FormatReceipt | src/services/thermalPrinter.ts:90-182 | the string built by the appending loops equals the flattened receipt layout of the order |
| Printer.ThermalPrinterService.FormatItem | src/services/thermalPrinter.ts:125-144 | one item's appends (header, groups with their sub-items, note, total) match the item's steps |
| Printer.ThermalPrinterService.PrintReceipt | src/services/thermalPrinter.ts:187-199 | without a device nothing is formatted or written and the error is NotConnected; otherwise the order's receipt is written, the print fails exactly when the write does, and a failure is the rethrown SendFailed |
| Orders.FilterOrders | src/pages/Orders.tsx:178-181 | "all" gives the whole list; any other tab keeps every order with that status as often as it occurs and drops every other order; the result keeps the original order |
| Orders.FilterOrdersExact | src/pages/Orders.tsx:178-181 | a tab other than "all" shows exactly the orders with that status |
| Orders.StatusColor | src/pages/Orders.tsx:183-195 | each documented status has its table colour; any other string is bg-gray-500 |
| Orders.GreyIffCompletedOrUnknown | src/pages/Orders.tsx:183-195 | the colour is grey exactly for "completed" or an unknown status |
| Orders.ColoursDistinct | src/pages/Orders.tsx:183-195 | the eight documented statuses have eight different colours |
| Orders.StatusLabel | src/pages/Orders.tsx:197-209 | each documented status has its Hebrew label; any other string is returned unchanged |
| Orders.LabelsDistinct | src/pages/Orders.tsx:197-209 | the eight documented statuses have eight different labels |
| Orders.LabelNeverWireName | src/pages/Orders.tsx:197-209 | a label is never itself a wire status name |
| Orders.Ids | src/pages/Orders.tsx:102 | the ids of a list, one per order, in order |
| Orders.NewOrderIdsExact | src/pages/Orders.tsx:101-102 | an id is remembered exactly when some "new" order in the reply carries it |
| Orders.BrandNewExact | src/pages/Orders.tsx:101-105 | brand-new orders are exactly the "new" orders whose id the previous poll did not see, in reply order |
| Orders.AutoPrintExact | src/pages/Orders.tsx:115-123 | auto-print prints exactly the arrivals whose id the ledger lacks, and never more ids than arrivals |
| Orders.AutoPrintNothingNew | src/pages/Orders.tsx:116-117 | arrivals whose ids are all in the ledger print nothing |
| Orders.NoArrivalsNoPrint | src/pages/Orders.tsx:107 | with no brand-new orders nothing is printed |
| Orders.LedgerAfter | src/pages/Orders.tsx:116-123 | as written: if nothing was printed the ledger is unchanged; otherwise it is the pre-poll ledger plus the id of the last arrival the pre-poll ledger lacks, since every later write overwrites the earlier ones |
| Orders.LastPrinted | src/pages/Orders.tsx:116-123 | the last id auto-print prints belongs to the last arrival whose id the pre-poll ledger lacks |
| Orders.LedgerLosesEarlierIds | src/pages/Orders.tsx:116-123 | as written: orders 1 and 2 both print, the ledger keeps only 2, and the same reply after a reload prints order 1 again |
| Orders.IntendedLedger | src/pages/Orders.tsx:116-123 | corrected: the ledger extends the pre-poll ledger and holds every printed id |
| Orders.IntendedLedgerNoReprint | src/pages/Orders.tsx:116-123 | corrected: with that ledger the same reply never prints an order again, whatever ids are remembered as seen |
| Orders.Logout | src/pages/Orders.tsx:161-166 | the token, API URL and device name are removed and every other key is kept |
| Orders.OrdersPage.constructor | src/pages/Orders.tsx:15-27 | no orders and no ids seen; sound on; the ledger and the auto-print switch are restored from storage, and auto-print defaults to on |
| Orders.OrdersPage.Poll | src/pages/Orders.tsx:45-138 | no credentials or an unusable reply: nothing changes. 401: only the session keys go. An accepted reply: the orders and the ids of its "new" orders replace the old ones, the chime sounds exactly when sound is on and a brand-new order exists, and the printed ids and ledger follow AutoPrint |
| Orders.OrdersPage.AutoPrint | src/pages/Orders.tsx:115-124 | the loop prints the ids AutoPrintIds gives; the ledger, in memory and stored, becomes the corrected IntendedLedger (see Findings); nothing else changes |
| OrderDetails.TargetTable | src/components/OrderDetailsDialog.tsx:99-118 | new offers [preparing, canceled]; preparing offers [completed, canceled]; out_for_delivery offers [completed]; any other status offers nothing |
| OrderDetails.TargetsAreStatuses | src/components/OrderDetailsDialog.tsx:99-118 | every offered target is a documented status and never "new" |
| OrderDetails.OffersIff | src/components/OrderDetailsDialog.tsx:99-118 | a status offers changes exactly when it is new, preparing or out_for_delivery |
| OrderDetails.DestructiveIffCancel | src/components/OrderDetailsDialog.tsx:101-114 | the destructive look marks exactly the cancel option |
| OrderDetails.ChangesEndWithinTwoSteps | src/components/OrderDetailsDialog.tsx:99-118 | following offered changes reaches a status with no options within two steps |
| OrderDetails.HandleStatusChange | src/components/OrderDetailsDialog.tsx:32-86 | no request without a token or an API URL; the update and close happen exactly on an OK reply with success; every failed request errors |
| Text.TrimSpec | src/pages/Login.tsx:11 | a string trims to nothing exactly when it is all white space; otherwise the result neither starts nor ends with white space |
| Text.TrimStartSpec | src/pages/Login.tsx:11 | the leading white space, and only it, is removed |
| Text.TrimEndSpec | src/pages/Login.tsx:11 | the trailing white space, and only it, is removed |
| Text.TrimUntouched | src/pages/Login.tsx:11 | a string with no white space at either end trims to itself |
| Text.Contains | src/pages/Debug.tsx:19 | `includes` holds exactly when the text occurs at some position |
| Login.StripTrailingSlashes | src/pages/Login.tsx:13 | the result is a prefix of the input, what was removed is all slashes, and it does not end in a slash |
| Login.SchemeStartsWithH | src/pages/Login.tsx:12 | an address with a scheme starts with an h of either case |
| Login.SchemeAdded | src/pages/Login.tsx:12 | a trimmed address without a scheme and with more than slashes comes out starting with "https://" |
| Login.SchemeKept | src/pages/Login.tsx:12-13 | a scheme survives cutting the address back to a point beyond it |
| Login.NormalizeShape | src/pages/Login.tsx:10-14 | the result is the trimmed input, with "https://" in front exactly when it has no scheme, minus only trailing slashes |
| Login.NormalizedNoTrailingSlash | src/pages/Login.tsx:10-14 | a normalised address is never empty and never ends in a slash |
| Login.RenormalizeUnchanged | src/pages/Login.tsx:10-14 | normalising again changes nothing when the host part has a non-slash character and the result does not end in white space |
| Login.TrailingSpaceNotStable | src/pages/Login.tsx:10-14 | "a /" normalises to "https://a ", which normalises to "https://a", so the white-space proviso is needed |
| Login.OrElse | src/pages/Login.tsx:56-64 | `value \|\| fallback`: the value when present and non-empty, otherwise the fallback |
| Login.LoginPage.constructor | src/pages/Login.tsx:17-19 | empty fields and not loading |
| Login.LoginPage.HandleLogin | src/pages/Login.tsx:22-70 | a blank token, then a blank address, then an app-host address are refused before any request. Otherwise the normalised address plus "/api/pos/auth" is requested. Only success stores the raw token, the normalised address and the device name (default "POS Device"); a denial carries the message or "טוקן לא תקין"; loading ends after any request |
| DebugLogger.Shown | src/hooks/use-debug-logger.ts:26-27 | one text per argument, in order |
| DebugLogger.JoinLength | src/hooks/use-debug-logger.ts:26-28 | the message is as long as its parts plus one separator between each pair |
| DebugLogger.JoinSnoc | src/hooks/use-debug-logger.ts:26-28 | joining one more part appends a separator and the part |
| DebugLogger.Data | src/hooks/use-debug-logger.ts:29 | the data is the sole argument exactly when there is one object argument; otherwise it is the argument list |
| DebugLogger.PrependNewestFirst | src/hooks/use-debug-logger.ts:32 | the new entry is first and the buffer never exceeds 500 |
| DebugLogger.PrependBelowCap | src/hooks/use-debug-logger.ts:32 | below the cap the buffer grows by one and the old entries follow unchanged |
| DebugLogger.PrependAtCap | src/hooks/use-debug-logger.ts:32 | at the cap the oldest entry is dropped and the others keep their order |
| DebugLogger.DebugLog.constructor | src/hooks/use-debug-logger.ts:12 | the buffer starts empty |
| DebugLogger.DebugLog.AddLog | src/hooks/use-debug-logger.ts:21-34 | the buffer becomes the new entry prepended and capped, and stays within the cap |
| DebugLogger.DebugLog.ClearLogs | src/hooks/use-debug-logger.ts:67-70 | the buffer is empty |
| DebugView.FilteredLogs | src/pages/Debug.tsx:18-22 | the shown logs are an order-preserving sub-list of the logs, holding every matching entry as often as it occurs and no other entry |
| DebugView.FilteredLogsExact | src/pages/Debug.tsx:18-22 | an entry is shown exactly when its lower-cased message contains the lower-cased query and the level is "all" or its own |
| DebugView.ContainsEmpty | src/pages/Debug.tsx:19 | every message contains the empty query |
| DebugView.EmptySearchShowsAll | src/pages/Debug.tsx:18-22 | an empty query on the "all" level shows every entry |
| DebugView.CountsAddUp | src/pages/Debug.tsx:50-56 | the four level counts add up to the total |
| DebugView.CountIsTabLength | src/pages/Debug.tsx:50-56 | each level's count is the number of entries that level's tab shows with an empty query |
| PosDevices.WithoutDevice | src/pages/PosDevices.tsx:84 | what is kept is an order-preserving sub-list of the devices, holding every device with another id as often as it occurs and no device with that id |
| PosDevices.WithoutDeviceExact | src/pages/PosDevices.tsx:84 | exactly the devices with another id are kept |
| PosDevices.TokenPreview | src/pages/PosDevices.tsx:214 | a token is shown only as its first eight characters |
| PosDevices.DevicesPage.constructor | src/pages/PosDevices.tsx:21-25 | no devices, an empty name, no token shown, not loading |
| PosDevices.DevicesPage.CreateDevice | src/pages/PosDevices.tsx:34-70 | a blank name is refused and nothing changes. Otherwise exactly one active, never-used device with that name and token is appended; the token is shown, the name is cleared and loading is off |
| PosDevices.DevicesPage.DeleteDevice | src/pages/PosDevices.tsx:77-89 | a confirmed delete keeps exactly the devices with another id, in order; an unconfirmed one changes nothing |
| RestaurantSettings.MergeNothingStored | src/components/RestaurantSettingsDialog.tsx:25-26 | with nothing stored the settings are exactly the defaults |
| RestaurantSettings.MergeKeyByKey | src/components/RestaurantSettingsDialog.tsx:22-24 | for each of the eight keys: a stored key gives the stored value, an absent key gives the default |
| RestaurantSettings.MergeRoundTrip | src/components/RestaurantSettingsDialog.tsx:22-24 | merged settings have every key, and merging a complete settings record over the defaults gives it back |
| RestaurantSettings.EditOnlyThatField | src/components/RestaurantSettingsDialog.tsx:49-101 | an edit sets its own field and leaves every other field unchanged |
| RestaurantSettings.SettingsDialog.constructor | src/components/RestaurantSettingsDialog.tsx:17 | the dialog starts on the defaults |
| RestaurantSettings.SettingsDialog.OpenChanged | src/components/RestaurantSettingsDialog.tsx:19-29 | settings load only when the dialog opens: the merged stored settings, or the defaults when nothing is stored |
| RestaurantSettings.SettingsDialog.EditField | src/components/RestaurantSettingsDialog.tsx:49-101 | the settings become the old settings with that one field replaced |

## Left out

- **Bluetooth plugin calls.** Initialise, device picker, connect, disconnect and write are not modelled, nor are the service and characteristic UUIDs or the `TextEncoder` encoding. Each call's outcome is a parameter, and the string handed to the write call is returned.
- **HTTP.** `fetch`, request headers, response content types and JSON parsing are not modelled. A reply arrives as a value that only says what the page distinguishes.
- **Browser effects.** Toasts, sounds, vibration, navigation, the clipboard and all rendering are not modelled. Neither is console logging inside the handlers.
- **Browser storage.** It is a string map, and only the session keys are modelled. The printed-order ledger and the auto-print switch are typed fields. JSON serialisation is not modelled, and neither are JSON `null` values inside stored settings.
- **Timing and React semantics.** The ten-second polling interval, the mount effect that redirects without credentials, and React's hook and closure semantics are not modelled. In particular, the interval keeps calling the `fetchOrders` of the first render. `Poll` is one step over explicit page state.
- **Number rendering.** JavaScript number-to-string conversion in receipt lines is not modelled; it is the `show: real -> string` parameter. Amounts are `real` and are only compared with zero.
- **Receipt appends.** `Printer.ThermalPrinterService.FormatReceipt` appends each run of consecutive unconditional pieces as one string. The result is the same.
- **Case folding.** `Text.LowerChar` lower-cases ASCII letters only. JavaScript's `toLowerCase` folds all of Unicode, so `DebugView.FilteredLogsExact` agrees with the source only on text whose non-ASCII characters have no lower-case form. The scheme test and the app-host test (`Login.IsAppHost`) are case-insensitive regular expressions without the `u` flag on ASCII patterns. Such a regular expression never matches a non-ASCII character against an ASCII one, so both are exact.
- **String units.** Dafny strings hold Unicode scalar values; JavaScript's `length`, `substring` and `trim` work on UTF-16 code units. `PosDevices.TokenPreview` takes the first eight characters, which differs from `substring(0, 8)` on tokens with characters outside the Basic Multilingual Plane. The tokens the page generates are ASCII.
- **Clocks and randomness.** Generated device tokens, `Date.now` ids, log entry ids and timestamps, and `JSON.stringify` of log arguments are not modelled. Each is an input.
- **Console and log plumbing.** The console patching, the listener set and `exportLogs` are not modelled.
- **Not in the model.**
  - The `handlePrintOrder` of the orders page only shows a toast; the ids it receives are what `Poll` returns.
  - The sound and auto-print toggles, the manual refresh and the tab state are not modelled.
  - The order card, navigation, preview and printer-selection components are presentation only.
  - The printer methods those components call, and `saveRestaurantSettings`, are not defined by the service in this repository, so they are not part of this model.
- Orders.OrdersPage.Poll: the ledger it leaves, in memory and in storage, is the corrected `Orders.IntendedLedger`, not the page's pre-poll ledger plus the last printed id (`Orders.LedgerAfter`); everything else in its contract follows the page as written.
- Orders.OrdersPage.AutoPrint: writes the corrected ledger, the pre-poll ledger plus every id printed in the pass. The page writes the pre-poll ledger plus only the id just printed; `Orders.LedgerAfter` models that, and the Findings table below has the details.
- Login.RenormalizeUnchanged: it needs a second premise besides a host part with a non-slash character. The normalised address must not end in white space, because `Login.TrailingSpaceNotStable` shows that the property fails without it.

## Findings

| source | as written | input that shows it | evidently intended | confidence | as-written member | corrected member |
|---|---|---|---|---|---|---|
| src/pages/Orders.tsx:119-121 | every auto-print writes the ledger as the pre-poll ledger plus the id just printed, so after a pass that prints several orders only the last id is recorded | a reply with two unprinted "new" orders 1 and 2 and an empty ledger: both print, the ledger becomes [2], and after a reload the same reply prints order 1 again | the ledger gains every id printed in the pass, so no order is auto-printed twice | medium, not executed | Orders.LedgerLosesEarlierIds | Orders.IntendedLedgerNoReprint |

`Orders.LedgerAfter` is the ledger as the page writes it. `Orders.IntendedLedger` is the corrected ledger, and `Orders.OrdersPage.AutoPrint`, and so `Orders.OrdersPage.Poll`, use it.
