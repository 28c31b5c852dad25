# eyeroniq PoS Lite — a verified model of the sales core

This project models in Dafny the logic at the heart of eyeroniq PoS Lite, a
point-of-sale web application for small shops (Next.js server actions over a
Prisma database, with a thermal-printer or PDF receipt). It covers:

- **the sales ledger** (`SaleActions`). Creating a SALE or QUOTE and
  decrementing stock line by line; the idempotent cancellation that puts
  stock back; the monthly analytics.
- **receipt emission** (`Printer`, `TicketRoute`). The printer is an object
  whose command list grows with each call. The PDF document is an object
  whose text lines and cursor grow. Device paths are probed in their fixed
  order, and the ticket route turns a stored sale into a response.
- **the cart, the barcode selection and the employee permission form** (`Pos`,
  `BarcodeManager`, `EmployeeManager`), as pure list and record transforms.
- **access decisions** (`DashboardLayout`, `Middleware`). The menu filter, the
  active link and the redirect decision.
- **reports** (`ReportExport`, `DashboardStats`). The per-employee ranking, the
  top four products, the CSV sections, and the dashboard totals and daily
  chart.
- **singletons and set-up** (`SettingsActions`, `SetupActions`). The settings
  get-or-create with its legacy rename, the settings upsert, first-run
  initialization and the reset.
- **products** (`ProductActions`). Creating and updating products, the
  generated barcode strings and the batch labelling loop.
- **the colour theme** (`Theme`). Partial updates, the reset, and the text
  colours chosen by YIQ brightness.

Shared modules:

- `Schema` holds the database records.
- `Store` holds the database as one object, `Db`. Each table is a field of
  `Db`, and each server action is a method that names the fields it may
  change.
- `JsText` states the JavaScript value idioms the code relies on:
  `null` as `Option`, string truthiness, `a || b`, `toLowerCase`, `includes`,
  `substring`, `slice`, `padEnd`/`padStart`, `toString` and `toFixed(2)`.
- `JsRecord` models a `Record<string, number>` filled by a `forEach`, read
  back with `Object.entries` and a sort by value. Keys that are not array
  indices keep insertion order. Keys that are array indices, such as the day
  numbers of the sales chart, come first in ascending order (`IndexOrder`).

Money is integer cents throughout. `toFixed(2)` is `JsText.FormatCents`,
proved lossless by `JsText.FormatCentsRoundTrip`.

The model takes the following as parameters:

- the clock (`Date.now()`) and random numbers;
- the day index of each sale;
- the set of device files that exist and the platform;
- the result of `parseFloat`/`parseInt` and of `JSON.parse`.

Loops that change state are methods with loop invariants. Each is proved
equal to a specification function, and the properties are lemmas about
those functions.

## Model

| member | source | states |
|---|---|---|
| SaleActions.ReserveEffect | src/actions/sale.ts:37-47 | a SALE lowers each PRODUCT's stock by exactly the quantity its lines carry for it; SERVICE rows, missing products and every other field are untouched, and nothing keeps stock from going negative |
| SaleActions.RestoreEffect | src/actions/sale.ts:65-75 | a cancellation raises each PRODUCT's stock by the quantity its lines carry; nothing else changes |
| SaleActions.RestoreUndoesReserve | src/actions/sale.ts:37-75 | restoring the lines of a sale gives back exactly the product table the decrements started from |
| SaleActions.CreateRecordsInput | src/actions/sale.ts:19-53 | the new row gets a fresh id, keeps the caller's total and lines unchanged and is COMPLETED; no other sale changes; `saleId` and `saleCode` are both that id |
| SaleActions.QuoteKeepsStock | src/actions/sale.ts:37 | creating a QUOTE never changes stock |
| SaleActions.SaleLowersStock | src/actions/sale.ts:37-47 | creating a SALE lowers each PRODUCT by the quantity sold and leaves the table's keys as they were |
| SaleActions.CancelIdempotent | src/actions/sale.ts:62 | cancelling a missing or already-cancelled sale changes nothing, so a second cancel is a no-op |
| SaleActions.CancelEffect | src/actions/sale.ts:62-80 | cancelling a completed sale marks it CANCELLED and restores stock for a SALE only; a quote only changes status |
| SaleActions.CreateThenCancelRestoresStock | src/actions/sale.ts:19-80 | creating a sale and then cancelling it leaves every product as it was and the sale CANCELLED |
| SaleActions.CreateSale | src/actions/sale.ts:19-53 | the insert followed by the line-by-line stock loop yields exactly the ledger and result of the specification |
| SaleActions.CancelSale | src/actions/sale.ts:57-80 | the early return, the stock-restoring loop and the status update yield exactly the specified ledger |
| SaleActions.Fetched | src/actions/sale.ts:107-132 | a row is fetched exactly when it is a SALE created within the month bounds and belongs to the selected user ('all', empty and absent select everyone) |
| SaleActions.Completed | src/actions/sale.ts:135 | exactly the COMPLETED rows are kept |
| SaleActions.MethodEntries | src/actions/sale.ts:141-144 | one (payment method, total) entry per completed sale, in order |
| SaleActions.DayEntries | src/actions/sale.ts:147-151 | one (day of month, total) entry per completed sale, in order |
| SaleActions.MethodEntriesTotal | src/actions/sale.ts:137-144 | the per-method entries add up to the sum of the sale totals |
| SaleActions.AnalyticsTotals | src/actions/sale.ts:135-153 | the `byMethod` amounts add up to `totalSales`; its clauses that only SALE rows are returned and that `totalSales` and `count` cover the COMPLETED ones restate the definition |
| SaleActions.DayEntriesTotal | src/actions/sale.ts:146-151 | the per-day entries add up to the sum of the sale totals |
| SaleActions.DayOccurs | src/actions/sale.ts:146-151 | a day occurs among the per-day entries exactly when some sale falls on it |
| SaleActions.DayChart | src/actions/sale.ts:146-151 | the chart lists each day with a sale once, days ascending, each with the total of that day's sales, and the days add up to the sum of the totals |
| SaleActions.AnalyticsByDay | src/actions/sale.ts:146-153 | `byDay` lists exactly the days of the COMPLETED sales, ascending as `Object.entries` reads them, each with that day's total, and adds up to `totalSales` |
| Printer.RelativeLogo | src/lib/printer.ts:38 | exactly one leading '/' is removed from the logo URL, and a URL without one is kept |
| Printer.IdentityFallbacks | src/lib/printer.ts:30-32 | the store name is the configured one, else the ticket's, else "eyeroniq PoS Lite", so never empty; address and phone prefer the settings and fall back to the ticket |
| Printer.LogoResolution | src/lib/printer.ts:37-43 | a logo path is used only when a URL is configured and the file exists, and it is the URL under `<cwd>/public/` with one leading '/' stripped |
| Printer.ThermalPrinter.constructor | src/lib/printer.ts:48-56 | a new printer has an empty command buffer |
| Printer.ThermalPrinter.AlignCenter | src/lib/printer.ts:59 | appends one centre-alignment command |
| Printer.ThermalPrinter.AlignLeft | src/lib/printer.ts:82 | appends one left-alignment command |
| Printer.ThermalPrinter.AlignRight | src/lib/printer.ts:108 | appends one right-alignment command |
| Printer.ThermalPrinter.SetBold | src/lib/printer.ts:70 | appends one bold on/off command |
| Printer.ThermalPrinter.SetTextSize | src/lib/printer.ts:71 | appends one text-size command |
| Printer.ThermalPrinter.Println | src/lib/printer.ts:72 | appends one printed line |
| Printer.ThermalPrinter.DrawRule | src/lib/printer.ts:79 | appends one separator line |
| Printer.ThermalPrinter.TableCustom | src/lib/printer.ts:91-95 | appends one table row with the given columns |
| Printer.ThermalPrinter.PrintImage | src/lib/printer.ts:62-68 | a failing image load appends nothing and reports failure; otherwise it appends the image |
| Printer.ThermalPrinter.CutPaper | src/lib/printer.ts:122 | appends one cut command |
| Printer.ItemRows | src/lib/printer.ts:97-103 | one table row per item, in item order |
| Printer.EmitLogo | src/lib/printer.ts:62-68 | the logo is printed when configured and loadable; a failure is swallowed and the ticket goes on |
| Printer.EmitTitle | src/lib/printer.ts:70-74 | the store name is printed bold at double size, then the style is reset |
| Printer.EmitContact | src/lib/printer.ts:76-77 | address and `Tel:` lines appear only when set |
| Printer.EmitHeader | src/lib/printer.ts:59-79 | the header commands are appended in the source's order |
| Printer.EmitDetails | src/lib/printer.ts:82-95 | ticket, date, employee (default "Cajero") and the optional customer line, then a rule and the column header |
| Printer.EmitItems | src/lib/printer.ts:97-103 | the loop appends exactly the item rows, in order |
| Printer.ItemRowsStep | src/lib/printer.ts:97-103 | the rows of one more item are the previous rows plus that item's row |
| Printer.EmitTotalLines | src/lib/printer.ts:105-116 | the total in bold with two decimals, the payment label, and the closing rule |
| Printer.EmitFooter | src/lib/printer.ts:117-120 | the receipt footer and a rule, only when a footer is configured |
| Printer.EmitTotals | src/lib/printer.ts:105-122 | total lines, footer, then the cut |
| Printer.BuildThermalJob | src/lib/printer.ts:48-124 | the driver calls of the physical branch produce exactly the specified thermal job |
| Printer.ThermalItemRow | src/lib/printer.ts:97-103 | columns of 15/55/30 hundredths that sum to the whole line; the quantity and the first 18 characters of the name (all of a shorter one), both left aligned; a right-aligned amount that reads back as exactly price × quantity |
| Printer.HeaderHasNoCut | src/lib/printer.ts:59-79 | the header holds no cut command |
| Printer.BodyHasNoCut | src/lib/printer.ts:82-120 | details, items, totals and footer hold no cut command |
| Printer.EndsWithOneCut | src/lib/printer.ts:122 | a buffer made of cut-free parts followed by one cut ends with exactly one cut |
| Printer.ThermalJobEndsWithCut | src/lib/printer.ts:59-122 | every thermal ticket ends by cutting the paper and cuts nowhere else |
| Printer.FirstExisting | src/lib/printer.ts:125-133 | the first existing path of the list, none exactly when no path exists |
| Printer.DeviceOrder | src/lib/printer.ts:125 | `/dev/usb/lp0` wins over `/dev/usb/lp1`, which wins over `/dev/lp0` |
| Printer.ProbeDevices | src/lib/printer.ts:127-133 | the loop with its early return finds the first existing device |
| Printer.PdfDoc.constructor | src/lib/printer.ts:166-176 | a new document has no operations, at the default font size |
| Printer.PdfDoc.SetFontSize | src/lib/printer.ts:191-192 | changes only the font size |
| Printer.PdfDoc.Write | src/lib/printer.ts:191-194 | appends one text operation at the current font size |
| Printer.PdfDoc.Down | src/lib/printer.ts:195 | appends one move-down |
| Printer.PdfDoc.DrawImage | src/lib/printer.ts:181-188 | a failing image adds nothing; otherwise it appends the picture |
| Printer.PdfItems | src/lib/printer.ts:208-213 | one line per item |
| Printer.PdfItemsAt | src/lib/printer.ts:208-213 | the i-th item line of the PDF is the i-th item's line, left-aligned at size 8 |
| Printer.WritePdfHeader | src/lib/printer.ts:181-195 | logo, store name at size 14, address and phone at size 8 when set, then a blank line; the font is left at 8 |
| Printer.WritePdfDetails | src/lib/printer.ts:198-207 | the rule, ticket, date, employee, optional customer, rule, half a line and the column header |
| Printer.WritePdfItem | src/lib/printer.ts:209-212 | one item line |
| Printer.WritePdfItems | src/lib/printer.ts:208-213 | the loop writes exactly the item lines, in order |
| Printer.WritePdfTotals | src/lib/printer.ts:215-229 | the total at size 12 and the payment at size 8, both right-aligned, then the footer or "GRACIAS POR SU COMPRA" |
| Printer.GeneratePdf | src/lib/printer.ts:164-233 | the document written is exactly the specified PDF ticket |
| Printer.PdfItemLineLayout | src/lib/printer.ts:209-212 | the quantity padded to at least 5 characters, a space, the name cut to 15 and padded to 16, a space, then the amount |
| Printer.PdfFooter | src/lib/printer.ts:225-229 | the PDF ends with the configured footer, or with "GRACIAS POR SU COMPRA" when none is set |
| Printer.PaymentLabelBothBackends | src/lib/printer.ts:112 | both backends print the same payment label, which is "Efectivo" exactly for CASH and "Tarjeta" otherwise |
| Printer.LogoFailureKeepsTicket | src/lib/printer.ts:62-68 | a logo that fails to load gives exactly the ticket of a store without a logo, on both backends |
| Printer.PrintOutcomeCases | src/lib/printer.ts:46-153 | the print is PHYSICAL exactly when on linux, without PDF_ONLY, some device exists and the write succeeds; then the whole thermal job goes to the first existing device; otherwise, a failed write included, the result is PDF, carrying the document exactly when generation succeeds |
| Printer.PrintTicket | src/lib/printer.ts:27-154 | reads or creates the settings row, then returns and writes exactly what the print outcome prescribes |
| TicketRoute.TicketItems | src/app/api/print/ticket/route.ts:41-45 | one ticket item per sale line, with the product's name and the line's stored quantity and price; none exactly when some line's product is missing |
| TicketRoute.TicketFromSaleFields | src/app/api/print/ticket/route.ts:33-46 | the ticket carries the stored sale's id, date, total and method, store fields left to the settings, a customer and an employee name that are never empty ("Cliente Ocasional", "Cajero" as fallbacks), and each line's stored price |
| TicketRoute.RespondCases | src/app/api/print/ticket/route.ts:48-59 | a PDF answer happens exactly when a PDF was generated, is named `ticket-<id>.pdf` and carries the document; every other outcome, a failed one included, is acknowledged as "Ticket printed" |
| TicketRoute.Post | src/app/api/print/ticket/route.ts:5-65 | 400 for a missing id and 404 for an unknown sale, both without touching the settings; 500 when a line's product is gone; otherwise the answer to the print of the sale's ticket |
| Pos.Increment | src/components/POSInterface.tsx:158 | the cart keeps its length, order and products; exactly the lines of that product gain one unit |
| Pos.RemoveFromCart | src/components/POSInterface.tsx:164-166 | a line stays exactly when it is not of the removed product, and the kept lines stay in their order (the result is a subsequence of the cart) |
| Pos.UpdateQuantity | src/components/POSInterface.tsx:168-176 | the cart keeps its length, order and products; the lines of that product get `max(1, quantity + delta)` and the others are unchanged |
| Pos.AddToCartEffect | src/components/POSInterface.tsx:154-162 | a new product is appended last with quantity 1 and raises the total by its price; a product already there keeps the cart's length |
| Pos.TotalAppend | src/components/POSInterface.tsx:178 | appending a line raises the total by that line's price × quantity |
| Pos.IncrementTotal | src/components/POSInterface.tsx:156-158 | adding a product already in a valid cart raises the total by the stored line's price |
| Pos.IncrementAbsent | src/components/POSInterface.tsx:158 | incrementing a product that is not in the cart changes nothing |
| Pos.AddToCartValid | src/components/POSInterface.tsx:154-162 | adding keeps one line per product with every quantity at least 1, and the product is then in the cart |
| Pos.RemoveFromCartEffect | src/components/POSInterface.tsx:164-166 | after removal the product is gone, every other line stays, and a cart without the product is returned unchanged |
| Pos.RemoveAbsent | src/components/POSInterface.tsx:165 | removing a product that is not in the cart changes nothing |
| Pos.RemoveFromCartTotal | src/components/POSInterface.tsx:164-178 | removing lowers the total by exactly the removed lines' amount |
| Pos.RemoveFromCartValid | src/components/POSInterface.tsx:164-166 | removing keeps a valid cart valid |
| Pos.TailValid | src/components/POSInterface.tsx:164-166 | the rest of a valid cart is valid |
| Pos.ConsValid | src/components/POSInterface.tsx:164-166 | a line of a new product in front of a valid cart keeps it valid |
| Pos.UpdateQuantityValid | src/components/POSInterface.tsx:168-176 | whatever the delta, every quantity stays at least 1 and the ids stay unique |
| Pos.FilteredProducts | src/components/POSInterface.tsx:150-152 | a product is shown exactly when its lower-cased name contains the lower-cased search, and the shown products keep catalogue order |
| Pos.EmptySearchKeepsAll | src/components/POSInterface.tsx:150-152 | an empty search shows the whole catalogue in order |
| Pos.CameraIndex | src/components/POSInterface.tsx:136 | the first index holding the current camera, or -1 when it is absent or null |
| Pos.NextIndex | src/components/POSInterface.tsx:139-145 | the next index wraps to 0 after the last; from an unknown camera it is 1 |
| Pos.SwitchCameraStep | src/components/POSInterface.tsx:134-148 | with one camera or none nothing changes; from an unknown camera the second is chosen |
| Pos.SwitchFromCamera | src/components/POSInterface.tsx:134-148 | from camera i the switch picks camera i + 1, wrapping after the last |
| Pos.SwitchTimesFrom | src/components/POSInterface.tsx:134-148 | k ≤ n switches from camera i land on camera (i + k) mod n |
| Pos.SwitchCameraCycle | src/components/POSInterface.tsx:134-148 | n switches among n distinct cameras come back to the starting camera |
| Pos.FindByBarcode | src/components/POSInterface.tsx:83 | the found product is the first one in catalogue order that carries the scanned code; nothing is found exactly when no product carries it |
| Pos.OnScanEffect | src/components/POSInterface.tsx:82-91 | the scanner closes exactly when some product carries the code; then the cart is the one adding the first such product gives, that product is in it and the cart stays valid; an unknown code changes nothing |
| Pos.CartLines | src/components/POSInterface.tsx:185-189 | one sale line per cart line, with its product id, quantity and price |
| Pos.CheckoutPayload | src/components/POSInterface.tsx:180-194 | nothing is sent for an empty cart; otherwise the payload mirrors the cart line by line, its total equals the total of its own lines, it is a QUOTE exactly for a quote, and no client is sent when none is selected |
| Pos.CartLinesTotal | src/components/POSInterface.tsx:178-190 | the sale lines' total equals the cart total |
| BarcodeManager.FilteredProducts | src/components/BarcodeManager.tsx:25-28 | a product is listed exactly when its name, or its non-empty barcode, contains the search, ignoring case, and the list keeps catalogue order |
| BarcodeManager.FoundByOwnBarcode | src/components/BarcodeManager.tsx:25-28 | a product with a barcode is found by searching for that barcode, as typed or lower-cased |
| BarcodeManager.Without | src/components/BarcodeManager.tsx:32 | exactly the other ids stay, in their order, and a duplicate-free selection stays duplicate-free |
| BarcodeManager.ToggleEffect | src/components/BarcodeManager.tsx:30-34 | a toggle flips the membership of that one id only and never duplicates an id; toggling twice restores the same ids, and the very same list when the id was not selected |
| BarcodeManager.WithoutAbsent | src/components/BarcodeManager.tsx:32 | filtering out an id just appended to a list without it gives back that list |
| BarcodeManager.Ids | src/components/BarcodeManager.tsx:40 | the shown products' ids, in order |
| BarcodeManager.SelectAllEffect | src/components/BarcodeManager.tsx:36-42 | the selection is cleared exactly when its length equals the number shown, whatever ids it holds; otherwise it becomes exactly the shown ids |
| BarcodeManager.SelectedProducts | src/components/BarcodeManager.tsx:70 | a product gets a label exactly when its id is selected, and the labels follow catalogue order (a subsequence of the catalogue) |
| BarcodeManager.SelectionOrderIrrelevant | src/components/BarcodeManager.tsx:70 | the labels depend only on which ids are selected, not on the order they were ticked in or on repeats |
| BarcodeManager.LabelValue | src/components/BarcodeManager.tsx:228-239 | a label encodes the barcode when one is set, else the product id |
| BarcodeManager.BulkRequest | src/components/BarcodeManager.tsx:72-83 | nothing is sent with an empty selection; otherwise the selection and the force flag |
| EmployeeManager.ToggleEffect | src/components/EmployeeManager.tsx:24-26 | a change negates exactly the chosen flag and leaves the other five; changing it again undoes it |
| EmployeeManager.ResetOnlySales | src/components/EmployeeManager.tsx:15-33 | a fresh or reset form enables only the sales permission |
| EmployeeManager.StartEditingFlags | src/components/EmployeeManager.tsx:39-52 | each flag is set exactly when the stored list names it; absent, empty or unparsable permissions set no flag |
| EmployeeManager.NameInjective | src/components/EmployeeManager.tsx:15-22 | distinct permission keys have distinct names |
| EmployeeManager.Active | src/components/EmployeeManager.tsx:58-60 | a key's name is listed exactly when the key is among those walked and its flag is on |
| EmployeeManager.ActiveKeysExact | src/components/EmployeeManager.tsx:58-62 | the submitted list names exactly the enabled permissions |
| EmployeeManager.ActiveCons | src/components/EmployeeManager.tsx:58-60 | the filter over a key list is the first key's name when its flag is on, followed by the filter over the rest |
| EmployeeManager.ActiveLastTwo | src/components/EmployeeManager.tsx:58-60 | over the keys reports and settings, the list is "reports" if on, then "settings" if on |
| EmployeeManager.ActiveLastFour | src/components/EmployeeManager.tsx:58-60 | over the last four keys, the list is each enabled name in the order clients, expenses, reports, settings |
| EmployeeManager.ActiveKeysOrder | src/components/EmployeeManager.tsx:58-60 | the submitted list is exactly the enabled names in the order sales, products, clients, expenses, reports, settings, each at most once |
| EmployeeManager.SubmitThenEditRoundTrip | src/components/EmployeeManager.tsx:39-62 | saving the flags and opening the user again shows the same flags |
| EmployeeManager.PermissionDisplayCases | src/components/EmployeeManager.tsx:232-240 | "Acceso Total" exactly for an ADMIN, whatever is stored; otherwise the stored list when it is non-empty, else "Sin permisos" |
| DashboardLayout.MenuItems | src/components/DashboardLayout.tsx:29-36 | an entry is shown exactly when it passes the visibility rule |
| DashboardLayout.MenuKeepsOrder | src/components/DashboardLayout.tsx:29 | the filtered menu keeps the declared order |
| DashboardLayout.VisibleCases | src/components/DashboardLayout.tsx:29-36 | 'Citas' is never shown; an ADMIN sees every other entry; 'any' entries are always shown; any other entry is shown exactly when the user's permission list names it |
| DashboardLayout.AllVisibleKeepsAll | src/components/DashboardLayout.tsx:29-36 | when every entry passes, the menu is the whole list |
| DashboardLayout.MenuForAdmin | src/components/DashboardLayout.tsx:18-33 | an ADMIN gets the whole menu whatever permissions are stored |
| DashboardLayout.MenuForGuest | src/components/DashboardLayout.tsx:18-36 | without a user only "Inicio" is shown |
| DashboardLayout.GuestSeesNoneOf | src/components/DashboardLayout.tsx:19-35 | without a user no entry after "Inicio" is shown |
| DashboardLayout.NoneVisible | src/components/DashboardLayout.tsx:29-36 | when no entry passes, the menu is empty |
| DashboardLayout.AtMostOneActive | src/components/DashboardLayout.tsx:58 | at most one entry is highlighted, and a sub-page such as "/sales/3" highlights none |
| Middleware.DecideCases | src/middleware.ts:9-27 | a visitor without a session is sent to /login from every protected page and a signed-in user away from /login to /; setup pages always pass; each redirect happens only in its own case |
| Middleware.ProtectedExactly | src/middleware.ts:9-10 | a page is protected exactly when its path starts with neither "/login" nor "/setup"; the prefix test makes "/loginx" a login page too |
| ReportExport.EmployeeEntries | src/app/api/reports/export/route.ts:25-28 | one (employee name, amount) entry per sale, "Desconocido" when the user is absent or unnamed |
| ReportExport.LineEntries | src/app/api/reports/export/route.ts:39-42 | one (product name, quantity) entry per line, "Item Eliminado" when the product is gone |
| ReportExport.GroupSnoc | src/app/api/reports/export/route.ts:28 | folding one more entry into the record is one `record[name] = (record[name] \|\| 0) + amount` step |
| ReportExport.EmployeeStats | src/app/api/reports/export/route.ts:24-30 | the loop builds exactly the record of amounts per employee over the COMPLETED sales |
| ReportExport.EmployeeStep | src/app/api/reports/export/route.ts:25-30 | one more sale adds its amount under its employee's name when COMPLETED and changes nothing otherwise |
| ReportExport.AddLines | src/app/api/reports/export/route.ts:39-42 | the inner loop adds each line's quantity under its product's name |
| ReportExport.ProductStats | src/app/api/reports/export/route.ts:36-44 | the loop builds exactly the record of quantities per product over the lines of the COMPLETED sales |
| ReportExport.EmployeeEntriesTotal | src/app/api/reports/export/route.ts:24-30 | the employee entries add up to the total of the sales |
| ReportExport.EmployeeRankingSpec | src/app/api/reports/export/route.ts:31-33 | the ranking is ordered largest first, its amounts add up to the total of the COMPLETED sales, and each amount is the total of that employee's COMPLETED sales |
| ReportExport.EmployeeRankingNames | src/app/api/reports/export/route.ts:25-31 | a name is ranked exactly when some COMPLETED sale is shown under it |
| ReportExport.EntryNames | src/app/api/reports/export/route.ts:25-28 | a name has an entry exactly when some sale of the list is shown under it |
| ReportExport.TopOfSpec | src/app/api/reports/export/route.ts:47 | the slice keeps at most four entries, all from the head of the ranking, and the whole ranking when it has fewer than four |
| ReportExport.TopProductsSpec | src/app/api/reports/export/route.ts:36-48 | at most four products, largest first, the head of the full ranking, each with the total quantity sold in COMPLETED sales |
| ReportExport.TopProductsAreTop | src/app/api/reports/export/route.ts:45-48 | no product left out of the top list sold more than any product in it |
| ReportExport.ExpensesTotalAppend | src/app/api/reports/export/route.ts:18 | the expenses total is additive over any split of the list |
| ReportExport.EmployeeRows | src/app/api/reports/export/route.ts:66 | one row per ranked employee, with the amount to two decimals |
| ReportExport.ProductRows | src/app/api/reports/export/route.ts:72 | one row per top product, with the quantity |
| ReportExport.ItemTexts | src/app/api/reports/export/route.ts:84 | one `<quantity>x <name>` text per line; none exactly when some line's product is gone |
| ReportExport.DetailRows | src/app/api/reports/export/route.ts:78-88 | when the details render there is one row per sale |
| ReportExport.PushEmployeeRows | src/app/api/reports/export/route.ts:66 | the loop appends exactly the employee rows |
| ReportExport.PushProductRows | src/app/api/reports/export/route.ts:72 | the loop appends exactly the product rows |
| ReportExport.PushDetailRows | src/app/api/reports/export/route.ts:78-88 | the loop appends exactly the detail rows, and stops with no rows as soon as a sale does not render |
| ReportExport.PushStep | src/app/api/reports/export/route.ts:78-88 | a sale that does not render sinks the whole list; one that does extends the rows so far |
| ReportExport.DetailRowsStep | src/app/api/reports/export/route.ts:78-88 | one more sale's row follows the others, or the list fails |
| ReportExport.DetailRowsFail | src/app/api/reports/export/route.ts:78-88 | once a prefix of the sales fails to render, so does the whole list |
| ReportExport.BuildCsvSections | src/app/api/reports/export/route.ts:54-88 | the pushes build exactly the summary, employee, product and detail sections, in that order |
| ReportExport.RowTexts | src/app/api/reports/export/route.ts:90 | each row becomes its fields joined with commas |
| ReportExport.ExportSpec | src/app/api/reports/export/route.ts:53-191 | any format but csv or pdf is a 400 "Invalid format"; pdf gives a PDF report; a CSV export fails exactly when some sale has a line whose product is gone |
| ReportExport.DetailRowsDefined | src/app/api/reports/export/route.ts:78-88 | the details render exactly when every line of every sale still has its product |
| ReportExport.LinesKnownSnoc | src/app/api/reports/export/route.ts:78-88 | all lines of the longer list know their product exactly when those of the shorter list and of the last sale do |
| ReportExport.DetailRowsSnoc | src/app/api/reports/export/route.ts:78-88 | one more sale renders exactly when its own lines all have their products |
| ReportExport.DetailRowsLayout | src/app/api/reports/export/route.ts:79-87 | each detail row has seven fields: the sale id first, the items joined with " \| ", the amount to two decimals last |
| ReportExport.RowLayout | src/app/api/reports/export/route.ts:79-87 | one sale's row has that layout |
| ReportExport.DetailRowsAt | src/app/api/reports/export/route.ts:78-88 | the i-th detail row is the i-th sale's row |
| ReportExport.DetailRowsLast | src/app/api/reports/export/route.ts:78-88 | the rows of a list are the rows of all but the last sale, then the last sale's row |
| ReportExport.SummaryRowsSpec | src/app/api/reports/export/route.ts:18-61 | the summary shows sales, expenses and net profit as sales minus expenses, each reading back as the amount it came from |
| ReportExport.RankingMatchesTotal | src/app/api/reports/export/route.ts:16-33 | with the analytics the route fetches, the ranking adds up to the reported total sales |
| DashboardStats.MonthExpenses | src/actions/report.ts:21-25 | an expense counts exactly when it is dated within the month |
| DashboardStats.CreatedIn | src/actions/report.ts:29-33 | exactly the clients created within the month, in table order |
| DashboardStats.NewClients | src/actions/report.ts:29-33 | the count is the number of clients created within the month: zero exactly when none was, and never more than the clients |
| DashboardStats.NewClientsFrom | src/actions/report.ts:29-33 | counting the rows from a position on gives the number of positions from there whose client was created within the month |
| DashboardStats.NewClientsCount | src/actions/report.ts:29-33 | the count is the number of client rows created within the month |
| DashboardStats.Chart | src/actions/report.ts:36-45 | one point per day of the month, in order, each with the amount sold that day |
| DashboardStats.ChartSnoc | src/actions/report.ts:37-45 | one more sale adds its amount to the chart once, on its own day |
| DashboardStats.ChartCoversSales | src/actions/report.ts:36-45 | when the days are distinct and every sale falls on one of them, the chart adds up to the sum of the sales |
| DashboardStats.ChartOfNoSales | src/actions/report.ts:36-45 | with no sales every point of the chart is zero, and so is the chart's sum |
| DashboardStats.DashboardStatsSpec | src/actions/report.ts:12-53 | every SALE row of the month counts, CANCELLED ones included; net income is sales minus expenses; the chart has one point per day and adds up to the total sales |
| SettingsActions.GetOrCreateEffect | src/actions/settings.ts:8-26 | a missing row is created with the default store name; the legacy name "eyeroniq PoS" is rewritten and every other field kept; any other row is returned as found; the legacy name is never returned |
| SettingsActions.GetOrCreateIdempotent | src/actions/settings.ts:8-26 | a second read finds the row the first left and changes nothing |
| SettingsActions.GetSettings | src/actions/settings.ts:6-31 | returns the get-or-create row and leaves exactly that row stored |
| SettingsActions.UpsertEffect | src/actions/settings.ts:43-50 | every supplied field is stored; every absent field keeps the existing value, or the column default when there was no row |
| SettingsActions.UpsertIdempotent | src/actions/settings.ts:43-50 | an empty patch leaves an existing row as it was, and upserting the same patch twice is the same as once |
| SettingsActions.UpdateSettings | src/actions/settings.ts:33-53 | stores and returns the upserted row |
| SetupActions.SetupPatchEffect | src/actions/setup.ts:37-52 | the settings row takes the wizard's store name, and its address, phone and logo where supplied; footer and printer settings stay as they were, or the column defaults for a new row |
| SetupActions.AdminInitializes | src/actions/setup.ts:8-18 | adding the administrator initializes the system; an empty user table leaves it uninitialized |
| SetupActions.InitializeSystem | src/actions/setup.ts:20-92 | refused without any write when already initialized; otherwise the settings are upserted, then the ADMIN with permissions `["all"]` is added unless the id or e-mail is taken, which fails with the settings already written; success leaves the system initialized |
| SetupActions.ResetSystem | src/actions/setup.ts:94-121 | a failed transaction changes nothing; otherwise sales, appointments, expenses, products, clients and users are emptied, the settings are kept, and the system is uninitialized |
| ProductActions.NewProductDefaults | src/actions/product.ts:27-42 | a new product is of type PRODUCT unless another is given, takes 0 for an unparsable price, cost or stock, has no description for an empty one, and gets the generated code when no barcode is supplied |
| ProductActions.AutoBarcodeReadsBack | src/actions/product.ts:40-42 | an automatic code is "PROD-", the timestamp in decimal, "-" and the random number in decimal, and both numbers read back as the inputs |
| ProductActions.CodeParts | src/actions/product.ts:41 | a code assembled from "PROD-", two pieces and a dash splits back into those pieces |
| ProductActions.CreateProduct | src/actions/product.ts:26-59 | the new row is inserted unless the id or the barcode is already taken, which rejects with the source's message and no change; barcodes stay unique |
| ProductActions.UpdatedProductBarcode | src/actions/product.ts:65-91 | an update keeps the product's id, and its barcode unless a non-empty one is supplied; the type defaults to PRODUCT |
| ProductActions.UpdateProduct | src/actions/product.ts:65-95 | a missing row or a barcode owned by another product rejects with the source's message and no change; otherwise the row is rewritten; barcodes stay unique |
| ProductActions.LongNumber | src/actions/product.ts:110 | a number of at least 10^k has more than k digits |
| ProductActions.ShortNumber | src/actions/product.ts:111 | a number below 10^k has at most k digits |
| ProductActions.ParseZeros | src/actions/product.ts:111 | a run of zeros is all digits and reads as 0 |
| ProductActions.ParseLeadingZeros | src/actions/product.ts:111 | leading zeros do not change the value read |
| ProductActions.GeneratedBarcodeSuffix | src/actions/product.ts:110-112 | a generated code is all digits and its last four read back as the random number |
| ProductActions.PaddedRand | src/actions/product.ts:111 | the random number padded to four digits reads back as itself |
| ProductActions.DigitsThenFour | src/actions/product.ts:112 | joining a non-empty digit string and four digits gives digits ending in those four |
| ProductActions.GeneratedBarcodeLength | src/actions/product.ts:110-112 | from an eight-digit timestamp on, a generated code is exactly twelve digits, the timestamp's last eight first |
| ProductActions.GenerateProductBarcode | src/actions/product.ts:108-121 | the fresh code is stored on the row when it exists and no other product owns the code; otherwise the update throws and nothing changes |
| ProductActions.Unlabelled | src/actions/product.ts:127-133 | exactly the listed products that exist and have no barcode, each once |
| ProductActions.Targets | src/actions/product.ts:125-133 | never more targets than ids given |
| ProductActions.DistinctShorter | src/actions/product.ts:127-133 | a list without repeats drawn from the ids is no longer than the ids |
| ProductActions.DistinctCard | src/actions/product.ts:127-133 | a list without repeats has as many distinct elements as entries |
| ProductActions.SetCardBound | src/actions/product.ts:127-133 | a list has at most as many distinct elements as entries |
| ProductActions.RunBatch | src/actions/product.ts:136-148 | the loop performs exactly the updates in turn, stopping at the first that throws |
| ProductActions.GenerateBatchBarcodes | src/actions/product.ts:123-153 | the table after the run, and the count of targets only when every update went through |
| ProductActions.BatchStep | src/actions/product.ts:136-148 | a throwing update stops the run with nothing more written; otherwise the run goes on from the labelled table |
| ProductActions.BatchOnlyTargets | src/actions/product.ts:136-148 | products that are not targeted are never touched, and no product appears or disappears |
| ProductActions.BatchLabels | src/actions/product.ts:136-148 | after a run that went through, each target carries the code generated for it and nothing else changed on it |
| ProductActions.BatchKeepsUnique | src/actions/product.ts:136-148 | labelling never makes two products share a barcode |
| ProductActions.TargetsSpec | src/actions/product.ts:125-133 | forced, every given id is targeted; otherwise exactly the given ids whose product exists without a barcode, each once |
| Theme.UpdateThemeEffect | src/components/ThemeProvider.tsx:108-110 | an update stores every key the patch supplies and keeps every other key of the previous theme |
| Theme.UpdateThemeIdempotent | src/components/ThemeProvider.tsx:108-110 | applying a patch twice equals applying it once, an empty patch changes nothing, and with no initial theme the state starts at the defaults |
| Theme.RemoveFirst | src/components/ThemeProvider.tsx:42 | replacing '#' with nothing leaves a string without '#' unchanged and otherwise removes exactly one character |
| Theme.HexRun | src/components/ThemeProvider.tsx:44-46 | parseInt with radix 16 reads a prefix of hexadecimal digits and never beyond the string |
| Theme.ContrastColor | src/components/ThemeProvider.tsx:40-50 | the text colour is always one of the two colours, #171717 or #f8fafc |
| Theme.MutedColor | src/components/ThemeProvider.tsx:52-60 | the muted colour is always one of the two colours, #525252 or #94a3b8 |
| Theme.ContrastAndMutedAgree | src/components/ThemeProvider.tsx:40-60 | the text colour is dark exactly when the muted colour is dark, and light exactly when it is light |
| Theme.HexChar | src/components/ThemeProvider.tsx:44-46 | the digit written for a value below 16 reads back as that value |
| Theme.Hex2 | src/components/ThemeProvider.tsx:44-46 | a channel is written as two hexadecimal digits |
| Theme.ParseHex2 | src/components/ThemeProvider.tsx:44-46 | two hexadecimal digits read back under parseInt radix 16 as the channel they encode |
| Theme.StripHash | src/components/ThemeProvider.tsx:42 | removing the leading '#' of a colour leaves its digits |
| Theme.Channels | src/components/ThemeProvider.tsx:44-46 | the substrings at 0-2, 2-4 and 4-6 of three two-character channels are those channels |
| Theme.BrightnessOfChannels | src/components/ThemeProvider.tsx:42-48 | the brightness of '#' and three channels is the weighted sum of the three channels as parsed |
| Theme.ContrastOfRgb | src/components/ThemeProvider.tsx:40-60 | for a colour #rrggbb, both text colours are the dark ones exactly when 299r + 587g + 114b is at least 128000, that is YIQ >= 128 |
| Theme.ResetGivesDarkText | src/components/ThemeProvider.tsx:112-114 | after a reset the background is #ffffff and both text colours are the dark ones |
| Theme.WhiteInHex | src/components/ThemeProvider.tsx:28 | the channels 255, 255, 255 written in hex are the default background #ffffff |
| JsRecord.KeysOf | src/app/api/reports/export/route.ts:31 | the keys of Object.entries are the entries' first components, in order |
| JsRecord.AddTo | src/app/api/reports/export/route.ts:28 | adding a value under a key raises that key's total and the grand total by the value and leaves every other key's total alone |
| JsRecord.AddToKeys | src/app/api/reports/export/route.ts:28 | after adding under a key, the record's keys are the old keys plus that key, and keys stay distinct |
| JsRecord.GroupSum | src/app/api/reports/export/route.ts:24-30 | folding entries into a record keeps their grand total |
| JsRecord.GroupLookup | src/app/api/reports/export/route.ts:24-30 | in the folded record each key holds the total of the entries carrying it, each key occurs once, and exactly the keys of the entries occur |
| JsRecord.InsertDesc | src/app/api/reports/export/route.ts:32 | inserting into a list sorted largest first keeps it sorted and adds exactly that entry |
| JsRecord.BoundedBy | src/app/api/reports/export/route.ts:32 | a permutation of the tail of a sorted list plus a smaller entry stays below the head |
| JsRecord.ConsDescending | src/app/api/reports/export/route.ts:32 | an entry at least as large as every entry of a sorted list can go in front |
| JsRecord.InsertDescSum | src/app/api/reports/export/route.ts:32 | inserting an entry adds its value to the total |
| JsRecord.SortDesc | src/app/api/reports/export/route.ts:31-32 | the sort by descending value yields a list sorted largest first that is a permutation of its input |
| JsRecord.SortDescSum | src/app/api/reports/export/route.ts:31-32 | sorting does not change the total |
| JsRecord.KeysAbove | src/actions/sale.ts:146-151 | a permutation of the tail of an ascending list plus an entry with a larger key than the head has every key above the head |
| JsRecord.ConsAscending | src/actions/sale.ts:146-151 | an entry whose key is below every key of an ascending list can go in front |
| JsRecord.InsertByKey | src/actions/sale.ts:146-151 | inserting an entry with a new key into a list ascending by key keeps it ascending and adds exactly that entry |
| JsRecord.InsertByKeySum | src/actions/sale.ts:146-151 | inserting by key adds the entry's value to the total |
| JsRecord.IndexOrder | src/actions/sale.ts:146-151 | the keys that are array indices, as Object.entries lists them: strictly ascending, and a permutation of the record |
| JsRecord.IndexOrderSum | src/actions/sale.ts:146-151 | listing by ascending key does not change the total |
| JsRecord.IndexRecord | src/actions/sale.ts:146-151 | a record keyed by day, read back, lists each key once in ascending order, with the total of the entries carrying it, exactly the keys of the entries, and the grand total |
| JsRecord.SumValuesAppend | src/app/api/reports/export/route.ts:28 | appending an entry adds its value to the total |
| JsRecord.TotalIsSumValues | src/app/api/reports/export/route.ts:24-30 | the two ways of adding up entries agree |
| JsRecord.LookupMember | src/app/api/reports/export/route.ts:31-33 | an entry of a record with distinct keys is what looking its key up returns |
| JsRecord.KeysOfPermutation | src/app/api/reports/export/route.ts:31-32 | two permutations of each other have the same keys |
| JsRecord.Ranking | src/app/api/reports/export/route.ts:24-33 | the ranking is sorted largest first, sums to the grand total, gives each key its own total, and lists exactly the keys that occur |
| JsRecord.RankingKey | src/app/api/reports/export/route.ts:31-33 | a key is ranked exactly when some entry carries it |
| JsText.Or | src/actions/product.ts:29 | a || fallback is the value when it is a non-empty string and the fallback otherwise |
| JsText.OrElse | src/actions/product.ts:28 | a || b is a when a is a non-empty string and b otherwise |
| JsText.ToLower | src/components/BarcodeManager.tsx:25-28 | lower-casing keeps the length and maps each character on its own |
| JsText.IncludesAt | src/components/BarcodeManager.tsx:25-28 | includes holds exactly when the substring occurs at some position |
| JsText.Prefix | src/lib/printer.ts:210 | substring(0, n) is the first min(n, length) characters |
| JsText.LastChars | src/actions/product.ts:110 | slice(-n) is the last min(n, length) characters |
| JsText.Repeat | src/lib/printer.ts:209-210 | a run of n copies of one character |
| JsText.PadEnd | src/lib/printer.ts:209-210 | padEnd(n) keeps the string in front and fills with spaces up to n characters, never shortening |
| JsText.PadStart | src/actions/product.ts:111 | padStart(n, c) keeps the string at the end and fills in front with c up to n characters, never shortening |
| JsText.NatToString | src/actions/product.ts:110 | a number's decimal writing is non-empty, all digits, and one digit exactly below 10 |
| JsText.ParseNatToString | src/actions/product.ts:110 | a number written in decimal reads back as itself |
| JsText.IntToString | src/lib/printer.ts:209 | toString of a non-negative number is its decimal writing |
| JsText.FormatCents | src/app/api/reports/export/route.ts:58-60 | toFixed(2) ends in a point and two digits |
| JsText.Decimal | src/app/api/reports/export/route.ts:58-60 | whole units, a point and the two fraction digits |
| JsText.TwoDigits | src/app/api/reports/export/route.ts:58-60 | the fraction is always two digits |
| JsText.TwoDigitsValue | src/app/api/reports/export/route.ts:58-60 | the two fraction digits read back as the fraction |
| JsText.DecimalParts | src/app/api/reports/export/route.ts:58-60 | the whole and fraction parts of a decimal read back as the numbers printed |
| JsText.ParseCentsOf | src/app/api/reports/export/route.ts:58-60 | a decimal reads as whole * 100 + fraction cents, negated under a minus sign |
| JsText.FormatCentsRoundTrip | src/app/api/reports/export/route.ts:58-60 | printing an amount of cents with two decimals loses nothing: it reads back as the same amount |
| Store.Db.constructor | src/actions/setup.ts:8-18 | a new database has no products, sales, users, clients, expenses, appointments or settings row and its sale counter starts at 1, the state in which the system reports itself uninitialized |

## Left out

- The JSX rendering, styling, `alert`/`confirm`, router navigation, `revalidatePath` and `redirect`. These are presentation and framework plumbing with no state of their own.
- The camera scanner, the audio beep, the clock display timers, and the theme's `localStorage` and CSS-variable writes. These are browser I/O. A scan enters the model as the decoded text (`Pos.OnScanEffect`).
- The Prisma query engine and database constraints. Tables are maps. Finders return rows in the order the model is given. Foreign keys are not modelled. The unique barcode and unique e-mail columns are modelled as the refusals they cause.
- `getSales`, `getProducts`, `getProduct` and `deleteProduct`. These are single queries with no logic of their own.
- The client, user, expense and appointment actions, and the forms and managers other than the three components above. They are thin CRUD or presentation.
- Atomicity and concurrency. Stock updates run as sequential writes with no transaction. An exception in the middle of a loop leaves the earlier writes in place, as the model states.
- Floating point. Money is integer cents, and quantities and stock are integers. `parseFloat`/`parseInt` is an abstract partial function (`Option`), so the model does not capture JavaScript's prefix parsing.
- `toLowerCase` is modelled on ASCII letters only. Unicode case mapping is outside the model.
- Locale date formatting (`toLocaleString('es-MX')`) and the date-fns month and day arithmetic. Dates enter as given strings and day indices.
- The session cookie, JWT signing and verification, and bcrypt. Whether `decrypt` yields a payload is a boolean input of `Middleware.Decide`, and a password hash is an opaque string.
- The middleware `matcher` configuration (`src/middleware.ts:30-32`). It is routing configuration read by the framework.
- The PDF layout of the report export (`src/app/api/reports/export/route.ts:100-189`). It is pdfkit positioning. The PDF response is reduced to its kind.
- The internals of pdfkit and node-thermal-printer: fonts, image raster and byte encoding. They appear only as the commands and text lines they receive.
- The exception itself when a sale line refers to a deleted product. The ticket route reads `item.product.name`, and its catch answers 500 "Failed to print", which the model returns for that case. The CSV export's detail rows read the same field with no catch; the model reports that case as `Crash`, the framework's 500.
- Prisma column defaults that are not visible in the code, such as the printer type and width of a new settings row. They are named constants in `Schema`.
- SetupActions.InitializeSystem: a failure of the settings upsert itself is not modelled, because only the user insert can be refused in the model.
- ProductActions.Codes: the sequence of codes a batch writes has no contract of its own, because its properties are stated through `ProductActions.GeneratedBarcodeSuffix` and `ProductActions.BatchLabels`.
- ProductActions.AutoBarcodeReadsBack: the automatic code's shape is stated by position, and the random part's bound is not used.
- TicketRoute.Post: the request body enters as an optional integer, so a body that is not JSON, or a `saleId` that is a string, is not modelled; in the route these reach the catch and answer 500 "Failed to print".
- Theme.ParseHex: leading white space is not skipped. `parseInt` skips it, so a channel such as " f" reads as 15 in the source and as NaN in the model. The colours `Theme.ContrastOfRgb` covers, written `#rrggbb`, have no white space, so it holds either way.
- Theme.UpdateTheme: a patch key is either absent or carries a value, so a key present with the value `undefined`, which `{ ...theme, ...patch }` copies over the current value, is not expressible.
- Printer.PublicPath: the path is the plain concatenation of the working directory, `/public/` and the URL; `path.join` also normalises `.` and `..` segments and repeated separators, and that is not modelled.
- JsRecord.SortDesc: the contract states the descending order and the permutation but not the order of equal values. The source's sort is stable; the model's insertion also places an entry after the equal ones, but no lemma states it. For names that are array indices (all digits), `Object.entries` would list them first, in ascending order, and that order is not modelled either. ReportExport.EmployeeRankingSpec and ReportExport.TopProductsSpec inherit both gaps.
- Middleware.ProtectedExactly: its first clause restates the predicate. The clauses about "/loginx", "/setup", "/" and "/sales" are what it adds.
