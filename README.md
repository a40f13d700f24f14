# Parcel ingestion and sort tracking, modelled in Dafny

This project models the core of the Trizee backend, a parcel sorting service for a delivery hub.

- **Carrier files become parcels.** Spreadsheets from the Gofo and Cainiao carriers, and "Spoke" route sheets, are turned into parcel rows of a sorting **day** (journée). Each parcel is bound to one driver's **route** (tournée).
- **Sorters scan parcels.** Scanning happens online, or offline in a batch that is synchronised later.
- **Days have a lifecycle.** A day is open (`en_cours`) until it is closed (`terminee`), and scanning needs an open day for today.
- **Access is gated.** Two middlewares decide who may call an endpoint.

The database is an in-memory store. `Store.Tables` is a snapshot of every table, one sequence of rows per table in insertion order, plus a counter that hands out fresh ids. `Store.Database` is the mutable class that holds the same fields.

Two query operators are modelled the way the backend relies on them:
- `.single()` yields a row only when exactly one row matches (`Seqs.Single` over `Seqs.Select`).
- `.ilike` on trackings is equality after ASCII lower-casing.

Each endpoint is written twice:
- a function from a snapshot to the new snapshot and the response;
- a method on the `Database` whose `ensures` ties the new state and the response to that function.

The properties are proved as lemmas about the functions. The spreadsheet, Spoke and address parsers work on input that is already decoded: rows of cells, records keyed by header text, or the extracted text of a PDF. Each regular expression is a hand-written matcher.

Modules and files:

| module | file | models |
|---|---|---|
| `Wrappers` | `wrappers.dfy` | `Option`, `Result` |
| `Text` | `text.dfy` | the string helpers the code uses: ASCII case folding, `trim`, `indexOf`, `split`/`join`, character classes |
| `Seqs` | `seqs.dfy` | order-preserving filters (`Collect`, `Select`, `Reject`), `.single()`, uniqueness of a key |
| `ExcelParsers` | `excel_parsers.dfy` | `parseGofoExcel`, `parseCainiaoExcel`, `parseGenericExcel`, `parseExcel` |
| `SpokeParsers` | `spoke_parsers.dfy` | `parseSpokePDF` (alias `parseSpokeMultiPDF`), `parseSpokeSinglePDF` |
| `AddressParser` | `address_parser.dfy` | `parseAdresse` |
| `Store` | `store.dfy` | the tables, the queries, the writes, the `Database` class |
| `Drivers` | `drivers.dfy` | `findByName` |
| `ImportsController` | `imports_controller.dfy` | `processExcelImport` (behind `importGofo` and `importCainiao`), `importSpoke` |
| `ScansController` | `scans_controller.dfy` | `scan`, `sync` |
| `TourneesController` | `tournees_controller.dfy` | Spoke tracking extraction, `importSpoke`, `createWithSpoke`, `remove`, the export sheet |
| `JourneesController` | `journees_controller.dfy` | `create`, `today`, `update`, `terminer` |
| `Roles` | `roles.dfy` | `roles`, `checkSousTraitantAccess` |

Dates and times are parameters: `today`, `tomorrow`, and the `now` of a scan. Integers are unbounded. The one place where the source's integers are bounded, `parseInt` on long digit runs, is listed under "Left out".

## Model

| member | source | states |
|---|---|---|
| `ExcelParsers.CleanTracking` | backend/src/services/importService.js:33-37 | A tracking is kept exactly when the cell is truthy and its trimmed text has at least 5 characters. A kept code is trimmed, upper-cased, at least 5 long, and equal to the trimmed cell text up to case. |
| `ExcelParsers.GofoRow` | backend/src/services/importService.js:25-46 | A Gofo row is kept exactly when its `data.waybillNo` cleans to a tracking. The kept record carries that clean tracking, the `data.toStreet` and `data.toCity` texts (null when falsy), and never a postcode. |
| `ExcelParsers.CainiaoRow` | backend/src/services/importService.js:78-99 | A Cainiao row is kept exactly when its `Tracking No.` cleans to a tracking, and the record carries that clean tracking. The address and city are the `Receiver's Detail Address` and `Receiver's City` texts (null when falsy). The postcode is the trimmed `Sort Code`, or null when that cell is falsy. |
| `ExcelParsers.GenericRow` | backend/src/services/importService.js:172-188 | A positional row is kept exactly when it is non-empty and column 0 cleans to a tracking. Address, city and postcode are the trimmed columns 1-3, or null. |
| `ExcelParsers.ParseGofoExcel` | backend/src/services/importService.js:10-55 | The loop returns the kept rows in order, and every record has a clean tracking and no postcode. |
| `ExcelParsers.ParseCainiaoExcel` | backend/src/services/importService.js:63-108 | The loop returns the kept rows in order, and every record has a clean tracking. |
| `ExcelParsers.ParseGenericExcel` | backend/src/services/importService.js:157-197 | Fewer than 2 rows give nothing. Otherwise the loop from row 1 returns the kept rows in order, each with a clean tracking. |
| `ExcelParsers.GenericSkipsHeader` | backend/src/services/importService.js:165-189 | Every generic record comes from a row with index 1 or more, in strictly increasing row order. Every kept row after the header appears. |
| `Seqs.CollectIndices` | backend/src/services/importService.js:25-46 | A row filter keeps the surviving rows in input order. Each output comes from a distinct, increasing input position whose row yields it, and every position that yields something is used. |
| `ExcelParsers.DetectFormat` | backend/src/services/importService.js:128-145 | Gofo exactly when some lower-cased header contains `waybillno`, even when `tracking no` is present. Cainiao exactly when none does and some header contains `tracking no`. |
| `ExcelParsers.ParseExcel` | backend/src/services/importService.js:115-151 | Fewer than 2 rows give an empty result tagged unknown. Otherwise the format is the header classification, and the records are those of the Gofo, Cainiao or generic parser accordingly, all with clean trackings. |
| `SpokeParsers.RangeAt` | backend/src/services/importService.js:213-232 | A `(NAME a-b)` group matched at a position ends after it, inside the text, with a well-formed name and bounds. |
| `SpokeParsers.RangeAtText` | backend/src/services/importService.js:213-232 | Round trip: the matched text is exactly `(` name, a non-empty run of whitespace, first number, `-`, second number, `)`, built from the captured parts. |
| `SpokeParsers.RangeTextMatches` | backend/src/services/importService.js:213-232 | Converse: wherever the text of a well-formed group with at least one space stands, the group matches there, with exactly those captures and that end. |
| `SpokeParsers.RangeAtInside` | backend/src/services/importService.js:213 | No `(` occurs inside a match after its first character. |
| `SpokeParsers.FindRanges` | backend/src/services/importService.js:213-232 | Every header group found is well formed. |
| `SpokeParsers.FindRangesLocated` | backend/src/services/importService.js:213-232 | The groups found stand at positions that go left to right, each at or after the end of the one before. A group matches at a position exactly when that position is one of them, so none is missed and none is invented. |
| `SpokeParsers.NoParenNoRanges` | backend/src/services/importService.js:213-217 | A text without `(` has no header group. |
| `SpokeParsers.FirstRangeFrom` | backend/src/services/importService.js:259-268 | The range found is the first, in header order, that contains the stop number. None means no range contains it. |
| `SpokeParsers.FindRange` | backend/src/services/importService.js:259-268 | The search loop returns the index of the first range holding the stop number, or the number of ranges when there is none. |
| `SpokeParsers.LineHead` | backend/src/services/importService.js:241-245 | A line splits exactly when group 2 has a start (`RestStart`). The number is the value of the leading digits. The rest is the longest run of non-line-break characters from that start, which is non-empty and ends at a line break or the end. |
| `SpokeParsers.RestStart` | backend/src/services/importService.js:241 | Group 2 of `^(\d+)\s+(.+)` starts where the greedy `\s+` gives way. It needs at least one digit and one whitespace first. The start is the last position, after the first whitespace and at most just past the whitespace run, whose character `.` accepts. None means there is no such position, and the line does not match. |
| `SpokeParsers.FirstTrackingFrom` | backend/src/services/importService.js:248 | The position found is the leftmost occurrence of a Spoke tracking (2 letters, `FR`, 13 digits, 2 letters, any case). None means there is no occurrence. |
| `SpokeParsers.IndexOfIsMatchPosition` | backend/src/services/importService.js:254 | `indexOf` of the matched tracking text returns the match position itself, so the address is cut at the tracking. |
| `SpokeParsers.UpperTracking` | backend/src/services/importService.js:251 | The upper-cased match is still a Spoke tracking. |
| `SpokeParsers.StripTime` | backend/src/services/importService.js:256 | The result is a prefix of the text. It is shorter exactly when a trailing `H:MM`/`HH:MM` token starts where it ends, and no earlier position starts one. |
| `SpokeParsers.ParseLine` | backend/src/services/importService.js:241-256 | A parsed line has the line's stop number. Its tracking is the first Spoke tracking in the rest, upper-cased, and its address is the text before that tracking, trimmed, with a trailing time removed, then trimmed again. Every numbered line that contains a tracking is parsed. |
| `SpokeParsers.PlaceItem` | backend/src/services/importService.js:259-267 | A line goes to driver `j` exactly when `j` is the first range containing its stop. Its relative position then lies in `[1, fin-debut+1]`. |
| `SpokeParsers.Placed` | backend/src/services/importService.js:241-267 | A placed parcel has a Spoke tracking and a relative position between 1 and the size of the driver's range. |
| `SpokeParsers.LinePlacedOnce` | backend/src/services/importService.js:259-267 | A line goes to at most one driver. A parsed line whose stop lies in some range goes to one. |
| `SpokeParsers.AddStopColis` | backend/src/services/importService.js:259-267 | Adding a line's parcel appends it to the chosen driver only, and leaves the other drivers' lists as they were. |
| `SpokeParsers.AssignLineStep` | backend/src/services/importService.js:238-270 | One turn of the line loop keeps every driver's name and bounds, and appends to driver `j` exactly the parcel the line places there. |
| `SpokeParsers.AssignLinesColis` | backend/src/services/importService.js:236-270 | After the line loop, each driver's parcels are those of the lines placed on it, in line order. |
| `SpokeParsers.PlaceLine` | backend/src/services/importService.js:241-268 | The imperative handling of one line, including the range loop with `break`, equals the line-assignment function. |
| `SpokeParsers.PlaceStop` | backend/src/services/importService.js:259-268 | The range loop with `break` and the push equal adding the parsed stop to the first driver whose range holds it. |
| `SpokeParsers.SpokeSheet` | backend/src/services/importService.js:206-280 | The parse fails exactly when the text has no header group, with the read-error prefix followed by the header message. |
| `SpokeParsers.SpokeSheetDrivers` | backend/src/services/importService.js:220-274 | The result lists, in header order, exactly the header drivers that got at least one parcel. Each keeps its upper-cased name and bounds, and holds the parcels of the lines placed on it. |
| `SpokeParsers.SpokeSheetParcels` | backend/src/services/importService.js:248-267 | Every parcel in the result has a Spoke tracking and a position within its driver's range size. |
| `SpokeParsers.ParseSpokePDF` | backend/src/services/importService.js:206-280 | The imperative parser (header loop, line loop, filter) returns what the sheet function specifies. |
| `SpokeParsers.SingleMatch` | backend/src/services/importService.js:305 | A match is a non-empty digit prefix and a code of at least 8 alphanumerics. |
| `SpokeParsers.SingleMatchShape` | backend/src/services/importService.js:305 | A matching line is digits, then one or more of `.`, `-` and whitespace, then a maximal run of at least 8 alphanumerics. The match is exactly those pieces. |
| `SpokeParsers.SingleLine` | backend/src/services/importService.js:305-315 | An entry's tracking is upper-case, alphanumeric and at least 8 long. |
| `SpokeParsers.SingleLineShape` | backend/src/services/importService.js:305-315 | An entry is the line's leading number and the upper-cased alphanumeric run that follows the separators. |
| `SpokeParsers.SingleMatchComplete` | backend/src/services/importService.js:305-315 | Converse: a line of digits, then separators, then at least 8 alphanumerics always matches. The number is those digits and the code is the whole alphanumeric run, upper-cased. |
| `SpokeParsers.SingleSheetLines` | backend/src/services/importService.js:300-316 | The entries come one per trimmed line that yields one, in line order, and every trimmed line of that shape yields one. |
| `SpokeParsers.ParseSpokeSinglePDF` | backend/src/services/importService.js:294-324 | The loop emits one entry per trimmed non-blank line that matches, in order, and ignores every other line. Each tracking is upper-case and at least 8 long. |
| `AddressParser.ParseAdresse` | backend/src/services/importService.js:329-353 | No postcode exactly when no standalone 5-digit token exists, and then the address is the whole input and the town is null. |
| `AddressParser.ParseAdresseParts` | backend/src/services/importService.js:338-352 | The postcode is the leftmost standalone 5-digit token. The address is the text before it, with surrounding spaces and trailing commas removed. The town is null exactly when only spaces follow; otherwise it is the text after it, with leading commas and spaces and trailing spaces removed. |
| `AddressParser.ParseAdresseAsWritten` | backend/src/services/importService.js:338-352 | The code as written picks the same postcode as the intended function. |
| `AddressParser.AsWrittenAgrees` | backend/src/services/importService.js:343-349 | When the five digits do not occur before the token, `indexOf` finds the token and the code as written equals the intended function. |
| `AddressParser.AsWrittenCutsEarly` | backend/src/services/importService.js:343-349 | On `123456 12345` the code as written gives an empty address and town `6 12345`. The intended result is address `123456` with no town. |
| `Drivers.FindByName` | backend/src/controllers/chauffeursController.js:279-324 | A returned driver is in the list, active, and of the subcontractor when one is given. With no candidate the result is null. |
| `Drivers.FirstFrom` | backend/src/controllers/chauffeursController.js:298-317 | Each pass returns the first driver, in list order, that it accepts. None means no driver is accepted. |
| `Drivers.ExactPassFirst` | backend/src/controllers/chauffeursController.js:298-306 | The first candidate whose "prenom nom" or "nom prenom" (null printed as `null`) equals the search string is the result. |
| `Drivers.PartialPassFirst` | backend/src/controllers/chauffeursController.js:309-319 | When no candidate matches exactly, the first whose family name or first name (null as empty) equals the search string is the result, and null when none does. |
| `Drivers.ExactBeatsPartial` | backend/src/controllers/chauffeursController.js:298-317 | Whenever some candidate matches exactly, the result matches exactly. |
| `Drivers.NoneMeansNoMatch` | backend/src/controllers/chauffeursController.js:295-319 | A null result means no active candidate matches in either pass. |
| `Store.Database.InsertJournee` | backend/src/controllers/journeesController.js:180-189 | Appends an open day with a fresh id. Nothing else changes. |
| `Store.Database.InsertTournee` | backend/src/controllers/importsController.js:352-361 | Appends a route with a fresh id. Nothing else changes. |
| `Store.Database.InsertColis` | backend/src/controllers/importsController.js:378-389 | Appends a parcel with a fresh id and no stop. Nothing else changes. |
| `Store.Database.InsertScan` | backend/src/controllers/scansController.js:134-141 | Appends a scan with a fresh id. Nothing else changes. |
| `Store.Database.InsertImport` | backend/src/controllers/importsController.js:408-419 | Appends an import record with a fresh id. Nothing else changes. |
| `Seqs.Single` | backend/src/controllers/importsController.js:370-377 | `.single()` yields a row exactly when one row matches. |
| `Seqs.Select` | backend/src/controllers/importsController.js:370-375 | `.eq`/`.ilike` select exactly the rows whose key equals the value, and only rows of the table. |
| `ImportsController.DayFor` | backend/src/controllers/importsController.js:310-323 | The day of the date is reused unchanged, or an open day is appended. Either way a day with the returned id has that date, and only the days and the counter change. |
| `ImportsController.DayForKeeps` | backend/src/controllers/importsController.js:310-323 | With at most one day per date, that still holds afterwards, and the date query finds the returned day. |
| `ImportsController.RouteFor` | backend/src/controllers/importsController.js:344-362 | The (day, driver) route is reused unchanged, or a route with count 0 and `spoke_importe` false is appended. It carries the returned id. |
| `ImportsController.RouteForKeeps` | backend/src/controllers/importsController.js:344-362 | With at most one route per (day, driver), that still holds, and the query finds the returned route. |
| `ImportsController.ImportAll` | backend/src/controllers/importsController.js:368-394 | Imported plus skipped equals the number of parcels. Only the parcels and the counter change. As many rows as were imported are appended after the existing ones, all unsorted rows of this route, day and source, with no stop. |
| `ImportsController.ImportAllRows` | backend/src/controllers/importsController.js:368-394 | With unique trackings per day, the appended rows carry, in file order, the tracking, address, town and postcode of exactly those parcels whose tracking neither the day nor an earlier parcel of the file held, ignoring case. |
| `ImportsController.ImportOneSkips` | backend/src/controllers/importsController.js:370-393 | A parcel is skipped exactly when the day already holds a parcel with the same tracking ignoring case, whatever its route. Uniqueness of trackings per day is kept. |
| `ImportsController.ImportAllCovers` | backend/src/controllers/importsController.js:368-394 | After the loop every tracking of the file is present in the day, so a tracking repeated in the file is inserted once. Uniqueness is kept. |
| `ImportsController.ImportAllPresent` | backend/src/controllers/importsController.js:368-394 | When every tracking is already in the day, the loop imports nothing, skips everything, and writes nothing. |
| `ImportsController.ImportParcels` | backend/src/controllers/importsController.js:365-394 | The imperative loop and its counters equal the import function. |
| `ImportsController.Recount` | backend/src/controllers/importsController.js:396-405 | The route's count is set to the number of parcels bound to it, not incremented. Nothing but the routes changes. |
| `ImportsController.RecountKeeps` | backend/src/controllers/importsController.js:396-405 | Recounting keeps one route per (day, driver) and keeps each route's id. |
| `ImportsController.LastIndexOf` | backend/src/controllers/importsController.js:327 | The position found is the last occurrence of the character. None means it does not occur. |
| `ImportsController.StemOfNamedFile` | backend/src/controllers/importsController.js:326-327 | The driver name taken from `NAME.ext` is `NAME`. |
| `ImportsController.StemDropsDirectory` | backend/src/controllers/importsController.js:327 | A directory prefix does not change the name taken from the file. |
| `ImportsController.ExcelImport` | backend/src/controllers/importsController.js:305-436 | Drivers, scans and users are never written. A failure is an `IMPORT_ERROR` that leaves everything but the days unchanged. A success needs a non-empty file and reports its total and type. |
| `ImportsController.ExcelUnknownDriver` | backend/src/controllers/importsController.js:316-334 | A file naming no active driver fails with that name in the message. The day has already been created, and no route, parcel or import record is written. |
| `ImportsController.ExcelEmptyFile` | backend/src/controllers/importsController.js:336-341 | An empty parse result fails with "Fichier vide ou format invalide" before any route is created. Only the day is written. |
| `ImportsController.ExcelImportCounts` | backend/src/controllers/importsController.js:305-436 | On success: imported plus skipped equals the file total; the day, driver and date are reported; one import record of that type with the imported count is appended; imported parcels are appended; other tables are unchanged. |
| `ImportsController.ExcelForFacts` | backend/src/controllers/importsController.js:343-435 | After the route step the (day, driver) route exists. Its count equals its parcels, all new parcels are unsorted rows of that route, and the summary fields and the import record match. |
| `ImportsController.ExcelKeeps` | backend/src/controllers/importsController.js:305-436 | An Excel import keeps one day per date, one route per (day, driver), and one parcel per (day, tracking ignoring case). |
| `ImportsController.ExcelRerun` | backend/src/controllers/importsController.js:368-394 | Importing the same file a second time imports 0, skips every parcel, leaves the parcels and the routes (their declared counts included) unchanged, and reports the same day and driver. |
| `ImportsController.SecondRun` | backend/src/controllers/importsController.js:368-394 | When every tracking is already in an existing day and route, an import adds no parcel and counts all as skipped. The only route change is the recount of that route. |
| `ImportsController.ProcessExcelImport` | backend/src/controllers/importsController.js:305-436 | The imperative import (day, driver, parse check, route, parcel loop, recount, import record) equals the Excel import function. |
| `ImportsController.ImportGofo` | backend/src/controllers/importsController.js:57-78 | No file gives `NO_FILE` with no write. Otherwise it runs the Excel import on the Gofo records. |
| `ImportsController.ImportCainiao` | backend/src/controllers/importsController.js:85-106 | No file gives `NO_FILE` with no write. Otherwise it runs the Excel import on the Cainiao records. |
| `ImportsController.ToNewParcels` | backend/src/controllers/importsController.js:380-388 | Each parsed record gives one parcel with the same tracking, in order. |
| `ImportsController.ImportDriver` | backend/src/controllers/importsController.js:157-235 | One Spoke driver's outcome fits it: not found exactly when the name matches no active driver; otherwise the driver's id, the sheet count and at most that many imported. Only routes, parcels and the counter change. |
| `ImportsController.ImportDriverFacts` | backend/src/controllers/importsController.js:157-231 | For a known driver, the parcels inserted are appended after the existing ones, as many as the outcome reports. Each is an unsorted `spoke` row of that day and of the driver's (day, driver) route. Afterwards that route's `nb_colis` equals the number of its parcels. |
| `ImportsController.DriverStep` | backend/src/controllers/importsController.js:157-235 | Each turn appends one outcome that fits the driver, and adds its imported count to the total. |
| `ImportsController.ImportDriversFacts` | backend/src/controllers/importsController.js:153-236 | One outcome per sheet driver, in order, each fitting its driver. A missing driver does not stop the others. The total is the sum of the imported counts, and only routes, parcels and the counter change. |
| `ImportsController.SpokeNoHeader` | backend/src/controllers/importsController.js:142-151 | A text without a driver header fails with the parser's message. Only the day is written. |
| `ImportsController.SpokeImport` | backend/src/controllers/importsController.js:113-268 | `NO_FILE` exactly without a file. Every failure leaves everything but the days unchanged. A success reports the file name and the date. |
| `ImportsController.SpokeEmptyParse` | backend/src/controllers/importsController.js:143-151 | A sheet that yields no driver fails with `PARSE_ERROR`. Only the day is written. |
| `ImportsController.SpokeImportFacts` | backend/src/controllers/importsController.js:145-258 | On success there is one outcome per sheet driver, each fitting, and the total is their sum. Exactly one import record of type `spoke` is appended, with no driver, that total, the user and the day. Drivers, scans and users are unchanged. |
| `ImportsController.SpokeKeeps` | backend/src/controllers/importsController.js:113-268 | A Spoke import keeps one day per date, one route per (day, driver), and one parcel per (day, tracking). |
| `ImportsController.ImportSpoke` | backend/src/controllers/importsController.js:113-268 | The imperative Spoke import equals the Spoke import function. |
| `ImportsController.ImportSpokeDrivers` | backend/src/controllers/importsController.js:153-236 | The imperative driver loop and its total and results equal the driver-loop function. |
| `ScansController.Present` | backend/src/controllers/scansController.js:149-151 | The address parts kept are non-empty fields of the list, at most as many as there were. |
| `ScansController.PresentInOrder` | backend/src/controllers/scansController.js:149-151 | Every present, non-empty field is kept and nothing else. They keep the order of the fields (`adresse`, `code_postal`, `ville`): the k-th part is the value of an increasing field position. |
| `ScansController.FullAddressAll` | backend/src/controllers/scansController.js:149-151 | With street, postcode and town present, the address is `street, postcode, town`. |
| `ScansController.FullAddressStreetOnly` | backend/src/controllers/scansController.js:149-151 | With only the street present, the address is the street. |
| `ScansController.ScanResult` | backend/src/controllers/scansController.js:7-175 | A scan writes only parcels, scans and the counter. It adds one parcel exactly on the unknown path and one scan exactly on the first-scan path. |
| `ScansController.ScanRefusals` | backend/src/controllers/scansController.js:12-35 | `MISSING_TRACKING` exactly for an empty tracking. `NO_ACTIVE_DAY` exactly when no open day of today is found. Neither writes. |
| `ScansController.ScanDispatch` | backend/src/controllers/scansController.js:55-165 | With a tracking and an active day, no parcel of the day gives the unknown path. A parcel with a scan gives the duplicate, and a parcel without one gives the first scan. Both report that parcel's id. |
| `ScansController.ScanUnknown` | backend/src/controllers/scansController.js:66-85 | An unknown tracking appends exactly one parcel to the active day: upper-cased, status and source `inconnu`, no route. The response carries the upper-cased tracking. |
| `ScansController.ScanDuplicate` | backend/src/controllers/scansController.js:88-131 | An already-scanned parcel keeps its one scan row, overwritten with this user, time and mode. The response reports the previous time and scanner. No scan or parcel is added, every other scan row is unchanged, and the scans per parcel are unchanged. |
| `ScansController.ScanFirst` | backend/src/controllers/scansController.js:133-165 | A first scan appends exactly one scan and sets exactly that parcel to `trie`. Nothing else changes. |
| `ScansController.ScanKeepsOneScan` | backend/src/controllers/scansController.js:88-146 | A scan keeps at most one scan per parcel. |
| `ScansController.UnknownThenSorted` | backend/src/controllers/scansController.js:38-146 | The lookup ignores status, so the parcel recorded as unknown is found by the next scan of the day. That scan takes the first-scan path and marks it `trie`. |
| `ScansController.ScanTracking` | backend/src/controllers/scansController.js:7-175 | The imperative scan equals the scan function. |
| `ScansController.SyncOne` | backend/src/controllers/scansController.js:314-352 | Each entry increments exactly one counter, and no counter decreases. `inconnus` grows exactly when no parcel of any day has the tracking. `doublons` grows exactly when that parcel already has a scan, and `synchronises` exactly when it has none. Unknown and duplicate entries write nothing. A synchronised entry appends one offline scan of that parcel by this user, at the client's time when given and at `now` otherwise, and sets that parcel to `trie`. |
| `ScansController.SyncAll` | backend/src/controllers/scansController.js:303-353 | The three counters sum to the number of entries. Only scans, parcel statuses and the counter change. |
| `ScansController.SyncAllScans` | backend/src/controllers/scansController.js:337-352 | The sync appends exactly one scan per synchronised entry, after the existing scans, and each is offline and by this user. |
| `ScansController.SyncKeepsOneScan` | backend/src/controllers/scansController.js:325-345 | A sync keeps at most one scan per parcel. |
| `ScansController.SyncResult` | backend/src/controllers/scansController.js:291-363 | `INVALID_DATA` exactly when the list is missing. Otherwise `total` is the list length and equals the sum of the three counters. |
| `ScansController.SyncEntryScan` | backend/src/controllers/scansController.js:314-352 | The imperative handling of one entry equals one step of the sync. |
| `ScansController.Sync` | backend/src/controllers/scansController.js:286-373 | The imperative sync equals the sync function. |
| `TourneesController.TrackingEndAt` | backend/src/controllers/tourneesController.js:302 | A tracking starting at a position ends at least 14 characters later, inside the text. |
| `TourneesController.TrackingEndShape` | backend/src/controllers/tourneesController.js:302 | The text between is 2 letters, `FR`, 10 to 20 digits, then an optional `HD`, in any case. |
| `TourneesController.NextMatch` | backend/src/controllers/tourneesController.js:302-311 | The next match is the leftmost tracking at or after the search position. A `;` right after it is consumed but not part of it. No match means no tracking remains. |
| `TourneesController.ExtractedShape` | backend/src/controllers/tourneesController.js:299-311 | Every extracted tracking occurs in the text at increasing, non-overlapping positions, in text order, with the tracking shape. |
| `TourneesController.Numbered` | backend/src/controllers/tourneesController.js:305-310 | The orders are the trackings numbered 1, 2, …, n consecutively. |
| `TourneesController.OrdersFromNumbered` | backend/src/controllers/tourneesController.js:305-311 | The orders built from a start number are the extracted trackings numbered consecutively from it. |
| `TourneesController.ExtractTrackingOrders` | backend/src/controllers/tourneesController.js:299-311 | The `regex.exec` loop returns the extracted trackings in text order, numbered from 1. |
| `TourneesController.ApplyOrders` | backend/src/controllers/tourneesController.js:316-328 | The update loop keeps the rows. Each row differs at most in its stop and, when rebinding, its route. |
| `TourneesController.UpdatedCounts` | backend/src/controllers/tourneesController.js:316-328 | The updated count is the number of orders whose tracking matched some row, so it is at most the number of orders. |
| `TourneesController.UntargetedUnchanged` | backend/src/controllers/tourneesController.js:316-328 | A row no order targets is unchanged. |
| `TourneesController.LaterOrderWins` | backend/src/controllers/tourneesController.js:473-484 | A targeted row ends with the stop of the last order naming its tracking, and on rebinding it ends on the new route. |
| `TourneesController.RouteSpokeImport` | backend/src/controllers/tourneesController.js:263-352 | It fails exactly without a file or without the route, and then writes nothing. Only parcels and routes change, with their number kept. A success reports the route and an updated count at most the trackings found. |
| `TourneesController.RouteSpokeRefusals` | backend/src/controllers/tourneesController.js:268-289 | No file gives `MISSING_FILE` and an unknown route gives `NOT_FOUND`. Neither writes. |
| `TourneesController.RouteSpokeFacts` | backend/src/controllers/tourneesController.js:298-343 | Only the stops of parcels change. A parcel of another route, or one whose tracking no order names exactly, is unchanged. The count of trackings found is reported. The updated count is at most that. The routes table is the old one with only route `rid` marked `spoke_importe`, even when nothing matched. |
| `TourneesController.ImportRouteSpoke` | backend/src/controllers/tourneesController.js:263-352 | The imperative route Spoke import equals its function. |
| `TourneesController.ApplyTrackingOrders` | backend/src/controllers/tourneesController.js:316-328 | The imperative update loop equals the order function and changes only the parcels. |
| `TourneesController.SpokeRouteFor` | backend/src/controllers/tourneesController.js:404-436 | An existing (day, driver) route is reused: its id is returned and the routes table changes only by marking it `spoke_importe`. Otherwise one route is appended with count 0, marked. Only the routes and the counter change. |
| `TourneesController.CreateWithSpoke` | backend/src/controllers/tourneesController.js:358-514 | A failure writes nothing. Drivers, scans, users and imports are never written. A success keeps the number of parcels and reports an updated count at most the trackings found. |
| `TourneesController.CreateWithSpokeRefusals` | backend/src/controllers/tourneesController.js:363-384 | `MISSING_FIELDS` exactly when the driver id is absent or empty, or the file or the date is missing. A driver id `"0"` is present, as the multipart string is truthy. Then `CHAUFFEUR_NOT_FOUND` exactly when no driver has that id. Neither writes. |
| `TourneesController.CreateWithSpokeRoute` | backend/src/controllers/tourneesController.js:386-495 | On success the day is found or created and the route is the driver's route on that day, marked, with its count equal to its parcels. An existing route of that driver on that day is the one returned, and no route is added. Otherwise exactly one is added. Every other route is unchanged. Only days, routes, parcels and the counter change, and no parcel is added or removed. |
| `TourneesController.CreateWithSpokeFacts` | backend/src/controllers/tourneesController.js:471-484 | A parcel of the day whose tracking the sheet names is moved to the route, with the stop of the tracking's last occurrence. |
| `TourneesController.CreateWithSpokeUntouched` | backend/src/controllers/tourneesController.js:473-484 | A parcel of another day, or one whose tracking the sheet does not name, is left exactly as it was, and no parcel is added or removed. |
| `TourneesController.CreateRouteWithSpoke` | backend/src/controllers/tourneesController.js:358-514 | The imperative `createWithSpoke` equals its function. |
| `TourneesController.RemoveRoute` | backend/src/controllers/tourneesController.js:520-573 | An unknown route is refused with no write. Otherwise no parcel references the route and the route is gone. Every other parcel and route remains, no parcel or route is added, and other tables are unchanged. |
| `TourneesController.DeleteRoute` | backend/src/controllers/tourneesController.js:520-573 | The imperative delete equals its function. |
| `TourneesController.StatusLabel` | backend/src/controllers/tourneesController.js:236 | 'Trié' exactly for `trie`, 'En attente' for every other status. |
| `TourneesController.ExportSheet` | backend/src/controllers/tourneesController.js:229-238 | A header row and one five-column row per parcel of the route. Each row carries the parcel's tracking and reads 'Trié' exactly when it is sorted. |
| `TourneesController.ExportName` | backend/src/controllers/tourneesController.js:208-219 | The file name part is 'export' when the route is missing. When the route has a driver id and the driver is found, it is the trimmed `prenom_nom`. |
| `JourneesController.CreateDay` | backend/src/controllers/journeesController.js:159-206 | `ALREADY_EXISTS` with no write exactly when a day of the date (today when absent) exists. Otherwise exactly one day is appended with a fresh id, and nothing else changes. |
| `JourneesController.CreateDefaults` | backend/src/controllers/journeesController.js:161-163 | With no fields given, the new day is today's, open, with deadline '22:30:00' active. |
| `JourneesController.CreateOpensDay` | backend/src/controllers/journeesController.js:165-189 | Creation keeps one day per date, and the created day is then the open day the scan lookup finds. |
| `JourneesController.Stats` | backend/src/controllers/journeesController.js:67-85 | The total counts the day's parcels that are not `inconnu`, the sorted count those that are `trie`, and the unknown count those that are `inconnu`. |
| `JourneesController.StatusSplit` | backend/src/controllers/journeesController.js:67-85 | The non-unknown parcels split into sorted and unsorted. |
| `JourneesController.RemainingAreUnsorted` | backend/src/controllers/journeesController.js:85 | `colis_restants` is never negative: it is the number of unsorted parcels of the day. |
| `JourneesController.Today` | backend/src/controllers/journeesController.js:38-116 | The day of today is returned unchanged, or created open with the default deadline. The statistics are those of the returned day. |
| `JourneesController.TodayFreshStats` | backend/src/controllers/journeesController.js:49-85 | A freshly created day has all-zero statistics. |
| `JourneesController.UpdateDay` | backend/src/controllers/journeesController.js:212-249 | Only the days change, and their number is kept. The only error is `NOT_FOUND`. |
| `JourneesController.UpdateOnlySupplied` | backend/src/controllers/journeesController.js:217-234 | Only `deadline` and `deadline_active` of the day with that id change, and only the fields supplied. An unknown id writes nothing and is refused. |
| `JourneesController.Terminer` | backend/src/controllers/journeesController.js:255-288 | Only the days change, and their number is kept. The only error is `NOT_FOUND`. |
| `JourneesController.TerminerOnlyStatus` | backend/src/controllers/journeesController.js:259-272 | Only the status of the day with that id changes, to `terminee`. An unknown id writes nothing and is refused. |
| `JourneesController.TerminerClosesDay` | backend/src/controllers/scansController.js:22-35 | With one day per date, after `terminer` the scan lookup finds no open day for that date, so scanning is refused. |
| `JourneesController.CreateJournee` | backend/src/controllers/journeesController.js:159-206 | The imperative create equals its function. |
| `JourneesController.TodayJournee` | backend/src/controllers/journeesController.js:38-116 | The imperative find-or-create equals its function. |
| `JourneesController.UpdateJournee` | backend/src/controllers/journeesController.js:212-249 | The imperative update equals its function. |
| `JourneesController.TerminerJournee` | backend/src/controllers/journeesController.js:255-288 | The imperative close equals its function. |
| `Roles.RoleGate` | backend/src/middleware/roles.js:5-27 | 401 exactly without a user, checked first. 403 exactly for a user whose role is not allowed. Pass exactly for a user whose role is allowed. |
| `Roles.RoleGateMonotone` | backend/src/middleware/roles.js:17-25 | Allowing more roles never refuses a request that fewer roles let through. |
| `Roles.RequestedId` | backend/src/middleware/roles.js:42 | The route parameter when present and non-empty, otherwise the body's `sous_traitant_id`. |
| `Roles.SousTraitantAccess` | backend/src/middleware/roles.js:33-55 | It fails exactly when no user is attached, and never answers 401. |
| `Roles.AdminPasses` | backend/src/middleware/roles.js:36-38 | An admin always passes. |
| `Roles.ForbiddenExactly` | backend/src/middleware/roles.js:41-53 | 403 exactly for a subcontractor whose requested id is present and differs from its own. Everyone else passes. |
| `Roles.OwnDataPasses` | backend/src/middleware/roles.js:44 | A subcontractor asking for its own id passes. |

## Left out

- **Decoding.** `XLSX.read`, `sheet_to_json`, `pdfParse`, `generateExcel` and the export's `XLSX.write` buffer and headers are foreign libraries. Parsers take decoded rows, records or text. `TourneesController.ExportSheet` models the rows of the export sheet, and `ExportName` the file name part.
- **Cell values.** They are blank, string, integer or boolean. Floating-point cells, and how `String()` prints them, are not modelled.
- **Regular expressions.** They are hand-written matchers.
  - Case folding is ASCII only.
  - `\s` and `trim` use JavaScript's whitespace and line-terminator set (`Text.IsSpace`).
  - `.ilike` is case-insensitive equality, without `%`/`_` wildcards.
- **The store.** It always succeeds. Supabase errors, the `throw` of a failed insert, and the 500 responses of the `catch` blocks are not modelled.
  - `findByName` returning null from its `catch` is therefore not modelled either.
  - The `remove` path that stops after deleting parcels but before deleting the route is not modelled.
- **Concurrency.** Requests run one at a time. The check-then-insert races between requests are outside a sequential model.
- **Responses.** HTTP status codes and response shapes are reduced to an outcome datatype carrying the key fields.
- **Percentages.** The float percentage of `today` (`Math.round`) is left out. The integer counts are modelled.
- **Time.** `new Date()` becomes the parameters `today`, `tomorrow` and `now`. One sync uses a single `now` for every entry without a client time.
- **Tracking clean-up.** In tracking extraction, `.replace(/;$/, '')` and `.trim()` on the matched tracking change nothing, because a match never ends with `;` or a space. They are not written out.
- **`findByName`.** The trimmed and split `parts` value is computed but never used, so it is not modelled.
- **Request bodies.** A JSON `null` and an absent field are not told apart: a missing option is `None`. Request ids and the user's `sous_traitant_id` are strings. A number sent in the body, which `!==` would find unequal to a string id, is not modelled. The multipart `chauffeur_id` of `createWithSpoke` is a string: `None` stands for an absent or empty one, and `Some(n)` for the digits of `n`, so `"0"` is present. A string that is not a number is not modelled.
- **Fields not stored.** The Spoke import stores only tracking and address. The driver's town and postcode, and each parcel's `ordre_dans_tournee`, are parsed but not written, as in the source.
- **Deleting a route.** `remove` deletes a route's parcels but not their scans. The model keeps those scans too.
- **Display strings.** `RouteDriverName`, `ScannerName` and `DriverLabel` interpolate a null first name as `null` or `''`, as the source does. They have no contract of their own, and the scan lemmas state them by name.
- **Integer parsing.** `parseInt` of the stop numbers and Spoke ranges (importService.js:227-228, 244, 308) returns a double, so a digit run above 2^53 is rounded. The model reads digit runs exactly.
- **The import date.** `req.body.date || req.query.date || tomorrow` is resolved by the caller. The import endpoints take the resolved date.
- **Sheets.** `ExcelParsers.Sheet` holds the grid and the keyed records as two inputs. The model does not tie them to one decoded sheet, so the two views need not agree.
- **Read-only endpoints.** The list and get endpoints of days, routes, imports and scans only read.

## Findings

| source | as written | input that shows it | evidently intended | confidence | as-written member | corrected member |
|---|---|---|---|---|---|---|
| backend/src/services/importService.js:343-349 | the street and the town are cut at `indexOf(code_postal)`, the first occurrence of the five digits anywhere in the text, not at the position where `\b\d{5}\b` matched | `123456 12345` gives address `""` and town `6 12345` | cut around the matched postcode: address `123456`, no town | not executed | `AddressParser.AsWrittenCutsEarly` | `AddressParser.ParseAdresseParts` |
