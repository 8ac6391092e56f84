# Supply-chain dashboard: record store and shipment lists

This project models the core of a supply-chain dashboard in Dafny. The core has two parts.

The first part is the server's in-memory store, `MemStorage`. It is modelled by the class `Storage.MemStorage`:

- Four tables, for suppliers, warehouses, stores and shipments. Each table is a map from an integer id to a record, and each has an auto-increment counter that starts at 1.
- A list of monthly shipment trends with its own counter.
- A KPI record. Each new shipment recomputes it.
- A constructor that loads fixed sample data.

The class invariant `Valid()` says:

- Each table's keys are exactly the ids 1 .. counter - 1, and every record carries its own key as its id.
- The trend list holds ids 1, 2, ... in order.
- Once a KPI record exists, it equals the figures of the current shipments.

Listing a table gives its records in ascending id order. That is the insertion order, which is the order a JavaScript `Map` iterates in.

The second part is the client's shipment views:

- `ShipmentTable`: five rows per page. Its handlers clamp with `Math.max` and `Math.min`, and it disables buttons at the ends.
- The Shipments page and the dashboard's `RecentShipments` list. Each does a case-insensitive search, sorts newest first, and pages with guarded Previous/Next handlers. The page shows ten rows per page, the dashboard list five.
- The status label formatter and the badge colour switches.
- The chart's ordering of trend rows by calendar month.

A component's page state is a class with a `currentPage` field, which its handler methods update. The list computations are functions over sequences. They are proved against separate specifications:

- The filter keeps exactly the matching rows, counted as a multiset.
- The sort returns a permutation in order, and it is stable.
- The pages partition the list.
- The label agrees, position by position, with a description read off the status.

Modules:

- `Text`: ASCII case mapping, substring search, split and join.
- `Sequences`: filter and a stable sort by an integer key.
- `Paging`: page count, `slice` with JavaScript's index rules, the "Showing" range, and the guarded handlers.
- `StatusDisplay`: status labels and badge classes.
- `Schema`: the shipment row the list pages read.
- `Storage`: the store.
- `ShipmentSearch`: the search and sort shared by both lists.
- `ShipmentTableView`, `ShipmentsPage`, `RecentShipmentsPanel`, `ShipmentChart`: one module per component.

Two versions of the data shapes meet in this code. The store (server/storage.ts) writes shipments with `shipmentId`, `product`, coordinate `source`/`destination` and hyphenated statuses (`on-time`, `in-transit`, `delayed`). `ShipmentTable` reads that shape. The Shipments page and the dashboard list read the shape in shared/schema.ts instead: `productId`, text `source`/`destination`, and the `ShipmentStatus` values `processing`, `in_transit`, `delivered` and `delayed`. The model follows each file as written. `StatusDisplay.HyphenatedStatusOnUnderscorePages` shows what a hyphenated status string would display on those pages: a one-piece label and the gray badge. A whole store-shaped record never gets that far on those pages; see "## Left out".

## Model

| member | source | states |
|---|---|---|
| Storage.NextIdIsFresh | server/storage.ts:182 | under the table invariant, the id the counter hands out is not a key yet, and every key is below it |
| Storage.StoreKeepsIdsDense | server/storage.ts:182-184 | storing under the counter and incrementing it keeps the keys exactly 1 .. counter - 1 and adds one entry |
| Storage.ValuesById | server/storage.ts:174 | a table's listing has one value per id 1 .. n, and position i holds the record with id i + 1 (insertion order) |
| Storage.MemStorage.Suppliers | server/storage.ts:173-175 | getSuppliers lists counter - 1 suppliers; position i holds id i + 1 |
| Storage.MemStorage.Warehouses | server/storage.ts:189-191 | getWarehouses lists counter - 1 warehouses in id order |
| Storage.MemStorage.Stores | server/storage.ts:205-207 | getStores lists counter - 1 stores in id order |
| Storage.MemStorage.Shipments | server/storage.ts:221-223 | getShipments lists counter - 1 shipments in id order |
| Storage.MemStorage.GetSupplier | server/storage.ts:177-179 | found exactly for 1 <= id < counter; the result has that id and is the supplier at that place in the listing |
| Storage.MemStorage.GetWarehouse | server/storage.ts:193-195 | found exactly for the ids handed out so far; the result has the asked id |
| Storage.MemStorage.GetStore | server/storage.ts:209-211 | found exactly for the ids handed out so far; the result has the asked id |
| Storage.MemStorage.GetShipment | server/storage.ts:225-227 | found exactly for the ids handed out so far; the result has the asked id |
| Storage.FindByShipmentId | server/storage.ts:229-233 | `find`: none exactly when no shipment has the code; otherwise the first shipment in list order that has it |
| Storage.MemStorage.GetShipmentByShipmentId | server/storage.ts:229-233 | none exactly when no stored shipment has the code; otherwise a stored shipment with the code, and no lower id has it |
| Storage.MemStorage.CreateSupplier | server/storage.ts:181-186 | the record is the input plus the old counter as id; it is stored under that fresh id and returned; the counter grows by 1; the listing gains it at the end; the modifies frame leaves every other field unchanged |
| Storage.MemStorage.CreateWarehouse | server/storage.ts:197-202 | same as CreateSupplier, for warehouses |
| Storage.MemStorage.CreateStore | server/storage.ts:213-218 | same as CreateSupplier, for stores |
| Storage.MemStorage.CreateShipment | server/storage.ts:235-248 | the input plus the old counter as id and the current time as createdAt, stored under the fresh id and returned; the counter grows by 1; the KPI record is recomputed from the new list, so its total grows by exactly 1; other tables, counters and trends are unchanged |
| Storage.CountStatus | server/storage.ts:262 | the count of shipments with a status is at most the number of shipments |
| Storage.TotalCost | server/storage.ts:259 | the left-to-right sum of the costs, as `reduce` from 0; its bounds are stated by Storage.TotalCostBounds and its one-more-shipment step by Storage.KpiAfterAppend |
| Storage.ComputeKpi | server/storage.ts:255-277 | total = number of shipments; avgCost * total = sum of costs (0 when empty); onTimePercentage * total = 100 * on-time count (0 when empty) and lies in [0, 100]; delayedCount = delayed count; id 1; updatedAt = now |
| Storage.Average | server/storage.ts:258-260 | the average times the count is the total; 0 for no items |
| Storage.Percentage | server/storage.ts:262-263 | the percentage times the whole is 100 times the part; 0 for an empty whole; within [0, 100] when the part is at most the whole |
| Storage.MemStorage.UpdateKpis | server/storage.ts:255-277 | the KPI record becomes, and the call returns, the figures of the current shipments |
| Storage.StatusCountsPartition | server/storage.ts:262-265 | on-time + delayed + other statuses = total, so on-time + delayed <= total |
| Storage.TotalCostBounds | server/storage.ts:259 | if every cost lies in lo .. hi, the left-to-right sum lies in n * lo .. n * hi |
| Storage.AvgCostBetweenBounds | server/storage.ts:258-260 | the average cost lies between the cheapest and the dearest shipment |
| Storage.KpiAfterAppend | server/storage.ts:235-245 | one more shipment adds 1 to the total, its cost to the total cost, and 1 to the on-time or the delayed count when that is its status |
| Storage.MemStorage.GetKpis | server/storage.ts:251-253 | once there is a KPI record, it is exactly the figures of the current shipments (at its own update time): it counts them, its delayed count and average match them, and the percentage lies in [0, 100] |
| Storage.MemStorage.CreateShipmentTrend | server/storage.ts:284-289 | the row is the input plus the old counter as id; it is appended to the list; the counter grows by 1 |
| Storage.MemStorage.GetShipmentTrends | server/storage.ts:280-282 | the trend rows in insertion order, with ids 1, 2, ... |
| Storage.Tagged | server/storage.ts:298-300 | each site becomes a facility with its id, name and location and the given table tag, in order |
| Storage.AllFacilities | server/storage.ts:297-301 | length is the sum of the three tables; suppliers first, then warehouses, then stores; id, name, location and tag by position |
| Storage.MemStorage.GetAllFacilities | server/storage.ts:292-304 | has (supplier counter - 1) + (warehouse counter - 1) + (store counter - 1) entries, built from the three listings in that order |
| Storage.SitesFrom | server/storage.ts:98-110 | the inputs stored with consecutive ids from the first one |
| Storage.ShipmentsFrom | server/storage.ts:150-152 | the sample shipments stored with consecutive ids and the creation time |
| Storage.SampleTrends | server/storage.ts:158-169 | ten rows Jan .. Oct with counts 65, 59, 80, 81, 56, 55, 70, 80, 90, 88, year 2025, ids 1 .. 10 |
| Storage.SampleKpi | server/storage.ts:113-155 | the sample shipments give total 3, average 4.51, on-time 100/3 percent, delayed 1 |
| Storage.MemStorage.constructor | server/storage.ts:58-73 | starts empty with every counter at 1, then holds the sample data: 3 suppliers, 3 warehouses, 3 stores and 3 shipments with ids 1 .. 3 (next id 4), the sample KPI record, and the ten trend rows (next id 11) |
| Storage.MemStorage.InitializeSampleData | server/storage.ts:75-170 | from empty tables, adds each sample list with its create method, recomputes the KPI record and appends the trend rows, giving the state the constructor promises |
| Storage.MemStorage.AddSampleSites | server/storage.ts:97-110 | from empty site tables, leaves the three sample suppliers, warehouses and stores each under ids 1 .. 3, and changes nothing else |
| Storage.MemStorage.AddSampleSuppliers | server/storage.ts:97-100 | the loop leaves the three sample suppliers under ids 1 .. 3 |
| Storage.MemStorage.AddSampleWarehouses | server/storage.ts:102-105 | the loop leaves the three sample warehouses under ids 1 .. 3 |
| Storage.MemStorage.AddSampleStores | server/storage.ts:107-110 | the loop leaves the three sample stores under ids 1 .. 3 |
| Storage.MemStorage.AddSampleShipments | server/storage.ts:149-152 | the loop leaves the three sample shipments under ids 1 .. 3, and the KPI record equal to the figures of those three |
| Storage.MemStorage.AddSampleShipmentsAndKpis | server/storage.ts:149-155 | after the shipment loop and the KPI refresh, the three sample shipments sit under ids 1 .. 3 and the KPI record (id 1) holds their figures: 3 in total, average cost 4.51, 100/3 per cent on time, 1 delayed |
| Storage.MemStorage.AddSampleTrends | server/storage.ts:161-169 | the loop leaves the ten sample trend rows in order |
| Text.ToLowerCase | client/src/pages/shipments.tsx:22 | same length; each character is lower-cased; no ASCII capital is left |
| Text.ToLowerCaseIdempotent | client/src/pages/shipments.tsx:22 | lower-casing twice equals lower-casing once |
| Text.IncludesIffOccurs | client/src/pages/shipments.tsx:22-25 | `includes` holds exactly when the term occurs at some position |
| Text.Includes | client/src/pages/shipments.tsx:22 | `includes`: a string includes the empty term, and only terms no longer than itself |
| Text.IncludesEmpty | client/src/pages/shipments.tsx:22 | every string includes the empty term |
| Text.Split | client/src/pages/shipments.tsx:49 | at least one piece; no piece holds the separator; the first piece is a prefix of the input, and it is non-empty when the input starts with another character |
| Text.JoinSplit | client/src/pages/shipments.tsx:49-51 | joining the split pieces with the separator gives back the input |
| Text.Join | client/src/pages/shipments.tsx:51 | `join`: the joined string starts with the first piece |
| Text.JoinSameLength | client/src/pages/shipments.tsx:49-51 | joining pieces of the same lengths with glue of the same length gives strings of the same length |
| Text.Capitalize | client/src/pages/shipments.tsx:50 | capitalising a word keeps its length |
| Text.CapitalizeAll | client/src/pages/shipments.tsx:49-50 | one capitalised word per piece, in order |
| StatusDisplay.FormatStatusLabelAt | client/src/components/ShipmentTable.tsx:50-54 | the label has the status's length; each separator becomes a space; the first character of each piece is upper-cased; every other character is unchanged |
| StatusDisplay.FormatStatusLabel | client/src/components/ShipmentTable.tsx:50-54 | `formatStatusLabel`: the label is as long as the status, each separator giving way to one space |
| StatusDisplay.FormatStatusLabelExample | client/src/pages/shipments.tsx:48-52 | "in_transit" split on '_' and "in-transit" split on '-' both read "In Transit" |
| StatusDisplay.HyphenatedStatusOnUnderscorePages | client/src/pages/shipments.tsx:33-52 | a hyphenated status string "in-transit" would show as "In-transit" on the '_' pages, and it and "on-time" would get the gray badge there |
| StatusDisplay.StatusBadgeClass | client/src/components/ShipmentTable.tsx:34-47 | on-time green, in-transit yellow, delayed red, delivered blue; gray exactly for every other string |
| StatusDisplay.StatusBadgeStyles | client/src/pages/shipments.tsx:33-46 | delivered green, in_transit yellow, delayed red, processing blue; gray exactly for every other string |
| Sequences.Filter | client/src/pages/shipments.tsx:20-26 | no longer than the input; every kept element passes; each passing element is kept as often as it occurs, each failing one never |
| Sequences.FilterWithKey | client/src/pages/shipments.tsx:20-27 | filtering and picking the elements with one key commute, so the kept elements with that key are in their input order |
| Sequences.FilterKeepingAll | client/src/pages/shipments.tsx:20-26 | a filter that rejects nothing returns the input unchanged |
| Sequences.InsertBySorted | client/src/pages/shipments.tsx:27 | inserting into a key-ordered sequence keeps it ordered |
| Sequences.SortBy | client/src/pages/shipments.tsx:27 | the sort returns a permutation (same length, same multiset) ordered by key |
| Sequences.SortByStable | client/src/pages/shipments.tsx:27 | for every key, the elements with that key keep their input order |
| Sequences.SortBySorted | client/src/components/ShipmentChart.tsx:22-24 | an input already in key order comes out unchanged |
| Paging.PageCount | client/src/pages/shipments.tsx:29 | `Math.ceil(n / perPage)`: the least page count whose pages hold n items; 0 exactly when n = 0 |
| Paging.SlicePosition | client/src/components/ShipmentTable.tsx:60 | `slice`'s index rule: in-range indices stay, larger ones clamp to the length, negative ones count from the end |
| Paging.Slice | client/src/components/ShipmentTable.tsx:60 | a slice takes items of the list only, no more than the list holds, and for start <= end at most end - start of them |
| Paging.PageItems | client/src/pages/shipments.tsx:30-31 | a page holds at most perPage items, all from the list |
| Paging.PageItemsWindow | client/src/pages/shipments.tsx:30-31 | from page 1 on, the page is the list from (p - 1) * perPage to p * perPage, cut at the end, so at most perPage items in list order |
| Paging.PageZeroIsEmpty | client/src/components/ShipmentTable.tsx:58-60 | page 0, where `slice(-5, 0)` is taken, is empty |
| Paging.PageBeyondCountIsEmpty | client/src/pages/shipments.tsx:29-31 | a page beyond the page count is empty |
| Paging.PageItemsFacts | client/src/pages/shipments.tsx:29-31 | a page holds at most perPage items; from page 1 on it is its stretch of the list; non-empty within the page count; empty beyond it and on page 0 |
| Paging.PageWithinCountIsFull | client/src/pages/shipments.tsx:29-31 | a page from 1 to the page count holds min(perPage, rest of list) > 0 items |
| Paging.PageBetweenEnds | client/src/pages/shipments.tsx:30-31 | page k runs from where page k - 1 ends to min(k * perPage, n), and those ends do not decrease |
| Paging.PagesThroughIsPrefix | client/src/pages/shipments.tsx:30-31 | pages 1 .. k together are the first min(k * perPage, n) items of the list |
| Paging.PagesCoverList | client/src/pages/shipments.tsx:29-31 | pages 1 .. page count, read in order, give back the whole list |
| Paging.ShowingRangeMatchesPage | client/src/pages/shipments.tsx:153-157 | from page 1 on, "Showing from to to" spans exactly the rows on the page; it reads backwards exactly when the page is empty |
| Paging.ShowingFrom | client/src/pages/shipments.tsx:153 | the footer's from, start + 1, is at least 1 from page 1 on |
| Paging.ShowingTo | client/src/pages/shipments.tsx:155 | the footer's to, min(start + perPage, n), is never past the list and at most perPage rows after from |
| Paging.GuardedPrevious | client/src/pages/shipments.tsx:59-63 | steps back exactly when the page is above 1 |
| Paging.GuardedNext | client/src/pages/shipments.tsx:65-69 | steps forward exactly when the page is below the page count |
| Paging.GuardedClicksStayInRange | client/src/pages/shipments.tsx:59-69 | from a page in 1 .. max(1, totalPages), no run of Previous/Next clicks leaves that range |
| ShipmentSearch.FieldMatches | client/src/pages/shipments.tsx:22 | a field matches exactly when the lower-case term occurs somewhere in the lower-case field; the empty term matches every field |
| ShipmentSearch.MatchesWithStatus | client/src/pages/shipments.tsx:21-26 | the Shipments page's test over productId, source, destination and status; the empty term matches every shipment |
| ShipmentSearch.MatchesWithoutStatus | client/src/components/dashboard/recent-shipments.tsx:23-27 | the dashboard list's test over productId, source and destination; the empty term matches every shipment |
| ShipmentSearch.Search | client/src/pages/shipments.tsx:20-27 | filter then sort: the same multiset as the filtered list, ordered by the newest-first key |
| ShipmentSearch.SearchKeepsExactlyTheMatches | client/src/pages/shipments.tsx:20-26 | the result holds every matching shipment exactly as often as the input does and no other, so it is no longer than the input |
| ShipmentSearch.SearchIsNewestFirst | client/src/pages/shipments.tsx:27 | createdAt does not increase along the result |
| ShipmentSearch.SearchKeepsTiesInOrder | client/src/pages/shipments.tsx:27 | for every sort-key value k (k = -createdAt), the shipments with that key appear in the result in their filtered order, which is their order in the input list: ties keep their order |
| ShipmentSearch.EmptyTermListsEverything | client/src/pages/shipments.tsx:20-26 | with an empty term, both lists hold every shipment (reordered) |
| ShipmentSearch.SearchIgnoresCase | client/src/pages/shipments.tsx:22-25 | terms with the same lower-case form select the same shipments |
| ShipmentSearch.DashboardSkipsStatus | client/src/components/dashboard/recent-shipments.tsx:22-27 | the dashboard test implies the page test; they differ only when the status alone matches |
| ShipmentSearch.StatusSearchExample | client/src/components/dashboard/recent-shipments.tsx:22-27 | "DELAYED" finds a delayed shipment by its status on the Shipments page but not on the dashboard list |
| ShipmentsPage.Shipments.constructor | client/src/pages/shipments.tsx:16-17 | starts with an empty search term on page 1 |
| ShipmentsPage.Shipments.FilteredShipments | client/src/pages/shipments.tsx:20-27 | exactly the shipments matching the term on productId, source, destination or status, as often as in the input, newest first; everything when the term is empty |
| ShipmentsPage.Shipments.TotalPages | client/src/pages/shipments.tsx:29 | the fewest pages of ten that hold the filtered list; 0 exactly when nothing matches |
| ShipmentsPage.Shipments.PaginatedShipments | client/src/pages/shipments.tsx:29-31 | at most 10 rows; from page 1 on, the page's stretch of the filtered list; non-empty within the page count, empty beyond it |
| ShipmentsPage.Shipments.ShowingRange | client/src/pages/shipments.tsx:153-157 | from page 1 on, the footer range counts exactly the rows shown |
| ShipmentsPage.Shipments.SetSearchTerm | client/src/pages/shipments.tsx:99 | the term changes and, by the modifies frame, the page number does not |
| ShipmentsPage.Shipments.HandlePrevPage | client/src/pages/shipments.tsx:59-63 | the page becomes GuardedPrevious of the old page, and stays at least 1 |
| ShipmentsPage.Shipments.HandleNextPage | client/src/pages/shipments.tsx:65-69 | the page becomes GuardedNext of the old page and the page count, and stays in 1 .. max(1, totalPages) |
| ShipmentsPage.NextEnabledButInertWhenEmpty | client/src/pages/shipments.tsx:65-69 | with no pages, Next on page 1 is not disabled, and its guard leaves the page at 1 |
| ShipmentsPage.PreviousDisabled | client/src/pages/shipments.tsx:163 | from page 1 on, Previous is disabled exactly where handlePrevPage would leave the page as it is |
| ShipmentsPage.NextDisabled | client/src/pages/shipments.tsx:170 | on a page from 1 to the page count, Next is disabled exactly where handleNextPage would leave the page as it is |
| RecentShipmentsPanel.RecentShipments.constructor | client/src/components/dashboard/recent-shipments.tsx:18-19 | starts with an empty search term on page 1 |
| RecentShipmentsPanel.RecentShipments.FilteredShipments | client/src/components/dashboard/recent-shipments.tsx:22-28 | exactly the shipments matching the term on productId, source or destination, as often as in the input, newest first; everything when the term is empty |
| RecentShipmentsPanel.RecentShipments.TotalPages | client/src/components/dashboard/recent-shipments.tsx:30 | the fewest pages of five that hold the filtered list; 0 exactly when nothing matches |
| RecentShipmentsPanel.RecentShipments.PaginatedShipments | client/src/components/dashboard/recent-shipments.tsx:30-32 | at most 5 rows; from page 1 on, the page's stretch of the filtered list; non-empty within the page count, empty beyond it |
| RecentShipmentsPanel.RecentShipments.ShowingRange | client/src/components/dashboard/recent-shipments.tsx:131-135 | from page 1 on, "Showing start + 1 to min(start + 5, n)" counts exactly the rows shown |
| RecentShipmentsPanel.RecentShipments.SetSearchTerm | client/src/components/dashboard/recent-shipments.tsx:18 | the term changes and the page number does not |
| RecentShipmentsPanel.RecentShipments.HandlePrevPage | client/src/components/dashboard/recent-shipments.tsx:55-59 | the page becomes GuardedPrevious of the old page |
| RecentShipmentsPanel.RecentShipments.HandleNextPage | client/src/components/dashboard/recent-shipments.tsx:61-65 | the page becomes GuardedNext of the old page and the page count, and stays in range |
| RecentShipmentsPanel.NextEnabledButInertWhenEmpty | client/src/components/dashboard/recent-shipments.tsx:61-65 | with no pages, Next on page 1 is enabled but does nothing |
| RecentShipmentsPanel.PreviousDisabled | client/src/components/dashboard/recent-shipments.tsx:141 | from page 1 on, Previous is disabled exactly where handlePrevPage would leave the page as it is |
| RecentShipmentsPanel.NextDisabled | client/src/components/dashboard/recent-shipments.tsx:148 | on a page from 1 to the page count, Next is disabled exactly where handleNextPage would leave the page as it is |
| ShipmentTableView.ShipmentTable.constructor | client/src/components/ShipmentTable.tsx:30 | starts on page 1 |
| ShipmentTableView.TotalPages | client/src/components/ShipmentTable.tsx:57 | the fewest pages of five that hold the list; 0 exactly for an empty list |
| ShipmentTableView.PreviousDisabled | client/src/components/ShipmentTable.tsx:152 | when not loading and from page 1 on, Previous is disabled exactly where `Math.max(p - 1, 1)` would leave the page as it is |
| ShipmentTableView.NextDisabled | client/src/components/ShipmentTable.tsx:159 | when not loading and on a page from 1 to the page count, Next is disabled exactly where `Math.min(p + 1, totalPages)` would leave the page as it is |
| ShipmentTableView.PageAfterClick | client/src/components/ShipmentTable.tsx:62-68 | while loading nothing moves; Previous from page 1 on stays in 1 .. p, and from below 1 goes to 1; Next from a page up to the count stays in p .. totalPages |
| ShipmentTableView.ShipmentTable.CurrentItems | client/src/components/ShipmentTable.tsx:57-60 | at most 5 rows; from page 1 on, shipments[(p - 1) * 5 .. min(p * 5, n)); non-empty within the page count; empty beyond it and on page 0 |
| ShipmentTableView.ShipmentTable.HandlePreviousPage | client/src/components/ShipmentTable.tsx:62-64 | the page becomes max(p - 1, 1), so it is at least 1 |
| ShipmentTableView.ShipmentTable.HandleNextPage | client/src/components/ShipmentTable.tsx:66-68 | the page becomes min(p + 1, totalPages), so it is at most totalPages |
| ShipmentTableView.ShipmentTable.ClickPrevious | client/src/components/ShipmentTable.tsx:148-155 | a disabled Previous button (page 1 or loading) leaves the page, otherwise the handler runs; a page in 1 .. max(1, totalPages) stays there |
| ShipmentTableView.ShipmentTable.ClickNext | client/src/components/ShipmentTable.tsx:156-162 | a disabled Next button leaves the page, otherwise the handler runs; a page in 1 .. max(1, totalPages) stays there |
| ShipmentTableView.ClickStaysInRange | client/src/components/ShipmentTable.tsx:152-159 | one click, with the disabled conditions, keeps the page in 1 .. max(1, totalPages) |
| ShipmentTableView.ClicksStayInRange | client/src/components/ShipmentTable.tsx:62-68 | no run of clicks leaves 1 .. max(1, totalPages) |
| ShipmentTableView.UnguardedNextOnEmptyList | client/src/components/ShipmentTable.tsx:159 | on an empty list only the `totalPages === 0` condition disables Next; the handler alone would go to page 0 ("Showing -4-0") |
| ShipmentTableView.NextFromBeyondGoesToLastPage | client/src/components/ShipmentTable.tsx:62-68 | from a page past the last one, Next moves back to the last page and Previous moves down by one |
| ShipmentChart.IndexOf | client/src/components/ShipmentChart.tsx:23 | `indexOf`: the first position of the value, or -1 exactly when it is absent |
| ShipmentChart.MonthIndex | client/src/components/ShipmentChart.tsx:20-23 | a month's position in Jan .. Dec, or -1 exactly for any other string |
| ShipmentChart.SortedData | client/src/components/ShipmentChart.tsx:20-24 | the same rows, each as often, in non-decreasing month index |
| ShipmentChart.SortedDataKeepsMonthOrder | client/src/components/ShipmentChart.tsx:22-24 | rows of one month keep their input order |
| ShipmentChart.UnknownMonthComesFirst | client/src/components/ShipmentChart.tsx:20-23 | a row whose month is not one of the twelve names comes before every January row |
| ShipmentChart.SampleTrendsUnchanged | client/src/components/ShipmentChart.tsx:22-24 | the store's seeded Jan .. Oct rows are already in order, so the chart keeps them as they are |

## Left out

- Rendering, the shipment detail modal, row-click handlers (`handleRowClick`, `handleShipmentClick`), the loading spinner and skeleton rows, and the chart's drawing. `isLoading` appears only as the disabling condition of the `ShipmentTable` buttons.
- Asynchrony. The storage's table methods are `async`; the constructor and `initializeSampleData` are not. `createShipment` calls `updateKPIs` without `await`, and `updateKPIs` suspends at its `await` after reading the shipment list. The model runs each call to completion in order. For a caller that awaits `createShipment` this matches the source: the `updateKPIs` continuation is queued first and has run by the time the caller resumes.
- Storage.MemStorage.constructor: its KPI postcondition holds only once the pending microtasks have run. When `new MemStorage()` returns, every table, counter and trend row is in place, but `kpis` is still `undefined`. The four `updateKPIs` calls (one per sample shipment, server/storage.ts:151, and one at server/storage.ts:155) finish afterwards, in order, the last from all three shipments. That happens before any request can be served. The model sets the KPI record inside the constructor.
- The clock. `new Date()` becomes the parameter `now`. Storage.MemStorage.constructor gives every sample shipment and the KPI record the same time `now`; the source reads the clock at each call.
- Floating point. Costs, coordinates and percentages are reals, with no IEEE rounding, so the source's doubles can differ from the model's reals in the last place. For the samples, the source's sum 3.45 + 5.21 + 4.87 is 13.530000000000001 and the average 4.510000000000001, where Storage.SampleKpi states 4.51; its on-time percentage (1 / 3) * 100 is 33.33333333333333, where the model has 100 / 3.
- Storage.SiteInput: keeps only the name, location and type of a site. Any further input fields, which the source copies along with the spread, are not modelled.
- Dates and formatting. `createdAt` and `eta` are integer milliseconds, and the date formatting (`format`, `toLocaleDateString`, `toFixed`) is not modelled.
- Store-shaped records on the list pages. The Shipments page and the dashboard list read `productId`, which a record from the store (or one posted by the add-shipment form) does not have. The filter evaluates `shipment.productId.toLowerCase()` (client/src/pages/shipments.tsx:22, client/src/components/dashboard/recent-shipments.tsx:24) first, for every shipment and whatever the search term, the initial empty one included, so such a record throws before any label or badge is drawn. The model types those pages' rows with the schema's shape and does not model that failure.
- Case mapping. `toLowerCase` and `toUpperCase` are modelled for ASCII letters only, not the full Unicode tables.
- The HTTP routes (server/routes.ts), validation of inputs (zod schemas) and the database table definitions in shared/schema.ts. The model keeps only the record shapes and the status constants that the core reads.
- The React state updater form. `setCurrentPage(prev => ...)` is modelled as an update of the `currentPage` field from its current value; batching of updates is not modelled.
- Props that change between renders. The shipment list is a parameter of each view's functions, so a new list just means calling them with it. The lemmas about pages past the page count cover the case where the list shrinks while the page number stays.
- The spread copy in ShipmentChart.tsx. Dafny sequences are values, so the caller's array cannot be changed; that property holds by construction and is not stated.
