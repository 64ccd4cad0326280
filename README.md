# purchasing-pro, modelled in Dafny

purchasing-pro is a purchasing admin panel for a chain of stores. A React
client keeps seven collections:

- store locations
- suppliers
- items with per-location retail and reseller prices
- purchases
- competitor price records ("pricing index")
- the competitor store list
- daily sales

The client shows them on one page each, plus a dashboard. Every change
replaces a whole collection, which the client then sends to a small
Express API. The API keeps an in-memory snapshot of a Google Apps Script
store, patches it optimistically and forwards the write.

This project models the core of that system:

- **The server snapshot cache** (`ServerCache`, class `Server`):
  - the cold-start read and the single in-flight read guard
  - the error messages of a failed read
  - the `GET /data` replies
  - the `POST /sync` patch and reply
- **The client store** (`ClientStore`, class `AppStore`):
  - the start-up merge of a snapshot, in source order
  - the throw when an item's JSON does not parse
  - the seven setters and the sync calls they send
  - the location row encoding and its round trip
- **The pages' editing rules**:
  - search, delete, add/edit with their alerts and id schemes
  - sheet uploads: skipped rows, defaults, merge by key or append
- **The analytics**:
  - Forecast: per-pair forecast and per-SKU summary
  - PricingIndex: own price, index and grouped summary
  - Dashboard: location totals, top suppliers, category stats, active suppliers, undercut prices
- **The two dropdown components** (`MultiSelect`, `SearchableSelect`) and what they share (`SelectOptions`).

## How the model is organised

**Shared modules:**

- `Common`: `Option`, `Outcome`, list helpers and the row-collecting loop.
  - `Outcome` is `Commit(value) | Alert(message) | Skip`: a page handler either commits a new collection, shows an `alert`, or does nothing.
- `Text`: case folding, substring search, `trim`, split/join and lexicographic order.
- `Sorting`: a stable sort of a list by a numeric key, descending or ascending.
- `Grouping`: the "accumulate into an object keyed by a string" loops, as a `GroupBy`/`Reduced` specification plus the loop `ReduceByKey`.
- `Upsert`: the merge-by-key loop of the item and supplier uploads.
- `Editing`: delete by key, replace by key, add with a duplicate check.
- `Records`: one datatype per entity, plus the item-name and category lookups.

**Side effects become data:**

- A page handler returns an `Outcome` instead of calling a setter or `alert`.
- A spreadsheet row arrives as already-read cells:
  - `""` stands for a missing cell.
  - `Option<int>` stands for the result of `Number(...)`, with `None` for `NaN`.
- `Date.now()` and `Math.random()` become parameters (`now`, `clock`, `draw`).
- Network outcomes become parameters (`FetchOutcome`, `WriteOutcome`, `LoadResponse`).

**Where the model is imperative:**

- The server module's variables and the store's state are classes whose methods update fields.
- The loops of the source are methods with loop invariants, each proved equal to a specification function:
  - `CollectRows`, `MergeUpload`, `ReduceByKey` and `FillPrices`
  - the analytics methods built on them

## Model

| member | source | states |
|---|---|---|
| ServerCache.FetchErrorMessage | api/index.ts:33-43 | a failed read leaves a non-empty `lastError` that ends with the thrown message or the HTTP status text |
| ServerCache.AfterFetch | api/index.ts:27-43 | a parsed body replaces the snapshot and clears the error; any failure keeps the snapshot and sets a non-empty error |
| ServerCache.Served | api/index.ts:60-69 | a truthy snapshot is served as is; otherwise an `{error}` object with `lastError`, or the default message when there is none |
| ServerCache.FalsyBodyServesDefault | api/index.ts:30-31 | a body that parses to `null`, `0`, `false` or `""` clears `lastError`, so the default error is served |
| ServerCache.FieldFor | api/index.ts:77-91 | the sync dispatch table: every known action is `sync…` and names one of the seven snapshot fields |
| ServerCache.FieldForInjective | api/index.ts:77-91 | no two actions write the same field |
| ServerCache.SyncReplacesOnlyItsField | api/index.ts:76-92 | a known action sets exactly its field to the sent data and leaves every other field unchanged |
| ServerCache.SyncCache | api/index.ts:76-92 | the cache patch keeps the snapshot an object exactly when it was one, adds only the action's field, and ignores an unknown action |
| ServerCache.SyncNoOp | api/index.ts:76-92 | an unknown action, or any action on an empty cache, leaves the cache unchanged |
| ServerCache.SyncLastWins | api/index.ts:76-92 | of two syncs of the same action the second wins |
| ServerCache.SyncCommutes | api/index.ts:76-92 | syncs of different actions commute |
| ServerCache.SyncKeepsPresence | api/index.ts:76-92 | a sync never changes whether the cache is empty, so never whether the next read fetches |
| ServerCache.SyncReply | api/index.ts:95-110 | status 500 exactly when a URL is set and the forwarded write throws; otherwise `{status: "ok"}` |
| ServerCache.Server.constructor | api/index.ts:11-53 | module load: empty snapshot and error, and the cold-start read is in flight exactly when a URL is set |
| ServerCache.Server.BeginFetch | api/index.ts:16-23 | a new read starts exactly when a URL is set and none is in flight; the snapshot and error are untouched |
| ServerCache.Server.CompleteFetch | api/index.ts:24-47 | the settled read updates snapshot and error as `AfterFetch` says and always clears the in-flight guard |
| ServerCache.Server.GetData | api/index.ts:55-70 | always status 200: the not-configured error without a URL, the snapshot when cached, else the result of the awaited read |
| ServerCache.Server.Sync | api/index.ts:72-111 | the cache is patched by `SyncCache` before the write, the patch survives a failed write, and the reply is `SyncReply` |
| ClientStore.ActionsKnownToServer | src/context/AppContext.tsx:185-218 | every setter's action is in the server's dispatch table and names the field the store reads back; the actions are distinct |
| ClientStore.EncodeLocations | src/context/AppContext.tsx:187 | one `{Name}` row per location name, in order |
| ClientStore.DecodeLocations | src/context/AppContext.tsx:128 | one name per row, in order |
| ClientStore.DecodeEncode | src/context/AppContext.tsx:128-187 | the locations the store sends are the locations it reads back |
| ClientStore.EncodeDecode | src/context/AppContext.tsx:128-187 | the location rows read back re-encode to the same rows |
| ClientStore.DecodeItems | src/context/AppContext.tsx:136-143 | all items decode, one per row and in order, or the map throws exactly when some item's JSON fails to parse |
| ClientStore.DecodeItem | src/context/AppContext.tsx:137-142 | one item throws exactly when its prices or supplier ids fail to parse; otherwise SKU, name and category are kept and `hpp` is coerced |
| ClientStore.MergeThrowsIffItemFails | src/context/AppContext.tsx:127-169 | the load chain throws exactly when some item fails to parse |
| ClientStore.MergeHead | src/context/AppContext.tsx:127-135 | the first two steps touch only locations and suppliers, and nothing without rows for them |
| ClientStore.MergeTail | src/context/AppContext.tsx:144-169 | the steps after the items never touch locations, suppliers or items, and nothing without rows |
| ClientStore.Merge | src/context/AppContext.tsx:127-169 | a throw happens only with item rows and leaves just the first two steps applied; otherwise the items are the decoded rows, or unchanged without any |
| ClientStore.MergeHeadReplacesIffNonEmpty | src/context/AppContext.tsx:127-135 | locations and suppliers are replaced exactly when the snapshot holds a non-empty list, even when an item later throws |
| ClientStore.MergeTailReplacesIffNonEmpty | src/context/AppContext.tsx:136-169 | later collections are replaced exactly when non-empty and no item threw; after a throw they keep their old values |
| ClientStore.AppStore.constructor | src/context/AppContext.tsx:104-114 | the provider mounts with the default collections, idle, loading, nothing sent |
| ClientStore.AppStore.ApplyHead | src/context/AppContext.tsx:127-135 | the store's collections become `MergeHead` of the old ones; status and outbox are untouched |
| ClientStore.AppStore.ApplyTail | src/context/AppContext.tsx:144-169 | the store's collections become `MergeTail` of the old ones |
| ClientStore.AppStore.ApplySnapshot | src/context/AppContext.tsx:127-169 | the collections become `Merge(...)`, and the method reports whether the merge threw |
| ClientStore.AppStore.LoadData | src/context/AppContext.tsx:117-181 | a null response changes nothing but loading; an error reply sets the error status and message; a good reply merges, a throw sets the failure message; loading always ends |
| ClientStore.AppStore.SetLocations | src/context/AppContext.tsx:185-188 | the locations are replaced and one `syncLocations` call with their encoded rows is queued, which decodes back to the new locations |
| ClientStore.AppStore.SetSuppliers | src/context/AppContext.tsx:190-193 | the suppliers are replaced and one `syncSuppliers` call with them is queued; nothing else changes |
| ClientStore.AppStore.SetItems | src/context/AppContext.tsx:195-198 | the items are replaced and one `syncItems` call is queued |
| ClientStore.AppStore.SetPurchases | src/context/AppContext.tsx:200-203 | the purchases are replaced and one `syncPurchases` call is queued |
| ClientStore.AppStore.SetCompetitors | src/context/AppContext.tsx:205-208 | the competitor prices are replaced and one `syncCompetitors` call is queued |
| ClientStore.AppStore.SetCompetitorList | src/context/AppContext.tsx:210-213 | the competitor stores are replaced and one `syncCompetitorList` call is queued |
| ClientStore.AppStore.SetSalesData | src/context/AppContext.tsx:215-218 | the sales are replaced and one `syncSalesData` call is queued |
| Common.Filter | src/components/MultiSelect.tsx:32-35 | `Array.filter`: exactly the elements that pass the test, never more than the input |
| Common.FilterIsSubsequence | src/components/MultiSelect.tsx:32-35 | `filter` keeps the input order |
| Common.FindFirst | src/components/SearchableSelect.tsx:23 | `Array.find`: some element exactly when one has the key, and then the first such element |
| Common.Ratio | src/pages/Purchases.tsx:71 | the quotient of a division by a positive count, 0 otherwise, non-negative for a non-negative numerator |
| Common.CollectRows | src/pages/Suppliers.tsx:87-103 | the row-reading loop yields exactly the parsed rows that were accepted, in sheet order |
| Common.FilterMapSound | src/pages/Purchases.tsx:124-140 | every collected record comes from some accepted row |
| Common.Toggle | src/components/MultiSelect.tsx:37-43 | a present value loses every copy, an absent one is appended; membership of that value flips and of every other value is unchanged |
| Common.ToggleTwice | src/components/MultiSelect.tsx:37-43 | toggling an absent value twice gives back the original list |
| Common.Without | src/components/MultiSelect.tsx:45-48 | `filter(v => v !== x)`: no copy of `x` remains, every other value keeps its count, and the survivors keep their order |
| Common.SumOfAppend | src/pages/Dashboard.tsx:42 | a `reduce` sum over a concatenation is the sum of the two sums |
| Text.Lower | src/components/MultiSelect.tsx:33 | `toLowerCase` maps each character and keeps the length |
| Text.LowerIdempotent | src/components/MultiSelect.tsx:33 | lowering twice is lowering once |
| Text.MatchesIgnoresTermCase | src/components/MultiSelect.tsx:33-34 | the search gives the same answer for a term and its lower-case form |
| Text.EmptyTermMatches | src/components/MultiSelect.tsx:33-34 | the empty term matches every text |
| Text.ContainsAt | src/components/MultiSelect.tsx:33-34 | `includes` holds exactly when the term occurs at some position |
| Text.Trim | src/pages/Locations.tsx:45 | `trim()` removes exactly the leading and trailing white space: the result occurs in the original with only white space before and after it, never starts or ends with white space, and is empty exactly for blank text |
| Text.Split | src/pages/Items.tsx:131 | `split(',')` yields at least one part and no part contains the separator |
| Text.JoinSplit | src/pages/Items.tsx:131 | joining the parts of a split restores the text |
| Text.SplitJoin | src/pages/Items.tsx:131 | splitting a join of separator-free parts restores the parts |
| Text.LexLeTotal | src/pages/Forecast.tsx:137-142 | the string order used to compare dates is total |
| Text.NatToString | src/pages/Purchases.tsx:74 | the decimal rendering of a clock reading: digits only, and the digits denote the number |
| Text.NatToStringInjective | src/pages/Purchases.tsx:74 | different clock readings render differently, so the ids built from them differ |
| Sorting.SortDescBy | src/pages/Dashboard.tsx:17-18 | a permutation of the input sorted by descending key, stable: the elements of each key keep their input order |
| Sorting.SortAscBy | src/pages/Dashboard.tsx:53 | a permutation of the input sorted by ascending key, stable: the elements of each key keep their input order |
| Sorting.TakeSortedDescIsTop | src/pages/Dashboard.tsx:18-19 | no element past the first `n` of a descending sort has a larger key than the first `n` |
| Sorting.PrefixSortedAscIsBottom | src/pages/Dashboard.tsx:53-54 | in an ascending list, an element the first `n` hold fewer times than the whole list has a key no smaller than any of those `n` |
| Grouping.GroupBy | src/pages/Forecast.tsx:99-112 | keyed accumulation: one non-empty group per key, in first-seen order |
| Grouping.GroupByShape | src/pages/Forecast.tsx:99-112 | group keys are distinct, every member carries its group's key, and every record's key has a group |
| Grouping.GroupMembers | src/pages/Forecast.tsx:99-112 | a group's members are exactly the records with its key, in input order |
| Grouping.GroupByPreservesTotal | src/pages/Forecast.tsx:109-110 | grouping loses and duplicates nothing: the group sums add up to the overall sum |
| Grouping.ReduceByKey | src/pages/PricingIndex.tsx:113-132 | the `forEach`/`reduce` into an object keyed by a string computes the fold of each group, in first-seen order |
| Upsert.MergeUpload | src/pages/Suppliers.tsx:105-119 | the merge loop computes `Upserted`, counting each incoming row as added or updated, with the list growing by the added count |
| Upsert.UploadSheet | src/pages/Items.tsx:143-164 | an upload with no accepted row changes nothing; otherwise it commits the upsert of the accepted rows |
| Upsert.UpsertedKeepsPositions | src/pages/Items.tsx:143-158 | an upsert never moves or removes an existing record's key |
| Upsert.UpsertOne | src/pages/Items.tsx:149-157 | a record whose key is present replaces the first record with that key in place; otherwise it is appended |
| Upsert.Upserted | src/pages/Items.tsx:148-158 | the merged list is at least as long as the old one and grows by at most one record per uploaded row |
| Upsert.UpsertedKeys | src/pages/Items.tsx:143-158 | the keys after an upsert are exactly the old keys plus the incoming ones |
| Upsert.UpsertedDistinct | src/pages/Items.tsx:143-158 | an upsert keeps keys unique, however often a key repeats in the sheet |
| Upsert.UpsertedLastWins | src/pages/Items.tsx:143-158 | the last sheet row with a key is the record stored under that key |
| Upsert.UpsertedUntouched | src/pages/Items.tsx:143-158 | an existing record whose key is not in the sheet stays as it was, in its place |
| Upsert.UpsertedFresh | src/pages/Items.tsx:149-157 | with all keys new and distinct the upsert simply appends |
| Editing.RemoveKey | src/pages/Suppliers.tsx:24-30 | deleting by key keeps exactly the records with another key, each with its multiplicity, in their order |
| Editing.ReplaceKey | src/pages/Suppliers.tsx:53-54 | an edit replaces every record with the key by the form record and leaves the rest in place |
| Editing.ReplaceKeyKeepsKeys | src/pages/Suppliers.tsx:53-54 | an edit that keeps the key keeps the key column, so unique keys stay unique |
| Editing.AddUnique | src/pages/Suppliers.tsx:56-61 | an add alerts exactly when the key is taken and appends otherwise |
| Editing.AddUniqueKeepsDistinct | src/pages/Suppliers.tsx:56-61 | an add keeps keys unique |
| Records.ItemNameFor | src/pages/PricingIndex.tsx:102-104 | `find(...)?.name \|\| sku`: the first matching item's name if non-empty; the SKU when that name is empty or no item matches |
| Records.CategoryOr | src/pages/Forecast.tsx:166-170 | `find(...)?.category \|\| fallback`: the first matching item's category if non-empty; the fallback when that category is empty or no item matches |
| LocationsPage.Search | src/pages/Locations.tsx:15-17 | exactly the locations containing the term, ignoring case |
| LocationsPage.SearchKeepsOrder | src/pages/Locations.tsx:15-17 | the search keeps list order and an empty term keeps every location |
| LocationsPage.Delete | src/pages/Locations.tsx:24-29 | every copy of the selected name goes, every other name keeps its count and its order; no selection, no change |
| LocationsPage.Save | src/pages/Locations.tsx:44-64 | blank input does nothing; an add of a listed name alerts "Lokasi sudah ada!"; otherwise an add appends and an edit renames every copy in place |
| LocationsPage.AddKeepsDistinct | src/pages/Locations.tsx:54-60 | adding keeps location names unique |
| LocationsPage.RenameMayDuplicate | src/pages/Locations.tsx:47-52 | an edit has no duplicate check: renaming to another listed name is committed and leaves a duplicate |
| LocationsPage.SaveKeepsUntrimmedName | src/pages/Locations.tsx:44-60 | the blank test trims, but the stored name is the untrimmed input |
| LocationsPage.Upload | src/pages/Locations.tsx:78-84 | the new non-empty names of the sheet are appended after the old list, in sheet order and each as often as the sheet holds it; no new name, no change |
| LocationsPage.UploadKeepsSheetDuplicates | src/pages/Locations.tsx:79-84 | a name repeated in the sheet is appended twice |
| CompetitorListPage.Search | src/pages/CompetitorList.tsx:16-19 | exactly the stores whose name or location contains the term, ignoring case |
| CompetitorListPage.SearchKeepsOrder | src/pages/CompetitorList.tsx:16-19 | the search keeps list order and an empty term keeps every store |
| CompetitorListPage.Delete | src/pages/CompetitorList.tsx:24-31 | exactly the stores with another id remain, each with its multiplicity, in order |
| CompetitorListPage.Save | src/pages/CompetitorList.tsx:45-70 | no location alerts "Lokasi Toko harus dipilih"; an add appends a store with id `C<now>`; an edit keeps the id and replaces in place |
| CompetitorListPage.EditKeepsIds | src/pages/CompetitorList.tsx:56-63 | an edit keeps the id column, so unique ids stay unique |
| SuppliersPage.Search | src/pages/Suppliers.tsx:15-18 | exactly the suppliers whose name or id contains the term, in order |
| SuppliersPage.Delete | src/pages/Suppliers.tsx:24-30 | exactly the suppliers with another id remain, each with its multiplicity, in order |
| SuppliersPage.Save | src/pages/Suppliers.tsx:42-65 | an add of a taken id alerts "ID Supplier sudah ada!", else appends; an edit replaces the supplier with the edited id in place |
| SuppliersPage.SaveKeepsIdsDistinct | src/pages/Suppliers.tsx:42-65 | with the id input read-only while editing, every save keeps supplier ids unique |
| SuppliersPage.ParseRow | src/pages/Suppliers.tsx:87-103 | a row needs an id and a name; phone and address default to "", an unreadable TOP to 0 |
| SuppliersPage.AcceptedRows | src/pages/Suppliers.tsx:87-103 | some row is accepted exactly when some row has both id and name |
| SuppliersPage.Upload | src/pages/Suppliers.tsx:80-126 | the accepted rows are merged by id; existing suppliers keep their places and ids; unique ids stay unique; no accepted row, no change |
| ItemsPage.Search | src/pages/Items.tsx:18-21 | exactly the items whose name or SKU contains the term, in order |
| ItemsPage.Delete | src/pages/Items.tsx:27-33 | exactly the items with another SKU remain, each with its multiplicity, in order |
| ItemsPage.PriceTable | src/pages/Items.tsx:59-65 | a price entry for exactly the listed locations, each the form's price for it |
| ItemsPage.FillPrices | src/pages/Items.tsx:59-65 | the loop over the locations builds exactly `PriceTable` |
| ItemsPage.FormItem | src/pages/Items.tsx:67-74 | the saved item carries the form's fields, a price per location and the picked suppliers |
| ItemsPage.Save | src/pages/Items.tsx:51-88 | an add of a taken SKU alerts "SKU sudah ada!", else appends; an edit replaces the item with the edited SKU in place |
| ItemsPage.SaveKeepsSkusDistinct | src/pages/Items.tsx:51-88 | with the SKU input read-only while editing, every save keeps SKUs unique |
| ItemsPage.ToggleSupplier | src/pages/Items.tsx:172-178 | ticking a supplier flips its membership, appends when absent and leaves every other supplier unchanged |
| ItemsPage.OrZero | src/pages/Items.tsx:123-129 | `Number(cell) \|\| 0` for an integer cell: the number, or 0 for `NaN` |
| ItemsPage.SupplierIds | src/pages/Items.tsx:131 | an empty cell gives no ids, otherwise the trimmed comma-separated parts |
| ItemsPage.SupplierIdsRoundTrip | src/pages/Items.tsx:131 | trimmed, comma-free ids written as one cell read back as the same ids |
| ItemsPage.ParseRow | src/pages/Items.tsx:121-140 | a row needs SKU and name; the category defaults to "Uncategorized", HPP and prices to 0, one price per location |
| ItemsPage.AcceptedRows | src/pages/Items.tsx:121 | some row is accepted exactly when some row has both SKU and name |
| ItemsPage.Upload | src/pages/Items.tsx:107-170 | the accepted rows are merged by SKU; existing items keep their places and SKUs; unique SKUs stay unique; no accepted row, no change |
| PurchasesPage.Search | src/pages/Purchases.tsx:20-24 | exactly the purchases whose item name, SKU or location contains the term, in order |
| PurchasesPage.Delete | src/pages/Purchases.tsx:30-36 | exactly the purchases with another id remain, each with its multiplicity, in order |
| PurchasesPage.FormPurchase | src/pages/Purchases.tsx:69-83 | the stored purchase snapshots the item name and the price per unit of the form |
| PurchasesPage.Save | src/pages/Purchases.tsx:54-93 | a missing location, product or supplier alerts; an add appends with id `PUR<now>`; an edit keeps the id and replaces in place |
| PurchasesPage.EditKeepsIds | src/pages/Purchases.tsx:85-88 | an edit keeps the id column, so unique ids stay unique |
| PurchasesPage.ParseRow | src/pages/Purchases.tsx:116-140 | a row needs four text cells and non-zero QTY and value; its id is `PUR<clock><draw>` |
| PurchasesPage.AcceptedRows | src/pages/Purchases.tsx:124 | some row is accepted exactly when some row is complete |
| PurchasesPage.Upload | src/pages/Purchases.tsx:109-148 | the purchases of the complete rows are appended after the old list, in sheet order; none, no change |
| PurchasesPage.UploadedFromCompleteRows | src/pages/Purchases.tsx:124-140 | every appended purchase comes from a complete row |
| PricingIndexPage.Search | src/pages/PricingIndex.tsx:24-27 | exactly the records whose store name or SKU contains the term, in order |
| PricingIndexPage.Delete | src/pages/PricingIndex.tsx:33-39 | exactly the records with another id remain, each with its multiplicity, in order |
| PricingIndexPage.OwnPrice | src/pages/PricingIndex.tsx:71-72 | the first matching item's price for the location and grade, 0 when there is no item or no price |
| PricingIndexPage.HppOf | src/pages/PricingIndex.tsx:73 | the first matching item's HPP, 0 when there is none |
| PricingIndexPage.IndexBelowOneIffCheaper | src/pages/PricingIndex.tsx:74 | with a positive own price the index is below 1 exactly when the competitor is cheaper, and 1 exactly at equal prices; otherwise 0 |
| PricingIndexPage.FormRecord | src/pages/PricingIndex.tsx:71-90 | the stored record carries the store's name, the own price, HPP and the index of the form |
| PricingIndexPage.Save | src/pages/PricingIndex.tsx:57-100 | a missing field alerts; an unknown store does nothing; an add appends with id `COMP<now>`; an edit keeps the id |
| PricingIndexPage.EditKeepsIds | src/pages/PricingIndex.tsx:92-93 | an edit keeps the id column, so unique ids stay unique |
| PricingIndexPage.Summary | src/pages/PricingIndex.tsx:106-133 | the summary table is the fold of each group of the selected records keyed by SKU, location and grade |
| PricingIndexPage.FoldIsRow | src/pages/PricingIndex.tsx:115-128 | a summary row carries the first record's SKU, location, grade and own price, and one entry per record in order |
| PricingIndexPage.SummaryRowContents | src/pages/PricingIndex.tsx:113-132 | each row holds the entries of exactly the records with its key |
| PricingIndexPage.SummaryCountsEveryRecord | src/pages/PricingIndex.tsx:113-132 | the rows hold as many entries as there are records: none lost, none counted twice |
| PricingIndexPage.SummaryKeysCanCollide | src/pages/PricingIndex.tsx:114 | the dash-joined key is ambiguous: different SKU and location pairs share a key |
| ForecastPage.ParseRow | src/pages/Forecast.tsx:61-73 | a row needs date, location and SKU and a non-zero QTY |
| ForecastPage.AcceptedRows | src/pages/Forecast.tsx:66 | some row is accepted exactly when some row is complete |
| ForecastPage.Upload | src/pages/Forecast.tsx:53-87 | the complete rows are appended after the old sales; none, no change |
| ForecastPage.UploadedRecordsComplete | src/pages/Forecast.tsx:66-73 | every appended sale has date, location, SKU and a non-zero QTY |
| ForecastPage.Clear | src/pages/Forecast.tsx:46-51 | a confirmed clear empties the sales; otherwise nothing changes |
| ForecastPage.Ceil | src/pages/Forecast.tsx:117 | `Math.ceil`: the least integer not below the value |
| ForecastPage.ForecastIsCeiling | src/pages/Forecast.tsx:115-117 | the 30-day forecast is the least integer not below 30 times the daily average |
| ForecastPage.Forecast30 | src/pages/Forecast.tsx:117 | the forecast is 0 without sales days and has the sign of the total quantity |
| ForecastPage.ForecastExample | src/pages/Forecast.tsx:115-117 | 37 units over 3 days forecast 370 |
| ForecastPage.FoldIsTotals | src/pages/Forecast.tsx:99-111 | a group's accumulator holds the group's SKU and location, its summed QTY and its set of dates |
| ForecastPage.DaysAtLeastOne | src/pages/Forecast.tsx:115-116 | a group always has a day with sales, so the average never divides by zero |
| ForecastPage.ToForecastRow | src/pages/Forecast.tsx:114-126 | days are the distinct dates, the average times the days is the total, the forecast is `Forecast30` |
| ForecastPage.ForecastData | src/pages/Forecast.tsx:93-132 | exactly the grouped rows that match the search, highest forecast first |
| ForecastPage.PairGroupContents | src/pages/Forecast.tsx:94-112 | each row sums exactly the selected sales of its SKU and location |
| ForecastPage.PairGroupsPreserveTotal | src/pages/Forecast.tsx:94-112 | the rows' totals add up to the total QTY of the selected sales |
| ForecastPage.SummaryData | src/pages/Forecast.tsx:134-183 | the SKU summary rows that match the search and category, highest forecast first, each with a non-empty category ("-" for an unknown SKU) |
| ForecastPage.SkuGroupContents | src/pages/Forecast.tsx:135-160 | each row sums exactly the in-period sales of its SKU |
| ForecastPage.SkuGroupsPreserveTotal | src/pages/Forecast.tsx:135-160 | the rows' totals add up to the total QTY of the in-period sales |
| DashboardPage.PurchasesByLocation | src/pages/Dashboard.tsx:9-14 | one row per location, in order, holding the total value of that location's purchases |
| DashboardPage.LocationSumStep | src/pages/Dashboard.tsx:9-14 | one more purchase adds its value to its own location's row and to no other |
| DashboardPage.LocationTotalsCoverAll | src/pages/Dashboard.tsx:9-14 | with distinct locations and every purchase at a listed one, the location totals add up to the purchase total |
| DashboardPage.TopSuppliers | src/pages/Dashboard.tsx:17-20 | at most five suppliers, longest terms first, each taken from the list and none shown more often than the list holds it |
| DashboardPage.TopSuppliersAreTop | src/pages/Dashboard.tsx:17-20 | a supplier shown fewer times than the list holds it (one left out, in particular) has terms no longer than any supplier shown |
| DashboardPage.CategoryStats | src/pages/Dashboard.tsx:23-34 | the loop computes the fold of each category group, unknown SKUs under "Uncategorized" |
| DashboardPage.FoldIsCategorySums | src/pages/Dashboard.tsx:29-33 | a category entry holds the category and the QTY and value sums of its purchases |
| DashboardPage.CategoryContents | src/pages/Dashboard.tsx:25-34 | each category entry covers exactly the purchases counted under it |
| DashboardPage.CategorySumsCoverAll | src/pages/Dashboard.tsx:25-34 | the category sums add up to the total QTY and the total purchase value |
| DashboardPage.CategoryChart | src/pages/Dashboard.tsx:36-40 | the category entries, largest QTY first, none lost or added |
| DashboardPage.SupplierIdSet | src/pages/Dashboard.tsx:43 | exactly the supplier ids that occur in the purchases |
| DashboardPage.ActiveSuppliersBounds | src/pages/Dashboard.tsx:43 | between 1 and the number of purchases when there are any, 0 only without purchases, one per purchase when no supplier repeats |
| DashboardPage.TotalPurchases | src/pages/Dashboard.tsx:42 | the total value is 0 without purchases and never negative when no value is |
| DashboardPage.ActiveSuppliers | src/pages/Dashboard.tsx:43 | the active-supplier count is 0 exactly when there is no purchase |
| DashboardPage.HigherPricedItems | src/pages/Dashboard.tsx:46-54 | at most ten bars of undercutting records, lowest index first, every index below 100 percent, none shown more often than the records yield it |
| DashboardPage.AsUndercut | src/pages/Dashboard.tsx:48-52 | a bar is labelled store and location and names the item; its percentage is below 100 exactly when the record undercuts |
| DashboardPage.HigherPricedAreWorst | src/pages/Dashboard.tsx:46-54 | a bar of an undercutting record shown fewer times than the records yield it (one left out, in particular) has an index no lower than any bar shown |
| DashboardPage.LowestBars | src/pages/Dashboard.tsx:53-54 | the first ten of the ascending sort are in order, as many as there are bars up to ten, and picked from the bars |
| SelectOptions.FilterOptions | src/components/SearchableSelect.tsx:36-39 | exactly the options whose label or value contains the term, ignoring case, in order; an empty term keeps all |
| SelectOptions.ClickHeader | src/components/SearchableSelect.tsx:48-51 | the header click flips the open state and clears the search |
| SelectOptions.ClickHeaderTwice | src/components/MultiSelect.tsx:54-57 | two header clicks restore the open state and leave the search cleared |
| SelectOptions.TypeTerm | src/components/SearchableSelect.tsx:69 | typing replaces the term and keeps the open state |
| SelectOptions.ClickOutside | src/components/SearchableSelect.tsx:25-34 | a click outside shuts the list and keeps the term |
| MultiSelect.ToggleOption | src/components/MultiSelect.tsx:37-43 | a selected value loses every copy, an unselected one is appended; every other value keeps its membership |
| MultiSelect.ToggleOptionTwice | src/components/MultiSelect.tsx:37-43 | picking and unpicking an option restores the selection exactly |
| MultiSelect.RemoveOption | src/components/MultiSelect.tsx:45-48 | every copy of the value goes and every other value keeps its count and order |
| MultiSelect.RemoveIsToggleOff | src/components/MultiSelect.tsx:37-48 | removing a selected value is toggling it; removing an unselected one changes nothing |
| MultiSelect.Chips | src/components/MultiSelect.tsx:59-73 | the chips carry exactly the selected values that have an option, in selection order and with repeats; each chip is the first option with its value |
| MultiSelect.ChipsCount | src/components/MultiSelect.tsx:59-62 | at most one chip per selected value, each for a selected value, and one for every value when all values have an option |
| SearchableSelect.SelectedOption | src/components/SearchableSelect.tsx:23 | the first option with the current value, or none exactly when no option has it |
| SearchableSelect.HeaderText | src/components/SearchableSelect.tsx:53-55 | the label of the first option with the current value, as `find` returns it, else the placeholder |
| SearchableSelect.Choose | src/components/SearchableSelect.tsx:81-84 | choosing emits the option's value and shuts the list |
| SearchableSelect.ChosenIsShown | src/components/SearchableSelect.tsx:23-84 | after a choice the header shows the chosen label, unless an earlier option has the same value |

## Left out

- Network and timers:
  - the `fetch` calls, `console` logging and the 3-second notification timers
  - the `test_*.js` scripts and `server.ts`
  - how the network, the clock and the random draw behave: each is a parameter of the operation that uses it
- Concurrency beyond the in-flight guard: the server model settles one read at a time, and interleaving of client requests is not modelled.
- JSON decoding:
  - The server's snapshot is a JSON value whose object fields hold opaque values.
  - Decoding that value into the client's `RawSnapshot` is not modelled: the client store starts from an already-structured snapshot.
- ServerCache.SyncCache: a truthy snapshot that is not a JSON object (a number, a string, an array) is left unpatched.
  - In JavaScript, setting a field on a primitive throws in strict mode or is ignored.
  - On an array it adds a property that `JSON.stringify` drops.
- Floating point:
  - Prices, quantities and terms are integers.
  - Ratios (price per unit, pricing index, daily average) are exact reals, not IEEE doubles.
  - ForecastPage.Forecast30 can therefore differ from the source where double rounding matters. For example, 25 units over 3 days gives `Math.ceil(25/3*30) = 251` in doubles, while the exact value is 250.
  - `toFixed(2)` in the undercut chart is not modelled: DashboardPage.HigherPricedItems keeps the unrounded percentage.
- `Number(...)` on text cells: `None` stands for `NaN`, and `Number` on other kinds of cell values is not modelled.
- Object key order:
  - `Object.values` and `Object.entries` list integer-like keys first in ascending order.
  - The grouping model always lists keys in first-seen order, so for ordinary keys the order differs from the source only for keys such as `"12"`.
  - The accumulators are plain `{}` objects, so a key that names an inherited `Object.prototype` member (`constructor`, `toString`, `valueOf`, `hasOwnProperty`, `isPrototypeOf`, `propertyIsEnumerable`, `toLocaleString`, `__proto__` and the `__define…`/`__lookup…` accessors) is already truthy before any group is made. The model treats such a key like any other. The two members below differ from the source for these keys.
  - The keys of ForecastPage.ForecastData (`sku-location`) and PricingIndexPage.Summary (`sku-location-grade`) always contain a dash, and no `Object.prototype` member name does, so those two groupings cannot meet such a key.
- ForecastPage.SummaryData: for a SKU that names an inherited `Object.prototype` member, `!acc[key]` is false at src/pages/Forecast.tsx:150, no group is created, and `acc[key].dates.add(...)` at line 158 throws a TypeError, so the summary table fails to render. The model returns an ordinary row for that SKU.
- DashboardPage.CategoryStats: for a category that names an inherited `Object.prototype` member, src/pages/Dashboard.tsx:29-33 creates no own entry. The `+=` writes land on the inherited value, and `Object.entries` at line 36 omits them, so those purchases are missing from the category chart. The model lists such a category with its sums.
- DashboardPage.CategorySumsCoverAll: for the same reason, the source's chart does not account for every purchase when a category names an inherited `Object.prototype` member. The lemma holds of the model, which has no inherited keys.
- ItemsPage.FillPrices: a location named `__proto__` is the one name for which `newPrices[loc] = {...}` at src/pages/Items.tsx:61 (and `prices[loc]` at line 125) replaces the object's prototype instead of adding an own entry, so the source's price table has no entry for it. The model adds the entry like any other.
- Text.Lower: `toLowerCase` is modelled for ASCII letters only. Locale and Unicode case mapping are not modelled.
- Text.LexLe: dates are compared as strings character by character. Dafny characters are Unicode scalar values where JavaScript compares UTF-16 code units; the two orders differ only beyond the Basic Multilingual Plane. Dates are not parsed.
- React rendering, modals, the confirm dialog and the navigation are not modelled. Only the state each handler computes is.
- The spreadsheet reading and writing in `src/utils/excel.ts` is not part of this model. Rows arrive as already-read cells, and every cell other than a number column is taken to be text.
- ItemsPage.ParseRow: the item upload keeps the raw SKU and name cells without converting them to text (src/pages/Items.tsx:115-116, 134-135), unlike the supplier and purchase uploads. The model reads them as text. A numeric `0` cell is falsy and drops the row in the source, while the model accepts the text `"0"`.
- ItemsPage.Upload: for the same reason, a numeric SKU cell never `===`-matches an existing text SKU in the source (src/pages/Items.tsx:150) and is appended as a second item. The model compares text, so it merges the two.
- The dashboard's `lastUpdatedDate` and chart styling are not modelled.
- DashboardPage.LocationTotalsCoverAll requires distinct locations and every purchase at a listed location. Without these, the source double-counts or drops purchases, which the lemma does not describe.
