# Azure price and SKU import, modelled in Dafny

This project models the import pipeline of a cloud-cost backend. It has two
importers that write to a relational store.

- `ImportData` pages through the Azure retail price feed, which is filtered to
  "Virtual Machines". For every price item it finds or creates the provider
  "Azure", the item's region and the service "Virtual Machines". The region is
  keyed by the item's `location`.
- `ImportSkuData` loads the environment and fetches the subscription's SKU
  catalog with a bearer token. It then pages through the same price feed. Each
  usable price item is matched by `armSkuName` to a catalog entry, and one
  `Sku` row is stored with four hardware capabilities read from that entry.
  After every ten pages the import pauses.

The modules are:

- `Json`: the decoded JSON values and Go's `safeString`.
- `Strconv`: the `atoi` helper, following Go's `strconv.Atoi`.
- `Store`: the four tables, and a `Db` class whose methods are GORM's
  `FirstOrCreate`, `First` and `Create`.
- `Paging`: the pagination loop the two importers share, and the batch counter.
- `Catalog`: matching a price item to a catalog entry, and the capability loop.
- `DataImport` and `SkuImport`: the two importers.
- `Scenarios`: both importers run in turn on a concrete feed.

Each importer is written twice:

- An imperative method over a `Db` object: `DataImport.ImportData` and
  `SkuImport.ImportSkuData`.
- A specification function over `Tables` values: `DataRun` and `SkuRun`.

Each method is proved to end in the state its function gives. The lemmas state
what the functions promise.

The environment is modelled as parameters:

- An HTTP fetcher is the finite list of responses it gives, in call order. The
  SKU catalog is a function from URL to response, so the URL used is part of
  the model.
- A database that can fail is a script of faults. Each call takes the next
  entry of the script and fails when the entry is `true`. A failing call
  changes no table.
- A Go panic, from an unchecked type assertion, is the outcome `Panicked`.

## Model

| member | source | states |
|---|---|---|
| Json.SafeString | services/sku_import.go:207-210 | succeeds exactly on strings, giving the string; otherwise "" and false |
| Strconv.ParseInt | services/sku_import.go:213-219 | accepts exactly an optional sign followed by one or more decimal digits whose value fits in a 64-bit int, and then gives that value |
| Strconv.Atoi | services/sku_import.go:213-219 | the value of a well-formed decimal string that fits in 64 bits, and 0 otherwise: for a malformed string and on overflow |
| Strconv.AtoiFormatInt | services/sku_import.go:213-219 | `atoi` reads back every 64-bit integer from its decimal rendering |
| Strconv.AtoiOverflowIsZero | services/sku_import.go:213-219 | 2^63 parses to 0 (overflow is an error) while -2^63 parses to itself |
| Strconv.AtoiExamples | services/sku_import.go:213-219 | "notanumber", "" and "-" give 0; "+8" gives 8; "-12" gives -12 |
| Store.ResolveProvider | services/data_import.go:37-43 | the provider find-or-create on a store value; its behaviour is stated by `Store.ResolveProviderSpec` |
| Store.ResolveRegion | services/data_import.go:46-56 | the region find-or-create on a store value; its behaviour is stated by `Store.ResolveRegionSpec` |
| Store.ResolveService | services/data_import.go:59-68 | the service find-or-create on a store value; its behaviour is stated by `Store.ResolveServiceSpec` |
| Store.ResolveProviderSpec | services/data_import.go:37-43 | provider find-or-create: returns the first row named "Azure" unchanged, or appends one under the next ID; a failing call changes no table and returns the zero-ID struct; the ID counter advances only when a row is created; IDs stay ordered |
| Store.ResolveRegionSpec | services/data_import.go:46-56 | region find-or-create keyed by code alone: an existing code is returned as stored whatever its name; a new region takes the next ID and the caller's provider, code and name; the ID counter advances only when a row is created |
| Store.ResolveServiceSpec | services/data_import.go:59-68 | service find-or-create keyed by name, with the same first-row, append, failure and counter behaviour |
| Store.ResolveKeepsKeysUnique | services/data_import.go:36-68 | find-or-create never adds a second row with an existing provider name, region code or service name |
| Store.ResolveProviderKeepsConsistent | services/data_import.go:37-43 | on a store with ordered IDs and unique natural keys, the provider find-or-create keeps both |
| Store.ResolveRegionKeepsConsistent | services/data_import.go:46-56 | the region find-or-create keeps IDs ordered and region codes unique, along with the other keys |
| Store.ResolveServiceKeepsConsistent | services/data_import.go:59-68 | the service find-or-create keeps IDs ordered and service names unique, along with the other keys |
| Store.ServiceNamed | services/sku_import.go:146-149 | `First` on services by name; stated by `Store.LookupSpec` |
| Store.RegionNamed | services/sku_import.go:151-154 | `First` on regions by name; stated by `Store.LookupSpec` |
| Store.LookupSpec | services/sku_import.go:146-154 | `First` finds the first row, in ID order, with the service name or region name, and finds one exactly when one exists and the call does not fail |
| Store.InsertSkuSpec | services/sku_import.go:177-182 | `Create` appends the sku under the next ID unless the call fails; nothing else changes |
| Store.InsertSku | services/sku_import.go:177-182 | `Create` on a store value; stated by `Store.InsertSkuSpec` |
| Store.Db.FirstOrCreateProvider | services/data_import.go:37-38 | the store and result are those of `ResolveProvider` on the old store, and the store keeps its IDs ordered and its provider names, region codes and service names unique |
| Store.Db.FirstOrCreateRegion | services/data_import.go:46-51 | the store and result are those of `ResolveRegion` on the old store, and the store keeps its IDs ordered and its provider names, region codes and service names unique |
| Store.Db.FirstOrCreateService | services/data_import.go:59-63 | the store and result are those of `ResolveService` on the old store, and the store keeps its IDs ordered and its provider names, region codes and service names unique |
| Store.Db.FirstServiceNamed | services/sku_import.go:146-149 | the store and result are those of `ServiceNamed` on the old store, and the store keeps its IDs ordered and its provider names, region codes and service names unique |
| Store.Db.FirstRegionNamed | services/sku_import.go:151-154 | the store and result are those of `RegionNamed` on the old store, and the store keeps its IDs ordered and its provider names, region codes and service names unique |
| Store.Db.CreateSku | services/sku_import.go:177-182 | the new store is `InsertSku` of the old one, with IDs still ordered and natural keys still unique |
| Paging.PageItems | services/data_import.go:23-26 | a page has items exactly when `Items` is an array |
| Paging.NextLink | services/data_import.go:72-76 | the loop ends exactly when `NextPageLink` is missing, not a string, or empty; otherwise it follows that link |
| Paging.Visit | services/data_import.go:17-26 | one page fetches one URL; it counts as finished exactly when it completes, and it completes or panics only when the fetch worked and `Items` is an array |
| Paging.Walk | services/data_import.go:15-77 | the page loop from a URL; its shape is stated by `Paging.WalkHasShape`, its effect by `Paging.WalkExtends`, `Paging.WalkKeeps` and `Paging.AbortKeepsEarlierPages` |
| Paging.VisitStep | services/data_import.go:15-77 | one turn of the loop: after the next page, the run goes on from that page's link exactly when the page completed with a non-empty link, and otherwise ends with that page |
| Paging.WalkHasShape | services/data_import.go:15-77 | the URLs fetched are the first URL then each page's next link; a run completes on a page with items and no link, aborts on a failed fetch or malformed `Items`, and counts its finished pages |
| Paging.WalkAbortsOnPage | services/data_import.go:17-26 | the page loop fails only with a price-page error |
| Paging.WalkExtends | services/data_import.go:15-77 | when each page only adds rows, the whole run only adds rows |
| Paging.WalkKeeps | services/data_import.go:15-77 | a store property that every page keeps holds after the run |
| Paging.AbortKeepsEarlierPages | services/data_import.go:17-26 | no rollback: an aborted run leaves the store as the earlier pages left it |
| Paging.Tick | services/sku_import.go:185-195 | the new counter is the old one plus one, modulo 10, and a pause happens exactly when it reaches 10 |
| Paging.Ticks | services/sku_import.go:185-195 | the batch counter after n pages; stated by `Paging.TicksCount` |
| Paging.TicksCount | services/sku_import.go:185-195 | after n pages the counter is n mod 10, and there have been n div 10 pauses |
| Catalog.FirstMatch | services/sku_import.go:96-112 | the first catalog entry, in catalog order, that is an object named `armSkuName`; none exactly when no such entry exists |
| Catalog.FindMatch | services/sku_import.go:96-112 | the matching loop finds exactly `FirstMatch`, and the entry found carries the name searched for |
| Catalog.ReadCapability | services/sku_import.go:124-139 | one entry panics exactly when it is `vCPUs` with a non-string value; otherwise it overwrites the one field it names and keeps the other three |
| Catalog.ReadCapabilities | services/sku_import.go:124-139 | the capability loop; stated by `Catalog.CapabilitiesPanicIff`, `Catalog.UnnamedSlotKeeps` and `Catalog.LastEntryWins` |
| Catalog.SkuCapabilities | services/sku_import.go:119-140 | all zero values when `capabilities` is absent or not an array |
| Catalog.ExtractCapabilities | services/sku_import.go:119-140 | the loop over four accumulators computes `SkuCapabilities` |
| Catalog.UnnamedSlotKeeps | services/sku_import.go:119-140 | a field that no entry names keeps its zero value |
| Catalog.LastEntryWins | services/sku_import.go:124-139 | with repeated names, the last entry naming a field decides its value |
| Catalog.CapabilitiesPanicIff | services/sku_import.go:131 | the loop panics exactly when some `vCPUs` entry has a non-string value |
| Catalog.SkuCapabilitiesPanicIff | services/sku_import.go:122-131 | reading an entry's capabilities panics exactly when they are an array holding such a `vCPUs` entry |
| Catalog.VcpusNotANumber | services/sku_import.go:129-131 | a `vCPUs` value of "notanumber" gives 0 vCPUs |
| DataImport.DataItem | services/data_import.go:29-68 | one price item of the price import; stated by `DataImport.DataItemSpec`, `DataImport.DataItemCovers` and `DataImport.CoveredItemStable` |
| DataImport.DataItems | services/data_import.go:29-69 | the item loop of one page; stated by `DataImport.DataItemsSpec`, `DataImport.DataItemsCover` and `DataImport.DataItemsTwice` |
| DataImport.DataRun | services/data_import.go:11-81 | the whole price import; stated by `DataImport.DataRunKeepsKeysUnique`, `DataImport.DataRunExtendsFrom` and `DataImport.DataRunRerun` |
| DataImport.DataItemSpec | services/data_import.go:29-68 | an item panics exactly when it is not an object; otherwise it only adds provider, region and service rows, keeps IDs ordered and never touches skus |
| DataImport.DataItemsSpec | services/data_import.go:29-69 | a page panics exactly when one of its items is not an object, and only adds rows |
| DataImport.DataItemCovers | services/data_import.go:36-68 | once an item is processed on a working store, "Azure", its region code and "Virtual Machines" all exist |
| DataImport.CoveredItemStable | services/data_import.go:36-68 | an item whose rows exist changes no table whichever of its three store calls fail (they only use up their fault entries), and changes nothing on a store whose calls do not fail |
| DataImport.DataItemsCover | services/data_import.go:29-69 | after a page on a store whose calls do not fail, every item up to the first panic is covered |
| DataImport.CoveredItemsStable | services/data_import.go:29-69 | a covered page changes no table whichever store calls fail, and changes nothing on a store whose calls do not fail |
| DataImport.DataItemsTwice | services/data_import.go:29-69 | after a first pass on a store whose calls do not fail, a second pass over the page panics as the first did and adds no rows whichever of its calls fail; with no failures it is processing the page once |
| DataImport.DataItemsKeepKeysUnique | services/data_import.go:36-68 | a page keeps provider names, region codes and service names unique |
| DataImport.ProviderFailureOrphans | services/data_import.go:37-62 | when the provider call fails, the new region and service are stored with provider ID 0 |
| DataImport.NewRegionFromItem | services/data_import.go:32-56 | a new region takes its code from `location`, its name from `armRegionName` and the ID of the "Azure" provider |
| DataImport.DataRunKeepsKeysUnique | services/data_import.go:15-77 | a whole run never duplicates a provider, region code or service |
| DataImport.DataRunExtendsFrom | services/data_import.go:15-77 | a whole run only adds rows |
| DataImport.WalkRerun | services/data_import.go:15-77 | after a run on a store whose calls do not fail, the same run on any store holding its rows fetches the same URLs, ends the same way, finishes as many pages and changes no table, whichever of its calls fail |
| DataImport.DataRunRerun | services/data_import.go:11-81 | idempotence: after an import on a store whose calls do not fail, a second import over the same feed fetches the same URLs, ends as the first did and changes no table, whichever of its store calls fail; with no failures it changes nothing at all |
| DataImport.ImportItems | services/data_import.go:29-69 | the item loop ends in the state `DataItems` gives, and panics when it does |
| DataImport.ImportData | services/data_import.go:11-81 | the importer's outcome, final store and URLs fetched are those of `DataRun` |
| SkuImport.CatalogUrl | services/sku_import.go:31-34 | the catalog URL carries the subscription ID after the fixed prefix |
| SkuImport.NewSku | services/sku_import.go:157-175 | the row built for a matched item; its fields are stated by `SkuImport.SkuItemInsertsIff` |
| SkuImport.SkuItem | services/sku_import.go:71-183 | one price item of the SKU import; stated by `SkuImport.SkuItemKeepsOthers`, `SkuImport.SkuItemPanicIff` and `SkuImport.SkuItemInsertsIff` |
| SkuImport.SkuItems | services/sku_import.go:71-183 | the item loop of one page; stated by `SkuImport.SkuItemsKeepOthers`, `SkuImport.SkuItemsPanicAt` and `SkuImport.SkuItemsWithoutService` |
| SkuImport.CatalogEntries | services/sku_import.go:16-51 | the steps before the first price page; stated by `SkuImport.SkuRunSetupFailure` |
| SkuImport.SkuRun | services/sku_import.go:15-204 | the whole SKU import; stated by `SkuImport.SkuRunSetupFailure`, `SkuImport.SkuRunKeepsOthers` and `SkuImport.SkuRunWithoutService` |
| SkuImport.SkuItemKeepsOthers | services/sku_import.go:71-183 | an item never writes providers, regions or services, and only appends skus |
| SkuImport.SkuItemPanicIff | services/sku_import.go:122-131 | an item panics exactly when it is matched and its entry has a `vCPUs` capability with a non-string value |
| SkuImport.SkuItemInsertsIff | services/sku_import.go:71-182 | a row is stored exactly when the item is an object with string `armSkuName` and `type`, it matches a catalog entry, and the service lookup, region lookup and insert all succeed. The row joins the first match, the first "Virtual Machines" service and the first region named `armRegionName`, and takes the entry's name, size and capabilities, the item's `type`, `skuId`, `skuName`, `productName` and `serviceFamily`, and no instance SKU, operating system or storage |
| SkuImport.SkuItemTwice | services/sku_import.go:157-182 | skus have no key: importing an item again stores a second row |
| SkuImport.SkuItemsKeepOthers | services/sku_import.go:71-183 | a page only appends skus, and panics exactly at an item that panics |
| SkuImport.SkuItemsPanicAt | services/sku_import.go:71-183 | a page panics exactly when some item panics on the store the items before it left |
| SkuImport.SkuItemsWithoutService | services/sku_import.go:146-149 | without a "Virtual Machines" service, a page stores nothing |
| SkuImport.SkuRunSetupFailure | services/sku_import.go:15-51 | the run fails before any price request exactly when the env file did not load, the subscription ID is empty, there is no token, the catalog fetch fails or the catalog's `value` is not an array; it then leaves the store unchanged |
| SkuImport.SkuRunKeepsOthers | services/sku_import.go:15-204 | a whole SKU run only adds skus |
| SkuImport.SkuRunWithoutService | services/sku_import.go:146-149 | run before the service exists, the SKU importer stores nothing |
| SkuImport.ImportSkuItems | services/sku_import.go:71-183 | the item loop ends in the state `SkuItems` gives, and panics when it does |
| SkuImport.ImportPricePage | services/sku_import.go:59-183 | one price page: the outcome and new store are those of `Paging.Visit` with the SKU item loop, and a completed page was fetched |
| SkuImport.CountPage | services/sku_import.go:185-195 | the batch counter after one more page is where `Paging.Ticks` puts it: below 10, reset with a pause on the tenth page |
| SkuImport.ImportPricePages | services/sku_import.go:53-200 | the page loop's outcome, store and URLs are those of the shared page walk, with one pause per ten finished pages |
| SkuImport.ImportSkuData | services/sku_import.go:15-204 | the importer's outcome, final store and URLs fetched are those of `SkuRun`, and it pauses finished pages div 10 times |
| Scenarios.PriceThenSku | services/sku_import.go:15-204 | price import then SKU import on one item produce one provider, one region, one service and one sku with 2 vCPUs and "8" GB |
| Scenarios.PriceImportOnEmpty | services/data_import.go:11-81 | on an empty store, one page with one item creates "Azure", the item's region keyed by `location` and "Virtual Machines", each under ID 1, and completes |
| Scenarios.FailedPassNotIdempotent | services/data_import.go:36-68 | a first pass whose three store calls all fail stores no provider, and a second pass over the same item then creates "Azure": idempotence needs a first pass that did not fail |
| Scenarios.ItemMatchesEntry | services/sku_import.go:96-112 | the price item is not skipped and matches the catalog entry named by its `armSkuName` |
| Scenarios.EntryCapabilities | services/sku_import.go:119-140 | the entry with `vCPUs` "2" and `MemoryGB` "8" reads as 2 vCPUs, "8" GB and empty other fields |
| Scenarios.ItemStoredAfterPrices | services/sku_import.go:71-183 | after the price import, the item finds the service and the region and stores one sku joined to both |
| Scenarios.SkuPagesAfterPrices | services/sku_import.go:53-200 | the SKU import's page loop completes after one page with that sku stored |

## Left out

- HTTP, authentication and `.env` loading are parameters. The fetcher is a list of responses in call order. The catalog is a function of its URL. The environment is a record of whether the file loaded, the subscription ID and whether a token was obtained. The token's value is not passed on.
- `time.Sleep` between batches is counted as a pause, not slept.
- Logging and the final `Println` are not modelled. They have no effect on the store or the result.
- Error messages and wrapping: an error is one `ImportError` value per return site.
- GORM's SQL, timestamps (`CreatedDate`, `ModifiedDate`, `CreatedAt`, `UpdatedAt`) and the column size limits in the struct tags are not modelled. Nor are database-level constraints, or the store truncating or rejecting long strings.
- Concurrency: the store is used by one import at a time. Races between two concurrent find-or-create calls are not modelled.
- `DataImport.ImportData`, `SkuImport.ImportSkuData` and the `Db` methods are proved for a store with no duplicate provider names, region codes or service names, which is what these importers leave behind. `DataRun` and `SkuRun` cover every store.
- A fetcher that has no more responses ends the run with `OutOfResponses`. The real feed is unbounded, and a feed that never ends is not modelled.
- JSON numbers, booleans and `null` are one value, `JOther`, since the importers only test for strings, arrays and objects.
- Go's `int` is modelled as 64 bits. `atoi` follows `strconv.Atoi`: an optional sign and decimal digits, with out-of-range values an error.
- The `Price` and `Term` tables and the other services, handlers and models of the repository are not part of this model.

Capability extraction can panic. `capability["value"].(string)` at
services/sku_import.go:131 is not checked, so a `vCPUs` entry whose value is
not a string panics the import; see `Catalog.CapabilitiesPanicIff` and
`SkuImport.SkuItemPanicIff`.
