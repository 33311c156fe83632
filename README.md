# DealDetective in Dafny

DealDetective is an Android app that collects the current offers of three
Italian supermarkets (Esselunga, Carrefour, Tigros) into one local product
table and lets the user browse, filter and sort them. This project models
its core as Dafny modules, one per source file:

- **The stores service** (`StoresService`). It registers the three
  scrapers, seeds the versioned per-store settings, and runs the
  Idle/Running single-flight flag. A full retrieval walks the stores in
  registration order, and the scraper's promo code is written back to the
  settings.
- **The store-settings repository** (`StoresSettingsRepositories`). A
  DataStore holding a map from store id to `{type, store?}` plus a
  version. Enable and disable act on Toggle stores, insert and remove on
  Selectable ones, and there are typed errors for "not initialised",
  "not found" and "wrong type".
- **The three scrapers** (`TigrosScrapers`, `EsselungaScrapers`,
  `CarrefourScrapers`, on top of `Scraping`).
  - Promo-code discovery and the "same code, nothing to do" gate.
  - Delete-then-insert replacement of one store's rows.
  - How each product is built from a page item.
- **The product table** (`ProductStorage`, `ProductsRepositories`). The
  Room table is keyed by (name, store). The repository maps a product to
  a row and turns every exception into an error result.
- **The view-models**: the shared operation state (`BaseViewModels`),
  stores, products, the abstract products list, account, and account
  cloud backup. Plus the notification filter, the Esselunga web view's URL
  rules, the `Result` combinators and the product image choice.
- **The legacy `com.example` package**, still compiled into the app: the
  categories view-model, and the Esselunga and Tigros handlers over a
  table whose `@Insert` aborts on a taken key.

HTTP, HTML and JSON parsing are not modelled. Each web answer is a
parameter: a status, a promo code, the items of a page, and whether reading
a page raised. Storage faults are a `faulty` flag on the DataStore and DAO
classes. An exception that escapes to the coroutine (a failed `require`, a
failed cast, a missing lateinit, an `org.json` lookup that throws) is the
`Thrown` case of `Results.Completion`. Prices are `real`.


## Model

| member | source | states |
|---|---|---|
| Results.OnSuccess | app/src/main/java/com/the_stilton_assistants/dealdetective/util/Result.kt:17-22 | the action runs with the data exactly when the receiver is `Success`, and the receiver is returned unchanged |
| Results.OnError | app/src/main/java/com/the_stilton_assistants/dealdetective/util/Result.kt:27-32 | the action runs exactly when the receiver is `Error`; the receiver is returned |
| Results.OnServiceError | app/src/main/java/com/the_stilton_assistants/dealdetective/util/Result.kt:37-42 | the action runs exactly when the receiver is `ServiceLayerError`; the receiver is returned |
| Results.ChainRunsExactlyOne | app/src/main/java/com/the_stilton_assistants/dealdetective/util/Result.kt:9-42 | an `onSuccess`/`onError`/`onServiceError` chain runs exactly one action, the one matching the variant, and yields the receiver |
| Model.StoreIdOf | app/src/main/java/com/the_stilton_assistants/dealdetective/model/StoreId.kt:6-11 | the entry whose value is the number, and none for a number outside -1..2 |
| Text.Trim | app/src/main/java/com/the_stilton_assistants/dealdetective/service/stores/TigrosScraperService.kt:108 | `trim()` yields a slice of the input with no whitespace at either end, and drops only whitespace; whitespace is Kotlin's `Char.isWhitespace` set (the controls 9-13 and 28-31 and Unicode's space, line and paragraph separators) |
| Text.TrimIdempotent | app/src/main/java/com/the_stilton_assistants/dealdetective/service/stores/EsselungaScraperService.kt:104 | trimming a trimmed name changes nothing |
| Text.ToUpper | app/src/main/java/com/the_stilton_assistants/dealdetective/service/stores/EsselungaScraperService.kt:58 | `uppercase()` keeps the length and maps every ASCII lower-case letter to upper case |
| Text.ToLower | app/src/main/java/com/the_stilton_assistants/dealdetective/viewmodel/AProductsViewModel.kt:58 | the case folding behind `ignoreCase`: same length, upper-case ASCII letters mapped down |
| Text.RemovePrefix | app/src/main/java/com/the_stilton_assistants/dealdetective/webviews/EsselungaWebView.kt:20 | `removePrefix` drops the prefix exactly when the text starts with it |
| Text.RemoveSuffix | app/src/main/java/com/the_stilton_assistants/dealdetective/webviews/EsselungaWebView.kt:21 | `removeSuffix` drops the suffix exactly when the text ends with it |
| Text.SubstringAfterLast | app/src/main/java/com/the_stilton_assistants/dealdetective/service/stores/EsselungaScraperService.kt:58 | `substringAfterLast(".")`: the text after the last dot, holding no dot, or the whole text when there is none |
| Text.ContainsAt | app/src/main/java/com/the_stilton_assistants/dealdetective/viewmodel/AProductsViewModel.kt:58 | `contains` means an occurrence at some offset |
| Text.ContainsEmpty | app/src/main/java/com/the_stilton_assistants/dealdetective/viewmodel/AProductsViewModel.kt:58 | the empty query occurs in every name |
| Text.LexLeTotal | app/src/main/java/com/the_stilton_assistants/dealdetective/viewmodel/AProductsViewModel.kt:46 | the string order `sortedBy` uses compares any two names |
| Text.LexLeTrans | app/src/main/java/com/the_stilton_assistants/dealdetective/viewmodel/AProductsViewModel.kt:46 | that order is transitive |
| Text.LexLeAntisym | app/src/main/java/com/the_stilton_assistants/dealdetective/viewmodel/AProductsViewModel.kt:46 | two names each at most the other are equal |
| Listing.Filter | app/src/main/java/com/the_stilton_assistants/dealdetective/viewmodel/AProductsViewModel.kt:56-61 | `filter` keeps exactly the elements satisfying the test, as an order-preserving subsequence |
| Listing.FilterCount | app/src/main/java/com/the_stilton_assistants/dealdetective/viewmodel/AProductsViewModel.kt:56-61 | every copy of an element that passes the test is kept and no copy of one that fails it |
| Listing.FilterAll | app/src/main/java/com/the_stilton_assistants/dealdetective/viewmodel/ProductsViewModel.kt:168-179 | a test that holds everywhere keeps the whole list |
| Listing.FilterFilter | app/src/main/java/com/the_stilton_assistants/dealdetective/viewmodel/ProductsViewModel.kt:167-180 | filtering twice is filtering by the conjunction |
| Listing.SortBySorted | app/src/main/java/com/the_stilton_assistants/dealdetective/viewmodel/AProductsViewModel.kt:44-50 | `sortedBy` / `sortedByDescending` order the list by the key, ascending or descending |
| Listing.SortByPermutes | app/src/main/java/com/the_stilton_assistants/dealdetective/viewmodel/AProductsViewModel.kt:46-49 | the sorted list is a permutation of the input |
| Listing.SortByStable | app/src/main/java/com/the_stilton_assistants/dealdetective/viewmodel/AProductsViewModel.kt:46-49 | the elements sharing a key keep their input order |
| Listing.RemoveFirst | app/src/main/java/com/example/dealdetective/ui/viewmodel/CategoriesViewModel.kt:61-64 | `remove(x)` takes one copy of `x` out of the multiset of the list, keeps the rest in order, and changes nothing when `x` is absent |
| Listing.RemoveFirstAt | app/src/main/java/com/example/dealdetective/ui/viewmodel/CategoriesViewModel.kt:61-64 | the element `remove(x)` drops is the first occurrence: the list is cut at the first index holding `x` |
| Listing.RemoveFirstDistinct | app/src/main/java/com/the_stilton_assistants/dealdetective/viewmodel/ProductsViewModel.kt:157-162 | in a duplicate-free list, `remove(x)` removes every `x` and keeps the list duplicate-free |
| Listing.AppendDistinct | app/src/main/java/com/the_stilton_assistants/dealdetective/viewmodel/ProductsViewModel.kt:147-152 | appending an absent element keeps a list duplicate-free |
| ProductStorage.InsertRowsSpec | app/src/main/java/com/the_stilton_assistants/dealdetective/storage/room/ProductDao.kt:72-73 | a plain `@Insert` over the composite key succeeds exactly when no key is taken (by the table or earlier in the batch); then the old rows stay and each new row is stored under its key |
| ProductStorage.WithoutStore | app/src/main/java/com/the_stilton_assistants/dealdetective/storage/room/ProductDao.kt:102-103 | the table without exactly the rows of one store |
| ProductStorage.ProductDao.GetProductById | app/src/main/java/com/the_stilton_assistants/dealdetective/storage/room/ProductDao.kt:42-43 | the unique row with key (name, store), or none |
| ProductStorage.ProductDao.GetProductsByStore | app/src/main/java/com/the_stilton_assistants/dealdetective/storage/room/ProductDao.kt:66-67 | exactly the rows of that store |
| ProductStorage.ProductDao.GetProductsByStoreAndCategory | app/src/main/java/com/the_stilton_assistants/dealdetective/storage/room/ProductDao.kt:54-55 | exactly the rows of that store and category |
| ProductStorage.ProductDao.GetFavoriteProducts | app/src/main/java/com/the_stilton_assistants/dealdetective/storage/room/ProductDao.kt:78-79 | exactly the rows marked favourite |
| ProductStorage.ProductDao.GetBestDiscountProducts | app/src/main/java/com/the_stilton_assistants/dealdetective/storage/room/ProductDao.kt:28-37 | at most 100 rows, each with an original price above its discounted price, and all of them when there are at most 100 |
| ProductStorage.ProductDao.InsertAllProducts | app/src/main/java/com/the_stilton_assistants/dealdetective/storage/room/ProductDao.kt:72-73 | one transaction: every row added under its key, or a constraint violation with the table unchanged |
| ProductStorage.ProductDao.UpdateFavoriteStatus | app/src/main/java/com/the_stilton_assistants/dealdetective/storage/room/ProductDao.kt:84-85 | only the favourite flag of the row with that key changes; no row is added |
| ProductStorage.ProductDao.Delete | app/src/main/java/com/the_stilton_assistants/dealdetective/storage/room/ProductDao.kt:90-91 | the row under the argument's key is removed, and nothing else |
| ProductStorage.ProductDao.DeleteProductById | app/src/main/java/com/the_stilton_assistants/dealdetective/storage/room/ProductDao.kt:96-97 | the row with that key is removed, and nothing else |
| ProductStorage.ProductDao.DeleteProductsByStoreType | app/src/main/java/com/the_stilton_assistants/dealdetective/storage/room/ProductDao.kt:102-103 | exactly the rows of that store are removed |
| ProductStorage.ProductDao.DeleteAllProducts | app/src/main/java/com/the_stilton_assistants/dealdetective/storage/room/ProductDao.kt:108-109 | the table is empty |
| ProductsRepositories.ToRow | app/src/main/java/com/the_stilton_assistants/dealdetective/repository/products/ProductsRepository.kt:93-103 | the row carries all seven fields of the product, favourite flag and json included |
| ProductsRepositories.ToRows | app/src/main/java/com/the_stilton_assistants/dealdetective/repository/products/ProductsRepository.kt:93-103 | one row per product, in order, each with that product's fields and key |
| ProductsRepositories.Caught | app/src/main/java/com/the_stilton_assistants/dealdetective/repository/products/ProductsRepository.kt:106-109 | a raised exception becomes `Error(UnknownError)` with the fixed message, and no exception escapes |
| ProductsRepositories.Emits | app/src/main/java/com/the_stilton_assistants/dealdetective/storage/room/ProductDao.kt:23-61 | a query flow emits every row (`getAllProductsFlow`) or exactly the rows of its store (`getProductsByStoreFlow`) |
| ProductsRepositories.ProductsRepository.GetAllProducts | app/src/main/java/com/the_stilton_assistants/dealdetective/repository/products/ProductsRepository.kt:15-22 | every row, or the fixed error on a faulty database |
| ProductsRepositories.ProductsRepository.GetAllProductsFlow | app/src/main/java/com/the_stilton_assistants/dealdetective/repository/products/ProductsRepository.kt:24-31 | the getter always succeeds (building a Room query flow touches no database), and the flow it returns emits exactly the rows of the table |
| ProductsRepositories.ProductsRepository.GetProductsByStoreFlow | app/src/main/java/com/the_stilton_assistants/dealdetective/repository/products/ProductsRepository.kt:73-80 | the getter always succeeds, and the flow it returns emits exactly the rows of that store |
| ProductsRepositories.ProductsRepository.Collect | app/src/main/java/com/the_stilton_assistants/dealdetective/repository/products/ProductsRepository.kt:24-31 | collecting a flow runs the query: an unusable database throws to the collector; otherwise each row the flow selects is emitted exactly once |
| ProductsRepositories.ProductsRepository.GetProductById | app/src/main/java/com/the_stilton_assistants/dealdetective/repository/products/ProductsRepository.kt:42-49 | an absent key is `Success(null)`, not an error |
| ProductsRepositories.ProductsRepository.GetProductsByStore | app/src/main/java/com/the_stilton_assistants/dealdetective/repository/products/ProductsRepository.kt:82-89 | the store's rows, or the fixed error |
| ProductsRepositories.ProductsRepository.GetProductsByStoreAndCategory | app/src/main/java/com/the_stilton_assistants/dealdetective/repository/products/ProductsRepository.kt:61-71 | the store's rows of that category, or the fixed error |
| ProductsRepositories.ProductsRepository.InsertAllProducts | app/src/main/java/com/the_stilton_assistants/dealdetective/repository/products/ProductsRepository.kt:91-110 | every product stored as a row with all its fields, or nothing stored and the fixed error |
| ProductsRepositories.ProductsRepository.UpdateFavoriteStatus | app/src/main/java/com/the_stilton_assistants/dealdetective/repository/products/ProductsRepository.kt:121-129 | the row keyed by the product's name and store gets the flag; nothing else changes |
| ProductsRepositories.ProductsRepository.Delete | app/src/main/java/com/the_stilton_assistants/dealdetective/repository/products/ProductsRepository.kt:131-139 | a plain product fails the cast to a row and yields the fixed error with the table unchanged; a row is removed by its key |
| ProductsRepositories.ProductsRepository.DeleteProductById | app/src/main/java/com/the_stilton_assistants/dealdetective/repository/products/ProductsRepository.kt:141-149 | removes the row with that key, or yields the fixed error |
| ProductsRepositories.ProductsRepository.DeleteProductsByStoreType | app/src/main/java/com/the_stilton_assistants/dealdetective/repository/products/ProductsRepository.kt:151-159 | drops exactly one store's rows, or yields the fixed error |
| ProductsRepositories.ProductsRepository.DeleteAllProducts | app/src/main/java/com/the_stilton_assistants/dealdetective/repository/products/ProductsRepository.kt:161-169 | empties the table, or yields the fixed error |
| Scraping.ReadPrefix | app/src/main/java/com/the_stilton_assistants/dealdetective/service/stores/TigrosScraperService.kt:93-134 | the batches read before the first category page that raised, one per category |
| Scraping.ReadPrefixAll | app/src/main/java/com/the_stilton_assistants/dealdetective/service/stores/CarrefourScraperService.kt:44-106 | when every page is read, the pass inserts one batch per category, in category order |
| Scraping.AfterInsertSpec | app/src/main/java/com/the_stilton_assistants/dealdetective/service/stores/CarrefourScraperService.kt:105 | an insert whose result is ignored: when no key is taken every product is stored under its key with its fields, otherwise the table is as it was; old rows are never changed, and every row of the result is an old row or one of the batch |
| Scraping.ApplyBatchesSpec | app/src/main/java/com/the_stilton_assistants/dealdetective/service/stores/TigrosScraperService.kt:88-134 | a pass never touches another store's row and every row it adds carries a product it read; conversely, when no product's key is taken beforehand or shared with another product, every product read is stored |
| CarrefourScrapers.CarrefourCategoryIds | app/src/main/java/com/the_stilton_assistants/dealdetective/service/stores/CarrefourScraperService.kt:148 | `idList` has one id per entry, in declaration order |
| CarrefourScrapers.GetIcon | app/src/main/java/com/the_stilton_assistants/dealdetective/service/stores/CarrefourScraperService.kt:151-153 | the image of the first entry with that id; `NoSuchElementException` exactly when no entry has it |
| CarrefourScrapers.CategoryIdsDistinct | app/src/main/java/com/the_stilton_assistants/dealdetective/service/stores/CarrefourScraperService.kt:116-145 | no two entries share an id |
| CarrefourScrapers.GetIconOfEntry | app/src/main/java/com/the_stilton_assistants/dealdetective/service/stores/CarrefourScraperService.kt:151-153 | the icon of each entry's id is that entry's own image |
| CarrefourScrapers.CarrefourProductSpec | app/src/main/java/com/the_stilton_assistants/dealdetective/service/stores/CarrefourScraperService.kt:57-101 | trimmed name, CARREFOUR id, the category, not favourite; no original price exactly when `list` is null; promotion name and end date exactly when `promotionInfo` is not empty |
| CarrefourScrapers.CatalogAfterPass | app/src/main/java/com/the_stilton_assistants/dealdetective/service/stores/CarrefourScraperService.kt:38-106 | after a pass, other stores' rows are as they were and every CARREFOUR row is one the pass built; when the products read have distinct keys, every one of them is stored |
| CarrefourScrapers.BuildBatch | app/src/main/java/com/the_stilton_assistants/dealdetective/service/stores/CarrefourScraperService.kt:54-103 | the page's products in page order, or none at the first unreadable item |
| CarrefourScrapers.CarrefourScraperService.GetStoreDiscount | app/src/main/java/com/the_stilton_assistants/dealdetective/service/stores/CarrefourScraperService.kt:33-113 | CARREFOUR rows deleted first, a delete error returned as is, then one batch per category with results ignored; success is always `Success(null)`; a page that raises yields the service error with deleted rows not restored |
| EsselungaScrapers.StoreCodeOf | app/src/main/java/com/the_stilton_assistants/dealdetective/service/stores/EsselungaScraperService.kt:58 | the url `<prefix>.<code>.html` yields the upper-cased `code` |
| EsselungaScrapers.EsselungaProductSpec | app/src/main/java/com/the_stilton_assistants/dealdetective/service/stores/EsselungaScraperService.kt:104-125 | trimmed name, ESSELUNGA id, an original price always set, the first promotion price as discounted price, the category, not favourite |
| EsselungaScrapers.CatalogAfterPass | app/src/main/java/com/the_stilton_assistants/dealdetective/service/stores/EsselungaScraperService.kt:79-129 | after a pass, other stores' rows are as they were and every ESSELUNGA row is one the pass built, with its original price set; when the products read have distinct keys, every one of them is stored |
| EsselungaScrapers.BuildBatch | app/src/main/java/com/the_stilton_assistants/dealdetective/service/stores/EsselungaScraperService.kt:101-127 | the page's products in page order, or none at the first unreadable item |
| EsselungaScrapers.EsselungaScraperService.SaveNewStore | app/src/main/java/com/the_stilton_assistants/dealdetective/service/stores/EsselungaScraperService.kt:34-52 | `insertStore` with a store of promo code -1 and the url, and its result returned |
| EsselungaScrapers.EsselungaScraperService.ReplaceCatalog | app/src/main/java/com/the_stilton_assistants/dealdetective/service/stores/EsselungaScraperService.kt:85-129 | a category page that is not 200 is skipped and the rest still run; each batch is inserted with its result ignored; the first page that raises ends the pass |
| EsselungaScrapers.EsselungaScraperService.GetStoreDiscount | app/src/main/java/com/the_stilton_assistants/dealdetective/service/stores/EsselungaScraperService.kt:54-137 | non-200 store page: `IncorrectGetResponse`, nothing deleted; same promo code: `Success(null)`, nothing deleted; otherwise rows deleted first, a delete error returned, and on success the page's code returned |
| TigrosScrapers.Discover | app/src/main/java/com/the_stilton_assistants/dealdetective/service/stores/TigrosScraperService.kt:35-76 | a stored code other than -1 whose probe answers 200 with items is kept with no scan; otherwise leaflets 0..500 are scanned |
| TigrosScrapers.ScanSpec | app/src/main/java/com/the_stilton_assistants/dealdetective/service/stores/TigrosScraperService.kt:56-76 | the scan picks the first leaflet answering 200 with items, skipping the earlier ones, and finds none only when all up to 500 are skipped |
| TigrosScrapers.DiscoveredCodeRange | app/src/main/java/com/the_stilton_assistants/dealdetective/service/stores/TigrosScraperService.kt:51-71 | a discovered code is the stored one or in 0..500 |
| TigrosScrapers.TigrosProductSpec | app/src/main/java/com/the_stilton_assistants/dealdetective/service/stores/TigrosScraperService.kt:108-131 | trimmed name, TIGROS id, the category, not favourite; no original price exactly when `price == priceDisplay` |
| TigrosScrapers.CatalogAfterPass | app/src/main/java/com/the_stilton_assistants/dealdetective/service/stores/TigrosScraperService.kt:88-134 | after a pass, other stores' rows are as they were and every TIGROS row is one the pass built, not favourite; when the products read have distinct keys, every one of them is stored |
| TigrosScrapers.FindLeaflet | app/src/main/java/com/the_stilton_assistants/dealdetective/service/stores/TigrosScraperService.kt:35-76 | the probe-then-scan loop finds exactly what `Discover` says |
| TigrosScrapers.BuildBatch | app/src/main/java/com/the_stilton_assistants/dealdetective/service/stores/TigrosScraperService.kt:103-132 | the page's products in page order |
| TigrosScrapers.TigrosScraperService.ReplaceCatalog | app/src/main/java/com/the_stilton_assistants/dealdetective/service/stores/TigrosScraperService.kt:93-134 | each category batch inserted with its result ignored, pages not status-checked, the first page that raises ends the pass |
| TigrosScrapers.TigrosScraperService.GetStoreDiscount | app/src/main/java/com/the_stilton_assistants/dealdetective/service/stores/TigrosScraperService.kt:30-142 | no leaflet: `FlyerNotFound`, nothing deleted; the stored leaflet: `Success(null)`, nothing deleted; otherwise rows deleted first and `Success(code)` after a full pass; deleted rows are not restored when a later page raises |
| StoresSettingsRepositories.CheckCorrectType | app/src/main/java/com/the_stilton_assistants/dealdetective/repository/settings/StoresSettingsRepository.kt:177-184 | a missing entry is `StoreSettingsNotFound`, an entry of another type is `IncorrectStoreType`, and nothing else is an error |
| StoresSettingsRepositories.Apply | app/src/main/java/com/the_stilton_assistants/dealdetective/repository/settings/StoresSettingsRepository.kt:44-160 | default settings give `StoreSettingsNotInitialized`; enable/disable accept only Toggle entries, insert/remove only Selectable ones, and update-promo-code needs a bound store; on success only the target entry changes, keeping its type, with the version and every other entry the same |
| StoresSettingsRepositories.ApplyStore | app/src/main/java/com/the_stilton_assistants/dealdetective/repository/settings/StoresSettingsRepository.kt:52-151 | enable and insert bind the given store, disable and remove clear it, and update-promo-code changes only the code, keeping the url |
| StoresSettingsRepositories.UnbindIdempotent | app/src/main/java/com/the_stilton_assistants/dealdetective/repository/settings/StoresSettingsRepository.kt:74-119 | disabling or removing a second time gives the same settings |
| StoresSettingsRepositories.StoresSettingsRepository.GetStoresSettingsFlow | app/src/main/java/com/the_stilton_assistants/dealdetective/repository/settings/StoresSettingsRepository.kt:23-33 | the settings only once they are seeded; before that (and on an unusable DataStore) `UnknownError("An unknown error occurred")`, because the catch turns the initialisation failure into that error |
| StoresSettingsRepositories.StoresSettingsRepository.GetStoresSettings | app/src/main/java/com/the_stilton_assistants/dealdetective/repository/settings/StoresSettingsRepository.kt:35-42 | the settings with no initialisation check |
| StoresSettingsRepositories.StoresSettingsRepository.EnableStore | app/src/main/java/com/the_stilton_assistants/dealdetective/repository/settings/StoresSettingsRepository.kt:44-64 | the new settings are `Apply`'s, or the error is reported with the settings unchanged |
| StoresSettingsRepositories.StoresSettingsRepository.DisableStore | app/src/main/java/com/the_stilton_assistants/dealdetective/repository/settings/StoresSettingsRepository.kt:66-86 | as for enable, with the store cleared |
| StoresSettingsRepositories.StoresSettingsRepository.InsertStore | app/src/main/java/com/the_stilton_assistants/dealdetective/repository/settings/StoresSettingsRepository.kt:88-108 | as for enable, on a Selectable entry |
| StoresSettingsRepositories.StoresSettingsRepository.RemoveStore | app/src/main/java/com/the_stilton_assistants/dealdetective/repository/settings/StoresSettingsRepository.kt:110-131 | as for disable, on a Selectable entry |
| StoresSettingsRepositories.StoresSettingsRepository.UpdatePromoCode | app/src/main/java/com/the_stilton_assistants/dealdetective/repository/settings/StoresSettingsRepository.kt:133-160 | only the bound store's promo code changes, with no type check |
| StoresSettingsRepositories.StoresSettingsRepository.InitializeStoresSettings | app/src/main/java/com/the_stilton_assistants/dealdetective/repository/settings/StoresSettingsRepository.kt:162-170 | overwrites the settings with the argument, unconditionally |
| StoresService.SeededSettingsSpec | app/src/main/java/com/the_stilton_assistants/dealdetective/service/StoresServiceHandler.kt:82-91 | exactly one entry per registered scraper, typed with its scraper's type, with no store, at version 1, and not the default instance |
| StoresService.BoundSpec | app/src/main/java/com/the_stilton_assistants/dealdetective/service/StoresServiceHandler.kt:136-142 | a full pass retrieves exactly the registered stores whose entry has a store |
| StoresService.BoundOrder | app/src/main/java/com/the_stilton_assistants/dealdetective/service/StoresServiceHandler.kt:136-142 | any two stores a full pass retrieves come in registration order (ESSELUNGA, CARREFOUR, TIGROS) |
| StoresService.Settle | app/src/main/java/com/the_stilton_assistants/dealdetective/service/StoresServiceHandler.kt:187-234 | a scraper error is handed back with the settings unchanged; a store given for a Selectable scraper is refused; a failed enable of a given store clears the products and returns its error; a success with no code and no store changes nothing |
| StoresService.SettleRecordsPromoCode | app/src/main/java/com/the_stilton_assistants/dealdetective/service/StoresServiceHandler.kt:229-233 | a reported code is stored in the bound entry and nothing else changes; no code leaves the settings as they were |
| StoresService.SettleBindsGivenStore | app/src/main/java/com/the_stilton_assistants/dealdetective/service/StoresServiceHandler.kt:211-233 | a store given to a Toggle scraper is bound, and its reported code is the one stored |
| StoresService.Replacement | app/src/main/java/com/the_stilton_assistants/dealdetective/service/stores/TigrosScraperService.kt:88-142 | a catalogue replacement: an unusable database fails the deletion with its error and no change; otherwise the store's rows are replaced by the pages read up to the first that raises, and the code is reported exactly when every page was read, the fetch error otherwise |
| StoresService.ScraperOutcomeSpec | app/src/main/java/com/the_stilton_assistants/dealdetective/service/StoresServiceHandler.kt:198-214 | any scraper touches only its own store's rows, leaves an unusable database as it was, fails with `Error` only on the deletion; CARREFOUR never reports a code, and the others report one only when it differs from the store's and leave the table untouched when they report none |
| StoresService.PassStep | app/src/main/java/com/the_stilton_assistants/dealdetective/service/StoresServiceHandler.kt:139-141 | one store of a full pass throws exactly when its entry is missing from the current settings, and a `ServiceLayerError` leaves the settings unchanged |
| StoresService.PassStepKeepsOtherStores | app/src/main/java/com/the_stilton_assistants/dealdetective/service/StoresServiceHandler.kt:139-141 | one store of a full pass changes no other store's rows |
| StoresService.PassTrace | app/src/main/java/com/the_stilton_assistants/dealdetective/service/StoresServiceHandler.kt:136-150 | the stores a full pass retrieves are a prefix of the bound ones, in order, and all of them on success, which needs every id to have an entry; a returned failure is an `Error` from a retrieved store, never a `ServiceLayerError`; a throw is the `Store Settings not found` requirement, from a retrieved store or a missing entry |
| StoresService.PassKeepsOtherStores | app/src/main/java/com/the_stilton_assistants/dealdetective/service/StoresServiceHandler.kt:136-147 | a full pass leaves the rows of every store it does not retrieve as they were |
| StoresService.GetStoreCategory | app/src/main/java/com/the_stilton_assistants/dealdetective/service/StoresServiceHandler.kt:236-243 | the (id, name) pairs of the store's categories; UNKNOWN raises |
| StoresService.StoresServiceHandler.InitializeHandlers | app/src/main/java/com/the_stilton_assistants/dealdetective/service/StoresServiceHandler.kt:48-92 | nothing once the scrapers are set; otherwise the three scrapers are registered and, unless the stored version is already 1, the settings become the seeded ones |
| StoresService.StoresServiceHandler.Discount | app/src/main/java/com/the_stilton_assistants/dealdetective/service/StoresServiceHandler.kt:204-216 | the registered scraper's `getStoreDiscount`: its answer and the table it leaves are `ScraperOutcome`'s, so other stores' rows are untouched and a reported code differs from the store's |
| StoresService.StoresServiceHandler.RetrieveProducts | app/src/main/java/com/the_stilton_assistants/dealdetective/service/StoresServiceHandler.kt:187-234 | a settings read error or a missing entry ends it with nothing changed; an unregistered id is `Store not found`; otherwise the scraper's answer and the product table are `ScraperOutcome` on the given store or the entry's store (its rows cleared again when a failed enable deletes them), the settings and result are `Settle`'s, and other stores' rows are untouched |
| StoresService.StoresServiceHandler.SaveNewStore | app/src/main/java/com/the_stilton_assistants/dealdetective/service/StoresServiceHandler.kt:94-120 | unknown ids and non-Selectable scrapers are rejected before any change; for ESSELUNGA the store with promo code -1 is inserted, a failed insert is returned with nothing changed, and otherwise the product table is the ESSELUNGA scraper's `ScraperOutcome` and the result and settings are `Settle`'s |
| StoresService.StoresServiceHandler.RetrieveFromAllStores | app/src/main/java/com/the_stilton_assistants/dealdetective/service/StoresServiceHandler.kt:122-151 | while Running: `Success` and nothing changes; otherwise a settings read error is returned with nothing changed and the flag Idle, unset scrapers throw with nothing changed, and on readable settings the result, settings and product table are exactly `Pass` over the registration order; every returned result leaves the flag Idle and a throw leaves it Running |
| StoresService.StoresServiceHandler.RetrieveBound | app/src/main/java/com/the_stilton_assistants/dealdetective/service/StoresServiceHandler.kt:136-147 | the loop over the stores: its result, settings and product table are exactly `Pass` on the settings read first |
| StoresService.StoresServiceHandler.RetrieveForPass | app/src/main/java/com/the_stilton_assistants/dealdetective/service/StoresServiceHandler.kt:139-141 | one store of the full pass, with no store given: a settings read error changes nothing; for a registered entry, the table is the scraper's `ScraperOutcome` on the entry's store and the settings and result are `Settle`'s; on readable settings and set scrapers, the whole outcome is `PassStep` |
| StoresService.StoresServiceHandler.RetrieveSingleProducts | app/src/main/java/com/the_stilton_assistants/dealdetective/service/StoresServiceHandler.kt:153-185 | the flag is Running for one retrieval and Idle again on every returned result; a missing entry or unset scrapers throw leaving it Running; an unregistered id is `Store not found`; a failed settings read returns the fixed error; on those paths the settings and the table are unchanged; otherwise the scraper's answer and table are `ScraperOutcome`'s and the settings and result `Settle`'s; on every path no other store's rows change |
| BaseViewModels.Start | app/src/main/java/com/the_stilton_assistants/dealdetective/viewmodel/BaseViewModel.kt:26-31 | from any state but Loading the state becomes Loading; from Loading the `require` throws |
| BaseViewModels.StartTwiceThrows | app/src/main/java/com/the_stilton_assistants/dealdetective/viewmodel/BaseViewModel.kt:27-30 | two starts with nothing between them: the second always throws |
| BaseViewModels.Report | app/src/main/java/com/the_stilton_assistants/dealdetective/viewmodel/BaseViewModel.kt:44-52 | success reports `Success` with the message and type (INFO by default); either error kind reports `Error` with its message |
| BaseViewModels.ReportRepository | app/src/main/java/com/the_stilton_assistants/dealdetective/viewmodel/AccountViewModel.kt:227-235 | with only `onSuccess` and `onError` chained, a `ServiceLayerError` leaves the state Loading |
| BaseViewModels.BaseViewModel.StartOperation | app/src/main/java/com/the_stilton_assistants/dealdetective/viewmodel/BaseViewModel.kt:26-31 | the new state is `Start`'s, or the throw with the state unchanged |
| BaseViewModels.BaseViewModel.ResetOperation | app/src/main/java/com/the_stilton_assistants/dealdetective/viewmodel/BaseViewModel.kt:36-38 | Idle from any state |
| StoresViewModels.ReportUnbind | app/src/main/java/com/the_stilton_assistants/dealdetective/viewmodel/StoresViewModel.kt:104-122 | the settings error if unbinding failed, otherwise the deletion's outcome; success only when both succeed |
| StoresViewModels.StoresViewModel.Initialize | app/src/main/java/com/the_stilton_assistants/dealdetective/viewmodel/StoresViewModel.kt:49-77 | only the first call acts; it shows the settings, or the error when they cannot be read or were never seeded |
| StoresViewModels.StoresViewModel.EnableStore | app/src/main/java/com/the_stilton_assistants/dealdetective/viewmodel/StoresViewModel.kt:82-99 | a single-store retrieval with a fresh store of promo code -1, reported as `StoreEnabled` or the error of either kind; when the scraper ran, the table is its `ScraperOutcome` on that store and the settings are `Settle`'s; when it did not run, the settings and the table are unchanged; no other store's rows change |
| StoresViewModels.StoresViewModel.DisableStore | app/src/main/java/com/the_stilton_assistants/dealdetective/viewmodel/StoresViewModel.kt:104-122 | the settings are unbound first; the store's products are deleted only once that succeeded |
| StoresViewModels.StoresViewModel.RemoveStore | app/src/main/java/com/the_stilton_assistants/dealdetective/viewmodel/StoresViewModel.kt:147-165 | the same order, with `removeStore` |
| StoresViewModels.StoresViewModel.InsertStore | app/src/main/java/com/the_stilton_assistants/dealdetective/viewmodel/StoresViewModel.kt:127-142 | delegates to `saveNewStore` and reports `StoreAdded` or the error of either kind; for ESSELUNGA a failed insert changes nothing, otherwise the table is the scraper's `ScraperOutcome` on the new store and the settings and result are `Settle`'s; other stores are refused with nothing changed |
| AProductsViewModels.SortByNameSpec | app/src/main/java/com/the_stilton_assistants/dealdetective/viewmodel/AProductsViewModel.kt:44-53 | the products in name order (ascending or descending), as a permutation, stable on equal names |
| AProductsViewModels.EmptyQueryKeepsAll | app/src/main/java/com/the_stilton_assistants/dealdetective/viewmodel/AProductsViewModel.kt:58 | an empty query keeps every product, in order |
| AProductsViewModels.AProductsViewModel.constructor | app/src/main/java/com/the_stilton_assistants/dealdetective/viewmodel/AProductsViewModel.kt:17-18 | the order starts ASC and the query empty |
| AProductsViewModels.AProductsViewModel.SetProductsOrder | app/src/main/java/com/the_stilton_assistants/dealdetective/viewmodel/AProductsViewModel.kt:24-35 | the order is overwritten and nothing else changes |
| AProductsViewModels.AProductsViewModel.SetSearchQuery | app/src/main/java/com/the_stilton_assistants/dealdetective/viewmodel/AProductsViewModel.kt:37-42 | the query is overwritten and nothing else changes |
| AProductsViewModels.AProductsViewModel.ReordersProducts | app/src/main/java/com/the_stilton_assistants/dealdetective/viewmodel/AProductsViewModel.kt:44-53 | sorted by name in the current order, as a stable permutation of the input |
| AProductsViewModels.AProductsViewModel.ApplyFilter | app/src/main/java/com/the_stilton_assistants/dealdetective/viewmodel/AProductsViewModel.kt:55-62 | an order-preserving subsequence holding exactly the products whose name contains the query, ignoring case |
| ProductsViewModels.NoFilterKeepsAll | app/src/main/java/com/the_stilton_assistants/dealdetective/viewmodel/ProductsViewModel.kt:170-174 | no category and no query keep the whole list |
| ProductsViewModels.GetCategoryList | app/src/main/java/com/the_stilton_assistants/dealdetective/viewmodel/ProductsViewModel.kt:132-135 | the store's category pairs; UNKNOWN fails the `require` |
| ProductsViewModels.ProductsViewModel.ApplyFilter | app/src/main/java/com/the_stilton_assistants/dealdetective/viewmodel/ProductsViewModel.kt:167-180 | keeps, in input order, exactly the products passing both the category test and the query test |
| ProductsViewModels.ProductsViewModel.OnStoreSelected | app/src/main/java/com/the_stilton_assistants/dealdetective/viewmodel/ProductsViewModel.kt:71-91 | the chosen categories are cleared, the screen shows Loading, and the followed flow is the store's (every store's for UNKNOWN), emitting exactly those rows; the getters cannot fail, so the error branch is not taken |
| ProductsViewModels.ProductsViewModel.Initialize | app/src/main/java/com/the_stilton_assistants/dealdetective/viewmodel/ProductsViewModel.kt:66-70 | only the first call acts: it clears the categories, shows Loading and follows the selected store's flow; later calls change nothing |
| ProductsViewModels.ProductsViewModel.SelectStore | app/src/main/java/com/the_stilton_assistants/dealdetective/viewmodel/ProductsViewModel.kt:140-142 | the selection is stored; only when it changes and the view-model is initialised are the categories cleared, Loading shown and the new store's flow followed; otherwise nothing else changes |
| ProductsViewModels.ProductsViewModel.Refresh | app/src/main/java/com/the_stilton_assistants/dealdetective/viewmodel/ProductsViewModel.kt:94-123 | the filtered, reordered list next to the full one; an Error state fails the cast |
| ProductsViewModels.ProductsViewModel.OnEmission | app/src/main/java/com/the_stilton_assistants/dealdetective/viewmodel/ProductsViewModel.kt:92-123 | an emission of the followed flow: an unusable database throws with the screen unchanged; otherwise the emitted list holds the flow's rows once each and is shown as `Refresh` shows it, an Error state failing the cast |
| ProductsViewModels.ProductsViewModel.AddCategory | app/src/main/java/com/the_stilton_assistants/dealdetective/viewmodel/ProductsViewModel.kt:147-152 | a chosen category fails the `require`; a new one is appended, keeping the list duplicate-free |
| ProductsViewModels.ProductsViewModel.RemoveCategory | app/src/main/java/com/the_stilton_assistants/dealdetective/viewmodel/ProductsViewModel.kt:157-162 | a missing category fails the `require`; a chosen one is removed, keeping the list duplicate-free |
| SettingsRepositories.Number | app/src/main/java/com/the_stilton_assistants/dealdetective/viewmodel/AccountDatabaseViewModel.kt:57 | the image size's wire number; UNRECOGNIZED throws |
| SettingsRepositories.ForNumber | app/src/main/java/com/the_stilton_assistants/dealdetective/viewmodel/AccountDatabaseViewModel.kt:114 | the declared value with that number, or none |
| SettingsRepositories.ForNumberOfNumber | app/src/main/java/com/the_stilton_assistants/dealdetective/viewmodel/AccountDatabaseViewModel.kt:57-114 | `forNumber` inverts `getNumber` on every declared value |
| SettingsRepositories.SettingsRepository.CollectSettingsFlow | app/src/main/java/com/the_stilton_assistants/dealdetective/repository/settings/SettingsRepository.kt:16-23 | the getter cannot fail; collecting yields the stored settings, or throws on an unusable DataStore |
| SettingsRepositories.SettingsRepository.GetSettings | app/src/main/java/com/the_stilton_assistants/dealdetective/repository/settings/SettingsRepository.kt:25-32 | the stored settings, or the fixed error on an unusable DataStore |
| SettingsRepositories.SettingsRepository.UpdateSettings | app/src/main/java/com/the_stilton_assistants/dealdetective/repository/settings/SettingsRepository.kt:34-42 | the whole message replaced, or the fixed error with it unchanged |
| AccountViewModels.AccountStateOf | app/src/main/java/com/the_stilton_assistants/dealdetective/viewmodel/AccountViewModel.kt:55-67 | no user maps to NoUser, a user to User, an error to Error; a `ServiceLayerError` changes nothing |
| AccountViewModels.MergeProperties | app/src/main/java/com/the_stilton_assistants/dealdetective/viewmodel/AccountViewModel.kt:213-225 | each given field overrides, each omitted one is kept; omitting all asks for the current settings, and merging twice is merging once |
| AccountViewModels.AccountViewModel.Initialize | app/src/main/java/com/the_stilton_assistants/dealdetective/viewmodel/AccountViewModel.kt:50-82 | only the first call acts: the account state follows the current user, and collecting the settings flow shows the stored settings or, on an unusable DataStore, throws out of the collector with the settings screen unchanged |
| AccountViewModels.AccountViewModel.SignIn | app/src/main/java/com/the_stilton_assistants/dealdetective/viewmodel/AccountViewModel.kt:87-101 | a signed-in user becomes the account state; an error reaches only the operation state |
| AccountViewModels.AccountViewModel.SignUp | app/src/main/java/com/the_stilton_assistants/dealdetective/viewmodel/AccountViewModel.kt:106-120 | as for sign-in |
| AccountViewModels.AccountViewModel.SignOut | app/src/main/java/com/the_stilton_assistants/dealdetective/viewmodel/AccountViewModel.kt:125-141 | success is IMPORTANT and the account shows no user |
| AccountViewModels.AccountViewModel.SendPasswordResetEmail | app/src/main/java/com/the_stilton_assistants/dealdetective/viewmodel/AccountViewModel.kt:146-160 | success is FORCE |
| AccountViewModels.AccountViewModel.SendEmailVerification | app/src/main/java/com/the_stilton_assistants/dealdetective/viewmodel/AccountViewModel.kt:165-179 | success is FORCE |
| AccountViewModels.AccountViewModel.UpdateAccount | app/src/main/java/com/the_stilton_assistants/dealdetective/viewmodel/AccountViewModel.kt:184-201 | the outcome is reported; the account state is untouched |
| AccountViewModels.AccountViewModel.UpdateSettings | app/src/main/java/com/the_stilton_assistants/dealdetective/viewmodel/AccountViewModel.kt:206-237 | the settings on screen with the given fields overridden are stored; settings not on screen fail the cast |
| Notifications.ShowsByFilter | app/src/main/java/com/the_stilton_assistants/dealdetective/util/NotificationBubbleHandler.kt:14-24 | ALL shows everything, IMPORTANT hides only INFO, ERROR_ONLY hides INFO and IMPORTANT |
| Notifications.ErrorsAlwaysShown | app/src/main/java/com/the_stilton_assistants/dealdetective/util/NotificationBubbleHandler.kt:14-21 | ERROR and FORCE get through every filter |
| Notifications.FiltersNested | app/src/main/java/com/the_stilton_assistants/dealdetective/util/NotificationBubbleHandler.kt:14-21 | the shown sets are nested: ALL contains IMPORTANT, which contains ERROR_ONLY |
| Notifications.NotificationBubbleHandler.constructor | app/src/main/java/com/the_stilton_assistants/dealdetective/util/NotificationBubbleHandler.kt:11 | the filter starts at ALL |
| Notifications.NotificationBubbleHandler.DisplayBubble | app/src/main/java/com/the_stilton_assistants/dealdetective/util/NotificationBubbleHandler.kt:13-27 | one toast exactly when the filter lets the type through |
| EsselungaWebViews.ShouldOverrideUrlLoading | app/src/main/java/com/the_stilton_assistants/dealdetective/webviews/EsselungaWebView.kt:12-16 | the load is allowed exactly when the url starts with one of the three prefixes |
| EsselungaWebViews.OnPageFinished | app/src/main/java/com/the_stilton_assistants/dealdetective/webviews/EsselungaWebView.kt:18-30 | the callback, once, with ESSELUNGA and the url unchanged, exactly for a leaflet url whose stripped remainder is not 3 characters long |
| EsselungaWebViews.LeafletCheck | app/src/main/java/com/the_stilton_assistants/dealdetective/webviews/EsselungaWebView.kt:20-22 | the remainder after removing the prefix and ".html" has length 3 exactly when the url is a leaflet index |
| EsselungaWebViews.ReportedPagesAreReachable | app/src/main/java/com/the_stilton_assistants/dealdetective/webviews/EsselungaWebView.kt:12-30 | a page that reports a store is one the view lets the user load |
| EsselungaWebViews.StoreLeafletReported | app/src/main/java/com/the_stilton_assistants/dealdetective/webviews/EsselungaWebView.kt:18-30 | the Gallarate leaflet page is reported |
| ProductUtilities.GetProductImage | app/src/main/java/com/the_stilton_assistants/dealdetective/util/ProductUtils.kt:17-24 | the stored image url first, whatever the store; else a CARREFOUR product's category icon, which raises when no category has that id; else none |
| ProductUtilities.EsselungaProductImage | app/src/main/java/com/the_stilton_assistants/dealdetective/util/ProductUtils.kt:18-19 | an ESSELUNGA product shows its item's picture url |
| ProductUtilities.CarrefourProductImage | app/src/main/java/com/the_stilton_assistants/dealdetective/util/ProductUtils.kt:20-21 | a CARREFOUR product shows its category's icon and never raises |
| AccountDatabaseViewModels.Payload | app/src/main/java/com/the_stilton_assistants/dealdetective/viewmodel/AccountDatabaseViewModel.kt:55-58 | exactly the keys `imagesSize` (the enum number) and `boldText`; UNRECOGNIZED throws |
| AccountDatabaseViewModels.GetInt | app/src/main/java/com/the_stilton_assistants/dealdetective/viewmodel/AccountDatabaseViewModel.kt:114 | a number, truncated toward zero; a missing key or any other value throws |
| AccountDatabaseViewModels.GetBoolean | app/src/main/java/com/the_stilton_assistants/dealdetective/viewmodel/AccountDatabaseViewModel.kt:125 | a boolean, or a text spelling `true` or `false` in any letter case, read as that value; a missing key or any other value throws |
| AccountDatabaseViewModels.GetBooleanTexts | app/src/main/java/com/the_stilton_assistants/dealdetective/viewmodel/AccountDatabaseViewModel.kt:125 | "TRUE" and "True" read as true, "FALSE" and "False" as false, and "yes" throws |
| AccountDatabaseViewModels.GuardAsWritten | app/src/main/java/com/the_stilton_assistants/dealdetective/viewmodel/AccountDatabaseViewModel.kt:100-107 | as written, the check throws for a missing key and never rejects a present one |
| AccountDatabaseViewModels.Decode | app/src/main/java/com/the_stilton_assistants/dealdetective/viewmodel/AccountDatabaseViewModel.kt:93-126 | never crashes; an empty record was not uploaded; a record decodes exactly when it holds an integer image size with an enum value and a boolean bold-text flag |
| AccountDatabaseViewModels.AsWrittenCrashesOnMalformedRecord | app/src/main/java/com/the_stilton_assistants/dealdetective/viewmodel/AccountDatabaseViewModel.kt:100-114 | an image size stored as text, or a missing one, crashes as written and is reported corrupted as intended |
| AccountDatabaseViewModels.PayloadRoundTrip | app/src/main/java/com/the_stilton_assistants/dealdetective/viewmodel/AccountDatabaseViewModel.kt:57-126 | upload then retrieve restores the image size and the bold-text flag |
| AccountDatabaseViewModels.AccountDatabaseViewModel.UploadUserData | app/src/main/java/com/the_stilton_assistants/dealdetective/viewmodel/AccountDatabaseViewModel.kt:29-71 | a user or settings lookup error, or no user, is reported before any upload; otherwise the record is `Payload`'s and the upload's outcome is reported FORCE |
| AccountDatabaseViewModels.AccountDatabaseViewModel.RetrieveUserData | app/src/main/java/com/the_stilton_assistants/dealdetective/viewmodel/AccountDatabaseViewModel.kt:73-143 | (corrected) only a record `Decode` accepts replaces the settings, with the notification filter back to its default; every other record reports an error with the settings unchanged |
| LegacyStorage.InsertEachSpec | app/src/main/java/com/example/dealdetective/storage/room/ProductDao.kt:45-46 | one-at-a-time inserts keep the old rows, store each new row under its key, and stop at the first taken key |
| LegacyStorage.LegacyProductDao.GetProductById | app/src/main/java/com/example/dealdetective/storage/room/ProductDao.kt:27-28 | the row with that key, or none |
| LegacyStorage.LegacyProductDao.InsertProduct | app/src/main/java/com/example/dealdetective/storage/room/ProductDao.kt:45-46 | the row is added, or a taken key throws a constraint violation with the table unchanged |
| LegacyTigrosHandlers.PromoCode | app/src/main/java/com/example/dealdetective/repository/TigrosHandler.kt:28-42 | the first leaflet with items, or 500; always in 0..500 |
| LegacyTigrosHandlers.TigrosProduct | app/src/main/java/com/example/dealdetective/repository/TigrosHandler.kt:59-73 | the name as given, store 3, both prices, the category, brand and quantity in the json |
| LegacyTigrosHandlers.DuplicateCategoryAborts | app/src/main/java/com/example/dealdetective/repository/TigrosHandler.kt:11-76 | with the list as written, a leaflet with products in category 148031517 always hits a taken key |
| LegacyTigrosHandlers.CategoriesOnce | app/src/main/java/com/example/dealdetective/repository/TigrosHandler.kt:11 | the list as written repeats 148031517; the corrected list is the written one with that second entry replaced by 148031511, which the written list lacks, so it names each category once and holds exactly the 148031xxx categories of the newer TIGROS scraper |
| LegacyTigrosHandlers.FreshPassSucceeds | app/src/main/java/com/example/dealdetective/repository/TigrosHandler.kt:49-78 | with the corrected list, a table with none of the keys and distinct product names takes every product |
| LegacyTigrosHandlers.ScanLeaflets | app/src/main/java/com/example/dealdetective/repository/TigrosHandler.kt:28-42 | the loop's code is `PromoCode`, so the "not found" branch is unreachable |
| LegacyTigrosHandlers.GetStoreDiscount | app/src/main/java/com/example/dealdetective/repository/TigrosHandler.kt:13-79 | (corrected) non-200 store page: false, no change; otherwise the table is the one-by-one insertion of every product over the corrected category list, and the result is true or a constraint violation |
| LegacyEsselungaHandlers.EsselungaProduct | app/src/main/java/com/example/dealdetective/repository/EsselungaHandler.kt:103-113 | the title as given, store 2, both prices, the category, promotion name and percentage in the json |
| LegacyEsselungaHandlers.InsertNewKeeps | app/src/main/java/com/example/dealdetective/repository/EsselungaHandler.kt:101-119 | a product whose key is taken is skipped, so existing rows are never overwritten |
| LegacyEsselungaHandlers.PassKeeps | app/src/main/java/com/example/dealdetective/repository/EsselungaHandler.kt:86-120 | old rows stay; each added row has store 2, a listed category, and comes from a page that answered 200 |
| LegacyEsselungaHandlers.InsertNewOk | app/src/main/java/com/example/dealdetective/repository/EsselungaHandler.kt:101-119 | a page ends without an exception exactly when every item on it is readable |
| LegacyEsselungaHandlers.InsertNewOrigin | app/src/main/java/com/example/dealdetective/repository/EsselungaHandler.kt:101-119 | every key a page adds is the title of one of its items |
| LegacyEsselungaHandlers.InsertNewPresent | app/src/main/java/com/example/dealdetective/repository/EsselungaHandler.kt:101-119 | after a page that ended normally, every item's product key is in the table |
| LegacyEsselungaHandlers.InsertNewCovers | app/src/main/java/com/example/dealdetective/repository/EsselungaHandler.kt:101-119 | after a page that ended normally, the first item of each title whose key was free is stored exactly as built |
| LegacyEsselungaHandlers.PassCovers | app/src/main/java/com/example/dealdetective/repository/EsselungaHandler.kt:86-120 | after a pass that ended normally, every item of every page that answered 200 was readable and its product key is in the table |
| LegacyEsselungaHandlers.InsertNewPage | app/src/main/java/com/example/dealdetective/repository/EsselungaHandler.kt:101-119 | the loop's table is `InsertNew`'s |
| LegacyEsselungaHandlers.GetStoreDiscount | app/src/main/java/com/example/dealdetective/repository/EsselungaHandler.kt:63-123 | non-200: false; an unparsable code throws; the same code: true, no change; otherwise the store's code is updated before any category, then the pass runs |
| LegacyEsselungaHandlers.SaveNewStore | app/src/main/java/com/example/dealdetective/repository/EsselungaHandler.kt:35-61 | an existing store code: ERROR, no change; otherwise the store is added with code 0 and the url, and the outcome is SUCCESS, FAILURE or ERROR as the retrieval goes |
| LegacyCategoriesViewModels.ApplyFilter | app/src/main/java/com/example/dealdetective/ui/viewmodel/CategoriesViewModel.kt:87-93 | an order-preserving subsequence holding exactly the products matching the active categories and the query; no category and no query keep everything |
| LegacyCategoriesViewModels.ReordersProducts | app/src/main/java/com/example/dealdetective/ui/viewmodel/CategoriesViewModel.kt:79-85 | sorted by name in the current order, as a stable permutation |
| LegacyCategoriesViewModels.Refreshed | app/src/main/java/com/example/dealdetective/ui/viewmodel/CategoriesViewModel.kt:48-54 | the shown list is recomputed from the stored list; the stored list stays |
| LegacyCategoriesViewModels.EmittedAsWritten | app/src/main/java/com/example/dealdetective/ui/viewmodel/CategoriesViewModel.kt:40-43 | as written, the new list is shown but not stored |
| LegacyCategoriesViewModels.Emitted | app/src/main/java/com/example/dealdetective/ui/viewmodel/CategoriesViewModel.kt:40-43 | as intended, the new list is stored and shown, and a refresh changes nothing |
| LegacyCategoriesViewModels.EmissionLostOnRefresh | app/src/main/java/com/example/dealdetective/ui/viewmodel/CategoriesViewModel.kt:40-51 | as written, a refresh after a one-product emission shows nothing; as intended it shows the product |
| LegacyCategoriesViewModels.ToggleLists | app/src/main/java/com/example/dealdetective/ui/viewmodel/CategoriesViewModel.kt:66-75 | an active category moves to the end of the disabled list and back the other way; neither list: `IllegalStateException`; the multiset of both lists is kept |
| LegacyCategoriesViewModels.ToggleTwice | app/src/main/java/com/example/dealdetective/ui/viewmodel/CategoriesViewModel.kt:66-77 | toggling a category twice restores what each list holds |
| LegacyCategoriesViewModels.LegacyCategoriesViewModel.CategoriesList | app/src/main/java/com/example/dealdetective/ui/viewmodel/CategoriesViewModel.kt:33-34 | the active list followed by the disabled one |
| LegacyCategoriesViewModels.LegacyCategoriesViewModel.UpdateState | app/src/main/java/com/example/dealdetective/ui/viewmodel/CategoriesViewModel.kt:48-54 | the state becomes `Refreshed` |
| LegacyCategoriesViewModels.LegacyCategoriesViewModel.SetProductsOrder | app/src/main/java/com/example/dealdetective/ui/viewmodel/ProductViewModel.kt:7-11 | the order is set and the state refreshed |
| LegacyCategoriesViewModels.LegacyCategoriesViewModel.SetSearchQuery | app/src/main/java/com/example/dealdetective/ui/viewmodel/ProductViewModel.kt:12-16 | the query is set and the state refreshed |
| LegacyCategoriesViewModels.LegacyCategoriesViewModel.OnProductsEmitted | app/src/main/java/com/example/dealdetective/ui/viewmodel/CategoriesViewModel.kt:39-43 | the emitted list is stored and shown (the corrected update) |
| LegacyCategoriesViewModels.LegacyCategoriesViewModel.AddCategory | app/src/main/java/com/example/dealdetective/ui/viewmodel/CategoriesViewModel.kt:56-59 | appended with no duplicate check, then refreshed |
| LegacyCategoriesViewModels.LegacyCategoriesViewModel.RemoveCategory | app/src/main/java/com/example/dealdetective/ui/viewmodel/CategoriesViewModel.kt:61-64 | the first occurrence removed, then refreshed |
| LegacyCategoriesViewModels.LegacyCategoriesViewModel.ToggleCategory | app/src/main/java/com/example/dealdetective/ui/viewmodel/CategoriesViewModel.kt:66-77 | the lists become `ToggleLists`'s and the state is refreshed; a category in neither list throws and changes nothing |

## Left out

- HTTP requests, HTML and JSON parsing (Ktor, Ksoup, `org.json`). Each answer is a parameter: statuses, promo codes, `totItems`, page items, and whether reading a page raised.
- Firebase authentication and the cloud database. Their answers are parameters of the account view-models.
- Concurrency. This covers coroutines, `synchronized`, `async`/`await`, `NonCancellable`, and the `delay`/`yield` poll loop that waits for the flag in `retrieveSingleProducts`.
- StoresService.StoresServiceHandler.RetrieveSingleProducts: requires the flag Idle, because the poll loop that waits for it is not modelled.
- StoresViewModels.StoresViewModel.EnableStore: requires the flag Idle, for the same reason.
- Flow collection (`collect`, `combine`, `flatMapLatest`, sub-scope cancellation). A flow is a value naming the rows it emits (`ProductsRepositories.Emits`). Each emission reaching the collector is a separate call (`ProductsViewModels.ProductsViewModel.OnEmission`, `LegacyCategoriesViewModels.LegacyCategoriesViewModel.OnProductsEmitted`), and re-emission when the categories, query or order change is a call of `ProductsViewModels.ProductsViewModel.Refresh`.
- ProductsRepositories.ProductsRepository.Collect: does not fix the order of the emitted list, because the query has no `ORDER BY`; it states only which rows are emitted and that each comes once.
- StoresViewModels.StoresViewModel.Initialize: shows the settings current at the call and does not follow later updates.
- ProductStorage.ProductDao.GetBestDiscountProducts: does not say which 100 rows the `ORDER BY discountPercentage` picks. That ordering is floating-point text arithmetic in SQL.
- Floating point. Prices are `real`, so `Double` rounding is not modelled.
- `SettingsRepositories.Number`/`ForNumber`: the protobuf schema is not part of this model. `ImagesSize` is taken to number SMALL 0, MEDIUM 1, LARGE 2.
- AccountDatabaseViewModels.GetInt: does not model `org.json`'s coercion of numeric strings or `Long` overflow of `intValue()`. Only integers and reals are numbers.
- AccountDatabaseViewModels.GetBoolean: folds ASCII letters only when it compares a text with "true" and "false". Java's `equalsIgnoreCase` also matches a few non-ASCII letters that fold to those, such as U+017F (long s).
- AccountDatabaseViewModels.AccountDatabaseViewModel.RetrieveUserData: runs the corrected record check (`Decode`), not the one written at AccountDatabaseViewModel.kt:100-107. The as-written check is `DecodeAsWritten`, and the first row of "## Findings" compares the two.
- LegacyTigrosHandlers.GetStoreDiscount: runs over the corrected category list, in which the repeated 148031517 is replaced by the missing 148031511, not the list written at TigrosHandler.kt:11. The as-written list is `DuplicateCategoryAborts`'s subject, and the second row of "## Findings" compares the two.
- LegacyCategoriesViewModels.LegacyCategoriesViewModel.OnProductsEmitted: stores the emitted list (the corrected update), not the update written at CategoriesViewModel.kt:40-43, which discards it. The as-written update is `EmittedAsWritten`, and the third row of "## Findings" compares the two.
- `Text.ToUpper`/`Text.ToLower`: map ASCII letters only. Unicode case mapping is not modelled.
- `Text.LexLe`: orders names by Unicode code point, while Kotlin's `String.compareTo` compares UTF-16 code units. The two orders differ only when a character above U+FFFF is compared with one in U+E000–U+FFFF.
- Jetpack Compose screens, navigation, the image picker, WorkManager scheduling, DataStore serializers, Room builders and converters: rendering and wiring only.
- `ProductsRepository`'s `getBestDiscountProducts`, `getFavoriteProductsFlow` and `getProductByIdFlow`, and the DAO's `getProductByIdFlow`: plain forwards of the DAO queries, whose table semantics are modelled on `ProductStorage.ProductDao`.
- The legacy `repository/CarrefourHandler.kt`: it parses the store page instead of the category page and reads one item past the end of the array, so it has no coherent behaviour to state.
- The legacy `ui/EsselungaWebView.kt`: its URL rules are the same text as `webviews/EsselungaWebView.kt`, which `EsselungaWebViews` models.
- The legacy handlers assume every category page answers and parses. Only an unreadable Esselunga item is modelled as a JSON failure.
- Logging (`Log.d`/`Log.e`, `println`).

## Findings

| source | as written | input that shows it | evidently intended | confidence | as-written member | corrected member |
|---|---|---|---|---|---|---|
| app/src/main/java/com/the_stilton_assistants/dealdetective/viewmodel/AccountDatabaseViewModel.kt:100-107 | `!has(k) && get(k) !is T`: a missing key makes `get` throw, crashing the coroutine; a present key of the wrong type passes the check | the record `{"imagesSize": "LARGE", "boldText": true}` or `{"boldText": true}` | `!has(k) \|\| get(k) !is T`: report `UserDataCorrupted` | high, not executed | AccountDatabaseViewModels.AsWrittenCrashesOnMalformedRecord | AccountDatabaseViewModels.Decode |
| app/src/main/java/com/example/dealdetective/repository/TigrosHandler.kt:11 | category 148031517 is listed twice (and 148031511 never); each product is inserted with a plain `@Insert` | any leaflet whose category 148031517 page lists a product: the second visit inserts a taken key and throws | each category visited once, with 148031511 (the category the written list misses, listed by the newer TIGROS scraper) in place of the second 148031517 | high, not executed | LegacyTigrosHandlers.DuplicateCategoryAborts | LegacyTigrosHandlers.FreshPassSucceeds |
| app/src/main/java/com/example/dealdetective/ui/viewmodel/CategoriesViewModel.kt:40-43 | the first `copy(productList = it)` is discarded, so the product list is never stored | emit one product from the initial state, then change the search query: the screen shows no product | store the list and show its filtered view | high, not executed | LegacyCategoriesViewModels.EmissionLostOnRefresh | LegacyCategoriesViewModels.Emitted |
