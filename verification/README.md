# Currency Demo data path, modelled in Dafny

This project models the currency data path of the Currency Demo app and its
backend. The app is an Android client (Kotlin) and the backend is a NestJS
service (TypeScript). The model covers these parts:

- **Local table** (`Dao`). The `currencies` table is a map from primary key
  to row. It is written with insert-or-replace (`InsertCurrencies`) and wiped
  with `ClearCurrencies`. Its fiat, crypto and unscoped queries select from it.
- **Mappings** (`Entities`, `Dtos`). The field-for-field mappings between
  rows, domain values and remote records.
- **Cache pipeline** (`NetworkBoundResource`). It emits `Loading`, reads one
  snapshot, decides whether to fetch, then fetches and saves. After that it
  re-emits every live-query snapshot as `Success`, or as `Error` when the
  fetch or the save threw.
  - `Run` is the trace as a function.
  - `AsFlow` is the step-by-step method against the table, proved equal to
    `Run`.
- **Repository** (`Repository`):
  - the local search filter;
  - the stable crypto-first sort;
  - the refresh rule;
  - the save mapping;
  - `getCurrencies`, which binds the pipeline to a partition;
  - the one-shot `searchCurrencies`, which tries local first, then remote;
  - `clearCurrencies` and `insertCurrencies`.
- **Backend service** (`CurrenciesService`). Two constant catalogues,
  `findAll(type)` and the keyword `search`.
- **Search screen presenter** (`Search`):
  - the event reducer;
  - the issued-query rule (debounce 1 s, then drop repeats) as a function of
    timed writes;
  - the trim and blank check;
  - the mapping of `Resource` emissions onto the state.
- **List screen presenter** (`CurrencyList`):
  - event dispatch to loads;
  - "latest load wins", since a new load cancels the running job;
  - the `Resource`-to-state reducer.
- **List row** (`ListItem`). The avatar initial, the three-way highlight split
  of the name around the first case-insensitive match, and whether the symbol
  is shown.

**Flows as traces.** Asynchronous flows become finite traces. A collection
of a flow is the sequence of `Resource` values it emits. A live query is the
snapshot at subscription followed by one snapshot per later write to the
table. Collaborators are parameters: the network endpoints, the order in
which the store lists rows, and a store that fails to save. Each endpoint is given as
the `Outcome` of its call, either a returned value or a thrown failure.

**Support modules.** `Text` holds the string operations: ASCII lower-casing,
`startsWith`, `contains`, `isBlank`, `trim` and case-insensitive `indexOf`.
`Seqs` holds `filter` and the subsequence and permutation facts about it.

## Model

| member | source | states |
|---|---|---|
| Entities.EntityRoundTrip | Android/app/src/main/java/io/trieulh/currencydemo/data/local/entity/CurrencyInfoEntity.kt:17-29 | storing a currency as a row and reading it back gives the same currency |
| Entities.DomainRoundTrip | Android/app/src/main/java/io/trieulh/currencydemo/data/local/entity/CurrencyInfoEntity.kt:17-29 | reading a row as a currency and storing it back gives the same row |
| Entities.MappingsKeepIdAndKind | Android/app/src/main/java/io/trieulh/currencydemo/data/local/entity/CurrencyInfoEntity.kt:17-29 | both mappings keep the primary key and whether `code` is null, so a currency stays crypto or fiat |
| Entities.MappingKeepsIdsUnique | Android/app/src/main/java/io/trieulh/currencydemo/data/local/entity/CurrencyInfoEntity.kt:8-29 | a batch of currencies has pairwise distinct ids exactly when its rows do, and mapping the rows back restores the batch |
| Dtos.WithoutCode | Android/app/src/main/java/io/trieulh/currencydemo/data/remote/dto/CurrencyInfoDto.kt:7-13 | a record sent without `code` becomes a crypto currency whose id, name and symbol are the ones sent |
| Dtos.ToDomainCopiesFields | Android/app/src/main/java/io/trieulh/currencydemo/data/remote/dto/CurrencyInfoDto.kt:15-20 | `toDomain` copies all four fields, a record with no code maps to a crypto currency, and distinct records map to distinct currencies |
| Dtos.SavePathKeepsFields | Android/app/src/main/java/io/trieulh/currencydemo/data/remote/dto/CurrencyInfoDto.kt:15-20 | `dto.toDomain().toEntity()` gives a row with the record's id, name, symbol and code |
| Dao.Upsert | Android/app/src/main/java/io/trieulh/currencydemo/data/local/CurrencyInfoDao.kt:14-15 | after insert-or-replace, the table's keys are the old keys plus the batch's ids; rows outside the batch are untouched; every row stays under its own id |
| Dao.UpsertLastWins | Android/app/src/main/java/io/trieulh/currencydemo/data/local/CurrencyInfoDao.kt:14-15 | for an id in the batch, the stored row is the batch's last row with that id |
| Dao.ReplaceKeepsCount | Android/app/src/test/java/io/trieulh/currencydemo/data/local/CurrencyInfoDaoTest.kt:94-111 | inserting a row whose id is stored replaces that row and keeps the row count |
| Dao.NewIdsAddAll | Android/app/src/test/java/io/trieulh/currencydemo/data/local/CurrencyInfoDaoTest.kt:47-91 | inserting rows with distinct new ids stores each of them and grows the count by the batch size; an empty batch changes nothing |
| Dao.NewIdsGrowCount | Android/app/src/test/java/io/trieulh/currencydemo/data/local/CurrencyInfoDaoTest.kt:62-72 | distinct new ids grow the row count by exactly the batch size |
| Dao.UpsertIsOverlay | Android/app/src/main/java/io/trieulh/currencydemo/data/local/CurrencyInfoDao.kt:14-15 | a batch insert overlays the batch's own rows on the table |
| Dao.DisjointInsertsCommute | Android/app/src/test/java/io/trieulh/currencydemo/data/local/CurrencyInfoDaoTest.kt:318-334 | two inserts whose batches have disjoint ids leave the same table in either order |
| Dao.Select | Android/app/src/main/java/io/trieulh/currencydemo/data/repository/CurrencyRepositoryImpl.kt:35-38 | a partition query holds exactly the stored rows of that partition, unchanged |
| Dao.PartitionsSplitTable | Android/app/src/test/java/io/trieulh/currencydemo/data/local/CurrencyInfoDaoTest.kt:194-262 | the fiat query holds only rows with a code, the crypto query only rows without; the two are disjoint, together they are the table, and the unscoped query is the whole table |
| Dao.CurrencyInfoDao.constructor | Android/app/src/main/java/io/trieulh/currencydemo/data/local/CurrencyInfoDao.kt:11-22 | a new table is empty |
| Dao.CurrencyInfoDao.InsertCurrencies | Android/app/src/main/java/io/trieulh/currencydemo/data/local/CurrencyInfoDao.kt:14-15 | inserting row after row leaves the table equal to `Upsert` of the old table, keyed by id |
| Dao.CurrencyInfoDao.ClearCurrencies | Android/app/src/main/java/io/trieulh/currencydemo/data/local/CurrencyInfoDao.kt:20-21 | the table is empty afterwards, so clearing an empty table leaves it as it was |
| Dao.SomeOrderListsEveryTable | Android/app/src/main/java/io/trieulh/currencydemo/data/local/CurrencyInfoDao.kt:17-18 | a store order exists that lists every row of any table keyed by id exactly once |
| Dao.CurrencyInfoDao.GetCurrencies | Android/app/src/main/java/io/trieulh/currencydemo/data/local/CurrencyInfoDao.kt:17-18 | a snapshot lists every row of the partition exactly once, each as stored, in some order |
| NetworkBoundResource.Apply | Android/app/src/main/java/io/trieulh/currencydemo/data/local/CurrencyInfoDao.kt:14-21 | a later insert or clear keeps every row under its own id |
| NetworkBoundResource.WritesKeepKeys | Android/app/src/main/java/io/trieulh/currencydemo/data/local/entity/CurrencyInfoEntity.kt:10-11 | ids stay unique across any sequence of inserts and clears |
| NetworkBoundResource.Observed | Android/app/src/main/java/io/trieulh/currencydemo/data/util/NetworkBoundResource.kt:22-28 | a live query delivers one snapshot more than there are writes; the first is the table at subscription and the last the table after every write |
| NetworkBoundResource.ObservedInOrder | Android/app/src/main/java/io/trieulh/currencydemo/data/util/NetworkBoundResource.kt:22-28 | snapshot `i` is the table after the first `i` writes |
| NetworkBoundResource.Run | Android/app/src/main/java/io/trieulh/currencydemo/data/util/NetworkBoundResource.kt:12-30 | every collection emits `Loading()` with no data first, and at least one emission follows it |
| NetworkBoundResource.TryFetch | Android/app/src/main/java/io/trieulh/currencydemo/data/util/NetworkBoundResource.kt:19-26 | the try block starts exactly one fetch, asks nothing of `shouldFetch`, and emits once per snapshot |
| NetworkBoundResource.RunChecksOnce | Android/app/src/main/java/io/trieulh/currencydemo/data/util/NetworkBoundResource.kt:13-17 | `Loading()` comes first; `shouldFetch` is asked once, about the first snapshot; a fetch happens exactly when it says so; at most one save and one failure follow |
| NetworkBoundResource.RunDataIsLoaded | Android/app/src/main/java/io/trieulh/currencydemo/data/util/NetworkBoundResource.kt:11-29 | the first emission carries no data; every later one carries the load of the next snapshot the collection reads, in order: without a fetch those of the live query, with one the first read and then those of the live query over the table the try block leaves |
| NetworkBoundResource.RunWithoutFetch | Android/app/src/main/java/io/trieulh/currencydemo/data/util/NetworkBoundResource.kt:27-29 | without a fetch, nothing is fetched, saved or reported; each later emission is `Success` of the next snapshot, in order; the table sees only the later writes |
| NetworkBoundResource.RunFetchAndSave | Android/app/src/main/java/io/trieulh/currencydemo/data/util/NetworkBoundResource.kt:17-22 | `Loading(first snapshot)` precedes the fetch; the save gets exactly the fetched value once; no failure is reported; the first `Success` shows the table after the save; every later emission is `Success` of the next snapshot |
| NetworkBoundResource.RunFetchFails | Android/app/src/main/java/io/trieulh/currencydemo/data/util/NetworkBoundResource.kt:23-26 | when the fetch or the save throws, `onFetchFailed` gets that failure once; a failed fetch never reaches the save; the table keeps its contents; every emission after the `Loading`s is `Error(message or "Unknown error", snapshot)`, the first carrying the pre-failure data; none is `Success` |
| NetworkBoundResource.EmitAll | Android/app/src/main/java/io/trieulh/currencydemo/data/util/NetworkBoundResource.kt:22-28 | collecting the live query while the writes happen emits one `Success` or `Error` per observed snapshot, and leaves the table as the writes make it |
| NetworkBoundResource.AsFlow | Android/app/src/main/java/io/trieulh/currencydemo/data/util/NetworkBoundResource.kt:12-30 | the step-by-step pipeline against the table emits, checks, fetches, saves, reports and leaves the table exactly as `Run` says |
| NetworkBoundResource.FetchThenEmit | Android/app/src/main/java/io/trieulh/currencydemo/data/util/NetworkBoundResource.kt:19-26 | the try/catch against the table does exactly what `TryFetch` says |
| Repository.FilterCurrencies | Android/app/src/main/java/io/trieulh/currencydemo/data/repository/CurrencyRepositoryImpl.kt:90-104 | a blank query keeps nothing; otherwise the result is an order-preserving subsequence of the input that keeps every occurrence of a currency whose lower-cased name starts with the lower-cased query, or contains it after a space, or whose lower-cased symbol starts with it, and no occurrence of any other |
| Repository.BlankQueryFindsNothing | Android/app/src/main/java/io/trieulh/currencydemo/data/repository/CurrencyRepositoryImpl.kt:94-96 | a query made only of whitespace finds nothing, whatever is stored |
| Repository.SortIsCryptoThenFiat | Android/app/src/main/java/io/trieulh/currencydemo/data/repository/CurrencyRepositoryImpl.kt:40 | the stable sort by `code != null` is the crypto currencies in listed order followed by the fiat ones in listed order |
| Repository.LoadFromDbOrdersCryptoFirst | Android/app/src/main/java/io/trieulh/currencydemo/data/repository/CurrencyRepositoryImpl.kt:34-42 | the loaded list is a permutation of the listed rows; no crypto currency follows a fiat one; each group keeps its listed order |
| Repository.ShouldFetch | Android/app/src/main/java/io/trieulh/currencydemo/data/repository/CurrencyRepositoryImpl.kt:44-46 | refresh exactly when forced or when the data is null or empty |
| Repository.RefreshRule | Android/app/src/main/java/io/trieulh/currencydemo/data/repository/CurrencyRepositoryImpl.kt:44-46 | on a table keyed by id, with a store that lists every row of a keyed table exactly once, a partition load fetches exactly when forced or when the partition holds no row at the start |
| Repository.LoadShowsPartition | Android/app/src/main/java/io/trieulh/currencydemo/data/repository/CurrencyRepositoryImpl.kt:34-42 | whatever order the store lists a partition in, the loaded list holds each of its rows once, mapped to the domain, with no crypto currency after a fiat one |
| Repository.LoadsShowPartitions | Android/app/src/main/java/io/trieulh/currencydemo/data/repository/CurrencyRepositoryImpl.kt:30-42 | on a table keyed by id, every emission after the first carries a list that shows the partition of the snapshot it was read from, each row once, crypto first, in the order the snapshots are read |
| Repository.LoaderShowsPartition | Android/app/src/main/java/io/trieulh/currencydemo/data/repository/CurrencyRepositoryImpl.kt:34-42 | loading any keyed snapshot shows its partition, each row once, crypto first |
| Repository.SaveKeepsEveryField | Android/app/src/main/java/io/trieulh/currencydemo/data/repository/CurrencyRepositoryImpl.kt:54-56 | a save inserts one row per fetched record, in order, with id, name, symbol and code unchanged |
| Repository.CurrencyRepositoryImpl.constructor | Android/app/src/main/java/io/trieulh/currencydemo/data/repository/CurrencyRepositoryImpl.kt:24-28 | the repository works on the table it is given |
| Repository.CurrencyRepositoryImpl.GetCurrencies | Android/app/src/main/java/io/trieulh/currencydemo/data/repository/CurrencyRepositoryImpl.kt:30-58 | the emissions and the final table are those of `Run` bound to the partition's load, refresh rule and save; the list endpoint is called once with `type.value` exactly when forced or when the partition is empty at the start, and otherwise not at all; each emission after the first shows the partition of the snapshot it was read from, each row once, crypto first |
| Repository.CurrencyRepositoryImpl.SearchCurrencies | Android/app/src/main/java/io/trieulh/currencydemo/data/repository/CurrencyRepositoryImpl.kt:68-88 | exactly two emissions, `Loading()` first; with local matches, the second is `Success(matches)` and the remote search is never called; without them, the remote search is called once with the keyword and the second is `Success(mapped records)` or `Error(message or "An unexpected error occurred")`; the table is not written |
| Repository.CurrencyRepositoryImpl.ClearCurrencies | Android/app/src/main/java/io/trieulh/currencydemo/data/repository/CurrencyRepositoryImpl.kt:60-62 | the table is empty afterwards |
| Repository.CurrencyRepositoryImpl.InsertCurrencies | Android/app/src/main/java/io/trieulh/currencydemo/data/repository/CurrencyRepositoryImpl.kt:64-66 | the table is `Upsert` of the old table with each currency mapped to its row |
| CurrenciesService.CatalogueKinds | Backend/src/currencies.service.ts:5-121 | the crypto catalogue has 14 entries, none with a code; the fiat catalogue has 7, all with a code |
| CurrenciesService.FindAllPartitions | Backend/src/currencies.service.ts:123-131 | `findAll('crypto')` is exactly the code-less part of the catalogue (14 entries); `findAll('fiat')` exactly the part with a code (7); any other value gives crypto then fiat (21) |
| CurrenciesService.SearchKeepsOrderAndMatches | Backend/src/currencies.service.ts:133-147 | the search result is an order-preserving subsequence of crypto then fiat, and a currency is in it exactly when it is in the catalogue and meets the three-clause predicate |
| CurrenciesService.EmptyKeywordMatchesAll | Backend/src/currencies.service.ts:135-146 | unlike the app's filter, an empty keyword keeps every currency |
| CurrenciesService.SearchAgreesWithLocalFilter | Backend/src/currencies.service.ts:137-146 | for any keyword that is not blank, the backend search keeps exactly what the app's `filterCurrencies` keeps from the same list |
| CurrenciesService.SearchBitExample | Backend/src/currencies.service.spec.ts:37-40 | `search('bit')` gives ids [BTC, BCH] |
| CurrenciesService.SearchCashExample | Backend/src/currencies.service.spec.ts:42-45 | `search('cash')` gives ids [BCH] |
| CurrenciesService.SearchUsdcExample | Backend/src/currencies.service.spec.ts:47-50 | `search('usdc')` gives ids [USDC] |
| CurrenciesService.SearchZzzExample | Backend/src/currencies.service.spec.ts:52-55 | `search('zzz')` gives nothing |
| Text.Trim | Android/app/src/main/java/io/trieulh/currencydemo/presentation/search/SearchViewModel.kt:77 | with whitespace as Kotlin's `isWhitespace` defines it, the input is a blank prefix, the result, then a blank suffix; the result neither starts nor ends with whitespace; it is empty exactly when the input is blank |
| Text.TrimIdempotent | Android/app/src/main/java/io/trieulh/currencydemo/domain/usecase/SearchCurrenciesUseCase.kt:13 | trimming an already trimmed keyword changes nothing |
| Text.IndexOfIgnoreCaseFrom | Android/app/src/main/java/io/trieulh/currencydemo/presentation/currencylist/components/CurrencyListItem.kt:57 | the result is -1 exactly when there is no case-insensitive occurrence at or after the start; otherwise it is the first such occurrence |
| Search.SearchRequest | Android/app/src/main/java/io/trieulh/currencydemo/presentation/search/SearchViewModel.kt:77-81 | a keyword that is blank after trimming sends no search; otherwise the keyword sent is a non-empty substring with only whitespace around it, so inner characters and case are kept |
| Search.RequestIsStable | Android/app/src/main/java/io/trieulh/currencydemo/domain/usecase/SearchCurrenciesUseCase.kt:13 | the use case's second trim leaves the presenter's keyword unchanged |
| Search.Collect | Android/app/src/main/java/io/trieulh/currencydemo/presentation/search/SearchViewModel.kt:84-108 | collecting a search's emissions keeps the query and the active flag, and emits one effect per `Error` |
| Search.CollectLatestWins | Android/app/src/main/java/io/trieulh/currencydemo/presentation/search/SearchViewModel.kt:86-107 | the latest emission decides the state: `Loading` sets loading and clears the results; `Success(d)` shows `d`; `Error` clears both; every effect is a `ShowError` |
| Search.ErrorShowsOnce | Android/app/src/main/java/io/trieulh/currencydemo/presentation/search/SearchViewModel.kt:95-103 | an `Error` clears the results and adds exactly one `ShowError` with its message |
| Search.DeliveredAfter | Android/app/src/main/java/io/trieulh/currencydemo/presentation/search/SearchViewModel.kt:35 | the query stream delivers an order-preserving subsequence of the writes, no delivered value equals the one before it, and the first differs from the current value |
| Search.DebounceKeepsOrder | Android/app/src/main/java/io/trieulh/currencydemo/presentation/search/SearchViewModel.kt:40 | the debounce passes values on in delivery order |
| Search.DebouncePassesSettled | Android/app/src/main/java/io/trieulh/currencydemo/presentation/search/SearchViewModel.kt:40 | a value that no newer value overtakes within 1 s is passed on |
| Search.DebouncePassesOnlySettled | Android/app/src/main/java/io/trieulh/currencydemo/presentation/search/SearchViewModel.kt:40 | only such values are passed on |
| Search.DropRepeatsSpec | Android/app/src/main/java/io/trieulh/currencydemo/presentation/search/SearchViewModel.kt:41 | after dropping repeats, no two neighbours are equal, the order is kept and every value still occurs |
| Search.DropRepeatsIdempotent | Android/app/src/main/java/io/trieulh/currencydemo/presentation/search/SearchViewModel.kt:41 | dropping repeats twice drops nothing more |
| Search.IssuedRule | Android/app/src/main/java/io/trieulh/currencydemo/presentation/search/SearchViewModel.kt:39-44 | every issued query is a delivered value that no newer value overtook within 1 s, and no query is issued twice in a row |
| Search.TypingBurstIssuesLastOnly | Android/app/src/test/java/io/trieulh/currencydemo/presentation/search/SearchViewModelTest.kt:76-89 | typing "b", "bi", "bit" within 1 s and then waiting issues only "bit" |
| Search.RepeatedQueryIsSearchedOnce | Android/app/src/test/java/io/trieulh/currencydemo/presentation/search/SearchViewModelTest.kt:102-111 | writing "bitcoin", waiting 1 s and writing it again searches for it once |
| Search.RetypedQueryIsDropped | Android/app/src/main/java/io/trieulh/currencydemo/presentation/search/SearchViewModel.kt:40-41 | a query retyped within 1 s after it was issued passes the debounce again and is dropped as a repeat, so it is issued once |
| Search.SearchViewModel.constructor | Android/app/src/main/java/io/trieulh/currencydemo/presentation/search/SearchViewModel.kt:29-35 | the state is the initial one, the query stream holds "", and nothing has been written, emitted or searched |
| Search.SearchViewModel.WriteQuery | Android/app/src/main/java/io/trieulh/currencydemo/presentation/search/SearchViewModel.kt:52 | a write sets the stream's value and is recorded with its time; nothing else changes |
| Search.SearchViewModel.OnEvent | Android/app/src/main/java/io/trieulh/currencydemo/presentation/search/SearchViewModel.kt:48-74 | each event changes exactly these things and keeps the stream equal to the shown query. A query change sets the raw query and writes it to the stream. A toggle flips the active flag, and on deactivation also clears the query and results and writes "". Clear sets the query to "" and the results to null and writes "". Back emits `NavigateBack`. Loading and searches are never touched |
| Search.SearchViewModel.SearchCurrencies | Android/app/src/main/java/io/trieulh/currencydemo/presentation/search/SearchViewModel.kt:76-111 | a keyword blank after trimming only clears the results; any other keyword is passed trimmed to the use case once, and the state and effects become what collecting its emissions gives |
| Search.SearchViewModel.CollectAll | Android/app/src/main/java/io/trieulh/currencydemo/presentation/search/SearchViewModel.kt:84-108 | collecting the emissions one by one leaves the state and effects `Collect` gives |
| CurrencyList.Collect | Android/app/src/main/java/io/trieulh/currencydemo/presentation/currencylist/CurrencyListViewModel.kt:70-94 | collecting a load's emissions emits one effect per `Error`; no emission leaves the state as it was |
| CurrencyList.LatestSuccess | Android/app/src/main/java/io/trieulh/currencydemo/presentation/currencylist/CurrencyListViewModel.kt:72-79 | there is a latest `Success` exactly when some emission is a `Success` |
| CurrencyList.CollectShowsLatestSuccess | Android/app/src/main/java/io/trieulh/currencydemo/presentation/currencylist/CurrencyListViewModel.kt:70-94 | the list shows the data of the latest `Success`, or the old list when there is none; `Loading` and `Error` never change it; `isLoading` follows the latest emission; every effect is a `ShowError` |
| CurrencyList.ErrorKeepsList | Android/app/src/main/java/io/trieulh/currencydemo/presentation/currencylist/CurrencyListViewModel.kt:81-88 | an `Error`, even one carrying data, only clears `isLoading` and adds one `ShowError` with its message |
| CurrencyList.ReplayCountsLoads | Android/app/src/main/java/io/trieulh/currencydemo/presentation/currencylist/CurrencyListViewModel.kt:64-69 | every started load gets the next job number |
| CurrencyList.ReplayLiveJob | Android/app/src/main/java/io/trieulh/currencydemo/presentation/currencylist/CurrencyListViewModel.kt:68-94 | with no new load, the screen is what collecting exactly the live job's emissions makes of it |
| CurrencyList.LatestLoadWins | Android/app/src/main/java/io/trieulh/currencydemo/presentation/currencylist/CurrencyListViewModel.kt:68-69 | after a load starts, the screen depends only on that load's own emissions; emissions of cancelled jobs change nothing |
| CurrencyList.CurrencyListViewModel.constructor | Android/app/src/main/java/io/trieulh/currencydemo/presentation/currencylist/CurrencyListViewModel.kt:32-40 | construction starts exactly one load, `(All, forceFetch = true)`, with the initial state and no effects |
| CurrencyList.CurrencyListViewModel.GetAllCurrencies | Android/app/src/main/java/io/trieulh/currencydemo/presentation/currencylist/CurrencyListViewModel.kt:64-69 | a new load with exactly the given type and force flag becomes the live job; nothing else changes |
| CurrencyList.CurrencyListViewModel.OnEvent | Android/app/src/main/java/io/trieulh/currencydemo/presentation/currencylist/CurrencyListViewModel.kt:36-62 | create and insert start an `(All, true)` load; `OnLoadCurrencies(t, f)` starts a `(t, f)` load; clear calls the use case's `clear()` once; search emits `NavigateToSearch`; no event changes the state directly |
| CurrencyList.CurrencyListViewModel.OnEmission | Android/app/src/main/java/io/trieulh/currencydemo/presentation/currencylist/CurrencyListViewModel.kt:68-94 | an emission of the live job updates the state and effects as the reducer says; an emission of a cancelled job changes nothing |
| ListItem.AvatarInitial | Android/app/src/main/java/io/trieulh/currencydemo/presentation/currencylist/components/CurrencyListItem.kt:48 | the avatar is the name's first character, or "" exactly when the name is empty |
| ListItem.Highlight | Android/app/src/main/java/io/trieulh/currencydemo/presentation/currencylist/components/CurrencyListItem.kt:56-66 | the segments spell the name; with a non-empty query that occurs ignoring case there are three (plain, bold, plain), the bold one is `name[i..i+|q|]` at the first occurrence `i`; otherwise one plain segment |
| ListItem.Render | Android/app/src/main/java/io/trieulh/currencydemo/presentation/currencylist/components/CurrencyListItem.kt:48-73 | a row shows the avatar initial and the full name, and shows the symbol with the arrow exactly when `code` is null |
| ListItem.EmptyQueryIsPlain | Android/app/src/main/java/io/trieulh/currencydemo/presentation/currencylist/components/CurrencyListItem.kt:58-65 | an empty query leaves the name as one plain segment, with nothing bold |
| ListItem.BoldRangeIsFirstMatch | Android/app/src/main/java/io/trieulh/currencydemo/presentation/currencylist/components/CurrencyListItem.kt:57-63 | with a match, the bold range has the query's length, matches it ignoring case, and starts at the first match |
| ListItem.BitcoinRowExample | Android/app/src/test/java/io/trieulh/currencydemo/presentation/currencylist/components/CurrencyListItemKtTest.kt:31-53 | the Bitcoin row shows "B", "Bitcoin" and "BTC" |
| ListItem.FiatRowHidesSymbol | Android/app/src/test/java/io/trieulh/currencydemo/presentation/currencylist/components/CurrencyListItemKtTest.kt:57-67 | a fiat row hides its symbol and arrow |
| ListItem.EthereumHighlightExample | Android/app/src/test/java/io/trieulh/currencydemo/presentation/currencylist/components/CurrencyListItemKtTest.kt:71-91 | "Ethereum" under "eth" bolds `[0, 3)` |
| ListItem.CardanoNoMatchExample | Android/app/src/test/java/io/trieulh/currencydemo/presentation/currencylist/components/CurrencyListItemKtTest.kt:94-111 | "Cardano" under "zzz" has nothing bold |

## Left out

- **Coroutines and scheduling.** Coroutine scopes, dispatchers, `flowOn` and `withContext` are not modelled. Time appears only as integer milliseconds in the issued-query rule. Concurrency between collectors is reduced to an ordered trace of happenings.
- **Live queries.** Room's change notification is modelled as an explicit list of later writes. Conflation of fast writes is not modelled.
- NetworkBoundResource.Observed: every write yields one snapshot, also a write that changes no row (an empty insert, a clear of an empty table) and a write outside the queried partition. `CurrencyInfoDaoTest.kt:85-89` and `:309-313` expect no emission after a write that changes nothing, and `:226-228` and `:273-275` none after a write to the other partition. When a live query re-emits is decided by Room's invalidation tracker, which is not part of this model. The same extra snapshots reach `Repository.CurrencyRepositoryImpl.GetCurrencies` and `NetworkBoundResource.EmitAll`.
- NetworkBoundResource.Run: every read of the table succeeds. In the source a failing first read (`NetworkBoundResource.kt:14`) or a failing live query on the plain path (`:28`) or in the catch block (`:25`) ends the flow with that exception, and one failing inside the try block (`:22`) is caught at `:23` and reported through `onFetchFailed`. Only the save can fail in the model (`storeFault`); the same holds for `Repository.CurrencyRepositoryImpl.GetCurrencies`.
- **Row order.** The order in which `SELECT *` lists rows is not specified by the store. It is a parameter (`order`) of `Repository.CurrencyRepositoryImpl.GetCurrencies`, required to list every row of a table keyed by id exactly once (`Dao.Lists`); `Dao.SomeOrderListsEveryTable` shows such an order exists. `Dao.CurrencyInfoDao.GetCurrencies` promises only some order.
- **Room and SQLCipher internals.** The database singleton, its passphrase and migrations are not modelled.
- **Network and DI.** Retrofit, the HTTP endpoints, the backend controller and module, and dependency injection are not modelled. Each endpoint is a parameter giving the `Outcome` of its call.
- **Compose UI.** Only what a list row shows is modelled; layout, colours and icons are not. `CurrencyListScreen.kt` and `SearchScreen.kt` are not part of this model.
- **Pass-through use cases.** The use cases are not modelled as separate members.
  - `GetAllCurrenciesUseCase` is a `flatMapLatest` over a single value.
  - `SearchCurrenciesUseCase` only trims again, and `Search.RequestIsStable` shows that this second trim changes nothing.
  - The list presenter's calls to the use case's `clear()` are counted (`clears`). What `clear()` does to the table is `Repository.CurrencyRepositoryImpl.ClearCurrencies`.
- **Search cancellation.** The search presenter launches each search without cancelling earlier ones. `Search.SearchViewModel.SearchCurrencies` collects one search to completion; interleaving of overlapping searches is not modelled.
- **Case folding.** Lower-casing covers ASCII letters only. Kotlin `lowercase()` and JavaScript `toLowerCase()` fold all of Unicode.
- **Characters.** A string is a sequence of Unicode scalar values. Kotlin strings are sequences of UTF-16 code units, so the two differ on characters outside the Basic Multilingual Plane, which take two code units in Kotlin. Whitespace (`Text.IsWhitespace`) is Kotlin's full `isWhitespace` set, all of it inside that plane, so trimming and blank checks agree.
- ListItem.AvatarInitial: for a name starting with a character outside the Basic Multilingual Plane, Kotlin's `first()` gives half of a surrogate pair; the model gives the whole character.
- ListItem.Highlight: offsets count scalar values, where Kotlin's `indexOf` counts UTF-16 code units; the bold range is the same text, at offsets that differ once a name holds a character outside the Basic Multilingual Plane.
- Text.IndexOfIgnoreCaseFrom: returns an offset in scalar values, not in UTF-16 code units, for the same reason.
- **Exception text.** A failure is modelled as a nullable message. `localizedMessage` and `message` are taken to be the same string.
- **Resource type.** `Resource` is not among the source files. Its shape is inferred from how it is used: `Loading(data?)`, `Success(data)` and `Error(message, data?)`.
  - `Success` always carries data. The list presenter's `result.data ?: emptyList()` fallback is modelled through `Data()`, but that case never arises.
  - `Error` always carries a message, so the presenters' `?: "Unknown error"` fallback never fires in the model.
- **Leading `Loading`.** `NetworkBoundResourceTest.kt` expects traces without the leading `Loading()`. The code at `NetworkBoundResource.kt:13` emits it, and the model follows the code.
- **Interfaces that lag their callers.** The model follows how the callers use these:
  - the DAO's fiat and crypto queries;
  - the type parameter of the list endpoint, and the remote search endpoint;
  - the repository interface's `searchCurrencies`;
  - the list screen's `OnSearchClick` event and `NavigateToSearch` effect.
- **Backend immutability.** That `findAll` and `search` never modify the catalogues holds by construction: the catalogues are immutable values. No member states it.
- **Debounce ties.** `Search.Debounce` passes on a value whose successor arrives exactly 1 s later. This matches a virtual-time scheduler that runs the due timeout before the new value.
