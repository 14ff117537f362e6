/** The repository: the local search filter, the crypto-first ordering of a
    partition, the refresh rule, and the two flows it offers (`getCurrencies`
    through the cache pipeline, and the one-shot local-then-remote search). */
module Repository {
  import opened Domain
  import opened Text
  import opened Seqs
  import opened Entities
  import Dtos
  import opened Dao
  import opened NetworkBoundResource

  // ---------------------------------------------------------------------
  // Local search filter

  /** The three clauses of the search, on an already lower-cased keyword:
      the name starts with it, the name has a word starting with it (it
      follows a space), or the symbol starts with it; names and symbols are
      compared lower-cased. */
  predicate Matches(lowerKeyword: string, c: CurrencyInfo) {
    || StartsWith(Lower(c.name), lowerKeyword)
    || Contains(Lower(c.name), " " + lowerKeyword)
    || StartsWith(Lower(c.symbol), lowerKeyword)
  }

  /** `Matches` as the predicate `filter` is given. */
  function MatchesQuery(lowerKeyword: string): CurrencyInfo -> bool {
    c => Matches(lowerKeyword, c)
  }

  /** `filterCurrencies`: a blank query keeps nothing; otherwise the currencies
      matching the lower-cased query are kept, in their original order. */
  function FilterCurrencies(query: string, currencies: seq<CurrencyInfo>): (r: seq<CurrencyInfo>)
    ensures IsBlank(query) ==> r == []
    ensures IsSubsequence(r, currencies)
    ensures !IsBlank(query) ==> forall c :: c in currencies ==> (c in r <==> Matches(Lower(query), c))
    ensures !IsBlank(query) ==> forall c :: multiset(r)[c] == if Matches(Lower(query), c) then multiset(currencies)[c] else 0
  {
    if IsBlank(query) then []
    else
      var keep := MatchesQuery(Lower(query));
      FilterIsSubsequence(keep, currencies);
      assert forall c :: multiset(Filter(keep, currencies))[c] == if keep(c) then multiset(currencies)[c] else 0 by {
        forall c ensures multiset(Filter(keep, currencies))[c] == if keep(c) then multiset(currencies)[c] else 0 {
          FilterCounts(keep, currencies, c);
        }
      }
      assert forall c :: c in currencies ==> (c in Filter(keep, currencies) <==> keep(c)) by {
        forall c | c in currencies
          ensures c in Filter(keep, currencies) <==> keep(c)
        {
          FilterMembers(keep, currencies, c);
        }
      }
      Filter(keep, currencies)
  }

  /** A blank query finds nothing, whatever is stored. */
  lemma BlankQueryFindsNothing(query: string, stored: seq<CurrencyInfo>)
    requires forall i :: 0 <= i < |query| ==> IsWhitespace(query[i])
    ensures FilterCurrencies(query, stored) == []
  {
  }

  // ---------------------------------------------------------------------
  // Crypto-first ordering of a partition

  /** `compareBy { it.code != null }`: false sorts before true. */
  function CodeKey(c: CurrencyInfo): int {
    if c.code.Some? then 1 else 0
  }

  /** Insert `c` before the first element whose key is not smaller, so that
      `c` precedes the elements of equal key it was listed before. */
  function InsertStable(c: CurrencyInfo, sorted: seq<CurrencyInfo>): (r: seq<CurrencyInfo>)
    ensures |r| == |sorted| + 1
  {
    if sorted == [] || CodeKey(c) <= CodeKey(sorted[0]) then [c] + sorted
    else [sorted[0]] + InsertStable(c, sorted[1..])
  }

  /** `sortedWith(compareBy { it.code != null })`, a stable sort. */
  function SortCryptoFirst(cs: seq<CurrencyInfo>): (r: seq<CurrencyInfo>)
    ensures |r| == |cs|
  {
    if cs == [] then [] else InsertStable(cs[0], SortCryptoFirst(cs[1..]))
  }

  /** A fiat currency inserted into crypto-then-fiat lands between the two groups. */
  lemma {:induction false} InsertFiatBetweenGroups(c: CurrencyInfo, cryptos: seq<CurrencyInfo>, fiats: seq<CurrencyInfo>)
    requires IsFiat(c)
    requires forall i :: 0 <= i < |cryptos| ==> IsCrypto(cryptos[i])
    requires forall i :: 0 <= i < |fiats| ==> IsFiat(fiats[i])
    ensures InsertStable(c, cryptos + fiats) == cryptos + [c] + fiats
  {
    if cryptos == [] {
      assert cryptos + fiats == fiats;
    } else {
      assert (cryptos + fiats)[0] == cryptos[0];
      assert (cryptos + fiats)[1..] == cryptos[1..] + fiats;
      InsertFiatBetweenGroups(c, cryptos[1..], fiats);
    }
  }

  lemma InsertFiatAfterCryptos(c: CurrencyInfo, rest: seq<CurrencyInfo>)
    requires IsFiat(c)
    ensures InsertStable(c, Filter(IsCrypto, rest) + Filter(IsFiat, rest))
         == Filter(IsCrypto, rest) + [c] + Filter(IsFiat, rest)
  {
    InsertFiatBetweenGroups(c, Filter(IsCrypto, rest), Filter(IsFiat, rest));
  }

  /** The stable sort puts the crypto currencies first and the fiat ones
      after, each group in its listed order. */
  lemma {:induction false} SortIsCryptoThenFiat(cs: seq<CurrencyInfo>)
    ensures SortCryptoFirst(cs) == Filter(IsCrypto, cs) + Filter(IsFiat, cs)
  {
    if cs != [] {
      var c, rest := cs[0], cs[1..];
      SortIsCryptoThenFiat(rest);
      var cryptos, fiats := Filter(IsCrypto, rest), Filter(IsFiat, rest);
      if IsCrypto(c) {
        assert Filter(IsCrypto, cs) == [c] + cryptos;
        assert Filter(IsFiat, cs) == fiats;
        assert SortCryptoFirst(cs) == InsertStable(c, cryptos + fiats);
      } else {
        assert Filter(IsCrypto, cs) == cryptos;
        assert Filter(IsFiat, cs) == [c] + fiats;
        assert SortCryptoFirst(cs) == InsertStable(c, cryptos + fiats);
        InsertFiatAfterCryptos(c, rest);
        assert cryptos + [c] + fiats == cryptos + ([c] + fiats);
      }
    }
  }

  /** `loadFromDb`: map the listed rows to the domain and order them crypto first. */
  function LoadFromDb(listing: seq<CurrencyInfoEntity>): (r: seq<CurrencyInfo>)
    ensures |r| == |listing|
  {
    SortCryptoFirst(ToDomainAll(listing))
  }

  /** Crypto currencies followed by fiat ones: no crypto currency follows a
      fiat one, and splitting by kind gives back the two groups. */
  lemma GroupsStaySeparate(cryptos: seq<CurrencyInfo>, fiats: seq<CurrencyInfo>)
    requires forall i :: 0 <= i < |cryptos| ==> IsCrypto(cryptos[i])
    requires forall i :: 0 <= i < |fiats| ==> IsFiat(fiats[i])
    ensures var r := cryptos + fiats;
      forall i, j :: 0 <= i < j < |r| && IsFiat(r[i]) ==> IsFiat(r[j])
    ensures Filter(IsCrypto, cryptos + fiats) == cryptos
    ensures Filter(IsFiat, cryptos + fiats) == fiats
  {
    var r := cryptos + fiats;
    forall i, j | 0 <= i < j < |r| && IsFiat(r[i])
      ensures IsFiat(r[j])
    {
      assert r[j] == fiats[j - |cryptos|];
    }
    FilterAppend(IsCrypto, cryptos, fiats);
    FilterAppend(IsFiat, cryptos, fiats);
    FilterKeepsAll(IsCrypto, cryptos);
    FilterKeepsAll(IsFiat, fiats);
    FilterKeepsNone(IsCrypto, fiats);
    FilterKeepsNone(IsFiat, cryptos);
  }

  lemma SplitByKindStaysSeparate(cs: seq<CurrencyInfo>)
    ensures var r := Filter(IsCrypto, cs) + Filter(IsFiat, cs);
      && (forall i, j :: 0 <= i < j < |r| && IsFiat(r[i]) ==> IsFiat(r[j]))
      && Filter(IsCrypto, r) == Filter(IsCrypto, cs)
      && Filter(IsFiat, r) == Filter(IsFiat, cs)
  {
    GroupsStaySeparate(Filter(IsCrypto, cs), Filter(IsFiat, cs));
  }

  /** The loaded list is a permutation of the listed rows; every crypto
      currency comes before every fiat one; and within each group the listed
      order is kept. */
  lemma LoadFromDbOrdersCryptoFirst(listing: seq<CurrencyInfoEntity>)
    ensures var r, listed := LoadFromDb(listing), ToDomainAll(listing);
      && multiset(r) == multiset(listed)
      && (forall i, j :: 0 <= i < j < |r| && IsFiat(r[i]) ==> IsFiat(r[j]))
      && Filter(IsCrypto, r) == Filter(IsCrypto, listed)
      && Filter(IsFiat, r) == Filter(IsFiat, listed)
  {
    var listed := ToDomainAll(listing);
    SortIsCryptoThenFiat(listed);
    SplitByKindStaysSeparate(listed);
    FilterSplitIsPermutation(IsCrypto, IsFiat, listed);
  }

  // ---------------------------------------------------------------------
  // The bindings of the cache pipeline for a partition

  /** `shouldFetch`: refresh when forced, or when there is no data or it is empty. */
  function ShouldFetch(forceFetch: bool, data: Option<seq<CurrencyInfo>>): (r: bool)
    ensures r <==> forceFetch || data == None || data == Some([])
  {
    forceFetch || data.None? || |data.value| == 0
  }

  /** `loadFromDb` over a snapshot: the partition's rows, listed in the order
      `order` gives, mapped and sorted. */
  function Loader(t: CurrencyType, order: Rows -> seq<CurrencyInfoEntity>): Rows -> seq<CurrencyInfo> {
    rows => LoadFromDb(order(Select(rows, t)))
  }

  /** `shouldFetch` with `forceFetch` bound. */
  function FetchPolicy(forceFetch: bool): seq<CurrencyInfo> -> bool {
    data => ShouldFetch(forceFetch, Some(data))
  }

  /** `saveNetworkResult`: insert every fetched record, mapped through the
      domain to a row; `storeFault` is the failure the store throws, if any. */
  function SaveNetworkResult(storeFault: Option<Throwable>): seq<Dtos.CurrencyInfoDto> -> Outcome<seq<CurrencyInfoEntity>> {
    ds => if storeFault.Some? then Threw(storeFault.value)
          else Returned(ToEntityAll(Dtos.ToDomainAll(ds)))
  }

  /** A save inserts one row per fetched record, with id, name, symbol and
      code unchanged. */
  lemma SaveKeepsEveryField(ds: seq<Dtos.CurrencyInfoDto>)
    ensures SaveNetworkResult(None)(ds).Returned?
    ensures var batch := SaveNetworkResult(None)(ds).value;
      |batch| == |ds|
      && forall i :: 0 <= i < |ds| ==>
           batch[i] == CurrencyInfoEntity(ds[i].id, ds[i].name, ds[i].symbol, ds[i].code)
  {
  }

  /** A partition load fetches exactly when forced or when the partition
      holds no row when the load starts. `order` lists each row of a table
      keyed by id exactly once, as the store's query does. */
  lemma RefreshRule(rows: Rows, t: CurrencyType, forceFetch: bool, order: Rows -> seq<CurrencyInfoEntity>,
                    fetch: Outcome<seq<Dtos.CurrencyInfoDto>>, storeFault: Option<Throwable>, writes: seq<StoreWrite>)
    requires KeyedById(rows)
    requires forall m :: KeyedById(m) ==> Lists(m, order(m))
    ensures Run(rows, Loader(t, order), FetchPolicy(forceFetch), fetch, SaveNetworkResult(storeFault), writes).fetches == 1
        <==> forceFetch || Select(rows, t) == map[]
  {
    RunChecksOnce(rows, Loader(t, order), FetchPolicy(forceFetch), fetch, SaveNetworkResult(storeFault), writes);
    ListsNothing(Select(rows, t), order(Select(rows, t)));
  }

  /** What a loaded list shows of a partition: each of its rows once, mapped
      to the domain, and no crypto currency after a fiat one. */
  ghost predicate ShowsPartition(d: seq<CurrencyInfo>, part: Rows) {
    && (forall i :: 0 <= i < |d| ==> d[i].id in part && d[i] == ToDomain(part[d[i].id]))
    && (forall id :: id in part ==> ToDomain(part[id]) in d)
    && (forall i, j :: 0 <= i < j < |d| ==> d[i].id != d[j].id)
    && (forall i, j :: 0 <= i < j < |d| && IsFiat(d[i]) ==> IsFiat(d[j]))
  }

  /** Whatever order the store lists a partition in, loading the listing
      shows that partition. */
  lemma LoadShowsPartition(part: Rows, listing: seq<CurrencyInfoEntity>)
    requires Lists(part, listing)
    ensures ShowsPartition(LoadFromDb(listing), part)
  {
    var d, listed := LoadFromDb(listing), ToDomainAll(listing);
    LoadFromDbOrdersCryptoFirst(listing);
    forall i | 0 <= i < |d| ensures d[i].id in part && d[i] == ToDomain(part[d[i].id]) {
      assert d[i] in multiset(listed);
      var k :| 0 <= k < |listed| && listed[k] == d[i];
    }
    forall id | id in part ensures ToDomain(part[id]) in d {
      var k :| 0 <= k < |listing| && listing[k].id == id;
      assert listed[k] in multiset(d);
    }
    assert Distinct(listed) by {
      forall i, j | 0 <= i < j < |listed| ensures listed[i] != listed[j] {
        assert listed[i].id == listing[i].id && listed[j].id == listing[j].id;
      }
    }
    PermutationKeepsDistinct(d, listed);
  }

  /** Every list a partition load emits, in `Loading`, `Success` or `Error`,
      shows the partition `t` of the snapshot it was read from, in the order
      the snapshots are read. */
  lemma LoadsShowPartitions(rows: Rows, t: CurrencyType, forceFetch: bool, order: Rows -> seq<CurrencyInfoEntity>,
                            fetch: Outcome<seq<Dtos.CurrencyInfoDto>>, storeFault: Option<Throwable>, writes: seq<StoreWrite>)
    requires KeyedById(rows)
    requires forall m :: KeyedById(m) ==> Lists(m, order(m))
    ensures var r := Run(rows, Loader(t, order), FetchPolicy(forceFetch), fetch, SaveNetworkResult(storeFault), writes);
      var ss := Snapshots(rows, Loader(t, order), FetchPolicy(forceFetch), fetch, SaveNetworkResult(storeFault), writes);
      && |r.emitted| == |ss| + 1 && r.emitted[0].Data() == None
      && forall i :: 1 <= i < |r.emitted| ==>
           r.emitted[i].Data().Some? && ShowsPartition(r.emitted[i].Data().value, Select(ss[i - 1], t))
  {
    var r := Run(rows, Loader(t, order), FetchPolicy(forceFetch), fetch, SaveNetworkResult(storeFault), writes);
    var ss := Snapshots(rows, Loader(t, order), FetchPolicy(forceFetch), fetch, SaveNetworkResult(storeFault), writes);
    RunDataIsLoaded(rows, Loader(t, order), FetchPolicy(forceFetch), fetch, SaveNetworkResult(storeFault), writes);
    EmissionsShowPartitions(r.emitted, ss, t, order);
  }

  lemma EmissionsShowPartitions(emitted: seq<Resource<seq<CurrencyInfo>>>, ss: seq<Rows>, t: CurrencyType,
                                order: Rows -> seq<CurrencyInfoEntity>)
    requires |emitted| == |ss| + 1
    requires forall i :: 0 <= i < |ss| ==> KeyedById(ss[i])
    requires forall i :: 1 <= i < |emitted| ==> emitted[i].Data() == Some(Loader(t, order)(ss[i - 1]))
    requires forall m :: KeyedById(m) ==> Lists(m, order(m))
    ensures forall i :: 1 <= i < |emitted| ==>
      emitted[i].Data().Some? && ShowsPartition(emitted[i].Data().value, Select(ss[i - 1], t))
  {
    forall i | 1 <= i < |emitted|
      ensures emitted[i].Data().Some? && ShowsPartition(emitted[i].Data().value, Select(ss[i - 1], t))
    {
      LoaderShowsPartition(ss[i - 1], t, order);
    }
  }

  lemma LoaderShowsPartition(m: Rows, t: CurrencyType, order: Rows -> seq<CurrencyInfoEntity>)
    requires KeyedById(m)
    requires forall m :: KeyedById(m) ==> Lists(m, order(m))
    ensures ShowsPartition(Loader(t, order)(m), Select(m, t))
  {
    var part := Select(m, t);
    assert Lists(part, order(part));
    LoadShowsPartition(part, order(part));
  }

  /** The result of the remote search: its records mapped to the domain, or
      the failure's message with the fallback "An unexpected error occurred". */
  function RemoteSearchResult(o: Outcome<seq<Dtos.CurrencyInfoDto>>): Resource<seq<CurrencyInfo>> {
    match o
    case Returned(ds) => Success(Dtos.ToDomainAll(ds))
    case Threw(t) => Error(t.message.GetOr("An unexpected error occurred"), None)
  }

  /** The repository over one table. The remote list and search endpoints are
      parameters of the flows: each is what the network call does for its
      argument (return records or throw). */
  class CurrencyRepositoryImpl {
    const dao: CurrencyInfoDao

    constructor(dao: CurrencyInfoDao)
      ensures this.dao == dao
    {
      this.dao := dao;
    }

    /** `getCurrencies(type, forceFetch)` collected once: the cache pipeline
        bound to the partition `t`. `requests` lists the filter values the list
        endpoint was called with. */
    method GetCurrencies(
      t: CurrencyType,
      forceFetch: bool,
      listEndpoint: Option<string> -> Outcome<seq<Dtos.CurrencyInfoDto>>,
      order: Rows -> seq<CurrencyInfoEntity>,
      storeFault: Option<Throwable>,
      writes: seq<StoreWrite>)
      returns (emitted: seq<Resource<seq<CurrencyInfo>>>, requests: seq<Option<string>>)
      requires dao.Valid()
      requires forall m :: KeyedById(m) ==> Lists(m, order(m))
      modifies dao
      ensures dao.Valid()
      ensures var r := Run(old(dao.rows), Loader(t, order), FetchPolicy(forceFetch), listEndpoint(t.Value()),
                           SaveNetworkResult(storeFault), writes);
        emitted == r.emitted && dao.rows == r.rows
        && requests == (if r.fetches == 1 then [t.Value()] else [])
      ensures requests != [] <==> forceFetch || Select(old(dao.rows), t) == map[]
      ensures var ss := Snapshots(old(dao.rows), Loader(t, order), FetchPolicy(forceFetch), listEndpoint(t.Value()),
                                  SaveNetworkResult(storeFault), writes);
        && |emitted| == |ss| + 1
        && forall i :: 1 <= i < |emitted| ==>
             emitted[i].Data().Some? && ShowsPartition(emitted[i].Data().value, Select(ss[i - 1], t))
    {
      RefreshRule(dao.rows, t, forceFetch, order, listEndpoint(t.Value()), storeFault, writes);
      LoadsShowPartitions(dao.rows, t, forceFetch, order, listEndpoint(t.Value()), storeFault, writes);
      var checked, fetches, saved, failures;
      emitted, checked, fetches, saved, failures :=
        AsFlow(dao, Loader(t, order), FetchPolicy(forceFetch), listEndpoint(t.Value()), SaveNetworkResult(storeFault), writes);
      requests := if fetches == 1 then [t.Value()] else [];
    }

    /** `searchCurrencies(keyword)` collected once: `Loading`, then the local
        matches if there are any, otherwise one call to the remote search with
        the keyword and its result. The table is only read. */
    method SearchCurrencies(keyword: string, searchEndpoint: string -> Outcome<seq<Dtos.CurrencyInfoDto>>)
      returns (emitted: seq<Resource<seq<CurrencyInfo>>>, searches: seq<string>)
      requires dao.Valid()
      ensures |emitted| == 2 && emitted[0] == Loading(None)
      ensures exists listing :: (
        && Lists(Select(dao.rows, All), listing)
        && var local := FilterCurrencies(keyword, ToDomainAll(listing));
           && (local != [] ==> searches == [] && emitted[1] == Success(local))
           && (local == [] ==> searches == [keyword] && emitted[1] == RemoteSearchResult(searchEndpoint(keyword))))
    {
      emitted := [Loading(None)];
      var listing := dao.GetCurrencies(All);
      var localCurrencies := ToDomainAll(listing);
      var filtered := FilterCurrencies(keyword, localCurrencies);
      if filtered != [] {
        emitted := emitted + [Success(filtered)];
        searches := [];
      } else {
        searches := [keyword];
        match searchEndpoint(keyword) {
          case Returned(ds) =>
            emitted := emitted + [Success(Dtos.ToDomainAll(ds))];
          case Threw(e) =>
            emitted := emitted + [Error(e.message.GetOr("An unexpected error occurred"), None)];
        }
      }
    }

    method ClearCurrencies()
      requires dao.Valid()
      modifies dao
      ensures dao.Valid() && dao.rows == map[]
    {
      dao.ClearCurrencies();
    }

    /** Store domain currencies, each mapped to its row. */
    method InsertCurrencies(currencies: seq<CurrencyInfo>)
      requires dao.Valid()
      modifies dao
      ensures dao.Valid()
      ensures dao.rows == Upsert(old(dao.rows), ToEntityAll(currencies))
    {
      dao.InsertCurrencies(ToEntityAll(currencies));
    }
  }
}
