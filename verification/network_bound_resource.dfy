/** The cache-then-network pipeline behind every list load: one snapshot of the
    local table decides whether to fetch; a fetched result is saved to the
    table; then every snapshot the live query delivers is re-emitted, as
    `Success`, or as `Error` when the fetch or the save threw.

    The live query is a sequence of store snapshots: the contents when it is
    subscribed to, then the contents after each later write to the table. */
module NetworkBoundResource {
  import opened Domain
  import opened Entities
  import opened Dao

  /** A write to the table made while a query is being observed. */
  datatype StoreWrite = Insert(batch: seq<CurrencyInfoEntity>) | Clear

  function Apply(rows: Rows, w: StoreWrite): (r: Rows)
    ensures KeyedById(rows) ==> KeyedById(r)
  {
    match w
    case Insert(batch) => Upsert(rows, batch)
    case Clear => map[]
  }

  /** The table after a sequence of writes. */
  function After(rows: Rows, writes: seq<StoreWrite>): Rows {
    if writes == [] then rows
    else Apply(After(rows, writes[..|writes| - 1]), writes[|writes| - 1])
  }

  /** Ids stay unique across any sequence of inserts and clears. */
  lemma {:induction false} WritesKeepKeys(rows: Rows, writes: seq<StoreWrite>)
    ensures KeyedById(rows) ==> KeyedById(After(rows, writes))
  {
    if writes != [] {
      WritesKeepKeys(rows, writes[..|writes| - 1]);
    }
  }

  /** The snapshots a live query delivers: the contents at subscription, then
      the contents after each write. */
  function Observed(rows: Rows, writes: seq<StoreWrite>): (r: seq<Rows>)
    ensures |r| == |writes| + 1
    ensures r[0] == rows && r[|writes|] == After(rows, writes)
    ensures KeyedById(rows) ==> forall i :: 0 <= i < |r| ==> KeyedById(r[i])
  {
    if writes == [] then [rows]
    else
      WritesKeepKeys(rows, writes);
      Observed(rows, writes[..|writes| - 1]) + [After(rows, writes)]
  }

  /** Snapshot `i` is the table after the first `i` writes, so the snapshots
      come in the order of the writes. */
  lemma {:induction false} ObservedInOrder(rows: Rows, writes: seq<StoreWrite>, i: nat)
    requires i <= |writes|
    ensures Observed(rows, writes)[i] == After(rows, writes[..i])
  {
    if i < |writes| {
      var prefix := writes[..|writes| - 1];
      ObservedInOrder(rows, prefix, i);
      assert prefix[..i] == writes[..i];
    } else {
      assert writes[..i] == writes;
    }
  }

  /** One emission per snapshot: `Success(load(s))` when `failure` is `None`,
      `Error(message, load(s))` when it holds the failure message. */
  function Emissions<R>(failure: Option<string>, load: Rows -> R, snapshots: seq<Rows>): (r: seq<Resource<R>>)
    ensures |r| == |snapshots|
    ensures forall i :: 0 <= i < |snapshots| ==>
      r[i] == (if failure.None? then Success(load(snapshots[i])) else Error(failure.value, Some(load(snapshots[i]))))
  {
    seq(|snapshots|, i requires 0 <= i < |snapshots| =>
      if failure.None? then Success(load(snapshots[i])) else Error(failure.value, Some(load(snapshots[i]))))
  }

  lemma EmissionsAppend<R>(failure: Option<string>, load: Rows -> R, snapshots: seq<Rows>, last: Rows)
    ensures Emissions(failure, load, snapshots + [last]) == Emissions(failure, load, snapshots) + Emissions(failure, load, [last])
  {
  }

  /** `throwable.message ?: "Unknown error"` */
  function FailureMessage(t: Throwable): string {
    t.message.GetOr("Unknown error")
  }

  /** Everything one collection of the pipeline does: what it emitted, the
      values `shouldFetch` was asked about, how many fetches it started, the
      values handed to the save step, the failures handed to `onFetchFailed`,
      and the table it leaves behind. */
  datatype Trace<R, Q> = Trace(
    emitted: seq<Resource<R>>,
    checked: seq<R>,
    fetches: nat,
    saved: seq<Q>,
    failures: seq<Throwable>,
    rows: Rows)

  /** The pipeline, as a function of the table, its collaborators and the
      later writes. `fetch` is what the network call does (return or throw);
      `save` maps a fetched value to the batch it inserts, or to the failure
      the store throws, in which case nothing is written. */
  function Run<R, Q>(
    rows: Rows,
    load: Rows -> R,
    shouldFetch: R -> bool,
    fetch: Outcome<Q>,
    save: Q -> Outcome<seq<CurrencyInfoEntity>>,
    writes: seq<StoreWrite>): (r: Trace<R, Q>)
    ensures |r.emitted| >= 2 && r.emitted[0] == Loading(None)
  {
    var first := load(rows);
    if !shouldFetch(first) then
      Trace([Loading(None)] + Emissions(None, load, Observed(rows, writes)), [first], 0, [], [], After(rows, writes))
    else
      var t := TryFetch(rows, load, fetch, save, writes);
      t.(emitted := [Loading(None), Loading(Some(first))] + t.emitted, checked := [first])
  }

  /** The `try` block and its `catch`: fetch, save, then re-emit every
      snapshot as `Success`; or, when either step throws, report the failure
      and re-emit every snapshot as `Error`. Nothing is checked here and
      exactly one fetch is started. */
  function TryFetch<R, Q>(
    rows: Rows,
    load: Rows -> R,
    fetch: Outcome<Q>,
    save: Q -> Outcome<seq<CurrencyInfoEntity>>,
    writes: seq<StoreWrite>): (r: Trace<R, Q>)
    ensures r.checked == [] && r.fetches == 1
    ensures |r.emitted| == |writes| + 1
  {
    match fetch
    case Threw(t) =>
      Trace(Emissions(Some(FailureMessage(t)), load, Observed(rows, writes)), [], 1, [], [t], After(rows, writes))
    case Returned(q) =>
      match save(q)
      case Threw(t) =>
        Trace(Emissions(Some(FailureMessage(t)), load, Observed(rows, writes)), [], 1, [q], [t], After(rows, writes))
      case Returned(batch) =>
        var stored := Upsert(rows, batch);
        Trace(Emissions(None, load, Observed(stored, writes)), [], 1, [q], [], After(stored, writes))
  }

  /** The first emission is `Loading` with no data, before any snapshot is
      read; `shouldFetch` is asked exactly once, about the first snapshot, and
      at most one fetch happens. */
  lemma RunChecksOnce<R, Q>(rows: Rows, load: Rows -> R, shouldFetch: R -> bool, fetch: Outcome<Q>,
                            save: Q -> Outcome<seq<CurrencyInfoEntity>>, writes: seq<StoreWrite>)
    ensures var r := Run(rows, load, shouldFetch, fetch, save, writes);
      && r.emitted[0] == Loading(None)
      && r.checked == [load(rows)]
      && r.fetches == (if shouldFetch(load(rows)) then 1 else 0)
      && |r.saved| <= r.fetches && |r.failures| <= r.fetches
  {
  }

  /** The table the try block leaves: saved to when the fetch returned and
      the save succeeded, otherwise unchanged. */
  function Stored<Q>(rows: Rows, fetch: Outcome<Q>, save: Q -> Outcome<seq<CurrencyInfoEntity>>): (r: Rows)
    ensures KeyedById(rows) ==> KeyedById(r)
  {
    if fetch.Returned? && save(fetch.value).Returned? then Upsert(rows, save(fetch.value).value) else rows
  }

  /** The snapshots one collection reads, in order: without a fetch, those of
      the live query; with one, the first read, then those of the live query
      over the table the try block leaves. All are keyed by id when the table
      is. */
  function Snapshots<R, Q>(rows: Rows, load: Rows -> R, shouldFetch: R -> bool, fetch: Outcome<Q>,
                           save: Q -> Outcome<seq<CurrencyInfoEntity>>, writes: seq<StoreWrite>): (r: seq<Rows>)
    ensures KeyedById(rows) ==> forall i :: 0 <= i < |r| ==> KeyedById(r[i])
  {
    if !shouldFetch(load(rows)) then Observed(rows, writes)
    else [rows] + Observed(Stored(rows, fetch, save), writes)
  }

  /** The failure message the try block reports, if the fetch or the save
      threw. */
  function TryFailure<Q>(fetch: Outcome<Q>, save: Q -> Outcome<seq<CurrencyInfoEntity>>): Option<string> {
    match fetch
    case Threw(f) => Some(FailureMessage(f))
    case Returned(q) =>
      match save(q)
      case Threw(f) => Some(FailureMessage(f))
      case Returned(_) => None
  }

  /** The try block emits one resource per snapshot of the live query over
      the table it leaves: `Error` with the failure's message when the fetch
      or the save threw, `Success` otherwise. */
  lemma TryFetchEmits<R, Q>(rows: Rows, load: Rows -> R, fetch: Outcome<Q>,
                            save: Q -> Outcome<seq<CurrencyInfoEntity>>, writes: seq<StoreWrite>)
    ensures TryFetch(rows, load, fetch, save, writes).emitted
      == Emissions(TryFailure(fetch, save), load, Observed(Stored(rows, fetch, save), writes))
  {
  }

  /** Every emission after the first `Loading()` carries `load` of the next
      snapshot read, in order, whether it is `Loading`, `Success` or `Error`;
      the first carries nothing. */
  lemma RunDataIsLoaded<R, Q>(rows: Rows, load: Rows -> R, shouldFetch: R -> bool, fetch: Outcome<Q>,
                              save: Q -> Outcome<seq<CurrencyInfoEntity>>, writes: seq<StoreWrite>)
    ensures var r, ss := Run(rows, load, shouldFetch, fetch, save, writes), Snapshots(rows, load, shouldFetch, fetch, save, writes);
      && |r.emitted| == |ss| + 1 && r.emitted[0].Data() == None
      && forall i :: 1 <= i < |r.emitted| ==> r.emitted[i].Data() == Some(load(ss[i - 1]))
  {
    var r, ss := Run(rows, load, shouldFetch, fetch, save, writes), Snapshots(rows, load, shouldFetch, fetch, save, writes);
    if !shouldFetch(load(rows)) {
      assert r.emitted == [Loading(None)] + Emissions(None, load, ss);
      EmissionsCarryLoads([Loading(None)], None, load, [], ss);
    } else {
      var snapshots := Observed(Stored(rows, fetch, save), writes);
      TryFetchEmits(rows, load, fetch, save, writes);
      assert r.emitted == [Loading(None), Loading(Some(load(rows)))] + Emissions(TryFailure(fetch, save), load, snapshots);
      EmissionsCarryLoads([Loading(None), Loading(Some(load(rows)))], TryFailure(fetch, save), load, [rows], snapshots);
    }
  }

  /** After a head whose first entry carries no data and whose others carry
      `load` of the snapshots `first`, one emission per snapshot of the live
      query carries `load` of that snapshot. */
  lemma EmissionsCarryLoads<R>(head: seq<Resource<R>>, failure: Option<string>, load: Rows -> R,
                               first: seq<Rows>, snapshots: seq<Rows>)
    requires |head| == |first| + 1 && head[0].Data() == None
    requires forall i :: 1 <= i < |head| ==> head[i].Data() == Some(load(first[i - 1]))
    ensures var es, ss := head + Emissions(failure, load, snapshots), first + snapshots;
      && |es| == |ss| + 1 && es[0].Data() == None
      && forall i :: 1 <= i < |es| ==> es[i].Data() == Some(load(ss[i - 1]))
  {
    var e, es, ss := Emissions(failure, load, snapshots), head + Emissions(failure, load, snapshots), first + snapshots;
    forall i | 1 <= i < |es| ensures es[i].Data() == Some(load(ss[i - 1])) {
      if i >= |head| {
        assert es[i] == e[i - |head|] && ss[i - 1] == snapshots[i - |head|];
      } else {
        assert es[i] == head[i] && ss[i - 1] == first[i - 1];
      }
    }
  }

  /** Without a fetch, nothing is fetched, saved or reported as failed, the
      table only sees the later writes, and every emission after the first is
      `Success` of the next snapshot, in order. */
  lemma RunWithoutFetch<R, Q>(rows: Rows, load: Rows -> R, shouldFetch: R -> bool, fetch: Outcome<Q>,
                              save: Q -> Outcome<seq<CurrencyInfoEntity>>, writes: seq<StoreWrite>)
    requires !shouldFetch(load(rows))
    ensures var r := Run(rows, load, shouldFetch, fetch, save, writes);
      && r.fetches == 0 && r.saved == [] && r.failures == []
      && |r.emitted| == |writes| + 2
      && (forall i :: 0 <= i <= |writes| ==> r.emitted[i + 1] == Success(load(After(rows, writes[..i]))))
      && r.rows == After(rows, writes)
  {
    var r := Run(rows, load, shouldFetch, fetch, save, writes);
    forall i | 0 <= i <= |writes|
      ensures r.emitted[i + 1] == Success(load(After(rows, writes[..i])))
    {
      ObservedInOrder(rows, writes, i);
    }
  }

  /** With a fetch that returns and a save that succeeds: `Loading` with the
      first snapshot precedes the fetch, the save gets exactly the fetched
      value once, no failure is reported, the first `Success` shows the table
      after the save, and every later emission is `Success`. */
  lemma RunFetchAndSave<R, Q>(rows: Rows, load: Rows -> R, shouldFetch: R -> bool, fetch: Outcome<Q>,
                              save: Q -> Outcome<seq<CurrencyInfoEntity>>, writes: seq<StoreWrite>)
    requires shouldFetch(load(rows)) && fetch.Returned? && save(fetch.value).Returned?
    ensures var r := Run(rows, load, shouldFetch, fetch, save, writes);
      var stored := Upsert(rows, save(fetch.value).value);
      && r.fetches == 1 && r.saved == [fetch.value] && r.failures == []
      && |r.emitted| == |writes| + 3
      && r.emitted[1] == Loading(Some(load(rows)))
      && r.emitted[2] == Success(load(stored))
      && (forall i :: 2 <= i < |r.emitted| ==> r.emitted[i] == Success(load(After(stored, writes[..i - 2]))))
      && r.rows == After(stored, writes)
  {
    var r := Run(rows, load, shouldFetch, fetch, save, writes);
    var stored := Upsert(rows, save(fetch.value).value);
    var e := Emissions(None, load, Observed(stored, writes));
    assert r.emitted == [Loading(None), Loading(Some(load(rows)))] + e;
    forall i | 2 <= i < |r.emitted|
      ensures r.emitted[i] == Success(load(After(stored, writes[..i - 2])))
    {
      assert r.emitted[i] == e[i - 2];
      ObservedInOrder(stored, writes, i - 2);
    }
  }

  /** When the fetch or the save throws: `onFetchFailed` gets that failure
      once, a failed fetch never reaches the save, the table keeps its
      pre-failure contents, and every emission after the `Loading`s is an
      `Error` with the failure message (or "Unknown error") and the snapshot
      data, the first of them the data held before the failure; none is
      `Success`. */
  lemma RunFetchFails<R, Q>(rows: Rows, load: Rows -> R, shouldFetch: R -> bool, fetch: Outcome<Q>,
                            save: Q -> Outcome<seq<CurrencyInfoEntity>>, writes: seq<StoreWrite>)
    requires shouldFetch(load(rows)) && (fetch.Threw? || save(fetch.value).Threw?)
    ensures var r := Run(rows, load, shouldFetch, fetch, save, writes);
      var t := if fetch.Threw? then fetch.failure else save(fetch.value).failure;
      && r.fetches == 1 && r.failures == [t]
      && r.saved == (if fetch.Threw? then [] else [fetch.value])
      && |r.emitted| == |writes| + 3
      && r.emitted[1] == Loading(Some(load(rows)))
      && r.emitted[2] == Error(t.message.GetOr("Unknown error"), Some(load(rows)))
      && (forall i :: 2 <= i < |r.emitted| ==>
            r.emitted[i] == Error(t.message.GetOr("Unknown error"), Some(load(After(rows, writes[..i - 2])))))
      && (forall i :: 0 <= i < |r.emitted| ==> !r.emitted[i].Success?)
      && r.rows == After(rows, writes)
  {
    var r := Run(rows, load, shouldFetch, fetch, save, writes);
    var e := Emissions(Some(FailureMessage(r.failures[0])), load, Observed(rows, writes));
    assert r.emitted == [Loading(None), Loading(Some(load(rows)))] + e;
    forall i | 2 <= i < |r.emitted|
      ensures r.emitted[i] == Error(FailureMessage(r.failures[0]), Some(load(After(rows, writes[..i - 2]))))
    {
      assert r.emitted[i] == e[i - 2];
      ObservedInOrder(rows, writes, i - 2);
    }
  }

  /** `emitAll(loadFromDb().map { ... })`: subscribe to the table, emit the
      current snapshot, then one emission after each later write. */
  method EmitAll<R>(dao: CurrencyInfoDao, failure: Option<string>, load: Rows -> R, writes: seq<StoreWrite>)
    returns (out: seq<Resource<R>>)
    requires dao.Valid()
    modifies dao
    ensures dao.Valid()
    ensures out == Emissions(failure, load, Observed(old(dao.rows), writes))
    ensures dao.rows == After(old(dao.rows), writes)
  {
    ghost var start := dao.rows;
    out := Emissions(failure, load, [dao.rows]);
    for i := 0 to |writes|
      invariant dao.Valid()
      invariant dao.rows == After(start, writes[..i])
      invariant out == Emissions(failure, load, Observed(start, writes[..i]))
    {
      assert writes[..i + 1][..i] == writes[..i];
      match writes[i] {
        case Insert(batch) => dao.InsertCurrencies(batch);
        case Clear => dao.ClearCurrencies();
      }
      EmissionsAppend(failure, load, Observed(start, writes[..i]), dao.rows);
      out := out + Emissions(failure, load, [dao.rows]);
    }
    assert writes[..|writes|] == writes;
  }

  /** `asFlow()` collected once, against the table `dao`. */
  method AsFlow<R, Q>(
    dao: CurrencyInfoDao,
    load: Rows -> R,
    shouldFetch: R -> bool,
    fetch: Outcome<Q>,
    save: Q -> Outcome<seq<CurrencyInfoEntity>>,
    writes: seq<StoreWrite>)
    returns (emitted: seq<Resource<R>>, checked: seq<R>, fetches: nat, saved: seq<Q>, failures: seq<Throwable>)
    requires dao.Valid()
    modifies dao
    ensures dao.Valid()
    ensures Trace(emitted, checked, fetches, saved, failures, dao.rows)
         == Run(old(dao.rows), load, shouldFetch, fetch, save, writes)
  {
    ghost var rows := dao.rows;
    var dbData := load(dao.rows);
    checked := [dbData];
    var rest: seq<Resource<R>>;
    if shouldFetch(dbData) {
      rest, saved, failures := FetchThenEmit(dao, load, fetch, save, writes);
      fetches := 1;
      emitted := [Loading(None), Loading(Some(dbData))] + rest;
      ghost var t := TryFetch(rows, load, fetch, save, writes);
      assert Run(rows, load, shouldFetch, fetch, save, writes)
        == t.(emitted := [Loading(None), Loading(Some(dbData))] + t.emitted, checked := [dbData]);
    } else {
      fetches, saved, failures := 0, [], [];
      rest := EmitAll(dao, None, load, writes);
      emitted := [Loading(None)] + rest;
    }
  }

  /** The `try`/`catch` of `asFlow()`, against the table `dao`. */
  method FetchThenEmit<R, Q>(
    dao: CurrencyInfoDao,
    load: Rows -> R,
    fetch: Outcome<Q>,
    save: Q -> Outcome<seq<CurrencyInfoEntity>>,
    writes: seq<StoreWrite>)
    returns (rest: seq<Resource<R>>, saved: seq<Q>, failures: seq<Throwable>)
    requires dao.Valid()
    modifies dao
    ensures dao.Valid()
    ensures Trace(rest, [], 1, saved, failures, dao.rows) == TryFetch(old(dao.rows), load, fetch, save, writes)
  {
    saved, failures := [], [];
    match fetch
    case Threw(t) =>
      failures := [t];
      rest := EmitAll(dao, Some(FailureMessage(t)), load, writes);
    case Returned(q) =>
      saved := [q];
      match save(q)
      case Threw(t) =>
        failures := [t];
        rest := EmitAll(dao, Some(FailureMessage(t)), load, writes);
      case Returned(batch) =>
        dao.InsertCurrencies(batch);
        rest := EmitAll(dao, None, load, writes);
  }
}
