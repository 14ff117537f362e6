/** The currency list screen's presenter: events become loads of the use
    case, a new load cancels the one before it, and each `Resource` the
    current load emits updates the state. */
module CurrencyList {
  import opened Domain
  import opened Seqs

  datatype ListState = ListState(currencies: seq<CurrencyInfo>, isLoading: bool)

  const Initial := ListState([], false)

  datatype ListEvent =
    | OnCreate
    | OnClearDataClick
    | OnInsertDataClick
    | OnLoadCurrencies(kind: CurrencyType, forceFetch: bool)
    | OnSearchClick

  datatype ListEffect = ShowError(message: string) | NavigateToSearch

  /** One call of the list use case. */
  datatype Load = Load(kind: CurrencyType, forceFetch: bool)

  // ---------------------------------------------------------------------
  // Resource emissions onto the state

  datatype Collected = Collected(state: ListState, effects: seq<ListEffect>)

  function OnResource(s: ListState, res: Resource<seq<CurrencyInfo>>): Collected {
    match res
    case Success(_) => Collected(ListState(res.Data().GetOr([]), false), [])
    case Error(_, _) => Collected(s.(isLoading := false), [ShowError(res.Message().GetOr("Unknown error"))])
    case Loading(_) => Collected(s.(isLoading := true), [])
  }

  predicate IsError(res: Resource<seq<CurrencyInfo>>) {
    res.Error?
  }

  /** The state and effects after collecting emissions `rs` of one load. */
  function Collect(s: ListState, rs: seq<Resource<seq<CurrencyInfo>>>): (r: Collected)
    ensures rs == [] ==> r.state == s
    ensures |r.effects| == |Filter(IsError, rs)|
  {
    if rs == [] then Collected(s, [])
    else
      var before := Collect(s, rs[..|rs| - 1]);
      var step := OnResource(before.state, rs[|rs| - 1]);
      assert rs == rs[..|rs| - 1] + [rs[|rs| - 1]];
      FilterAppend(IsError, rs[..|rs| - 1], [rs[|rs| - 1]]);
      Collected(step.state, before.effects + step.effects)
  }

  lemma CollectLast(s: ListState, rs: seq<Resource<seq<CurrencyInfo>>>, x: Resource<seq<CurrencyInfo>>)
    ensures var before := Collect(s, rs);
      var step := OnResource(before.state, x);
      Collect(s, rs + [x]) == Collected(step.state, before.effects + step.effects)
  {
    assert (rs + [x])[..|rs|] == rs;
  }

  lemma CollectStep(s: ListState, rs: seq<Resource<seq<CurrencyInfo>>>, i: nat)
    requires i < |rs|
    ensures var before := Collect(s, rs[..i]);
      var step := OnResource(before.state, rs[i]);
      Collect(s, rs[..i + 1]) == Collected(step.state, before.effects + step.effects)
  {
    assert rs[..i + 1][..i] == rs[..i];
  }

  /** The data of the latest `Success` among `rs`, if there is one. */
  function LatestSuccess(rs: seq<Resource<seq<CurrencyInfo>>>): (r: Option<seq<CurrencyInfo>>)
    ensures r.Some? <==> exists i :: 0 <= i < |rs| && rs[i].Success?
  {
    if rs == [] then None
    else if rs[|rs| - 1].Success? then Some(rs[|rs| - 1].value)
    else
      var r := LatestSuccess(rs[..|rs| - 1]);
      assert forall i :: 0 <= i < |rs| - 1 ==> rs[..|rs| - 1][i] == rs[i];
      r
  }

  /** The list shows the data of the latest `Success`: `Loading` and `Error`
      keep the list, even when the `Error` carries data. `isLoading` follows
      the latest emission, and every effect is a `ShowError`. */
  lemma {:induction false} CollectShowsLatestSuccess(s: ListState, rs: seq<Resource<seq<CurrencyInfo>>>)
    ensures Collect(s, rs).state.currencies == LatestSuccess(rs).GetOr(s.currencies)
    ensures rs != [] ==> Collect(s, rs).state.isLoading == rs[|rs| - 1].Loading?
    ensures forall e :: e in Collect(s, rs).effects ==> e.ShowError?
  {
    if rs != [] {
      CollectShowsLatestSuccess(s, rs[..|rs| - 1]);
    }
  }

  /** An `Error` leaves the list alone and emits exactly one `ShowError`. */
  lemma ErrorKeepsList(s: ListState, rs: seq<Resource<seq<CurrencyInfo>>>, message: string, data: Option<seq<CurrencyInfo>>)
    ensures var after := Collect(s, rs + [Error(message, data)]);
      && after.state == Collect(s, rs).state.(isLoading := false)
      && after.effects == Collect(s, rs).effects + [ShowError(message)]
  {
    assert (rs + [Error(message, data)])[..|rs|] == rs;
  }

  // ---------------------------------------------------------------------
  // Latest load wins

  /** What reaches the presenter over time: a load starts (job number = the
      count of earlier loads), or a job emits. */
  datatype Happening = Start(load: Load) | Emit(job: nat, res: Resource<seq<CurrencyInfo>>)

  datatype Screen = Screen(state: ListState, effects: seq<ListEffect>, started: nat)

  /** Replays happenings; starting a load cancels the previous job, so only
      emissions of the latest job are collected. */
  function Replay(init: Screen, hs: seq<Happening>): (r: Screen)
    ensures r.started >= init.started
  {
    if hs == [] then init
    else Apply(Replay(init, hs[..|hs| - 1]), hs[|hs| - 1])
  }

  /** One happening on the screen: a start bumps the job count; an emission
      of the live job (the latest started) is collected; any other emission
      is ignored. */
  function Apply(before: Screen, h: Happening): (r: Screen)
    ensures r.started >= before.started
  {
    match h
    case Start(_) => before.(started := before.started + 1)
    case Emit(job, res) =>
      if before.started > 0 && job == before.started - 1 then
        var step := OnResource(before.state, res);
        before.(state := step.state, effects := before.effects + step.effects)
      else before
  }

  lemma ReplayLast(init: Screen, hs: seq<Happening>, h: Happening)
    ensures Replay(init, hs + [h]) == Apply(Replay(init, hs), h)
  {
    assert (hs + [h])[..|hs|] == hs;
  }

  predicate IsStart(h: Happening) {
    h.Start?
  }

  /** Every load started gets the next job number. */
  lemma {:induction false} ReplayCountsLoads(init: Screen, hs: seq<Happening>)
    ensures Replay(init, hs).started == init.started + |Filter(IsStart, hs)|
  {
    if hs != [] {
      ReplayCountsLoads(init, hs[..|hs| - 1]);
      assert hs == hs[..|hs| - 1] + [hs[|hs| - 1]];
      FilterAppend(IsStart, hs[..|hs| - 1], [hs[|hs| - 1]]);
    }
  }

  /** The emissions of job `job` among `hs`, in order. */
  function EmissionsOf(hs: seq<Happening>, job: nat): (r: seq<Resource<seq<CurrencyInfo>>>)
    ensures |r| <= |hs|
  {
    if hs == [] then []
    else
      var last := hs[|hs| - 1];
      EmissionsOf(hs[..|hs| - 1], job) + (if last.Emit? && last.job == job then [last.res] else [])
  }

  /** Replaying two stretches is replaying the second from where the first
      ended. */
  lemma {:induction false} ReplayAppend(init: Screen, a: seq<Happening>, b: seq<Happening>)
    ensures Replay(init, a + b) == Replay(Replay(init, a), b)
    decreases |b|
  {
    if b == [] {
      assert a + b == a;
    } else {
      var hs := a + b;
      assert hs[..|hs| - 1] == a + b[..|b| - 1];
      assert hs[|hs| - 1] == b[|b| - 1];
      ReplayAppend(init, a, b[..|b| - 1]);
    }
  }

  /** With no new load, a replay collects exactly the live job's emissions. */
  lemma {:induction false} ReplayLiveJob(start: Screen, after: seq<Happening>)
    requires start.started > 0
    requires forall i :: 0 <= i < |after| ==> !after[i].Start?
    ensures var end, rs := Replay(start, after), EmissionsOf(after, start.started - 1);
      && end.started == start.started
      && end.state == Collect(start.state, rs).state
      && end.effects == start.effects + Collect(start.state, rs).effects
    decreases |after|
  {
    if after != [] {
      var shorter := after[..|after| - 1];
      assert forall i :: 0 <= i < |shorter| ==> shorter[i] == after[i];
      var last := after[|after| - 1];
      assert shorter + [last] == after;
      ReplayLiveJob(start, shorter);
      ReplayLast(start, shorter, last);
      EmissionsLast(shorter, last, start.started - 1);
      LiveJobStep(start, Replay(start, shorter), EmissionsOf(shorter, start.started - 1), last);
    }
  }

  /** One emission on a screen that holds the live job's collected state. */
  lemma LiveJobStep(start: Screen, mid: Screen, rs: seq<Resource<seq<CurrencyInfo>>>, last: Happening)
    requires start.started > 0 && last.Emit?
    requires mid.started == start.started
    requires mid.state == Collect(start.state, rs).state
    requires mid.effects == start.effects + Collect(start.state, rs).effects
    ensures var end := Apply(mid, last);
      var rs' := rs + (if last.job == start.started - 1 then [last.res] else []);
      && end.started == start.started
      && end.state == Collect(start.state, rs').state
      && end.effects == start.effects + Collect(start.state, rs').effects
  {
    if last.job == start.started - 1 {
      var before := Collect(start.state, rs);
      var step := OnResource(before.state, last.res);
      CollectLast(start.state, rs, last.res);
      assert (start.effects + before.effects) + step.effects
        == start.effects + (before.effects + step.effects);
    } else {
      assert rs + [] == rs;
    }
  }

  lemma EmissionsLast(hs: seq<Happening>, h: Happening, job: nat)
    ensures EmissionsOf(hs + [h], job)
      == EmissionsOf(hs, job) + (if h.Emit? && h.job == job then [h.res] else [])
  {
    assert (hs + [h])[..|hs|] == hs;
  }

  /** After a load starts, the screen is what that load's own emissions make
      of the screen at its start; emissions of cancelled jobs change nothing. */
  lemma LatestLoadWins(init: Screen, before: seq<Happening>, l: Load, after: seq<Happening>)
    requires forall i :: 0 <= i < |after| ==> !after[i].Start?
    ensures var atStart := Replay(init, before + [Start(l)]);
      var job := atStart.started - 1;
      var end := Replay(init, before + [Start(l)] + after);
      && end.started == atStart.started
      && end.state == Collect(atStart.state, EmissionsOf(after, job)).state
      && end.effects == atStart.effects + Collect(atStart.state, EmissionsOf(after, job)).effects
  {
    var prefix := before + [Start(l)];
    ReplayAppend(init, prefix, after);
    ReplayLiveJob(Replay(init, prefix), after);
  }

  // ---------------------------------------------------------------------
  // The presenter object

  class CurrencyListViewModel {
    /** `_uiState.value` */
    var uiState: ListState
    /** Effects emitted so far, in order. */
    var effects: seq<ListEffect>
    /** Every call of the list use case, in order; the last is the live job. */
    var loads: seq<Load>
    /** How many times `clear()` was called on the use case. */
    var clears: nat

    /** `init { onEvent(OnCreate) }` */
    constructor()
      ensures uiState == Initial && effects == [] && clears == 0
      ensures loads == [Load(All, true)]
    {
      uiState := Initial;
      effects := [];
      loads := [];
      clears := 0;
      new;
      OnEvent(OnCreate);
    }

    /** `getAllCurrencies`: cancel the running job and start a new one. */
    method GetAllCurrencies(kind: CurrencyType, forceFetch: bool)
      modifies this
      ensures loads == old(loads) + [Load(kind, forceFetch)]
      ensures uiState == old(uiState) && effects == old(effects) && clears == old(clears)
    {
      loads := loads + [Load(kind, forceFetch)];
    }

    method OnEvent(event: ListEvent)
      modifies this
      ensures uiState == old(uiState)
      ensures event.OnCreate? || event.OnInsertDataClick? ==>
        loads == old(loads) + [Load(All, true)] && effects == old(effects) && clears == old(clears)
      ensures event.OnLoadCurrencies? ==>
        loads == old(loads) + [Load(event.kind, event.forceFetch)] && effects == old(effects) && clears == old(clears)
      ensures event.OnClearDataClick? ==>
        loads == old(loads) && effects == old(effects) && clears == old(clears) + 1
      ensures event.OnSearchClick? ==>
        loads == old(loads) && effects == old(effects) + [NavigateToSearch] && clears == old(clears)
    {
      match event {
        case OnCreate =>
          GetAllCurrencies(All, true);
        case OnClearDataClick =>
          clears := clears + 1;
        case OnInsertDataClick =>
          GetAllCurrencies(All, true);
        case OnLoadCurrencies(kind, forceFetch) =>
          GetAllCurrencies(kind, forceFetch);
        case OnSearchClick =>
          effects := effects + [NavigateToSearch];
      }
    }

    /** An emission of job `job` (the index of its load). A cancelled job's
        emission is never collected. */
    method OnEmission(job: nat, res: Resource<seq<CurrencyInfo>>)
      modifies this
      ensures loads == old(loads) && clears == old(clears)
      ensures job + 1 == |loads| ==>
        uiState == OnResource(old(uiState), res).state && effects == old(effects) + OnResource(old(uiState), res).effects
      ensures job + 1 != |loads| ==> uiState == old(uiState) && effects == old(effects)
    {
      if job + 1 != |loads| {
        return;
      }
      match res {
        case Success(_) =>
          uiState := uiState.(currencies := res.Data().GetOr([]), isLoading := false);
        case Error(_, _) =>
          uiState := uiState.(isLoading := false);
          effects := effects + [ShowError(res.Message().GetOr("Unknown error"))];
        case Loading(_) =>
          uiState := uiState.(isLoading := true);
      }
    }
  }
}
