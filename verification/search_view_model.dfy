/** The search screen's presenter: a state record updated by user events, a
    query stream that is debounced and de-duplicated before each search, and
    the mapping of the search's `Resource` emissions onto the state. */
module Search {
  import opened Domain
  import opened Text
  import opened Seqs

  datatype SearchState = SearchState(
    searchQuery: string,
    searchResults: Option<seq<CurrencyInfo>>,
    isLoading: bool,
    isSearchActive: bool)

  const Initial := SearchState("", None, false, false)

  datatype SearchEvent =
    | OnSearchQueryChange(query: string)
    | OnToggleSearch
    | OnClearSearch
    | OnBackClick

  datatype SearchEffect = NavigateBack | ShowError(message: string)

  // ---------------------------------------------------------------------
  // Trim and blank check

  /** The keyword handed to the search use case: the issued query with its
      leading and trailing whitespace dropped, or nothing at all when that
      leaves a blank string. Inner characters, case included, are kept. */
  function SearchRequest(keyword: string): (r: Option<string>)
    ensures r.None? <==> IsBlank(keyword)
    ensures r.Some? ==> r.value != [] && !IsWhitespace(r.value[0]) && !IsWhitespace(r.value[|r.value| - 1])
    ensures r.Some? ==> exists a :: (
      && 0 <= a && a + |r.value| <= |keyword| && keyword[a..a + |r.value|] == r.value
      && IsBlank(keyword[..a]) && IsBlank(keyword[a + |r.value|..]))
  {
    var trimmed := Trim(keyword);
    if IsBlank(trimmed) then None else Some(trimmed)
  }

  /** The use case trims again; on a keyword the presenter passes that is a
      no-op, so the repository sees exactly the presenter's keyword. */
  lemma RequestIsStable(keyword: string)
    requires SearchRequest(keyword).Some?
    ensures SearchRequest(SearchRequest(keyword).value) == SearchRequest(keyword)
  {
    TrimIdempotent(keyword);
  }

  // ---------------------------------------------------------------------
  // Resource emissions onto the state

  datatype Collected = Collected(state: SearchState, effects: seq<SearchEffect>)

  /** The state update for one emission of the search, and the effect it
      emits, if any. */
  function OnResource(s: SearchState, res: Resource<seq<CurrencyInfo>>): Collected {
    match res
    case Success(d) => Collected(s.(isLoading := false, searchResults := Some(d)), [])
    case Error(_, _) =>
      Collected(s.(isLoading := false, searchResults := None), [ShowError(res.Message().GetOr("Unknown error"))])
    case Loading(_) => Collected(s.(isLoading := true, searchResults := None), [])
  }

  predicate IsError(res: Resource<seq<CurrencyInfo>>) {
    res.Error?
  }

  /** The state and effects after collecting every emission of one search,
      in order. */
  function Collect(s: SearchState, rs: seq<Resource<seq<CurrencyInfo>>>): (r: Collected)
    ensures r.state.searchQuery == s.searchQuery && r.state.isSearchActive == s.isSearchActive
    ensures rs == [] ==> r.state == s
    ensures |r.effects| == |Filter(IsError, rs)|
  {
    if rs == [] then Collected(s, [])
    else
      var before := Collect(s, rs[..|rs| - 1]);
      var step := OnResource(before.state, rs[|rs| - 1]);
      assert rs == rs[..|rs| - 1] + [rs[|rs| - 1]];
      FilterAppend(IsError, rs[..|rs| - 1], [rs[|rs| - 1]]);
      Collected(step.state, before.effects + step.effects)
  }

  lemma CollectStep(s: SearchState, rs: seq<Resource<seq<CurrencyInfo>>>, i: nat)
    requires i < |rs|
    ensures var before := Collect(s, rs[..i]);
      var step := OnResource(before.state, rs[i]);
      Collect(s, rs[..i + 1]) == Collected(step.state, before.effects + step.effects)
  {
    assert rs[..i + 1][..i] == rs[..i];
  }

  /** Only the latest emission decides `isLoading` and `searchResults`:
      `Loading` sets loading and clears the results, `Success(d)` shows `d`,
      `Error` clears both; each `Error` emits one `ShowError` with its message,
      and no other emission emits anything. */
  lemma {:induction false} CollectLatestWins(s: SearchState, rs: seq<Resource<seq<CurrencyInfo>>>)
    requires rs != []
    ensures var r, last := Collect(s, rs), rs[|rs| - 1];
      && r.state.isLoading == last.Loading?
      && r.state.searchResults == (if last.Success? then Some(last.value) else None)
    ensures forall e :: e in Collect(s, rs).effects ==> e.ShowError?
  {
    if |rs| > 1 {
      CollectLatestWins(s, rs[..|rs| - 1]);
    } else {
      assert rs[..0] == [];
    }
  }

  /** An `Error` emits exactly one `ShowError`, carrying the error's message
      (falling back to "Unknown error"). */
  lemma ErrorShowsOnce(s: SearchState, rs: seq<Resource<seq<CurrencyInfo>>>, message: string, data: Option<seq<CurrencyInfo>>)
    ensures Collect(s, rs + [Error(message, data)]).effects == Collect(s, rs).effects + [ShowError(message)]
    ensures Collect(s, rs + [Error(message, data)]).state.searchResults == None
  {
    assert (rs + [Error(message, data)])[..|rs|] == rs;
  }

  // ---------------------------------------------------------------------
  // The issued-query rule: debounce 1 s, then drop repeats

  /** The debounce timeout, in milliseconds. */
  const DebounceMs := 1000

  /** A value written to the query stream, with the time of the write. */
  datatype Timed = Timed(at: int, query: string)

  /** What the query stream delivers after value `prev`: a write equal to the
      current value is not delivered. */
  function DeliveredAfter(prev: string, writes: seq<Timed>): (r: seq<Timed>)
    decreases |writes|
    ensures IsSubsequence(r, writes)
    ensures r != [] ==> r[0].query != prev
    ensures forall j :: 0 <= j < |r| - 1 ==> r[j].query != r[j + 1].query
  {
    if writes == [] then []
    else if writes[0].query == prev then DeliveredAfter(prev, writes[1..])
    else [writes[0]] + DeliveredAfter(writes[0].query, writes[1..])
  }

  /** The stream starts out holding "" when the collector starts (time 0). */
  function Delivered(writes: seq<Timed>): seq<Timed> {
    [Timed(0, "")] + DeliveredAfter("", writes)
  }

  /** A delivered value survives the debounce when the next value arrives at
      least 1 s after it or, for the latest value, when 1 s has passed by
      `now`. */
  predicate Settles(vs: seq<Timed>, i: int, now: int)
    requires 0 <= i < |vs|
  {
    if i + 1 < |vs| then vs[i + 1].at - vs[i].at >= DebounceMs else now - vs[i].at >= DebounceMs
  }

  /** `debounce(1.seconds)` over the delivered values, observed at `now`. */
  function Debounce(vs: seq<Timed>, now: int): (r: seq<Timed>)
    ensures |r| <= |vs|
  {
    if vs == [] then []
    else (if Settles(vs, 0, now) then [vs[0]] else []) + Debounce(vs[1..], now)
  }

  /** The debounce keeps the order of the values it passes on. */
  lemma {:induction false} DebounceKeepsOrder(vs: seq<Timed>, now: int)
    ensures IsSubsequence(Debounce(vs, now), vs)
  {
    if vs != [] {
      var rest := vs[1..];
      DebounceKeepsOrder(rest, now);
      if Settles(vs, 0, now) {
        assert Debounce(vs, now)[0] == vs[0];
        assert Debounce(vs, now)[1..] == Debounce(rest, now);
      } else {
        assert Debounce(vs, now) == Debounce(rest, now);
        SubsequenceExtend(Debounce(rest, now), vs);
      }
    }
  }

  /** Every value that settles is passed on. */
  lemma {:induction false} DebouncePassesSettled(vs: seq<Timed>, now: int, i: nat)
    requires i < |vs| && Settles(vs, i, now)
    ensures vs[i] in Debounce(vs, now)
    decreases i
  {
    if i > 0 {
      var rest := vs[1..];
      assert Settles(rest, i - 1, now);
      DebouncePassesSettled(rest, now, i - 1);
    }
  }

  /** Only values that settle are passed on. */
  lemma {:induction false} DebouncePassesOnlySettled(vs: seq<Timed>, now: int, t: Timed)
    requires t in Debounce(vs, now)
    ensures exists i :: 0 <= i < |vs| && vs[i] == t && Settles(vs, i, now)
  {
    var rest := vs[1..];
    if !(Settles(vs, 0, now) && t == vs[0]) {
      assert t in Debounce(rest, now);
      DebouncePassesOnlySettled(rest, now, t);
      var i :| 0 <= i < |rest| && rest[i] == t && Settles(rest, i, now);
      assert vs[i + 1] == t && Settles(vs, i + 1, now);
    }
  }

  /** `distinctUntilChanged()`: drop a value equal to the one before it. */
  function DropRepeats(xs: seq<string>): (r: seq<string>)
    ensures |r| <= |xs|
    ensures xs != [] ==> r != [] && r[0] == xs[0]
  {
    if |xs| <= 1 then xs
    else if xs[0] == xs[1] then DropRepeats(xs[1..])
    else [xs[0]] + DropRepeats(xs[1..])
  }

  /** No two neighbours of the result are equal, the order is kept, and no
      value is lost altogether. */
  lemma {:induction false} DropRepeatsSpec(xs: seq<string>)
    ensures forall j :: 0 <= j < |DropRepeats(xs)| - 1 ==> DropRepeats(xs)[j] != DropRepeats(xs)[j + 1]
    ensures IsSubsequence(DropRepeats(xs), xs)
    ensures forall x :: x in xs <==> x in DropRepeats(xs)
  {
    if |xs| > 1 {
      var rest := xs[1..];
      DropRepeatsSpec(rest);
      assert xs == [xs[0]] + rest;
      if xs[0] != xs[1] {
        var r := DropRepeats(xs);
        assert r[1..] == DropRepeats(rest);
      } else {
        assert xs[0] in rest;
        SubsequenceExtend(DropRepeats(rest), xs);
      }
    }
  }

  /** Dropping repeats twice drops nothing more. */
  lemma {:induction false} DropRepeatsIdempotent(xs: seq<string>)
    ensures DropRepeats(DropRepeats(xs)) == DropRepeats(xs)
  {
    if |xs| > 1 {
      var rest := xs[1..];
      DropRepeatsIdempotent(rest);
      if xs[0] != xs[1] {
        var r := DropRepeats(rest);
        assert r[0] == xs[1];
        assert ([xs[0]] + r)[1..] == r;
      }
    }
  }

  function Queries(ts: seq<Timed>): (r: seq<string>)
    ensures |r| == |ts| && forall i :: 0 <= i < |ts| ==> r[i] == ts[i].query
  {
    seq(|ts|, i requires 0 <= i < |ts| => ts[i].query)
  }

  /** The queries the collector hands to `searchCurrencies`, given every write
      to the query stream and the time of observation. */
  function Issued(writes: seq<Timed>, now: int): seq<string> {
    DropRepeats(Queries(Debounce(Delivered(writes), now)))
  }

  /** Every issued query is a delivered value that no newer value overtook
      within 1 s, and no query is issued twice in a row. */
  lemma IssuedRule(writes: seq<Timed>, now: int)
    ensures forall q :: q in Issued(writes, now) ==>
      exists i :: 0 <= i < |Delivered(writes)| && Delivered(writes)[i].query == q && Settles(Delivered(writes), i, now)
    ensures forall j :: 0 <= j < |Issued(writes, now)| - 1 ==> Issued(writes, now)[j] != Issued(writes, now)[j + 1]
  {
    var vs := Delivered(writes);
    var d := Debounce(vs, now);
    DropRepeatsSpec(Queries(d));
    forall q | q in Issued(writes, now)
      ensures exists i :: 0 <= i < |vs| && vs[i].query == q && Settles(vs, i, now)
    {
      var k :| 0 <= k < |d| && Queries(d)[k] == q;
      DebouncePassesOnlySettled(vs, now, d[k]);
    }
  }

  /** Typing "b", "bi", "bit" within 1 s, then waiting, issues "bit" alone;
      the empty initial value is overtaken before it settles. */
  lemma TypingBurstIssuesLastOnly()
    ensures Issued([Timed(100, "b"), Timed(300, "bi"), Timed(500, "bit")], 2000) == ["bit"]
  {
    var writes := [Timed(100, "b"), Timed(300, "bi"), Timed(500, "bit")];
    var vs := [Timed(0, ""), Timed(100, "b"), Timed(300, "bi"), Timed(500, "bit")];
    assert Delivered(writes) == vs by {
      assert vs[0].query != vs[1].query && vs[1].query != vs[2].query && vs[2].query != vs[3].query;
      assert vs == [Timed(0, "")] + writes;
      DeliversEveryChange(writes, vs);
    }
    var settled := [Timed(500, "bit")];
    assert Debounce(vs, 2000) == settled by {
      BurstSettlesLast(vs);
    }
    assert Queries(settled) == ["bit"];
    assert DropRepeats(["bit"]) == ["bit"];
  }

  lemma BurstSettlesLast(vs: seq<Timed>)
    requires vs == [Timed(0, ""), Timed(100, "b"), Timed(300, "bi"), Timed(500, "bit")]
    ensures Debounce(vs, 2000) == [Timed(500, "bit")]
  {
    assert Debounce(vs[3..], 2000) == [Timed(500, "bit")];
    assert Debounce(vs[2..], 2000) == Debounce(vs[3..], 2000);
    assert Debounce(vs[1..], 2000) == Debounce(vs[2..], 2000);
  }

  /** When no write repeats the value before it, every write is delivered. */
  lemma DeliversEveryChange(writes: seq<Timed>, vs: seq<Timed>)
    requires vs == [Timed(0, "")] + writes
    requires forall j :: 0 <= j < |vs| - 1 ==> vs[j].query != vs[j + 1].query
    ensures Delivered(writes) == vs
  {
    forall j | 0 <= j < |writes| - 1
      ensures writes[j].query != writes[j + 1].query
    {
      assert writes[j] == vs[j + 1] && writes[j + 1] == vs[j + 2];
    }
    if writes != [] {
      assert writes[0] == vs[1] && vs[0].query == "";
    }
    DeliveredAfterChanges("", writes);
  }

  lemma {:induction false} DeliveredAfterChanges(prev: string, writes: seq<Timed>)
    requires writes != [] ==> writes[0].query != prev
    requires forall j :: 0 <= j < |writes| - 1 ==> writes[j].query != writes[j + 1].query
    ensures DeliveredAfter(prev, writes) == writes
    decreases |writes|
  {
    if writes != [] {
      DeliveredAfterChanges(writes[0].query, writes[1..]);
    }
  }

  /** Writing "bitcoin", waiting 1 s, and writing "bitcoin" again searches
      for it once: the stream does not deliver a value equal to the one it
      holds. */
  lemma RepeatedQueryIsSearchedOnce()
    ensures Issued([Timed(0, "bitcoin"), Timed(1000, "bitcoin")], 2000) == ["bitcoin"]
  {
    var writes := [Timed(0, "bitcoin"), Timed(1000, "bitcoin")];
    assert DeliveredAfter("bitcoin", writes[1..]) == [] by {
      assert writes[1..][1..] == [];
    }
    var vs := [Timed(0, ""), Timed(0, "bitcoin")];
    assert Delivered(writes) == vs;
    assert Debounce(vs, 2000) == [Timed(0, "bitcoin")] by {
      assert Debounce(vs[1..], 2000) == [Timed(0, "bitcoin")];
    }
    assert Queries([Timed(0, "bitcoin")]) == ["bitcoin"];
  }

  /** Retyping the query already searched issues nothing new: after the
      initial empty query settles, "bit", then "bi" and "bit" again within
      1 s, issues "bit" once. */
  lemma RetypedQueryIsDropped()
    ensures Issued([Timed(1500, "bit"), Timed(4000, "bi"), Timed(4200, "bit")], 9000) == ["", "bit"]
  {
    var writes := [Timed(1500, "bit"), Timed(4000, "bi"), Timed(4200, "bit")];
    var vs := [Timed(0, ""), Timed(1500, "bit"), Timed(4000, "bi"), Timed(4200, "bit")];
    DeliversEveryChange(writes, vs);
    RetypedSettles(vs);
    assert Queries([Timed(0, ""), Timed(1500, "bit"), Timed(4200, "bit")]) == ["", "bit", "bit"];
    assert DropRepeats(["bit", "bit"]) == ["bit"];
  }

  lemma RetypedSettles(vs: seq<Timed>)
    requires vs == [Timed(0, ""), Timed(1500, "bit"), Timed(4000, "bi"), Timed(4200, "bit")]
    ensures Debounce(vs, 9000) == [Timed(0, ""), Timed(1500, "bit"), Timed(4200, "bit")]
  {
    assert Debounce(vs[3..], 9000) == [Timed(4200, "bit")];
    assert Debounce(vs[2..], 9000) == Debounce(vs[3..], 9000);
    assert Debounce(vs[1..], 9000) == [Timed(1500, "bit")] + Debounce(vs[2..], 9000);
  }

  // ---------------------------------------------------------------------
  // The presenter object

  class SearchViewModel {
    /** `_uiState.value` */
    var uiState: SearchState
    /** `_searchQueryFlow.value` */
    var queryValue: string
    /** Every write to the query stream, with its time. */
    var writes: seq<Timed>
    /** Effects emitted so far, in order. */
    var effects: seq<SearchEffect>
    /** Keywords passed to the search use case so far, in order. */
    var searches: seq<string>

    /** The query stream always holds the query the state shows. */
    ghost predicate Valid()
      reads this
    {
      queryValue == uiState.searchQuery
    }

    constructor()
      ensures Valid()
      ensures uiState == Initial && queryValue == "" && writes == [] && effects == [] && searches == []
    {
      uiState := Initial;
      queryValue := "";
      writes := [];
      effects := [];
      searches := [];
    }

    method WriteQuery(q: string, now: int)
      modifies this
      ensures queryValue == q && writes == old(writes) + [Timed(now, q)]
      ensures uiState == old(uiState) && effects == old(effects) && searches == old(searches)
    {
      queryValue := q;
      writes := writes + [Timed(now, q)];
    }

    /** `onEvent`, at time `now`. */
    method OnEvent(event: SearchEvent, now: int)
      requires Valid()
      modifies this
      ensures Valid()
      ensures searches == old(searches) && uiState.isLoading == old(uiState.isLoading)
      ensures event.OnSearchQueryChange? ==>
        && uiState == old(uiState).(searchQuery := event.query)
        && writes == old(writes) + [Timed(now, event.query)] && effects == old(effects)
      ensures event.OnToggleSearch? ==>
        && uiState.isSearchActive == !old(uiState.isSearchActive)
        && (old(uiState.isSearchActive) ==>
             uiState == old(uiState).(isSearchActive := false, searchQuery := "", searchResults := None)
             && writes == old(writes) + [Timed(now, "")])
        && (!old(uiState.isSearchActive) ==>
             uiState == old(uiState).(isSearchActive := true) && writes == old(writes))
        && effects == old(effects)
      ensures event.OnClearSearch? ==>
        && uiState == old(uiState).(searchQuery := "", searchResults := None)
        && writes == old(writes) + [Timed(now, "")] && effects == old(effects)
      ensures event.OnBackClick? ==>
        uiState == old(uiState) && writes == old(writes) && effects == old(effects) + [NavigateBack]
    {
      match event {
        case OnSearchQueryChange(q) =>
          uiState := uiState.(searchQuery := q);
          WriteQuery(q, now);
        case OnToggleSearch =>
          uiState := uiState.(isSearchActive := !uiState.isSearchActive);
          if !uiState.isSearchActive {
            uiState := uiState.(searchQuery := "", searchResults := None);
            WriteQuery("", now);
          }
        case OnClearSearch =>
          uiState := uiState.(searchQuery := "", searchResults := None);
          WriteQuery("", now);
        case OnBackClick =>
          effects := effects + [NavigateBack];
      }
    }

    /** `searchCurrencies(keyword)` for one issued query: a blank keyword
        clears the results without a search; otherwise the trimmed keyword
        goes to the use case, whose emissions `results` are collected in
        order. */
    method SearchCurrencies(keyword: string, results: seq<Resource<seq<CurrencyInfo>>>)
      requires Valid()
      modifies this
      ensures Valid()
      ensures writes == old(writes)
      ensures SearchRequest(keyword).None? ==>
        && uiState == old(uiState).(searchResults := None)
        && searches == old(searches) && effects == old(effects)
      ensures SearchRequest(keyword).Some? ==>
        && searches == old(searches) + [SearchRequest(keyword).value]
        && uiState == Collect(old(uiState), results).state
        && effects == old(effects) + Collect(old(uiState), results).effects
    {
      match SearchRequest(keyword) {
        case None =>
          uiState := uiState.(searchResults := None);
        case Some(trimmed) =>
          searches := searches + [trimmed];
          CollectAll(results);
      }
    }

    /** The collector of one search: each emission updates the state, and an
        `Error` also emits `ShowError`. */
    method CollectAll(results: seq<Resource<seq<CurrencyInfo>>>)
      requires Valid()
      modifies this
      ensures Valid() && writes == old(writes) && searches == old(searches)
      ensures uiState == Collect(old(uiState), results).state
      ensures effects == old(effects) + Collect(old(uiState), results).effects
    {
      for i := 0 to |results|
        invariant uiState == Collect(old(uiState), results[..i]).state
        invariant effects == old(effects) + Collect(old(uiState), results[..i]).effects
        invariant Valid() && writes == old(writes) && searches == old(searches)
      {
        CollectStep(old(uiState), results, i);
        ghost var step := OnResource(uiState, results[i]);
        match results[i] {
          case Success(d) =>
            uiState := uiState.(isLoading := false, searchResults := Some(d));
          case Error(_, _) =>
            uiState := uiState.(isLoading := false, searchResults := None);
            effects := effects + [ShowError(results[i].Message().GetOr("Unknown error"))];
          case Loading(_) =>
            uiState := uiState.(isLoading := true, searchResults := None);
        }
      }
      assert results[..|results|] == results;
    }
  }
}
