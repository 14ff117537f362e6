/** One row of the currency list: the avatar initial, the name with the part
    that matches the search query in bold, and the symbol with a forward
    arrow for crypto currencies. Only what the row shows is modelled, not how
    it is drawn. */
module ListItem {
  import opened Domain
  import opened Text

  /** A run of the annotated name, bold or plain. */
  datatype Segment = Segment(text: string, bold: bool)

  /** What a row shows: the avatar letter, the styled name, and the trailing
      symbol (shown together with the arrow icon) when there is one. */
  datatype Row = Row(initial: string, title: seq<Segment>, trailing: Option<string>)

  /** The characters of the segments, in order. */
  function Spell(segs: seq<Segment>): string {
    if segs == [] then [] else segs[0].text + Spell(segs[1..])
  }

  /** `name.firstOrNull()?.toString().orEmpty()`. */
  function AvatarInitial(name: string): (r: string)
    ensures |r| <= 1 && |r| <= |name| && r == name[..|r|]
    ensures r == [] <==> name == []
  {
    if name == [] then [] else [name[0]]
  }

  /** The annotated name: when the query is non-empty and occurs in the name
      ignoring case, the first such occurrence is bold and the text around it
      plain; otherwise the whole name is one plain run. */
  function Highlight(name: string, query: string): (r: seq<Segment>)
    ensures Spell(r) == name
    ensures |r| == 1 || |r| == 3
    ensures |r| == 1 <==> query == [] || forall j :: !MatchesIgnoringCaseAt(name, query, j)
    ensures |r| == 1 ==> !r[0].bold
    ensures |r| == 3 ==>
      && !r[0].bold && r[1].bold && !r[2].bold
      && MatchesIgnoringCaseAt(name, query, |r[0].text|)
      && r[1].text == name[|r[0].text|..|r[0].text| + |query|]
      && forall j :: 0 <= j < |r[0].text| ==> !MatchesIgnoringCaseAt(name, query, j)
  {
    var start := IndexOfIgnoreCase(name, query);
    if query != [] && start != -1 then
      var r := [Segment(name[..start], false),
                Segment(name[start..start + |query|], true),
                Segment(name[start + |query|..], false)];
      assert Spell(r[2..]) == name[start + |query|..];
      assert Spell(r[1..]) == name[start..start + |query|] + name[start + |query|..];
      assert name == name[..start] + (name[start..start + |query|] + name[start + |query|..]);
      r
    else
      assert Spell([Segment(name, false)]) == name + [];
      [Segment(name, false)]
  }

  /** The row for `c` under the search query `query`. */
  function Render(c: CurrencyInfo, query: string): (r: Row)
    ensures r.initial == AvatarInitial(c.name)
    ensures Spell(r.title) == c.name
    ensures r.trailing.Some? <==> IsCrypto(c)
    ensures r.trailing.Some? ==> r.trailing.value == c.symbol
  {
    Row(AvatarInitial(c.name), Highlight(c.name, query),
        if c.code.None? then Some(c.symbol) else None)
  }

  /** The bold range of the row title, as `[start, end)` offsets into the
      name, or None when nothing is bold. */
  function BoldRange(segs: seq<Segment>): (r: Option<(nat, nat)>)
    ensures r.Some? ==> r.value.0 <= r.value.1 <= |Spell(segs)|
    ensures r.None? <==> forall i :: 0 <= i < |segs| ==> !segs[i].bold
  {
    if segs == [] then None
    else if segs[0].bold then Some((0, |segs[0].text|))
    else match BoldRange(segs[1..])
      case None => None
      case Some((s, e)) => Some((|segs[0].text| + s, |segs[0].text| + e))
  }

  /** An empty query leaves every name unstyled. */
  lemma EmptyQueryIsPlain(c: CurrencyInfo)
    ensures Render(c, "").title == [Segment(c.name, false)]
    ensures BoldRange(Render(c, "").title).None?
  {
  }

  /** A matching query bolds exactly the first case-insensitive occurrence. */
  lemma {:induction false} BoldRangeIsFirstMatch(name: string, query: string)
    requires query != [] && exists j :: MatchesIgnoringCaseAt(name, query, j)
    ensures var b := BoldRange(Highlight(name, query));
      && b.Some? && b.value.1 == b.value.0 + |query|
      && MatchesIgnoringCaseAt(name, query, b.value.0)
      && forall j :: 0 <= j < b.value.0 ==> !MatchesIgnoringCaseAt(name, query, j)
  {
    var r := Highlight(name, query);
    assert r[1..][0] == r[1];
  }

  /** "Bitcoin" with no query: avatar "B", symbol "BTC" shown. */
  lemma BitcoinRowExample()
    ensures var r := Render(CurrencyInfo("btc", "Bitcoin", "BTC", None), "");
      r.initial == "B" && Spell(r.title) == "Bitcoin" && r.trailing == Some("BTC")
  {
  }

  /** A fiat row such as "US Dollar" hides its symbol and arrow. */
  lemma FiatRowHidesSymbol()
    ensures Render(CurrencyInfo("usd", "US Dollar", "$", Some("USD")), "").trailing.None?
  {
  }

  /** "Ethereum" searched with "eth": the bold range is `[0, 3)`. */
  lemma EthereumHighlightExample()
    ensures BoldRange(Highlight("Ethereum", "eth")) == Some((0, 3))
  {
    var name, query := "Ethereum", "eth";
    assert Lower(name[0..3]) == Lower(query);
    assert MatchesIgnoringCaseAt(name, query, 0);
    var r := Highlight(name, query);
    assert |r[0].text| == 0;
    assert r[1..][0] == r[1];
  }

  /** "Cardano" searched with "zzz": nothing is bold. */
  lemma CardanoNoMatchExample()
    ensures BoldRange(Highlight("Cardano", "zzz")).None?
  {
    NoZInCardano();
    var r := Highlight("Cardano", "zzz");
    assert |r| == 1;
  }

  lemma NoZInCardano()
    ensures forall j :: !MatchesIgnoringCaseAt("Cardano", "zzz", j)
  {
    var name, query := "Cardano", "zzz";
    assert LowerChar(query[0]) == 'z';
    assert forall i | 0 <= i < |name| :: LowerChar(name[i]) != 'z';
    forall j
      ensures !MatchesIgnoringCaseAt(name, query, j)
    {
      FirstCharMatches(name, query, j);
    }
  }

  /** A case-insensitive match starts with the query's first letter. */
  lemma FirstCharMatches(s: string, q: string, j: int)
    requires q != []
    ensures MatchesIgnoringCaseAt(s, q, j) ==> 0 <= j < |s| && LowerChar(s[j]) == LowerChar(q[0])
  {
    if MatchesIgnoringCaseAt(s, q, j) {
      assert Lower(s[j..j + |q|])[0] == Lower(q)[0];
    }
  }
}
