/** The backend's currency service: two read-only catalogues (crypto and
    fiat), the partition query and the keyword search the Android app calls
    when nothing local matches. */
module CurrenciesService {
  import opened Domain
  import opened Text
  import opened Seqs
  import Repository

  /** A crypto entry: its symbol is its id and it has no code. */
  function CryptoEntry(id: string, name: string): (c: CurrencyInfo)
    ensures IsCrypto(c)
  {
    CurrencyInfo(id, name, id, None)
  }

  /** A fiat entry: its code is its id. */
  function FiatEntry(id: string, name: string, symbol: string): (c: CurrencyInfo)
    ensures IsFiat(c)
  {
    CurrencyInfo(id, name, symbol, Some(id))
  }

  const CryptoCurrencies: seq<CurrencyInfo> := [
    CryptoEntry("BTC", "Bitcoin"),
    CryptoEntry("ETH", "Ethereum"),
    CryptoEntry("XRP", "XRP"),
    CryptoEntry("BCH", "Bitcoin Cash"),
    CryptoEntry("LTC", "Litecoin"),
    CryptoEntry("EOS", "EOS"),
    CryptoEntry("BNB", "Binance Coin"),
    CryptoEntry("LINK", "Chainlink"),
    CryptoEntry("NEO", "NEO"),
    CryptoEntry("ETC", "Ethereum Classic"),
    CryptoEntry("ONT", "Ontology"),
    CryptoEntry("CRO", "Crypto.com Chain"),
    CryptoEntry("CUC", "Cucumber"),
    CryptoEntry("USDC", "USD Coin")
  ]

  const FiatCurrencies: seq<CurrencyInfo> := [
    FiatEntry("SGD", "Singapore Dollar", "$"),
    FiatEntry("EUR", "Euro", "\U{20AC}"),
    FiatEntry("GBP", "British Pound", "\U{A3}"),
    FiatEntry("HKD", "Hong Kong Dollar", "$"),
    FiatEntry("JPY", "Japanese Yen", "\U{A5}"),
    FiatEntry("AUD", "Australian Dollar", "$"),
    FiatEntry("USD", "United States Dollar", "$")
  ]

  /** Every currency the service knows, crypto first. */
  function Catalogue(): seq<CurrencyInfo> {
    CryptoCurrencies + FiatCurrencies
  }

  /** `findAll(type)`: the crypto list, the fiat list, or both, crypto first. */
  function FindAll(kind: Option<string>): seq<CurrencyInfo> {
    if kind == Some("crypto") then CryptoCurrencies
    else if kind == Some("fiat") then FiatCurrencies
    else CryptoCurrencies + FiatCurrencies
  }

  /** `findAll("crypto")` is exactly the code-less part of the catalogue (14
      entries), `findAll("fiat")` exactly the part with a code (7 entries), and
      any other filter gives the whole catalogue (21 entries). */
  lemma FindAllPartitions(kind: Option<string>)
    ensures FindAll(Some("crypto")) == Filter(IsCrypto, Catalogue()) && |FindAll(Some("crypto"))| == 14
    ensures FindAll(Some("fiat")) == Filter(IsFiat, Catalogue()) && |FindAll(Some("fiat"))| == 7
    ensures kind != Some("crypto") && kind != Some("fiat") ==> FindAll(kind) == Catalogue() && |FindAll(kind)| == 21
  {
    CatalogueKinds();
    SplitByKind(CryptoCurrencies, FiatCurrencies);
  }

  lemma SplitByKind(cryptos: seq<CurrencyInfo>, fiats: seq<CurrencyInfo>)
    requires forall i :: 0 <= i < |cryptos| ==> IsCrypto(cryptos[i]) && !IsFiat(cryptos[i])
    requires forall i :: 0 <= i < |fiats| ==> IsFiat(fiats[i]) && !IsCrypto(fiats[i])
    ensures Filter(IsCrypto, cryptos + fiats) == cryptos
    ensures Filter(IsFiat, cryptos + fiats) == fiats
  {
    FilterAppend(IsCrypto, cryptos, fiats);
    FilterAppend(IsFiat, cryptos, fiats);
    FilterKeepsAll(IsCrypto, cryptos);
    FilterKeepsNone(IsCrypto, fiats);
    FilterKeepsAll(IsFiat, fiats);
    FilterKeepsNone(IsFiat, cryptos);
  }

  lemma CatalogueKinds()
    ensures |CryptoCurrencies| == 14 && |FiatCurrencies| == 7
    ensures forall i :: 0 <= i < |CryptoCurrencies| ==> IsCrypto(CryptoCurrencies[i]) && !IsFiat(CryptoCurrencies[i])
    ensures forall i :: 0 <= i < |FiatCurrencies| ==> IsFiat(FiatCurrencies[i]) && !IsCrypto(FiatCurrencies[i])
  {
  }

  /** The search's three clauses on the lower-cased keyword `k` are the same
      as the app's local filter: the name starts with it, the name contains
      it after a space, or the symbol starts with it; names and symbols are
      lower-cased first. */
  predicate KeywordMatches(k: string, c: CurrencyInfo) {
    Repository.Matches(k, c)
  }

  function KeywordFilter(k: string): CurrencyInfo -> bool {
    c => KeywordMatches(k, c)
  }

  /** The search over a list: the entries matching the lower-cased keyword,
      in list order. There is no blank check. */
  function SearchIn(currencies: seq<CurrencyInfo>, keyword: string): seq<CurrencyInfo> {
    Filter(KeywordFilter(Lower(keyword)), currencies)
  }

  /** `search(keyword)` over crypto followed by fiat. */
  function Search(keyword: string): seq<CurrencyInfo> {
    SearchIn(CryptoCurrencies + FiatCurrencies, keyword)
  }

  /** The search keeps the catalogue order and keeps exactly the entries that
      match. */
  lemma SearchKeepsOrderAndMatches(keyword: string, c: CurrencyInfo)
    ensures IsSubsequence(Search(keyword), Catalogue())
    ensures c in Search(keyword) <==> c in Catalogue() && KeywordMatches(Lower(keyword), c)
  {
    FilterIsSubsequence(KeywordFilter(Lower(keyword)), Catalogue());
    FilterMembers(KeywordFilter(Lower(keyword)), Catalogue(), c);
  }

  /** Unlike the app's local filter, an empty keyword matches every entry,
      since every name starts with the empty string. */
  lemma EmptyKeywordMatchesAll(currencies: seq<CurrencyInfo>)
    ensures SearchIn(currencies, "") == currencies
  {
    assert Lower("") == "";
    forall i | 0 <= i < |currencies|
      ensures KeywordFilter("")(currencies[i])
    {
      assert Lower(currencies[i].name)[..0] == "";
    }
    FilterKeepsAll(KeywordFilter(""), currencies);
  }

  /** For any keyword that is not blank, the backend search keeps exactly
      what the app's local filter keeps from the same list, in the same order. */
  lemma SearchAgreesWithLocalFilter(currencies: seq<CurrencyInfo>, keyword: string)
    requires !IsBlank(keyword)
    ensures SearchIn(currencies, keyword) == Repository.FilterCurrencies(keyword, currencies)
  {
    var k := Lower(keyword);
    FilterCongruent(KeywordFilter(k), Repository.MatchesQuery(k), currencies);
  }

  // ---------------------------------------------------------------------
  // The search examples

  /** A keyword of two or more letters is rejected by an entry when the name
      and the symbol differ from it at some position (or are shorter), and no
      word of the name after a space starts with its first two letters. */
  lemma Rejects(k: string, c: CurrencyInfo, atName: nat, atSymbol: nat)
    requires |k| >= 2
    requires atName < |k| && (atName < |c.name| ==> LowerChar(c.name[atName]) != k[atName])
    requires atSymbol < |k| && (atSymbol < |c.symbol| ==> LowerChar(c.symbol[atSymbol]) != k[atSymbol])
    requires forall j :: 0 <= j && j + 2 < |c.name| && c.name[j] == ' ' ==>
      LowerChar(c.name[j + 1]) != k[0] || LowerChar(c.name[j + 2]) != k[1]
    ensures !KeywordMatches(k, c)
  {
    DiffersAt(c.name, k, atName);
    DiffersAt(c.symbol, k, atSymbol);
    NoWordStarts(c.name, k);
  }

  /** A string that differs from `k` at position `d` (or ends before it)
      does not start with `k` once lower-cased. */
  lemma DiffersAt(s: string, k: string, d: nat)
    requires d < |k| && (d < |s| ==> LowerChar(s[d]) != k[d])
    ensures !StartsWith(Lower(s), k)
  {
    if d < |s| && |k| <= |s| {
      assert Lower(s)[..|k|][d] == Lower(s)[d];
    }
  }

  /** No word after a space starts with the first two letters of `k`. */
  lemma NoWordStarts(s: string, k: string)
    requires |k| >= 2
    requires forall j :: 0 <= j && j + 2 < |s| && s[j] == ' ' ==>
      LowerChar(s[j + 1]) != k[0] || LowerChar(s[j + 2]) != k[1]
    ensures !Contains(Lower(s), " " + k)
  {
    var name, w := Lower(s), " " + k;
    forall i | 0 <= i <= |name| - |w|
      ensures !OccursAt(name, w, i)
    {
      var v := name[i..i + |w|];
      if s[i] != ' ' {
        assert v[0] != w[0];
      } else if LowerChar(s[i + 1]) != k[0] {
        assert v[1] != w[1];
      } else {
        assert v[2] != w[2];
      }
    }
  }

  /** The ids of a list of currencies. */
  function IdsOf(cs: seq<CurrencyInfo>): (r: seq<string>)
    ensures |r| == |cs|
  {
    seq(|cs|, i requires 0 <= i < |cs| => cs[i].id)
  }

  /** `search("bit")` finds Bitcoin and Bitcoin Cash, in that order: both names start with the keyword. */
  lemma SearchBitExample()
    ensures IdsOf(Search("bit")) == ["BTC", "BCH"]
  {
    assert Lower("bit") == "bit";
    var p := KeywordFilter("bit");
    BitRejectsCrypto0();
    BitRejectsCrypto7();
    BitRejectsFiat0();
    BitRejectsFiat4();
    assert p(CryptoCurrencies[0]) by { BitMatches0(); }
    assert p(CryptoCurrencies[3]) by { BitMatches3(); }
    FilterKeepsTwoOfFirst(p, CryptoCurrencies, FiatCurrencies, 0, 3);
  }

  lemma BitRejectsCrypto0()
    ensures forall m :: 0 <= m < 7 && m != 0 && m != 3 ==> !KeywordMatches("bit", CryptoCurrencies[m])
  {
    forall m | 0 <= m < 7 && m != 0 && m != 3
      ensures !KeywordMatches("bit", CryptoCurrencies[m])
    {
      if m == 6 {
        Rejects("bit", CryptoCurrencies[m], 2, 1);
      } else {
        Rejects("bit", CryptoCurrencies[m], 0, 0);
      }
    }
  }

  lemma BitRejectsCrypto7()
    ensures forall m :: 7 <= m < 14 ==> !KeywordMatches("bit", CryptoCurrencies[m])
  {
    forall m | 7 <= m < 14
      ensures !KeywordMatches("bit", CryptoCurrencies[m])
    {
      Rejects("bit", CryptoCurrencies[m], 0, 0);
    }
  }

  lemma BitRejectsFiat0()
    ensures forall m :: 0 <= m < 4 ==> !KeywordMatches("bit", FiatCurrencies[m])
  {
    forall m | 0 <= m < 4
      ensures !KeywordMatches("bit", FiatCurrencies[m])
    {
      if m == 2 {
        Rejects("bit", FiatCurrencies[m], 1, 0);
      } else {
        Rejects("bit", FiatCurrencies[m], 0, 0);
      }
    }
  }

  lemma BitRejectsFiat4()
    ensures forall m :: 4 <= m < 7 ==> !KeywordMatches("bit", FiatCurrencies[m])
  {
    forall m | 4 <= m < 7
      ensures !KeywordMatches("bit", FiatCurrencies[m])
    {
      Rejects("bit", FiatCurrencies[m], 0, 0);
    }
  }

  /** `search("cash")` finds Bitcoin Cash alone, through the second word of its name. */
  lemma SearchCashExample()
    ensures IdsOf(Search("cash")) == ["BCH"]
  {
    assert Lower("cash") == "cash";
    var p := KeywordFilter("cash");
    CashRejectsCrypto0();
    CashRejectsCrypto7();
    CashRejectsCrypto11();
    CashRejectsFiat0();
    CashRejectsFiat4();
    assert p(CryptoCurrencies[3]) by { CashMatches3(); }
    FilterKeepsOnlyOfFirst(p, CryptoCurrencies, FiatCurrencies, 3);
  }

  lemma CashRejectsCrypto0()
    ensures forall m :: 0 <= m < 7 && m != 3 ==> !KeywordMatches("cash", CryptoCurrencies[m])
  {
    forall m | 0 <= m < 7 && m != 3
      ensures !KeywordMatches("cash", CryptoCurrencies[m])
    {
      Rejects("cash", CryptoCurrencies[m], 0, 0);
    }
  }

  lemma CashRejectsCrypto7()
    ensures forall m :: 7 <= m < 11 ==> !KeywordMatches("cash", CryptoCurrencies[m])
  {
    forall m | 7 <= m < 11
      ensures !KeywordMatches("cash", CryptoCurrencies[m])
    {
      if m == 7 {
        Rejects("cash", CryptoCurrencies[m], 1, 0);
      } else {
        Rejects("cash", CryptoCurrencies[m], 0, 0);
      }
    }
  }

  lemma CashRejectsCrypto11()
    ensures forall m :: 11 <= m < 14 ==> !KeywordMatches("cash", CryptoCurrencies[m])
  {
    forall m | 11 <= m < 14
      ensures !KeywordMatches("cash", CryptoCurrencies[m])
    {
      if m == 13 {
        Rejects("cash", CryptoCurrencies[m], 0, 0);
      } else {
        Rejects("cash", CryptoCurrencies[m], 1, 1);
      }
    }
  }

  lemma CashRejectsFiat0()
    ensures forall m :: 0 <= m < 4 ==> !KeywordMatches("cash", FiatCurrencies[m])
  {
    forall m | 0 <= m < 4
      ensures !KeywordMatches("cash", FiatCurrencies[m])
    {
      Rejects("cash", FiatCurrencies[m], 0, 0);
    }
  }

  lemma CashRejectsFiat4()
    ensures forall m :: 4 <= m < 7 ==> !KeywordMatches("cash", FiatCurrencies[m])
  {
    forall m | 4 <= m < 7
      ensures !KeywordMatches("cash", FiatCurrencies[m])
    {
      Rejects("cash", FiatCurrencies[m], 0, 0);
    }
  }

  /** `search("usdc")` finds USD Coin alone, through its symbol. */
  lemma SearchUsdcExample()
    ensures IdsOf(Search("usdc")) == ["USDC"]
  {
    assert Lower("usdc") == "usdc";
    var p := KeywordFilter("usdc");
    UsdcRejectsCrypto0();
    UsdcRejectsCrypto7();
    UsdcRejectsFiat0();
    UsdcRejectsFiat4();
    assert p(CryptoCurrencies[13]) by { UsdcMatches13(); }
    FilterKeepsOnlyOfFirst(p, CryptoCurrencies, FiatCurrencies, 13);
  }

  lemma UsdcRejectsCrypto0()
    ensures forall m :: 0 <= m < 7 ==> !KeywordMatches("usdc", CryptoCurrencies[m])
  {
    forall m | 0 <= m < 7
      ensures !KeywordMatches("usdc", CryptoCurrencies[m])
    {
      Rejects("usdc", CryptoCurrencies[m], 0, 0);
    }
  }

  lemma UsdcRejectsCrypto7()
    ensures forall m :: 7 <= m < 14 && m != 13 ==> !KeywordMatches("usdc", CryptoCurrencies[m])
  {
    forall m | 7 <= m < 14 && m != 13
      ensures !KeywordMatches("usdc", CryptoCurrencies[m])
    {
      Rejects("usdc", CryptoCurrencies[m], 0, 0);
    }
  }

  lemma UsdcRejectsFiat0()
    ensures forall m :: 0 <= m < 4 ==> !KeywordMatches("usdc", FiatCurrencies[m])
  {
    forall m | 0 <= m < 4
      ensures !KeywordMatches("usdc", FiatCurrencies[m])
    {
      Rejects("usdc", FiatCurrencies[m], 0, 0);
    }
  }

  lemma UsdcRejectsFiat4()
    ensures forall m :: 4 <= m < 7 ==> !KeywordMatches("usdc", FiatCurrencies[m])
  {
    forall m | 4 <= m < 7
      ensures !KeywordMatches("usdc", FiatCurrencies[m])
    {
      if m == 6 {
        Rejects("usdc", FiatCurrencies[m], 1, 0);
      } else {
        Rejects("usdc", FiatCurrencies[m], 0, 0);
      }
    }
  }

  /** `search("zzz")` finds nothing. */
  lemma SearchZzzExample()
    ensures IdsOf(Search("zzz")) == []
  {
    assert Lower("zzz") == "zzz";
    var p := KeywordFilter("zzz");
    ZzzRejectsCrypto0();
    ZzzRejectsCrypto7();
    ZzzRejectsFiat0();
    ZzzRejectsFiat4();
    FilterKeepsNoneOfBoth(p, CryptoCurrencies, FiatCurrencies);
  }

  lemma ZzzRejectsCrypto0()
    ensures forall m :: 0 <= m < 7 ==> !KeywordMatches("zzz", CryptoCurrencies[m])
  {
    forall m | 0 <= m < 7
      ensures !KeywordMatches("zzz", CryptoCurrencies[m])
    {
      Rejects("zzz", CryptoCurrencies[m], 0, 0);
    }
  }

  lemma ZzzRejectsCrypto7()
    ensures forall m :: 7 <= m < 14 ==> !KeywordMatches("zzz", CryptoCurrencies[m])
  {
    forall m | 7 <= m < 14
      ensures !KeywordMatches("zzz", CryptoCurrencies[m])
    {
      Rejects("zzz", CryptoCurrencies[m], 0, 0);
    }
  }

  lemma ZzzRejectsFiat0()
    ensures forall m :: 0 <= m < 4 ==> !KeywordMatches("zzz", FiatCurrencies[m])
  {
    forall m | 0 <= m < 4
      ensures !KeywordMatches("zzz", FiatCurrencies[m])
    {
      Rejects("zzz", FiatCurrencies[m], 0, 0);
    }
  }

  lemma ZzzRejectsFiat4()
    ensures forall m :: 4 <= m < 7 ==> !KeywordMatches("zzz", FiatCurrencies[m])
  {
    forall m | 4 <= m < 7
      ensures !KeywordMatches("zzz", FiatCurrencies[m])
    {
      Rejects("zzz", FiatCurrencies[m], 0, 0);
    }
  }
  lemma BitMatches0()
    ensures KeywordMatches("bit", CryptoCurrencies[0])
  {
    assert Lower("Bitcoin")[..3] == "bit";
  }

  lemma BitMatches3()
    ensures KeywordMatches("bit", CryptoCurrencies[3])
  {
    assert Lower("Bitcoin Cash")[..3] == "bit";
  }

  lemma CashMatches3()
    ensures KeywordMatches("cash", CryptoCurrencies[3])
  {
    assert OccursAt(Lower("Bitcoin Cash"), " " + "cash", 7);
  }

  lemma UsdcMatches13()
    ensures KeywordMatches("usdc", CryptoCurrencies[13])
  {
    assert Lower("USDC")[..4] == "usdc";
  }
}
