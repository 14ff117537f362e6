/** The row type of the local `currencies` table and its mappings to and from
    the domain value. */
module Entities {
  import opened Domain

  /** One row; `id` is the primary key. */
  datatype CurrencyInfoEntity = CurrencyInfoEntity(id: string, name: string, symbol: string, code: Option<string>)

  function ToDomain(e: CurrencyInfoEntity): CurrencyInfo {
    CurrencyInfo(e.id, e.name, e.symbol, e.code)
  }

  function ToEntity(c: CurrencyInfo): CurrencyInfoEntity {
    CurrencyInfoEntity(c.id, c.name, c.symbol, c.code)
  }

  /** Storing a currency and reading it back gives the same currency. */
  lemma EntityRoundTrip(c: CurrencyInfo)
    ensures ToDomain(ToEntity(c)) == c
  {
  }

  /** Reading a row and storing it back gives the same row. */
  lemma DomainRoundTrip(e: CurrencyInfoEntity)
    ensures ToEntity(ToDomain(e)) == e
  {
  }

  /** Both mappings keep the primary key and the fiat/crypto classification. */
  lemma MappingsKeepIdAndKind(c: CurrencyInfo, e: CurrencyInfoEntity)
    ensures ToEntity(c).id == c.id && (ToEntity(c).code.None? <==> IsCrypto(c))
    ensures ToDomain(e).id == e.id && (IsCrypto(ToDomain(e)) <==> e.code.None?)
  {
  }

  /** `entities.map { it.toDomain() }` */
  function ToDomainAll(es: seq<CurrencyInfoEntity>): (r: seq<CurrencyInfo>)
    ensures |r| == |es|
    ensures forall i :: 0 <= i < |es| ==> r[i] == ToDomain(es[i])
  {
    seq(|es|, i requires 0 <= i < |es| => ToDomain(es[i]))
  }

  /** `currencies.map { it.toEntity() }` */
  function ToEntityAll(cs: seq<CurrencyInfo>): (r: seq<CurrencyInfoEntity>)
    ensures |r| == |cs|
    ensures forall i :: 0 <= i < |cs| ==> r[i] == ToEntity(cs[i])
  {
    seq(|cs|, i requires 0 <= i < |cs| => ToEntity(cs[i]))
  }

  /** Distinct ids stay distinct across a batch mapping, in both directions. */
  lemma {:induction false} MappingKeepsIdsUnique(cs: seq<CurrencyInfo>)
    ensures (forall i, j :: 0 <= i < j < |cs| ==> cs[i].id != cs[j].id)
        <==> (forall i, j :: 0 <= i < j < |cs| ==> ToEntityAll(cs)[i].id != ToEntityAll(cs)[j].id)
    ensures ToDomainAll(ToEntityAll(cs)) == cs
  {
    var es := ToEntityAll(cs);
    assert forall i :: 0 <= i < |cs| ==> es[i].id == cs[i].id;
    assert forall i :: 0 <= i < |cs| ==> ToDomainAll(es)[i] == cs[i];
  }
}
