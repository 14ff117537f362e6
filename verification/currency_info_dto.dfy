/** The record the remote endpoints return, and its mapping to the domain. */
module Dtos {
  import opened Domain
  import Entities

  datatype CurrencyInfoDto = CurrencyInfoDto(id: string, name: string, symbol: string, code: Option<string>)

  function ToDomain(d: CurrencyInfoDto): CurrencyInfo {
    CurrencyInfo(d.id, d.name, d.symbol, d.code)
  }

  /** A record decoded without a `code` field gets the default `null`, so it
      becomes a crypto currency with its other fields as sent. */
  function WithoutCode(id: string, name: string, symbol: string): (d: CurrencyInfoDto)
    ensures IsCrypto(ToDomain(d))
    ensures ToDomain(d).id == id && ToDomain(d).name == name && ToDomain(d).symbol == symbol
  {
    CurrencyInfoDto(id, name, symbol, None)
  }

  /** `toDomain` copies all four fields, so a record without a code becomes a
      crypto currency, and distinct records stay distinct. */
  lemma ToDomainCopiesFields(d: CurrencyInfoDto, d': CurrencyInfoDto)
    ensures var c := ToDomain(d);
      c.id == d.id && c.name == d.name && c.symbol == d.symbol && c.code == d.code
    ensures d.code == None ==> IsCrypto(ToDomain(d))
    ensures ToDomain(d) == ToDomain(d') ==> d == d'
  {
  }

  /** The write path of a network save, `dto.toDomain().toEntity()`, keeps
      every field. */
  lemma SavePathKeepsFields(d: CurrencyInfoDto)
    ensures Entities.ToEntity(ToDomain(d)) == Entities.CurrencyInfoEntity(d.id, d.name, d.symbol, d.code)
  {
  }

  /** `item.map { it.toDomain() }` */
  function ToDomainAll(ds: seq<CurrencyInfoDto>): (r: seq<CurrencyInfo>)
    ensures |r| == |ds|
    ensures forall i :: 0 <= i < |ds| ==> r[i] == ToDomain(ds[i])
  {
    seq(|ds|, i requires 0 <= i < |ds| => ToDomain(ds[i]))
  }
}
