/** The domain values shared by every layer: a currency, the partition a list
    screen asks for, the three-state `Resource` outcome, and failures. */
module Domain {

  datatype Option<T> = None | Some(value: T) {
    /** Kotlin's `?:` on a nullable value. */
    function GetOr(default: T): T {
      match this
      case Some(v) => v
      case None => default
    }
  }

  /** A currency; `code` present means fiat, absent means crypto. */
  datatype CurrencyInfo = CurrencyInfo(id: string, name: string, symbol: string, code: Option<string>)

  predicate IsCrypto(c: CurrencyInfo) {
    c.code.None?
  }

  predicate IsFiat(c: CurrencyInfo) {
    c.code.Some?
  }

  /** The partition a list is scoped to, with the filter value sent to the
      remote list endpoint. */
  datatype CurrencyType = All | Crypto | Fiat {
    function Value(): Option<string> {
      match this
      case All => None
      case Crypto => Some("crypto")
      case Fiat => Some("fiat")
    }
  }

  /** Outcome of a data operation. Success always carries data; Loading and
      Error may carry the last known data. */
  datatype Resource<T> =
    | Loading(partial: Option<T>)
    | Success(value: T)
    | Error(message: string, partial: Option<T>)
  {
    /** The nullable `data` accessor every consumer reads. */
    function Data(): Option<T> {
      match this
      case Loading(p) => p
      case Success(v) => Some(v)
      case Error(_, p) => p
    }

    /** The nullable `message` accessor every consumer reads. */
    function Message(): Option<string> {
      match this
      case Error(m, _) => Some(m)
      case _ => None
    }
  }

  /** A caught exception; only its (nullable) message is observable. */
  datatype Throwable = Throwable(message: Option<string>)

  /** What a suspending call to a collaborator did: returned a value or threw. */
  datatype Outcome<T> = Returned(value: T) | Threw(failure: Throwable)
}
