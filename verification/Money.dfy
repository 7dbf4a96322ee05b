/** Values shared by every module: optional results and money in integer cents. */
module Options {
  datatype Option<+T> = None | Some(value: T) {
    function GetOr(default: T): T {
      match this
      case Some(v) => v
      case None => default
    }
  }
}

/** pkg/domain/money.go and the int64 arithmetic around it. */
module Money {
  import opened Options

  const MAX_INT64: int := 0x7FFF_FFFF_FFFF_FFFF
  const MIN_INT64: int := -MAX_INT64 - 1
  const TWO_TO_64: int := 0x1_0000_0000_0000_0000

  /** The largest amount NewMoney accepts, MaxInt64 / 100. There is no lower bound. */
  const MAX_CENTS: int := 92_233_720_368_547_758

  /** The codes ParseCurrency knows, and any other text. */
  datatype Currency = ARS | USD | EUR | BRL | UYU | CLP | Unknown(code: int)

  predicate IsInt64(x: int) {
    MIN_INT64 <= x <= MAX_INT64
  }

  /** The int64 that holds x after one addition or subtraction of two int64 values. */
  function Wrap(x: int): int {
    if x > MAX_INT64 then x - TWO_TO_64
    else if x < MIN_INT64 then x + TWO_TO_64
    else x
  }

  /** Two's complement: the result is an int64 and differs from the exact one by a multiple of 2^64. */
  lemma WrapIsTwosComplement(a: int, b: int)
    requires IsInt64(a) && IsInt64(b)
    ensures IsInt64(Wrap(a + b)) && (Wrap(a + b) - (a + b)) % 0x1_0000_0000_0000_0000 == 0
    ensures IsInt64(Wrap(a - b)) && (Wrap(a - b) - (a - b)) % 0x1_0000_0000_0000_0000 == 0
  {
  }

  datatype Money = Money(cents: int, currency: Currency)

  function NewMoney(cents: int, currency: Currency): Option<Money> {
    if currency.Unknown? then None
    else if cents == 0 then None
    else if cents > MAX_CENTS then None
    else Some(Money(cents, currency))
  }

  /** NewMoney refuses what a hundredfold would take out of an int64, zero, and unknown currencies. */
  lemma NewMoneyIff(cents: int, currency: Currency)
    ensures NewMoney(cents, currency).Some? <==>
            !currency.Unknown? && cents != 0 && (cents <= 0 || 100 * cents <= 0x7FFF_FFFF_FFFF_FFFF)
    ensures NewMoney(cents, currency).Some? ==> NewMoney(cents, currency).value == Money(cents, currency)
  {
  }

  /** The cents of `m, _ := NewMoney(cents, currency)`: a refused amount leaves the zero Money. */
  function CentsKept(cents: int, currency: Currency): int {
    match NewMoney(cents, currency)
    case Some(m) => m.cents
    case None => 0
  }
}
