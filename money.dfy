/**
 * The money value: an amount in one currency, kept as whole `units` and a
 * sub-unit count `nanos` in hundredths. The value is built from any two
 * integers; the range 0..99 of `nanos` is checked only when `nanos` is read.
 * The arithmetic changes the receiver in place and reports success as a `bool`.
 */
module MoneyCore {
  import opened Wrappers
  import opened Currencies
  import opened Rational
  import Rub
  import Usd

  /** The sub-units in one unit. */
  const NanosInUnit: int := 100

  /**
   * An amount in hundredths, units + nanos / 100 scaled by 100: the number
   * the pair (units, nanos) stands for. Out-of-range sub-units are folded in as they are.
   */
  function InHundredths(units: int, nanos: int): int {
    NanosInUnit * units + nanos
  }

  /** The two ways reading `nanos` fails. */
  datatype NanosError = Negative | TooLarge {
    function Message(): string {
      match this
      case Negative => "Nanos cannot be negative."
      case TooLarge => "Nanos cannot be greater than 99."
    }
  }

  predicate ValidNanos(n: int) {
    0 <= n <= 99
  }

  /** The validating read of the sub-unit count. */
  function ValidateNanos(n: int): (r: Result<int, NanosError>)
    ensures r.Success? <==> ValidNanos(n)
    ensures r.Success? ==> r.value == n
    ensures n < 0 ==> r == Failure(Negative)
    ensures n > 99 ==> r == Failure(TooLarge)
  {
    if n < 0 then Failure(Negative)
    else if n > 99 then Failure(TooLarge)
    else Success(n)
  }

  /** A snapshot of a money value. */
  datatype Amount = Amount(currency: Currency, units: int, nanos: int)


  /**
   * `equals`: the currency codes first, then the units, and only then the two
   * validated sub-unit counts, this side's before the other's.
   */
  function Equality(a: Amount, b: Amount): (r: Result<bool, NanosError>)
    ensures r == Success(true) <==> a == b && ValidNanos(a.nanos)
    ensures a.currency != b.currency ==> r == Success(false)
    ensures ValidNanos(a.nanos) && ValidNanos(b.nanos) ==> r.Success?
    ensures r.Failure? <==> a.currency == b.currency && a.units == b.units
                            && !(ValidNanos(a.nanos) && ValidNanos(b.nanos))
  {
    CodeInjective(a.currency, b.currency);
    if a.currency.Code() != b.currency.Code() then Success(false)
    else if a.units != b.units then Success(false)
    else match ValidateNanos(a.nanos)
      case Failure(e) => Failure(e)
      case Success(n) =>
        match ValidateNanos(b.nanos)
        case Failure(e) => Failure(e)
        case Success(m) => Success(n == m)
  }

  /** Adds b to a: the sub-unit sum carries whole hundreds into the units. */
  function Sum(a: Amount, b: Amount): (r: Option<Amount>)
    ensures r.Some? <==> a.currency == b.currency
    ensures r.Some? ==> r.value.currency == a.currency
    ensures r.Some? ==> InHundredths(r.value.units, r.value.nanos) == InHundredths(a.units, a.nanos) + InHundredths(b.units, b.nanos)
    ensures r.Some? && ValidNanos(a.nanos) && ValidNanos(b.nanos) ==> ValidNanos(r.value.nanos)
    ensures r.Some? && a.nanos + b.nanos <= 99 ==> r.value.nanos == a.nanos + b.nanos
  {
    if a.currency != b.currency then None
    else
      var sum := a.nanos + b.nanos;
      if sum > 99 then
        var carry := sum / NanosInUnit;
        Some(Amount(a.currency, a.units + b.units + carry, sum - NanosInUnit * carry))
      else
        Some(Amount(a.currency, a.units + b.units, sum))
  }

  /** Subtracts b from a with at most one borrow from the units. */
  function Difference(a: Amount, b: Amount): (r: Option<Amount>)
    ensures r.Some? <==> a.currency == b.currency
    ensures r.Some? ==> r.value.currency == a.currency
    ensures r.Some? ==> InHundredths(r.value.units, r.value.nanos) == InHundredths(a.units, a.nanos) - InHundredths(b.units, b.nanos)
    ensures r.Some? && ValidNanos(a.nanos) && ValidNanos(b.nanos) ==> ValidNanos(r.value.nanos)
    ensures r.Some? && a.nanos >= b.nanos ==> r.value.nanos == a.nanos - b.nanos
  {
    if a.currency != b.currency then None
    else
      var diff := a.nanos - b.nanos;
      if diff < 0 then Some(Amount(a.currency, a.units - b.units - 1, diff + NanosInUnit))
      else Some(Amount(a.currency, a.units - b.units, diff))
  }

  /** Scales both parts by an integer factor, carrying surplus hundreds. */
  function Product(a: Amount, factor: int): (r: Amount)
    ensures r.currency == a.currency && InHundredths(r.units, r.nanos) == InHundredths(a.units, a.nanos) * factor
    ensures ValidNanos(a.nanos) && factor >= 0 ==> ValidNanos(r.nanos)
    ensures a.nanos * factor <= 99 ==> r.nanos == a.nanos * factor
  {
    var raw := a.nanos * factor;
    if raw > 99 then
      var carry := raw / NanosInUnit;
      assert InHundredths(a.units, a.nanos) * factor == NanosInUnit * (a.units * factor) + raw;
      Amount(a.currency, a.units * factor + carry, raw - NanosInUnit * carry)
    else
      Amount(a.currency, a.units * factor, raw)
  }

  /**
   * Divides the units and the sub-units separately, each rounded half away
   * from zero; there is no borrow between the two parts.
   */
  function Quotient(a: Amount, divisor: int): (r: Option<Amount>)
    ensures r.None? <==> divisor == 0
    ensures r.Some? ==> r.value.currency == a.currency
    ensures r.Some? ==> IsRoundHalfAway(a.units, divisor, r.value.units)
    ensures r.Some? ==> IsRoundHalfAway(a.nanos, divisor, r.value.nanos)
    ensures r.Some? && ValidNanos(a.nanos) && divisor > 0 ==> ValidNanos(r.value.nanos)
  {
    if divisor == 0 then None
    else
      var q := Some(Amount(a.currency, RoundHalfAway(a.units, divisor), RoundHalfAway(a.nanos, divisor)));
      if divisor > 0 && ValidNanos(a.nanos) then RoundHalfAwayInRange(a.nanos, divisor); q else q
  }

  /**
   * `__toString`, chosen by the value's currency: the RUB display ends with the
   * rouble symbol and, for in-range sub-units, reads back as the value; the
   * USD display starts with the dollar symbol and the units.
   */
  function Format(a: Amount): (s: string)
    ensures a.currency == RUB ==> |s| >= |Rub.Suffix| && s[|s| - |Rub.Suffix|..] == Rub.Suffix
    ensures a.currency == RUB && ValidNanos(a.nanos) ==> Rub.Parse(s) == Some((a.units, a.nanos))
    ensures a.currency == USD ==> |s| > |Usd.Head(a.units)| && s[..|Usd.Head(a.units)|] == Usd.Head(a.units)
  {
    match a.currency
    case RUB =>
      if ValidNanos(a.nanos) then Rub.ToStringRoundTrip(a.units, a.nanos); Rub.ToString(a.units, a.nanos)
      else Rub.ToString(a.units, a.nanos)
    case USD => Usd.ToString(a.units, a.nanos)
  }

  /** A money value whose arithmetic updates it in place. */
  class Money {
    const currency: Currency
    var units: int
    var nanos: int

    /** Construction accepts any pair; nothing is validated here. */
    constructor (currency: Currency, units: int, nanos: int)
      ensures this.currency == currency && this.units == units && this.nanos == nanos
    {
      this.currency := currency;
      this.units := units;
      this.nanos := nanos;
    }

    function Value(): Amount
      reads this
    {
      Amount(currency, units, nanos)
    }

    /** `units()`: the stored whole units, never validated. */
    function Units(): (u: int)
      reads this
      ensures u == Value().units
    {
      units
    }

    /** `nanos()`: the stored sub-units when they are in 0..99, otherwise the range error. */
    function Nanos(): (r: Result<int, NanosError>)
      reads this
      ensures r.Success? <==> ValidNanos(nanos)
      ensures r.Success? ==> r.value == nanos
      ensures nanos < 0 ==> r.error.Message() == "Nanos cannot be negative."
      ensures nanos > 99 ==> r.error.Message() == "Nanos cannot be greater than 99."
    {
      ValidateNanos(nanos)
    }

    /** Each currency's own `__toString`. */
    function ToString(): (s: string)
      reads this
      ensures currency == RUB ==> s == Rub.ToString(units, nanos)
      ensures currency == USD ==> s == Usd.ToString(units, nanos)
    {
      Format(Value())
    }

    /**
     * `equals`: true exactly for the same currency, units and in-range
     * sub-units; another currency is never equal; an out-of-range sub-unit
     * count of otherwise equal values is reported as the read error.
     */
    function Equals(other: Money): (r: Result<bool, NanosError>)
      reads this, other
      ensures r == Success(true) <==> currency == other.currency && units == other.units
                                      && nanos == other.nanos && ValidNanos(nanos)
      ensures currency != other.currency ==> r == Success(false)
      ensures r.Failure? <==> currency == other.currency && units == other.units
                              && !(ValidNanos(nanos) && ValidNanos(other.nanos))
    {
      Equality(Value(), other.Value())
    }

    method Add(other: Money) returns (ok: bool)
      modifies this
      ensures ok <==> currency == other.currency
      ensures if ok then Sum(old(Value()), old(other.Value())) == Some(Value())
              else units == old(units) && nanos == old(nanos)
    {
      if currency != other.currency {
        return false;
      }
      var otherUnits, otherNanos := other.units, other.nanos;
      var sum := nanos + otherNanos;
      units := units + otherUnits;
      if sum > 99 {
        var carry := sum / NanosInUnit;
        units := units + carry;
        nanos := sum - NanosInUnit * carry;
      } else {
        nanos := sum;
      }
      return true;
    }

    method Subtract(other: Money) returns (ok: bool)
      modifies this
      ensures ok <==> currency == other.currency
      ensures if ok then Difference(old(Value()), old(other.Value())) == Some(Value())
              else units == old(units) && nanos == old(nanos)
    {
      if currency != other.currency {
        return false;
      }
      var otherUnits, otherNanos := other.units, other.nanos;
      units := units - otherUnits;
      nanos := nanos - otherNanos;
      if nanos < 0 {
        units := units - 1;
        nanos := nanos + NanosInUnit;
      }
      return true;
    }

    method Multiply(factor: int) returns (ok: bool)
      modifies this
      ensures ok && Value() == Product(old(Value()), factor)
    {
      units := units * factor;
      var raw := nanos * factor;
      if raw > 99 {
        var carry := raw / NanosInUnit;
        units := units + carry;
        nanos := raw - NanosInUnit * carry;
      } else {
        nanos := raw;
      }
      return true;
    }

    method Divide(divisor: int) returns (ok: bool)
      modifies this
      ensures ok <==> divisor != 0
      ensures if ok then Quotient(old(Value()), divisor) == Some(Value())
              else units == old(units) && nanos == old(nanos)
    {
      if divisor == 0 {
        return false;
      }
      units := RoundHalfAway(units, divisor);
      nanos := RoundHalfAway(nanos, divisor);
      return true;
    }
  }

  /** `equals` is reflexive on values whose sub-units are in range. */
  lemma EqualityReflexive(a: Amount)
    requires ValidNanos(a.nanos)
    ensures Equality(a, a) == Success(true)
  {
  }

  /** `equals` gives the same answer both ways round, whenever it gives one. */
  lemma EqualitySymmetric(a: Amount, b: Amount)
    ensures Equality(a, b).Success? <==> Equality(b, a).Success?
    ensures Equality(a, b).Success? ==> Equality(a, b) == Equality(b, a)
  {
  }

  /** For in-range values, a sum carries at most one unit. */
  lemma SumCarriesAtMostOne(a: Amount, b: Amount)
    requires a.currency == b.currency && ValidNanos(a.nanos) && ValidNanos(b.nanos)
    ensures Sum(a, b).value.units - a.units - b.units in {0, 1}
  {
  }

  /** Subtracting what was added gives back the original value. */
  lemma SumThenDifference(a: Amount, b: Amount)
    requires a.currency == b.currency && ValidNanos(a.nanos) && ValidNanos(b.nanos)
    ensures Difference(Sum(a, b).value, b) == Some(a)
  {
  }

  /** Two in-range values of one currency with the same total in hundredths are equal. */
  lemma HundredthsDetermineValid(a: Amount, b: Amount)
    requires a.currency == b.currency && ValidNanos(a.nanos) && ValidNanos(b.nanos)
    requires InHundredths(a.units, a.nanos) == InHundredths(b.units, b.nanos)
    ensures a == b
  {
  }

  /** Division is exact only when the divisor divides both parts. */
  lemma QuotientExact(a: Amount, divisor: int, u: int, n: int)
    requires divisor != 0 && a.units == u * divisor && a.nanos == n * divisor
    ensures Quotient(a, divisor) == Some(Amount(a.currency, u, n))
  {
    RoundHalfAwayExact(a.units, divisor, u);
    RoundHalfAwayExact(a.nanos, divisor, n);
  }

  /**
   * The parts are divided separately: 20.30 divided by 3 gives 7.10, whereas
   * the amount 2030 hundredths divided by 3 is about 676.67 hundredths.
   */
  lemma QuotientIsPartwise(c: Currency)
    ensures Quotient(Amount(c, 20, 30), 3) == Some(Amount(c, 7, 10))
    ensures RoundHalfAway(InHundredths(20, 30), 3) == 677
  {
  }

  /** A negative factor leaves the sub-units negative, so a later read fails. */
  lemma ProductByNegativeUnreadable(c: Currency)
    ensures Product(Amount(c, 1, 50), -1) == Amount(c, -1, -50)
    ensures ValidateNanos(Product(Amount(c, 1, 50), -1).nanos) == Failure(Negative)
  {
  }
}
