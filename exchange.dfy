/**
 * Currency exchange: an exchange rate and the conversion of a Rubbles amount
 * into dollars. The conversion is done here in exact rational arithmetic.
 */
module Exchange {
  import opened Rational
  import opened RubblesMoney
  import opened MoneyCore

  /** An exchange rate, fixed at construction; its sub-units are not range-checked. */
  datatype Rate = Rate(units: int, nanos: int)

  /** The converted amount, a plain (units, nanos) pair. */
  datatype Dollars = Dollars(units: int, nanos: int)

  /**
   * `dollars()`: the units are the quotient source / rate truncated toward
   * zero; the sub-units are the remainder times 100 divided by the rate and
   * rounded half away from zero, with no carry back into the units.
   */
  function Convert(source: Rubbles, rate: Rate): (d: Dollars)
    requires InHundredths(rate.units, rate.nanos) != 0
    ensures var s, r := InHundredths(source.units, source.nanos), InHundredths(rate.units, rate.nanos);
            && Abs(d.units * r) <= Abs(s) && Abs(s - d.units * r) < Abs(r)
            && (s - d.units * r == 0 || (s - d.units * r > 0 <==> s > 0))
            && IsRoundHalfAway(NanosInUnit * (s - d.units * r), r, d.nanos)
  {
    var s := InHundredths(source.units, source.nanos);
    var r := InHundredths(rate.units, rate.nanos);
    var units := TruncDiv(s, r);
    Dollars(units, RoundHalfAway(NanosInUnit * (s - units * r), r))
  }

  /** The result is within half a hundredth of the exact quotient source / rate. */
  lemma ConvertApproximates(source: Rubbles, rate: Rate)
    requires InHundredths(rate.units, rate.nanos) != 0
    ensures var s, r, d := InHundredths(source.units, source.nanos), InHundredths(rate.units, rate.nanos), Convert(source, rate);
            2 * Abs(NanosInUnit * s - InHundredths(d.units, d.nanos) * r) <= Abs(r)
  {
    var s, r, d := InHundredths(source.units, source.nanos), InHundredths(rate.units, rate.nanos), Convert(source, rate);
    Distribute(d.units, d.nanos, r);
  }

  lemma Distribute(u: int, n: int, r: int)
    ensures InHundredths(u, n) * r == NanosInUnit * (u * r) + n * r
  {
  }

  /** For a non-negative amount and a positive rate the result's sub-units lie in 0..100. */
  lemma ConvertNanosRange(source: Rubbles, rate: Rate)
    requires InHundredths(source.units, source.nanos) >= 0 && InHundredths(rate.units, rate.nanos) > 0
    ensures 0 <= Convert(source, rate).nanos <= 100
  {
    var s, r, d := InHundredths(source.units, source.nanos), InHundredths(rate.units, rate.nanos), Convert(source, rate);
    var rem := s - d.units * r;
    assert 0 <= rem < r;
    NanosBounds(NanosInUnit * rem, r, d.nanos);
  }

  lemma NanosBounds(x: int, r: int, q: int)
    requires 0 <= x <= NanosInUnit * r - NanosInUnit && r > 0 && IsRoundHalfAway(x, r, q)
    ensures 0 <= q <= 100
  {
    if q < 0 {
      MulMonotone(q, -1, r);
    } else if q > 100 {
      MulMonotone(101, q, r);
    }
  }

  /** No carry: 5.99 at a rate of 3.00 gives 1 unit and 100 sub-units. */
  lemma ConvertWithoutCarry()
    ensures Convert(Rubbles(5, 99), Rate(3, 0)) == Dollars(1, 100)
  {
  }

  /** A rate's out-of-range sub-units count as hundredths: 1.150 acts as 2.50. */
  lemma RateNanosFolded(source: Rubbles)
    ensures Convert(source, Rate(1, 150)) == Convert(source, Rate(2, 50))
  {
  }

  /** The four conversions at 82.70 roubles to the dollar that the unit test checks. */
  lemma ConvertTestCases()
    ensures Convert(Rubbles(100, 0), Rate(82, 70)) == Dollars(1, 21)
    ensures Convert(Rubbles(1000, 0), Rate(82, 70)) == Dollars(12, 9)
    ensures Convert(Rubbles(1200000, 0), Rate(82, 70)) == Dollars(14510, 28)
    ensures Convert(Rubbles(1200500, 0), Rate(82, 70)) == Dollars(14516, 32)
  {
    RoundHalfAwayUnique(173000, 8270, 21);
    RoundHalfAwayUnique(76000, 8270, 9);
    RoundHalfAwayUnique(230000, 8270, 28);
    RoundHalfAwayUnique(268000, 8270, 32);
  }

  /** The documented rate 100.50 has units 100 and sub-units 50. */
  lemma RateDocumentedExample()
    ensures Rate(100, 50).units == 100 && Rate(100, 50).nanos == 50
    ensures InHundredths(Rate(100, 50).units, Rate(100, 50).nanos) == 10050
  {
  }
}
