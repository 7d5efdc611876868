/** The RUB money value: its currency and its display string "<units>.<nanos> руб.". */
module Rub {
  import opened Wrappers
  import opened Decimal
  import opened Currencies

  /** `currency()`: always the RUB identity. */
  function CurrencyOf(): (c: Currency)
    ensures c.Code() == "RUB" && c.Symbol() == "руб."
  {
    RUB
  }

  const Suffix: string := " " + RUB.Symbol()

  /**
   * `__toString`: the units, a dot, the sub-units padded to two digits, a
   * space and the symbol. The raw sub-unit field is printed unvalidated.
   */
  function ToString(units: int, nanos: int): (s: string)
    ensures |s| > |IntToString(units)| + |Suffix|
    ensures s[..|IntToString(units)| + 1] == IntToString(units) + "."
    ensures |s| >= |Suffix| && s[|s| - |Suffix|..] == Suffix
    ensures 0 <= nanos <= 99 ==> |s| == |IntToString(units)| + 3 + |Suffix|
  {
    var s := IntToString(units) + "." + ZeroPadded(nanos) + Suffix;
    assert s[..|IntToString(units)| + 1] == IntToString(units) + ".";
    assert s[|s| - |Suffix|..] == Suffix;
    if 0 <= nanos <= 99 then ZeroPaddedTwoDigits(nanos); s else s
  }

  /** Reads a RUB display string back into (units, nanos). */
  function Parse(s: string): (r: Option<(int, int)>)
    ensures r.Some? ==> 0 <= r.value.1 <= 99
  {
    if |s| < |Suffix| || s[|s| - |Suffix|..] != Suffix then None
    else ParseTwoPlaces(s[..|s| - |Suffix|])
  }

  /** Every in-range value is recovered from its display string. */
  lemma ToStringRoundTrip(units: int, nanos: int)
    requires 0 <= nanos <= 99
    ensures Parse(ToString(units, nanos)) == Some((units, nanos))
  {
    var s := ToString(units, nanos);
    assert s[..|s| - |Suffix|] == IntToString(units) + "." + ZeroPadded(nanos);
    TwoPlacesRoundTrip(units, nanos);
  }

  /** So two in-range values never display alike. */
  lemma ToStringInjective(u1: int, n1: int, u2: int, n2: int)
    requires 0 <= n1 <= 99 && 0 <= n2 <= 99
    requires ToString(u1, n1) == ToString(u2, n2)
    ensures u1 == u2 && n1 == n2
  {
    ToStringRoundTrip(u1, n1);
    ToStringRoundTrip(u2, n2);
  }

  /** The padding switches off exactly at ten: 9 prints "09", 10 prints "10". */
  lemma FractionThreshold(units: int)
    ensures ToString(units, 9) == IntToString(units) + ".09 руб."
    ensures ToString(units, 10) == IntToString(units) + ".10 руб."
  {
  }

  /** The examples: 100.00 from the unit test and 100.50 from the documentation. */
  lemma ToStringExamples()
    ensures ToString(100, 0) == "100.00 руб."
    ensures ToString(100, 50) == "100.50 руб."
  {
  }

  /** Out-of-range sub-units are printed as they are: -1 renders as "0-1". */
  lemma NegativeNanosRendered(units: int)
    ensures ToString(units, -1) == IntToString(units) + ".0-1 руб."
  {
  }
}
