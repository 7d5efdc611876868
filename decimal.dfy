/**
 * Decimal rendering of integers, as PHP's `%d` conversion and its string
 * interpolation of an `int` produce it, together with the parser that inverts it.
 */
module Decimal {
  import opened Wrappers

  predicate IsDigit(c: char) {
    '0' <= c <= '9'
  }

  predicate AllDigits(s: string) {
    forall i :: 0 <= i < |s| ==> IsDigit(s[i])
  }

  function DigitChar(d: int): (c: char)
    requires 0 <= d <= 9
    ensures IsDigit(c) && c as int - '0' as int == d
  {
    ('0' as int + d) as char
  }

  function DigitOf(c: char): (d: nat)
    requires IsDigit(c)
    ensures d <= 9 && DigitChar(d) == c
  {
    c as int - '0' as int
  }

  /** The decimal digits of n, most significant first, without leading zeros. */
  function NatToString(n: nat): (s: string)
    ensures |s| >= 1 && AllDigits(s)
    ensures n <= 9 <==> |s| == 1
    ensures 10 <= n <= 99 <==> |s| == 2
    decreases n
  {
    if n <= 9 then [DigitChar(n)] else NatToString(n / 10) + [DigitChar(n % 10)]
  }

  /** `%d`: a minus sign for negative values, then the digits of the magnitude. */
  function IntToString(i: int): (s: string)
    ensures |s| >= 1 && '.' !in s && ' ' !in s
    ensures i >= 0 ==> AllDigits(s)
    ensures i < 0 ==> s[0] == '-' && AllDigits(s[1..])
  {
    if i < 0 then "-" + NatToString(-i) else NatToString(i)
  }

  /** The number a string of decimal digits denotes, read left to right. */
  function DigitsValue(s: string): nat
    requires AllDigits(s)
  {
    if s == [] then 0 else 10 * DigitsValue(s[..|s| - 1]) + DigitOf(s[|s| - 1])
  }

  /** Reads an optional minus sign followed by at least one digit. */
  function ParseInt(s: string): (r: Option<int>)
    ensures r.Some? <==> (|s| >= 1 && AllDigits(s)) || (|s| >= 2 && s[0] == '-' && AllDigits(s[1..]))
  {
    if |s| >= 2 && s[0] == '-' && AllDigits(s[1..]) then Some(0 - DigitsValue(s[1..]))
    else if |s| >= 1 && AllDigits(s) then Some(DigitsValue(s))
    else None
  }

  lemma {:induction false} NatToStringValue(n: nat)
    ensures DigitsValue(NatToString(n)) == n
    decreases n
  {
    var s := NatToString(n);
    if n <= 9 {
      assert s[..0] == [];
    } else {
      NatToStringValue(n / 10);
      assert s[..|s| - 1] == NatToString(n / 10);
    }
  }

  /** Parsing undoes `%d` for every integer. */
  lemma IntToStringRoundTrip(i: int)
    ensures ParseInt(IntToString(i)) == Some(i)
  {
    var s := IntToString(i);
    if i < 0 {
      var digits := NatToString(-i);
      assert s == "-" + digits;
      assert s[1..] == digits;
      NatToStringValue(-i);
      assert ParseInt(s) == Some(0 - DigitsValue(digits));
    } else {
      NatToStringValue(i);
      assert s[0] != '-';
    }
  }

  /** `%d` never renders two different integers alike. */
  lemma IntToStringInjective(i: int, j: int)
    requires IntToString(i) == IntToString(j)
    ensures i == j
  {
    IntToStringRoundTrip(i);
    IntToStringRoundTrip(j);
  }

  /** A string of exactly two digits denotes a value in 0..99. */
  lemma TwoDigitsValue(s: string)
    requires |s| == 2 && AllDigits(s)
    ensures DigitsValue(s) == 10 * DigitOf(s[0]) + DigitOf(s[1])
  {
    assert s[..1][..0] == [];
    assert DigitsValue(s[..1]) == DigitOf(s[0]);
  }

  /**
   * PHP's `$n > 9 ? $n : '0' . $n`: the digits of n, with one '0' written in
   * front when n is at most 9. For 0..99 this is exactly two digits.
   */
  function ZeroPadded(n: int): string {
    if n > 9 then IntToString(n) else "0" + IntToString(n)
  }

  /** In the range 0..99 the padding always yields two digits denoting n. */
  lemma ZeroPaddedTwoDigits(n: int)
    requires 0 <= n <= 99
    ensures |ZeroPadded(n)| == 2 && AllDigits(ZeroPadded(n)) && DigitsValue(ZeroPadded(n)) == n
  {
    var s := ZeroPadded(n);
    if n > 9 {
      NatToStringValue(n);
    } else {
      assert s == [s[0], s[1]] && s[0] == '0' && s[1] == DigitChar(n);
      TwoDigitsValue(s);
    }
  }

  /** Reads "<integer>.<two digits>" back into its two numbers. */
  function ParseTwoPlaces(s: string): (r: Option<(int, int)>)
    ensures r.Some? ==> 0 <= r.value.1 <= 99
  {
    if |s| < 4 || s[|s| - 3] != '.' || !AllDigits(s[|s| - 2..]) then None
    else
      TwoDigitsValue(s[|s| - 2..]);
      match ParseInt(s[..|s| - 3])
      case None => None
      case Some(u) => Some((u, DigitsValue(s[|s| - 2..])))
  }

  lemma TwoPlacesRoundTrip(u: int, n: int)
    requires 0 <= n <= 99
    ensures ParseTwoPlaces(IntToString(u) + "." + ZeroPadded(n)) == Some((u, n))
  {
    var s := IntToString(u) + "." + ZeroPadded(n);
    assert s[..|s| - 3] == IntToString(u);
    assert s[|s| - 2..] == ZeroPadded(n);
    ZeroPaddedTwoDigits(n);
    IntToStringRoundTrip(u);
  }

  /** The position of the first occurrence of c in s. */
  function IndexOf(s: string, c: char): (r: Option<nat>)
    ensures r.Some? ==> r.value < |s| && s[r.value] == c && c !in s[..r.value]
    ensures r.None? ==> c !in s
  {
    if s == [] then None
    else if s[0] == c then Some(0)
    else match IndexOf(s[1..], c)
      case None => None
      case Some(i) => assert s[..i + 1] == [s[0]] + s[1..][..i]; Some(i + 1)
  }

  lemma IndexOfConcat(a: string, c: char, b: string)
    requires c !in a
    ensures IndexOf(a + [c] + b, c) == Some(|a|)
  {
    var s := a + [c] + b;
    var r := IndexOf(s, c);
    assert s[|a|] == c;
    assert r.Some?;
    assert s[..|a|] == a;
  }
}
