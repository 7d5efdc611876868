/** The USD money value: its currency and its display string "$<units>.<nanos>". */
module Usd {
  import opened Wrappers
  import opened Decimal
  import opened Currencies

  /** `currency()`: always the USD identity. */
  function CurrencyOf(): (c: Currency)
    ensures c.Code() == "USD" && c.Symbol() == "$"
  {
    USD
  }

  /** The symbol, the units and the dot that every USD display string starts with. */
  function Head(units: int): string {
    USD.Symbol() + IntToString(units) + "."
  }

  /**
   * `__toString` as the code has it: after the head, '0' and the sub-units when
   * they are at most 9, otherwise the sub-units followed by the literal "0s".
   */
  function ToString(units: int, nanos: int): (s: string)
    ensures |s| > |Head(units)| && s[..|Head(units)|] == Head(units) && s[0] == '$'
    ensures nanos <= 9 ==> s[|Head(units)|..] == "0" + IntToString(nanos)
    ensures nanos > 9 ==> s[|Head(units)|..] == IntToString(nanos) + "0s"
  {
    var fraction := if nanos > 9 then IntToString(nanos) + "0s" else "0" + IntToString(nanos);
    var s := Head(units) + fraction;
    assert s[..|Head(units)|] == Head(units) && s[|Head(units)|..] == fraction;
    s
  }

  /** The display string the documentation describes: the sub-units padded to two digits. */
  function ToStringIntended(units: int, nanos: int): (s: string)
    ensures |s| > |Head(units)| && s[..|Head(units)|] == Head(units)
    ensures s[|Head(units)|..] == ZeroPadded(nanos)
  {
    var s := Head(units) + ZeroPadded(nanos);
    assert s[..|Head(units)|] == Head(units) && s[|Head(units)|..] == ZeroPadded(nanos);
    s
  }

  /** Reads an intended USD display string back into (units, nanos). */
  function ParseIntended(s: string): (r: Option<(int, int)>)
    ensures r.Some? ==> 0 <= r.value.1 <= 99
  {
    if |s| < 1 || s[0] != '$' then None else ParseTwoPlaces(s[1..])
  }

  lemma ToStringIntendedRoundTrip(units: int, nanos: int)
    requires 0 <= nanos <= 99
    ensures ParseIntended(ToStringIntended(units, nanos)) == Some((units, nanos))
  {
    var s := ToStringIntended(units, nanos);
    assert s[1..] == IntToString(units) + "." + ZeroPadded(nanos);
    TwoPlacesRoundTrip(units, nanos);
  }

  /** The code and the documented format agree exactly when the sub-units are at most 9. */
  lemma AgreesWithIntendedIff(units: int, nanos: int)
    ensures ToString(units, nanos) == ToStringIntended(units, nanos) <==> nanos <= 9
  {
  }

  /** The unit test's 100.00 displays as "$100.00". */
  lemma ToStringTestExample()
    ensures ToString(100, 0) == "$100.00"
  {
  }

  /** The documentation promises "$100.50" for 100.50; the code gives "$100.500s". */
  lemma DocumentedExampleMismatch()
    ensures ToString(100, 50) == "$100.500s"
    ensures ToStringIntended(100, 50) == "$100.50"
  {
  }
}
