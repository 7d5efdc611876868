/**
 * The Rubbles money value: a pair fixed at construction whose accessors
 * return both fields as they are (no range check on the sub-units) and whose
 * display string is `"%d.%d %s"`, without padding.
 */
module RubblesMoney {
  import opened Wrappers
  import opened Decimal
  import Rub

  /** The fields are set once by the constructor; no operation changes them. */
  datatype Rubbles = Rubbles(units: int, nanos: int)

  /**
   * `__toString`: the units, a dot, the sub-units exactly as `nanos()` returns
   * them, a space and the currency's symbol. The symbol comes from a currency
   * class that is not part of this model, so it is a parameter.
   */
  function ToString(r: Rubbles, symbol: string): (s: string)
    ensures |s| > |IntToString(r.units)| && s[..|IntToString(r.units)| + 1] == IntToString(r.units) + "."
    ensures |s| >= |symbol| + 1 && s[|s| - |symbol| - 1..] == " " + symbol
  {
    var s := IntToString(r.units) + "." + IntToString(r.nanos) + " " + symbol;
    assert s[..|IntToString(r.units)| + 1] == IntToString(r.units) + ".";
    assert s[|s| - |symbol| - 1..] == " " + symbol;
    s
  }

  /** Reads a Rubbles display string with the given symbol back into a value. */
  function Parse(s: string, symbol: string): (r: Option<Rubbles>)
  {
    var suffix := " " + symbol;
    if |s| < |suffix| || s[|s| - |suffix|..] != suffix then None
    else
      var body := s[..|s| - |suffix|];
      match IndexOf(body, '.')
      case None => None
      case Some(i) =>
        match (ParseInt(body[..i]), ParseInt(body[i + 1..]))
        case (Some(u), Some(n)) => Some(Rubbles(u, n))
        case _ => None
  }

  /** Nothing is lost: every value, in range or not, is recovered from its display string. */
  lemma ToStringRoundTrip(r: Rubbles, symbol: string)
    ensures Parse(ToString(r, symbol), symbol) == Some(r)
  {
    var units, nanos := IntToString(r.units), IntToString(r.nanos);
    var body := units + ['.'] + nanos;
    var s := ToString(r, symbol);
    assert s == body + (" " + symbol);
    assert s[..|s| - |symbol| - 1] == body;
    BodyParts(units, nanos);
    IntToStringRoundTrip(r.units);
    IntToStringRoundTrip(r.nanos);
  }

  lemma BodyParts(units: string, nanos: string)
    requires '.' !in units
    ensures var body := units + ['.'] + nanos;
            IndexOf(body, '.') == Some(|units|) && body[..|units|] == units && body[|units| + 1..] == nanos
  {
    IndexOfConcat(units, '.', nanos);
    var body := units + ['.'] + nanos;
    assert body[..|units|] == units;
    assert body[|units| + 1..] == nanos;
  }

  /**
   * Two-digit sub-units display as in the RUB money value; single digits are
   * not padded, so 100.05 displays as "100.5" and 100.00 as "100.0".
   */
  lemma UnpaddedExamples(symbol: string)
    ensures ToString(Rubbles(100, 5), symbol) == "100.5 " + symbol
    ensures ToString(Rubbles(100, 0), symbol) == "100.0 " + symbol
    ensures ToString(Rubbles(100, 50), symbol) == "100.50 " + symbol
  {
  }

  /** The documented example, with the rouble symbol: "100.50 руб.". */
  lemma DocumentedExample()
    ensures ToString(Rubbles(100, 50), "руб.") == "100.50 руб."
  {
  }

  /** The sub-units are returned and printed unvalidated: -1 and 150 pass through. */
  lemma OutOfRangeNanosPassThrough(units: int)
    ensures Rubbles(units, -1).nanos == -1 && Rubbles(units, 150).nanos == 150
    ensures ToString(Rubbles(units, -1), "руб.") == IntToString(units) + ".-1 руб."
  {
  }

  /**
   * With the rouble symbol, the display agrees with the RUB money value's for
   * in-range sub-units exactly when they have two digits.
   */
  lemma AgreesWithRubIff(units: int, nanos: int)
    requires 0 <= nanos <= 99
    ensures ToString(Rubbles(units, nanos), "руб.") == Rub.ToString(units, nanos) <==> nanos >= 10
  {
  }
}
