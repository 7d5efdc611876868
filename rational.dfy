/**
 * Exact integer stand-ins for the two ways the library turns a quotient into an
 * integer: PHP's `(int)` cast, which truncates toward zero, and PHP's `round`,
 * which rounds half away from zero.
 */
module Rational {

  function Abs(x: int): (r: nat)
    ensures r == x || r == -x
  {
    if x < 0 then -x else x
  }

  /** The integer part of a / b, truncated toward zero. */
  function TruncDiv(a: int, b: int): (q: int)
    requires b != 0
    ensures Abs(q * b) <= Abs(a)
    ensures Abs(a - q * b) < Abs(b)
    ensures a - q * b == 0 || (a - q * b > 0 <==> a > 0)
  {
    var m: int := Abs(a) / Abs(b);
    SignedQuotient(a, b, m);
    TruncMagnitude(Abs(a), Abs(b), m);
    if (a >= 0) == (b > 0) then m else -m
  }

  /** q is a / b rounded to the nearest integer, ties going away from zero. */
  predicate IsRoundHalfAway(a: int, b: int, q: int)
  {
    && 2 * Abs(a - q * b) <= Abs(b)
    && (2 * Abs(a - q * b) == Abs(b) ==> Abs(q * b) > Abs(a))
  }

  function RoundHalfAway(a: int, b: int): (q: int)
    requires b != 0
    ensures IsRoundHalfAway(a, b, q)
  {
    var m: int := (2 * Abs(a) + Abs(b)) / (2 * Abs(b));
    SignedQuotient(a, b, m);
    RoundMagnitude(Abs(a), Abs(b), m);
    if (a >= 0) == (b > 0) then m else -m
  }

  /** Giving the magnitude m the sign of a / b yields a multiple of b with the sign of a. */
  lemma SignedQuotient(a: int, b: int, m: int)
    requires b != 0
    ensures var q := if (a >= 0) == (b > 0) then m else -m;
            q * b == (if a >= 0 then m * Abs(b) else -(m * Abs(b)))
  {
  }

  lemma TruncMagnitude(x: nat, y: nat, m: int)
    requires y > 0 && m == x / y
    ensures 0 <= m * y <= x && x - m * y < y
  {
  }

  lemma RoundMagnitude(x: nat, y: nat, m: int)
    requires y > 0 && m == (2 * x + y) / (2 * y)
    ensures 2 * Abs(x - m * y) <= y
    ensures 2 * Abs(x - m * y) == y ==> m * y > x
  {
  }

  lemma NonzeroMultiple(q: int, b: int)
    requires q != 0
    ensures Abs(q * b) >= Abs(b)
  {
  }

  lemma MulMonotone(a: int, b: int, r: int)
    requires a <= b && r >= 0
    ensures a * r <= b * r
  {
  }

  /** Rounding a quotient of a sub-unit count in 0..99 by a positive divisor stays in 0..99. */
  lemma RoundHalfAwayInRange(n: int, d: int)
    requires 0 <= n <= 99 && d > 0
    ensures 0 <= RoundHalfAway(n, d) <= 99
  {
    var q := RoundHalfAway(n, d);
    if q < 0 {
      MulMonotone(q, -1, d);
    } else if q > 99 {
      MulMonotone(100, q, d);
    }
  }

  /** The nearest integer is unique once ties are sent away from zero. */
  lemma RoundHalfAwayUnique(a: int, b: int, k: int)
    requires b != 0 && IsRoundHalfAway(a, b, k)
    ensures k == RoundHalfAway(a, b)
  {
    var q := RoundHalfAway(a, b);
    if k != q {
      MultiplesApart(q, k, b);
      NearestCloserThanStep(a, q * b, k * b, Abs(b));
      assert false;
    }
  }

  lemma MultiplesApart(q: int, k: int, b: int)
    requires q != k
    ensures Abs(k * b - q * b) >= Abs(b)
    ensures q * b != 0 ==> Abs(q * b) >= Abs(b)
    ensures k * b != 0 ==> Abs(k * b) >= Abs(b)
  {
    assert k * b - q * b == (k - q) * b;
    NonzeroMultiple(k - q, b);
    if q != 0 {
      NonzeroMultiple(q, b);
    }
    if k != 0 {
      NonzeroMultiple(k, b);
    }
  }

  /**
   * Two multiples x and y of a step c that are both within half a step of a,
   * with ties away from zero, are less than a step apart.
   */
  lemma NearestCloserThanStep(a: int, x: int, y: int, c: int)
    requires c > 0
    requires 2 * Abs(a - x) <= c && (2 * Abs(a - x) == c ==> Abs(x) > Abs(a))
    requires 2 * Abs(a - y) <= c && (2 * Abs(a - y) == c ==> Abs(y) > Abs(a))
    requires x != 0 ==> Abs(x) >= c
    requires y != 0 ==> Abs(y) >= c
    ensures Abs(y - x) < c
  {
  }

  /** A quotient that is exact is its own rounding. */
  lemma RoundHalfAwayExact(a: int, b: int, q: int)
    requires b != 0 && a == q * b
    ensures RoundHalfAway(a, b) == q
  {
    RoundHalfAwayUnique(a, b, q);
  }
}
