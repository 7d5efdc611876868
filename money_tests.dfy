/**
 * The behaviour the unit tests of the RUB and USD money values demand, each
 * scenario built on the class and stated for either currency: the arithmetic
 * does not depend on which currency the value carries.
 */
module MoneyTests {
  import opened Wrappers
  import opened Currencies
  import opened MoneyCore
  import Rub
  import Usd

  /** Units and in-range nanos read back exactly as constructed. */
  method ReadBackScenario(c: Currency, u: int, n: int) returns (units: int, nanos: Result<int, NanosError>)
    requires ValidNanos(n)
    ensures units == u && nanos == Success(n)
  {
    var m := new Money(c, u, n);
    units, nanos := m.Units(), m.Nanos();
  }

  /** Construction never fails; reading -1 or 100 as nanos fails with the tested messages. */
  method NanosOutOfRangeScenario(c: Currency) returns (negative: Result<int, NanosError>, tooLarge: Result<int, NanosError>)
    ensures negative.Failure? && negative.error.Message() == "Nanos cannot be negative."
    ensures tooLarge.Failure? && tooLarge.error.Message() == "Nanos cannot be greater than 99."
  {
    var m1 := new Money(c, 100, -1);
    var m2 := new Money(c, 100, 100);
    negative, tooLarge := m1.Nanos(), m2.Nanos();
  }

  /** 100.50 equals 100.50 and differs from 200.50 in the same currency. */
  method EqualsScenario(c: Currency) returns (same: Result<bool, NanosError>, other: Result<bool, NanosError>)
    ensures same == Success(true) && other == Success(false)
  {
    var m1 := new Money(c, 100, 50);
    var m2 := new Money(c, 100, 50);
    var m3 := new Money(c, 200, 50);
    same, other := m1.Equals(m2), m1.Equals(m3);
  }

  /** 100.50 in one currency never equals 100.50 in another. */
  method EqualsAcrossCurrenciesScenario(c: Currency, d: Currency) returns (r: Result<bool, NanosError>)
    requires c != d
    ensures r == Success(false)
  {
    var m1 := new Money(c, 100, 50);
    var m2 := new Money(d, 100, 50);
    r := m1.Equals(m2);
  }

  /** 100.00 USD against 200.50 USD: not equal, whatever an assertion of the opposite says. */
  method UsdEqualsScenario() returns (first: Result<bool, NanosError>, second: Result<bool, NanosError>)
    ensures first == Success(false) && second == Success(false)
  {
    var m1 := new Money(USD, 100, 0);
    var m2 := new Money(USD, 200, 50);
    var m3 := new Money(USD, 500, 70);
    first, second := m1.Equals(m2), m2.Equals(m3);
  }

  /** 100.50 + 20.20 = 120.70, and 100.50 + 100.52 = 201.02 with a carry. */
  method AddScenario(c: Currency) returns (ok1: bool, units1: int, nanos1: Result<int, NanosError>,
                                            ok2: bool, units2: int, nanos2: Result<int, NanosError>)
    ensures ok1 && units1 == 120 && nanos1 == Success(70)
    ensures ok2 && units2 == 201 && nanos2 == Success(2)
  {
    var m1 := new Money(c, 100, 50);
    var m2 := new Money(c, 20, 20);
    ok1 := m1.Add(m2);
    units1, nanos1 := m1.Units(), m1.Nanos();
    var m3 := new Money(c, 100, 50);
    var m4 := new Money(c, 100, 52);
    ok2 := m3.Add(m4);
    units2, nanos2 := m3.Units(), m3.Nanos();
  }

  /** 100.50 - 50.20 = 50.30, and 100.50 - 50.70 = 49.80 with a borrow. */
  method SubtractScenario(c: Currency) returns (ok1: bool, units1: int, nanos1: Result<int, NanosError>,
                                                 ok2: bool, units2: int, nanos2: Result<int, NanosError>)
    ensures ok1 && units1 == 50 && nanos1 == Success(30)
    ensures ok2 && units2 == 49 && nanos2 == Success(80)
  {
    var m1 := new Money(c, 100, 50);
    var m2 := new Money(c, 50, 20);
    ok1 := m1.Subtract(m2);
    units1, nanos1 := m1.Units(), m1.Nanos();
    var m3 := new Money(c, 100, 50);
    var m4 := new Money(c, 50, 70);
    ok2 := m3.Subtract(m4);
    units2, nanos2 := m3.Units(), m3.Nanos();
  }

  /** Adding or subtracting a value of another currency reports failure. */
  method AcrossCurrenciesScenario(c: Currency, d: Currency) returns (added: bool, subtracted: bool)
    requires c != d
    ensures !added && !subtracted
  {
    var m1 := new Money(c, 100, 50);
    var m2 := new Money(d, 20, 20);
    added := m1.Add(m2);
    var m3 := new Money(c, 100, 50);
    var m4 := new Money(d, 50, 20);
    subtracted := m3.Subtract(m4);
  }

  /** 20.30 * 3 = 60.90, and 100.50 * 2 = 201.00 with a carry. */
  method MultiplyScenario(c: Currency) returns (ok1: bool, units1: int, nanos1: Result<int, NanosError>,
                                                 ok2: bool, units2: int, nanos2: Result<int, NanosError>)
    ensures ok1 && units1 == 60 && nanos1 == Success(90)
    ensures ok2 && units2 == 201 && nanos2 == Success(0)
  {
    var m1 := new Money(c, 20, 30);
    ok1 := m1.Multiply(3);
    units1, nanos1 := m1.Units(), m1.Nanos();
    var m2 := new Money(c, 100, 50);
    ok2 := m2.Multiply(2);
    units2, nanos2 := m2.Units(), m2.Nanos();
  }

  /** 20.30 / 2 = 10.15; dividing by 0 reports failure. */
  method DivideScenario(c: Currency) returns (ok1: bool, units1: int, nanos1: Result<int, NanosError>, ok2: bool)
    ensures ok1 && units1 == 10 && nanos1 == Success(15)
    ensures !ok2
  {
    var m1 := new Money(c, 20, 30);
    ok1 := m1.Divide(2);
    units1, nanos1 := m1.Units(), m1.Nanos();
    Rational.RoundHalfAwayExact(20, 2, 10);
    Rational.RoundHalfAwayExact(30, 2, 15);
    var m2 := new Money(c, 20, 30);
    ok2 := m2.Divide(0);
  }

  /** RUB 100.00 displays as "100.00 руб." and USD 100.00 as "$100.00". */
  method ToStringScenario() returns (rub: string, usd: string)
    ensures rub == "100.00 руб." && usd == "$100.00"
  {
    var m1 := new Money(RUB, 100, 0);
    var m2 := new Money(USD, 100, 0);
    rub, usd := m1.ToString(), m2.ToString();
    Rub.ToStringExamples();
    Usd.ToStringTestExample();
  }
}
