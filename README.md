# Fixed-point money, in Dafny

A model of a small PHP money library. An amount is an integer `units` plus an
integer `nanos` that counts hundredths (kopecks, cents), in one of two
currencies: RUB (code `"RUB"`, symbol `"руб."`) and USD (code `"USD"`, symbol `"$"`).

- **Money value** (`MoneyCore`, `money.dfy`). A class `Money` with a constant
  currency and mutable `units`/`nanos`. Construction accepts any two integers.
  Reading `nanos` validates the range 0..99 lazily and fails with
  "Nanos cannot be negative." or "Nanos cannot be greater than 99.".
  `Add`, `Subtract`, `Multiply` and `Divide` update the receiver in place and
  return a `bool`. Each is proved against a pure function on an `Amount`
  snapshot (`Sum`, `Difference`, `Product`, `Quotient`). `Sum`, `Difference`
  and `Product` state that the total in hundredths is added, subtracted or
  scaled exactly. `Quotient` states that each part is its own quotient
  rounded half away from zero. All four state when in-range sub-units stay in
  range, and that a cross-currency operation or a zero divisor fails.
  `Equality` models `equals`.
- **Unit-test behaviour** (`MoneyTests`, `money_tests.dfy`). Every scenario of
  the RUB and USD unit tests is a method on the class, stated for either
  currency: the arithmetic does not depend on the currency.
- **Display strings** (`Rub`, `Usd`, `RubblesMoney`). RUB prints
  `"<units>.<two-digit nanos> руб."`. USD prints `"$<units>.<fraction>"`, where
  the fraction is `'0'` and the nanos for nanos up to 9, and otherwise the nanos
  followed by a literal `"0s"`. Rubbles prints `"%d.%d <symbol>"` without
  padding. The RUB format, the Rubbles format and the corrected USD format
  each come with a parser and a round-trip lemma. The USD format as the code
  writes it is characterised piece by piece instead, and compared with the
  corrected one.
- **Exchange** (`Exchange`). `Rate` is an unvalidated `(units, nanos)` pair.
  `Convert` models the roubles-to-dollars `dollars()` in exact rational
  arithmetic. With S = 100·units + nanos for the amount and R the same for the
  rate, the result's units are S / R truncated toward zero. Its nanos are
  100·(S − units·R) / R rounded half away from zero, with no carry.
- Helpers: `Decimal` (PHP's `%d` rendering and its inverse) and `Rational`
  (truncating division and round-half-away-from-zero division, with their
  characterisations).

The arithmetic of the money value lives in a base class that is not part of
this model; its behaviour is taken from the unit tests, with a carry of
`floor(sum / 100)` units on addition and multiplication and a single borrow on
subtraction. Division divides the units and the sub-units separately.

One USD unit test asserts that `USD(100, 0)` equals `USD(200, 50)`. That
contradicts the RUB test of the same method (tests/RUBTest.php:114-122), where
different units are unequal. The model keeps value equality, and
`MoneyTests.UsdEqualsScenario` proves the comparison false.

## Model

| member | source | states |
|---|---|---|
| `Currencies.CodeInjective` | src/Currency/RUB.php:36-40 | the two currency identities have distinct codes, so comparing codes is comparing currencies |
| `Rub.CurrencyOf` | src/RUB.php:27-30 | `currency()` of a RUB value has code "RUB" and symbol "руб." |
| `Usd.CurrencyOf` | src/USD.php:31-34 | `currency()` of a USD value has code "USD" and symbol "$" |
| `Decimal.IntToStringRoundTrip` | src/Rubbles.php:88-93 | the `%d` rendering of every integer, negative ones included, parses back to that integer |
| `Decimal.ZeroPaddedTwoDigits` | src/RUB.php:45-47 | for nanos in 0..99, `nanos > 9 ? nanos : '0'.nanos` is exactly two digits denoting nanos |
| `Rub.ToString` | src/RUB.php:40-50 | the RUB display starts with the units and ".", ends with " руб.", and has exactly two fraction characters for in-range nanos |
| `Rub.ToStringRoundTrip` | src/RUB.php:42-49 | every value with nanos in 0..99 is recovered from its RUB display string |
| `Rub.ToStringInjective` | src/RUB.php:42-49 | two in-range values never display alike |
| `Rub.FractionThreshold` | src/RUB.php:45-47 | nanos 9 prints ".09", nanos 10 prints ".10" |
| `Rub.ToStringExamples` | tests/RUBTest.php:34-39 | 100.00 displays as "100.00 руб." and the documented 100.50 as "100.50 руб." |
| `Rub.NegativeNanosRendered` | src/RUB.php:44-47 | the raw field is printed unvalidated: nanos -1 renders as "0-1" |
| `Usd.ToString` | src/USD.php:44-54 | the USD display starts with "$", the units and "."; the fraction is "0" and the nanos for nanos at most 9, else the nanos and "0s" |
| `Usd.AgreesWithIntendedIff` | src/USD.php:50-52 | the code's display equals the documented two-digit display exactly when nanos is at most 9 |
| `Usd.ToStringTestExample` | tests/USDTest.php:34-39 | 100.00 displays as "$100.00" |
| `Usd.DocumentedExampleMismatch` | src/USD.php:39-40 | 100.50 displays as "$100.500s" in the code, and as the documented "$100.50" in the corrected format |
| `Usd.ToStringIntended` | src/USD.php:39-40 | the documented USD display: "$", the units, ".", the nanos padded to two digits |
| `Usd.ToStringIntendedRoundTrip` | src/USD.php:39-40 | every in-range value is recovered from its documented USD display |
| `RubblesMoney.ToString` | src/Rubbles.php:86-94 | the Rubbles display starts with the units and "." and ends with a space and the symbol |
| `RubblesMoney.ToStringRoundTrip` | src/Rubbles.php:88-93 | every Rubbles value, whatever its nanos, is recovered from its display, so formatting never fails and loses nothing |
| `RubblesMoney.UnpaddedExamples` | src/Rubbles.php:88-93 | no padding: (100, 5) shows "100.5", (100, 0) shows "100.0", (100, 50) shows "100.50" |
| `RubblesMoney.DocumentedExample` | src/Rubbles.php:81-82 | 100.50 displays as "100.50 руб." |
| `RubblesMoney.OutOfRangeNanosPassThrough` | src/Rubbles.php:73-76 | nanos -1 and 150 are returned as they are, and -1 prints as ".-1" |
| `RubblesMoney.AgreesWithRubIff` | src/Rubbles.php:88-93 | with the rouble symbol, for nanos in 0..99 the Rubbles display equals the RUB display exactly when nanos has two digits |
| `Rational.TruncDiv` | src/Exchange/RubblesToDollars.php:47 | the `(int)` cast: the quotient truncated toward zero, its remainder smaller than the divisor and signed like the dividend |
| `Rational.RoundHalfAway` | src/Exchange/RubblesToDollars.php:48 | `round`: the result is within half a step of the quotient, and a tie goes away from zero |
| `Rational.RoundHalfAwayUnique` | src/Exchange/RubblesToDollars.php:48 | only one integer meets that rounding condition |
| `Exchange.Convert` | src/Exchange/RubblesToDollars.php:38-51 | result units are source/rate truncated toward zero; result nanos are remainder×100/rate rounded half away from zero, with no carry |
| `Exchange.ConvertApproximates` | src/Exchange/RubblesToDollars.php:42-48 | the converted amount is within half a hundredth of the exact quotient source / rate |
| `Exchange.ConvertNanosRange` | src/Exchange/RubblesToDollars.php:48-50 | for a non-negative amount and a positive rate the result's nanos lie in 0..100 |
| `Exchange.ConvertWithoutCarry` | src/Exchange/RubblesToDollars.php:47-50 | 5.99 at rate 3.00 gives (1, 100): units are truncated and nanos 100 is not carried |
| `Exchange.RateNanosFolded` | src/Exchange/RubblesToDollars.php:42-43 | rate (1, 150) converts exactly as rate (2, 50) |
| `Exchange.ConvertTestCases` | tests/Exchange/RubblesToDollarsTest.php:33-54 | at rate 82.70: 100→(1,21), 1000→(12,9), 1200000→(14510,28), 1200500→(14516,32) |
| `Exchange.RateDocumentedExample` | src/Exchange/Rate.php:35-53 | rate 100.50 has units 100, nanos 50, and stands for 10050 hundredths |
| `MoneyCore.ValidateNanos` | tests/RUBTest.php:73-106 | reading nanos succeeds exactly in 0..99 with the stored value; below 0 it fails as Negative, above 99 as TooLarge |
| `MoneyCore.Equality` | tests/RUBTest.php:114-136 | `equals` is true iff currency, units and in-range nanos all coincide; a different currency is false; it fails exactly when otherwise equal values have an out-of-range nanos |
| `MoneyCore.EqualityReflexive` | tests/RUBTest.php:114-122 | an in-range value equals itself |
| `MoneyCore.EqualitySymmetric` | tests/RUBTest.php:114-136 | `equals` answers the same both ways round whenever it answers |
| `MoneyCore.Sum` | tests/RUBTest.php:144-188 | addition fails iff the currencies differ; otherwise hundredths add exactly, in-range nanos stay in range, and a sum below 100 needs no carry |
| `MoneyCore.SumCarriesAtMostOne` | tests/RUBTest.php:178-188 | for in-range values the carry is 0 or 1 unit |
| `MoneyCore.Difference` | tests/RUBTest.php:196-240 | subtraction fails iff the currencies differ; otherwise hundredths subtract exactly and one borrow keeps in-range nanos in range |
| `MoneyCore.SumThenDifference` | tests/RUBTest.php:144-240 | subtracting what was added restores the original in-range value |
| `MoneyCore.Product` | tests/RUBTest.php:248-274 | multiplication scales the hundredths exactly; a non-negative factor keeps in-range nanos in range |
| `MoneyCore.ProductByNegativeUnreadable` | tests/RUBTest.php:248-274 | 1.50 times -1 leaves nanos -50, which a later read rejects |
| `MoneyCore.Quotient` | tests/RUBTest.php:282-306 | division fails iff the divisor is 0; otherwise units and nanos are each the quotient rounded half away from zero, and a positive divisor keeps in-range nanos in range |
| `MoneyCore.QuotientExact` | tests/RUBTest.php:282-291 | when the divisor divides both parts, the result is the exact quotient |
| `MoneyCore.QuotientIsPartwise` | tests/RUBTest.php:286 | illustrates the part-by-part division chosen for `divide` (the tested 20.30 / 2 is exact and does not decide it): 20.30 / 3 gives 7.10, while 2030 hundredths / 3 rounds to 677 |
| `MoneyCore.Format` | src/RUB.php:40-50 | the display is chosen by currency: a RUB display ends with " руб." and reads back as the in-range value; a USD display starts with "$", the units and "." |
| `MoneyCore.Money.ToString` | src/USD.php:44-54 | a RUB value prints with the RUB format and a USD value with the USD format, from the raw fields |
| `MoneyCore.Money.Units` | tests/RUBTest.php:60-65 | `units()` returns the stored units, unvalidated |
| `MoneyCore.Money.Nanos` | tests/RUBTest.php:73-106 | `nanos()` succeeds exactly for 0..99 with the stored value, and otherwise fails with the negative or greater-than-99 message |
| `MoneyCore.Money.Equals` | tests/RUBTest.php:114-136 | `equals` holds exactly for the same currency, units and in-range nanos; another currency is never equal; an out-of-range nanos of otherwise equal values is the read error |
| `Rational.RoundHalfAwayInRange` | tests/RUBTest.php:282-291 | dividing nanos in 0..99 by a positive divisor with rounding stays in 0..99 |
| `MoneyCore.Money.constructor` | tests/RUBTest.php:86-106 | construction stores any units and nanos, out-of-range ones included |
| `MoneyCore.Money.Add` | tests/RUBTest.php:144-188 | returns true iff the currencies match; then the receiver becomes `Sum` of the old values, otherwise it is unchanged |
| `MoneyCore.Money.Subtract` | tests/RUBTest.php:196-240 | returns true iff the currencies match; then the receiver becomes `Difference` of the old values, otherwise it is unchanged |
| `MoneyCore.Money.Multiply` | tests/RUBTest.php:248-274 | returns true and the receiver becomes `Product` of its old value |
| `MoneyCore.Money.Divide` | tests/RUBTest.php:282-306 | returns false and leaves the receiver unchanged for divisor 0; otherwise it returns true and the receiver becomes `Quotient` of its old value |
| `MoneyTests.ReadBackScenario` | tests/RUBTest.php:60-78 | units and in-range nanos read back as constructed |
| `MoneyTests.NanosOutOfRangeScenario` | tests/USDTest.php:86-106 | values with nanos -1 and 100 are built; reading nanos fails with the two tested messages |
| `MoneyTests.EqualsScenario` | tests/RUBTest.php:114-122 | 100.50 equals 100.50 and not 200.50 |
| `MoneyTests.EqualsAcrossCurrenciesScenario` | tests/USDTest.php:130-136 | 100.50 in different currencies is not equal |
| `MoneyTests.UsdEqualsScenario` | tests/USDTest.php:114-122 | USD 100.00 is not equal to 200.50, and 200.50 is not equal to 500.70 |
| `MoneyTests.AddScenario` | tests/USDTest.php:144-188 | 100.50 + 20.20 = 120.70 and 100.50 + 100.52 = 201.02, both returning true |
| `MoneyTests.SubtractScenario` | tests/USDTest.php:196-240 | 100.50 − 50.20 = 50.30 and 100.50 − 50.70 = 49.80, both returning true |
| `MoneyTests.AcrossCurrenciesScenario` | tests/RUBTest.php:162-222 | add and subtract with a value of another currency return false |
| `MoneyTests.MultiplyScenario` | tests/USDTest.php:248-274 | 20.30 × 3 = 60.90 and 100.50 × 2 = 201.00, both returning true |
| `MoneyTests.DivideScenario` | tests/USDTest.php:282-306 | 20.30 ÷ 2 = 10.15 returning true; ÷ 0 returns false |
| `MoneyTests.ToStringScenario` | tests/RUBTest.php:34-39 | RUB 100.00 displays "100.00 руб." and USD 100.00 displays "$100.00" |

## Left out

- Floating point: `dollars()` divides PHP doubles and `round`s a double. The model uses exact integers, so binary representation error and near-tie artefacts are not modelled.
- MoneyCore.Money.Multiply: takes an integer factor only. How a fractional factor would be rounded cannot be recovered, because the base class is not part of this model and the tests use integers.
- MoneyCore.Money.Divide: takes an integer divisor only, for the same reason.
- The money base class is not part of this model. Several choices follow from that. The arithmetic works on the raw fields. `equals` compares codes, then units, then this side's validated nanos before the other side's. A failed operation leaves the receiver unchanged. The tests only check the `false` result.
- MoneyCore.Quotient: divides the units and the sub-units separately, each rounded half away from zero, with no borrow between them. This is a choice about the base class: the one tested division (20.30 by 2) is exact, and whole-amount division or truncation would give the same (10, 15).
- Exchange.Convert: a rate whose total is zero is excluded by precondition. In PHP that division raises a division-by-zero error.
- Integer width: PHP's 64-bit integers, and their overflow into floats, are not modelled. All integers are unbounded.
- The RubblesCurrency class is not part of this model, so the Rubbles display takes its currency symbol as a parameter.
- The Dollars class is not part of this model; the conversion returns a plain `(units, nanos)` pair.
- src/Currency/RUB.php and src/Currency/USD.php are inlined as the constant code and symbol of the `Currency` datatype.
- The interfaces src/Money.php, src/Currency/Currency.php and src/Exchange/Exchange.php have no behaviour to model.
- tests/DollarsTest.php and tests/RublesTest.php test classes that are not part of this model. RublesTest expects a validating `nanos()`, which `Rubbles` does not have.
- The assertion in tests/USDTest.php:120 that 100.00 equals 200.50 is not encoded, because it contradicts value equality.
- Strings are modelled as sequences of characters, not as PHP's UTF-8 bytes; `"руб."` is 4 characters but 7 bytes. The length statements about displays count characters.
- The `currency()` tests check the PHP class of the result; the model checks its code and symbol instead.

## Findings

| source | as written | input that shows it | evidently intended | confidence | as-written member | corrected member |
|---|---|---|---|---|---|---|
| src/USD.php:50-51 | for nanos > 9 the fraction is the nanos followed by a literal "0s" | USD(100, 50) displays "$100.500s" | "$100.50", as the doc comment at src/USD.php:39-40 says | high, not executed | `Usd.DocumentedExampleMismatch` | `Usd.ToStringIntended` |

`Usd.ToString` and the display dispatch of the money class keep the code's behaviour, because the model follows the code. `Usd.ToStringIntended` is the corrected format, with `Usd.ToStringIntendedRoundTrip` proved about it. `Usd.AgreesWithIntendedIff` shows the two agree exactly when nanos is at most 9. That covers every tested display.
