/** The two currency identities, each a fixed (code, symbol) pair. */
module Currencies {

  datatype Currency = RUB | USD {

    /** The short upper-case currency code. */
    function Code(): (code: string)
      ensures |code| == 3
    {
      match this
      case RUB => "RUB"
      case USD => "USD"
    }

    /** The display symbol the formatters print. */
    function Symbol(): (symbol: string)
      ensures |symbol| >= 1
    {
      match this
      case RUB => "руб."
      case USD => "$"
    }
  }

  /** The codes differ, so comparing codes is comparing currencies. */
  lemma CodeInjective(c: Currency, d: Currency)
    ensures c.Code() == d.Code() <==> c == d
  {
  }
}
