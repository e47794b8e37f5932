/** The one place where the curve engine divides by a quantity that is zero on
    ordinary data: `taxaResfriamento = (final - inicial) / tempoTotal`
    (src/services/curvasService.js:66) with a single row or with the first and
    last time codes equal. The result is modelled as an IEEE-754 quotient of
    two finite numbers, with JavaScript's `Math.abs` and `>` on it. */
module Quotients {

  datatype Quotient = Finite(q: real) | PosInfinity | NegInfinity | NaN

  /** `a / b` in floating point, for finite `a` and `b`. */
  function Divide(a: real, b: real): (r: Quotient)
    ensures r.Finite? <==> b != 0.0
    ensures r.NaN? <==> a == 0.0 && b == 0.0
    ensures r.PosInfinity? <==> b == 0.0 && a > 0.0
  {
    if b != 0.0 then Finite(a / b)
    else if a > 0.0 then PosInfinity
    else if a < 0.0 then NegInfinity
    else NaN
  }

  /** A finite quotient times the divisor gives the dividend back. */
  lemma DivideFinite(a: real, b: real)
    requires b != 0.0
    ensures Divide(a, b).q * b == a
  {
  }

  /** `Math.abs`. */
  function Abs(x: Quotient): (r: Quotient)
    ensures !r.NegInfinity?
    ensures r.NaN? <==> x.NaN?
    ensures r.Finite? <==> x.Finite?
    ensures r.Finite? ==> r.q >= 0.0 && (r.q == x.q || r.q == -x.q)
  {
    match x
    case Finite(v) => Finite(if v < 0.0 then -v else v)
    case PosInfinity => PosInfinity
    case NegInfinity => PosInfinity
    case NaN => NaN
  }

  /** `x > y`: false whenever either side is NaN. */
  predicate Gt(x: Quotient, y: Quotient)
    ensures Gt(x, y) ==> !x.NaN? && !y.NaN? && !x.NegInfinity? && !y.PosInfinity?
    ensures x.Finite? && y.Finite? ==> (Gt(x, y) <==> x.q > y.q)
  {
    match (x, y)
    case (NaN, _) => false
    case (_, NaN) => false
    case (PosInfinity, PosInfinity) => false
    case (PosInfinity, _) => true
    case (_, PosInfinity) => false
    case (NegInfinity, _) => false
    case (_, NegInfinity) => true
    case (Finite(a), Finite(b)) => a > b
  }

  /** Away from NaN, `>` is a strict total order: exactly one of x > y, y > x, x == y. */
  lemma GtTotal(x: Quotient, y: Quotient)
    requires !x.NaN? && !y.NaN?
    ensures Gt(x, y) || Gt(y, x) || x == y
    ensures !(Gt(x, y) && Gt(y, x))
    ensures !Gt(x, x)
  {
  }

  lemma GtTransitive(x: Quotient, y: Quotient, z: Quotient)
    requires Gt(x, y) && Gt(y, z)
    ensures Gt(x, z)
  {
  }
}
