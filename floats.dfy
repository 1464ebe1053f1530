/**
 * IEEE-754 values as far as the strategies meet them: finite numbers (as exact reals),
 * the two infinities and NaN. Rounding is not modelled.
 */
module Floats {

  datatype Float = Finite(v: real) | PosInf | NegInf | NaN

  predicate IsNaN(x: Float) { x.NaN? }

  /** `a < b`; every comparison with NaN is false. */
  predicate Lt(a: Float, b: Float)
  {
    match (a, b)
    case (Finite(x), Finite(y)) => x < y
    case (NegInf, Finite(_)) => true
    case (NegInf, PosInf) => true
    case (Finite(_), PosInf) => true
    case _ => false
  }

  /** `a > b` */
  predicate Gt(a: Float, b: Float) { Lt(b, a) }

  /** `a <= b`; false when either side is NaN. */
  predicate Le(a: Float, b: Float) { Lt(a, b) || (a == b && !a.NaN?) }

  /** Comparisons with NaN never hold, in either direction. */
  lemma NaNIncomparable(x: Float)
    ensures !Lt(NaN, x) && !Lt(x, NaN) && !Le(NaN, x) && !Le(x, NaN)
  {
  }

  /** `<` is irreflexive and asymmetric, as on the reals. */
  lemma LtStrictOrder(a: Float, b: Float)
    ensures !Lt(a, a)
    ensures Lt(a, b) ==> !Lt(b, a)
  {
  }

  function Neg(a: Float): (r: Float)
    ensures r.NaN? <==> a.NaN?
  {
    match a
    case Finite(x) => Finite(-x)
    case PosInf => NegInf
    case NegInf => PosInf
    case NaN => NaN
  }

  /** `abs(a)` */
  function Abs(a: Float): (r: Float)
    ensures r.NaN? <==> a.NaN?
    ensures r.Finite? ==> r.v >= 0.0
    ensures !a.NaN? ==> !Lt(r, Finite(0.0))
  {
    match a
    case Finite(x) => Finite(if x < 0.0 then -x else x)
    case NaN => NaN
    case _ => PosInf
  }

  /** NumPy's `x / y` for finite operands: a zero divisor gives NaN for 0/0 and an infinity otherwise. */
  function Div(x: real, y: real): (r: Float)
    ensures y != 0.0 ==> r == Finite(x / y)
    ensures y == 0.0 ==> (r.NaN? <==> x == 0.0)
  {
    if y != 0.0 then Finite(x / y)
    else if x == 0.0 then NaN
    else if x > 0.0 then PosInf
    else NegInf
  }

  /** The larger of two numbers, as `max(a, b)` on reals. */
  function MaxReal(a: real, b: real): (r: real)
    ensures r >= a && r >= b && (r == a || r == b)
  {
    if a >= b then a else b
  }

  /** The smaller of two numbers. */
  function MinReal(a: real, b: real): (r: real)
    ensures r <= a && r <= b && (r == a || r == b)
  {
    if a <= b then a else b
  }

  function AbsReal(x: real): (r: real)
    ensures r >= 0.0 && (r == x || r == -x)
  {
    if x < 0.0 then -x else x
  }
}
