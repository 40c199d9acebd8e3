/**
 * The doubles that collectd and LIKWID hand around, as values: a finite
 * number (an exact real, rounding is not modelled), NaN, or an infinity.
 * The special values combine as IEEE 754 says.
 */
module Floats {

  datatype Float = Fin(r: real) | NaN | PosInf | NegInf

  predicate IsFinite(x: Float) {
    x.Fin?
  }

  function Neg(a: Float): Float {
    match a
    case Fin(x) => Fin(-x)
    case NaN => NaN
    case PosInf => NegInf
    case NegInf => PosInf
  }

  /** a + b: NaN absorbs, opposite infinities give NaN, an infinity absorbs a finite number. */
  function Add(a: Float, b: Float): (r: Float)
    ensures a.Fin? && b.Fin? ==> r == Fin(a.r + b.r)
    ensures r.NaN? <==> a.NaN? || b.NaN? || (a.PosInf? && b.NegInf?) || (a.NegInf? && b.PosInf?)
  {
    match (a, b)
    case (NaN, _) => NaN
    case (_, NaN) => NaN
    case (PosInf, NegInf) => NaN
    case (NegInf, PosInf) => NaN
    case (PosInf, _) => PosInf
    case (NegInf, _) => NegInf
    case (_, PosInf) => PosInf
    case (_, NegInf) => NegInf
    case (Fin(x), Fin(y)) => Fin(x + y)
  }

  function Sub(a: Float, b: Float): Float {
    Add(a, Neg(b))
  }

  /** a / d for a positive finite divisor: the sign and class of a are kept. */
  function DivPos(a: Float, d: real): (r: Float)
    requires d > 0.0
    ensures r.Fin? <==> a.Fin?
    ensures a.Fin? ==> r.r * d == a.r
  {
    match a
    case Fin(x) => Fin(x / d)
    case _ => a
  }

  /** The order in which two values are added does not matter, including NaN and the infinities. */
  lemma AddCommutes(a: Float, b: Float)
    ensures Add(a, b) == Add(b, a)
  {
  }
}
