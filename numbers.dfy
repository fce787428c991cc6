/**
 * JavaScript numbers as the sampling pipeline sees them. The pipeline only
 * ever asks `isNaN(y)`, `y >= 0` and `Math.abs(y)`, so a number is a finite
 * value, one of the two infinities, or NaN.
 */
module Numbers {

  datatype Number = Finite(r: real) | PosInf | NegInf | NaN

  /** `isNaN(y)`. */
  predicate IsNaN(y: Number) {
    y.NaN?
  }

  /** `y >= 0`: false for NaN and for -Infinity, true for +Infinity. */
  predicate AtLeastZero(y: Number) {
    match y
    case Finite(v) => v >= 0.0
    case PosInf => true
    case NegInf => false
    case NaN => false
  }

  /** `Math.abs(y)`. */
  function Abs(y: Number): (r: Number)
    ensures IsNaN(r) <==> IsNaN(y)
    ensures !IsNaN(y) ==> AtLeastZero(r)
    ensures AtLeastZero(y) ==> r == y
    ensures y.Finite? <==> r.Finite?
    ensures y.Finite? ==> r.r == y.r || r.r == -y.r
  {
    match y
    case Finite(v) => Finite(if v < 0.0 then -v else v)
    case PosInf => PosInf
    case NegInf => PosInf
    case NaN => NaN
  }
}
