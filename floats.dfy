/**
 * Python floats as the model sees them: an exact real, an infinity of either sign, or NaN.
 * Rounding is not modelled; comparisons follow IEEE 754 (every comparison with NaN is false,
 * each infinity equals itself).
 */
module Floats {

  datatype Float = Finite(r: real) | PosInf | NegInf | NaN

  /** `a < b` on Python floats. */
  predicate Less(a: Float, b: Float)
  {
    match (a, b)
    case (NaN, _) => false
    case (_, NaN) => false
    case (NegInf, NegInf) => false
    case (NegInf, _) => true
    case (PosInf, _) => false
    case (Finite(x), Finite(y)) => x < y
    case (Finite(_), PosInf) => true
    case (Finite(_), NegInf) => false
  }

  /** `a >= b` on Python floats. */
  predicate AtLeast(a: Float, b: Float)
  {
    a != NaN && b != NaN && !Less(a, b)
  }

  /** Nothing is below minus infinity: a threshold of -inf passes every value but NaN. */
  lemma NegInfThresholdPassesAll(a: Float)
    ensures AtLeast(a, NegInf) <==> a != NaN
  {
  }
}
