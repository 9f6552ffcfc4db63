/**
 * JavaScript numbers as the scripts receive them: a finite value (taken as
 * an exact real; the rounding of IEEE doubles is not modelled), NaN, or one
 * of the two infinities. Every comparison with NaN is false, as in JavaScript.
 */
module Numbers {
  datatype Number = Finite(x: real) | NaN | PosInf | NegInf

  /** The number whose value is the integer i. */
  function Of(i: int): Number {
    Finite(i as real)
  }

  /** Number.isFinite */
  predicate IsFinite(n: Number) {
    n.Finite?
  }

  /** Number.isInteger: finite and without a fractional part. */
  predicate IsInteger(n: Number) {
    n.Finite? && n.x.Floor as real == n.x
  }

  /** The integer an integral number stands for (what BigInt(n) yields). */
  function ToInt(n: Number): (i: int)
    requires IsInteger(n)
    ensures Of(i) == n
  {
    n.x.Floor
  }

  /** The JavaScript comparison n < c. */
  predicate Less(n: Number, c: real) {
    match n
    case Finite(x) => x < c
    case NegInf => true
    case _ => false
  }

  /** The JavaScript comparison n > c. */
  predicate Greater(n: Number, c: real) {
    match n
    case Finite(x) => x > c
    case PosInf => true
    case _ => false
  }

  /** The JavaScript comparison n <= c. */
  predicate AtMost(n: Number, c: real) {
    match n
    case Finite(x) => x <= c
    case NegInf => true
    case _ => false
  }

  /** The JavaScript comparison n >= c. */
  predicate AtLeast(n: Number, c: real) {
    match n
    case Finite(x) => x >= c
    case PosInf => true
    case _ => false
  }
}
