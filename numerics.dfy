/**
 * Numbers as the calculator computes them: exact reals for finite values, the non-finite
 * values numpy produces, pi, Python's `round`, and the transcendental functions, which the
 * model receives as parameters.
 */
module Numerics {

  /** `numpy.pi` as a Python float literal. */
  const Pi: real := 3.141592653589793

  /**
   * A numpy float64 cell: a finite value, or NaN, or a signed infinity.  numpy produces the
   * non-finite values on division by zero and fractional powers of negative numbers
   * instead of raising.
   */
  datatype Float = Finite(value: real) | NaN | PosInf | NegInf
  {
    /** `numpy.isnan`. */
    predicate IsNaN() { NaN? }

    /** The IEEE comparison `this > c` against a finite number: false whenever NaN is involved. */
    predicate Exceeds(c: real)
    {
      match this
      case Finite(v) => v > c
      case PosInf => true
      case NegInf => false
      case NaN => false
    }
  }

  /**
   * Library results the model does not compute: `numpy.log10`, `**` with a fractional
   * exponent on a non-negative base, and `numpy.sqrt`.  Every formula takes one of these
   * records, so the proofs hold for whatever the library returns unless a lemma states
   * what it assumes of a function.
   */
  datatype MathLib = MathLib(log10: real -> real, pow: (real, real) -> real, sqrt: real -> real)

  /** `m.sqrt` returns the non-negative square root of `x`. */
  predicate SqrtIsExactAt(m: MathLib, x: real)
  {
    m.sqrt(x) >= 0.0 && m.sqrt(x) * m.sqrt(x) == x
  }

  function Abs(x: real): (r: real)
    ensures r >= 0.0 && (r == x || r == -x)
  {
    if x < 0.0 then -x else x
  }

  function Min(a: real, b: real): (r: real)
    ensures r <= a && r <= b && (r == a || r == b)
  {
    if a <= b then a else b
  }

  /** Python's `max(a, b)` on numbers: `b` when `b > a`, otherwise `a`. */
  function Max(a: real, b: real): (r: real)
    ensures r >= a && r >= b && (r == a || r == b)
  {
    if b > a then b else a
  }

  /**
   * numpy's division of finite float64 values: the quotient, or an infinity carrying the
   * sign of the numerator when the denominator is zero, or NaN for zero over zero.
   */
  function Divide(num: real, den: real): (q: Float)
    ensures den != 0.0 <==> q.Finite?
    ensures q.Finite? ==> q.value * den == num
    ensures q == PosInf <==> den == 0.0 && num > 0.0
    ensures q == NegInf <==> den == 0.0 && num < 0.0
  {
    if den != 0.0 then Finite(num / den)
    else if num > 0.0 then PosInf
    else if num < 0.0 then NegInf
    else NaN
  }

  predicate IsEven(n: int) { n % 2 == 0 }

  /** Python's built-in `round(x)`: the nearest integer, ties going to the even neighbour. */
  function RoundHalfEven(x: real): (n: int)
    ensures Abs(n as real - x) <= 0.5
    ensures Abs(n as real - x) == 0.5 ==> IsEven(n)
  {
    var f := x.Floor;
    var frac := x - f as real;
    if frac < 0.5 then f
    else if frac > 0.5 then f + 1
    else if IsEven(f) then f
    else f + 1
  }
}
