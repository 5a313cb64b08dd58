/**
 * The part of JavaScript number semantics that the client scorer depends on.
 * A finite double is modelled as an exact real. The special values arise only
 * where the scorer divides by a length that can be exactly zero.
 */
module JsNumber {

  datatype Num = Finite(value: real) | PosInfinity | NegInfinity | NaN

  function Magnitude(x: real): (m: real)
    ensures m >= 0.0 && (m == x || m == -x)
  {
    if x < 0.0 then -x else x
  }

  /**
   * `a / b` where `b` is `+0` or nonzero: the ratio denominators of the
   * scorer are results of `Math.abs`, so a zero one is always `+0`. (The
   * spinal projection divides by a `Math.sqrt` result instead; that division
   * is handled in `DistanceFromProjection`.)
   */
  function Div(a: real, b: real): (q: Num)
    ensures q.Finite? <==> b != 0.0
    ensures q.Finite? ==> q.value * b == a
    ensures q == PosInfinity <==> b == 0.0 && a > 0.0
    ensures q == NegInfinity <==> b == 0.0 && a < 0.0
    ensures q == NaN <==> b == 0.0 && a == 0.0
  {
    if b != 0.0 then Finite(a / b)
    else if a > 0.0 then PosInfinity
    else if a < 0.0 then NegInfinity
    else NaN
  }

  /** `Math.abs` */
  function Abs(n: Num): (r: Num)
    ensures r != NegInfinity
    ensures r == NaN <==> n == NaN
    ensures r.Finite? <==> n.Finite?
    ensures r.Finite? ==> r.value == Magnitude(n.value)
  {
    match n
    case Finite(v) => Finite(Magnitude(v))
    case NaN => NaN
    case _ => PosInfinity
  }

  /** `a + b` */
  function Add(a: Num, b: Num): (s: Num)
    ensures a.Finite? && b.Finite? ==> s == Finite(a.value + b.value)
    ensures s == NaN <==> a == NaN || b == NaN || (a.PosInfinity? && b.NegInfinity?) || (a.NegInfinity? && b.PosInfinity?)
  {
    if a == NaN || b == NaN then NaN
    else if a.Finite? && b.Finite? then Finite(a.value + b.value)
    else if (a.PosInfinity? && b.NegInfinity?) || (a.NegInfinity? && b.PosInfinity?) then NaN
    else if a.PosInfinity? || b.PosInfinity? then PosInfinity
    else NegInfinity
  }

  /** `n > t` for a finite threshold `t`; a comparison with NaN is false. */
  predicate Above(n: Num, t: real)
    ensures n.NaN? || n.NegInfinity? ==> !Above(n, t)
    ensures n.PosInfinity? ==> Above(n, t)
  {
    match n
    case Finite(v) => v > t
    case PosInfinity => true
    case _ => false
  }

  /**
   * The order of JavaScript numbers, with NaN comparable only to itself.
   * This is the order in which "a larger measurement" is meant.
   */
  predicate AtMost(a: Num, b: Num) {
    if a == NaN || b == NaN then a == b
    else if a.NegInfinity? || b.PosInfinity? then true
    else if a.Finite? && b.Finite? then a.value <= b.value
    else false
  }

  lemma AboveUpward(a: Num, b: Num, t: real)
    requires AtMost(a, b) && Above(a, t)
    ensures Above(b, t)
  {
  }

  /** `Math.round`: the nearest integer, a half rounded up. */
  function Round(x: real): (n: int)
    ensures x - 0.5 < n as real <= x + 0.5
  {
    (x + 0.5).Floor
  }

  function Max(a: real, b: real): (m: real)
    ensures m >= a && m >= b && (m == a || m == b)
  {
    if a >= b then a else b
  }

  /** `Math.min(hi, Math.max(lo, x))`, also numpy's `clip(x, lo, hi)` */
  function Clamp(x: real, lo: real, hi: real): (r: real)
    requires lo <= hi
    ensures lo <= r <= hi
    ensures lo <= x <= hi ==> r == x
    ensures x < lo ==> r == lo
    ensures x > hi ==> r == hi
  {
    if x < lo then lo else if x > hi then hi else x
  }
}
