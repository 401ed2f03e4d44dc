/**
 * Shared value types of the trading pipeline: optional values, the
 * BUY/SELL/HOLD action, and floating-point numbers as the pipeline's
 * arithmetic sees them (an exact number or NaN).
 */
module Values {

  datatype Option<+T> = None | Some(value: T)

  /** A trading action, as produced by every stage of the pipeline. */
  datatype Action = Buy | Sell | Hold

  /** A strictly positive price (the close of a bar, a trade's fill). */
  type Price = r: real | r > 0.0 witness 1.0

  /** A float value: an exact real, or NaN (a missing rolling value, 0/0). */
  datatype Num = Real(v: real) | NaN

  /** `a > b` on floats: false whenever either side is NaN. */
  predicate Gt(a: Num, b: Num) { a.Real? && b.Real? && a.v > b.v }

  /** `a < b` on floats: false whenever either side is NaN. */
  predicate Lt(a: Num, b: Num) { a.Real? && b.Real? && a.v < b.v }

  /** `a >= b` on floats: false whenever either side is NaN. */
  predicate Ge(a: Num, b: Num) { a.Real? && b.Real? && a.v >= b.v }

  /** `a <= b` on floats: false whenever either side is NaN. */
  predicate Le(a: Num, b: Num) { a.Real? && b.Real? && a.v <= b.v }

  /** `a != b` on floats: true whenever either side is NaN. */
  predicate Ne(a: Num, b: Num) { !(a.Real? && b.Real? && a.v == b.v) }

  /** Truthiness of a float in a condition: only 0.0 is falsy, NaN is truthy. */
  predicate Truthy(a: Num) { a.NaN? || a.v != 0.0 }

  /** Float subtraction, NaN-propagating. */
  function Sub(a: Num, b: Num): (r: Num)
    ensures r.Real? <==> a.Real? && b.Real?
  {
    if a.Real? && b.Real? then Real(a.v - b.v) else NaN
  }

  /** Float addition, NaN-propagating. */
  function Add(a: Num, b: Num): (r: Num)
    ensures r.Real? <==> a.Real? && b.Real?
  {
    if a.Real? && b.Real? then Real(a.v + b.v) else NaN
  }

  /** Float division by a non-zero float, NaN-propagating. */
  function Div(a: Num, b: Num): (r: Num)
    requires b.Real? ==> b.v != 0.0
    ensures r.Real? <==> a.Real? && b.Real?
  {
    if a.Real? && b.Real? then Real(a.v / b.v) else NaN
  }

  /** Float multiplication by an exact constant, NaN-propagating. */
  function Scale(a: Num, k: real): (r: Num)
    ensures r.Real? <==> a.Real?
  {
    if a.Real? then Real(a.v * k) else NaN
  }

  function Min(a: real, b: real): (r: real)
    ensures r <= a && r <= b && (r == a || r == b)
  {
    if a <= b then a else b
  }

  function Max(a: real, b: real): (r: real)
    ensures r >= a && r >= b && (r == a || r == b)
  {
    if a >= b then a else b
  }

  function Abs(x: real): (r: real)
    ensures r >= 0.0 && (r == x || r == -x)
  {
    if x >= 0.0 then x else -x
  }

  /**
   * Python's `int(x)` on a float: truncation toward zero.
   */
  function Trunc(x: real): (n: int)
    ensures x >= 0.0 ==> 0.0 <= n as real <= x < n as real + 1.0
    ensures x < 0.0 ==> n as real - 1.0 < x <= n as real && n <= 0
  {
    if x >= 0.0 then x.Floor else -((-x).Floor)
  }
}
