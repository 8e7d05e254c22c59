/**
 * The JavaScript number built-ins the core relies on, over exact integers and
 * reals: `Math.abs`, `Math.round`, truncation towards zero, and the `%`
 * operator, whose remainder takes the sign of the dividend (unlike Dafny's
 * Euclidean `%`, whose remainder is never negative).
 */
module JsMath {

  /** `Math.abs`. */
  function Abs(x: real): (r: real)
    ensures r >= 0.0 && (r == x || r == -x)
  {
    if x < 0.0 then -x else x
  }

  /** `Math.round`: the nearest integer, a tie going towards +infinity. */
  function Round(x: real): (n: int)
    ensures x - 0.5 < n as real <= x + 0.5
  {
    (x + 0.5).Floor
  }

  /** Truncation towards zero, the integer part that `%` removes. */
  function Trunc(x: real): (n: int)
    ensures 0.0 <= x ==> n as real <= x < n as real + 1.0
    ensures x < 0.0 ==> n as real - 1.0 < x <= n as real
  {
    if x >= 0.0 then x.Floor else -((-x).Floor)
  }

  /** `x` is a whole number of `step`s. */
  predicate IsMultipleOf(x: real, step: real)
    requires step != 0.0
  {
    (x / step).Floor as real == x / step
  }

  /**
   * JavaScript `a % 360` on numbers, the one real-valued remainder the core
   * takes: `a - 360 * trunc(a / 360)`.
   */
  function JsRem360(a: real): (r: real)
    ensures 0.0 <= a ==> 0.0 <= r < 360.0
    ensures a < 0.0 ==> -360.0 < r <= 0.0
    ensures IsMultipleOf(a - r, 360.0)
  {
    var t := Trunc(a / 360.0);
    WholeTurnsBelow(a, t);
    a - 360.0 * t as real
  }

  /** The `t` whole turns that truncation takes out of `a` lie within one turn of it. */
  lemma WholeTurnsBelow(a: real, t: int)
    requires t == Trunc(a / 360.0)
    ensures 0.0 <= a ==> 360.0 * t as real <= a < 360.0 * t as real + 360.0
    ensures a < 0.0 ==> 360.0 * t as real - 360.0 < a <= 360.0 * t as real
    ensures IsMultipleOf(a - (a - 360.0 * t as real), 360.0)
  {
    assert a == (a / 360.0) * 360.0;
    assert a - (a - 360.0 * t as real) == 360.0 * t as real;
    assert (360.0 * t as real) / 360.0 == t as real;
  }

  /**
   * JavaScript `a % 12` on an integral number, the one signed integer
   * remainder the core takes: the result keeps the sign of `a` and differs
   * from it by a whole number of twelves. The other integer remainders of the
   * core have non-negative operands, where Dafny's `%` agrees.
   */
  function JsRem12(a: int): (r: int)
    ensures 0 <= a ==> 0 <= r < 12
    ensures a < 0 ==> -12 < r <= 0
    ensures (a - r) % 12 == 0
  {
    if a >= 0 then a % 12 else -((-a) % 12)
  }

}
