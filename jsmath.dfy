/** The few JavaScript `Math` operations and the `%` operator that the
    application uses, over mathematical reals. */
module JsMath {

  /** Math.abs */
  function Abs(x: real): (r: real)
    ensures r >= 0.0
    ensures r == x || r == -x
  {
    if x < 0.0 then -x else x
  }

  /** Math.min of two numbers */
  function Min(a: real, b: real): (r: real)
    ensures r <= a && r <= b
    ensures r == a || r == b
  {
    if a <= b then a else b
  }

  /** Math.max of two numbers */
  function Max(a: real, b: real): (r: real)
    ensures r >= a && r >= b
    ensures r == a || r == b
  {
    if a >= b then a else b
  }

  /** Math.min of two integers, as used on array indices */
  function MinInt(a: int, b: int): (r: int)
    ensures r <= a && r <= b
    ensures r == a || r == b
  {
    if a <= b then a else b
  }

  /** Math.trunc: the integer part, rounding toward zero. */
  function Trunc(x: real): (r: int)
    ensures x >= 0.0 ==> 0 <= r && r as real <= x < r as real + 1.0
    ensures x < 0.0 ==> r <= 0 && r as real - 1.0 < x <= r as real
  {
    if x >= 0.0 then x.Floor else -((-x).Floor)
  }

  /** The JavaScript expression `x % 1`: the remainder takes the sign of the
      dividend, so it lies in [0, 1) for a nonnegative `x` and in (-1, 0]
      for a negative one, and `x` minus it is a whole number. */
  function Rem1(x: real): (r: real)
    ensures x >= 0.0 ==> 0.0 <= r < 1.0
    ensures x < 0.0 ==> -1.0 < r <= 0.0
    ensures 0.0 <= x < 1.0 ==> r == x
    ensures (x - r).Floor as real == x - r
  {
    x - Trunc(x) as real
  }
}
