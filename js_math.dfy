/**
 * The few JavaScript `Math` operations the application uses, over exact
 * reals and integers (floating-point rounding is not modelled).
 */
module JsMath {

  /** `Math.max(a, b)` */
  function Max(a: real, b: real): (r: real)
    ensures r >= a && r >= b
    ensures r == a || r == b
  {
    if a >= b then a else b
  }

  /** `Math.min(a, b)` */
  function Min(a: real, b: real): (r: real)
    ensures r <= a && r <= b
    ensures r == a || r == b
  {
    if a <= b then a else b
  }

  /** `Math.max(a, b)` on integers */
  function MaxInt(a: int, b: int): (r: int)
    ensures r >= a && r >= b
    ensures r == a || r == b
  {
    if a >= b then a else b
  }

  /** `Math.min(a, b)` on integers */
  function MinInt(a: int, b: int): (r: int)
    ensures r <= a && r <= b
    ensures r == a || r == b
  {
    if a <= b then a else b
  }

  /** `Math.floor(x)` */
  function Floor(x: real): (r: int)
    ensures r as real <= x < r as real + 1.0
  {
    x.Floor
  }

  /** `Math.trunc(x)`: rounds toward zero. */
  function Trunc(x: real): (r: int)
    ensures x >= 0.0 ==> r == Floor(x)
    ensures x < 0.0 ==> r == -Floor(-x)
  {
    if x >= 0.0 then x.Floor else -((-x).Floor)
  }

  /** JavaScript `x % y` on numbers: `x - y * trunc(x / y)`, so the remainder takes the sign of `x`. */
  function Rem(x: real, y: real): real
    requires y != 0.0
  {
    x - y * (Trunc(x / y) as real)
  }

  /** `x % 60`, as the clock displays use it, lies strictly within one minute of zero, on the side of `x`. */
  lemma RemSixty(x: real)
    ensures x >= 0.0 ==> 0.0 <= Rem(x, 60.0) < 60.0
    ensures x < 0.0 ==> -60.0 < Rem(x, 60.0) <= 0.0
    ensures x >= 0.0 ==> Rem(x, 60.0) == x - 60.0 * (Floor(x / 60.0) as real)
  {
  }
}
