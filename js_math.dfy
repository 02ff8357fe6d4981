/**
 * JavaScript's integer arithmetic as the frontend uses it: Math.floor of a
 * quotient, and the `%` operator, whose result takes the sign of the dividend.
 * Times are whole milliseconds (Date.getTime()).
 */
module JsMath {

  /** Math.floor(a / d) for a positive divisor: Dafny's division already rounds down then. */
  function FloorDiv(a: int, d: int): (q: int)
    requires d > 0
    ensures q * d <= a < q * d + d
  {
    a / d
  }

  /** a % d in JavaScript for a positive divisor: truncated, so negative for a negative dividend. */
  function Rem(a: int, d: int): (r: int)
    requires d > 0
    ensures a >= 0 ==> 0 <= r < d && r == a % d
    ensures a < 0 ==> -d < r <= 0
    ensures a - r == (if a >= 0 then a / d else -((-a) / d)) * d
  {
    if a >= 0 then a % d else -((-a) % d)
  }
}
