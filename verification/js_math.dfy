/** The JavaScript `Math` functions the scores use, over exact reals. */
module JsMath {

  /** `Math.round(x)`: the nearest integer, with halves rounded up. */
  function Round(x: real): (r: int)
    ensures r as real - 0.5 <= x < r as real + 0.5
  {
    (x + 0.5).Floor
  }

  /** `Math.ceil(n / d)` for a non-negative numerator and positive divisor. */
  function CeilDiv(n: nat, d: nat): (r: nat)
    requires d > 0
    ensures (r - 1) * d < n <= r * d
  {
    (n + d - 1) / d
  }

  /** `Math.max(a, b)`. */
  function Max(a: int, b: int): (r: int)
    ensures r >= a && r >= b && (r == a || r == b)
  {
    if a >= b then a else b
  }

  /** `Math.min(hi, Math.max(lo, x))`. */
  function Clamp(x: int, lo: int, hi: int): (r: int)
    requires lo <= hi
    ensures lo <= r <= hi
    ensures lo <= x <= hi ==> r == x
  {
    if x < lo then lo else if x > hi then hi else x
  }
}
