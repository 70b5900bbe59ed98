/**
 * JavaScript number operations used by the application, on exact reals: `Math.floor`,
 * `Math.ceil`, `Math.round` (halves round up), `%` (truncating remainder), `Math.min`
 * and `Math.max`.
 */
module JsNumber {
  /** `Math.floor`. */
  function Floor(x: real): (r: int)
    ensures r as real <= x < r as real + 1.0
  {
    x.Floor
  }

  /** `Math.ceil`. */
  function Ceil(x: real): (r: int)
    ensures x <= r as real < x + 1.0
  {
    -((-x).Floor)
  }

  /** `Math.round`: the nearest integer, halves going towards positive infinity. */
  function Round(x: real): (r: int)
    ensures r as real - 0.5 <= x < r as real + 0.5
  {
    (x + 0.5).Floor
  }

  /** Truncation towards zero. */
  function Trunc(y: real): (t: int)
    ensures y >= 0.0 ==> t == Floor(y)
    ensures y < 0.0 ==> t == -Floor(-y)
  {
    if y >= 0.0 then y.Floor else -((-y).Floor)
  }

  /**
   * `x % m` for a positive modulus: truncating division, so the remainder takes the sign of
   * `x`. For a non-negative `x` truncating and flooring agree.
   */
  function Rem(x: real, m: real): (r: real)
    requires m > 0.0
    ensures x >= 0.0 ==> r == x - Floor(x / m) as real * m
  {
    x - Trunc(x / m) as real * m
  }

  /** A fraction in [0, 1) of a positive amount is in [0, amount). */
  lemma FractionOf(f: real, m: real)
    requires 0.0 <= f < 1.0 && m > 0.0
    ensures 0.0 <= f * m < m
  {
    assert (1.0 - f) * m > 0.0;
  }

  /** The floor of a value in [0, n) is a whole number below `n`. */
  lemma FloorBelow(y: real, n: nat)
    requires 0.0 <= y < n as real
    ensures 0 <= Floor(y) < n
  {
  }

  /** `n % m` on whole numbers: the remainder takes the sign of `n`, and negating `n` negates it. */
  function IntRem(n: int, m: int): (r: int)
    requires m > 0
    ensures n >= 0 ==> r == n % m
    ensures n < 0 ==> -m < r <= 0 && -r == (-n) % m
  {
    if n >= 0 then n % m else -((-n) % m)
  }

  function Min(a: real, b: real): (r: real)
    ensures r <= a && r <= b && (r == a || r == b)
  {
    if a <= b then a else b
  }

  function Max(a: real, b: real): (r: real)
    ensures r >= a && r >= b && (r == a || r == b)
  {
    if a >= b then a else b
  }
}
