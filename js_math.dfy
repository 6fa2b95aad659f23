/** The JavaScript `Math` rounding operations and the `%` operator on numbers,
    written out over exact reals. */
module JsMath {

  function Min(a: real, b: real): real { if a <= b then a else b }
  function Max(a: real, b: real): real { if a >= b then a else b }

  /** `Math.ceil`: the least integer not below x. */
  function Ceil(x: real): (r: int)
    ensures x <= r as real < x + 1.0
  {
    -((-x).Floor)
  }

  /** `Math.round`: the nearest integer, halves rounded towards +infinity. */
  function Round(x: real): (r: int)
    ensures x - 0.5 < r as real <= x + 0.5
  {
    (x + 0.5).Floor
  }

  /** Truncation towards zero, as JavaScript's `%` uses for its quotient. */
  function Trunc(x: real): int
  {
    if x >= 0.0 then x.Floor else -((-x).Floor)
  }

  /** `x % m` on JavaScript numbers: the remainder keeps the sign of x. */
  function Rem(x: real, m: real): real
    requires m != 0.0
  {
    x - m * Trunc(x / m) as real
  }
}
