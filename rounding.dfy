/**
 * The rounding primitives of the estimation engine, on exact reals.
 *
 * JavaScript's `Math.round(x)` is `Floor(x + 1/2)`: the nearest integer,
 * with halves rounded towards +infinity (so `Math.round(-2.5) == -2`).
 * `Math.round(x * 10) / 10` is the engine's "one decimal" rounding.
 */
module Rounding {

  /** `Math.round(x)`: the unique integer in (x - 1/2, x + 1/2]. */
  function Round(x: real): (r: int)
    ensures x - 0.5 < r as real <= x + 0.5
  {
    (x + 0.5).Floor
  }

  /** x has at most one decimal: ten times x is a whole number. */
  predicate IsTenth(x: real) {
    (x * 10.0).Floor as real == x * 10.0
  }

  /** `Math.round(x * 10) / 10`: a one-decimal value within 0.05 of x. */
  function RoundTenth(x: real): (r: real)
    ensures x - 0.05 < r <= x + 0.05
    ensures IsTenth(r)
  {
    var n := Round(x * 10.0);
    assert (n as real / 10.0) * 10.0 == n as real;
    n as real / 10.0
  }

  /** Rounding never reorders two values. */
  lemma RoundMonotone(x: real, y: real)
    requires x <= y
    ensures Round(x) <= Round(y)
  {
  }

  /** A whole number rounds to itself. */
  lemma RoundWhole(n: int)
    ensures Round(n as real) == n
  {
  }

  /** One-decimal rounding never reorders two values. */
  lemma RoundTenthMonotone(x: real, y: real)
    requires x <= y
    ensures RoundTenth(x) <= RoundTenth(y)
  {
    RoundMonotone(x * 10.0, y * 10.0);
  }

  /** A value that already has one decimal is left alone by one-decimal rounding. */
  lemma RoundTenthFixed(x: real)
    requires IsTenth(x)
    ensures RoundTenth(x) == x
  {
    RoundWhole((x * 10.0).Floor);
  }

  /** a / b is at most k when a is at most k times a positive b. */
  lemma DivAtMost(a: real, b: real, k: real)
    requires b > 0.0 && a <= k * b
    ensures a / b <= k
  {
    var q := a / b;
    assert q * b == a;
    assert (k - q) * b >= 0.0;
  }

  function Min(a: real, b: real): real { if a <= b then a else b }

  function Max(a: real, b: real): real { if a >= b then a else b }

  function Abs(x: real): real { if x < 0.0 then -x else x }
}
