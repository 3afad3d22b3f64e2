/**
 * The arithmetic the simulator relies on, written out over unbounded reals and
 * integers: Python's max/min clamps, the floored float remainder `h % 360`, and
 * `round(v, digits)` (round-half-to-even on the exact value).
 */
module Numeric {

  function Abs(x: real): real {
    if x < 0.0 then -x else x
  }

  /** Python's `max(a, b)` and `min(a, b)` on reals. */
  function Max(a: real, b: real): real {
    if a >= b then a else b
  }

  function Min(a: real, b: real): real {
    if a <= b then a else b
  }

  /** Python's `max(a, b)` on integers. */
  function MaxInt(a: int, b: int): int {
    if a >= b then a else b
  }

  /**
   * `max(lo, min(hi, v))`, the clamp the simulator writes for speeds,
   * wall-bounded coordinates and tag heights. When the bounds are inverted the
   * lower one wins, as it does in Python.
   */
  function Clamp(v: real, lo: real, hi: real): (r: real)
    ensures lo <= r <= Max(lo, hi)
    ensures lo <= v <= hi ==> r == v
    ensures lo <= hi && v <= lo ==> r == lo
    ensures lo <= hi && hi <= v ==> r == hi
  {
    Max(lo, Min(hi, v))
  }

  /** `max(lo, min(hi, v))` on integers (the RSSI clamp). */
  function ClampInt(v: int, lo: int, hi: int): (r: int)
    ensures lo <= r
    ensures lo <= hi ==> r <= hi
    ensures lo <= v <= hi ==> r == v
    ensures lo <= hi && v <= lo ==> r == lo
    ensures lo <= hi && hi <= v ==> r == hi
  {
    MaxInt(lo, if hi <= v then hi else v)
  }

  /**
   * Python's `h % 360` on floats: the remainder takes the sign of the divisor,
   * so every heading lands in [0, 360).
   */
  function Mod360(h: real): (r: real)
    ensures 0.0 <= r < 360.0
    ensures 0.0 <= h < 360.0 ==> r == h
  {
    h - 360.0 * (h / 360.0).Floor as real
  }

  /** Turning by whole revolutions does not change a normalised heading. */
  lemma Mod360Periodic(h: real, k: int)
    ensures Mod360(h + 360.0 * k as real) == Mod360(h)
  {
    var f := (h / 360.0).Floor;
    assert (h + 360.0 * k as real) / 360.0 == h / 360.0 + k as real;
    assert f as real <= h / 360.0 < f as real + 1.0;
    assert ((h + 360.0 * k as real) / 360.0).Floor == f + k;
  }

  function Pow10(n: nat): (r: nat)
    ensures r >= 1
  {
    if n == 0 then 1 else 10 * Pow10(n - 1)
  }

  /** The integer nearest to `v`, ties going to the even neighbour. */
  function RoundHalfEven(v: real): (n: int)
    ensures v - 0.5 <= n as real <= v + 0.5
    ensures (n as real == v + 0.5 || n as real == v - 0.5) ==> n % 2 == 0
  {
    var f := v.Floor;
    var frac := v - f as real;
    if frac < 0.5 then f
    else if frac > 0.5 then f + 1
    else if f % 2 == 0 then f
    else f + 1
  }

  /** `x` is a whole multiple of 1/q. */
  predicate OnGrid(x: real, q: nat) {
    (x * (q as real)).Floor as real == x * (q as real)
  }

  /** A grid point `r` exactly halfway between grid points either side of `v` is an even multiple of 1/q. */
  predicate TieToEven(r: real, v: real, q: nat) {
    Abs(r - v) * (q as real) == 0.5 ==> (r * (q as real)).Floor % 2 == 0
  }

  /**
   * Python's `round(v, digits)` for a non-negative number of digits: the
   * multiple of 10^-digits nearest to `v`, a tie going to the even multiple.
   */
  function Round(v: real, digits: nat): (r: real)
    ensures OnGrid(r, Pow10(digits))
    ensures Abs(r - v) * (Pow10(digits) as real) <= 0.5
    ensures TieToEven(r, v, Pow10(digits))
  {
    ScaledRoundSpec(v, Pow10(digits));
    ScaledRound(v, Pow10(digits))
  }

  /** `v` scaled by `q`, rounded to an integer half to even, and scaled back. */
  function ScaledRound(v: real, q: nat): real
    requires q > 0
  {
    RoundHalfEven(v * (q as real)) as real / (q as real)
  }

  lemma ScaledRoundSpec(v: real, q: nat)
    requires q > 0
    ensures OnGrid(ScaledRound(v, q), q)
    ensures Abs(ScaledRound(v, q) - v) * (q as real) <= 0.5
    ensures TieToEven(ScaledRound(v, q), v, q)
  {
    var n := RoundHalfEven(v * (q as real));
    ScaledRounding(n, v, q, n as real / (q as real));
  }

  /**
   * Dividing the rounded scaled value back by the scale lands on the grid of
   * multiples of 1/q, with the error and the tie rule scaled by q.
   */
  lemma ScaledRounding(n: int, v: real, q: nat, r: real)
    requires q > 0 && r == n as real / (q as real)
    requires v * (q as real) - 0.5 <= n as real <= v * (q as real) + 0.5
    requires (n as real == v * (q as real) + 0.5 || n as real == v * (q as real) - 0.5) ==> n % 2 == 0
    ensures OnGrid(r, q)
    ensures Abs(r - v) * (q as real) <= 0.5
    ensures TieToEven(r, v, q)
  {
    var p := q as real;
    GridPoint(n, q, r);
    ScaledError(n as real, v, p);
    assert (r - v) * p == n as real - v * p;
    if r - v < 0.0 {
      assert Abs(r - v) * p == -((r - v) * p);
    }
  }

  /** An integer divided by a positive whole scale is on that scale's grid. */
  lemma GridPoint(n: int, q: nat, r: real)
    requires q > 0 && r == n as real / (q as real)
    ensures r * (q as real) == n as real
    ensures OnGrid(r, q)
  {
    DivThenMul(n as real, q as real);
  }

  lemma ScaledError(n: real, v: real, p: real)
    requires p > 0.0
    ensures (n / p - v) * p == n - v * p
  {
  }

  lemma DivThenMul(a: real, p: real)
    requires p != 0.0
    ensures (a / p) * p == a
  {
  }

  /** Rounding an already rounded value changes nothing. */
  lemma RoundIdempotent(v: real, digits: nat)
    ensures Round(Round(v, digits), digits) == Round(v, digits)
  {
    var n := RoundHalfEven(v * (Pow10(digits) as real));
    assert Round(v, digits) == n as real / (Pow10(digits) as real);
    DivThenMul(n as real, Pow10(digits) as real);
    assert RoundHalfEven(n as real) == n;
  }

}
