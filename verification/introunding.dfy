/**
  Division of a non-negative count of units by a positive step, rounded
  down (floor) or to the nearest multiple with ties away from zero
  (half-up). Quantizing a decimal to fewer places is one of these divisions
  by a power of ten.
 */
module IntRounding {
  import opened Digits

  /** The distance between two integers. */
  function Dist(a: int, b: int): nat {
    if a >= b then a - b else b - a
  }

  /** u / d rounded to nearest, a remainder of exactly half a step rounding up. */
  function HalfUpDiv(u: nat, d: nat): nat
    requires d > 0
  {
    if 2 * (u % d) >= d then u / d + 1 else u / d
  }

  /** The floor quotient is the greatest j whose multiple j·d does not exceed u. */
  lemma FloorDivGreatest(u: nat, d: nat, j: int)
    requires d > 0
    ensures j * d <= u <==> j <= u / d
  {
    var q := u / d;
    assert u == q * d + u % d;
    if j <= q {
      MulLe(j, q, d);
    } else {
      assert (q + 1) * d == q * d + d;
      MulLe(q + 1, j, d);
    }
  }

  /** Half-up division lands on a multiple of d that is as close to u as any other. */
  lemma HalfUpDivNearest(u: nat, d: nat, j: int)
    requires d > 0
    ensures Dist(u, HalfUpDiv(u, d) * d) <= Dist(u, j * d)
  {
    var q, r := u / d, u % d;
    assert u == q * d + r;
    assert (q + 1) * d == q * d + d;
    assert Dist(u, HalfUpDiv(u, d) * d) <= r && Dist(u, HalfUpDiv(u, d) * d) <= d - r;
    if j <= q {
      MulLe(j, q, d);
    } else {
      MulLe(q + 1, j, d);
    }
  }

  /** Half-up division is off by at most half a step. */
  lemma HalfUpDivHalfStep(u: nat, d: nat)
    requires d > 0
    ensures 2 * Dist(u, HalfUpDiv(u, d) * d) <= d
  {
    var q, r := u / d, u % d;
    assert u == q * d + r;
    assert (q + 1) * d == q * d + d;
  }

  /** Half-up division overshoots u exactly when the remainder is at least half a step. */
  lemma HalfUpDivAbove(u: nat, d: nat)
    requires d > 0
    ensures HalfUpDiv(u, d) * d > u <==> 2 * (u % d) >= d
    ensures HalfUpDiv(u, d) * d <= u ==> HalfUpDiv(u, d) == u / d
  {
    var q, r := u / d, u % d;
    assert u == q * d + r;
    assert (q + 1) * d == q * d + d;
  }

  /**
    Half-up division is strictly closer to u than the floor quotient exactly
    when the remainder exceeds half a step.
   */
  lemma HalfUpDivStrictlyCloser(u: nat, d: nat)
    requires d > 0
    ensures Dist(u, HalfUpDiv(u, d) * d) < Dist(u, (u / d) * d) <==> 2 * (u % d) > d
  {
    var q, r := u / d, u % d;
    assert u == q * d + r;
    assert (q + 1) * d == q * d + d;
  }
}
