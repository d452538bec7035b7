/**
 The delay before a `-32043` retry: what the server asked for, multiplied by one and a
 half for each retry already made, and clamped between one and ten seconds.  Floating
 point is read as exact reals; the 32-bit cast of the retry count is kept.
 */
module Backoff {

  const CAP_MS := 10_000.0
  const FLOOR_MS := 1_000.0

  /** The `as i32` cast of an unsigned 32-bit count. */
  function AsI32(n: nat): (r: int)
    requires n < 0x1_0000_0000
  {
    if n < 0x8000_0000 then n else n - 0x1_0000_0000
  }

  function Pow(n: int): (r: real)
    ensures r > 0.0
    decreases if n < 0 then -n else n
  {
    if n == 0 then 1.0 else if n > 0 then 1.5 * Pow(n - 1) else Pow(n + 1) / 1.5
  }

  function ComputeBackoff(retryAfterSecs: nat, retries: nat): (ms: int)
    requires retries < 0x1_0000_0000
  {
    Clamp(Grown(retryAfterSecs, AsI32(retries))).Floor
  }

  function Grown(retryAfterSecs: nat, n: int): (ms: real) {
    retryAfterSecs as real * 1000.0 * Pow(n)
  }

  /** Capped first, floored second. */
  function Clamp(ms: real): (r: real) {
    var capped := if ms < CAP_MS then ms else CAP_MS;
    if capped < FLOOR_MS then FLOOR_MS else capped
  }

  /** Every delay lies between one and ten seconds. */
  lemma WithinBand(retryAfterSecs: nat, retries: nat)
    requires retries < 0x1_0000_0000
    ensures 1_000 <= ComputeBackoff(retryAfterSecs, retries) <= 10_000
  {
  }

  lemma {:induction false} PowGrows(m: int, n: int)
    requires m <= n
    ensures Pow(m) <= Pow(n)
    decreases n - m
  {
    if m == n {
    } else {
      PowGrows(m, n - 1);
      PowStep(n);
    }
  }

  lemma PowStep(n: int)
    ensures Pow(n) == 1.5 * Pow(n - 1)
  {
    if n <= 0 {
      assert Pow(n - 1) == Pow(n) / 1.5;
    }
  }

  lemma ScaleGrows(a: real, x: real, y: real)
    requires 0.0 <= a && x <= y
    ensures a * x <= a * y
  {
  }

  lemma GrownGrows(retryAfterSecs: nat, m: int, n: int)
    requires m <= n
    ensures Grown(retryAfterSecs, m) <= Grown(retryAfterSecs, n)
  {
    PowGrows(m, n);
    ScaleGrows(retryAfterSecs as real * 1000.0, Pow(m), Pow(n));
  }

  /** For a constant `retry_after` the delays never shrink, as long as the retry count fits the signed cast. */
  lemma NonDecreasing(retryAfterSecs: nat, m: nat, n: nat)
    requires m <= n < 0x8000_0000
    ensures ComputeBackoff(retryAfterSecs, m) <= ComputeBackoff(retryAfterSecs, n)
  {
    GrownGrows(retryAfterSecs, m, n);
    ClampGrows(Grown(retryAfterSecs, m), Grown(retryAfterSecs, n));
  }

  lemma ClampGrows(x: real, y: real)
    requires x <= y
    ensures Clamp(x).Floor <= Clamp(y).Floor
  {
    assert Clamp(x) <= Clamp(y);
  }

  lemma {:induction false} PowNegativeSmall(n: int)
    requires n <= 0
    ensures Pow(n) <= 1.0
    decreases -n
  {
    if n == 0 {
    } else {
      PowNegativeSmall(n + 1);
    }
  }

  /** Past 2^31 retries the cast turns the growth into decay, so the delay collapses to the floor. */
  lemma CastShrinksDelay()
    ensures ComputeBackoff(1_000, 0x7FFF_FFFF) == 10_000
    ensures ComputeBackoff(1, 0x8000_0000) == 1_000
    ensures ComputeBackoff(1, 0x7FFF_FFFF) > ComputeBackoff(1, 0x8000_0000)
  {
    PowGrows(6, 0x7FFF_FFFF);
    assert Pow(6) > 10.0 by {
      PowStep(1);
      PowStep(2);
      PowStep(3);
      PowStep(4);
      PowStep(5);
      PowStep(6);
    }
    PowNegativeSmall(-0x8000_0000);
    ScaleGrows(1_000_000.0, 10.0, Pow(0x7FFF_FFFF));
    ScaleGrows(1_000.0, 10.0, Pow(0x7FFF_FFFF));
    ScaleGrows(1_000.0, Pow(-0x8000_0000), 1.0);
  }

  /** The delays are non-decreasing over a whole retry budget exactly when the budget fits the signed cast. */
  lemma NonDecreasingIffBudgetFits(budget: nat)
    requires budget <= 0xFFFF_FFFF
    ensures (forall a: nat, m: nat, n: nat :: m <= n < budget ==> ComputeBackoff(a, m) <= ComputeBackoff(a, n))
            <==> budget <= 0x8000_0000
  {
    if budget <= 0x8000_0000 {
      forall a: nat, m: nat, n: nat | m <= n < budget ensures ComputeBackoff(a, m) <= ComputeBackoff(a, n) {
        NonDecreasing(a, m, n);
      }
    } else {
      CastShrinksDelay();
    }
  }

  // ---------- The delay in whole numbers ----------

  function Power(b: nat, e: nat): (r: nat)
    ensures b > 0 ==> r > 0
  {
    if e == 0 then 1 else b * Power(b, e - 1)
  }

  lemma {:induction false} PowIsFraction(n: nat)
    ensures Pow(n) * Power(2, n) as real == Power(3, n) as real
  {
    if n == 0 {
    } else {
      PowIsFraction(n - 1);
      var p, a, b := Pow(n - 1), Power(2, n - 1), Power(3, n - 1);
      assert Power(2, n) as real == 2.0 * a as real && Power(3, n) as real == 3.0 * b as real;
      assert (1.5 * p) * (2.0 * a as real) == 3.0 * (p * a as real);
    }
  }

  lemma GrownIsFraction(secs: nat, n: nat)
    ensures Grown(secs, n) * Power(2, n) as real == (secs * 1000 * Power(3, n)) as real
  {
    PowIsFraction(n);
    var k, p, a := secs as real * 1000.0, Pow(n), Power(2, n) as real;
    assert (k * p) * a == k * (p * a);
  }

  lemma TimesGrows(a: int, b: int, y: nat)
    requires a <= b
    ensures a * y <= b * y
  {
  }

  lemma QuotientIs(x: nat, y: nat, q: int)
    requires 0 < y && q * y <= x < (q + 1) * y
    ensures x / y == q
  {
    var d := x / y;
    assert d * y <= x < (d + 1) * y;
    if d < q {
      TimesGrows(d + 1, q, y);
      assert false;
    } else if q < d {
      TimesGrows(q + 1, d, y);
      assert false;
    }
  }

  lemma FloorIsQuotient(g: real, x: nat, y: nat)
    requires 0 < y && g * y as real == x as real && 0.0 <= g
    ensures g.Floor == x / y
  {
    var q := g.Floor;
    AtLeast(g, x, y, q);
    AtLeast(g, x, y, q + 1);
    QuotientIs(x, y, q);
  }

  lemma AtLeast(g: real, x: nat, y: nat, c: nat)
    requires 0 < y && g * y as real == x as real
    ensures c as real <= g <==> c * y <= x
  {
    if c as real <= g {
      assert c as real * y as real <= g * y as real;
    } else {
      assert g * y as real < c as real * y as real;
    }
  }

  /**
   The delay in whole numbers: `retry_after` seconds, times three halves for each retry
   made, as milliseconds rounded down, held between one and ten seconds.
   */
  lemma BackoffIs(retryAfterSecs: nat, retries: nat)
    requires retries < 0x8000_0000
    ensures var x, y := retryAfterSecs * 1000 * Power(3, retries), Power(2, retries);
            ComputeBackoff(retryAfterSecs, retries)
            == if 10_000 * y <= x then 10_000 else if x < 1_000 * y then 1_000 else x / y
  {
    var g, x, y := Grown(retryAfterSecs, retries), retryAfterSecs * 1000 * Power(3, retries), Power(2, retries);
    GrownIsFraction(retryAfterSecs, retries);
    AtLeast(g, x, y, 10_000);
    AtLeast(g, x, y, 1_000);
    if 1_000 * y <= x {
      FloorIsQuotient(g, x, y);
    }
  }
}
