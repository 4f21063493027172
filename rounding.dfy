/** JavaScript's `Math.round` and the integer means the leaderboard displays. */
module Rounding {

  /** `Math.round(x)`: the nearest integer, halves rounded toward +infinity. */
  function JsRound(x: real): (r: int)
    ensures x - 0.5 < r as real <= x + 0.5
  {
    (x + 0.5).Floor
  }

  /** `Math.round(sum / n)` computed exactly on integers. */
  function RoundDiv(sum: int, n: int): (r: int)
    requires n > 0
    ensures r == JsRound(sum as real / n as real)
  {
    RoundDivIsRound(sum, n);
    (2 * sum + n) / (2 * n)
  }

  lemma RoundDivIsRound(sum: int, n: int)
    requires n > 0
    ensures (2 * sum + n) / (2 * n) == JsRound(sum as real / n as real)
  {
    var x := sum as real / n as real;
    assert x + 0.5 == (2 * sum + n) as real / (2 * n) as real by {
      assert x * n as real == sum as real;
      assert (x + 0.5) * (2 * n) as real == (2 * sum + n) as real;
      QuotientUnique(x + 0.5, (2 * sum + n) as real, (2 * n) as real);
    }
    FloorOfQuotient(2 * sum + n, 2 * n);
  }

  /** Integer division by a positive divisor is the floor of the exact quotient. */
  lemma FloorOfQuotient(a: int, d: int)
    requires d > 0
    ensures (a as real / d as real).Floor == a / d
  {
    var q := a / d;
    var y := a as real / d as real;
    assert q * d <= a < q * d + d;
    assert y * d as real == a as real;
    assert (q * d) as real == q as real * d as real;
    assert ((q + 1) * d) as real == (q as real + 1.0) * d as real;
    assert q as real <= y by {
      if y < q as real {
        MulStrict(y, q as real, d as real);
      }
    }
    assert y < q as real + 1.0 by {
      if q as real + 1.0 <= y {
        MulLe(q as real + 1.0, y, d as real);
      }
    }
  }

  lemma QuotientUnique(z: real, a: real, d: real)
    requires d != 0.0 && z * d == a
    ensures z == a / d
  {
  }

  lemma MulStrict(a: real, b: real, c: real)
    requires a < b && c > 0.0
    ensures a * c < b * c
  {
  }

  lemma MulLe(a: real, b: real, c: real)
    requires a <= b && c > 0.0
    ensures a * c <= b * c
  {
  }

  /** Rounding never reverses the order of two values. */
  lemma JsRoundMonotone(x: real, y: real)
    requires x <= y
    ensures JsRound(x) <= JsRound(y)
  {
  }

  /** An integer is its own rounding. */
  lemma JsRoundInteger(k: int)
    ensures JsRound(k as real) == k
  {
  }

  /** A rounded value inside [lo, hi], for integer bounds, stays inside. */
  lemma JsRoundWithin(x: real, lo: int, hi: int)
    requires lo as real <= x <= hi as real
    ensures lo <= JsRound(x) <= hi
  {
    JsRoundMonotone(lo as real, x);
    JsRoundMonotone(x, hi as real);
    JsRoundInteger(lo);
    JsRoundInteger(hi);
  }

  /** The rounded mean of n values inside [lo, hi] is inside [lo, hi]. */
  lemma RoundDivWithin(sum: int, n: int, lo: int, hi: int)
    requires n > 0 && n * lo <= sum <= n * hi
    ensures lo <= RoundDiv(sum, n) <= hi
  {
    var x := sum as real / n as real;
    assert x * n as real == sum as real;
    assert lo as real <= x by {
      assert lo as real * n as real <= x * n as real;
    }
    assert x <= hi as real by {
      assert x * n as real <= hi as real * n as real;
    }
    JsRoundWithin(x, lo, hi);
  }
}
