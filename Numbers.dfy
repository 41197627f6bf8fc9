/** Integer arithmetic the screens use: `Math.min`, `Math.round(a / b)` on
    non-negative operands, and the rounded mean of a list of scores. */
module Numbers {

  function Min(a: int, b: int): (r: int)
    ensures r <= a && r <= b && (r == a || r == b)
  {
    if a <= b then a else b
  }

  /** `Math.round(a / b)` for `a >= 0` and `b > 0`: the integer nearest to
      `a / b`, a half rounded up. */
  function RoundDiv(a: nat, b: nat): (r: nat)
    requires b > 0
    ensures b * (2 * r - 1) <= 2 * a < b * (2 * r + 1)
  {
    (2 * a + b) / (2 * b)
  }

  /** Multiplying by a positive factor keeps a strict order, so the order can be read back. */
  lemma MulCancel(b: nat, x: int, y: int)
    requires b > 0 && b * x < b * y
    ensures x < y
  {
    assert b * (y - x) == b * y - b * x;
  }

  /** A quotient of at most `k` rounds to at most `k`. */
  lemma RoundDivAtMost(a: nat, b: nat, k: nat)
    requires b > 0 && a <= k * b
    ensures RoundDiv(a, b) <= k
  {
    var r: int := RoundDiv(a, b);
    assert b * (2 * k + 1) == 2 * (k * b) + b;
    MulCancel(b, 2 * r - 1, 2 * k + 1);
  }

  /** A quotient of at least `k` rounds to at least `k`. */
  lemma RoundDivAtLeast(a: nat, b: nat, k: nat)
    requires b > 0 && k * b <= a
    ensures k <= RoundDiv(a, b)
  {
    var r: int := RoundDiv(a, b);
    assert b * (2 * k - 1) == 2 * (k * b) - b;
    MulCancel(b, 2 * k - 1, 2 * r + 1);
  }

  /** Rounding keeps the order of the dividends. */
  lemma RoundDivMonotone(a1: nat, a2: nat, b: nat)
    requires b > 0 && a1 <= a2
    ensures RoundDiv(a1, b) <= RoundDiv(a2, b)
  {
    var r1: int, r2: int := RoundDiv(a1, b), RoundDiv(a2, b);
    MulCancel(b, 2 * r1 - 1, 2 * r2 + 1);
  }

  /** An exact quotient is its own rounding. */
  lemma RoundDivExact(k: nat, b: nat)
    requires b > 0
    ensures RoundDiv(k * b, b) == k
  {
    RoundDivAtMost(k * b, b, k);
    RoundDivAtLeast(k * b, b, k);
  }

  /** A share of `part` out of `total` as a rounded percentage is at most 100,
      exactly 100 for the whole and 0 for nothing. */
  lemma PercentOf(part: nat, total: nat)
    requires total > 0
    ensures part <= total ==> RoundDiv(100 * part, total) <= 100
    ensures part == total ==> RoundDiv(100 * part, total) == 100
    ensures part == 0 ==> RoundDiv(100 * part, total) == 0
  {
    if part <= total {
      RoundDivAtMost(100 * part, total, 100);
    }
    if part == total {
      RoundDivExact(100, total);
    }
    if part == 0 {
      RoundDivExact(0, total);
    }
  }

  /** `s.reduce((acc, x) => acc + x, 0)`. */
  function Sum(s: seq<nat>): nat
  {
    if s == [] then 0 else Sum(s[..|s| - 1]) + s[|s| - 1]
  }

  lemma {:induction false} SumBounds(s: seq<nat>, lo: nat, hi: nat)
    requires forall i :: 0 <= i < |s| ==> lo <= s[i] <= hi
    ensures |s| * lo <= Sum(s) <= |s| * hi
  {
    if s != [] {
      var n := |s|;
      SumBounds(s[..n - 1], lo, hi);
      assert n * lo == (n - 1) * lo + lo;
      assert n * hi == (n - 1) * hi + hi;
    }
  }

  /** `n > 0 ? Math.round(sum / n) : 0`: the rounded mean, 0 for no values. */
  function MeanRounded(s: seq<nat>): (r: nat)
    ensures s == [] ==> r == 0
  {
    if |s| > 0 then RoundDiv(Sum(s), |s|) else 0
  }

  /** The rounded mean lies between the smallest and the largest bound of the values. */
  lemma MeanRoundedBounds(s: seq<nat>, lo: nat, hi: nat)
    requires |s| > 0
    requires forall i :: 0 <= i < |s| ==> lo <= s[i] <= hi
    ensures lo <= MeanRounded(s) <= hi
  {
    SumBounds(s, lo, hi);
    RoundDivAtMost(Sum(s), |s|, hi);
    RoundDivAtLeast(Sum(s), |s|, lo);
  }

  /** A cap on every value caps the rounded mean. */
  lemma MeanRoundedAtMost(s: seq<nat>, hi: nat)
    ensures (forall i :: 0 <= i < |s| ==> s[i] <= hi) ==> MeanRounded(s) <= hi
  {
    if |s| > 0 && forall i :: 0 <= i < |s| ==> s[i] <= hi {
      MeanRoundedBounds(s, 0, hi);
    }
  }
}
