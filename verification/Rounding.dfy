/** `Math.round` of a quotient and the clamping of basis points, in exact arithmetic. */
module Rounding {
  import opened Common

  /** Math.round(n / d): halves go up, also below zero. */
  function RoundDiv(n: int, d: int): int
    requires d > 0
  {
    (2 * n + d) / (2 * d)
  }

  lemma Scaled(a: int, b: int, d: int)
    requires a <= b && d >= 0
    ensures a * d <= b * d
  {
  }

  /** The rounded quotient is the only integer within half of the exact one, halves going up. */
  lemma RoundDivExact(n: int, d: int, r: int)
    requires d > 0
    ensures RoundDiv(n, d) == r <==> 2 * r * d - d <= 2 * n < 2 * r * d + d
  {
    var q := RoundDiv(n, d);
    assert 2 * n + d == q * (2 * d) + (2 * n + d) % (2 * d);
    assert q * (2 * d) == 2 * q * d && 2 * r * d == r * (2 * d);
    if 2 * r * d - d <= 2 * n < 2 * r * d + d {
      if q < r { Scaled(q + 1, r, 2 * d); }
      if r < q { Scaled(r + 1, q, 2 * d); }
    }
  }

  lemma RoundDivMonotone(m: int, n: int, d: int)
    requires d > 0 && m <= n
    ensures RoundDiv(m, d) <= RoundDiv(n, d)
  {
    var p, q := RoundDiv(m, d), RoundDiv(n, d);
    RoundDivExact(m, d, p);
    RoundDivExact(n, d, q);
    if q < p { Scaled(q + 1, p, 2 * d); }
  }

  lemma RoundDivOfMultiple(a: int, d: int)
    requires d > 0
    ensures RoundDiv(a * d, d) == a
  {
    RoundDivExact(a * d, d, a);
  }

  /** A quotient between two integers rounds to something between them. */
  lemma RoundDivBetween(n: int, d: int, lo: int, hi: int)
    requires d > 0 && lo * d <= n <= hi * d
    ensures lo <= RoundDiv(n, d) <= hi
  {
    RoundDivOfMultiple(lo, d);
    RoundDivOfMultiple(hi, d);
    RoundDivMonotone(lo * d, n, d);
    RoundDivMonotone(n, hi * d, d);
  }

  function ClampBps(value: int): (r: int)
    ensures 0 <= r <= 10_000
  {
    Max(0, Min(10_000, value))
  }

  function Sum(xs: seq<int>): int {
    if xs == [] then 0 else Sum(xs[..|xs| - 1]) + xs[|xs| - 1]
  }

  lemma {:induction false} SumBetween(xs: seq<int>, lo: int, hi: int)
    requires forall i :: 0 <= i < |xs| ==> lo <= xs[i] <= hi
    ensures lo * |xs| <= Sum(xs) <= hi * |xs|
  {
    if xs != [] {
      var n := |xs| - 1;
      SumBetween(xs[..n], lo, hi);
      assert lo * |xs| == lo * n + lo && hi * |xs| == hi * n + hi;
    }
  }

  lemma {:induction false} SumMonotone(xs: seq<int>, ys: seq<int>)
    requires |xs| == |ys| && forall i :: 0 <= i < |xs| ==> xs[i] <= ys[i]
    ensures Sum(xs) <= Sum(ys)
  {
    if xs != [] { SumMonotone(xs[..|xs| - 1], ys[..|xs| - 1]); }
  }

  /** `average`: null for no values, otherwise the clamped rounded mean. */
  function Average(xs: seq<int>): Option<int> {
    if xs == [] then None else Some(ClampBps(RoundDiv(Sum(xs), |xs|)))
  }

  lemma AverageMonotone(xs: seq<int>, ys: seq<int>)
    requires |xs| == |ys| > 0 && forall i :: 0 <= i < |xs| ==> xs[i] <= ys[i]
    ensures Average(xs).value <= Average(ys).value
  {
    SumMonotone(xs, ys);
    RoundDivMonotone(Sum(xs), Sum(ys), |xs|);
  }

  lemma AverageBetween(xs: seq<int>, lo: int, hi: int)
    requires xs != [] && 0 <= lo <= hi <= 10_000 && forall i :: 0 <= i < |xs| ==> lo <= xs[i] <= hi
    ensures lo <= Average(xs).value <= hi
  {
    SumBetween(xs, lo, hi);
    RoundDivBetween(Sum(xs), |xs|, lo, hi);
  }
}
