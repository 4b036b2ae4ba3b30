/**
 * `std::time::Duration` as a whole number of nanoseconds, and the
 * aggregations over duration samples that the statistics code shares:
 * minimum, maximum, sum, consecutive differences and a sorted copy.
 */
module Durations {

  /** A `Duration`, in nanoseconds. */
  type Duration = nat

  const NanosPerMilli: nat := 1_000_000
  const NanosPerSec: nat := 1_000_000_000

  /** `Duration::as_millis`: whole milliseconds, truncating. */
  function AsMillis(d: Duration): nat {
    d / NanosPerMilli
  }

  /** `Duration::from_millis`. */
  function FromMillis(ms: nat): Duration {
    ms * NanosPerMilli
  }

  /** A duration in seconds, as `as_secs_f64` gives it (exactly, here). */
  function AsSecs(d: Duration): real {
    d as real / NanosPerSec as real
  }

  /**
   * `f64::round` on a non-negative value: the nearest whole number, halves
   * upwards. `Duration::from_secs_f64` rounds a number of nanoseconds the
   * same way.
   */
  function RoundHalfUp(x: real): (n: nat)
    requires x >= 0.0
    ensures n as real <= x + 0.5 < n as real + 1.0
  {
    (x + 0.5).Floor
  }

  /**
   * `Duration::from_secs_f64(ms / 1000.0)` for a non-negative number of
   * milliseconds. An exact half-nanosecond tie rounds up here, where the
   * source's float conversion rounds it to even.
   */
  function MsToDuration(ms: real): (d: Duration)
    requires ms >= 0.0
    ensures d as real <= ms * 1_000_000.0 + 0.5 < d as real + 1.0
  {
    RoundHalfUp(ms * 1_000_000.0)
  }

  /** A rounded value never exceeds a whole-nanosecond bound of its argument. */
  lemma RoundHalfUpBelow(ns: real, bound: nat)
    requires 0.0 <= ns <= bound as real
    ensures RoundHalfUp(ns) <= bound
  {
  }

  /** `iter().min()` of a non-empty sequence. */
  function MinOf(s: seq<Duration>): (m: Duration)
    requires |s| > 0
    ensures m in s
    ensures forall x :: x in s ==> m <= x
  {
    if |s| == 1 then s[0]
    else
      var rest := MinOf(s[1..]);
      assert forall x :: x in s ==> x == s[0] || x in s[1..];
      if s[0] <= rest then s[0] else rest
  }

  /** `iter().max()` of a non-empty sequence. */
  function MaxOf(s: seq<Duration>): (m: Duration)
    requires |s| > 0
    ensures m in s
    ensures forall x :: x in s ==> x <= m
  {
    if |s| == 1 then s[0]
    else
      var rest := MaxOf(s[1..]);
      assert forall x :: x in s ==> x == s[0] || x in s[1..];
      if s[0] >= rest then s[0] else rest
  }

  /** `iter().sum()`. */
  function Sum(s: seq<Duration>): nat {
    if |s| == 0 then 0 else s[0] + Sum(s[1..])
  }

  /** Multiplication by a natural number is monotone. */
  lemma MulMonotone(n: nat, x: nat, y: nat)
    ensures x <= y ==> n * x <= n * y
  {
    if x <= y {
      assert n * y == n * x + n * (y - x);
    }
  }

  /** Every element lies between the bounds, so the sum lies between n times them. */
  lemma {:induction false} SumBetween(s: seq<Duration>, lo: nat, hi: nat)
    requires forall x :: x in s ==> lo <= x <= hi
    ensures |s| * lo <= Sum(s) <= |s| * hi
  {
    if |s| > 0 {
      var t := s[1..];
      assert forall x :: x in t ==> x in s;
      SumBetween(t, lo, hi);
      assert s[0] in s;
      assert Sum(s) == s[0] + Sum(t);
      MulSucc(|t|, lo);
      MulSucc(|t|, hi);
    }
  }

  lemma MulSucc(m: nat, k: nat)
    ensures (m + 1) * k == m * k + k
  {
  }

  /** Truncating division keeps a value that was bounded by n*lo and n*hi between lo and hi. */
  lemma DivBetween(a: nat, n: nat, lo: nat, hi: nat)
    requires n > 0
    requires n * lo <= a <= n * hi
    ensures lo <= a / n <= hi
  {
    var q, r := a / n, a % n;
    assert a == n * q + r && r < n;
    MulMonotone(n, q + 1, lo);
    assert n * (q + 1) == n * q + n;
    MulMonotone(n, hi + 1, q);
    assert n * (hi + 1) == n * hi + n;
  }

  /** Real division keeps a bound that held for the numerator. */
  lemma RealDivAtMost(a: nat, k: nat, b: nat)
    requires k > 0 && a <= k * b
    ensures a as real / k as real <= b as real
  {
    assert (k * b) as real == k as real * b as real;
    assert a as real <= k as real * b as real;
  }

  /** `sum / len`: the truncated mean lies between the minimum and the maximum. */
  lemma MeanBetween(s: seq<Duration>)
    requires |s| > 0
    ensures MinOf(s) <= Sum(s) / |s| <= MaxOf(s)
  {
    SumBetween(s, MinOf(s), MaxOf(s));
    DivBetween(Sum(s), |s|, MinOf(s), MaxOf(s));
  }

  /** The distance between two durations (no underflow). */
  function AbsDiff(a: Duration, b: Duration): (d: Duration)
    ensures d + (if a < b then a else b) == (if a < b then b else a)
  {
    if b > a then b - a else a - b
  }

  /** `windows(2)` mapped to the absolute difference of each pair. */
  function Diffs(s: seq<Duration>): (r: seq<Duration>)
    ensures |r| == if |s| == 0 then 0 else |s| - 1
    ensures forall i :: 0 <= i < |r| ==> r[i] == AbsDiff(s[i], s[i + 1])
  {
    if |s| < 2 then [] else [AbsDiff(s[0], s[1])] + Diffs(s[1..])
  }

  /** No consecutive difference exceeds the spread of the samples. */
  lemma DiffsWithinSpread(s: seq<Duration>)
    requires |s| > 0
    ensures forall d :: d in Diffs(s) ==> d <= MaxOf(s) - MinOf(s)
  {
    forall d | d in Diffs(s)
      ensures d <= MaxOf(s) - MinOf(s)
    {
      var i :| 0 <= i < |Diffs(s)| && Diffs(s)[i] == d;
      assert s[i] in s && s[i + 1] in s;
    }
  }

  /** Non-decreasing order. */
  predicate Sorted(s: seq<Duration>) {
    forall i, j :: 0 <= i < j < |s| ==> s[i] <= s[j]
  }

  /** Inserts `x` into a sorted sequence. */
  function Insert(x: Duration, s: seq<Duration>): (r: seq<Duration>)
    requires Sorted(s)
    ensures Sorted(r)
    ensures multiset(r) == multiset(s) + multiset{x}
    ensures |r| == |s| + 1 && r[0] == if |s| > 0 && s[0] < x then s[0] else x
  {
    if |s| == 0 then [x]
    else if x <= s[0] then [x] + s
    else
      var rest := Insert(x, s[1..]);
      assert s == [s[0]] + s[1..];
      assert s[0] <= rest[0];
      [s[0]] + rest
  }

  /** `sort()` on a copy: the sorted permutation of `s`. */
  function Sort(s: seq<Duration>): (r: seq<Duration>)
    ensures Sorted(r)
    ensures multiset(r) == multiset(s)
  {
    if |s| == 0 then []
    else
      assert s == [s[0]] + s[1..];
      Insert(s[0], Sort(s[1..]))
  }
}
