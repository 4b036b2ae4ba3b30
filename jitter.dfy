/**
 * Jitter and packet-loss statistics (crates/netdiag-types,
 * diagnostics/jitter.rs): jitter over consecutive RTT samples, and the loss
 * pattern and loss bursts of a success/failure sequence.
 */
module Jitter {
  import opened Wrappers
  import opened Durations
  import PingStats

  // ---------------------------------------------------------------------------
  // Jitter
  // ---------------------------------------------------------------------------

  /**
   * `JitterStats`. `variance` is the square of `stddev` in seconds squared
   * (the square root and its rounding are not modelled).
   */
  datatype JitterStats = JitterStats(
    average: Duration,
    max: Duration,
    min: Duration,
    variance: real,
    sampleCount: nat,
    samples: seq<Duration>)

  /**
   * `JitterStats::from_rtts`: `None` for fewer than two samples; otherwise
   * the absolute differences of consecutive samples, their count, extremes
   * and truncated mean.
   */
  function FromRtts(rtts: seq<Duration>): (r: Option<JitterStats>)
    ensures r.None? <==> |rtts| < 2
    ensures r.Some? ==>
      var j := r.value;
      j.sampleCount == |rtts| - 1 == |j.samples| &&
      (forall i :: 0 <= i < j.sampleCount ==> j.samples[i] == AbsDiff(rtts[i], rtts[i + 1])) &&
      j.min in j.samples && j.max in j.samples &&
      (forall d :: d in j.samples ==> j.min <= d <= j.max) &&
      j.min <= j.average <= j.max &&
      j.average == Sum(j.samples) / j.sampleCount
  {
    if |rtts| < 2 then None
    else
      var jitters := Diffs(rtts);
      var average := Sum(jitters) / |jitters|;
      MeanBetween(jitters);
      var variance := PingStats.SquaredDeviations(jitters, average) / |jitters| as real;
      Some(JitterStats(average, MaxOf(jitters), MinOf(jitters), variance, |jitters|, jitters))
  }

  datatype JitterQuality = Excellent | Good | Fair | Poor | VeryPoor {
    /** Position in the table, best first. */
    function Rank(): nat {
      match this
      case Excellent => 0
      case Good => 1
      case Fair => 2
      case Poor => 3
      case VeryPoor => 4
    }
  }

  /**
   * `JitterStats::quality_rating`: the average jitter in whole milliseconds
   * falls in 0-5, 6-15, 16-30, 31-50 or above 50.
   */
  function JitterQualityRating(j: JitterStats): (q: JitterQuality)
    ensures q == JitterQuality.Excellent <==> AsMillis(j.average) <= 5
    ensures q == JitterQuality.Good <==> 6 <= AsMillis(j.average) <= 15
    ensures q == JitterQuality.Fair <==> 16 <= AsMillis(j.average) <= 30
    ensures q == JitterQuality.Poor <==> 31 <= AsMillis(j.average) <= 50
    ensures q == JitterQuality.VeryPoor <==> AsMillis(j.average) > 50
  {
    var ms := AsMillis(j.average);
    if ms <= 5 then JitterQuality.Excellent
    else if ms <= 15 then JitterQuality.Good
    else if ms <= 30 then JitterQuality.Fair
    else if ms <= 50 then JitterQuality.Poor
    else JitterQuality.VeryPoor
  }

  /** More average jitter never gives a better rating. */
  lemma JitterQualityMonotone(a: JitterStats, b: JitterStats)
    requires a.average <= b.average
    ensures JitterQualityRating(a).Rank() <= JitterQualityRating(b).Rank()
  {
    assert AsMillis(a.average) <= AsMillis(b.average);
  }

  // ---------------------------------------------------------------------------
  // Packet loss
  // ---------------------------------------------------------------------------

  datatype PacketLossStats = PacketLossStats(
    sent: nat,
    received: nat,
    lost: nat,
    lossPercent: real,
    burstCount: nat,
    maxBurstLength: nat,
    lossPattern: seq<nat>)

  /** The number of `true` entries. */
  function CountTrue(r: seq<bool>): (n: nat)
    ensures n <= |r|
  {
    if |r| == 0 then 0 else CountTrue(r[..|r| - 1]) + (if r[|r| - 1] then 1 else 0)
  }

  /** The indices of the `false` entries, in increasing order. */
  function LostIndices(r: seq<bool>): seq<nat> {
    if |r| == 0 then []
    else LostIndices(r[..|r| - 1]) + (if r[|r| - 1] then [] else [|r| - 1])
  }

  /** The length of the run of `false` entries that ends the sequence. */
  function TrailingRun(r: seq<bool>): (n: nat)
    ensures n <= |r|
  {
    if |r| == 0 || r[|r| - 1] then 0 else TrailingRun(r[..|r| - 1]) + 1
  }

  /** The number of runs of `false` entries that a `true` entry has closed. */
  function ClosedBursts(r: seq<bool>): nat {
    if |r| == 0 then 0
    else
      var init := r[..|r| - 1];
      ClosedBursts(init) + (if r[|r| - 1] && TrailingRun(init) > 0 then 1 else 0)
  }

  /** The longest run of `false` entries that a `true` entry has closed. */
  function LongestClosed(r: seq<bool>): nat {
    if |r| == 0 then 0
    else
      var init := r[..|r| - 1];
      if r[|r| - 1] && TrailingRun(init) > LongestClosed(init) then TrailingRun(init)
      else LongestClosed(init)
  }

  /** Every maximal run of `false` entries: the closed ones and a trailing one. */
  function Bursts(r: seq<bool>): nat {
    ClosedBursts(r) + (if TrailingRun(r) > 0 then 1 else 0)
  }

  /** The length of the longest maximal run of `false` entries. */
  function LongestBurst(r: seq<bool>): nat {
    if TrailingRun(r) > LongestClosed(r) then TrailingRun(r) else LongestClosed(r)
  }

  /**
   * `PacketLossStats::from_pattern`: one pass over the outcomes that records
   * each lost index and counts the loss bursts and the longest one.
   */
  method FromPattern(results: seq<bool>) returns (s: PacketLossStats)
    ensures s.sent == |results| && s.received == CountTrue(results)
    ensures s.lost + s.received == s.sent
    ensures s.lossPercent == PingStats.LossPercent(s.lost, s.sent)
    ensures s.lossPattern == LostIndices(results)
    ensures s.burstCount == Bursts(results)
    ensures s.maxBurstLength == LongestBurst(results)
  {
    var sent := |results|;
    var received := CountTrue(results);
    var lost := sent - received;
    var lossPercent := PingStats.LossPercent(lost, sent);
    var lossPattern: seq<nat> := [];
    var burstCount := 0;
    var maxBurstLength := 0;
    var currentBurst := 0;
    var i := 0;
    while i < |results|
      invariant 0 <= i <= |results|
      invariant lossPattern == LostIndices(results[..i])
      invariant currentBurst == TrailingRun(results[..i])
      invariant burstCount == ClosedBursts(results[..i])
      invariant maxBurstLength == LongestClosed(results[..i])
    {
      assert results[..i + 1][..i] == results[..i];
      if !results[i] {
        lossPattern := lossPattern + [i];
        currentBurst := currentBurst + 1;
      } else {
        if currentBurst > 0 {
          burstCount := burstCount + 1;
          maxBurstLength := if maxBurstLength > currentBurst then maxBurstLength else currentBurst;
          currentBurst := 0;
        }
      }
      i := i + 1;
    }
    assert results[..i] == results;
    if currentBurst > 0 {
      burstCount := burstCount + 1;
      maxBurstLength := if maxBurstLength > currentBurst then maxBurstLength else currentBurst;
    }
    s := PacketLossStats(sent, received, lost, lossPercent, burstCount, maxBurstLength, lossPattern);
  }

  /** The loss pattern lists exactly the indices of the lost probes, one per loss. */
  lemma {:induction false} LostIndicesExact(r: seq<bool>)
    ensures |LostIndices(r)| == |r| - CountTrue(r)
    ensures forall k: nat :: k in LostIndices(r) <==> k < |r| && !r[k]
  {
    if |r| > 0 {
      var init := r[..|r| - 1];
      LostIndicesExact(init);
      assert forall k: nat :: k < |init| ==> init[k] == r[k];
    }
  }

  /** The number of `false` entries that start a run (first entry, or after a `true`). */
  function RunStarts(r: seq<bool>): nat {
    if |r| == 0 then 0
    else
      var n := |r|;
      RunStarts(r[..n - 1]) + (if !r[n - 1] && (n == 1 || r[n - 2]) then 1 else 0)
  }

  /** The burst count is the number of maximal runs of losses, counted by their starts. */
  lemma {:induction false} BurstsAreRunStarts(r: seq<bool>)
    ensures Bursts(r) == RunStarts(r)
  {
    if |r| > 0 {
      var init := r[..|r| - 1];
      BurstsAreRunStarts(init);
      if |r| > 1 {
        assert init[..|init| - 1] == r[..|r| - 2];
        assert init[|init| - 1] == r[|r| - 2];
      }
    }
  }

  /** The trailing run and the closed runs are all made of lost probes. */
  lemma {:induction false} RunsWithinLosses(r: seq<bool>)
    ensures LongestClosed(r) + TrailingRun(r) <= |r| - CountTrue(r)
    ensures ClosedBursts(r) + TrailingRun(r) <= |r| - CountTrue(r)
  {
    if |r| > 0 {
      RunsWithinLosses(r[..|r| - 1]);
    }
  }

  /** The longest burst never exceeds the number of losses. */
  lemma LongestBurstAtMostLost(r: seq<bool>)
    ensures LongestBurst(r) <= |r| - CountTrue(r)
  {
    RunsWithinLosses(r);
  }

  /** A run that a `true` entry closed has at least one loss in it. */
  lemma {:induction false} ClosedBurstsNeedLoss(r: seq<bool>)
    ensures ClosedBursts(r) > 0 ==> CountTrue(r) < |r|
    ensures LongestClosed(r) > 0 ==> ClosedBursts(r) > 0
  {
    if |r| > 0 {
      RunsWithinLosses(r[..|r| - 1]);
      ClosedBurstsNeedLoss(r[..|r| - 1]);
    }
  }

  /** A trailing run is empty exactly when no loss is at the end; none at all without losses. */
  lemma {:induction false} NoLossNoRun(r: seq<bool>)
    ensures CountTrue(r) == |r| ==> TrailingRun(r) == 0 && ClosedBursts(r) == 0
    ensures CountTrue(r) < |r| ==> TrailingRun(r) > 0 || ClosedBursts(r) > 0
  {
    if |r| > 0 {
      var init := r[..|r| - 1];
      NoLossNoRun(init);
      RunsWithinLosses(init);
    }
  }

  /** No bursts exactly when nothing was lost; a burst then has length at least one. */
  lemma BurstsZeroIffNoLoss(r: seq<bool>)
    ensures Bursts(r) == 0 <==> CountTrue(r) == |r|
    ensures Bursts(r) > 0 <==> LongestBurst(r) > 0
  {
    NoLossNoRun(r);
    ClosedBurstsNeedLoss(r);
    ClosedLongestPositive(r);
  }

  /** A closed burst has a positive length. */
  lemma {:induction false} ClosedLongestPositive(r: seq<bool>)
    ensures ClosedBursts(r) > 0 ==> LongestClosed(r) > 0
  {
    if |r| > 0 {
      ClosedLongestPositive(r[..|r| - 1]);
    }
  }

  datatype PacketLossQuality = Excellent | Good | Fair | Poor | VeryPoor {
    /** Position in the table, best first. */
    function Rank(): nat {
      match this
      case Excellent => 0
      case Good => 1
      case Fair => 2
      case Poor => 3
      case VeryPoor => 4
    }
  }

  /**
   * `PacketLossStats::quality_rating`: 0 percent, below 1, below 2.5, below 5,
   * or 5 and more.
   */
  function LossQualityRating(s: PacketLossStats): (q: PacketLossQuality)
    ensures q == PacketLossQuality.Excellent <==> s.lossPercent == 0.0
    ensures q == PacketLossQuality.VeryPoor <==> s.lossPercent >= 5.0
    ensures q == PacketLossQuality.Good ==> s.lossPercent < 1.0
    ensures q == PacketLossQuality.Fair ==> 1.0 <= s.lossPercent < 2.5
    ensures q == PacketLossQuality.Poor ==> 2.5 <= s.lossPercent < 5.0
  {
    if s.lossPercent == 0.0 then PacketLossQuality.Excellent
    else if s.lossPercent < 1.0 then PacketLossQuality.Good
    else if s.lossPercent < 2.5 then PacketLossQuality.Fair
    else if s.lossPercent < 5.0 then PacketLossQuality.Poor
    else PacketLossQuality.VeryPoor
  }

  /** For non-negative percentages, more loss never gives a better rating. */
  lemma LossQualityMonotone(a: PacketLossStats, b: PacketLossStats)
    requires 0.0 <= a.lossPercent <= b.lossPercent
    ensures LossQualityRating(a).Rank() <= LossQualityRating(b).Rank()
  {
  }
}
