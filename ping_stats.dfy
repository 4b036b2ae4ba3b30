/**
 * Ping result types and their aggregation (crates/netdiag-types,
 * diagnostics/ping.rs): a single probe, the statistics computed over a run
 * of probes, latency percentiles, the MOS-to-rating table and the overall
 * quality rating.
 */
module PingStats {
  import opened Wrappers
  import opened Durations
  import opened IpAddrs

  /** The outcome of one echo request. `seq` is a `u16` and `ttl` a `u8`. */
  datatype PingResult = PingResult(
    seqNo: nat,
    target: IpAddr,
    rtt: Option<Duration>,
    ttl: Option<nat>,
    size: nat,
    success: bool,
    error: Option<string>)

  /** `PingResult::success`: a reply with its round-trip time and TTL. */
  function Success(seqNo: nat, target: IpAddr, rtt: Duration, ttl: nat, size: nat): (r: PingResult)
    ensures r.success && r.error.None? && r.rtt == Some(rtt) && r.ttl == Some(ttl)
  {
    PingResult(seqNo, target, Some(rtt), Some(ttl), size, true, None)
  }

  /** `PingResult::timeout`: no reply within the timeout. */
  function Timeout(seqNo: nat, target: IpAddr, size: nat): (r: PingResult)
    ensures !r.success && r.rtt.None? && r.ttl.None? && r.error == Some("Request timed out")
  {
    PingResult(seqNo, target, None, None, size, false, Some("Request timed out"))
  }

  /** `PingResult::failed`: the request could not be made; the size is 0. */
  function Failed(seqNo: nat, target: IpAddr, error: string): (r: PingResult)
    ensures !r.success && r.rtt.None? && r.size == 0 && r.error == Some(error)
  {
    PingResult(seqNo, target, None, None, 0, false, Some(error))
  }

  // ---------------------------------------------------------------------------
  // Percentiles
  // ---------------------------------------------------------------------------

  datatype LatencyPercentiles = LatencyPercentiles(
    p50: Duration, p75: Duration, p90: Duration, p95: Duration, p99: Duration, iqr: Duration)

  /** The index `round(p / 100 * (n - 1))`, capped at `n - 1`, of the `p`th percentile. */
  function PercentileIndex(p: nat, n: nat): (i: nat)
    requires n > 0
    ensures i < n
  {
    var idx := RoundHalfUp((p * (n - 1)) as real / 100.0);
    if idx < n - 1 then idx else n - 1
  }

  /** A higher percentile never picks an earlier index. */
  lemma PercentileIndexMonotone(p: nat, q: nat, n: nat)
    requires n > 0 && p <= q
    ensures PercentileIndex(p, n) <= PercentileIndex(q, n)
  {
    MulMonotone(n - 1, p, q);
    assert p * (n - 1) <= q * (n - 1);
  }

  /** The `p`th percentile of a sorted sample. */
  function Percentile(sorted: seq<Duration>, p: nat): Duration
    requires |sorted| > 0
  {
    sorted[PercentileIndex(p, |sorted|)]
  }

  /** Every percentile of the sorted copy is one of the samples. */
  lemma PercentileIsSample(rtts: seq<Duration>, p: nat)
    requires |rtts| > 0
    ensures |Sort(rtts)| == |rtts|
    ensures Percentile(Sort(rtts), p) in rtts
  {
    var sorted := Sort(rtts);
    assert |sorted| == |multiset(sorted)| == |multiset(rtts)| == |rtts|;
    var i := PercentileIndex(p, |sorted|);
    assert sorted[i] in multiset(sorted);
  }

  /** Percentiles of the sorted copy are ordered like their ranks. */
  lemma PercentileMonotone(rtts: seq<Duration>, p: nat, q: nat)
    requires |rtts| > 0 && p <= q
    ensures |Sort(rtts)| == |rtts|
    ensures Percentile(Sort(rtts), p) <= Percentile(Sort(rtts), q)
  {
    PercentileIsSample(rtts, p);
    PercentileIndexMonotone(p, q, |rtts|);
  }

  /**
   * `LatencyPercentiles::from_rtts`: `None` on no samples; otherwise the
   * 50th to 99th percentiles of the samples, each one of the samples and in
   * increasing order, and the interquartile range p75 - p25.
   */
  function FromRtts(rtts: seq<Duration>): (r: Option<LatencyPercentiles>)
    ensures r.None? <==> |rtts| == 0
    ensures r.Some? ==>
      var l := r.value;
      l.p50 in rtts && l.p75 in rtts && l.p90 in rtts && l.p95 in rtts && l.p99 in rtts &&
      l.p50 <= l.p75 <= l.p90 <= l.p95 <= l.p99 &&
      l.iqr + Percentile(Sort(rtts), 25) == l.p75 && Percentile(Sort(rtts), 25) <= l.p50
  {
    if |rtts| == 0 then None
    else
      var sorted := Sort(rtts);
      PercentileMonotone(rtts, 25, 50);
      PercentileMonotone(rtts, 50, 75);
      PercentileMonotone(rtts, 75, 90);
      PercentileMonotone(rtts, 90, 95);
      PercentileMonotone(rtts, 95, 99);
      PercentileIsSample(rtts, 50);
      PercentileIsSample(rtts, 75);
      PercentileIsSample(rtts, 90);
      PercentileIsSample(rtts, 95);
      PercentileIsSample(rtts, 99);
      var p25 := Percentile(sorted, 25);
      var p75 := Percentile(sorted, 75);
      Some(LatencyPercentiles(
        Percentile(sorted, 50), p75, Percentile(sorted, 90),
        Percentile(sorted, 95), Percentile(sorted, 99),
        if p75 >= p25 then p75 - p25 else 0))
  }

  /** A single sample is every percentile and the interquartile range is zero. */
  lemma {:induction false} FromRttsSingle(x: Duration)
    ensures FromRtts([x]) == Some(LatencyPercentiles(x, x, x, x, x, 0))
  {
    assert Sort([x]) == Insert(x, Sort([]));
    assert Sort([x]) == [x];
  }

  // ---------------------------------------------------------------------------
  // VoIP rating
  // ---------------------------------------------------------------------------

  datatype VoipRating = Excellent | Good | Fair | Poor | Bad | VeryBad {
    /** Position in the table, best first. */
    function Rank(): nat {
      match this
      case Excellent => 0
      case Good => 1
      case Fair => 2
      case Poor => 3
      case Bad => 4
      case VeryBad => 5
    }
  }

  /** `VoipRating::from_mos`: bands with inclusive lower bounds 4.3, 4.0, 3.6, 3.1 and 2.6. */
  function FromMos(mos: real): (r: VoipRating)
    ensures r == VoipRating.Excellent <==> mos >= 4.3
    ensures r == VoipRating.Good <==> 4.0 <= mos < 4.3
    ensures r == VoipRating.Fair <==> 3.6 <= mos < 4.0
    ensures r == VoipRating.Poor <==> 3.1 <= mos < 3.6
    ensures r == VoipRating.Bad <==> 2.6 <= mos < 3.1
    ensures r == VoipRating.VeryBad <==> mos < 2.6
  {
    if mos >= 4.3 then VoipRating.Excellent
    else if mos >= 4.0 then VoipRating.Good
    else if mos >= 3.6 then VoipRating.Fair
    else if mos >= 3.1 then VoipRating.Poor
    else if mos >= 2.6 then VoipRating.Bad
    else VoipRating.VeryBad
  }

  /** A higher MOS never gets a worse rating. */
  lemma FromMosMonotone(a: real, b: real)
    requires a <= b
    ensures FromMos(b).Rank() <= FromMos(a).Rank()
  {
  }

  // ---------------------------------------------------------------------------
  // Statistics over a run
  // ---------------------------------------------------------------------------

  /**
   * The arguments `VoipQuality::from_stats` is applied to; the E-model
   * arithmetic itself is not part of this model.
   */
  datatype VoipInput = VoipInput(avgRtt: Duration, jitter: Option<Duration>, lossPercent: real)

  /**
   * `PingStats`. `variance` is the square of `stddev_rtt` in seconds squared
   * (the square root and its rounding are not modelled).
   */
  datatype PingStats = PingStats(
    target: IpAddr,
    hostname: Option<string>,
    transmitted: nat,
    received: nat,
    lost: nat,
    lossPercent: real,
    minRtt: Option<Duration>,
    maxRtt: Option<Duration>,
    avgRtt: Option<Duration>,
    variance: Option<real>,
    jitter: Option<Duration>,
    results: seq<PingResult>,
    duration: Duration,
    percentiles: Option<LatencyPercentiles>,
    voip: Option<VoipInput>)

  /** `filter(|r| r.success).count()`. */
  function CountSuccess(results: seq<PingResult>): (n: nat)
    ensures n <= |results|
  {
    if |results| == 0 then 0
    else (if results[0].success then 1 else 0) + CountSuccess(results[1..])
  }

  /** `filter_map(|r| r.rtt)`: the round-trip times, in probe order. */
  function Rtts(results: seq<PingResult>): (r: seq<Duration>)
    ensures |r| <= |results|
    ensures forall x :: x in r ==> exists i :: 0 <= i < |results| && results[i].rtt == Some(x)
  {
    if |results| == 0 then []
    else
      var rest := Rtts(results[1..]);
      assert forall x :: x in rest ==> exists i :: 0 <= i < |results| && results[i].rtt == Some(x) by {
        forall x | x in rest
          ensures exists i :: 0 <= i < |results| && results[i].rtt == Some(x)
        {
          var j :| 0 <= j < |results[1..]| && results[1..][j].rtt == Some(x);
          assert results[j + 1].rtt == Some(x);
        }
      }
      match results[0].rtt
      case Some(d) => [d] + rest
      case None => rest
  }

  /** The mean squared deviation, in seconds squared, from `avg`. */
  function SquaredDeviations(rtts: seq<Duration>, avg: Duration): (r: real)
    ensures r >= 0.0
  {
    if |rtts| == 0 then 0.0
    else
      var d := AsSecs(rtts[0]) - AsSecs(avg);
      d * d + SquaredDeviations(rtts[1..], avg)
  }

  /**
   * The jitter of `from_results`: for two or more samples, the mean of the
   * absolute differences between consecutive samples, to the nearest
   * nanosecond; it never exceeds the spread of the samples.
   */
  function Jitter(rtts: seq<Duration>): (r: Option<Duration>)
    ensures r.Some? <==> |rtts| >= 2
    ensures r.Some? ==>
      var mean := Sum(Diffs(rtts)) as real / (|rtts| - 1) as real;
      r.value as real <= mean + 0.5 < r.value as real + 1.0 &&
      r.value <= MaxOf(rtts) - MinOf(rtts)
  {
    if |rtts| < 2 then None
    else
      var k := |rtts| - 1;
      var spread := MaxOf(rtts) - MinOf(rtts);
      DiffsWithinSpread(rtts);
      SumBetween(Diffs(rtts), 0, spread);
      var mean := Sum(Diffs(rtts)) as real / k as real;
      RealDivAtMost(Sum(Diffs(rtts)), k, spread);
      RoundHalfUpBelow(mean, spread);
      Some(RoundHalfUp(mean))
  }

  /** The loss percentage for `lost` out of `transmitted`. */
  function LossPercent(lost: nat, transmitted: nat): (p: real)
    requires lost <= transmitted
    ensures 0.0 <= p <= 100.0
    ensures transmitted == 0 ==> p == 0.0
    ensures lost == 0 ==> p == 0.0
    ensures transmitted > 0 && lost == transmitted ==> p == 100.0
  {
    if transmitted > 0 then
      assert lost as real / transmitted as real <= 1.0;
      (lost as real / transmitted as real) * 100.0
    else 0.0
  }

  /**
   * `PingStats::from_results`: the counters, loss, RTT aggregates,
   * percentiles and VoIP inputs of a run of probes.
   */
  function FromResults(target: IpAddr, results: seq<PingResult>, duration: Duration): (s: PingStats)
    ensures s.target == target && s.results == results && s.duration == duration && s.hostname.None?
    ensures s.transmitted == |results| && s.received == CountSuccess(results)
    ensures s.received <= s.transmitted && s.lost + s.received == s.transmitted
    ensures s.transmitted == 0 ==> s.lossPercent == 0.0
    ensures s.transmitted > 0 ==> s.lossPercent == s.lost as real / s.transmitted as real * 100.0
    ensures 0.0 <= s.lossPercent <= 100.0
    ensures Rtts(results) == [] <==> s.minRtt.None?
    ensures s.minRtt.None? <==> s.maxRtt.None?
    ensures s.minRtt.None? <==> s.avgRtt.None?
    ensures s.minRtt.None? <==> s.variance.None?
    ensures s.minRtt.None? ==> s.jitter.None?
    ensures s.minRtt.Some? ==>
      s.minRtt.value in Rtts(results) && s.maxRtt.value in Rtts(results) &&
      (forall x :: x in Rtts(results) ==> s.minRtt.value <= x <= s.maxRtt.value) &&
      s.minRtt.value <= s.avgRtt.value <= s.maxRtt.value
    ensures s.jitter == Jitter(Rtts(results))
    ensures s.percentiles == FromRtts(Rtts(results))
    ensures s.voip.Some? <==> s.avgRtt.Some?
    ensures s.voip.Some? ==> s.voip.value == VoipInput(s.avgRtt.value, s.jitter, s.lossPercent)
  {
    var transmitted := |results|;
    var received := CountSuccess(results);
    var lost := transmitted - received;
    var lossPercent := LossPercent(lost, transmitted);
    var rtts := Rtts(results);
    var percentiles := FromRtts(rtts);
    if |rtts| == 0 then
      PingStats(target, None, transmitted, received, lost, lossPercent,
                None, None, None, None, None, results, duration, percentiles, None)
    else
      var avg := Sum(rtts) / |rtts|;
      MeanBetween(rtts);
      var variance := SquaredDeviations(rtts, avg) / |rtts| as real;
      var jitter := Jitter(rtts);
      PingStats(target, None, transmitted, received, lost, lossPercent,
                Some(MinOf(rtts)), Some(MaxOf(rtts)), Some(avg), Some(variance), jitter,
                results, duration, percentiles, Some(VoipInput(avg, jitter, lossPercent)))
  }

  // ---------------------------------------------------------------------------
  // Quality rating
  // ---------------------------------------------------------------------------

  datatype PingQuality = Excellent | VeryGood | Good | Fair | Poor | VeryPoor {
    /** Position in the table, best first. */
    function Rank(): nat {
      match this
      case Excellent => 0
      case VeryGood => 1
      case Good => 2
      case Fair => 3
      case Poor => 4
      case VeryPoor => 5
    }
  }

  /**
   * `PingStats::quality_rating`: loss of 50, 10 or 2 percent or more decides
   * the rating whatever the latency; below that the average RTT in whole
   * milliseconds does, and a run without an average is very poor.
   */
  function QualityRating(s: PingStats): (q: PingQuality)
    ensures s.lossPercent >= 50.0 ==> q == PingQuality.VeryPoor
    ensures 10.0 <= s.lossPercent < 50.0 ==> q == PingQuality.Poor
    ensures 2.0 <= s.lossPercent < 10.0 ==> q == PingQuality.Fair
    ensures s.lossPercent < 2.0 && s.avgRtt.None? ==> q == PingQuality.VeryPoor
    ensures s.lossPercent < 2.0 && s.avgRtt.Some? ==> q != PingQuality.Poor && q != PingQuality.VeryPoor
    ensures s.lossPercent < 2.0 && s.avgRtt.Some? ==>
      (q == PingQuality.Excellent <==> AsMillis(s.avgRtt.value) <= 50)
    ensures s.lossPercent < 2.0 && s.avgRtt.Some? ==>
      (q == PingQuality.VeryGood <==> 50 < AsMillis(s.avgRtt.value) <= 100)
    ensures s.lossPercent < 2.0 && s.avgRtt.Some? ==>
      (q == PingQuality.Good <==> 100 < AsMillis(s.avgRtt.value) <= 200)
    ensures s.lossPercent < 2.0 && s.avgRtt.Some? ==>
      (q == PingQuality.Fair <==> AsMillis(s.avgRtt.value) > 200)
    ensures q == PingQuality.Excellent || q == PingQuality.VeryGood || q == PingQuality.Good ==>
      s.lossPercent < 2.0 && s.avgRtt.Some?
  {
    if s.lossPercent >= 50.0 then PingQuality.VeryPoor
    else if s.lossPercent >= 10.0 then PingQuality.Poor
    else if s.lossPercent >= 2.0 then PingQuality.Fair
    else match s.avgRtt
      case Some(rtt) =>
        if AsMillis(rtt) > 200 then PingQuality.Fair
        else if AsMillis(rtt) > 100 then PingQuality.Good
        else if AsMillis(rtt) > 50 then PingQuality.VeryGood
        else PingQuality.Excellent
      case None => PingQuality.VeryPoor
  }

  /** With the same loss, a lower average RTT never gives a worse rating. */
  lemma QualityMonotoneInLatency(s: PingStats, t: PingStats)
    requires s.lossPercent == t.lossPercent
    requires s.avgRtt.Some? && t.avgRtt.Some? && s.avgRtt.value <= t.avgRtt.value
    ensures QualityRating(s).Rank() <= QualityRating(t).Rank()
  {
    assert AsMillis(s.avgRtt.value) <= AsMillis(t.avgRtt.value);
  }
}
