/**
 * Speed test results (crates/netdiag-speed, result.rs): the buffer-bloat
 * grade and analysis, the consistency rating, and bandwidth rates.
 */
module SpeedResult {
  import opened Wrappers
  import opened Durations

  /** The speed test's buffer-bloat grade (a table distinct from the path analyzer's). */
  datatype BufferBloatGrade = A | B | C | D | F {
    /** Position in the table, best first. */
    function Rank(): nat {
      match this
      case A => 0
      case B => 1
      case C => 2
      case D => 3
      case F => 4
    }

    /** The `Display` form: the grade letter. */
    function Letter(): string {
      match this
      case A => "A"
      case B => "B"
      case C => "C"
      case D => "D"
      case F => "F"
    }
  }

  /**
   * `BufferBloatGrade::from_increase`: on the increase in whole milliseconds,
   * 0-5 A, 6-30 B, 31-60 C, 61-200 D, above 200 F.
   */
  function FromIncrease(increase: Duration): (g: BufferBloatGrade)
    ensures g == A <==> AsMillis(increase) <= 5
    ensures g == B <==> 6 <= AsMillis(increase) <= 30
    ensures g == C <==> 31 <= AsMillis(increase) <= 60
    ensures g == D <==> 61 <= AsMillis(increase) <= 200
    ensures g == F <==> AsMillis(increase) > 200
  {
    var ms := AsMillis(increase);
    if ms <= 5 then A
    else if ms <= 30 then B
    else if ms <= 60 then C
    else if ms <= 200 then D
    else F
  }

  /** A larger increase never gets a better grade. */
  lemma FromIncreaseMonotone(x: Duration, y: Duration)
    requires x <= y
    ensures FromIncrease(x).Rank() <= FromIncrease(y).Rank()
  {
    assert AsMillis(x) <= AsMillis(y) by {
      DivMonotone(x, y, NanosPerMilli);
    }
  }

  lemma DivMonotone(x: nat, y: nat, k: nat)
    requires x <= y && k > 0
    ensures x / k <= y / k
  {
    MulMonotone(k, y / k + 1, x / k);
  }

  /** Sub-millisecond remainders do not matter: 5.999 ms is still an A. */
  lemma FromIncreaseBoundaries()
    ensures FromIncrease(FromMillis(5) + 999_999) == A
    ensures FromIncrease(FromMillis(6)) == B && FromIncrease(FromMillis(30)) == B
    ensures FromIncrease(FromMillis(31)) == C && FromIncrease(FromMillis(60)) == C
    ensures FromIncrease(FromMillis(61)) == D && FromIncrease(FromMillis(200)) == D
    ensures FromIncrease(FromMillis(201)) == F
  {
  }

  datatype BufferBloatAnalysis = BufferBloatAnalysis(
    baselineLatency: Duration,
    downloadLatency: Option<Duration>,
    uploadLatency: Option<Duration>,
    peakLatency: Duration,
    latencyIncrease: Duration,
    latencyIncreasePercent: real,
    grade: BufferBloatGrade)

  /**
   * `BufferBloatAnalysis::new`: the increase is the loaded latency minus the
   * baseline, floored at zero; the percentage is relative to a non-zero
   * baseline and 0 for a zero baseline; the peak is the loaded latency; the
   * grade is the band of the increase; no per-direction latency yet.
   */
  function NewAnalysis(baseline: Duration, loaded: Duration): (r: BufferBloatAnalysis)
    ensures r.baselineLatency == baseline && r.peakLatency == loaded
    ensures r.latencyIncrease == if loaded >= baseline then loaded - baseline else 0
    ensures r.latencyIncrease <= loaded
    ensures baseline == 0 ==> r.latencyIncreasePercent == 0.0
    ensures baseline > 0 ==> r.latencyIncreasePercent * baseline as real == r.latencyIncrease as real * 100.0
    ensures r.latencyIncreasePercent >= 0.0
    ensures r.grade == FromIncrease(r.latencyIncrease)
    ensures r.downloadLatency.None? && r.uploadLatency.None?
  {
    var increase := if loaded >= baseline then loaded - baseline else 0;
    var percent := if baseline > 0 then AsSecs(increase) / AsSecs(baseline) * 100.0 else 0.0;
    BufferBloatAnalysis(baseline, None, None, loaded, increase, percent, FromIncrease(increase))
  }

  /** A 20 ms baseline loaded to 50 ms rises by 30 ms, or 150 percent, graded B. */
  lemma NewAnalysisExample()
    ensures var r := NewAnalysis(FromMillis(20), FromMillis(50));
      r.latencyIncrease == FromMillis(30) && r.latencyIncreasePercent == 150.0 && r.grade == B
  {
    var r := NewAnalysis(FromMillis(20), FromMillis(50));
    assert r.latencyIncreasePercent * 20_000_000.0 == 30_000_000.0 * 100.0;
  }

  /** `BufferBloatAnalysis::description`. */
  function Description(g: BufferBloatGrade): string {
    match g
    case A => "Excellent - minimal buffer bloat"
    case B => "Good - minor buffer bloat"
    case C => "Fair - moderate buffer bloat, may affect real-time apps"
    case D => "Poor - significant buffer bloat"
    case F => "Very Poor - severe buffer bloat affecting performance"
  }

  datatype ConsistencyRating = Excellent | Good | Fair | Poor | VeryPoor {
    /** Position in the table, best first. */
    function Rank(): nat {
      match this
      case Excellent => 0
      case Good => 1
      case Fair => 2
      case Poor => 3
      case VeryPoor => 4
    }
  }

  /**
   * `ConsistencyRating::from_cv`: strict upper bounds 0.1, 0.2, 0.3 and 0.5
   * on the coefficient of variation.
   */
  function FromCv(cv: real): (r: ConsistencyRating)
    ensures r == Excellent <==> cv < 0.1
    ensures r == Good <==> 0.1 <= cv < 0.2
    ensures r == Fair <==> 0.2 <= cv < 0.3
    ensures r == Poor <==> 0.3 <= cv < 0.5
    ensures r == VeryPoor <==> cv >= 0.5
  {
    if cv < 0.1 then Excellent
    else if cv < 0.2 then Good
    else if cv < 0.3 then Fair
    else if cv < 0.5 then Poor
    else VeryPoor
  }

  /** A larger variation never gets a better rating. */
  lemma FromCvMonotone(x: real, y: real)
    requires x <= y
    ensures FromCv(x).Rank() <= FromCv(y).Rank()
  {
  }

  /** A transfer: bytes moved over a duration. */
  datatype BandwidthSample = BandwidthSample(elapsed: Duration, bytes: nat, duration: Duration)

  datatype BandwidthMeasurement = BandwidthMeasurement(
    bytes: nat, duration: Duration, connections: nat, samples: seq<BandwidthSample>)

  /** `BandwidthMeasurement::new`: no samples yet. */
  function NewMeasurement(bytes: nat, duration: Duration, connections: nat): (m: BandwidthMeasurement)
    ensures m.bytes == bytes && m.duration == duration && m.connections == connections && m.samples == []
  {
    BandwidthMeasurement(bytes, duration, connections, [])
  }

  /**
   * `bps`: eight bits per byte over the duration in seconds, and 0 for a
   * zero duration; the rate times the duration gives back the bits moved.
   */
  function Bps(m: BandwidthMeasurement): (r: real)
    ensures r >= 0.0
    ensures m.duration == 0 ==> r == 0.0
    ensures m.duration > 0 ==> r * AsSecs(m.duration) == (m.bytes * 8) as real
    ensures r == 0.0 <==> m.duration == 0 || m.bytes == 0
  {
    if AsSecs(m.duration) > 0.0 then (m.bytes * 8) as real / AsSecs(m.duration) else 0.0
  }

  /** `kbps`, `mbps`, `gbps`: the bit rate in decimal units. */
  function Kbps(m: BandwidthMeasurement): real { Bps(m) / 1000.0 }

  function Mbps(m: BandwidthMeasurement): real { Bps(m) / 1_000_000.0 }

  function Gbps(m: BandwidthMeasurement): real { Bps(m) / 1_000_000_000.0 }

  /** `bytes_per_second`: 0 for a zero duration. */
  function BytesPerSecond(m: BandwidthMeasurement): (r: real)
    ensures m.duration == 0 ==> r == 0.0
    ensures m.duration > 0 ==> r * AsSecs(m.duration) == m.bytes as real
  {
    if AsSecs(m.duration) > 0.0 then m.bytes as real / AsSecs(m.duration) else 0.0
  }

  /** The bit rate is always eight times the byte rate, and the units agree with each other. */
  lemma RatesAgree(m: BandwidthMeasurement)
    ensures Bps(m) == 8.0 * BytesPerSecond(m)
    ensures Mbps(m) == Kbps(m) / 1000.0 && Gbps(m) == Mbps(m) / 1000.0
  {
    if m.duration > 0 {
      var s := AsSecs(m.duration);
      assert s > 0.0;
      assert Bps(m) * s == 8.0 * BytesPerSecond(m) * s;
    }
  }

  /** 125 MB in 10 s is 100 Mbps. */
  lemma BpsExample()
    ensures Bps(NewMeasurement(125_000_000, 10 * NanosPerSec, 4)) == 100_000_000.0
    ensures Mbps(NewMeasurement(125_000_000, 10 * NanosPerSec, 4)) == 100.0
  {
    var m := NewMeasurement(125_000_000, 10 * NanosPerSec, 4);
    assert AsSecs(m.duration) == 10.0;
  }

  /** The unit `format_speed` picks: Gbps from 1000 Mbps, Mbps from 1 Mbps, else Kbps. */
  function SpeedUnit(m: BandwidthMeasurement): (u: string)
    ensures u == "Gbps" <==> Mbps(m) >= 1000.0
    ensures u == "Kbps" <==> Mbps(m) < 1.0
  {
    var mbps := Mbps(m);
    if mbps >= 1000.0 then "Gbps" else if mbps >= 1.0 then "Mbps" else "Kbps"
  }

  /** `BandwidthSample::mbps`: megabits per second, and 0 for a zero duration. */
  function SampleMbps(s: BandwidthSample): (r: real)
    ensures r >= 0.0
    ensures s.duration == 0 ==> r == 0.0
    ensures s.duration > 0 ==> r * AsSecs(s.duration) * 1_000_000.0 == (s.bytes * 8) as real
  {
    if AsSecs(s.duration) > 0.0 then (s.bytes * 8) as real / AsSecs(s.duration) / 1_000_000.0 else 0.0
  }

  /** A sample's rate agrees with the rate of the same transfer as a measurement. */
  lemma SampleMbpsAgrees(s: BandwidthSample)
    ensures SampleMbps(s) == Mbps(NewMeasurement(s.bytes, s.duration, 1))
  {
  }
}
