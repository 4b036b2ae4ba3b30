/**
 * The network path analyzer (crates/netdiag-connectivity,
 * path_analyzer.rs): splits a traceroute into segments, scores each
 * segment, lists the issues found, and turns them into a health score and
 * recommendations; plus the buffer-bloat check.
 */
module PathAnalyzer {
  import opened Wrappers
  import opened Durations
  import opened IpAddrs
  import opened Text
  import opened TracerouteTypes
  import opened PathAnalysis

  /** The analyzer's thresholds. */
  datatype Analyzer = Analyzer(
    highLatencyThresholdMs: nat, latencyJumpThresholdMs: nat, packetLossThreshold: real)

  /** `PathAnalyzer::default`: 100 ms, 50 ms and 1 percent. */
  function DefaultAnalyzer(): Analyzer {
    Analyzer(100, 50, 1.0)
  }

  /** `u8::saturating_sub` and its kin on unsigned values. */
  function Sat(a: nat, b: nat): (r: nat)
    ensures r == if a >= b then a - b else 0
  {
    if a >= b then a - b else 0
  }

  // ---------------------------------------------------------------------------
  // Hops and segments
  // ---------------------------------------------------------------------------

  /** The hop information `extract_hop_info` derives from one traceroute hop. */
  function HopToInfo(h: TracerouteHop): (i: HopInfo)
    ensures i.hopNumber == h.hop && i.ip == h.address && i.rtt == h.avgRtt
    ensures i.responsive == !h.allTimeout && i.organization == h.asName
  {
    HopInfo(h.hop, h.address, h.hostname, h.avgRtt, h.asn, h.asName, h.asName,
      match h.location
      case None => None
      case Some(l) => Some(GeoLocation(l.city, None, l.country, None, l.latitude, l.longitude)),
      !h.allTimeout)
  }

  /** `extract_hop_info`: one hop record per traceroute hop, in order. */
  function ExtractHopInfo(hops: seq<TracerouteHop>): (r: seq<HopInfo>)
    ensures |r| == |hops|
    ensures forall i :: 0 <= i < |hops| ==> r[i] == HopToInfo(hops[i])
  {
    if |hops| == 0 then [] else [HopToInfo(hops[0])] + ExtractHopInfo(hops[1..])
  }

  /** The hostname hints of a backbone router. */
  predicate LooksLikeBackbone(hostname: string) {
    var h := ToLower(hostname);
    Contains(h, "backbone") || Contains(h, "core") || Contains(h, "bb") ||
    Contains(h, "ix") || Contains(h, "peer")
  }

  /**
   * `classify_hop`: hop 1 is the local gateway; hops up to 3 are the access
   * router; later hops are backbone by hostname, ISP edge by hostname and
   * position, and otherwise follow the number of autonomous systems seen so
   * far, a new one marking the next segment.
   */
  function ClassifyHop(hop: HopInfo, seenAsns: seq<Option<nat>>, current: SegmentType): (s: SegmentType)
    ensures hop.hopNumber == 1 ==> s == SegmentType.Local
    ensures hop.hopNumber != 1 && hop.hopNumber <= 3 ==> s == SegmentType.Router
    ensures hop.hopNumber > 3 ==> s != SegmentType.Local || s == current
    ensures current != SegmentType.Unknown ==> s != SegmentType.Unknown
  {
    if hop.hopNumber == 1 then SegmentType.Local
    else if hop.hopNumber <= 3 then SegmentType.Router
    else
      var isNewAsn := hop.asn.Some? && hop.asn !in seenAsns;
      if hop.hostname.Some? && LooksLikeBackbone(hop.hostname.value) then SegmentType.Backbone
      else if hop.hostname.Some? && hop.hopNumber <= 6 && !isNewAsn then SegmentType.Isp
      else if |seenAsns| <= 1 then SegmentType.Isp
      else if |seenAsns| == 2 then (if isNewAsn then SegmentType.Backbone else current)
      else if isNewAsn then SegmentType.Destination
      else current
  }

  /** The autonomous systems seen, and the segment reached, after the first `n` hops. */
  datatype ClassifyState = ClassifyState(seenAsns: seq<Option<nat>>, current: SegmentType)

  /** The state of `identify_segments` after the first `n` hops. */
  function StateAfter(hops: seq<HopInfo>, n: nat): (st: ClassifyState)
    requires n <= |hops|
    ensures st.current != SegmentType.Unknown
  {
    if n == 0 then ClassifyState([], SegmentType.Local)
    else
      var st := StateAfter(hops, n - 1);
      var hop := hops[n - 1];
      var seg := ClassifyHop(hop, st.seenAsns, st.current);
      var seen := if hop.asn.Some? && hop.asn !in st.seenAsns then st.seenAsns + [hop.asn] else st.seenAsns;
      ClassifyState(seen, seg)
  }

  /** The segment `identify_segments` puts hop `i` in. */
  function SegmentOf(hops: seq<HopInfo>, i: nat): (s: SegmentType)
    requires i < |hops|
    ensures s != SegmentType.Unknown
    ensures s == StateAfter(hops, i + 1).current
  {
    var st := StateAfter(hops, i);
    ClassifyHop(hops[i], st.seenAsns, st.current)
  }

  /** The hops among the first `n` that land in segment `t`, in path order. */
  function HopsIn(hops: seq<HopInfo>, t: SegmentType, n: nat): seq<HopInfo>
    requires n <= |hops|
  {
    if n == 0 then []
    else HopsIn(hops, t, n - 1) + (if SegmentOf(hops, n - 1) == t then [hops[n - 1]] else [])
  }

  /** Hop `i` extends exactly the list of the segment it lands in. */
  lemma HopsInStep(hops: seq<HopInfo>, i: nat)
    requires i < |hops|
    ensures forall t :: (HopsIn(hops, t, i + 1) ==
      HopsIn(hops, t, i) + (if SegmentOf(hops, i) == t then [hops[i]] else []))
  {
  }

  /** Every hop lands in exactly one of the five segments. */
  lemma {:induction false} SegmentsPartitionHops(hops: seq<HopInfo>, n: nat)
    requires n <= |hops|
    ensures |HopsIn(hops, SegmentType.Local, n)| + |HopsIn(hops, SegmentType.Router, n)| +
            |HopsIn(hops, SegmentType.Isp, n)| + |HopsIn(hops, SegmentType.Backbone, n)| +
            |HopsIn(hops, SegmentType.Destination, n)| == n
  {
    if n > 0 {
      SegmentsPartitionHops(hops, n - 1);
    }
  }

  /** A hop numbered 1 is always in the local segment, and hops 2 and 3 in the router segment. */
  lemma FirstHopsSegments(hops: seq<HopInfo>, i: nat)
    requires i < |hops|
    ensures hops[i].hopNumber == 1 ==> SegmentOf(hops, i) == SegmentType.Local
    ensures 2 <= hops[i].hopNumber <= 3 ==> SegmentOf(hops, i) == SegmentType.Router
  {
  }

  /** `find(|h| h.hop_number + 1 == n)`: the first hop numbered `n - 1`. */
  function FindPrevHop(hops: seq<HopInfo>, n: nat): (r: Option<HopInfo>)
    ensures r.Some? ==> r.value in hops && r.value.hopNumber + 1 == n
    ensures r.None? ==> forall h :: h in hops ==> h.hopNumber + 1 != n
  {
    if |hops| == 0 then None
    else if hops[0].hopNumber + 1 == n then Some(hops[0])
    else
      var r := FindPrevHop(hops[1..], n);
      assert forall h :: h in hops ==> h == hops[0] || h in hops[1..];
      r
  }

  /** The number of responsive hops. */
  function CountResponsive(hops: seq<HopInfo>): (n: nat)
    ensures n <= |hops|
    ensures n == 0 <==> forall i :: 0 <= i < |hops| ==> !hops[i].responsive
    ensures n == |hops| <==> forall i :: 0 <= i < |hops| ==> hops[i].responsive
  {
    if |hops| == 0 then 0
    else
      var rest := CountResponsive(hops[1..]);
      assert forall i :: 1 <= i < |hops| ==> hops[i] == hops[1..][i - 1];
      (if hops[0].responsive then 1 else 0) + rest
  }

  /** The hops that did not respond. */
  function Unresponsive(hops: seq<HopInfo>): (n: nat)
    ensures n + CountResponsive(hops) == |hops|
  {
    if |hops| == 0 then 0
    else (if hops[0].responsive then 0 else 1) + Unresponsive(hops[1..])
  }

  /**
   * The packet loss `calculate_segment_latency` assigns a non-empty segment:
   * the percentage of its hops that did not respond, 0 exactly when every
   * hop responded.
   */
  function HopLossPercent(hops: seq<HopInfo>): (loss: real)
    requires |hops| > 0
    ensures 0.0 <= loss <= 100.0
    ensures loss == 0.0 <==> forall i :: 0 <= i < |hops| ==> hops[i].responsive
  {
    var total := |hops|;
    var lost := total - CountResponsive(hops);
    RealDivAtMost(lost, total, 1);
    lost as real / total as real * 100.0
  }

  /**
   * The latency contribution `calculate_segment_latency` computes: with an
   * entry RTT (the hop before the segment, else its first hop) and an exit
   * RTT (its last hop, else its first), the rise from the previous hop to the
   * exit, floored at 0, in milliseconds; its percentage of the final hop's
   * RTT (0 when that is missing or zero); primary above 40 percent. Without
   * entry or exit the old value stays.
   */
  function LatencyOf(segment: SegmentAnalysis, allHops: seq<HopInfo>): (l: Option<LatencyContribution>)
    requires |segment.hops| > 0
    ensures l != segment.latency ==> l.Some? && l.value.absoluteMs >= 0.0 && l.value.percentage >= 0.0
    ensures l != segment.latency ==> (l.value.isPrimaryContributor <==> l.value.percentage > 40.0)
    ensures (segment.hops[0].rtt.None? && segment.hops[|segment.hops| - 1].rtt.None? &&
      FindPrevHop(allHops, segment.hops[0].hopNumber).None?) ==> l == segment.latency
  {
    var first, last := segment.hops[0], segment.hops[|segment.hops| - 1];
    var prevRtt := match FindPrevHop(allHops, first.hopNumber)
      case Some(h) => h.rtt
      case None => None;
    var entry := if prevRtt.Some? then prevRtt else first.rtt;
    var exit := if last.rtt.Some? then last.rtt else first.rtt;
    if entry.Some? && exit.Some? then
      var segmentLatency := Sat(exit.value, prevRtt.GetOr(0));
      var total := if |allHops| > 0 then allHops[|allHops| - 1].rtt.GetOr(0) else 0;
      var percentage := if total > 0 then segmentLatency as real / total as real * 100.0 else 0.0;
      Some(LatencyContribution(AsSecs(segmentLatency) * 1000.0, percentage, percentage > 40.0))
    else segment.latency
  }

  /**
   * `calculate_segment_latency`: an empty segment is left as it was; a
   * non-empty one gets its latency contribution and its packet loss, and
   * nothing else changes.
   */
  function SegmentLatency(segment: SegmentAnalysis, allHops: seq<HopInfo>): (r: SegmentAnalysis)
    ensures |segment.hops| == 0 ==> r == segment
    ensures |segment.hops| > 0 ==>
      r == segment.(latency := LatencyOf(segment, allHops), packetLossPercent := HopLossPercent(segment.hops))
  {
    if |segment.hops| == 0 then segment
    else segment.(latency := LatencyOf(segment, allHops), packetLossPercent := HopLossPercent(segment.hops))
  }

  /**
   * The issue points of `determine_segment_status`: 2 or 1 for latency above
   * the threshold or above half of it, 2 or 1 for loss above twice the
   * threshold or above it, 2 or 1 for more than half or more than a fifth of
   * the hops unresponsive.
   */
  function StatusPoints(a: Analyzer, segment: SegmentAnalysis): (p: nat)
    requires |segment.hops| > 0
    ensures p <= 6
  {
    var latencyPoints :=
      match segment.latency
      case Some(l) =>
        if l.absoluteMs > a.highLatencyThresholdMs as real then 2
        else if l.absoluteMs > (a.highLatencyThresholdMs / 2) as real then 1
        else 0
      case None => 0;
    var lossPoints :=
      if segment.packetLossPercent > a.packetLossThreshold * 2.0 then 2
      else if segment.packetLossPercent > a.packetLossThreshold then 1
      else 0;
    var ratio := Unresponsive(segment.hops) as real / |segment.hops| as real;
    var unresponsivePoints := if ratio > 0.5 then 2 else if ratio > 0.2 then 1 else 0;
    latencyPoints + lossPoints + unresponsivePoints
  }

  /** Status bands by issue points: 0 Healthy, 1-2 Degraded, 3-4 Impaired, 5 or more Down. */
  function StatusOfPoints(p: nat): (s: SegmentStatus)
    ensures s == SegmentStatus.Healthy <==> p == 0
    ensures s == SegmentStatus.Degraded <==> 1 <= p <= 2
    ensures s == SegmentStatus.Impaired <==> 3 <= p <= 4
    ensures s == SegmentStatus.Down <==> p >= 5
  {
    if p == 0 then SegmentStatus.Healthy
    else if p <= 2 then SegmentStatus.Degraded
    else if p <= 4 then SegmentStatus.Impaired
    else SegmentStatus.Down
  }

  /**
   * `determine_segment_status`: Unknown without hops, Down when no hop
   * responded, otherwise the band of the issue points.
   */
  function SegmentStatusOf(a: Analyzer, segment: SegmentAnalysis): (s: SegmentStatus)
    ensures |segment.hops| == 0 <==> s == SegmentStatus.Unknown
    ensures |segment.hops| > 0 && (forall i :: 0 <= i < |segment.hops| ==> !segment.hops[i].responsive)
      ==> s == SegmentStatus.Down
    ensures |segment.hops| > 0 && (exists i :: 0 <= i < |segment.hops| && segment.hops[i].responsive)
      ==> s == StatusOfPoints(StatusPoints(a, segment))
  {
    if |segment.hops| == 0 then SegmentStatus.Unknown
    else if forall i :: 0 <= i < |segment.hops| ==> !segment.hops[i].responsive then SegmentStatus.Down
    else StatusOfPoints(StatusPoints(a, segment))
  }

  /** More issue points never give a better status. */
  lemma StatusOfPointsMonotone(p: nat, q: nat)
    requires p <= q
    ensures StatusOfPoints(p) == SegmentStatus.Down ==> StatusOfPoints(q) == SegmentStatus.Down
    ensures StatusOfPoints(q) == SegmentStatus.Healthy ==> StatusOfPoints(p) == SegmentStatus.Healthy
  {
  }

  /** A segment after latency accounting and status. */
  function FinishSegment(a: Analyzer, t: SegmentType, hops: seq<HopInfo>, allHops: seq<HopInfo>): (s: SegmentAnalysis)
    ensures s.segmentType == t && s.hops == hops
  {
    var seg := SegmentLatency(DefaultSegment().(segmentType := t, hops := hops), allHops);
    seg.(status := SegmentStatusOf(a, seg))
  }

  /** The segments `identify_segments` builds from the hops. */
  function SegmentsOf(a: Analyzer, hops: seq<HopInfo>): PathSegments {
    var n := |hops|;
    PathSegments(
      FinishSegment(a, SegmentType.Local, HopsIn(hops, SegmentType.Local, n), hops),
      FinishSegment(a, SegmentType.Router, HopsIn(hops, SegmentType.Router, n), hops),
      FinishSegment(a, SegmentType.Isp, HopsIn(hops, SegmentType.Isp, n), hops),
      FinishSegment(a, SegmentType.Backbone, HopsIn(hops, SegmentType.Backbone, n), hops),
      FinishSegment(a, SegmentType.Destination, HopsIn(hops, SegmentType.Destination, n), hops))
  }

  /**
   * `identify_segments`: one pass over the hops that classifies each one,
   * records each new autonomous system, and appends the hop to its segment;
   * then every segment gets its latency, loss and status.
   */
  method IdentifySegments(a: Analyzer, hops: seq<HopInfo>) returns (segs: PathSegments)
    ensures segs == SegmentsOf(a, hops)
  {
    var local, router, isp, backbone, destination := ClassifyHops(hops);
    segs := PathSegments(
      FinishSegment(a, SegmentType.Local, local, hops),
      FinishSegment(a, SegmentType.Router, router, hops),
      FinishSegment(a, SegmentType.Isp, isp, hops),
      FinishSegment(a, SegmentType.Backbone, backbone, hops),
      FinishSegment(a, SegmentType.Destination, destination, hops));
  }

  /** The pass of `identify_segments` over the hops: each segment's hops, in path order. */
  method ClassifyHops(hops: seq<HopInfo>)
      returns (local: seq<HopInfo>, router: seq<HopInfo>, isp: seq<HopInfo>,
               backbone: seq<HopInfo>, destination: seq<HopInfo>)
    ensures local == HopsIn(hops, SegmentType.Local, |hops|)
    ensures router == HopsIn(hops, SegmentType.Router, |hops|)
    ensures isp == HopsIn(hops, SegmentType.Isp, |hops|)
    ensures backbone == HopsIn(hops, SegmentType.Backbone, |hops|)
    ensures destination == HopsIn(hops, SegmentType.Destination, |hops|)
  {
    local, router, isp, backbone, destination := [], [], [], [], [];
    var seenAsns: seq<Option<nat>> := [];
    var current := SegmentType.Local;
    var i := 0;
    while i < |hops|
      invariant 0 <= i <= |hops|
      invariant StateAfter(hops, i) == ClassifyState(seenAsns, current)
      invariant local == HopsIn(hops, SegmentType.Local, i)
      invariant router == HopsIn(hops, SegmentType.Router, i)
      invariant isp == HopsIn(hops, SegmentType.Isp, i)
      invariant backbone == HopsIn(hops, SegmentType.Backbone, i)
      invariant destination == HopsIn(hops, SegmentType.Destination, i)
    {
      var hop := hops[i];
      var segment := ClassifyHop(hop, seenAsns, current);
      HopsInStep(hops, i);
      current := segment;
      if hop.asn.Some? && hop.asn !in seenAsns {
        seenAsns := seenAsns + [hop.asn];
      }
      local, router, isp, backbone, destination :=
        Route(segment, hop, local, router, isp, backbone, destination);
      i := i + 1;
    }
  }

  /** Appends a classified hop to its segment's list; a hop is never classified Unknown, so the last branch is Destination. */
  method Route(segment: SegmentType, hop: HopInfo, local0: seq<HopInfo>, router0: seq<HopInfo>,
               isp0: seq<HopInfo>, backbone0: seq<HopInfo>, destination0: seq<HopInfo>)
      returns (local: seq<HopInfo>, router: seq<HopInfo>, isp: seq<HopInfo>,
               backbone: seq<HopInfo>, destination: seq<HopInfo>)
    requires segment != SegmentType.Unknown
    ensures local == local0 + (if segment == SegmentType.Local then [hop] else [])
    ensures router == router0 + (if segment == SegmentType.Router then [hop] else [])
    ensures isp == isp0 + (if segment == SegmentType.Isp then [hop] else [])
    ensures backbone == backbone0 + (if segment == SegmentType.Backbone then [hop] else [])
    ensures destination == destination0 + (if segment == SegmentType.Destination then [hop] else [])
  {
    local, router, isp, backbone, destination := local0, router0, isp0, backbone0, destination0;
    if segment == SegmentType.Local {
      local := local + [hop];
    } else if segment == SegmentType.Router {
      router := router + [hop];
    } else if segment == SegmentType.Isp {
      isp := isp + [hop];
    } else if segment == SegmentType.Backbone {
      backbone := backbone + [hop];
    } else {
      destination := destination + [hop];
    }
  }

  // ---------------------------------------------------------------------------
  // Issues
  // ---------------------------------------------------------------------------

  /** The high-latency issue of a segment that is the primary contributor above 100 ms; Error above 200 ms. */
  function LatencyIssues(t: SegmentType, s: SegmentAnalysis): seq<PathIssue> {
    match s.latency
    case Some(l) =>
      if l.isPrimaryContributor && l.absoluteMs > 100.0 then
        [PathIssue(t, IssueType.HighLatency,
          if l.absoluteMs > 200.0 then IssueSeverity.Error else IssueSeverity.Warning,
          Some(LatencyFix(t)))]
      else []
    case None => []
  }

  /** The packet-loss issue of a segment above the threshold; Error above 5 percent. */
  function LossIssues(a: Analyzer, t: SegmentType, s: SegmentAnalysis): seq<PathIssue> {
    if s.packetLossPercent > a.packetLossThreshold then
      [PathIssue(t, IssueType.PacketLoss,
        if s.packetLossPercent > 5.0 then IssueSeverity.Error else IssueSeverity.Warning,
        Some(LossFix(t)))]
    else []
  }

  /** The critical unreachable issue of a segment that is down. */
  function DownIssues(t: SegmentType, s: SegmentAnalysis): seq<PathIssue> {
    if s.status == SegmentStatus.Down then
      [PathIssue(t, IssueType.Unreachable, IssueSeverity.Critical, Some(CheckConnectivity))]
    else []
  }

  /** The issues one segment contributes, in the order they are checked. */
  function SegmentIssues(a: Analyzer, t: SegmentType, s: SegmentAnalysis): seq<PathIssue> {
    LatencyIssues(t, s) + LossIssues(a, t, s) + DownIssues(t, s)
  }

  /**
   * The body of the segment loop of `identify_issues`: pushes the high
   * latency, packet loss and unreachable issues of one segment.
   */
  method PushSegmentIssues(a: Analyzer, issues: seq<PathIssue>, segmentType: SegmentType, segment: SegmentAnalysis)
    returns (r: seq<PathIssue>)
    ensures r == issues + SegmentIssues(a, segmentType, segment)
  {
    r := issues;
    match segment.latency {
      case Some(l) =>
        if l.isPrimaryContributor && l.absoluteMs > 100.0 {
          r := r + [PathIssue(segmentType, IssueType.HighLatency,
            if l.absoluteMs > 200.0 then IssueSeverity.Error else IssueSeverity.Warning,
            Some(LatencyFix(segmentType)))];
        }
      case None =>
    }
    assert r == issues + LatencyIssues(segmentType, segment);
    if segment.packetLossPercent > a.packetLossThreshold {
      r := r + [PathIssue(segmentType, IssueType.PacketLoss,
        if segment.packetLossPercent > 5.0 then IssueSeverity.Error else IssueSeverity.Warning,
        Some(LossFix(segmentType)))];
    }
    assert r == issues + LatencyIssues(segmentType, segment) + LossIssues(a, segmentType, segment);
    if segment.status == SegmentStatus.Down {
      r := r + [PathIssue(segmentType, IssueType.Unreachable, IssueSeverity.Critical, Some(CheckConnectivity))];
    }
    assert r == issues + LatencyIssues(segmentType, segment) + LossIssues(a, segmentType, segment) +
      DownIssues(segmentType, segment);
    AppendAssoc(issues, LatencyIssues(segmentType, segment) + LossIssues(a, segmentType, segment),
      DownIssues(segmentType, segment));
    AppendAssoc(issues, LatencyIssues(segmentType, segment), LossIssues(a, segmentType, segment));
  }

  lemma AppendAssoc<T>(x: seq<T>, y: seq<T>, z: seq<T>)
    ensures x + (y + z) == x + y + z
  {
  }

  /** Each segment's issues are about that segment, at most one of each kind. */
  lemma SegmentIssuesAboutSegment(a: Analyzer, t: SegmentType, s: SegmentAnalysis)
    ensures |SegmentIssues(a, t, s)| <= 3
    ensures forall i :: 0 <= i < |SegmentIssues(a, t, s)| ==> SegmentIssues(a, t, s)[i].segment == t
  {
    var l, p, d := LatencyIssues(t, s), LossIssues(a, t, s), DownIssues(t, s);
    assert |l| <= 1 && (|l| == 1 ==> l[0].segment == t);
    assert |p| <= 1 && (|p| == 1 ==> p[0].segment == t);
    assert |d| <= 1 && (|d| == 1 ==> d[0].segment == t);
  }

  /**
   * A segment that is down always yields a critical Unreachable issue; a
   * packet loss above the threshold always yields a PacketLoss issue, an
   * error above 5 percent.
   */
  lemma SegmentIssuesProps(a: Analyzer, t: SegmentType, s: SegmentAnalysis)
    ensures s.status == SegmentStatus.Down ==>
      PathIssue(t, IssueType.Unreachable, IssueSeverity.Critical, Some(CheckConnectivity)) in SegmentIssues(a, t, s)
    ensures s.packetLossPercent > a.packetLossThreshold ==>
      PathIssue(t, IssueType.PacketLoss,
        if s.packetLossPercent > 5.0 then IssueSeverity.Error else IssueSeverity.Warning,
        Some(LossFix(t))) in SegmentIssues(a, t, s)
  {
  }

  /** The latency-spike issue of one jump: Error above 100 ms, else Warning. */
  function SpikeIssue(j: Jump): PathIssue {
    PathIssue(SegmentType.Unknown, IssueType.LatencySpike,
      if AsMillis(j.diff) > 100 then IssueSeverity.Error else IssueSeverity.Warning, None)
  }

  /** The spike issues of the first `n` jumps. */
  function SpikeIssues(jumps: seq<Jump>, n: nat): (r: seq<PathIssue>)
    requires n <= |jumps|
    ensures |r| == n
    ensures forall i :: 0 <= i < n ==> r[i] == SpikeIssue(jumps[i])
  {
    if n == 0 then [] else SpikeIssues(jumps, n - 1) + [SpikeIssue(jumps[n - 1])]
  }

  /** The issue `identify_issues` adds when the destination was not reached. */
  function UnreachedIssue(): PathIssue {
    PathIssue(SegmentType.Destination, IssueType.Unreachable, IssueSeverity.Critical, Some(DestinationMayBlock))
  }

  /** The five segments with their types, in the order `identify_issues` visits them. */
  function SegmentList(segs: PathSegments): seq<(SegmentType, SegmentAnalysis)> {
    [(SegmentType.Local, segs.local), (SegmentType.Router, segs.router), (SegmentType.Isp, segs.isp),
     (SegmentType.Backbone, segs.backbone), (SegmentType.Destination, segs.destination)]
  }

  /** The issues of the first `n` listed segments. */
  function IssuesOfSegments(a: Analyzer, list: seq<(SegmentType, SegmentAnalysis)>, n: nat): seq<PathIssue>
    requires n <= |list|
  {
    if n == 0 then [] else IssuesOfSegments(a, list, n - 1) + SegmentIssues(a, list[n - 1].0, list[n - 1].1)
  }

  /** Everything `identify_issues` reports, in order. */
  function IssuesOf(a: Analyzer, segs: PathSegments, t: TracerouteResult): seq<PathIssue> {
    var list := SegmentList(segs);
    var jumps := JumpsUpTo(t.hops, a.latencyJumpThresholdMs, |t.hops|);
    IssuesOfSegments(a, list, |list|) + SpikeIssues(jumps, |jumps|) +
    (if t.reached then [] else [UnreachedIssue()])
  }

  /**
   * `identify_issues`: walks the five segments, then the latency jumps, then
   * checks whether the destination was reached, pushing each issue found.
   */
  method IdentifyIssues(a: Analyzer, segs: PathSegments, t: TracerouteResult) returns (issues: seq<PathIssue>)
    ensures issues == IssuesOf(a, segs, t)
  {
    issues := [];
    var list := SegmentList(segs);
    var k := 0;
    while k < |list|
      invariant 0 <= k <= |list|
      invariant issues == IssuesOfSegments(a, list, k)
    {
      var (segmentType, segment) := list[k];
      issues := PushSegmentIssues(a, issues, segmentType, segment);
      k := k + 1;
    }
    var base := issues;
    var jumps := LatencyJumps(t.hops, a.latencyJumpThresholdMs);
    var j := 0;
    while j < |jumps|
      invariant 0 <= j <= |jumps|
      invariant issues == base + SpikeIssues(jumps, j)
    {
      var jump := jumps[j];
      issues := issues + [PathIssue(SegmentType.Unknown, IssueType.LatencySpike,
        if AsMillis(jump.diff) > 100 then IssueSeverity.Error else IssueSeverity.Warning, None)];
      j := j + 1;
    }
    if !t.reached {
      issues := issues + [UnreachedIssue()];
    }
  }

  /** An unreached destination always ends the issue list with a critical Unreachable issue. */
  lemma UnreachedIsCritical(a: Analyzer, segs: PathSegments, t: TracerouteResult)
    requires !t.reached
    ensures var issues := IssuesOf(a, segs, t);
      |issues| > 0 && issues[|issues| - 1] == UnreachedIssue() &&
      issues[|issues| - 1].severity == IssueSeverity.Critical &&
      issues[|issues| - 1].issueType == IssueType.Unreachable
  {
  }

  /** An unreached destination caps the path's health score at 60. */
  lemma UnreachedCapsScore(a: Analyzer, segs: PathSegments, t: TracerouteResult)
    requires !t.reached
    ensures HealthScoreUpTo(IssuesOf(a, segs, t), |IssuesOf(a, segs, t)|) <= 60
  {
    var issues := IssuesOf(a, segs, t);
    UnreachedIsCritical(a, segs, t);
    CriticalCapsScore(issues, |issues|, |issues| - 1);
  }

  /** Every issue of a listed segment appears among the issues of the first `n` segments past it. */
  lemma {:induction false} SegmentIssuesIncluded(a: Analyzer, list: seq<(SegmentType, SegmentAnalysis)>,
    n: nat, k: nat, x: PathIssue)
    requires k < n <= |list| && x in SegmentIssues(a, list[k].0, list[k].1)
    ensures x in IssuesOfSegments(a, list, n)
  {
    if k < n - 1 {
      SegmentIssuesIncluded(a, list, n - 1, k, x);
    }
  }

  /** A segment that is down always yields a critical Unreachable issue for that segment. */
  lemma DownSegmentIsCritical(a: Analyzer, segs: PathSegments, t: TracerouteResult, k: nat)
    requires k < 5 && SegmentList(segs)[k].1.status == SegmentStatus.Down
    ensures PathIssue(SegmentList(segs)[k].0, IssueType.Unreachable, IssueSeverity.Critical, Some(CheckConnectivity))
      in IssuesOf(a, segs, t)
  {
    var list := SegmentList(segs);
    var x := PathIssue(list[k].0, IssueType.Unreachable, IssueSeverity.Critical, Some(CheckConnectivity));
    SegmentIssuesProps(a, list[k].0, list[k].1);
    SegmentIssuesIncluded(a, list, 5, k, x);
  }

  // ---------------------------------------------------------------------------
  // Health
  // ---------------------------------------------------------------------------

  /** The points one issue costs: 2, 10, 25 or 40 by severity. */
  function Deduction(s: IssueSeverity): (d: nat)
    ensures d > 0
  {
    match s
    case Info => 2
    case Warning => 10
    case Error => 25
    case Critical => 40
  }

  /** The score after the first `n` saturating deductions from 100. */
  function HealthScoreUpTo(issues: seq<PathIssue>, n: nat): nat
    requires n <= |issues|
  {
    if n == 0 then 100 else Sat(HealthScoreUpTo(issues, n - 1), Deduction(issues[n - 1].severity))
  }

  /** The sum of the deductions of the first `n` issues. */
  function TotalDeduction(issues: seq<PathIssue>, n: nat): nat
    requires n <= |issues|
  {
    if n == 0 then 0 else TotalDeduction(issues, n - 1) + Deduction(issues[n - 1].severity)
  }

  /**
   * The chain of saturating subtractions is 100 minus the total deduction,
   * floored at 0: the score never rises, never exceeds 100, and stays 100
   * exactly when there are no issues.
   */
  lemma {:induction false} HealthScoreIsClampedTotal(issues: seq<PathIssue>, n: nat)
    requires n <= |issues|
    ensures HealthScoreUpTo(issues, n) == Sat(100, TotalDeduction(issues, n))
    ensures HealthScoreUpTo(issues, n) <= 100
    ensures HealthScoreUpTo(issues, n) == 100 <==> n == 0
  {
    if n > 0 {
      HealthScoreIsClampedTotal(issues, n - 1);
    }
  }

  /** A critical issue caps the score at 60. */
  lemma {:induction false} CriticalCapsScore(issues: seq<PathIssue>, n: nat, k: nat)
    requires k < n <= |issues| && issues[k].severity == IssueSeverity.Critical
    ensures HealthScoreUpTo(issues, n) <= 60
  {
    TotalAtLeast(issues, n, k);
    HealthScoreIsClampedTotal(issues, n);
  }

  /** The total deduction includes every issue's own deduction. */
  lemma {:induction false} TotalAtLeast(issues: seq<PathIssue>, n: nat, k: nat)
    requires k < n <= |issues|
    ensures TotalDeduction(issues, n) >= Deduction(issues[k].severity)
  {
    if k < n - 1 {
      TotalAtLeast(issues, n - 1, k);
    }
  }

  /** The summary sentence of each rating. */
  function Summary(r: HealthRating): string {
    match r
    case Excellent => "Network path is healthy with no significant issues"
    case Good => "Network path is generally healthy with minor issues"
    case Fair => "Network path has some issues that may affect performance"
    case Poor => "Network path has significant issues affecting connectivity"
    case Critical => "Network path has critical issues causing severe degradation"
  }

  /** The first segment, in path order, that is impaired or down. */
  function ProblematicSegment(segs: PathSegments): (r: Option<SegmentType>)
    ensures r.Some? ==> exists k :: (0 <= k < 5 && SegmentList(segs)[k].0 == r.value &&
      SegmentList(segs)[k].1.status in {SegmentStatus.Impaired, SegmentStatus.Down})
    ensures r.None? ==> forall k :: 0 <= k < 5 ==>
      SegmentList(segs)[k].1.status !in {SegmentStatus.Impaired, SegmentStatus.Down}
  {
    var list := SegmentList(segs);
    if list[0].1.status in {SegmentStatus.Impaired, SegmentStatus.Down} then Some(list[0].0)
    else if list[1].1.status in {SegmentStatus.Impaired, SegmentStatus.Down} then Some(list[1].0)
    else if list[2].1.status in {SegmentStatus.Impaired, SegmentStatus.Down} then Some(list[2].0)
    else if list[3].1.status in {SegmentStatus.Impaired, SegmentStatus.Down} then Some(list[3].0)
    else if list[4].1.status in {SegmentStatus.Impaired, SegmentStatus.Down} then Some(list[4].0)
    else None
  }

  /**
   * `calculate_health`: starts at 100 and takes a saturating deduction per
   * issue; the rating is the score's band, and the problematic segment is the
   * first impaired or down one.
   */
  method CalculateHealth(segs: PathSegments, issues: seq<PathIssue>) returns (h: PathHealth)
    ensures h.score == HealthScoreUpTo(issues, |issues|) == Sat(100, TotalDeduction(issues, |issues|))
    ensures h.score <= 100 && h.rating == FromScore(h.score)
    ensures h.summary == Summary(h.rating)
    ensures h.problematicSegment == ProblematicSegment(segs)
  {
    var score := 100;
    var i := 0;
    while i < |issues|
      invariant 0 <= i <= |issues|
      invariant score == HealthScoreUpTo(issues, i)
    {
      var deduction := match issues[i].severity
        case Info => 2
        case Warning => 10
        case Error => 25
        case Critical => 40;
      score := if score >= deduction then score - deduction else 0;
      i := i + 1;
    }
    HealthScoreIsClampedTotal(issues, |issues|);
    var rating := FromScore(score);
    h := PathHealth(score, rating, Summary(rating), ProblematicSegment(segs));
  }

  // ---------------------------------------------------------------------------
  // Recommendations
  // ---------------------------------------------------------------------------

  predicate HasSegment(issues: seq<PathIssue>, n: nat, kinds: set<SegmentType>)
    requires n <= |issues|
  {
    exists i :: 0 <= i < n && issues[i].segment in kinds
  }

  /** The grouped advice: local (local or router issues), ISP, destination, in that order. */
  function GroupAdvice(issues: seq<PathIssue>): seq<Advice> {
    var n := |issues|;
    (if HasSegment(issues, n, {SegmentType.Local, SegmentType.Router}) then [CheckLocalNetwork] else []) +
    (if HasSegment(issues, n, {SegmentType.Isp}) then [ContactIsp] else []) +
    (if HasSegment(issues, n, {SegmentType.Destination}) then [CheckDestinationStatus] else [])
  }

  /** One step of the critical loop: append a new critical remediation. */
  function AddRemediation(recs: seq<Advice>, issue: PathIssue): seq<Advice> {
    if issue.severity == IssueSeverity.Critical && issue.remediation.Some? && issue.remediation.value !in recs
    then recs + [issue.remediation.value]
    else recs
  }

  /** The advice after the critical remediations of the first `n` issues. */
  function WithRemediations(base: seq<Advice>, issues: seq<PathIssue>, n: nat): seq<Advice>
    requires n <= |issues|
  {
    if n == 0 then base else AddRemediation(WithRemediations(base, issues, n - 1), issues[n - 1])
  }

  /** What `generate_recommendations` returns. */
  function RecommendationsOf(issues: seq<PathIssue>): seq<Advice> {
    var recs := WithRemediations(GroupAdvice(issues), issues, |issues|);
    if recs == [] then [NoActionNeeded] else recs
  }

  /**
   * `generate_recommendations`: flags the segment groups with issues, adds
   * their advice, appends each critical remediation not yet listed, and falls
   * back to a no-action line.
   */
  method GenerateRecommendations(issues: seq<PathIssue>) returns (recs: seq<Advice>)
    ensures recs == RecommendationsOf(issues)
  {
    var hasLocal, hasIsp, hasDestination := false, false, false;
    var i := 0;
    while i < |issues|
      invariant 0 <= i <= |issues|
      invariant hasLocal == HasSegment(issues, i, {SegmentType.Local, SegmentType.Router})
      invariant hasIsp == HasSegment(issues, i, {SegmentType.Isp})
      invariant hasDestination == HasSegment(issues, i, {SegmentType.Destination})
    {
      match issues[i].segment {
        case Local => hasLocal := true;
        case Router => hasLocal := true;
        case Isp => hasIsp := true;
        case Destination => hasDestination := true;
        case _ =>
      }
      i := i + 1;
    }
    recs := [];
    if hasLocal {
      recs := recs + [CheckLocalNetwork];
    }
    if hasIsp {
      recs := recs + [ContactIsp];
    }
    if hasDestination {
      recs := recs + [CheckDestinationStatus];
    }
    var base := recs;
    assert base == GroupAdvice(issues);
    i := 0;
    while i < |issues|
      invariant 0 <= i <= |issues|
      invariant recs == WithRemediations(base, issues, i)
    {
      var issue := issues[i];
      if issue.severity == IssueSeverity.Critical && issue.remediation.Some? {
        if issue.remediation.value !in recs {
          recs := recs + [issue.remediation.value];
        }
      }
      i := i + 1;
    }
    if recs == [] {
      recs := [NoActionNeeded];
    }
  }

  predicate NoDuplicates(s: seq<Advice>) {
    forall i, j :: 0 <= i < j < |s| ==> s[i] != s[j]
  }

  /** The remediation loop keeps a duplicate-free list duplicate-free and covers every critical remediation. */
  lemma {:induction false} WithRemediationsProps(base: seq<Advice>, issues: seq<PathIssue>, n: nat)
    requires n <= |issues| && NoDuplicates(base)
    ensures NoDuplicates(WithRemediations(base, issues, n))
    ensures forall x :: x in base ==> x in WithRemediations(base, issues, n)
    ensures forall k :: (0 <= k < n && issues[k].severity == IssueSeverity.Critical && issues[k].remediation.Some?
      ==> issues[k].remediation.value in WithRemediations(base, issues, n))
  {
    if n > 0 {
      WithRemediationsProps(base, issues, n - 1);
    }
  }

  /**
   * Recommendations are never empty, hold no duplicates, and include the
   * remediation of every critical issue.
   */
  lemma RecommendationsProps(issues: seq<PathIssue>)
    ensures |RecommendationsOf(issues)| >= 1
    ensures NoDuplicates(RecommendationsOf(issues))
    ensures forall k :: (0 <= k < |issues| && issues[k].severity == IssueSeverity.Critical &&
      issues[k].remediation.Some?) ==> issues[k].remediation.value in RecommendationsOf(issues)
  {
    WithRemediationsProps(GroupAdvice(issues), issues, |issues|);
  }

  // ---------------------------------------------------------------------------
  // Buffer bloat and the whole analysis
  // ---------------------------------------------------------------------------

  /** The advice `detect_buffer_bloat` gives for a grade. */
  function BloatAdvice(g: BufferBloatGrade): (r: seq<string>)
    ensures |r| >= 1
  {
    match g
    case APlus => ["Network handles load well"]
    case A => ["Network handles load well"]
    case B => ["Minor buffer bloat detected; consider enabling SQM/QoS"]
    case C => ["Moderate buffer bloat; enable SQM/QoS on router", "Consider using fq_codel or cake qdisc"]
    case D => ["Severe buffer bloat detected", "Enable SQM with fq_codel or cake immediately",
               "Consider upgrading router firmware (OpenWrt)"]
    case F => ["Severe buffer bloat detected", "Enable SQM with fq_codel or cake immediately",
               "Consider upgrading router firmware (OpenWrt)"]
  }

  /**
   * `detect_buffer_bloat`: the increase is loaded minus baseline (it may be
   * negative), the percentage is relative to a positive baseline and 0
   * otherwise, and the grade is the band of the increase.
   */
  function DetectBufferBloat(baselineMs: real, loadedMs: real): (r: BufferBloatResult)
    ensures r.latencyIncreaseMs + baselineMs == loadedMs
    ensures baselineMs <= 0.0 ==> r.latencyIncreasePercent == 0.0
    ensures baselineMs > 0.0 ==> r.latencyIncreasePercent * baselineMs == r.latencyIncreaseMs * 100.0
    ensures r.grade == FromIncreaseMs(r.latencyIncreaseMs) && |r.recommendations| >= 1
  {
    var increase := loadedMs - baselineMs;
    var percent := if baselineMs > 0.0 then increase / baselineMs * 100.0 else 0.0;
    var grade := FromIncreaseMs(increase);
    BufferBloatResult(baselineMs, loadedMs, increase, percent, grade, BloatAdvice(grade))
  }

  /** `PathAnalysis`; the timestamp is the clock reading passed in. */
  datatype PathAnalysisResult = PathAnalysisResult(
    target: string,
    targetIp: Option<IpAddr>,
    segments: PathSegments,
    health: PathHealth,
    issues: seq<PathIssue>,
    recommendations: seq<Advice>,
    timestamp: int)

  /**
   * `analyze`: hop records, segments, issues, health and recommendations of
   * one traceroute. `targetText` is the display form of the target address
   * and `now` the clock reading.
   */
  method Analyze(a: Analyzer, t: TracerouteResult, targetText: string, now: int) returns (r: PathAnalysisResult)
    ensures r.target == t.targetHostname.GetOr(targetText) && r.targetIp == Some(t.target)
    ensures r.segments == SegmentsOf(a, ExtractHopInfo(t.hops))
    ensures r.issues == IssuesOf(a, r.segments, t)
    ensures r.health.score == Sat(100, TotalDeduction(r.issues, |r.issues|))
    ensures r.health.rating == FromScore(r.health.score) && r.health.summary == Summary(r.health.rating)
    ensures r.health.problematicSegment == ProblematicSegment(r.segments)
    ensures r.recommendations == RecommendationsOf(r.issues)
    ensures !t.reached ==> r.health.score <= 60
    ensures r.timestamp == now
  {
    var hops := ExtractHopInfo(t.hops);
    var segments := IdentifySegments(a, hops);
    var issues := IdentifyIssues(a, segments, t);
    var health := CalculateHealth(segments, issues);
    var recommendations := GenerateRecommendations(issues);
    if !t.reached {
      UnreachedCapsScore(a, segments, t);
    }
    r := PathAnalysisResult(t.targetHostname.GetOr(targetText), Some(t.target), segments, health,
      issues, recommendations, now);
  }
}
