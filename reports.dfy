/**
 * Diagnostic reports (crates/netdiag-reports, report.rs): the report's
 * summaries, the builder, and the health assessment `build` computes when
 * none was set. Issue texts are formatted with floating-point values in
 * the source; here an issue is a value that names what was found.
 */
module Reports {
  import opened Wrappers
  import opened IpAddrs
  import opened Durations
  import opened TracerouteTypes

  datatype ReportFormat = Json | Text | Markdown | Html | Pdf {
    /** `extension`. */
    function Extension(): string {
      match this
      case Json => "json"
      case Text => "txt"
      case Markdown => "md"
      case Html => "html"
      case Pdf => "pdf"
    }
  }

  /** Every format has its own extension. */
  lemma ExtensionsDistinct(f: ReportFormat, g: ReportFormat)
    ensures f.Extension() == g.Extension() ==> f == g
  {
    if f != g {
      match f
      case Json => assert f.Extension()[0] == 'j';
      case Text => assert f.Extension()[0] == 't';
      case Markdown => assert f.Extension()[0] == 'm';
      case Html => assert f.Extension()[0] == 'h';
      case Pdf => assert f.Extension()[0] == 'p' && |f.Extension()| == 3;
    }
  }

  datatype InterfaceSummary = InterfaceSummary(
    name: string, interfaceType: string, ipv4Addresses: seq<string>, ipv6Addresses: seq<string>,
    macAddress: Option<string>, isUp: bool, isDefault: bool)

  datatype DnsSummary = DnsSummary(
    query: string, addresses: seq<string>, durationMs: real, success: bool, error: Option<string>)

  /** `PingSummary`; the standard deviation is not modelled. */
  datatype PingSummary = PingSummary(
    target: string, transmitted: nat, received: nat, lossPercent: real,
    minRttMs: Option<real>, avgRttMs: Option<real>, maxRttMs: Option<real>, quality: string)

  /** `TracerouteHopSummary`; the address is kept as an address rather than its text. */
  datatype TracerouteHopSummary = TracerouteHopSummary(
    hop: nat, address: Option<IpAddr>, hostname: Option<string>, rttMs: seq<Option<real>>, allTimeout: bool)

  /** `TracerouteSummary`; the target and protocol are kept as values rather than their text. */
  datatype TracerouteSummary = TracerouteSummary(
    target: IpAddr, reached: bool, hopCount: nat, durationMs: real, protocol: TracerouteProtocol,
    hops: seq<TracerouteHopSummary>)

  /** A duration in milliseconds, `as_secs_f64() * 1000.0`. */
  function Millis(d: Duration): real {
    AsSecs(d) * 1000.0
  }

  function ProbeMillis(probes: seq<TracerouteProbe>): (r: seq<Option<real>>)
    ensures |r| == |probes|
    ensures forall i :: 0 <= i < |probes| ==> (r[i].Some? <==> probes[i].rtt.Some?)
  {
    if |probes| == 0 then []
    else
      var p := probes[|probes| - 1];
      ProbeMillis(probes[..|probes| - 1]) + [if p.rtt.Some? then Some(Millis(p.rtt.value)) else None]
  }

  function HopSummary(h: TracerouteHop): TracerouteHopSummary {
    TracerouteHopSummary(h.hop, h.address, h.hostname, ProbeMillis(h.probes), h.allTimeout)
  }

  function HopSummaries(hops: seq<TracerouteHop>): (r: seq<TracerouteHopSummary>)
    ensures |r| == |hops|
    ensures forall i :: 0 <= i < |hops| ==> r[i] == HopSummary(hops[i])
  {
    if |hops| == 0 then [] else HopSummaries(hops[..|hops| - 1]) + [HopSummary(hops[|hops| - 1])]
  }

  /**
   * `TracerouteSummary::from`: the hop count is the number of hops whether
   * or not the target was reached (unlike `TracerouteResult::hop_count`),
   * and each hop keeps its number, address, timeout flag and which probes
   * answered.
   */
  function SummaryOf(t: TracerouteResult): (s: TracerouteSummary)
    ensures s.hopCount == |t.hops| == |s.hops| && s.reached == t.reached && s.target == t.target
    ensures t.reached ==> s.hopCount == HopCount(t)
    ensures !t.reached && |t.hops| > 0 ==> s.hopCount > HopCount(t)
    ensures forall i :: 0 <= i < |t.hops| ==>
      s.hops[i].hop == t.hops[i].hop && s.hops[i].address == t.hops[i].address &&
      s.hops[i].allTimeout == t.hops[i].allTimeout && |s.hops[i].rttMs| == |t.hops[i].probes|
  {
    TracerouteSummary(t.target, t.reached, |t.hops|, Millis(t.duration), t.protocol, HopSummaries(t.hops))
  }

  // Health assessment

  /** What `calculate_health` reports, one value per pushed issue text. */
  datatype ReportIssue =
    | HighPacketLoss(target: string, lossPercent: real)
    | MinorPacketLoss(target: string, lossPercent: real)
    | HighLatency(target: string, avgMs: real)
    | ElevatedLatency(target: string, avgMs: real)
    | Unreachable(destination: IpAddr)
    | HopsTimingOut(count: nat, destination: IpAddr)
    | DnsFailed(query: string)
    | SlowDns(query: string, durationMs: real)
  {
    /** The saturating deduction that accompanies the issue. */
    function Deduction(): (d: nat)
      ensures d >= 5
    {
      match this
      case HighPacketLoss(_, _) => 20
      case MinorPacketLoss(_, _) => 5
      case HighLatency(_, _) => 15
      case ElevatedLatency(_, _) => 5
      case Unreachable(_) => 25
      case HopsTimingOut(_, _) => 10
      case DnsFailed(_) => 20
      case SlowDns(_, _) => 5
    }
  }

  /** The fixed recommendation texts. */
  datatype Advice = CheckCongestion | CheckFirewall | CheckDnsConfig | FasterDns | Healthy {
    function Text(): string {
      match this
      case CheckCongestion => "Consider checking for network congestion"
      case CheckFirewall => "Check firewall settings and routing"
      case CheckDnsConfig => "Check DNS server configuration"
      case FasterDns => "Consider using faster DNS servers"
      case Healthy => "Network appears healthy"
    }
  }

  datatype HealthStatus = Good | Warning | Critical {
    function Text(): string {
      match this
      case Good => "good"
      case Warning => "warning"
      case Critical => "critical"
    }
  }

  datatype HealthAssessment = HealthAssessment(
    status: HealthStatus, score: nat, issues: seq<ReportIssue>, recommendations: seq<Advice>)

  /** `DiagnosticReport`; the id, timestamp, version and raw data are not modelled. */
  datatype DiagnosticReport = DiagnosticReport(
    title: string,
    hostname: Option<string>,
    osInfo: Option<string>,
    extra: map<string, string>,
    health: Option<HealthAssessment>,
    interfaces: seq<InterfaceSummary>,
    dnsResults: seq<DnsSummary>,
    pingResults: seq<PingSummary>,
    tracerouteResults: seq<TracerouteSummary>)

  /** The issues for one ping summary: its loss, then its latency. */
  function PingIssues(p: PingSummary): seq<ReportIssue> {
    (if p.lossPercent > 10.0 then [HighPacketLoss(p.target, p.lossPercent)]
     else if p.lossPercent > 0.0 then [MinorPacketLoss(p.target, p.lossPercent)]
     else []) +
    (if p.avgRttMs.Some? && p.avgRttMs.value > 200.0 then [HighLatency(p.target, p.avgRttMs.value)]
     else if p.avgRttMs.Some? && p.avgRttMs.value > 100.0 then [ElevatedLatency(p.target, p.avgRttMs.value)]
     else [])
  }

  function PingAdvice(p: PingSummary): seq<Advice> {
    if p.avgRttMs.Some? && p.avgRttMs.value > 200.0 then [CheckCongestion] else []
  }

  /** `filter(|h| h.all_timeout).count()`. */
  function TimeoutHops(hops: seq<TracerouteHopSummary>): (n: nat)
    ensures n <= |hops|
  {
    if |hops| == 0 then 0
    else TimeoutHops(hops[..|hops| - 1]) + if hops[|hops| - 1].allTimeout then 1 else 0
  }

  function TraceIssues(t: TracerouteSummary): seq<ReportIssue> {
    (if !t.reached then [Unreachable(t.target)] else []) +
    (if TimeoutHops(t.hops) > 2 then [HopsTimingOut(TimeoutHops(t.hops), t.target)] else [])
  }

  function TraceAdvice(t: TracerouteSummary): seq<Advice> {
    if !t.reached then [CheckFirewall] else []
  }

  function DnsIssues(d: DnsSummary): seq<ReportIssue> {
    if !d.success then [DnsFailed(d.query)]
    else if d.durationMs > 500.0 then [SlowDns(d.query, d.durationMs)]
    else []
  }

  function DnsAdvice(d: DnsSummary): seq<Advice> {
    if !d.success then [CheckDnsConfig]
    else if d.durationMs > 500.0 then [FasterDns]
    else []
  }

  /** The results of `f` on each element, concatenated in order. */
  function Flatten<T, U>(xs: seq<T>, f: T -> seq<U>): seq<U> {
    if |xs| == 0 then [] else Flatten(xs[..|xs| - 1], f) + f(xs[|xs| - 1])
  }

  /** Where `f` never gives more than `g`, neither does their flattening. */
  lemma {:induction false} FlattenShorter<T, U, V>(xs: seq<T>, f: T -> seq<U>, g: T -> seq<V>)
    requires forall x :: |f(x)| <= |g(x)|
    ensures |Flatten(xs, f)| <= |Flatten(xs, g)|
  {
    if |xs| > 0 {
      FlattenShorter(xs[..|xs| - 1], f, g);
    }
  }

  /** What `f` never gives, the flattening never holds. */
  lemma {:induction false} FlattenAvoids<T, U>(xs: seq<T>, f: T -> seq<U>, y: U)
    requires forall x :: y !in f(x)
    ensures y !in Flatten(xs, f)
  {
    if |xs| > 0 {
      FlattenAvoids(xs[..|xs| - 1], f, y);
    }
  }

  /** What `f` gives for any element, the flattening holds. */
  lemma {:induction false} FlattenHolds<T, U>(xs: seq<T>, f: T -> seq<U>, k: nat, y: U)
    requires k < |xs| && y in f(xs[k])
    ensures y in Flatten(xs, f)
  {
    if k < |xs| - 1 {
      FlattenHolds(xs[..|xs| - 1], f, k, y);
    }
  }

  /** One more element appends its results. */
  lemma FlattenStep<T, U>(base: seq<U>, xs: seq<T>, f: T -> seq<U>, k: nat)
    requires k < |xs|
    ensures base + Flatten(xs[..k + 1], f) == (base + Flatten(xs[..k], f)) + f(xs[k])
  {
    assert xs[..k + 1][..k] == xs[..k];
  }

  /** The issues of a report: the pings', then the traceroutes', then the DNS results'. */
  function ReportIssues(r: DiagnosticReport): seq<ReportIssue> {
    Flatten(r.pingResults, PingIssues) + Flatten(r.tracerouteResults, TraceIssues) +
    Flatten(r.dnsResults, DnsIssues)
  }

  /** The recommendations pushed for the results, before the "healthy" one. */
  function ReportAdvice(r: DiagnosticReport): seq<Advice> {
    Flatten(r.pingResults, PingAdvice) + Flatten(r.tracerouteResults, TraceAdvice) +
    Flatten(r.dnsResults, DnsAdvice)
  }

  /** The score after the issues' saturating deductions from 100, in order. */
  function ScoreAfter(issues: seq<ReportIssue>): nat {
    if |issues| == 0 then 100 else Sat(ScoreAfter(issues[..|issues| - 1]), issues[|issues| - 1].Deduction())
  }

  function Sat(a: nat, b: nat): nat {
    if a >= b then a - b else 0
  }

  function TotalDeduction(issues: seq<ReportIssue>): nat {
    if |issues| == 0 then 0 else TotalDeduction(issues[..|issues| - 1]) + issues[|issues| - 1].Deduction()
  }

  /** `score >= 80` is good, `score >= 50` a warning, anything lower critical. */
  function StatusOf(score: nat): (s: HealthStatus)
    ensures s == Good <==> score >= 80
    ensures s == Warning <==> 50 <= score < 80
    ensures s == Critical <==> score < 50
  {
    if score >= 80 then Good else if score >= 50 then Warning else Critical
  }

  /** `calculate_health` as a value. */
  function HealthOf(r: DiagnosticReport): HealthAssessment {
    var issues := ReportIssues(r);
    HealthAssessment(StatusOf(ScoreAfter(issues)), ScoreAfter(issues), issues,
                     ReportAdvice(r) + if issues == [] then [Healthy] else [])
  }

  /**
   * The chain of saturating deductions is 100 minus their total, floored at
   * 0; the score is 100 exactly when nothing was found.
   */
  lemma {:induction false} ScoreIsClampedTotal(issues: seq<ReportIssue>)
    ensures ScoreAfter(issues) == Sat(100, TotalDeduction(issues))
    ensures ScoreAfter(issues) == 100 <==> issues == []
  {
    if |issues| > 0 {
      ScoreIsClampedTotal(issues[..|issues| - 1]);
    }
  }

  /** An issue's deduction is part of the total of any list holding it. */
  lemma {:induction false} TotalIncludes(issues: seq<ReportIssue>, x: ReportIssue)
    requires x in issues
    ensures TotalDeduction(issues) >= x.Deduction()
  {
    var init := issues[..|issues| - 1];
    if x != issues[|issues| - 1] {
      assert issues == init + [issues[|issues| - 1]];
      TotalIncludes(init, x);
    }
  }

  /** The total of a concatenation is the sum of the totals. */
  lemma {:induction false} TotalAppend(a: seq<ReportIssue>, b: seq<ReportIssue>)
    ensures TotalDeduction(a + b) == TotalDeduction(a) + TotalDeduction(b)
    decreases |b|
  {
    if |b| == 0 {
      assert a + b == a;
    } else {
      assert (a + b)[..|a + b| - 1] == a + b[..|b| - 1];
      TotalAppend(a, b[..|b| - 1]);
    }
  }

  /**
   * The health assessment: the status follows the score bands; the score is
   * 100 minus the total deduction, floored at 0, and 100 exactly when there
   * are no issues; a report without issues gets exactly the "healthy"
   * recommendation, and one with issues never gets it.
   */
  lemma HealthProps(r: DiagnosticReport)
    ensures var h := HealthOf(r);
      h.status == StatusOf(h.score) && h.score == Sat(100, TotalDeduction(h.issues)) && h.score <= 100 &&
      (h.score == 100 <==> h.issues == []) &&
      (h.issues == [] <==> h.recommendations == [Healthy]) &&
      (h.issues != [] ==> Healthy !in h.recommendations)
  {
    var issues := ReportIssues(r);
    ScoreIsClampedTotal(issues);
    FlattenShorter(r.pingResults, PingAdvice, PingIssues);
    FlattenShorter(r.tracerouteResults, TraceAdvice, TraceIssues);
    FlattenShorter(r.dnsResults, DnsAdvice, DnsIssues);
    FlattenAvoids(r.pingResults, PingAdvice, Healthy);
    FlattenAvoids(r.tracerouteResults, TraceAdvice, Healthy);
    FlattenAvoids(r.dnsResults, DnsAdvice, Healthy);
    var h := HealthOf(r);
    if issues == [] {
      assert |ReportAdvice(r)| == 0;
      assert h.recommendations == [] + [Healthy];
    } else {
      assert h.recommendations == ReportAdvice(r) + [];
      assert Healthy !in h.recommendations;
      assert Healthy in [Healthy];
    }
  }

  /** An unreached traceroute is always reported and costs at least 25 points. */
  lemma UnreachedReported(r: DiagnosticReport, k: nat)
    requires k < |r.tracerouteResults| && !r.tracerouteResults[k].reached
    ensures Unreachable(r.tracerouteResults[k].target) in HealthOf(r).issues
    ensures HealthOf(r).score <= 75
  {
    var x := Unreachable(r.tracerouteResults[k].target);
    assert TraceIssues(r.tracerouteResults[k])[0] == x;
    FlattenHolds(r.tracerouteResults, TraceIssues, k, x);
    var issues := ReportIssues(r);
    assert x in issues;
    TotalIncludes(issues, x);
    ScoreIsClampedTotal(issues);
  }

  /** A failed DNS lookup is always reported and costs at least 20 points. */
  lemma DnsFailureReported(r: DiagnosticReport, k: nat)
    requires k < |r.dnsResults| && !r.dnsResults[k].success
    ensures DnsFailed(r.dnsResults[k].query) in HealthOf(r).issues
    ensures HealthOf(r).score <= 80
  {
    var x := DnsFailed(r.dnsResults[k].query);
    assert DnsIssues(r.dnsResults[k])[0] == x;
    FlattenHolds(r.dnsResults, DnsIssues, k, x);
    var issues := ReportIssues(r);
    assert x in issues;
    TotalIncludes(issues, x);
    ScoreIsClampedTotal(issues);
  }

  /**
   * A ping with more than 10% loss costs 20 points, with some loss 5; an
   * average above 200 ms costs 15 more, above 100 ms 5.
   */
  lemma PingDeduction(p: PingSummary)
    ensures TotalDeduction(PingIssues(p)) ==
      (if p.lossPercent > 10.0 then 20 else if p.lossPercent > 0.0 then 5 else 0) +
      (if p.avgRttMs.Some? && p.avgRttMs.value > 200.0 then 15
       else if p.avgRttMs.Some? && p.avgRttMs.value > 100.0 then 5 else 0)
  {
    var loss := if p.lossPercent > 10.0 then [HighPacketLoss(p.target, p.lossPercent)]
                else if p.lossPercent > 0.0 then [MinorPacketLoss(p.target, p.lossPercent)] else [];
    var lat := if p.avgRttMs.Some? && p.avgRttMs.value > 200.0 then [HighLatency(p.target, p.avgRttMs.value)]
               else if p.avgRttMs.Some? && p.avgRttMs.value > 100.0 then [ElevatedLatency(p.target, p.avgRttMs.value)]
               else [];
    TotalAppend(loss, lat);
    Single(loss);
    Single(lat);
  }

  lemma Single(s: seq<ReportIssue>)
    requires |s| <= 1
    ensures TotalDeduction(s) == if |s| == 0 then 0 else s[0].Deduction()
  {
    if |s| == 1 {
      assert s[..0] == [];
    }
  }

  // The builder

  /** `ReportBuilder`, which takes itself by value in every method. */
  datatype ReportBuilder = ReportBuilder(report: DiagnosticReport)

  /** `ReportBuilder::new`: the default title, nothing recorded, no health set. */
  function NewBuilder(): (b: ReportBuilder)
    ensures b.report.health.None? && b.report.pingResults == [] && b.report.dnsResults == []
    ensures b.report.tracerouteResults == [] && b.report.interfaces == [] && b.report.extra == map[]
  {
    ReportBuilder(DiagnosticReport("Network Diagnostics Report", None, None, map[], None, [], [], [], []))
  }

  function AddPingResult(b: ReportBuilder, p: PingSummary): ReportBuilder {
    b.(report := b.report.(pingResults := b.report.pingResults + [p]))
  }

  function AddDnsResult(b: ReportBuilder, d: DnsSummary): ReportBuilder {
    b.(report := b.report.(dnsResults := b.report.dnsResults + [d]))
  }

  function AddTracerouteResult(b: ReportBuilder, t: TracerouteSummary): ReportBuilder {
    b.(report := b.report.(tracerouteResults := b.report.tracerouteResults + [t]))
  }

  /** `add_traceroute`: the result's summary is appended. */
  function AddTraceroute(b: ReportBuilder, t: TracerouteResult): ReportBuilder {
    AddTracerouteResult(b, SummaryOf(t))
  }

  function AddInterface(b: ReportBuilder, i: InterfaceSummary): ReportBuilder {
    b.(report := b.report.(interfaces := b.report.interfaces + [i]))
  }

  function AddMetadata(b: ReportBuilder, key: string, value: string): ReportBuilder {
    b.(report := b.report.(extra := b.report.extra[key := value]))
  }

  function SetHealth(b: ReportBuilder, h: HealthAssessment): ReportBuilder {
    b.(report := b.report.(health := Some(h)))
  }

  /**
   * `calculate_health`: three loops over the ping, traceroute and DNS
   * summaries, pushing issues and recommendations and taking saturating
   * deductions from a score that starts at 100.
   */
  method CalculateHealth(r: DiagnosticReport) returns (h: HealthAssessment)
    ensures h == HealthOf(r)
  {
    var issues, advice, score := PingLoop(r.pingResults, [], [], 100);
    issues, advice, score := TraceLoop(r.tracerouteResults, issues, advice, score);
    issues, advice, score := DnsLoop(r.dnsResults, issues, advice, score);
    assert issues == ReportIssues(r) && advice == ReportAdvice(r) by {
      assert [] + Flatten(r.pingResults, PingIssues) == Flatten(r.pingResults, PingIssues);
      assert [] + Flatten(r.pingResults, PingAdvice) == Flatten(r.pingResults, PingAdvice);
    }
    var status := if score >= 80 then Good else if score >= 50 then Warning else Critical;
    if issues == [] {
      advice := advice + [Healthy];
    }
    h := HealthAssessment(status, score, issues, advice);
  }

  /** The ping loop of `calculate_health`. */
  method PingLoop(pings: seq<PingSummary>, issues: seq<ReportIssue>, advice: seq<Advice>, score: nat)
    returns (issues': seq<ReportIssue>, advice': seq<Advice>, score': nat)
    requires score == ScoreAfter(issues)
    ensures issues' == issues + Flatten(pings, PingIssues) && advice' == advice + Flatten(pings, PingAdvice)
    ensures score' == ScoreAfter(issues')
  {
    issues', advice', score' := issues, advice, score;
    var k := 0;
    while k < |pings|
      invariant 0 <= k <= |pings|
      invariant issues' == issues + Flatten(pings[..k], PingIssues)
      invariant advice' == advice + Flatten(pings[..k], PingAdvice)
      invariant score' == ScoreAfter(issues')
    {
      FlattenStep(issues, pings, PingIssues, k);
      FlattenStep(advice, pings, PingAdvice, k);
      issues', advice', score' := PingStep(pings[k], issues', advice', score');
      k := k + 1;
    }
    assert pings[..k] == pings;
  }

  /** The traceroute loop of `calculate_health`. */
  method TraceLoop(traces: seq<TracerouteSummary>, issues: seq<ReportIssue>, advice: seq<Advice>, score: nat)
    returns (issues': seq<ReportIssue>, advice': seq<Advice>, score': nat)
    requires score == ScoreAfter(issues)
    ensures issues' == issues + Flatten(traces, TraceIssues) && advice' == advice + Flatten(traces, TraceAdvice)
    ensures score' == ScoreAfter(issues')
  {
    issues', advice', score' := issues, advice, score;
    var k := 0;
    while k < |traces|
      invariant 0 <= k <= |traces|
      invariant issues' == issues + Flatten(traces[..k], TraceIssues)
      invariant advice' == advice + Flatten(traces[..k], TraceAdvice)
      invariant score' == ScoreAfter(issues')
    {
      FlattenStep(issues, traces, TraceIssues, k);
      FlattenStep(advice, traces, TraceAdvice, k);
      issues', advice', score' := TraceStep(traces[k], issues', advice', score');
      k := k + 1;
    }
    assert traces[..k] == traces;
  }

  /** The DNS loop of `calculate_health`. */
  method DnsLoop(dns: seq<DnsSummary>, issues: seq<ReportIssue>, advice: seq<Advice>, score: nat)
    returns (issues': seq<ReportIssue>, advice': seq<Advice>, score': nat)
    requires score == ScoreAfter(issues)
    ensures issues' == issues + Flatten(dns, DnsIssues) && advice' == advice + Flatten(dns, DnsAdvice)
    ensures score' == ScoreAfter(issues')
  {
    issues', advice', score' := issues, advice, score;
    var k := 0;
    while k < |dns|
      invariant 0 <= k <= |dns|
      invariant issues' == issues + Flatten(dns[..k], DnsIssues)
      invariant advice' == advice + Flatten(dns[..k], DnsAdvice)
      invariant score' == ScoreAfter(issues')
    {
      FlattenStep(issues, dns, DnsIssues, k);
      FlattenStep(advice, dns, DnsAdvice, k);
      issues', advice', score' := DnsStep(dns[k], issues', advice', score');
      k := k + 1;
    }
    assert dns[..k] == dns;
  }

  /** Appending one issue and taking its deduction keeps the score in step with the issues. */
  method Push(issue: ReportIssue, issues: seq<ReportIssue>, score: nat) returns (issues': seq<ReportIssue>, score': nat)
    requires score == ScoreAfter(issues)
    ensures issues' == issues + [issue] && score' == ScoreAfter(issues')
  {
    issues' := issues + [issue];
    assert issues'[..|issues'| - 1] == issues;
    score' := if score >= issue.Deduction() then score - issue.Deduction() else 0;
  }

  /** The body of the ping loop. */
  method PingStep(p: PingSummary, issues: seq<ReportIssue>, advice: seq<Advice>, score: nat)
    returns (issues': seq<ReportIssue>, advice': seq<Advice>, score': nat)
    requires score == ScoreAfter(issues)
    ensures issues' == issues + PingIssues(p) && advice' == advice + PingAdvice(p)
    ensures score' == ScoreAfter(issues')
  {
    issues', advice', score' := issues, advice, score;
    if p.lossPercent > 0.0 {
      if p.lossPercent > 10.0 {
        issues', score' := Push(HighPacketLoss(p.target, p.lossPercent), issues', score');
      } else {
        issues', score' := Push(MinorPacketLoss(p.target, p.lossPercent), issues', score');
      }
    }
    if p.avgRttMs.Some? {
      var avg := p.avgRttMs.value;
      if avg > 200.0 {
        issues', score' := Push(HighLatency(p.target, avg), issues', score');
        advice' := advice' + [CheckCongestion];
      } else if avg > 100.0 {
        issues', score' := Push(ElevatedLatency(p.target, avg), issues', score');
      }
    }
  }

  /** The body of the traceroute loop. */
  method TraceStep(t: TracerouteSummary, issues: seq<ReportIssue>, advice: seq<Advice>, score: nat)
    returns (issues': seq<ReportIssue>, advice': seq<Advice>, score': nat)
    requires score == ScoreAfter(issues)
    ensures issues' == issues + TraceIssues(t) && advice' == advice + TraceAdvice(t)
    ensures score' == ScoreAfter(issues')
  {
    issues', advice', score' := issues, advice, score;
    if !t.reached {
      issues', score' := Push(Unreachable(t.target), issues', score');
      advice' := advice' + [CheckFirewall];
    }
    var timeouts := CountTimeoutHops(t.hops);
    if timeouts > 2 {
      issues', score' := Push(HopsTimingOut(timeouts, t.target), issues', score');
    }
  }

  /** `filter(|h| h.all_timeout).count()` as a loop. */
  method CountTimeoutHops(hops: seq<TracerouteHopSummary>) returns (n: nat)
    ensures n == TimeoutHops(hops)
  {
    n := 0;
    var k := 0;
    while k < |hops|
      invariant 0 <= k <= |hops| && n == TimeoutHops(hops[..k])
    {
      assert hops[..k + 1][..k] == hops[..k];
      if hops[k].allTimeout {
        n := n + 1;
      }
      k := k + 1;
    }
    assert hops[..k] == hops;
  }

  /** The body of the DNS loop. */
  method DnsStep(d: DnsSummary, issues: seq<ReportIssue>, advice: seq<Advice>, score: nat)
    returns (issues': seq<ReportIssue>, advice': seq<Advice>, score': nat)
    requires score == ScoreAfter(issues)
    ensures issues' == issues + DnsIssues(d) && advice' == advice + DnsAdvice(d)
    ensures score' == ScoreAfter(issues')
  {
    issues', advice', score' := issues, advice, score;
    if !d.success {
      issues', score' := Push(DnsFailed(d.query), issues', score');
      advice' := advice' + [CheckDnsConfig];
    } else if d.durationMs > 500.0 {
      issues', score' := Push(SlowDns(d.query, d.durationMs), issues', score');
      advice' := advice' + [FasterDns];
    }
  }

  /**
   * `build`: the health assessment is computed from the recorded results
   * only when none was set; everything else is the builder's report.
   */
  method Build(b: ReportBuilder) returns (r: DiagnosticReport)
    ensures b.report.health.Some? ==> r == b.report
    ensures b.report.health.None? ==> r == b.report.(health := Some(HealthOf(b.report)))
  {
    r := b.report;
    if r.health.None? {
      var h := CalculateHealth(r);
      r := r.(health := Some(h));
    }
  }
}
