/**
 * Network path analysis types (crates/netdiag-types,
 * diagnostics/path_analysis.rs): segments, hops, issues, the health rating
 * table and the buffer-bloat grade table.
 */
module PathAnalysis {
  import opened Wrappers
  import opened Durations
  import opened IpAddrs

  datatype SegmentType = Local | Router | Isp | Backbone | Destination | Unknown

  datatype SegmentStatus = Healthy | Degraded | Impaired | Down | Unknown

  datatype GeoLocation = GeoLocation(
    city: Option<string>, region: Option<string>, country: Option<string>,
    countryCode: Option<string>, latitude: Option<real>, longitude: Option<real>)

  /** One hop of the analysed path; `hopNumber` is a `u8`, `asn` a `u32`. */
  datatype HopInfo = HopInfo(
    hopNumber: nat,
    ip: Option<IpAddr>,
    hostname: Option<string>,
    rtt: Option<Duration>,
    asn: Option<nat>,
    asName: Option<string>,
    organization: Option<string>,
    location: Option<GeoLocation>,
    responsive: bool)

  /** A segment's share of the path latency, in milliseconds and percent. */
  datatype LatencyContribution = LatencyContribution(
    absoluteMs: real, percentage: real, isPrimaryContributor: bool)

  /** `SegmentAnalysis`; the network owner lookup is not modelled. */
  datatype SegmentAnalysis = SegmentAnalysis(
    segmentType: SegmentType,
    status: SegmentStatus,
    hops: seq<HopInfo>,
    latency: Option<LatencyContribution>,
    packetLossPercent: real)

  /** `SegmentAnalysis::default`. */
  function DefaultSegment(): SegmentAnalysis {
    SegmentAnalysis(SegmentType.Unknown, SegmentStatus.Unknown, [], None, 0.0)
  }

  datatype PathSegments = PathSegments(
    local: SegmentAnalysis,
    router: SegmentAnalysis,
    isp: SegmentAnalysis,
    backbone: SegmentAnalysis,
    destination: SegmentAnalysis)

  datatype IssueType =
    HighLatency | LatencySpike | PacketLoss | Unreachable | RouteInstability |
    Congestion | PossibleOutage | RoutingAnomaly | MtuIssue | DnsFailure

  /** `IssueSeverity`, whose derived order follows the declaration order. */
  datatype IssueSeverity = Info | Warning | Error | Critical {
    /** The position in the declaration, which the derived `Ord` compares. */
    function Level(): nat {
      match this
      case Info => 0
      case Warning => 1
      case Error => 2
      case Critical => 3
    }
  }

  /** `IssueSeverity` compares by declaration order: Info < Warning < Error < Critical. */
  lemma SeverityOrder()
    ensures Info.Level() < Warning.Level() < Error.Level() < IssueSeverity.Critical.Level()
    ensures forall a: IssueSeverity, b: IssueSeverity :: a.Level() == b.Level() ==> a == b
  {
  }

  /** `get_latency_remediation`. */
  function LatencyRemediation(t: SegmentType): string {
    match t
    case Local => "Check local network congestion and WiFi signal strength"
    case Router => "Restart router, check for firmware updates"
    case Isp => "Contact ISP about high latency; check for local outages"
    case Backbone => "Latency may be geographic; consider CDN or different routing"
    case Destination => "Destination server may be overloaded or geographically distant"
    case Unknown => "Unable to determine cause of latency"
  }

  /** `get_packet_loss_remediation`. */
  function LossRemediation(t: SegmentType): string {
    match t
    case Local => "Check cables, WiFi interference, or local network congestion"
    case Router => "Restart router, check for overheating or hardware issues"
    case Isp => "Contact ISP; packet loss at ISP level requires provider intervention"
    case Backbone => "Transit network issues; usually resolve automatically"
    case Destination => "Destination network may be congested or experiencing issues"
    case Unknown => "Unable to determine source of packet loss"
  }

  /**
   * The fixed advice texts the analyzer attaches to issues and lists as
   * recommendations, one constructor per text; `Text` is the string.
   */
  datatype Advice =
    | LatencyFix(segment: SegmentType)
    | LossFix(segment: SegmentType)
    | CheckConnectivity
    | DestinationMayBlock
    | CheckLocalNetwork
    | ContactIsp
    | CheckDestinationStatus
    | NoActionNeeded
  {
    function Text(): string {
      match this
      case LatencyFix(t) => LatencyRemediation(t)
      case LossFix(t) => LossRemediation(t)
      case CheckConnectivity => "Check physical connectivity and network configuration"
      case DestinationMayBlock => "Destination may be blocking ICMP or experiencing an outage"
      case CheckLocalNetwork => "Check local network: restart router, verify WiFi signal, check for interference"
      case ContactIsp => "Contact your ISP: report connectivity issues and request a line test"
      case CheckDestinationStatus => "Destination issue: check if the service has reported outages"
      case NoActionNeeded => "No specific actions required at this time"
    }
  }

  /** `PathIssue`; the formatted description and details text are not modelled. */
  datatype PathIssue = PathIssue(
    segment: SegmentType,
    issueType: IssueType,
    severity: IssueSeverity,
    remediation: Option<Advice>)

  datatype HealthRating = Excellent | Good | Fair | Poor | Critical {
    /** Position in the table, best first. */
    function Rank(): nat {
      match this
      case Excellent => 0
      case Good => 1
      case Fair => 2
      case Poor => 3
      case Critical => 4
    }
  }

  datatype PathHealth = PathHealth(
    score: nat,
    rating: HealthRating,
    summary: string,
    problematicSegment: Option<SegmentType>)

  /**
   * `HealthRating::from_score` on a `u8`: 90-100 Excellent, 70-89 Good,
   * 50-69 Fair, 30-49 Poor, and everything else (below 30, or above 100)
   * Critical.
   */
  function FromScore(score: nat): (r: HealthRating)
    requires score < 256
    ensures r == HealthRating.Excellent <==> 90 <= score <= 100
    ensures r == HealthRating.Good <==> 70 <= score <= 89
    ensures r == HealthRating.Fair <==> 50 <= score <= 69
    ensures r == HealthRating.Poor <==> 30 <= score <= 49
    ensures r == HealthRating.Critical <==> score < 30 || score > 100
  {
    if 90 <= score <= 100 then HealthRating.Excellent
    else if 70 <= score <= 89 then HealthRating.Good
    else if 50 <= score <= 69 then HealthRating.Fair
    else if 30 <= score <= 49 then HealthRating.Poor
    else HealthRating.Critical
  }

  /** Within 0-100, a higher score never gets a worse rating. */
  lemma FromScoreMonotone(a: nat, b: nat)
    requires a <= b <= 100
    ensures FromScore(b).Rank() <= FromScore(a).Rank()
  {
  }

  datatype BufferBloatGrade = APlus | A | B | C | D | F {
    /** Position in the table, best first. */
    function Rank(): nat {
      match this
      case APlus => 0
      case A => 1
      case B => 2
      case C => 3
      case D => 4
      case F => 5
    }
  }

  /**
   * `BufferBloatGrade::from_increase_ms`: half-open bands below 5, 30, 60,
   * 200 and 400 ms; 400 ms and more is F.
   */
  function FromIncreaseMs(increaseMs: real): (g: BufferBloatGrade)
    ensures g == APlus <==> increaseMs < 5.0
    ensures g == A <==> 5.0 <= increaseMs < 30.0
    ensures g == B <==> 30.0 <= increaseMs < 60.0
    ensures g == C <==> 60.0 <= increaseMs < 200.0
    ensures g == D <==> 200.0 <= increaseMs < 400.0
    ensures g == F <==> increaseMs >= 400.0
  {
    if increaseMs < 5.0 then APlus
    else if increaseMs < 30.0 then A
    else if increaseMs < 60.0 then B
    else if increaseMs < 200.0 then C
    else if increaseMs < 400.0 then D
    else F
  }

  /** A larger increase never gets a better grade. */
  lemma FromIncreaseMsMonotone(a: real, b: real)
    requires a <= b
    ensures FromIncreaseMs(a).Rank() <= FromIncreaseMs(b).Rank()
  {
  }

  datatype BufferBloatResult = BufferBloatResult(
    baselineLatencyMs: real,
    loadedLatencyMs: real,
    latencyIncreaseMs: real,
    latencyIncreasePercent: real,
    grade: BufferBloatGrade,
    recommendations: seq<string>)
}
