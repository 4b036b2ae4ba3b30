/**
 * WiFi interference analysis (crates/netdiag-wifi, interference.rs): the
 * networks sharing or overlapping the current channel, a noise-floor test
 * for non-WiFi interference, an overall 0-100 score, advice, and the
 * sources ordered from most to least severe.
 */
module Interference {
  import opened Wrappers
  import opened Text
  import opened WifiChannel
  import opened AccessPoints

  /** `InterferenceType`. */
  datatype InterferenceType =
    | CoChannel | AdjacentChannel | Bluetooth | Microwave | CordlessPhone
    | BabyMonitor | WirelessVideo | Radar | Unknown2_4GHz | Unknown5GHz

  /** `InterferenceSource` without its free-text description. */
  datatype InterferenceSource = InterferenceSource(
    sourceType: InterferenceType,
    severity: Byte,
    affectedChannels: seq<Byte>,
    signalStrength: Option<int>,
    ssid: Option<string>)

  /** The advice `generate_recommendations` can give; `Text` is the message. */
  datatype Advice =
    | Congested(networks: nat)
    | AdjacentOverlap
    | BandCrowded
    | Mitigate(kind: InterferenceType)
    | NoInterference

  /** `InterferenceAnalysis`. */
  datatype InterferenceAnalysis = InterferenceAnalysis(
    interferenceScore: Byte,
    sources: seq<InterferenceSource>,
    coChannelCount: nat,
    adjacentChannelCount: nat,
    nonWifiDetected: bool,
    recommendations: seq<Advice>)

  /** `InterferenceType::description`. */
  function Description(t: InterferenceType): string {
    match t
    case CoChannel => "Same-channel WiFi network"
    case AdjacentChannel => "Overlapping adjacent channel WiFi"
    case Bluetooth => "Bluetooth device"
    case Microwave => "Microwave oven"
    case CordlessPhone => "Cordless phone"
    case BabyMonitor => "Baby monitor"
    case WirelessVideo => "Wireless video device"
    case Radar => "Weather/aviation radar"
    case Unknown2_4GHz => "Unknown 2.4 GHz interference"
    case Unknown5GHz => "Unknown 5 GHz interference"
  }

  /** `InterferenceType::mitigation`. */
  function Mitigation(t: InterferenceType): string {
    match t
    case CoChannel => "Switch to a less crowded channel"
    case AdjacentChannel => "Use channels 1, 6, or 11 only (2.4 GHz)"
    case Bluetooth => "Keep Bluetooth devices away from router"
    case Microwave => "Position router away from kitchen"
    case CordlessPhone => "Use DECT phones or move router"
    case BabyMonitor => "Use digital baby monitor or 5 GHz WiFi"
    case WirelessVideo => "Use wired cameras or different frequency"
    case Radar => "Use non-DFS channels"
    case Unknown2_4GHz => "Switch to 5 GHz band if possible"
    case Unknown5GHz => "Try different 5 GHz channels"
  }

  /** The message of a piece of advice. */
  function AdviceText(a: Advice): string {
    match a
    case Congested(n) => "High co-channel congestion (" + NatToString(n) + " networks)." + " Consider switching channels."
    case AdjacentOverlap => "Multiple adjacent channel interference." + " Use only channels 1, 6, or 11."
    case BandCrowded => "2.4 GHz band is very congested." + " Consider switching to 5 GHz if available."
    case Mitigate(t) => "Detected " + Description(t) + ": " + Mitigation(t)
    case NoInterference => "No significant interference detected."
  }

  // ---------------------------------------------------------------------------
  // Per-network severity
  // ---------------------------------------------------------------------------

  function Abs(x: int): nat {
    if x < 0 then -x else x
  }

  /** `is_adjacent_channel`: only at 2.4 GHz, for channels one to four apart. */
  predicate IsAdjacent(current: Byte, other: Byte, band: WifiBand) {
    band == Band2_4GHz && 0 < Abs(current - other) < 5
  }

  /** Adjacency is symmetric. */
  lemma AdjacentSymmetric(a: Byte, b: Byte, band: WifiBand)
    ensures IsAdjacent(a, b, band) <==> IsAdjacent(b, a, band)
  {
  }

  /**
   * For a channel in 1-14, being adjacent to a 2.4 GHz channel is the same
   * as being one of the channels it overlaps.
   */
  lemma AdjacentIsOverlapping(current: Byte, other: Byte)
    requires 1 <= other <= 14
    ensures IsAdjacent(current, other, Band2_4GHz) <==> other in Overlapping(FromNumber(current, Band2_4GHz))
  {
    OverlappingProps(FromNumber(current, Band2_4GHz));
  }

  /** `calculate_severity`: 100, 80, 60, 40, 20 down to -50, -60, -70, -80, -90 dBm, then 10. */
  function Severity(rssi: int): (r: Byte)
    ensures r in {100, 80, 60, 40, 20, 10}
    ensures rssi >= -50 <==> r == 100
    ensures rssi < -90 <==> r == 10
  {
    if rssi >= -50 then 100
    else if rssi >= -60 then 80
    else if rssi >= -70 then 60
    else if rssi >= -80 then 40
    else if rssi >= -90 then 20
    else 10
  }

  /** A stronger signal is never less severe. */
  lemma SeverityMonotone(a: int, b: int)
    requires a <= b
    ensures Severity(a) <= Severity(b)
  {
  }

  /** The percentage of the base severity kept at a channel separation. */
  function SeparationPercent(separation: nat): (m: nat)
    ensures m <= 100
  {
    if separation == 1 then 100
    else if separation == 2 then 75
    else if separation == 3 then 50
    else if separation == 4 then 25
    else 0
  }

  /** `calculate_adjacent_severity`: the base severity scaled down by channel separation. */
  function AdjacentSeverity(rssi: int, current: Byte, other: Byte): (r: Byte)
    ensures r <= Severity(rssi)
    ensures Abs(current - other) == 1 ==> r == Severity(rssi)
    ensures 1 <= Abs(current - other) <= 4 ==> r >= 2
    ensures Abs(current - other) == 0 || Abs(current - other) > 4 ==> r == 0
  {
    Severity(rssi) * SeparationPercent(Abs(current - other)) / 100
  }

  /** Channels further apart interfere less, for the same signal. */
  lemma AdjacentSeverityFalls(rssi: int, current: Byte, near: Byte, far: Byte)
    requires 1 <= Abs(current - near) <= Abs(current - far)
    ensures AdjacentSeverity(rssi, current, far) <= AdjacentSeverity(rssi, current, near)
  {
    var b := Severity(rssi);
    var m1 := SeparationPercent(Abs(current - near));
    var m2 := SeparationPercent(Abs(current - far));
    assert m2 <= m1;
    MulDivMonotone(b, m2, m1);
  }

  lemma MulDivMonotone(b: nat, m1: nat, m2: nat)
    requires m1 <= m2
    ensures b * m1 / 100 <= b * m2 / 100
  {
    MulAtMost(b, m1, m2);
  }

  /** `detect_non_wifi_interference`: a noise floor above -90, -92 or -93 dBm by band. */
  predicate NonWifi(noise: Option<int>, band: WifiBand) {
    match noise
    case None => false
    case Some(n) =>
      match band
      case Band2_4GHz => n > -90
      case Band5GHz => n > -92
      case Band6GHz => n > -93
  }

  // ---------------------------------------------------------------------------
  // Overall score
  // ---------------------------------------------------------------------------

  function SeveritySum(s: seq<InterferenceSource>): nat {
    if s == [] then 0 else SeveritySum(s[..|s| - 1]) + s[|s| - 1].severity
  }

  function MaxSeverity(s: seq<InterferenceSource>): Byte {
    if s == [] then 0
    else var m := MaxSeverity(s[..|s| - 1]);
      if s[|s| - 1].severity > m then s[|s| - 1].severity else m
  }

  /** The maximum is the largest severity and is one of them. */
  lemma {:induction false} MaxSeverityProps(s: seq<InterferenceSource>)
    ensures forall i :: 0 <= i < |s| ==> s[i].severity <= MaxSeverity(s)
    ensures s != [] ==> exists i :: 0 <= i < |s| && s[i].severity == MaxSeverity(s)
  {
    if s != [] {
      var init := s[..|s| - 1];
      MaxSeverityProps(init);
      assert forall i :: 0 <= i < |init| ==> s[i] == init[i];
      if init != [] && MaxSeverity(s) == MaxSeverity(init) {
        var i :| 0 <= i < |init| && init[i].severity == MaxSeverity(init);
        assert s[i].severity == MaxSeverity(s);
      } else {
        assert s[|s| - 1].severity == MaxSeverity(s);
      }
    }
  }

  /** The sum of the severities is at most `|s|` times the maximum. */
  lemma {:induction false} SumAtMostMax(s: seq<InterferenceSource>)
    ensures SeveritySum(s) <= |s| * MaxSeverity(s)
  {
    if s != [] {
      var init := s[..|s| - 1];
      var m := MaxSeverity(s);
      SumAtMostMax(init);
      MulAtMost(|init|, MaxSeverity(init), m);
      MulSucc(|init|, m);
    }
  }

  /** The mean severity is at most the maximum. */
  lemma MeanAtMostMax(s: seq<InterferenceSource>)
    requires s != []
    ensures SeveritySum(s) / |s| <= MaxSeverity(s)
  {
    SumAtMostMax(s);
    DivAtMost(SeveritySum(s), |s|, MaxSeverity(s));
  }

  lemma MulAtMost(n: nat, x: nat, y: nat)
    requires x <= y
    ensures n * x <= n * y
  {
    assert n * y - n * x == n * (y - x);
  }

  lemma MulSucc(n: nat, m: nat)
    ensures (n + 1) * m == n * m + m
  {
  }

  lemma DivAtMost(a: nat, n: nat, m: nat)
    requires n > 0 && a <= n * m
    ensures a / n <= m
  {
    var q := a / n;
    assert n * q <= a;
    assert a < n * (m + 1) by { assert n * (m + 1) == n * m + n; }
    if m + 1 <= q {
      MulAtMost(n, m + 1, q);
    }
  }

  /** The mean blended with twice the maximum, divided by three: at least two thirds of the maximum, at most the maximum. */
  function Blended(avg: nat, m: Byte): (r: Byte)
    requires avg <= m
    ensures 2 * m / 3 <= r <= m
  {
    Blend(avg, m);
    (avg + 2 * m) / 3
  }

  lemma Blend(avg: nat, m: nat)
    requires avg <= m
    ensures 2 * m / 3 <= (avg + 2 * m) / 3 <= m
  {
  }

  /**
   * `calculate_overall_score`: 0 without sources, otherwise the mean of
   * the severities blended with twice the maximum, divided by three.
   */
  function OverallScore(s: seq<InterferenceSource>): (r: Byte)
    ensures s == [] ==> r == 0
    ensures r <= MaxSeverity(s)
    ensures 2 * MaxSeverity(s) / 3 <= r
  {
    if s == [] then 0
    else
      MeanAtMostMax(s);
      Blended(SeveritySum(s) / |s|, MaxSeverity(s))
  }

  // ---------------------------------------------------------------------------
  // Advice
  // ---------------------------------------------------------------------------

  /** The interference types other than WiFi networks, in declaration order. */
  function OtherTypes(): seq<InterferenceType> {
    [Bluetooth, Microwave, CordlessPhone, BabyMonitor, WirelessVideo, Radar, Unknown2_4GHz, Unknown5GHz]
  }

  predicate HasType(s: seq<InterferenceSource>, t: InterferenceType) {
    exists i :: 0 <= i < |s| && s[i].sourceType == t
  }

  /**
   * One mitigation per type of `ts` that some source has. The source walks a
   * `HashSet` of types, whose order is unspecified; taking them in
   * declaration order (`OtherTypes`) is one order it allows.
   */
  function Mitigations(s: seq<InterferenceSource>, ts: seq<InterferenceType>): seq<Advice> {
    if ts == [] then []
    else Mitigations(s, ts[..|ts| - 1]) + (if HasType(s, ts[|ts| - 1]) then [Mitigate(ts[|ts| - 1])] else [])
  }

  lemma {:induction false} MitigationsMembers(s: seq<InterferenceSource>, ts: seq<InterferenceType>)
    ensures forall a :: a in Mitigations(s, ts) <==> a.Mitigate? && a.kind in ts && HasType(s, a.kind)
  {
    if ts != [] {
      MitigationsMembers(s, ts[..|ts| - 1]);
      assert forall t :: t in ts <==> t in ts[..|ts| - 1] || t == ts[|ts| - 1];
    }
  }

  /**
   * `generate_recommendations`: congestion advice for more than three
   * same-channel networks; at 2.4 GHz, overlap advice for more than two
   * adjacent ones and band advice for more than five of either; then one
   * mitigation per non-WiFi type seen; and "no significant interference"
   * when nothing else was said and there are no sources.
   */
  function Recommendations(s: seq<InterferenceSource>, co: nat, adj: nat, band: WifiBand): seq<Advice> {
    var rs := GeneralAdvice(co, adj, band) + Mitigations(s, OtherTypes());
    if rs == [] && s == [] then [NoInterference] else rs
  }

  /** The advice given before the mitigations. */
  function GeneralAdvice(co: nat, adj: nat, band: WifiBand): seq<Advice> {
    (if co > 3 then [Congested(co)] else []) +
    (if band == Band2_4GHz && adj > 2 then [AdjacentOverlap] else []) +
    (if band == Band2_4GHz && (co > 5 || adj > 5) then [BandCrowded] else [])
  }

  lemma GeneralAdviceMembers(co: nat, adj: nat, band: WifiBand)
    ensures var g := GeneralAdvice(co, adj, band);
      (Congested(co) in g <==> co > 3) &&
      (AdjacentOverlap in g <==> band == Band2_4GHz && adj > 2) &&
      (BandCrowded in g <==> band == Band2_4GHz && (co > 5 || adj > 5)) &&
      (forall a :: a in g ==> !a.Mitigate? && !a.NoInterference?) &&
      (g == [] <==> co <= 3 && (band != Band2_4GHz || adj <= 2))
  {
  }

  lemma {:induction false} NoMitigations(s: seq<InterferenceSource>, ts: seq<InterferenceType>)
    requires s == []
    ensures Mitigations(s, ts) == []
  {
    if ts != [] {
      NoMitigations(s, ts[..|ts| - 1]);
    }
  }

  /** The advice is the general advice and the mitigations, or else the all-clear. */
  lemma RecommendationsShape(s: seq<InterferenceSource>, co: nat, adj: nat, band: WifiBand)
    ensures var r := Recommendations(s, co, adj, band);
      var rs := GeneralAdvice(co, adj, band) + Mitigations(s, OtherTypes());
      (s == [] && co <= 3 && (band != Band2_4GHz || adj <= 2) ==> r == [NoInterference]) &&
      (!(s == [] && co <= 3 && (band != Band2_4GHz || adj <= 2)) ==> r == rs && NoInterference !in r)
  {
    var g := GeneralAdvice(co, adj, band);
    var ms := Mitigations(s, OtherTypes());
    GeneralAdviceMembers(co, adj, band);
    MitigationsMembers(s, OtherTypes());
    if s == [] {
      NoMitigations(s, OtherTypes());
      assert g + ms == g;
    }
    assert NoInterference !in g + ms;
  }

  /** Each piece of advice is given exactly when its condition holds. */
  lemma RecommendationsProps(s: seq<InterferenceSource>, co: nat, adj: nat, band: WifiBand)
    ensures var r := Recommendations(s, co, adj, band);
      (Congested(co) in r <==> co > 3) &&
      (AdjacentOverlap in r <==> band == Band2_4GHz && adj > 2) &&
      (BandCrowded in r <==> band == Band2_4GHz && (co > 5 || adj > 5)) &&
      (forall t :: Mitigate(t) in r <==> t != CoChannel && t != AdjacentChannel && HasType(s, t)) &&
      (NoInterference in r <==> s == [] && co <= 3 && (band != Band2_4GHz || adj <= 2))
  {
    RecommendationsGeneral(s, co, adj, band);
    RecommendationsMitigate(s, co, adj, band);
  }

  /** The general advice, and "no significant interference" exactly when nothing else applies. */
  lemma RecommendationsGeneral(s: seq<InterferenceSource>, co: nat, adj: nat, band: WifiBand)
    ensures var r := Recommendations(s, co, adj, band);
      (Congested(co) in r <==> co > 3) &&
      (AdjacentOverlap in r <==> band == Band2_4GHz && adj > 2) &&
      (BandCrowded in r <==> band == Band2_4GHz && (co > 5 || adj > 5)) &&
      (NoInterference in r <==> s == [] && co <= 3 && (band != Band2_4GHz || adj <= 2))
  {
    var r := Recommendations(s, co, adj, band);
    var g := GeneralAdvice(co, adj, band);
    var ms := Mitigations(s, OtherTypes());
    RecommendationsMembers(s, co, adj, band);
    GeneralAdviceMembers(co, adj, band);
    MitigationsMembers(s, OtherTypes());
    if !(s == [] && co <= 3 && (band != Band2_4GHz || adj <= 2)) {
      assert Congested(co) in r <==> Congested(co) in g;
      assert AdjacentOverlap in r <==> AdjacentOverlap in g;
      assert BandCrowded in r <==> BandCrowded in g;
    }
  }

  /** A mitigation is advised exactly for the non-WiFi types some source has. */
  lemma RecommendationsMitigate(s: seq<InterferenceSource>, co: nat, adj: nat, band: WifiBand)
    ensures var r := Recommendations(s, co, adj, band);
      forall t :: Mitigate(t) in r <==> t != CoChannel && t != AdjacentChannel && HasType(s, t)
  {
    var r := Recommendations(s, co, adj, band);
    RecommendationsMembers(s, co, adj, band);
    GeneralAdviceMembers(co, adj, band);
    MitigationsMembers(s, OtherTypes());
    OtherTypesMembers();
    forall t ensures Mitigate(t) in r <==> t != CoChannel && t != AdjacentChannel && HasType(s, t) {
      if s == [] {
        assert !HasType(s, t);
      }
    }
  }

  /** The other types are all the types but the two WiFi ones. */
  lemma OtherTypesMembers()
    ensures forall t :: t in OtherTypes() <==> t != CoChannel && t != AdjacentChannel
  {
    forall t ensures t in OtherTypes() <==> t != CoChannel && t != AdjacentChannel {
      match t
      case CoChannel =>
      case AdjacentChannel =>
      case Bluetooth => assert OtherTypes()[0] == t;
      case Microwave => assert OtherTypes()[1] == t;
      case CordlessPhone => assert OtherTypes()[2] == t;
      case BabyMonitor => assert OtherTypes()[3] == t;
      case WirelessVideo => assert OtherTypes()[4] == t;
      case Radar => assert OtherTypes()[5] == t;
      case Unknown2_4GHz => assert OtherTypes()[6] == t;
      case Unknown5GHz => assert OtherTypes()[7] == t;
    }
  }

  /** Apart from the "no significant interference" case, the advice holds the general advice and the mitigations. */
  lemma RecommendationsMembers(s: seq<InterferenceSource>, co: nat, adj: nat, band: WifiBand)
    ensures var r := Recommendations(s, co, adj, band);
      var quiet := s == [] && co <= 3 && (band != Band2_4GHz || adj <= 2);
      (quiet ==>
         r == [NoInterference] && Mitigations(s, OtherTypes()) == [] && GeneralAdvice(co, adj, band) == []) &&
      (!quiet ==>
         NoInterference !in r &&
         forall a :: a in r <==> a in GeneralAdvice(co, adj, band) || a in Mitigations(s, OtherTypes()))
  {
    var g := GeneralAdvice(co, adj, band);
    var ms := Mitigations(s, OtherTypes());
    RecommendationsShape(s, co, adj, band);
    GeneralAdviceMembers(co, adj, band);
    if s == [] {
      NoMitigations(s, OtherTypes());
    }
    assert forall a :: a in g + ms <==> a in g || a in ms;
  }

  // ---------------------------------------------------------------------------
  // Sorting by severity
  // ---------------------------------------------------------------------------

  predicate SortedBySeverity(s: seq<InterferenceSource>) {
    forall i, j :: 0 <= i < j < |s| ==> s[i].severity >= s[j].severity
  }

  /** Inserts `x` after every source at least as severe, keeping equal ones in order. */
  function InsertBySeverity(x: InterferenceSource, s: seq<InterferenceSource>): seq<InterferenceSource> {
    if s == [] then [x]
    else if s[0].severity >= x.severity then [s[0]] + InsertBySeverity(x, s[1..])
    else [x] + s
  }

  lemma {:induction false} InsertPerm(x: InterferenceSource, s: seq<InterferenceSource>)
    ensures multiset(InsertBySeverity(x, s)) == multiset(s) + multiset{x}
    ensures |InsertBySeverity(x, s)| == |s| + 1
  {
    if s != [] && s[0].severity >= x.severity {
      InsertPerm(x, s[1..]);
      assert s == [s[0]] + s[1..];
    }
  }

  /** Inserting keeps every severity at most `b` when `x` and `s` keep it. */
  lemma {:induction false} InsertBounded(x: InterferenceSource, s: seq<InterferenceSource>, b: nat)
    requires x.severity <= b && forall i :: 0 <= i < |s| ==> s[i].severity <= b
    ensures forall i :: 0 <= i < |InsertBySeverity(x, s)| ==> InsertBySeverity(x, s)[i].severity <= b
  {
    if s != [] && s[0].severity >= x.severity {
      InsertBounded(x, s[1..], b);
    }
  }

  lemma {:induction false} InsertSorted(x: InterferenceSource, s: seq<InterferenceSource>)
    requires SortedBySeverity(s)
    ensures SortedBySeverity(InsertBySeverity(x, s))
  {
    if s != [] && s[0].severity >= x.severity {
      var rest := InsertBySeverity(x, s[1..]);
      InsertSorted(x, s[1..]);
      InsertBounded(x, s[1..], s[0].severity);
      var r := [s[0]] + rest;
      forall i, j | 0 <= i < j < |r| ensures r[i].severity >= r[j].severity {
        if i > 0 {
          assert r[i] == rest[i - 1] && r[j] == rest[j - 1];
        } else {
          assert r[j] == rest[j - 1];
        }
      }
    } else if s != [] {
      var r := [x] + s;
      forall i, j | 0 <= i < j < |r| ensures r[i].severity >= r[j].severity {
        if i > 0 {
          assert r[i] == s[i - 1] && r[j] == s[j - 1];
        } else {
          assert r[j] == s[j - 1];
        }
      }
    }
  }

  /** `sources.sort_by(|a, b| b.severity.cmp(&a.severity))`, a stable sort. */
  function SortBySeverity(s: seq<InterferenceSource>): seq<InterferenceSource> {
    if s == [] then [] else InsertBySeverity(s[|s| - 1], SortBySeverity(s[..|s| - 1]))
  }

  /** Sorting is a permutation from most to least severe. */
  lemma {:induction false} SortProps(s: seq<InterferenceSource>)
    ensures multiset(SortBySeverity(s)) == multiset(s)
    ensures SortedBySeverity(SortBySeverity(s))
    ensures |SortBySeverity(s)| == |s|
  {
    if s != [] {
      SortProps(s[..|s| - 1]);
      InsertPerm(s[|s| - 1], SortBySeverity(s[..|s| - 1]));
      InsertSorted(s[|s| - 1], SortBySeverity(s[..|s| - 1]));
      assert s == s[..|s| - 1] + [s[|s| - 1]];
    }
  }

  // ---------------------------------------------------------------------------
  // Analysis
  // ---------------------------------------------------------------------------

  /** The source an access point contributes, if it shares or overlaps channel `ch`. */
  function SourceFor(ap: AccessPoint, ch: Byte, band: WifiBand): seq<InterferenceSource> {
    if ap.channel.number == ch then
      [InterferenceSource(CoChannel, Severity(ap.rssi), [ch], Some(ap.rssi), Some(ap.ssid))]
    else if IsAdjacent(ch, ap.channel.number, band) then
      [InterferenceSource(AdjacentChannel, AdjacentSeverity(ap.rssi, ch, ap.channel.number),
                          [ch, ap.channel.number], Some(ap.rssi), Some(ap.ssid))]
    else []
  }

  /** The WiFi sources, in scan order. */
  function WifiSources(aps: seq<AccessPoint>, ch: Byte, band: WifiBand): seq<InterferenceSource> {
    if aps == [] then [] else WifiSources(aps[..|aps| - 1], ch, band) + SourceFor(aps[|aps| - 1], ch, band)
  }

  /** The number of access points on channel `ch`. */
  function CoChannelCount(aps: seq<AccessPoint>, ch: Byte): nat {
    if aps == [] then 0
    else CoChannelCount(aps[..|aps| - 1], ch) + (if aps[|aps| - 1].channel.number == ch then 1 else 0)
  }

  /** The number of access points on a channel adjacent to `ch`. */
  function AdjacentCount(aps: seq<AccessPoint>, ch: Byte, band: WifiBand): nat {
    if aps == [] then 0
    else
      var ap := aps[|aps| - 1];
      AdjacentCount(aps[..|aps| - 1], ch, band) + (if ap.channel.number != ch && IsAdjacent(ch, ap.channel.number, band) then 1 else 0)
  }

  /** The number of sources of type `t`. */
  function KindCount(s: seq<InterferenceSource>, t: InterferenceType): nat {
    if s == [] then 0 else KindCount(s[..|s| - 1], t) + (if s[|s| - 1].sourceType == t then 1 else 0)
  }

  lemma {:induction false} KindCountAppend(a: seq<InterferenceSource>, b: seq<InterferenceSource>, t: InterferenceType)
    ensures KindCount(a + b, t) == KindCount(a, t) + KindCount(b, t)
  {
    if b != [] {
      assert (a + b)[..|a + b| - 1] == a + b[..|b| - 1];
      KindCountAppend(a, b[..|b| - 1], t);
    } else {
      assert a + b == a;
    }
  }

  /**
   * One source per access point on or next to the channel: as many
   * same-channel sources as same-channel networks and as many adjacent
   * ones as adjacent networks.
   */
  lemma {:induction false} WifiSourcesCounts(aps: seq<AccessPoint>, ch: Byte, band: WifiBand)
    ensures var s := WifiSources(aps, ch, band);
      |s| == CoChannelCount(aps, ch) + AdjacentCount(aps, ch, band) &&
      KindCount(s, CoChannel) == CoChannelCount(aps, ch) &&
      KindCount(s, AdjacentChannel) == AdjacentCount(aps, ch, band)
  {
    if aps != [] {
      var init := aps[..|aps| - 1];
      var ap := aps[|aps| - 1];
      WifiSourcesCounts(init, ch, band);
      KindCountAppend(WifiSources(init, ch, band), SourceFor(ap, ch, band), CoChannel);
      KindCountAppend(WifiSources(init, ch, band), SourceFor(ap, ch, band), AdjacentChannel);
    }
  }

  /** A network's source is a same-channel or adjacent one, at least 2 severe. */
  predicate WifiSource(x: InterferenceSource) {
    (x.sourceType == CoChannel || x.sourceType == AdjacentChannel) && x.severity >= 2
  }

  lemma {:induction false} WifiSourcesKinds(aps: seq<AccessPoint>, ch: Byte, band: WifiBand)
    ensures forall x :: x in WifiSources(aps, ch, band) ==> WifiSource(x)
  {
    if aps != [] {
      var init := aps[..|aps| - 1];
      WifiSourcesKinds(init, ch, band);
      var t := SourceFor(aps[|aps| - 1], ch, band);
      assert forall x :: x in t ==> WifiSource(x);
      assert forall x :: x in WifiSources(init, ch, band) + t ==> x in WifiSources(init, ch, band) || x in t;
    }
  }

  /** The source an elevated noise floor adds. */
  function NoiseSource(noise: Option<int>, ch: Byte, band: WifiBand): InterferenceSource {
    InterferenceSource(if band == Band2_4GHz then Unknown2_4GHz else Unknown5GHz, 50, [ch], noise, None)
  }

  /** Every source before sorting: the WiFi ones, then the noise one if detected. */
  function AllSources(aps: seq<AccessPoint>, ch: Byte, band: WifiBand, noise: Option<int>): seq<InterferenceSource> {
    WifiSources(aps, ch, band) + (if NonWifi(noise, band) then [NoiseSource(noise, ch, band)] else [])
  }

  /** The channel `analyze` compares against: the current one, or channel 0 at 2.4 GHz. */
  function CurrentNumber(current: Option<Channel>): Byte {
    if current.Some? then current.value.number else 0
  }

  function CurrentBand(current: Option<Channel>): WifiBand {
    if current.Some? then current.value.band else Band2_4GHz
  }

  /** The pass of `analyze` over the access points: the co- and adjacent-channel sources and their counts. */
  method CollectWifi(aps: seq<AccessPoint>, ch: Byte, band: WifiBand)
      returns (sources: seq<InterferenceSource>, co: nat, adj: nat)
    ensures sources == WifiSources(aps, ch, band)
    ensures co == CoChannelCount(aps, ch) && adj == AdjacentCount(aps, ch, band)
  {
    sources, co, adj := [], 0, 0;
    for i := 0 to |aps|
      invariant sources == WifiSources(aps[..i], ch, band)
      invariant co == CoChannelCount(aps[..i], ch)
      invariant adj == AdjacentCount(aps[..i], ch, band)
    {
      var ap := aps[i];
      assert aps[..i + 1][..i] == aps[..i];
      if ap.channel.number == ch {
        co := co + 1;
        sources := sources + [InterferenceSource(CoChannel, Severity(ap.rssi), [ch], Some(ap.rssi), Some(ap.ssid))];
      } else if IsAdjacent(ch, ap.channel.number, band) {
        adj := adj + 1;
        sources := sources + [InterferenceSource(AdjacentChannel, AdjacentSeverity(ap.rssi, ch, ap.channel.number),
                                                 [ch, ap.channel.number], Some(ap.rssi), Some(ap.ssid))];
      }
    }
    assert aps[..|aps|] == aps;
  }

  /**
   * `analyze`: counts and collects the WiFi sources in one pass, adds the
   * noise source, scores and advises on the unsorted sources, and returns
   * them sorted from most to least severe.
   */
  method Analyze(aps: seq<AccessPoint>, current: Option<Channel>, noise: Option<int>) returns (a: InterferenceAnalysis)
    ensures var all := AllSources(aps, CurrentNumber(current), CurrentBand(current), noise);
      a.sources == SortBySeverity(all) &&
      SortedBySeverity(a.sources) && multiset(a.sources) == multiset(all) &&
      a.coChannelCount == CoChannelCount(aps, CurrentNumber(current)) &&
      a.adjacentChannelCount == AdjacentCount(aps, CurrentNumber(current), CurrentBand(current)) &&
      a.nonWifiDetected == NonWifi(noise, CurrentBand(current)) &&
      a.interferenceScore == OverallScore(all) &&
      a.recommendations == Recommendations(all, a.coChannelCount, a.adjacentChannelCount, CurrentBand(current))
  {
    var ch := CurrentNumber(current);
    var band := CurrentBand(current);
    var sources, co, adj := CollectWifi(aps, ch, band);
    var nonWifi := NonWifi(noise, band);
    if nonWifi {
      sources := sources + [NoiseSource(noise, ch, band)];
    }
    assert sources == AllSources(aps, ch, band, noise);
    var score := OverallScore(sources);
    var recs := Recommendations(sources, co, adj, band);
    SortProps(sources);
    a := InterferenceAnalysis(score, SortBySeverity(sources), co, adj, nonWifi, recs);
  }

  /**
   * Over an analysis's sources: the score is 0 exactly when there are no
   * sources, and the "no significant interference" advice is the only
   * advice exactly then.
   */
  lemma AnalysisFacts(aps: seq<AccessPoint>, current: Option<Channel>, noise: Option<int>)
    ensures var ch := CurrentNumber(current); var band := CurrentBand(current);
      var all := AllSources(aps, ch, band, noise);
      var recs := Recommendations(all, CoChannelCount(aps, ch), AdjacentCount(aps, ch, band), band);
      (OverallScore(all) == 0 <==> all == []) &&
      (recs == [NoInterference] <==> all == []) &&
      |all| == CoChannelCount(aps, ch) + AdjacentCount(aps, ch, band) + (if NonWifi(noise, band) then 1 else 0)
  {
    var ch := CurrentNumber(current);
    var band := CurrentBand(current);
    var w := WifiSources(aps, ch, band);
    var all := AllSources(aps, ch, band, noise);
    WifiSourcesCounts(aps, ch, band);
    WifiSourcesKinds(aps, ch, band);
    if all != [] {
      MaxSeverityProps(all);
      assert all[0] in w || all[0] == NoiseSource(noise, ch, band);
      assert all[0].severity >= 2;
    }
    var co := CoChannelCount(aps, ch);
    var adj := AdjacentCount(aps, ch, band);
    RecommendationsProps(all, co, adj, band);
    if all == [] {
      assert co == 0 && adj == 0;
      MitigationsMembers(all, OtherTypes());
      assert Mitigations(all, OtherTypes()) == [];
    }
  }

  /** `is_significant`: a score above 50. */
  predicate IsSignificant(a: InterferenceAnalysis) {
    a.interferenceScore > 50
  }

  /** `most_severe`: the first of the sorted sources. */
  function MostSevere(a: InterferenceAnalysis): (r: Option<InterferenceSource>)
    ensures r.None? <==> a.sources == []
    ensures SortedBySeverity(a.sources) && r.Some? ==>
      forall i :: 0 <= i < |a.sources| ==> a.sources[i].severity <= r.value.severity
  {
    if a.sources == [] then None else Some(a.sources[0])
  }
}
