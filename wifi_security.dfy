/**
 * WiFi security analysis (crates/netdiag-wifi, security.rs): the issues a
 * connection or a scanned access point has, a five-step rating, a 0-100
 * score, and sorted, de-duplicated recommendations.
 */
module SecurityAnalysis {
  import opened Wrappers
  import opened StringOrder
  import opened WifiSecurityTypes
  import opened AccessPoints

  /** `SecurityRating`, declared from best to worst. */
  datatype SecurityRating = Excellent | Good | Fair | Weak | RatingNone

  /** The position in declaration order, which the derived `Ord` compares. */
  function RatingRank(r: SecurityRating): nat {
    match r
    case Excellent => 0
    case Good => 1
    case Fair => 2
    case Weak => 3
    case RatingNone => 4
  }

  /** `SecurityRating::score`: 100, 80, 60, 40 and 0. */
  function RatingScore(r: SecurityRating): (s: nat)
    ensures s <= 100
    ensures s == 0 <==> r == RatingNone
  {
    match r
    case Excellent => 100
    case Good => 80
    case Fair => 60
    case Weak => 40
    case RatingNone => 0
  }

  /** A better rating always has the higher score. */
  lemma RatingScoreMonotone(a: SecurityRating, b: SecurityRating)
    ensures RatingRank(a) < RatingRank(b) <==> RatingScore(a) > RatingScore(b)
  {
  }

  /** `IssueSeverity`, declared from most to least severe. */
  datatype IssueSeverity = Critical | High | Medium | Low | Info

  function SeverityRank(s: IssueSeverity): nat {
    match s
    case Critical => 0
    case High => 1
    case Medium => 2
    case Low => 3
    case Info => 4
  }

  /**
   * What an issue is about. The title, description, remediation and CVE
   * reference of `SecurityIssue` are fixed texts per kind (the two access
   * point issues quote the SSID in their description), so they are
   * functions of the kind.
   */
  datatype IssueKind =
    | OpenNetwork | WepEncryption | LegacyWpa | Wpa2EnterpriseCertificate | Wpa2PersonalKrack
    | PasswordStrength | Wpa3InUse | OweInUse | PmfNotRequired
    | OpenAccessPoint(ssid: string) | WepAccessPoint(ssid: string)

  /** `SecurityIssue`. */
  datatype SecurityIssue = SecurityIssue(severity: IssueSeverity, kind: IssueKind)

  function Title(k: IssueKind): string {
    match k
    case OpenNetwork => "Open Network"
    case WepEncryption => "WEP Encryption"
    case LegacyWpa => "WPA (Legacy) Encryption"
    case Wpa2EnterpriseCertificate => "WPA2 Enterprise"
    case Wpa2PersonalKrack => "WPA2 Personal"
    case PasswordStrength => "Password Strength"
    case Wpa3InUse => "WPA3 Encryption"
    case OweInUse => "OWE (Enhanced Open)"
    case PmfNotRequired => "PMF Not Required"
    case OpenAccessPoint(_) => "Open Network"
    case WepAccessPoint(_) => "WEP Network"
  }

  function Description(k: IssueKind): string {
    match k
    case OpenNetwork => "This network has no encryption." + " All traffic can be intercepted."
    case WepEncryption => "WEP encryption is broken" + " and can be cracked in minutes."
    case LegacyWpa => "WPA with TKIP has known vulnerabilities."
    case Wpa2EnterpriseCertificate => "WPA2 Enterprise is secure" + " but should verify certificate."
    case Wpa2PersonalKrack => "WPA2 Personal is secure but may be" + " vulnerable to KRACK if not patched."
    case PasswordStrength => "WPA2 Personal security depends" + " on password strength."
    case Wpa3InUse => "Using the latest WiFi security standard" + " with SAE authentication."
    case OweInUse => "Using Opportunistic Wireless Encryption" + " for open networks."
    case PmfNotRequired => "Protected Management Frames help" + " prevent deauthentication attacks."
    case OpenAccessPoint(ssid) => "Network '" + ssid + "' is open with no encryption"
    case WepAccessPoint(ssid) => "Network '" + ssid + "' uses broken WEP encryption"
  }

  /** The remediation text; no kind has an empty one. */
  function Remediation(k: IssueKind): (r: string)
    ensures r != []
  {
    match k
    case OpenNetwork => "Enable WPA2 or WPA3 encryption" + " on the access point."
    case WepEncryption => "Upgrade to WPA2 or WPA3 immediately."
    case LegacyWpa => "Upgrade to WPA2-AES or WPA3."
    case Wpa2EnterpriseCertificate => "Ensure RADIUS certificate validation" + " is properly configured."
    case Wpa2PersonalKrack => "Ensure all devices are patched." + " Consider upgrading to WPA3."
    case PasswordStrength => "Use a password of at least 12 characters" + " with mixed case, numbers, and symbols."
    case Wpa3InUse => "No action needed - you're using" + " best practices."
    case OweInUse => "Good for public networks," + " consider WPA3 for private networks."
    case PmfNotRequired => "Enable PMF (802.11w) on the access point" + " if supported."
    case OpenAccessPoint(_) => "Do not connect or use VPN" + " if you must connect."
    case WepAccessPoint(_) => "Avoid this network entirely."
  }

  function Cve(k: IssueKind): Option<string> {
    match k
    case WepEncryption => Some("Multiple")
    case Wpa2PersonalKrack => Some("CVE-2017-13077")
    case _ => None
  }

  /** `SecurityAnalysis`. */
  datatype Analysis = Analysis(
    rating: SecurityRating,
    score: nat,
    issues: seq<SecurityIssue>,
    protocol: SecurityType,
    isEnterprise: bool,
    pmfEnabled: bool,
    recommendations: seq<string>)

  // ---------------------------------------------------------------------------
  // Issues
  // ---------------------------------------------------------------------------

  /** The issue `analyze_connection` raises for the authentication method. */
  function ProtocolIssues(p: SecurityType): seq<SecurityIssue> {
    match p.authentication
    case AuthOpen => if IsOpen(p) then [SecurityIssue(Critical, OpenNetwork)] else []
    case Wep => [SecurityIssue(Critical, WepEncryption)]
    case Wpa => [SecurityIssue(High, LegacyWpa)]
    case Wpa2 =>
      if IsEnterprise(p) then [SecurityIssue(Low, Wpa2EnterpriseCertificate)]
      else [SecurityIssue(Medium, Wpa2PersonalKrack), SecurityIssue(Info, PasswordStrength)]
    case Wpa3 => [SecurityIssue(Info, Wpa3InUse)]
    case Owe => [SecurityIssue(Low, OweInUse)]
  }

  /** The issue for WPA2 without protected management frames. */
  function PmfIssues(p: SecurityType): seq<SecurityIssue> {
    if !p.pmfRequired && p.authentication == Wpa2 then [SecurityIssue(Low, PmfNotRequired)] else []
  }

  /** The issues of `analyze_connection`: one or two for the protocol, then the PMF one. */
  function ConnectionIssues(p: SecurityType): seq<SecurityIssue> {
    ProtocolIssues(p) + PmfIssues(p)
  }

  /** The issues of `analyze_ap`: only an open or a WEP network has one. */
  function ApIssues(ssid: string, p: SecurityType): seq<SecurityIssue> {
    if IsOpen(p) then [SecurityIssue(Critical, OpenAccessPoint(ssid))]
    else if p.authentication == Wep then [SecurityIssue(Critical, WepAccessPoint(ssid))]
    else []
  }

  /** A connection has a critical issue exactly when it is open or uses WEP. */
  lemma ConnectionCritical(p: SecurityType)
    ensures (exists i | 0 <= i < |ConnectionIssues(p)| :: ConnectionIssues(p)[i].severity == Critical)
      <==> IsOpen(p) || p.authentication == Wep
    ensures |ConnectionIssues(p)| >= 1 <==> !(p.authentication == AuthOpen && !IsOpen(p))
  {
    var ci := ConnectionIssues(p);
    match p.authentication
    case AuthOpen =>
      if IsOpen(p) {
        assert ci[0].severity == Critical;
      } else {
        assert ci == [];
      }
    case Wep =>
      assert ci[0].severity == Critical;
    case _ =>
      assert forall i | 0 <= i < |ci| :: ci[i].severity != Critical;
      assert |ci| >= 1;
  }

  /** A scanned access point has an issue exactly when it is open or uses WEP, and it is critical. */
  lemma ApIssuesProps(ssid: string, p: SecurityType)
    ensures |ApIssues(ssid, p)| <= 1
    ensures ApIssues(ssid, p) != [] <==> IsOpen(p) || p.authentication == Wep
    ensures forall i | 0 <= i < |ApIssues(ssid, p)| :: ApIssues(ssid, p)[i].severity == Critical
  {
  }

  // ---------------------------------------------------------------------------
  // Rating and score
  // ---------------------------------------------------------------------------

  /**
   * `calculate_rating`: no security without authentication, weak for WEP
   * and WPA, good for WPA2 with enterprise keys or required PMF and fair
   * otherwise, excellent for WPA3, fair for OWE.
   */
  function CalculateRating(p: SecurityType): (r: SecurityRating)
    ensures r == RatingNone <==> p.authentication == AuthOpen
    ensures r == Excellent <==> p.authentication == Wpa3
    ensures r == Weak <==> p.authentication == Wep || p.authentication == Wpa
    ensures r == Good <==> p.authentication == Wpa2 && (IsEnterprise(p) || p.pmfRequired)
  {
    if IsOpen(p) then RatingNone
    else match p.authentication
      case Wep => Weak
      case Wpa => Weak
      case Wpa2 => if IsEnterprise(p) then Good else if p.pmfRequired then Good else Fair
      case Wpa3 => Excellent
      case Owe => Fair
      case AuthOpen => RatingNone
  }

  /** The deduction for one issue: 30, 20, 10, 5 and 0 by severity. */
  function Deduction(s: IssueSeverity): nat {
    match s
    case Critical => 30
    case High => 20
    case Medium => 10
    case Low => 5
    case Info => 0
  }

  /** The sum of the deductions of `issues`. */
  function TotalDeductions(issues: seq<SecurityIssue>): nat {
    if issues == [] then 0
    else TotalDeductions(issues[..|issues| - 1]) + Deduction(issues[|issues| - 1].severity)
  }

  /** `calculate_score`: the rating's score less the deductions, not below zero. */
  function CalculateScore(issues: seq<SecurityIssue>, rating: SecurityRating): (r: nat)
    ensures r <= RatingScore(rating)
    ensures r == 0 <==> TotalDeductions(issues) >= RatingScore(rating)
    ensures r + TotalDeductions(issues) >= RatingScore(rating)
  {
    var base := RatingScore(rating);
    var deductions := TotalDeductions(issues);
    if deductions >= base then 0 else base - deductions
  }

  lemma {:induction false} TotalDeductionsAppend(a: seq<SecurityIssue>, b: seq<SecurityIssue>)
    ensures TotalDeductions(a + b) == TotalDeductions(a) + TotalDeductions(b)
    decreases |b|
  {
    if b != [] {
      assert (a + b)[..|a + b| - 1] == a + b[..|b| - 1];
      assert (a + b)[|a + b| - 1] == b[|b| - 1];
      TotalDeductionsAppend(a, b[..|b| - 1]);
    } else {
      assert a + b == a;
    }
  }

  /**
   * The deductions the analyses produce never exceed 30, so the `u8` sum
   * cannot overflow.
   */
  lemma DeductionsBounded(ssid: string, p: SecurityType)
    ensures TotalDeductions(ConnectionIssues(p)) <= 30
    ensures TotalDeductions(ApIssues(ssid, p)) <= 30
  {
    TotalDeductionsAppend(ProtocolIssues(p), PmfIssues(p));
    var pi := ProtocolIssues(p);
    if |pi| == 2 {
      assert pi[..1] == [pi[0]];
      assert pi[..1][..0] == [];
    } else if |pi| == 1 {
      assert pi[..0] == [];
    }
    var ai := ApIssues(ssid, p);
    if ai != [] {
      assert ai[..0] == [];
    }
    var mi := PmfIssues(p);
    if mi != [] {
      assert mi[..0] == [];
    }
  }

  /** The score of a connection for each kind of network. */
  lemma ConnectionScores(p: SecurityType)
    ensures IsOpen(p) ==> CalculateScore(ConnectionIssues(p), CalculateRating(p)) == 0
    ensures p.authentication == Wep ==> CalculateScore(ConnectionIssues(p), CalculateRating(p)) == 10
    ensures p.authentication == Wpa ==> CalculateScore(ConnectionIssues(p), CalculateRating(p)) == 20
    ensures p.authentication == Wpa3 ==> CalculateScore(ConnectionIssues(p), CalculateRating(p)) == 100
    ensures p.authentication == Owe ==> CalculateScore(ConnectionIssues(p), CalculateRating(p)) == 55
    ensures p.authentication == Wpa2 && !IsEnterprise(p) ==>
      CalculateScore(ConnectionIssues(p), CalculateRating(p)) == (if p.pmfRequired then 70 else 45)
    ensures p.authentication == Wpa2 && IsEnterprise(p) ==>
      CalculateScore(ConnectionIssues(p), CalculateRating(p)) == (if p.pmfRequired then 75 else 70)
  {
    TotalDeductionsAppend(ProtocolIssues(p), PmfIssues(p));
    var pi := ProtocolIssues(p);
    if |pi| == 2 {
      assert pi[..1] == [pi[0]];
      assert pi[..1][..0] == [];
    } else if |pi| == 1 {
      assert pi[..0] == [];
    }
    var mi := PmfIssues(p);
    if mi != [] {
      assert mi[..0] == [];
    }
  }

  // ---------------------------------------------------------------------------
  // Recommendations
  // ---------------------------------------------------------------------------

  /** An issue whose remediation becomes a recommendation: critical to medium, with a text. */
  predicate Actionable(i: SecurityIssue) {
    SeverityRank(i.severity) <= SeverityRank(Medium) && Remediation(i.kind) != ""
  }

  /** The remediations of the actionable issues, in order. */
  function Remediations(issues: seq<SecurityIssue>): seq<string> {
    if issues == [] then []
    else
      var last := issues[|issues| - 1];
      Remediations(issues[..|issues| - 1]) + (if Actionable(last) then [Remediation(last.kind)] else [])
  }

  /** `y` is the remediation of an actionable issue. */
  predicate Remedies(issues: seq<SecurityIssue>, y: string) {
    exists i | 0 <= i < |issues| :: Actionable(issues[i]) && Remediation(issues[i].kind) == y
  }

  lemma {:induction false} RemediationsMembers(issues: seq<SecurityIssue>)
    ensures forall y :: y in Remediations(issues) <==> Remedies(issues, y)
  {
    if issues != [] {
      var init := issues[..|issues| - 1];
      RemediationsMembers(init);
      forall y ensures y in Remediations(issues) <==> Remedies(issues, y) {
        if Remedies(issues, y) {
          var i :| 0 <= i < |issues| && Actionable(issues[i]) && Remediation(issues[i].kind) == y;
          if i < |init| {
            assert init[i] == issues[i];
          }
        }
        if Remedies(init, y) {
          var i :| 0 <= i < |init| && Actionable(init[i]) && Remediation(init[i].kind) == y;
          assert issues[i] == init[i];
        }
      }
    }
  }

  function Vpn(): string { "Use a VPN when connected" + " to untrusted networks." }

  function UpgradeWpa3(): string { "Consider upgrading to WPA3" + " for enhanced security." }

  /**
   * The general advice for the security level: a VPN at level 0 or 1, an
   * upgrade to WPA3 at level 2 and for personal networks at level 3.
   */
  function GeneralAdvice(p: SecurityType): seq<string> {
    var level := SecurityLevel(p);
    if level <= 1 then [Vpn()]
    else if level == 2 || (level == 3 && !IsEnterprise(p)) then [UpgradeWpa3()]
    else []
  }

  /** The recommendations `generate_recommendations` returns. */
  function RecommendationsOf(issues: seq<SecurityIssue>, p: SecurityType): seq<string> {
    SortDedup(Remediations(issues) + GeneralAdvice(p))
  }

  /**
   * `generate_recommendations`: the remediations of the critical to medium
   * issues and the general advice, sorted with duplicates removed.
   */
  method GenerateRecommendations(issues: seq<SecurityIssue>, protocol: SecurityType) returns (recs: seq<string>)
    ensures recs == RecommendationsOf(issues, protocol)
    ensures StrictlySorted(recs)
    ensures forall y :: y in recs <==> Remedies(issues, y) || y in GeneralAdvice(protocol)
  {
    recs := [];
    for i := 0 to |issues|
      invariant recs == Remediations(issues[..i])
    {
      var issue := issues[i];
      if SeverityRank(issue.severity) <= SeverityRank(Medium) && Remediation(issue.kind) != "" {
        recs := recs + [Remediation(issue.kind)];
      }
      assert issues[..i + 1][..i] == issues[..i];
    }
    assert issues[..|issues|] == issues;
    var level := SecurityLevel(protocol);
    if level <= 1 {
      recs := recs + [Vpn()];
    } else if level == 2 || (level == 3 && !IsEnterprise(protocol)) {
      recs := recs + [UpgradeWpa3()];
    }
    assert recs == Remediations(issues) + GeneralAdvice(protocol);
    SortDedupProps(recs);
    RemediationsMembers(issues);
    recs := SortDedup(recs);
  }

  /** The sorted recommendations for a connection, network kind by kind. */
  lemma ConnectionRecommendations(p: SecurityType)
    ensures IsOpen(p) ==>
      RecommendationsOf(ConnectionIssues(p), p) == [Remediation(OpenNetwork), Vpn()]
    ensures p.authentication == Wep ==>
      RecommendationsOf(ConnectionIssues(p), p) == [Remediation(WepEncryption), Vpn()]
    ensures p.authentication == Wpa ==>
      RecommendationsOf(ConnectionIssues(p), p) == [UpgradeWpa3(), Remediation(LegacyWpa)]
    ensures p.authentication == Wpa2 && !IsEnterprise(p) ==>
      RecommendationsOf(ConnectionIssues(p), p) == [UpgradeWpa3(), Remediation(Wpa2PersonalKrack)]
    ensures (p.authentication == Wpa2 && IsEnterprise(p)) || p.authentication == Wpa3 ==>
      RecommendationsOf(ConnectionIssues(p), p) == []
    ensures p.authentication == Owe || (p.authentication == AuthOpen && !IsOpen(p)) ==>
      RecommendationsOf(ConnectionIssues(p), p) == [UpgradeWpa3()]
  {
    if IsOpen(p) {
      OpenRecommendations(p);
    } else if p.authentication == Wep {
      WepRecommendations(p);
    } else if p.authentication == Wpa {
      WpaRecommendations(p);
    } else if p.authentication == Wpa2 && !IsEnterprise(p) {
      Wpa2PersonalRecommendations(p);
    } else if (p.authentication == Wpa2 && IsEnterprise(p)) || p.authentication == Wpa3 {
      RemediationsMembers(ConnectionIssues(p));
      RecommendationsFromMembers(ConnectionIssues(p), p, []);
    } else {
      RemediationsMembers(ConnectionIssues(p));
      RecommendationsFromMembers(ConnectionIssues(p), p, [UpgradeWpa3()]);
    }
  }

  lemma OpenRecommendations(p: SecurityType)
    requires IsOpen(p)
    ensures RecommendationsOf(ConnectionIssues(p), p) == [Remediation(OpenNetwork), Vpn()]
  {
    var ci := ConnectionIssues(p);
    RemediationsMembers(ci);
    var e := [Remediation(OpenNetwork), Vpn()];
    assert Remedies(ci, e[0]) by { assert Actionable(ci[0]); }
    assert Less(e[0], e[1]);
    RecommendationsFromMembers(ci, p, e);
  }

  lemma WepRecommendations(p: SecurityType)
    requires p.authentication == Wep
    ensures RecommendationsOf(ConnectionIssues(p), p) == [Remediation(WepEncryption), Vpn()]
  {
    var ci := ConnectionIssues(p);
    var e := [Remediation(WepEncryption), Vpn()];
    WepRemedies(p);
    WepBeforeVpn();
    RecommendationsFromMembers(ci, p, e);
  }

  /** A WEP connection has the one WEP issue, remedied by the upgrade, and the VPN advice. */
  lemma WepRemedies(p: SecurityType)
    requires p.authentication == Wep
    ensures forall y :: Remedies(ConnectionIssues(p), y) <==> y == Remediation(WepEncryption)
    ensures GeneralAdvice(p) == [Vpn()]
  {
    var ci := ConnectionIssues(p);
    assert ci == [SecurityIssue(Critical, WepEncryption)];
    assert Actionable(ci[0]);
  }

  /** The WEP remediation sorts before the VPN advice: both start with `U`, then `p` comes before `s`. */
  lemma WepBeforeVpn()
    ensures Less(Remediation(WepEncryption), Vpn())
  {
    var a, b := Remediation(WepEncryption), Vpn();
    var ta, tb := a[1..], b[1..];
    assert a[0] == b[0] == 'U';
    assert |ta| > 0 && |tb| > 0 && ta[0] == 'p' && tb[0] == 's';
    assert Less(ta, tb);
  }

  lemma WpaRecommendations(p: SecurityType)
    requires p.authentication == Wpa
    ensures RecommendationsOf(ConnectionIssues(p), p) == [UpgradeWpa3(), Remediation(LegacyWpa)]
  {
    var ci := ConnectionIssues(p);
    RemediationsMembers(ci);
    var e := [UpgradeWpa3(), Remediation(LegacyWpa)];
    assert Remedies(ci, e[1]) by { assert Actionable(ci[0]); }
    assert Less(e[0], e[1]);
    RecommendationsFromMembers(ci, p, e);
  }

  lemma Wpa2PersonalRecommendations(p: SecurityType)
    requires p.authentication == Wpa2 && !IsEnterprise(p)
    ensures RecommendationsOf(ConnectionIssues(p), p) == [UpgradeWpa3(), Remediation(Wpa2PersonalKrack)]
  {
    var ci := ConnectionIssues(p);
    RemediationsMembers(ci);
    var e := [UpgradeWpa3(), Remediation(Wpa2PersonalKrack)];
    assert Remedies(ci, e[1]) by { assert Actionable(ci[0]); }
    assert Less(e[0], e[1]);
    RecommendationsFromMembers(ci, p, e);
  }

  /** The recommendations are the one strictly sorted list of the remediations and the advice. */
  lemma RecommendationsFromMembers(issues: seq<SecurityIssue>, p: SecurityType, e: seq<string>)
    requires StrictlySorted(e)
    requires forall y :: y in e <==> Remedies(issues, y) || y in GeneralAdvice(p)
    ensures RecommendationsOf(issues, p) == e
  {
    var rs := Remediations(issues) + GeneralAdvice(p);
    RemediationsMembers(issues);
    SortDedupProps(rs);
    StrictlySortedUnique(RecommendationsOf(issues, p), e);
  }

  // ---------------------------------------------------------------------------
  // Analyses
  // ---------------------------------------------------------------------------

  /** `analyze_connection`, for the access point the connection is associated with. */
  method AnalyzeConnection(ap: AccessPoint) returns (a: Analysis)
    ensures a.protocol == ap.security && a.issues == ConnectionIssues(ap.security)
    ensures a.isEnterprise == IsEnterprise(ap.security) && a.pmfEnabled == ap.security.pmfRequired
    ensures a.rating == CalculateRating(ap.security)
    ensures a.score == CalculateScore(a.issues, a.rating) && a.score <= RatingScore(a.rating)
    ensures a.recommendations == RecommendationsOf(a.issues, a.protocol) && StrictlySorted(a.recommendations)
  {
    var protocol := ap.security;
    var issues := ConnectionIssues(protocol);
    var rating := CalculateRating(protocol);
    var score := CalculateScore(issues, rating);
    var recommendations := GenerateRecommendations(issues, protocol);
    a := Analysis(rating, score, issues, protocol, IsEnterprise(protocol), protocol.pmfRequired, recommendations);
  }

  /** `analyze_ap`, for a scanned access point. */
  method AnalyzeAp(ap: AccessPoint) returns (a: Analysis)
    ensures a.protocol == ap.security && a.issues == ApIssues(ap.ssid, ap.security)
    ensures a.isEnterprise == IsEnterprise(ap.security) && a.pmfEnabled == ap.security.pmfRequired
    ensures a.rating == CalculateRating(ap.security)
    ensures a.score == CalculateScore(a.issues, a.rating) && a.score <= RatingScore(a.rating)
    ensures a.recommendations == RecommendationsOf(a.issues, a.protocol) && StrictlySorted(a.recommendations)
  {
    var protocol := ap.security;
    var issues := ApIssues(ap.ssid, protocol);
    var rating := CalculateRating(protocol);
    var score := CalculateScore(issues, rating);
    var recommendations := GenerateRecommendations(issues, protocol);
    a := Analysis(rating, score, issues, protocol, IsEnterprise(protocol), protocol.pmfRequired, recommendations);
  }

  /** `critical_issues`: the critical issues, in order. */
  function CriticalIssues(a: Analysis): (r: seq<SecurityIssue>)
    ensures forall x | x in r :: x.severity == Critical && x in a.issues
    ensures forall x | x in a.issues && x.severity == Critical :: x in r
    ensures |r| <= |a.issues|
  {
    CriticalOf(a.issues)
  }

  function CriticalOf(issues: seq<SecurityIssue>): (r: seq<SecurityIssue>)
    ensures forall x | x in r :: x.severity == Critical && x in issues
    ensures forall x | x in issues && x.severity == Critical :: x in r
    ensures |r| <= |issues|
  {
    if issues == [] then []
    else
      var init := issues[..|issues| - 1];
      var last := issues[|issues| - 1];
      assert forall x :: x in issues <==> x in init || x == last;
      CriticalOf(init) + (if last.severity == Critical then [last] else [])
  }

  /**
   * Like the source's `filter(..).collect()`, it keeps each critical issue once, in
   * the order the issues were found.
   */
  lemma {:induction false} CriticalSplits(a: seq<SecurityIssue>, b: seq<SecurityIssue>, x: SecurityIssue)
    ensures CriticalOf([x]) == if x.severity == Critical then [x] else []
    ensures CriticalOf(a + b) == CriticalOf(a) + CriticalOf(b)
  {
    assert [x][..0] == [];
    if b == [] {
      assert a + b == a;
    } else {
      var init := b[..|b| - 1];
      var last := b[|b| - 1];
      assert (a + b)[..|a + b| - 1] == a + init && (a + b)[|a + b| - 1] == last;
      CriticalSplits(a, init, x);
      var tail := if last.severity == Critical then [last] else [];
      assert CriticalOf(a + b) == CriticalOf(a + init) + tail;
      assert CriticalOf(b) == CriticalOf(init) + tail;
    }
  }

  // ---------------------------------------------------------------------------
  // Security verdict
  // ---------------------------------------------------------------------------

  /**
   * `is_secure` as written: `rating >= Fair` under the derived order, which
   * holds for Fair, Weak and None.
   */
  predicate IsSecureAsWritten(a: Analysis) {
    RatingRank(a.rating) >= RatingRank(Fair)
  }

  /** As written, an open network counts as secure and a WPA3 one does not. */
  lemma IsSecureInverted(a: Analysis)
    ensures a.rating == CalculateRating(Open()) ==> IsSecureAsWritten(a)
    ensures a.rating == CalculateRating(Wpa3Personal()) ==> !IsSecureAsWritten(a)
    ensures a.rating == CalculateRating(Wpa2Enterprise()) ==> !IsSecureAsWritten(a)
  {
  }

  /** A fair or better rating. */
  predicate IsSecure(a: Analysis) {
    RatingRank(a.rating) <= RatingRank(Fair)
  }

  /**
   * Secure means a score of at least 60 for the rating; for a rating of a
   * protocol, exactly WPA2, WPA3 and OWE are secure.
   */
  lemma IsSecureProps(a: Analysis)
    ensures IsSecure(a) <==> RatingScore(a.rating) >= 60
    ensures a.rating == CalculateRating(a.protocol) ==>
      (IsSecure(a) <==> a.protocol.authentication in {Wpa2, Wpa3, Owe})
  {
  }
}
