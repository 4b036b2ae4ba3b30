/**
 * The auto-fix engine (crates/netdiag-autofix, engine.rs): planning fixes
 * from detected issues, checking prerequisites and executing a plan, with
 * and without rollback points. What the platform reports (privilege level,
 * interfaces, DNS servers), what applying a fix does and whether the fix
 * verifies are parameters; a `Uuid` is a number or string the caller picks.
 */
module FixEngine {
  import opened Wrappers
  import opened IpAddrs
  import opened Text
  import opened FixActions
  import opened Rollback

  /** `well_known_dns::cloudflare`. */
  function Cloudflare(): seq<IpAddr> {
    [V4([1, 1, 1, 1]), V4([1, 0, 0, 1]),
     V6([0x2606, 0x4700, 0x4700, 0, 0, 0, 0, 0x1111]),
     V6([0x2606, 0x4700, 0x4700, 0, 0, 0, 0, 0x1001])]
  }

  /** `AutofixConfig`; the rollback directory is not modelled. */
  datatype AutofixConfig = AutofixConfig(
    maxAutoSeverity: FixSeverity,
    enableRollback: bool,
    verifyFixes: bool,
    verifyTimeoutSecs: nat)

  /** `AutofixConfig::default`. */
  function DefaultConfig(): AutofixConfig {
    AutofixConfig(Medium, true, true, 30)
  }

  /** `NetworkIssue`. */
  datatype NetworkIssue =
    | DnsResolutionFailed
    | HighLatency(iface: Option<string>)
    | PacketLoss(iface: Option<string>)
    | NoConnectivity(iface: Option<string>)
    | WifiDisconnected(iface: Option<string>)
    | DhcpFailed(iface: Option<string>)
  {
    /** `interface`: the affected interface; a DNS failure names none. */
    function Interface(): (r: Option<string>)
      ensures this == DnsResolutionFailed ==> r.None?
      ensures this != DnsResolutionFailed ==> r == this.iface
    {
      match this
      case DnsResolutionFailed => None
      case HighLatency(i) => i
      case PacketLoss(i) => i
      case NoConnectivity(i) => i
      case WifiDisconnected(i) => i
      case DhcpFailed(i) => i
    }
  }

  /** The actions `plan_fixes` pushes for one issue, numbered from `next`. */
  function IssueActions(issue: NetworkIssue, next: nat): seq<FixAction> {
    match issue
    case DnsResolutionFailed =>
      [FlushDnsCacheAction(next)] +
      (if issue.Interface().Some? then [ChangeDnsServersAction(next + 1, issue.Interface().value, Cloudflare())]
       else [])
    case HighLatency(i) => if i.Some? then [ResetAdapterAction(next, i.value)] else []
    case PacketLoss(i) => if i.Some? then [ResetAdapterAction(next, i.value)] else []
    case NoConnectivity(i) =>
      (if i.Some? then [RenewDhcpAction(next, i.value), ResetAdapterAction(next + 1, i.value)] else []) +
      [ResetTcpIpAction(next + if i.Some? then 2 else 0)]
    case WifiDisconnected(i) => if i.Some? then [ReconnectWifiAction(next, i.value)] else []
    case DhcpFailed(i) => if i.Some? then [RenewDhcpAction(next, i.value)] else []
  }

  /**
   * A DNS failure gets only the cache flush, because such an issue names no
   * interface; an issue without an interface other than a lost connection
   * gets nothing; a lost connection always ends with a TCP/IP reset.
   */
  lemma IssueActionsCases(issue: NetworkIssue, next: nat)
    ensures issue == DnsResolutionFailed ==> IssueActions(issue, next) == [FlushDnsCacheAction(next)]
    ensures issue.HighLatency? || issue.PacketLoss? || issue.WifiDisconnected? || issue.DhcpFailed? ==>
      (issue.iface.None? <==> IssueActions(issue, next) == [])
    ensures issue.NoConnectivity? ==>
      var acts := IssueActions(issue, next);
      |acts| > 0 && acts[|acts| - 1].fixType == ResetTcpIp &&
      (issue.iface.None? ==> acts == [ResetTcpIpAction(next)])
    ensures forall a :: a in IssueActions(issue, next) ==> InCatalog(a) && !a.fixType.SetDnsServers?
  {
  }

  /** The actions pushed for the issues in order, numbered consecutively from `firstId`. */
  function Collected(issues: seq<NetworkIssue>, firstId: nat): seq<FixAction> {
    if |issues| == 0 then []
    else
      var prev := Collected(issues[..|issues| - 1], firstId);
      prev + IssueActions(issues[|issues| - 1], firstId + |prev|)
  }

  /** The actions of one severity, in their original order. */
  function OfSeverity(actions: seq<FixAction>, s: FixSeverity): seq<FixAction> {
    if |actions| == 0 then []
    else
      var last := actions[|actions| - 1];
      OfSeverity(actions[..|actions| - 1], s) + (if last.severity == s then [last] else [])
  }

  /**
   * `sort_by_key(|a| a.severity)`: a stable sort, which on a four-valued key
   * is the low actions, then the medium, high and critical ones, each
   * group in its original order.
   */
  function BySeverity(actions: seq<FixAction>): seq<FixAction> {
    OfSeverity(actions, Low) + OfSeverity(actions, Medium) + OfSeverity(actions, High) +
    OfSeverity(actions, Critical)
  }

  /** Severities never decrease along the list. */
  predicate SortedBySeverity(actions: seq<FixAction>) {
    forall i, j :: 0 <= i < j < |actions| ==> actions[i].severity.Level() <= actions[j].severity.Level()
  }

  /** A severity group holds only that severity. */
  lemma {:induction false} OfSeverityOnly(actions: seq<FixAction>, s: FixSeverity)
    ensures forall i :: 0 <= i < |OfSeverity(actions, s)| ==> OfSeverity(actions, s)[i].severity == s
    decreases |actions|
  {
    if |actions| > 0 {
      OfSeverityOnly(actions[..|actions| - 1], s);
    }
  }

  lemma BySeveritySorted(actions: seq<FixAction>)
    ensures SortedBySeverity(BySeverity(actions))
  {
    var l, m, h, c := OfSeverity(actions, Low), OfSeverity(actions, Medium),
                      OfSeverity(actions, High), OfSeverity(actions, Critical);
    var r := BySeverity(actions);
    assert r == l + m + h + c;
    OfSeverityOnly(actions, Low);
    OfSeverityOnly(actions, Medium);
    OfSeverityOnly(actions, High);
    OfSeverityOnly(actions, Critical);
    forall i | 0 <= i < |r|
      ensures r[i].severity.Level() == if i < |l| then 0 else if i < |l| + |m| then 1
                                       else if i < |l| + |m| + |h| then 2 else 3
    {
      if i < |l| {
        assert r[i] == l[i];
      } else if i < |l| + |m| {
        assert r[i] == m[i - |l|];
      } else if i < |l| + |m| + |h| {
        assert r[i] == h[i - |l| - |m|];
      } else {
        assert r[i] == c[i - |l| - |m| - |h|];
      }
    }
  }

  /** A group holds an action as often as the list does when it has that severity, and never otherwise. */
  lemma {:induction false} OfSeverityCount(actions: seq<FixAction>, s: FixSeverity, x: FixAction)
    ensures multiset(OfSeverity(actions, s))[x] == if x.severity == s then multiset(actions)[x] else 0
    decreases |actions|
  {
    if |actions| > 0 {
      var init, last := actions[..|actions| - 1], actions[|actions| - 1];
      OfSeverityCount(init, s, x);
      assert actions == init + [last];
    }
  }

  /** The severity groups of a list together hold each of its actions as often as it does. */
  lemma BySeverityPermutation(actions: seq<FixAction>)
    ensures multiset(BySeverity(actions)) == multiset(actions)
  {
    forall x
      ensures multiset(BySeverity(actions))[x] == multiset(actions)[x]
    {
      OfSeverityCount(actions, Low, x);
      OfSeverityCount(actions, Medium, x);
      OfSeverityCount(actions, High, x);
      OfSeverityCount(actions, Critical, x);
    }
  }

  /** `plan_fixes` as a value: the collected actions sorted by severity, not a dry run. */
  function PlanOf(issues: seq<NetworkIssue>, planId: nat, firstId: nat): FixPlan {
    NewPlan(planId, BySeverity(Collected(issues, firstId)), false)
  }

  /** `plan_fixes`: one pass pushing each issue's actions, then a stable sort by severity. */
  method PlanFixes(issues: seq<NetworkIssue>, planId: nat, firstId: nat) returns (plan: FixPlan)
    ensures plan == PlanOf(issues, planId, firstId)
  {
    var actions: seq<FixAction> := [];
    var k := 0;
    while k < |issues|
      invariant 0 <= k <= |issues|
      invariant actions == Collected(issues[..k], firstId)
    {
      CollectedStep(issues, k, firstId);
      actions := actions + IssueActions(issues[k], firstId + |actions|);
      k := k + 1;
    }
    assert issues[..k] == issues;
    plan := NewPlan(planId, BySeverity(actions), false);
  }

  /** Collecting one more issue appends its actions, numbered on from those before it. */
  lemma CollectedStep(issues: seq<NetworkIssue>, k: nat, firstId: nat)
    requires k < |issues|
    ensures Collected(issues[..k + 1], firstId) ==
      Collected(issues[..k], firstId) + IssueActions(issues[k], firstId + |Collected(issues[..k], firstId)|)
  {
    var xs := issues[..k + 1];
    assert xs[..|xs| - 1] == issues[..k];
    CollectedLast(xs, firstId);
  }

  lemma CollectedLast(xs: seq<NetworkIssue>, firstId: nat)
    requires |xs| > 0
    ensures Collected(xs, firstId) ==
      Collected(xs[..|xs| - 1], firstId) + IssueActions(xs[|xs| - 1], firstId + |Collected(xs[..|xs| - 1], firstId)|)
  {
  }

  /**
   * A plan is never a dry run, is sorted by non-decreasing severity, holds
   * exactly the collected actions, and its total time is theirs.
   */
  lemma PlanOfProps(issues: seq<NetworkIssue>, planId: nat, firstId: nat)
    ensures var plan := PlanOf(issues, planId, firstId);
      !plan.dryRun && SortedBySeverity(plan.actions) &&
      multiset(plan.actions) == multiset(Collected(issues, firstId)) &&
      plan.estimatedTotalTimeSecs == TotalTime(Collected(issues, firstId))
  {
    var acts := Collected(issues, firstId);
    BySeveritySorted(acts);
    BySeverityPermutation(acts);
    TotalTimePermutation(BySeverity(acts), acts);
  }

  /** Every collected action comes from the catalog, and none changes DNS servers. */
  lemma {:induction false} CollectedFromCatalog(issues: seq<NetworkIssue>, firstId: nat)
    ensures forall a :: a in Collected(issues, firstId) ==> InCatalog(a) && !a.fixType.SetDnsServers?
    decreases |issues|
  {
    if |issues| > 0 {
      var prev := Collected(issues[..|issues| - 1], firstId);
      CollectedFromCatalog(issues[..|issues| - 1], firstId);
      IssueActionsCases(issues[|issues| - 1], firstId + |prev|);
    }
  }

  /** A lost connection among the issues always puts a TCP/IP reset in the collected actions. */
  lemma {:induction false} CollectedResetsTcpIp(issues: seq<NetworkIssue>, firstId: nat, k: nat)
    requires k < |issues| && issues[k].NoConnectivity?
    ensures exists a :: a in Collected(issues, firstId) && a.fixType == ResetTcpIp
    decreases |issues|
  {
    var init := issues[..|issues| - 1];
    var prev := Collected(init, firstId);
    var acts := IssueActions(issues[|issues| - 1], firstId + |prev|);
    CollectedLast(issues, firstId);
    if k == |issues| - 1 {
      IssueActionsCases(issues[k], firstId + |prev|);
      assert acts[|acts| - 1] in prev + acts;
    } else {
      assert init[k] == issues[k];
      CollectedResetsTcpIp(init, firstId, k);
      var a :| a in prev && a.fixType == ResetTcpIp;
      assert a in prev + acts;
    }
  }

  /**
   * The planned actions come from the catalog and never change DNS servers
   * (a DNS failure names no interface), and a lost connection always gets a
   * TCP/IP reset.
   */
  lemma PlanContents(issues: seq<NetworkIssue>, planId: nat, firstId: nat)
    ensures forall a :: a in PlanOf(issues, planId, firstId).actions ==>
      InCatalog(a) && !a.fixType.SetDnsServers?
    ensures (exists k :: 0 <= k < |issues| && issues[k].NoConnectivity?) ==>
      exists a :: a in PlanOf(issues, planId, firstId).actions && a.fixType == ResetTcpIp
  {
    var acts := Collected(issues, firstId);
    BySeverityPermutation(acts);
    assert forall a :: a in BySeverity(acts) <==> a in multiset(acts);
    CollectedFromCatalog(issues, firstId);
    if k :| 0 <= k < |issues| && issues[k].NoConnectivity? {
      CollectedResetsTcpIp(issues, firstId, k);
      var a :| a in acts && a.fixType == ResetTcpIp;
      assert a in multiset(BySeverity(acts));
    }
  }

  // Prerequisites

  datatype PrivilegeLevel = User | Elevated | Root

  /** A network interface as far as the engine looks at it; `up` is `is_up`. */
  datatype NetInterface = NetInterface(name: string, up: bool, hasIpv4: bool)

  /**
   * What the platform reports: the privilege level, the interface list (or
   * `None` when listing fails) and the current DNS servers (or `None`).
   */
  datatype Platform = Platform(
    privilege: PrivilegeLevel,
    interfaces: Option<seq<NetInterface>>,
    dnsServers: Option<seq<IpAddr>>)

  /** The reasons `check_prerequisites` lists; `Text` is the message. */
  datatype Missing =
    | NeedsAdmin
    | NoInterfaceUp
    | InterfacesUnchecked
    | InterfaceNotFound(name: string)
    | InterfaceUnverified(name: string)
  {
    function Text(): string {
      match this
      case NeedsAdmin => "Administrator/root privileges required"
      case NoInterfaceUp => "No network interface is up"
      case InterfacesUnchecked => "Could not check network interfaces"
      case InterfaceNotFound(n) => "Interface " + n + " not found"
      case InterfaceUnverified(n) => "Could not verify interface " + n
    }
  }

  /** Whether the platform meets one prerequisite. */
  predicate Met(p: FixPrerequisite, pl: Platform) {
    match p
    case AdminPrivileges => pl.privilege == Root || pl.privilege == Elevated
    case RebootMayBeRequired => true
    case NetworkConnection =>
      pl.interfaces.Some? && exists i :: 0 <= i < |pl.interfaces.value| && pl.interfaces.value[i].up
    case InterfaceExists(n) =>
      pl.interfaces.Some? && exists i :: 0 <= i < |pl.interfaces.value| && pl.interfaces.value[i].name == n
  }

  /** `any(|i| i.is_up())`. */
  function AnyUp(ifaces: seq<NetInterface>): (r: bool)
    ensures r <==> exists i :: 0 <= i < |ifaces| && ifaces[i].up
  {
    if |ifaces| == 0 then false
    else
      var r := ifaces[|ifaces| - 1].up || AnyUp(ifaces[..|ifaces| - 1]);
      assert forall i :: 0 <= i < |ifaces| - 1 ==> ifaces[..|ifaces| - 1][i] == ifaces[i];
      r
  }

  /** `any(|i| &i.name == name)`. */
  function AnyNamed(ifaces: seq<NetInterface>, name: string): (r: bool)
    ensures r <==> exists i :: 0 <= i < |ifaces| && ifaces[i].name == name
  {
    if |ifaces| == 0 then false
    else
      var r := ifaces[|ifaces| - 1].name == name || AnyNamed(ifaces[..|ifaces| - 1], name);
      assert forall i :: 0 <= i < |ifaces| - 1 ==> ifaces[..|ifaces| - 1][i] == ifaces[i];
      r
  }

  /** What one prerequisite adds to the missing list: nothing, or one reason. */
  function MissingFor(p: FixPrerequisite, pl: Platform): seq<Missing> {
    match p
    case AdminPrivileges =>
      if pl.privilege != Root && pl.privilege != Elevated then [NeedsAdmin] else []
    case RebootMayBeRequired => []
    case NetworkConnection =>
      if pl.interfaces.None? then [InterfacesUnchecked]
      else if !AnyUp(pl.interfaces.value) then [NoInterfaceUp] else []
    case InterfaceExists(n) =>
      if pl.interfaces.None? then [InterfaceUnverified(n)]
      else if !AnyNamed(pl.interfaces.value, n) then [InterfaceNotFound(n)] else []
  }

  /** The missing list for the prerequisites in order. */
  function MissingOf(ps: seq<FixPrerequisite>, pl: Platform): seq<Missing> {
    if |ps| == 0 then [] else MissingOf(ps[..|ps| - 1], pl) + MissingFor(ps[|ps| - 1], pl)
  }

  /** Nothing is missing exactly when every prerequisite is met. */
  lemma {:induction false} MissingOfEmpty(ps: seq<FixPrerequisite>, pl: Platform)
    ensures MissingOf(ps, pl) == [] <==> forall i :: 0 <= i < |ps| ==> Met(ps[i], pl)
    decreases |ps|
  {
    if |ps| > 0 {
      var init := ps[..|ps| - 1];
      MissingOfEmpty(init, pl);
      assert forall i :: 0 <= i < |init| ==> init[i] == ps[i];
    }
  }

  /** The number of prerequisites other than a possible reboot. */
  function Checked(ps: seq<FixPrerequisite>): (n: nat)
    ensures n <= |ps|
  {
    if |ps| == 0 then 0
    else Checked(ps[..|ps| - 1]) + if ps[|ps| - 1] == RebootMayBeRequired then 0 else 1
  }

  /** Each prerequisite adds at most one reason, and a possible reboot none. */
  lemma {:induction false} MissingOfBound(ps: seq<FixPrerequisite>, pl: Platform)
    ensures |MissingOf(ps, pl)| <= Checked(ps)
    decreases |ps|
  {
    if |ps| > 0 {
      MissingOfBound(ps[..|ps| - 1], pl);
    }
  }

  /** `check_prerequisites`: one pass over the prerequisites, collecting what is missing. */
  method CheckPrerequisites(action: FixAction, pl: Platform) returns (missing: seq<Missing>)
    ensures missing == MissingOf(action.prerequisites, pl)
  {
    var ps := action.prerequisites;
    missing := [];
    var k := 0;
    while k < |ps|
      invariant 0 <= k <= |ps|
      invariant missing == MissingOf(ps[..k], pl)
    {
      assert ps[..k + 1][..k] == ps[..k];
      missing := missing + MissingFor(ps[k], pl);
      k := k + 1;
    }
    assert ps[..k] == ps;
  }

  // Execution

  /** What applying a fix did: a message or an error, and the time it took. */
  datatype ActionOutcome = ActionOutcome(result: Result<Option<string>, string>, durationMs: nat)

  const DryRunMessage := "Dry run - not applied"
  const MissingPrefix := "Missing prerequisites: "
  const VerificationFailed := "Verification failed after applying fix"

  /** The messages of the missing prerequisites. */
  function Texts(missing: seq<Missing>): (r: seq<string>)
    ensures |r| == |missing|
  {
    if |missing| == 0 then [] else Texts(missing[..|missing| - 1]) + [missing[|missing| - 1].Text()]
  }

  /** `execute_action`: a success with the fix's message, or a failure with its error. */
  function ExecuteAction(action: FixAction, o: ActionOutcome): (r: FixResult)
    ensures r.actionId == action.id && r.durationMs == o.durationMs && Coherent(r)
    ensures r.success <==> o.result.Ok?
    ensures o.result.Ok? ==> r.message == o.result.value
    ensures o.result.Err? ==> r.error == Some(o.result.error)
    ensures r.verificationPassed.None? && r.rollbackId.None?
  {
    match o.result
    case Ok(msg) => SuccessResult(action.id, o.durationMs, msg)
    case Err(e) => FailureResult(action.id, o.durationMs, e)
  }

  /** One step of `execute`. */
  function ResultFor(action: FixAction, dryRun: bool, pl: Platform, run: FixAction -> ActionOutcome): FixResult {
    if dryRun then SuccessResult(action.id, 0, Some(DryRunMessage))
    else
      var missing := MissingOf(action.prerequisites, pl);
      if missing != [] then FailureResult(action.id, 0, MissingPrefix + JoinStr(Texts(missing), ", "))
      else ExecuteAction(action, run(action))
  }

  /** The results of `execute`, one per action in order. */
  function Executed(actions: seq<FixAction>, dryRun: bool, pl: Platform, run: FixAction -> ActionOutcome):
    seq<FixResult>
  {
    if |actions| == 0 then []
    else Executed(actions[..|actions| - 1], dryRun, pl, run) + [ResultFor(actions[|actions| - 1], dryRun, pl, run)]
  }

  /** `execute`: per action, a dry-run success, a missing-prerequisites failure, or the fix's result. */
  method Execute(plan: FixPlan, pl: Platform, run: FixAction -> ActionOutcome) returns (results: seq<FixResult>)
    ensures results == Executed(plan.actions, plan.dryRun, pl, run)
  {
    var actions := plan.actions;
    results := [];
    var k := 0;
    while k < |actions|
      invariant 0 <= k <= |actions|
      invariant results == Executed(actions[..k], plan.dryRun, pl, run)
    {
      assert actions[..k + 1][..k] == actions[..k];
      var r := ExecuteOne(actions[k], plan.dryRun, pl, run);
      results := results + [r];
      k := k + 1;
    }
    assert actions[..k] == actions;
  }

  /** The body of `execute`'s loop for one action. */
  method ExecuteOne(action: FixAction, dryRun: bool, pl: Platform, run: FixAction -> ActionOutcome)
    returns (r: FixResult)
    ensures r == ResultFor(action, dryRun, pl, run)
  {
    if dryRun {
      return SuccessResult(action.id, 0, Some(DryRunMessage));
    }
    var missing := CheckPrerequisites(action, pl);
    if missing != [] {
      r := FailureResult(action.id, 0, MissingPrefix + JoinStr(Texts(missing), ", "));
    } else {
      r := ExecuteAction(action, run(action));
    }
  }

  /** One result per action, in order and for that action. */
  lemma {:induction false} ExecutedIndex(actions: seq<FixAction>, dryRun: bool, pl: Platform,
                                         run: FixAction -> ActionOutcome)
    ensures |Executed(actions, dryRun, pl, run)| == |actions|
    ensures forall k :: 0 <= k < |actions| ==>
      Executed(actions, dryRun, pl, run)[k] == ResultFor(actions[k], dryRun, pl, run)
    decreases |actions|
  {
    if |actions| > 0 {
      var init := actions[..|actions| - 1];
      ExecutedIndex(init, dryRun, pl, run);
      assert forall k :: 0 <= k < |init| ==> init[k] == actions[k];
    }
  }

  /**
   * A result is for its action and reports an error exactly when it fails;
   * a failure before the fix ran took no time; a dry run is the dry-run
   * success.
   */
  lemma ResultForProps(action: FixAction, dryRun: bool, pl: Platform, run: FixAction -> ActionOutcome)
    ensures var r := ResultFor(action, dryRun, pl, run);
      r.actionId == action.id && Coherent(r) &&
      (!dryRun && MissingOf(action.prerequisites, pl) != [] ==> !r.success && r.durationMs == 0) &&
      (!dryRun && MissingOf(action.prerequisites, pl) == [] ==> r == ExecuteAction(action, run(action))) &&
      (dryRun ==> r == SuccessResult(action.id, 0, Some(DryRunMessage)))
  {
  }

  /**
   * Every result of `execute` is for its action and reports an error
   * exactly when it fails; a dry run gives the same results whatever the
   * platform and the fixes would do.
   */
  lemma ExecutedProps(actions: seq<FixAction>, dryRun: bool, pl: Platform, run: FixAction -> ActionOutcome,
                      pl': Platform, run': FixAction -> ActionOutcome)
    ensures |Executed(actions, dryRun, pl, run)| == |actions|
    ensures forall k :: 0 <= k < |actions| ==>
      Executed(actions, dryRun, pl, run)[k].actionId == actions[k].id && Coherent(Executed(actions, dryRun, pl, run)[k])
    ensures dryRun ==> Executed(actions, dryRun, pl, run) == Executed(actions, dryRun, pl', run')
  {
    ExecutedIndex(actions, dryRun, pl, run);
    ExecutedIndex(actions, dryRun, pl', run');
    forall k | 0 <= k < |actions|
      ensures Executed(actions, dryRun, pl, run)[k].actionId == actions[k].id
      ensures Coherent(Executed(actions, dryRun, pl, run)[k])
      ensures dryRun ==> Executed(actions, dryRun, pl, run)[k] == Executed(actions, dryRun, pl', run')[k]
    {
      ResultForProps(actions[k], dryRun, pl, run);
      ResultForProps(actions[k], dryRun, pl', run');
    }
  }

  // Execution with rollback points

  /**
   * The rollback point `execute_with_rollback` records for an action: none
   * unless the action is reversible and rollback is enabled; for a DNS
   * server change, a point named `freshId` when the current servers could be
   * read; for any other action, the empty id `create_rollback_point` returns.
   */
  function RollbackIdFor(action: FixAction, config: AutofixConfig, pl: Platform, freshId: string): Option<string> {
    if action.reversible && config.enableRollback then
      match action.fixType
      case SetDnsServers(_, _) => if pl.dnsServers.Some? then Some(freshId) else None
      case _ => Some("")
    else None
  }

  /** After the fix ran: the verification, when enabled and the fix succeeded, can turn it into a failure. */
  function Verified(r: FixResult, verifyFixes: bool, passed: bool): FixResult {
    if r.success && verifyFixes then
      if passed then r.(verificationPassed := Some(true))
      else r.(verificationPassed := Some(false), success := false, error := Some(VerificationFailed))
    else r
  }

  /** One step of `execute_with_rollback`. */
  function RollbackResultFor(action: FixAction, dryRun: bool, config: AutofixConfig, pl: Platform,
                             run: FixAction -> ActionOutcome, verify: FixAction -> bool, freshId: string): FixResult
  {
    if dryRun then SuccessResult(action.id, 0, Some(DryRunMessage))
    else
      Verified(ExecuteAction(action, run(action)), config.verifyFixes, verify(action))
        .(rollbackId := RollbackIdFor(action, config, pl, freshId))
  }

  /** `create_rollback_point`, on the manager: the DNS point, or the empty id for other actions. */
  method CreateRollbackPoint(manager: RollbackManager, action: FixAction, pl: Platform, freshId: string,
                             now: Timestamp)
    returns (id: Option<string>)
    modifies manager
    ensures action.reversible ==> id == RollbackIdFor(action, AutofixConfig(Medium, true, true, 0), pl, freshId)
    ensures action.fixType.SetDnsServers? && pl.dnsServers.Some? ==>
      freshId in manager.points &&
      manager.points[freshId] == RollbackPoint(freshId, now, DnsServers(action.fixType.interface, pl.dnsServers.value),
                                             true, Some(action.id))
    ensures action.fixType.SetDnsServers? && pl.dnsServers.Some? ==>
      exists oldest :: (old(manager.points) != map[] ==>
                          IsOldest(old(manager.points), old(manager.points).Keys, oldest)) &&
        manager.points == AfterAdd(old(manager.points), manager.maxPoints, oldest, manager.points[freshId])
    ensures !(action.fixType.SetDnsServers? && pl.dnsServers.Some?) ==> manager.points == old(manager.points)
    ensures old(|manager.points|) <= manager.maxPoints && manager.maxPoints > 0 ==>
      |manager.points| <= manager.maxPoints
  {
    match action.fixType
    case SetDnsServers(iface, _) =>
      if pl.dnsServers.Some? {
        var created := manager.CreateDnsPoint(freshId, now, iface, pl.dnsServers.value, Some(action.id));
        id := Some(created);
      } else {
        id := None;
      }
    case _ =>
      id := Some("");
  }

  /**
   * `execute_with_rollback`: per action, a dry-run success, or the fix's
   * result after verification, with the rollback point recorded for it; a
   * fix that fails verification is rolled back when it has a point. The
   * k-th action's point is named `freshIds(k)`.
   */
  method ExecuteWithRollback(plan: FixPlan, config: AutofixConfig, pl: Platform,
                             run: FixAction -> ActionOutcome, verify: FixAction -> bool,
                             restore: string -> Option<string>, freshIds: nat -> string, now: Timestamp,
                             manager: RollbackManager)
    returns (results: seq<FixResult>)
    modifies manager
    ensures |results| == |plan.actions|
    ensures forall k :: 0 <= k < |results| ==>
      results[k] == RollbackResultFor(plan.actions[k], plan.dryRun, config, pl, run, verify, freshIds(k))
    ensures plan.dryRun ==> manager.points == old(manager.points)
  {
    var actions := plan.actions;
    results := [];
    var k := 0;
    while k < |actions|
      invariant 0 <= k <= |actions| && |results| == k
      invariant forall j :: 0 <= j < k ==>
        results[j] == RollbackResultFor(actions[j], plan.dryRun, config, pl, run, verify, freshIds(j))
      invariant plan.dryRun ==> manager.points == old(manager.points)
    {
      var r := RollbackStep(actions[k], plan.dryRun, config, pl, run, verify, restore, freshIds(k), now, manager);
      results := results + [r];
      k := k + 1;
    }
  }

  /** The body of `execute_with_rollback`'s loop for one action. */
  method RollbackStep(action: FixAction, dryRun: bool, config: AutofixConfig, pl: Platform,
                      run: FixAction -> ActionOutcome, verify: FixAction -> bool,
                      restore: string -> Option<string>, freshId: string, now: Timestamp,
                      manager: RollbackManager)
    returns (r: FixResult)
    modifies manager
    ensures r == RollbackResultFor(action, dryRun, config, pl, run, verify, freshId)
    ensures dryRun ==> manager.points == old(manager.points)
  {
    if dryRun {
      return SuccessResult(action.id, 0, Some(DryRunMessage));
    }
    var rollbackId: Option<string> := None;
    if action.reversible && config.enableRollback {
      rollbackId := CreateRollbackPoint(manager, action, pl, freshId, now);
    }
    r := ExecuteAction(action, run(action));
    if r.success && config.verifyFixes {
      var verified := verify(action);
      r := r.(verificationPassed := Some(verified));
      if !verified {
        if rollbackId.Some? {
          var _ := manager.DoRollback(rollbackId.value, restore(rollbackId.value));
        }
        r := r.(success := false, error := Some(VerificationFailed));
      }
    }
    r := r.(rollbackId := rollbackId);
  }

  /**
   * With rollback: every result reports an error exactly when it fails; a
   * fix that ran but failed verification is a failure with the verification
   * error; a point is recorded only for a reversible action with rollback
   * enabled.
   */
  lemma RollbackResultProps(action: FixAction, dryRun: bool, config: AutofixConfig, pl: Platform,
                            run: FixAction -> ActionOutcome, verify: FixAction -> bool, freshId: string)
    ensures var r := RollbackResultFor(action, dryRun, config, pl, run, verify, freshId);
      Coherent(r) && r.actionId == action.id &&
      (!dryRun && run(action).result.Ok? && config.verifyFixes && !verify(action) ==>
        !r.success && r.error == Some(VerificationFailed) && r.verificationPassed == Some(false)) &&
      (!dryRun && run(action).result.Ok? && config.verifyFixes && verify(action) ==>
        r.success && r.verificationPassed == Some(true)) &&
      (r.rollbackId.Some? ==> !dryRun && action.reversible && config.enableRollback)
  {
  }
}
