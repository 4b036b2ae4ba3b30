/**
 * Fix actions (crates/netdiag-autofix, actions.rs): the catalog of fixes
 * the engine can apply, their results and the plans built from them.
 * A `Uuid` is a natural number chosen by the caller; timestamps are left out.
 */
module FixActions {
  import opened Wrappers
  import opened IpAddrs

  datatype FixCategory = Dns | Adapter | TcpIp | Wifi | Routing | Firewall | Service

  /** `FixSeverity`, whose derived `Ord` follows the declaration order. */
  datatype FixSeverity = Low | Medium | High | Critical {
    function Level(): nat {
      match this
      case Low => 0
      case Medium => 1
      case High => 2
      case Critical => 3
    }
  }

  /** The severities compare by declaration order, and the level identifies the severity. */
  lemma SeverityOrder()
    ensures Low.Level() < Medium.Level() < High.Level() < Critical.Level()
    ensures forall a: FixSeverity, b: FixSeverity :: a.Level() == b.Level() ==> a == b
  {
  }

  datatype FixType =
    | FlushDnsCache
    | SetDnsServers(interface: string, servers: seq<IpAddr>)
    | ResetAdapter(interface: string)
    | ResetTcpIp
    | ReconnectWifi(interface: string)
    | RenewDhcp(interface: string)
    | RestartNetworkService
    | ClearArpCache
    | ResetFirewall
    | CustomCommand(command: string, args: seq<string>)

  datatype FixPrerequisite =
    | AdminPrivileges
    | RebootMayBeRequired
    | NetworkConnection
    | InterfaceExists(name: string)

  /** `FixAction`; the free-text description is not modelled. */
  datatype FixAction = FixAction(
    id: nat,
    name: string,
    category: FixCategory,
    severity: FixSeverity,
    fixType: FixType,
    reversible: bool,
    estimatedTimeSecs: nat,
    prerequisites: seq<FixPrerequisite>)

  /** `FixAction::flush_dns_cache`. */
  function FlushDnsCacheAction(id: nat): FixAction {
    FixAction(id, "Flush DNS Cache", Dns, Low, FlushDnsCache, false, 1, [])
  }

  /** `FixAction::change_dns_servers`. */
  function ChangeDnsServersAction(id: nat, interface: string, servers: seq<IpAddr>): FixAction {
    FixAction(id, "Change DNS Servers", Dns, Low, SetDnsServers(interface, servers), true, 2,
              [AdminPrivileges])
  }

  /** `FixAction::reset_adapter`. */
  function ResetAdapterAction(id: nat, interface: string): FixAction {
    FixAction(id, "Reset " + interface, Adapter, Medium, ResetAdapter(interface), false, 10,
              [AdminPrivileges])
  }

  /** `FixAction::reset_tcp_ip`. */
  function ResetTcpIpAction(id: nat): FixAction {
    FixAction(id, "Reset TCP/IP Stack", TcpIp, High, ResetTcpIp, false, 5,
              [AdminPrivileges, RebootMayBeRequired])
  }

  /** `FixAction::reconnect_wifi`. */
  function ReconnectWifiAction(id: nat, interface: string): FixAction {
    FixAction(id, "Reconnect WiFi", Wifi, Medium, ReconnectWifi(interface), false, 15, [])
  }

  /** `FixAction::renew_dhcp`. */
  function RenewDhcpAction(id: nat, interface: string): FixAction {
    FixAction(id, "Renew DHCP Lease", Adapter, Medium, RenewDhcp(interface), false, 5, [])
  }

  /** `FixAction::restart_network_service`. */
  function RestartNetworkServiceAction(id: nat): FixAction {
    FixAction(id, "Restart Network Service", Service, High, RestartNetworkService, false, 30,
              [AdminPrivileges])
  }

  /** Every action the catalog can build: the constructor its fix type names. */
  predicate InCatalog(a: FixAction) {
    match a.fixType
    case FlushDnsCache => a == FlushDnsCacheAction(a.id)
    case SetDnsServers(interface, servers) => a == ChangeDnsServersAction(a.id, interface, servers)
    case ResetAdapter(interface) => a == ResetAdapterAction(a.id, interface)
    case ResetTcpIp => a == ResetTcpIpAction(a.id)
    case ReconnectWifi(interface) => a == ReconnectWifiAction(a.id, interface)
    case RenewDhcp(interface) => a == RenewDhcpAction(a.id, interface)
    case RestartNetworkService => a == RestartNetworkServiceAction(a.id)
    case _ => false
  }

  /**
   * What holds across the catalog: only a DNS server change can be rolled
   * back; the DNS fixes are the low-impact ones; only the TCP/IP reset may
   * need a reboot; the fixes that name no interface are the high-impact ones.
   */
  predicate CatalogRules(a: FixAction) {
    (a.reversible <==> a.fixType.SetDnsServers?) &&
    (a.severity == Low <==> a.category == Dns) &&
    (RebootMayBeRequired in a.prerequisites <==> a.fixType == ResetTcpIp) &&
    (a.severity == High <==> a.fixType in {ResetTcpIp, RestartNetworkService}) &&
    a.estimatedTimeSecs <= 30
  }

  /** Every catalog action keeps the catalog rules, and the flush is low-impact and one-way. */
  lemma CatalogKeepsRules(a: FixAction)
    requires InCatalog(a)
    ensures CatalogRules(a)
    ensures a.fixType == FlushDnsCache ==> a.severity == Low && !a.reversible && a.prerequisites == []
  {
    match a.fixType
    case ResetTcpIp =>
      assert a.prerequisites[1] == RebootMayBeRequired;
    case SetDnsServers(_, _) =>
      assert a.prerequisites == [AdminPrivileges];
    case ResetAdapter(_) =>
      assert a.prerequisites == [AdminPrivileges];
    case RestartNetworkService =>
      assert a.prerequisites == [AdminPrivileges];
    case _ =>
  }

  /** `FixResult`; the `applied_at` timestamp is not modelled. */
  datatype FixResult = FixResult(
    actionId: nat,
    success: bool,
    durationMs: nat,
    message: Option<string>,
    error: Option<string>,
    verificationPassed: Option<bool>,
    rollbackId: Option<string>)

  /** `FixResult::success`. */
  function SuccessResult(actionId: nat, durationMs: nat, message: Option<string>): FixResult {
    FixResult(actionId, true, durationMs, message, None, None, None)
  }

  /** `FixResult::failure`. */
  function FailureResult(actionId: nat, durationMs: nat, error: string): FixResult {
    FixResult(actionId, false, durationMs, None, Some(error), None, None)
  }

  /** A result reports an error exactly when it reports no success. */
  predicate Coherent(r: FixResult) {
    r.success <==> r.error.None?
  }

  /**
   * A success carries no error and its message; a failure carries its error
   * and no message; neither is verified yet or tied to a rollback point.
   */
  lemma ResultConstructors(actionId: nat, durationMs: nat, message: Option<string>, error: string)
    ensures var s := SuccessResult(actionId, durationMs, message);
      Coherent(s) && s.success && s.message == message && s.actionId == actionId &&
      s.verificationPassed.None? && s.rollbackId.None?
    ensures var f := FailureResult(actionId, durationMs, error);
      Coherent(f) && !f.success && f.error == Some(error) && f.message.None? &&
      f.actionId == actionId && f.verificationPassed.None? && f.rollbackId.None?
  {
  }

  /** `FixPlan`; the creation timestamp is not modelled. */
  datatype FixPlan = FixPlan(
    id: nat,
    actions: seq<FixAction>,
    estimatedTotalTimeSecs: nat,
    dryRun: bool)
  {
    /** `is_empty`. */
    predicate IsEmpty() {
      |actions| == 0
    }

    /** `len`. */
    function Len(): nat {
      |actions|
    }
  }

  /** The sum of the actions' estimated times. */
  function TotalTime(actions: seq<FixAction>): nat {
    if |actions| == 0 then 0 else TotalTime(actions[..|actions| - 1]) + actions[|actions| - 1].estimatedTimeSecs
  }

  /** `FixPlan::new`: the total time is the sum of the actions' estimated times. */
  function NewPlan(id: nat, actions: seq<FixAction>, dryRun: bool): (p: FixPlan)
    ensures p.actions == actions && p.dryRun == dryRun && p.id == id
    ensures p.estimatedTotalTimeSecs == TotalTime(actions)
    ensures p.IsEmpty() <==> p.Len() == 0
  {
    FixPlan(id, actions, TotalTime(actions), dryRun)
  }

  /** The total of a concatenation is the sum of the totals. */
  lemma {:induction false} TotalTimeAppend(a: seq<FixAction>, b: seq<FixAction>)
    ensures TotalTime(a + b) == TotalTime(a) + TotalTime(b)
    decreases |b|
  {
    if |b| > 0 {
      var b' := b[..|b| - 1];
      assert (a + b)[..|a + b| - 1] == a + b';
      TotalTimeAppend(a, b');
    } else {
      assert a + b == a;
    }
  }

  /** Removing the action at `k` takes its time off the total. */
  lemma {:induction false} TotalTimeRemove(s: seq<FixAction>, k: nat)
    requires k < |s|
    ensures TotalTime(s) == TotalTime(s[..k] + s[k + 1..]) + s[k].estimatedTimeSecs
  {
    assert s == s[..k] + [s[k]] + s[k + 1..];
    TotalTimeAppend(s[..k] + [s[k]], s[k + 1..]);
    TotalTimeAppend(s[..k], [s[k]]);
    TotalTimeAppend(s[..k], s[k + 1..]);
    assert TotalTime([s[k]]) == s[k].estimatedTimeSecs by {
      assert [s[k]][..0] == [];
    }
  }

  /** Taking out the element at `k` takes one copy of it out of the multiset. */
  lemma MultisetRemove<T>(s: seq<T>, k: nat)
    requires k < |s|
    ensures multiset(s) == multiset(s[..k] + s[k + 1..]) + multiset{s[k]}
  {
    assert s == s[..k] + [s[k]] + s[k + 1..];
  }

  lemma MultisetCancel<T>(m: multiset<T>, n: multiset<T>, x: T)
    requires m + multiset{x} == n + multiset{x}
    ensures m == n
  {
    assert m == (m + multiset{x}) - multiset{x};
    assert n == (n + multiset{x}) - multiset{x};
  }

  /** Reordering the actions leaves the total unchanged. */
  lemma {:induction false} TotalTimePermutation(a: seq<FixAction>, b: seq<FixAction>)
    requires multiset(a) == multiset(b)
    ensures TotalTime(a) == TotalTime(b)
    decreases |a|
  {
    if |a| > 0 {
      var x := a[|a| - 1];
      assert x in multiset(b);
      var k :| 0 <= k < |b| && b[k] == x;
      var b' := b[..k] + b[k + 1..];
      MultisetRemove(a, |a| - 1);
      MultisetRemove(b, k);
      assert a[..|a| - 1] + a[|a|..] == a[..|a| - 1];
      MultisetCancel(multiset(a[..|a| - 1]), multiset(b'), x);
      TotalTimePermutation(a[..|a| - 1], b');
      TotalTimeRemove(b, k);
    } else {
      assert multiset(b) == multiset{};
    }
  }
}
