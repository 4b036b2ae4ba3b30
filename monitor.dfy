/**
 * Continuous monitoring (crates/netdiag-daemon, monitor.rs): the monitor's
 * shared data, updated from each round of check results, the overall
 * status derived from it, and the alerts a round raises. What a check
 * observes, the clock and the alert channel are parameters; the timed
 * loop that calls `run_checks` is not modelled.
 */
module Monitor {
  import opened Wrappers
  import opened IpAddrs
  import opened DaemonConfig

  datatype HealthStatus = Healthy | Degraded | Unhealthy | Unknown

  /** `MonitorResult`; `timestamp` is the clock reading when the check finished. */
  datatype MonitorResult = MonitorResult(
    target: string, success: bool, latencyMs: Option<real>, packetLoss: Option<real>, timestamp: int,
    error: Option<string>)

  /** `TargetStatus`. */
  datatype TargetStatus = TargetStatus(
    target: string, status: HealthStatus, avgLatencyMs: real, packetLoss: real, consecutiveFailures: nat,
    lastSuccess: Option<int>)

  /** `MonitoringData`. */
  datatype MonitoringData = MonitoringData(
    status: HealthStatus,
    gateway: Option<TargetStatus>,
    dns: Option<TargetStatus>,
    internet: Option<TargetStatus>,
    customTargets: map<string, TargetStatus>,
    wifiSignal: Option<int>,
    lastUpdate: int)

  datatype AlertSeverity = Info | Warning | Critical

  /** What an alert says; the source formats these into its message text. */
  datatype AlertKind =
    | CheckFailed(error: Option<string>)
    | HighLatency(latencyMs: real, thresholdMs: nat)

  /** `Alert`; the timestamp is not modelled. */
  datatype Alert = Alert(severity: AlertSeverity, kind: AlertKind, target: Option<string>)

  /** `"{} check failed: {}"`, with "Unknown error" when the check gave none. */
  function CheckFailedMessage(target: string, error: Option<string>): string {
    target + " check failed: " + error.GetOr("Unknown error")
  }

  /** What one check observed: success, latency and error. */
  datatype CheckOutcome = CheckOutcome(success: bool, latencyMs: Option<real>, error: Option<string>)

  /** The name `check_target` gives a target; an IP address is named by its display text. */
  function TargetName(t: MonitorTarget, ipText: IpAddr -> string): string {
    match t
    case Gateway => "gateway"
    case Dns => "dns"
    case Internet => "internet"
    case Host(h) => h
    case Ip(ip) => ipText(ip)
  }

  /** `check_target`: the observation under the target's name, with no packet-loss figure. */
  function CheckTarget(t: MonitorTarget, o: CheckOutcome, now: int, ipText: IpAddr -> string): (r: MonitorResult)
    ensures r.target == TargetName(t, ipText) && r.success == o.success && r.latencyMs == o.latencyMs
    ensures r.packetLoss.None? && r.error == o.error && r.timestamp == now
  {
    MonitorResult(TargetName(t, ipText), o.success, o.latencyMs, None, now, o.error)
  }

  /** A success whose latency is above the alert threshold. */
  predicate SlowSuccess(r: MonitorResult, thresholdMs: nat) {
    r.success && r.latencyMs.Some? && r.latencyMs.value > thresholdMs as real
  }

  /** The status `update_data` gives one result. */
  function StatusOf(r: MonitorResult, thresholdMs: nat): (s: HealthStatus)
    ensures s == Unhealthy <==> !r.success
    ensures s == Degraded <==> SlowSuccess(r, thresholdMs)
    ensures s == Healthy <==> r.success && !SlowSuccess(r, thresholdMs)
    ensures s != Unknown
  {
    if r.success then
      if r.latencyMs.Some? then
        if r.latencyMs.value > thresholdMs as real then Degraded else Healthy
      else Healthy
    else Unhealthy
  }

  /**
   * The target status `update_data` records for one result: a failure
   * counts one consecutive failure and no last success, a success none and
   * its own timestamp.
   */
  function TargetStatusOf(r: MonitorResult, thresholdMs: nat): (s: TargetStatus)
    ensures s.target == r.target && s.status == StatusOf(r, thresholdMs)
    ensures s.consecutiveFailures == (if r.success then 0 else 1)
    ensures s.lastSuccess.Some? <==> r.success
    ensures r.success ==> s.lastSuccess == Some(r.timestamp)
  {
    TargetStatus(r.target, StatusOf(r, thresholdMs), r.latencyMs.GetOr(0.0), r.packetLoss.GetOr(0.0),
                 if r.success then 0 else 1, if r.success then Some(r.timestamp) else None)
  }

  /** Where a status is stored: the named slot for "gateway", "dns" and "internet", the custom map otherwise. */
  function Record(d: MonitoringData, s: TargetStatus): MonitoringData {
    if s.target == "gateway" then d.(gateway := Some(s))
    else if s.target == "dns" then d.(dns := Some(s))
    else if s.target == "internet" then d.(internet := Some(s))
    else d.(customTargets := d.customTargets[s.target := s])
  }

  /** The status stored under a name. */
  function SlotOf(d: MonitoringData, name: string): Option<TargetStatus> {
    if name == "gateway" then d.gateway
    else if name == "dns" then d.dns
    else if name == "internet" then d.internet
    else if name in d.customTargets then Some(d.customTargets[name])
    else None
  }

  /** The data after recording the results in order. */
  function RecordAll(d: MonitoringData, results: seq<MonitorResult>, thresholdMs: nat): MonitoringData {
    if |results| == 0 then d
    else Record(RecordAll(d, results[..|results| - 1], thresholdMs), TargetStatusOf(results[|results| - 1], thresholdMs))
  }

  /** The last result for a name. */
  function LastFor(results: seq<MonitorResult>, name: string): (r: Option<MonitorResult>)
    ensures r.Some? ==> r.value in results && r.value.target == name
    ensures r.None? <==> forall i :: 0 <= i < |results| ==> results[i].target != name
  {
    if |results| == 0 then None
    else if results[|results| - 1].target == name then Some(results[|results| - 1])
    else
      var r := LastFor(results[..|results| - 1], name);
      assert forall i :: 0 <= i < |results| - 1 ==> results[..|results| - 1][i] == results[i];
      r
  }

  /** Recording a status sets the slot of its target's name and no other. */
  lemma RecordSlot(d: MonitoringData, s: TargetStatus, name: string)
    ensures SlotOf(Record(d, s), name) == if name == s.target then Some(s) else SlotOf(d, name)
  {
  }

  /**
   * After a round, every name holds the status of its last result, and a
   * name without a result keeps what it held. A host named "gateway", "dns"
   * or "internet" lands in that slot.
   */
  lemma {:induction false} RecordAllLastWins(d: MonitoringData, results: seq<MonitorResult>, thresholdMs: nat,
                                             name: string)
    ensures SlotOf(RecordAll(d, results, thresholdMs), name) ==
      match LastFor(results, name)
      case Some(r) => Some(TargetStatusOf(r, thresholdMs))
      case None => SlotOf(d, name)
  {
    if |results| > 0 {
      var init, last := results[..|results| - 1], results[|results| - 1];
      RecordAllLastWins(d, init, thresholdMs, name);
      RecordSlot(RecordAll(d, init, thresholdMs), TargetStatusOf(last, thresholdMs), name);
    }
  }

  /** Recording never changes the overall status, the WiFi signal or the update time. */
  lemma {:induction false} RecordAllKeeps(d: MonitoringData, results: seq<MonitorResult>, thresholdMs: nat)
    ensures var d' := RecordAll(d, results, thresholdMs);
      d'.status == d.status && d'.wifiSignal == d.wifiSignal && d'.lastUpdate == d.lastUpdate
  {
    if |results| > 0 {
      RecordAllKeeps(d, results[..|results| - 1], thresholdMs);
    }
  }

  /** The statuses of the gateway, DNS and internet slots that are set. */
  function Present(d: MonitoringData): seq<HealthStatus> {
    (if d.gateway.Some? then [d.gateway.value.status] else []) +
    (if d.dns.Some? then [d.dns.value.status] else []) +
    (if d.internet.Some? then [d.internet.value.status] else [])
  }

  /** One of the three named slots holds a status. */
  predicate AnySlot(d: MonitoringData, s: HealthStatus) {
    (d.gateway.Some? && d.gateway.value.status == s) || (d.dns.Some? && d.dns.value.status == s) ||
    (d.internet.Some? && d.internet.value.status == s)
  }

  /**
   * `calculate_overall_status`: an unhealthy slot dominates a degraded one,
   * which dominates a healthy one; with none of these the status is
   * unknown. Custom targets are not consulted.
   */
  function OverallStatus(d: MonitoringData): (s: HealthStatus)
    ensures s == Unhealthy <==> AnySlot(d, Unhealthy)
    ensures s == Degraded <==> !AnySlot(d, Unhealthy) && AnySlot(d, Degraded)
    ensures s == Healthy <==> !AnySlot(d, Unhealthy) && !AnySlot(d, Degraded) && AnySlot(d, Healthy)
    ensures s == Unknown <==> !AnySlot(d, Unhealthy) && !AnySlot(d, Degraded) && !AnySlot(d, Healthy)
  {
    var p := Present(d);
    assert forall s :: s in p <==> AnySlot(d, s);
    if Unhealthy in p then Unhealthy
    else if Degraded in p then Degraded
    else if Healthy in p then Healthy
    else Unknown
  }

  /** The alerts one result raises: a failure is critical, a latency above the threshold a warning. */
  function AlertsOf(r: MonitorResult, thresholdMs: nat): seq<Alert> {
    (if !r.success then [Alert(Critical, CheckFailed(r.error), Some(r.target))] else []) +
    (if r.latencyMs.Some? && r.latencyMs.value > thresholdMs as real
     then [Alert(Warning, HighLatency(r.latencyMs.value, thresholdMs), Some(r.target))] else [])
  }

  function AllAlerts(results: seq<MonitorResult>, thresholdMs: nat): seq<Alert> {
    if |results| == 0 then []
    else AllAlerts(results[..|results| - 1], thresholdMs) + AlertsOf(results[|results| - 1], thresholdMs)
  }

  /** `check_alerts` as a value: nothing unless alerts are enabled and a channel exists. */
  function AlertsFor(results: seq<MonitorResult>, a: AlertConfig, hasChannel: bool): seq<Alert> {
    if !a.enabled || !hasChannel then [] else AllAlerts(results, a.latencyThresholdMs)
  }

  /** The number of failed results. */
  function Failures(results: seq<MonitorResult>): (n: nat)
    ensures n <= |results|
  {
    if |results| == 0 then 0 else Failures(results[..|results| - 1]) + if results[|results| - 1].success then 0 else 1
  }

  /** The number of critical alerts. */
  function CriticalCount(alerts: seq<Alert>): nat {
    if |alerts| == 0 then 0
    else CriticalCount(alerts[..|alerts| - 1]) + if alerts[|alerts| - 1].severity == Critical then 1 else 0
  }

  lemma CriticalCountAppend(a: seq<Alert>, b: seq<Alert>)
    requires |b| <= 2
    ensures CriticalCount(a + b) == CriticalCount(a) + CriticalCount(b)
  {
    if |b| == 0 {
      assert a + b == a;
    } else if |b| == 1 {
      assert (a + b)[..|a + b| - 1] == a;
      assert b[..0] == [];
    } else {
      assert (a + b)[..|a + b| - 1] == a + [b[0]];
      assert (a + [b[0]])[..|a|] == a;
      assert b[..1] == [b[0]] && [b[0]][..0] == [];
    }
  }

  /** One result raises a critical alert exactly when it failed, and at most two alerts, all naming it. */
  lemma AlertsOfProps(r: MonitorResult, thresholdMs: nat)
    ensures CriticalCount(AlertsOf(r, thresholdMs)) == if r.success then 0 else 1
    ensures |AlertsOf(r, thresholdMs)| <= 2
    ensures forall a :: a in AlertsOf(r, thresholdMs) ==> a.target == Some(r.target)
  {
    var own := AlertsOf(r, thresholdMs);
    CriticalCountAppend([], own);
    assert [] + own == own;
    if |own| == 2 {
      CriticalCountAppend([own[0]], [own[1]]);
      assert [own[0]] + [own[1]] == own;
      assert CriticalCount([own[0]]) == 1 by { assert [own[0]][..0] == []; }
    } else if |own| == 1 {
      assert own[..0] == [];
    }
  }

  /** With alerts on, there is one critical alert per failed check. */
  lemma {:induction false} AllAlertsCritical(results: seq<MonitorResult>, thresholdMs: nat)
    ensures CriticalCount(AllAlerts(results, thresholdMs)) == Failures(results)
  {
    if |results| > 0 {
      var init, last := results[..|results| - 1], results[|results| - 1];
      AllAlertsCritical(init, thresholdMs);
      AlertsOfProps(last, thresholdMs);
      CriticalCountAppend(AllAlerts(init, thresholdMs), AlertsOf(last, thresholdMs));
    }
  }

  /** A round raises at most two alerts per result. */
  lemma {:induction false} AllAlertsBound(results: seq<MonitorResult>, thresholdMs: nat)
    ensures |AllAlerts(results, thresholdMs)| <= 2 * |results|
  {
    if |results| > 0 {
      AllAlertsBound(results[..|results| - 1], thresholdMs);
      AlertsOfProps(results[|results| - 1], thresholdMs);
    }
  }

  /** Every alert names a target that was checked. */
  lemma {:induction false} AllAlertsTargets(results: seq<MonitorResult>, thresholdMs: nat)
    ensures forall a :: a in AllAlerts(results, thresholdMs) ==>
      exists i :: 0 <= i < |results| && a.target == Some(results[i].target)
  {
    if |results| > 0 {
      var init, last := results[..|results| - 1], results[|results| - 1];
      AllAlertsTargets(init, thresholdMs);
      AlertsOfProps(last, thresholdMs);
      forall a | a in AllAlerts(results, thresholdMs)
        ensures exists i :: 0 <= i < |results| && a.target == Some(results[i].target)
      {
        if a in AllAlerts(init, thresholdMs) {
          var i :| 0 <= i < |init| && a.target == Some(init[i].target);
          assert init[i] == results[i];
        } else {
          assert a in AlertsOf(last, thresholdMs);
          assert a.target == Some(results[|results| - 1].target);
        }
      }
    }
  }

  /**
   * `NetworkMonitor`: the configuration, whether an alert channel exists,
   * the shared monitoring data and the running flag.
   */
  class NetworkMonitor {
    const config: MonitoringConfig
    const alertConfig: AlertConfig
    const hasChannel: bool
    var data: MonitoringData
    var running: bool

    /** `new`: nothing known yet, not running. */
    constructor(config: MonitoringConfig, alertConfig: AlertConfig, hasChannel: bool, now: int)
      ensures this.config == config && this.alertConfig == alertConfig && this.hasChannel == hasChannel
      ensures data == MonitoringData(Unknown, None, None, None, map[], None, now) && !running
    {
      this.config := config;
      this.alertConfig := alertConfig;
      this.hasChannel := hasChannel;
      data := MonitoringData(Unknown, None, None, None, map[], None, now);
      running := false;
    }

    /** `pause`. */
    method Pause()
      modifies this
      ensures !running && data == old(data)
    {
      running := false;
    }

    /** `resume`. */
    method Resume()
      modifies this
      ensures running && data == old(data)
    {
      running := true;
    }

    /**
     * `update_data`: records each result's status under its target's name,
     * then recomputes the overall status and the update time.
     */
    method UpdateData(results: seq<MonitorResult>, now: int)
      modifies this
      ensures var d := RecordAll(old(data), results, alertConfig.latencyThresholdMs);
        data == d.(status := OverallStatus(d), lastUpdate := now)
      ensures running == old(running)
    {
      var thr := alertConfig.latencyThresholdMs;
      var d := data;
      var k := 0;
      while k < |results|
        invariant 0 <= k <= |results|
        invariant d == RecordAll(old(data), results[..k], thr)
      {
        assert results[..k + 1][..k] == results[..k];
        d := Record(d, TargetStatusOf(results[k], thr));
        k := k + 1;
      }
      assert results[..k] == results;
      data := d.(status := OverallStatus(d), lastUpdate := now);
    }

    /** `check_alerts`: one pass over the results, collecting what would be sent. */
    method CheckAlerts(results: seq<MonitorResult>) returns (alerts: seq<Alert>)
      ensures alerts == AlertsFor(results, alertConfig, hasChannel)
    {
      if !alertConfig.enabled || !hasChannel {
        return [];
      }
      var thr := alertConfig.latencyThresholdMs;
      alerts := [];
      var k := 0;
      while k < |results|
        invariant 0 <= k <= |results|
        invariant alerts == AllAlerts(results[..k], thr)
      {
        assert results[..k + 1][..k] == results[..k];
        var r := results[k];
        var more: seq<Alert> := [];
        if !r.success {
          more := more + [Alert(Critical, CheckFailed(r.error), Some(r.target))];
        }
        if r.latencyMs.Some? && r.latencyMs.value > thr as real {
          more := more + [Alert(Warning, HighLatency(r.latencyMs.value, thr), Some(r.target))];
        }
        assert more == AlertsOf(r, thr);
        alerts := alerts + more;
        k := k + 1;
      }
      assert results[..k] == results;
    }

    /**
     * `run_checks`: checks every configured target in order with what the
     * check observes, updates the data and returns the alerts raised.
     */
    method RunChecks(observe: MonitorTarget -> CheckOutcome, ipText: IpAddr -> string, now: int)
      returns (alerts: seq<Alert>)
      modifies this
      ensures |Checked(config.targets, observe, now, ipText)| == |config.targets|
      ensures var rs := Checked(config.targets, observe, now, ipText);
        var d := RecordAll(old(data), rs, alertConfig.latencyThresholdMs);
        data == d.(status := OverallStatus(d), lastUpdate := now) &&
        alerts == AlertsFor(rs, alertConfig, hasChannel)
      ensures running == old(running)
    {
      var results: seq<MonitorResult> := [];
      var k := 0;
      while k < |config.targets|
        invariant 0 <= k <= |config.targets|
        invariant results == Checked(config.targets[..k], observe, now, ipText)
      {
        assert config.targets[..k + 1][..k] == config.targets[..k];
        var t := config.targets[k];
        results := results + [CheckTarget(t, observe(t), now, ipText)];
        k := k + 1;
      }
      assert config.targets[..k] == config.targets;
      UpdateData(results, now);
      alerts := CheckAlerts(results);
    }
  }

  /** The results of checking the targets in order. */
  function Checked(targets: seq<MonitorTarget>, observe: MonitorTarget -> CheckOutcome, now: int,
                   ipText: IpAddr -> string): (rs: seq<MonitorResult>)
    ensures |rs| == |targets|
  {
    if |targets| == 0 then []
    else
      var t := targets[|targets| - 1];
      Checked(targets[..|targets| - 1], observe, now, ipText) + [CheckTarget(t, observe(t), now, ipText)]
  }

  /** The k-th result is the check of the k-th target. */
  lemma {:induction false} CheckedIndex(targets: seq<MonitorTarget>, observe: MonitorTarget -> CheckOutcome, now: int,
                                        ipText: IpAddr -> string, k: nat)
    requires k < |targets|
    ensures Checked(targets, observe, now, ipText)[k] == CheckTarget(targets[k], observe(targets[k]), now, ipText)
  {
    if k < |targets| - 1 {
      CheckedIndex(targets[..|targets| - 1], observe, now, ipText, k);
    }
  }

  /** The last result for a name is the one at an index no later result shares the name with. */
  lemma {:induction false} LastForAt(results: seq<MonitorResult>, name: string, k: nat)
    requires k < |results| && results[k].target == name
    requires forall i :: k < i < |results| ==> results[i].target != name
    ensures LastFor(results, name) == Some(results[k])
  {
    if k < |results| - 1 {
      LastForAt(results[..|results| - 1], name, k);
    }
  }

  /** The slot a default target's result lands in after a round of the default targets. */
  lemma DefaultSlot(d: MonitoringData, observe: MonitorTarget -> CheckOutcome, now: int,
                    ipText: IpAddr -> string, thresholdMs: nat, k: nat)
    requires k < 3
    ensures var rs := Checked(DefaultTargets(), observe, now, ipText);
      var t := DefaultTargets()[k];
      SlotOf(RecordAll(d, rs, thresholdMs), TargetName(t, ipText)) ==
        Some(TargetStatusOf(CheckTarget(t, observe(t), now, ipText), thresholdMs))
  {
    var ts := DefaultTargets();
    var rs := Checked(ts, observe, now, ipText);
    CheckedIndex(ts, observe, now, ipText, 0);
    CheckedIndex(ts, observe, now, ipText, 1);
    CheckedIndex(ts, observe, now, ipText, 2);
    assert rs[0].target == "gateway" && rs[1].target == "dns" && rs[2].target == "internet";
    LastForAt(rs, rs[k].target, k);
    RecordAllLastWins(d, rs, thresholdMs, rs[k].target);
  }

  /**
   * After a round of the default targets, the overall status is unhealthy
   * exactly when one of the three checks failed (a gateway, DNS or internet
   * result is never "unknown").
   */
  lemma DefaultRoundStatus(d: MonitoringData, observe: MonitorTarget -> CheckOutcome, now: int,
                           ipText: IpAddr -> string, thresholdMs: nat)
    ensures var rs := Checked(DefaultTargets(), observe, now, ipText);
      OverallStatus(RecordAll(d, rs, thresholdMs)) == Unhealthy <==>
        !observe(Gateway).success || !observe(Dns).success || !observe(Internet).success
  {
    DefaultSlot(d, observe, now, ipText, thresholdMs, 0);
    DefaultSlot(d, observe, now, ipText, thresholdMs, 1);
    DefaultSlot(d, observe, now, ipText, thresholdMs, 2);
  }
}
