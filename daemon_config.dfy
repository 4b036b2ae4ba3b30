/**
 * Daemon configuration (crates/netdiag-daemon, config.rs): the monitoring,
 * schedule and alert settings with their defaults, and validation. The
 * platform-dependent paths (log, PID, socket, database) and the TOML
 * loading and saving are not modelled.
 */
module DaemonConfig {
  import opened Wrappers
  import opened IpAddrs
  import opened Durations

  /** `DiagnosticType`. */
  datatype DiagnosticType = Quick | Full | Wifi | Speed | Custom

  /** `MonitorTarget`. */
  datatype MonitorTarget = Gateway | Dns | Internet | Host(host: string) | Ip(ip: IpAddr)

  /** `ScheduleConfig`. */
  datatype ScheduleConfig = ScheduleConfig(name: string, cron: string, diagnostic: DiagnosticType, enabled: bool)

  /** `AlertMethod`; a file path is its text. */
  datatype AlertMethod = Log | Notification | File(path: string) | Command(command: string)

  /** `AlertConfig`; the thresholds are a whole number of milliseconds, a percentage and dBm. */
  datatype AlertConfig = AlertConfig(
    enabled: bool,
    latencyThresholdMs: nat,
    packetLossThreshold: real,
    wifiSignalThreshold: int,
    methods: seq<AlertMethod>)

  /** `MonitoringConfig`. */
  datatype MonitoringConfig = MonitoringConfig(enabled: bool, interval: Duration, targets: seq<MonitorTarget>)

  /** `StorageConfig` without the platform-dependent database path. */
  datatype StorageConfig = StorageConfig(retentionDays: nat, cloudSync: bool)

  /** `DaemonConfig` without the general and IPC settings. */
  datatype DaemonConfig = DaemonConfig(
    monitoring: MonitoringConfig,
    schedules: seq<ScheduleConfig>,
    alerts: AlertConfig,
    storage: StorageConfig)

  /** `default_targets`. */
  function DefaultTargets(): seq<MonitorTarget> {
    [Gateway, Dns, Internet]
  }

  /** `MonitoringConfig::default`: enabled, every 30 seconds, the default targets. */
  function DefaultMonitoring(): MonitoringConfig {
    MonitoringConfig(true, 30 * NanosPerSec, DefaultTargets())
  }

  /** `AlertConfig::default`. */
  function DefaultAlerts(): AlertConfig {
    AlertConfig(true, 100, 5.0, -70, [Log])
  }

  /** `DaemonConfig::default`: quick diagnostics every five minutes and full ones every hour. */
  function DefaultConfig(): DaemonConfig {
    DaemonConfig(
      DefaultMonitoring(),
      [ScheduleConfig("quick-check", "*/5 * * * *", Quick, true),
       ScheduleConfig("full-check", "0 * * * *", Full, true)],
      DefaultAlerts(),
      StorageConfig(30, false))
  }

  /** `DaemonError::config`: a configuration error carries its message. */
  datatype ConfigError = ConfigError(message: string)

  function LossThresholdMessage(): string {
    "Packet loss threshold" + " must be between 0 and 100"
  }

  /** `ScheduleConfig::validate`: only an empty cron expression is rejected. */
  function ValidateSchedule(s: ScheduleConfig): (r: Result<(), ConfigError>)
    ensures r.Err? <==> s.cron == []
    ensures r.Err? ==> r.error.message != LossThresholdMessage()
  {
    if s.cron == [] then
      var m := "Empty cron expression for schedule '" + s.name + "'";
      assert m[0] == 'E';
      assert LossThresholdMessage()[0] == 'P';
      Err(ConfigError(m))
    else Ok(())
  }

  /** `AlertConfig::validate`: the packet-loss threshold must lie in [0, 100]. */
  function ValidateAlerts(a: AlertConfig): (r: Result<(), ConfigError>)
    ensures r.Ok? <==> 0.0 <= a.packetLossThreshold <= 100.0
    ensures r.Err? ==> r.error.message == LossThresholdMessage()
  {
    if a.packetLossThreshold < 0.0 || a.packetLossThreshold > 100.0 then Err(ConfigError(LossThresholdMessage()))
    else Ok(())
  }

  /** The first schedule error, checking the schedules in order. */
  function ValidateSchedules(ss: seq<ScheduleConfig>): Result<(), ConfigError> {
    if |ss| == 0 then Ok(())
    else match ValidateSchedule(ss[0])
      case Err(e) => Err(e)
      case Ok(_) => ValidateSchedules(ss[1..])
  }

  /** `DaemonConfig::validate`: every schedule, then the alerts. */
  function Validate(c: DaemonConfig): Result<(), ConfigError> {
    match ValidateSchedules(c.schedules)
    case Err(e) => Err(e)
    case Ok(_) => ValidateAlerts(c.alerts)
  }

  /**
   * The schedules pass exactly when none has an empty cron expression; when
   * one has, the error is the first such schedule's.
   */
  lemma {:induction false} ValidateSchedulesFirst(ss: seq<ScheduleConfig>)
    ensures ValidateSchedules(ss).Ok? <==> forall i :: 0 <= i < |ss| ==> ss[i].cron != []
    ensures ValidateSchedules(ss).Err? ==>
      exists j :: 0 <= j < |ss| && ss[j].cron == [] && (forall i :: 0 <= i < j ==> ss[i].cron != []) &&
                  ValidateSchedules(ss) == ValidateSchedule(ss[j])
  {
    if |ss| > 0 {
      ValidateSchedulesFirst(ss[1..]);
      if ss[0].cron != [] && ValidateSchedules(ss).Err? {
        var j :| 0 <= j < |ss[1..]| && ss[1..][j].cron == [] && (forall i :: 0 <= i < j ==> ss[1..][i].cron != []) &&
                 ValidateSchedules(ss[1..]) == ValidateSchedule(ss[1..][j]);
        assert forall i :: 1 <= i < j + 1 ==> ss[i] == ss[1..][i - 1];
        assert ss[j + 1] == ss[1..][j];
      }
    }
  }

  /**
   * A configuration is valid exactly when every cron expression is
   * non-empty and the packet-loss threshold lies in [0, 100]; a schedule
   * error is reported before an alert error.
   */
  lemma ValidateProps(c: DaemonConfig)
    ensures Validate(c).Ok? <==>
      (forall i :: 0 <= i < |c.schedules| ==> c.schedules[i].cron != []) &&
      0.0 <= c.alerts.packetLossThreshold <= 100.0
    ensures (exists i :: 0 <= i < |c.schedules| && c.schedules[i].cron == []) ==>
      Validate(c).Err? && Validate(c).error.message != LossThresholdMessage()
  {
    ValidateSchedulesFirst(c.schedules);
    var v := ValidateSchedules(c.schedules);
    if v.Err? {
      var j :| 0 <= j < |c.schedules| && c.schedules[j].cron == [] && v == ValidateSchedule(c.schedules[j]);
      assert Validate(c) == v;
    }
  }

  /** The default configuration is valid and monitors the gateway, DNS and the internet. */
  lemma DefaultIsValid()
    ensures Validate(DefaultConfig()).Ok?
    ensures DefaultConfig().monitoring.targets == [Gateway, Dns, Internet]
    ensures DefaultConfig().alerts.latencyThresholdMs == 100
  {
    var c := DefaultConfig();
    ValidateProps(c);
    assert c.schedules[0].cron != [] && c.schedules[1].cron != [];
  }
}
