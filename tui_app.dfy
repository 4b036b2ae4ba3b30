/**
 * The terminal UI's application state (crates/netdiag-tui, app.rs): the tab
 * bar, the result buffers that background tasks fill, the text inputs and
 * the interface selection, updated by key presses, ticks and task messages.
 *
 * The pure functions below give the state after each event as a function of
 * the state before it; the class `App` holds the same state in mutable
 * fields and its methods are proved to perform exactly those transitions.
 */
module TuiApp {
  import opened Wrappers
  import opened Durations
  import opened IpAddrs
  import PingStats
  import TracerouteTypes

  // ---------------------------------------------------------------------------
  // Tabs
  // ---------------------------------------------------------------------------

  datatype Tab = Dashboard | Interfaces | Ping | Traceroute | Dns | Wifi

  /** `Tab::all().len()`. */
  const TabCount: nat := 6

  /** `Tab::index`. */
  function Index(t: Tab): (i: nat)
    ensures i < TabCount
  {
    match t
    case Dashboard => 0
    case Interfaces => 1
    case Ping => 2
    case Traceroute => 3
    case Dns => 4
    case Wifi => 5
  }

  /** `Tab::all()`: every tab, each at its own index. */
  function AllTabs(): (ts: seq<Tab>)
    ensures |ts| == TabCount
    ensures forall i :: 0 <= i < |ts| ==> Index(ts[i]) == i
  {
    [Dashboard, Interfaces, Ping, Traceroute, Dns, Wifi]
  }

  /** `Tab::from_index`: the argument is taken modulo the number of tabs. */
  function FromIndex(idx: nat): (t: Tab)
    ensures Index(t) == idx % TabCount
  {
    var k := idx % TabCount;
    if k == 0 then Dashboard
    else if k == 1 then Interfaces
    else if k == 2 then Ping
    else if k == 3 then Traceroute
    else if k == 4 then Dns
    else Wifi
  }

  /** Two tabs with the same index are the same tab. */
  lemma IndexInjective(a: Tab, b: Tab)
    ensures Index(a) == Index(b) ==> a == b
  {
  }

  /** `from_index(index(t)) == t`. */
  lemma FromIndexIndex(t: Tab)
    ensures FromIndex(Index(t)) == t
  {
    IndexInjective(FromIndex(Index(t)), t);
  }

  /** The tab that `Tab` and `Right` move to. */
  function Next(t: Tab): Tab {
    FromIndex((Index(t) + 1) % TabCount)
  }

  /** The tab that `BackTab` and `Left` move to. */
  function Prev(t: Tab): Tab {
    FromIndex(if Index(t) == 0 then TabCount - 1 else Index(t) - 1)
  }

  /** Right moves one index up and Left one down, both modulo the number of tabs. */
  lemma NextPrevIndex(t: Tab)
    ensures Index(Next(t)) == (Index(t) + 1) % TabCount
    ensures Index(Prev(t)) == (Index(t) + TabCount - 1) % TabCount
  {
  }

  /** Left undoes Right and Right undoes Left; both wrap at the ends. */
  lemma NextPrevInverse(t: Tab)
    ensures Prev(Next(t)) == t && Next(Prev(t)) == t
    ensures Next(Wifi) == Dashboard && Prev(Dashboard) == Wifi
  {
    match t {
      case Dashboard =>
      case Interfaces =>
      case Ping =>
      case Traceroute =>
      case Dns =>
      case Wifi =>
    }
  }

  /** The tab reached from `t` by `k` presses of Right. */
  function Advance(t: Tab, k: nat): Tab {
    if k == 0 then t else Next(Advance(t, k - 1))
  }

  /** `k` presses of Right add `k` to the index, modulo the number of tabs. */
  lemma {:induction false} AdvanceIndex(t: Tab, k: nat)
    ensures Index(Advance(t, k)) == (Index(t) + k) % TabCount
  {
    if k > 0 {
      AdvanceIndex(t, k - 1);
      NextPrevIndex(Advance(t, k - 1));
      ModSucc(Index(t) + k - 1);
    }
  }

  lemma ModSucc(x: nat)
    ensures (x % TabCount + 1) % TabCount == (x + 1) % TabCount
  {
  }

  /** Fewer than six presses of Right reach every tab from any tab. */
  lemma RightReachesEveryTab(t: Tab, u: Tab)
    ensures exists k :: 0 <= k < TabCount && Advance(t, k) == u
  {
    var k: nat;
    if Index(t) <= Index(u) {
      k := Index(u) - Index(t);
      AdvanceIndex(t, k);
      ModBelow(Index(t) + k, Index(u));
    } else {
      k := Index(u) + TabCount - Index(t);
      AdvanceIndex(t, k);
      ModBelow(Index(t) + k, Index(u));
    }
    IndexInjective(Advance(t, k), u);
    assert Advance(t, k) == u;
  }

  lemma ModBelow(x: nat, r: nat)
    requires r < TabCount && (x == r || x == r + TabCount)
    ensures x % TabCount == r
  {
  }

  // ---------------------------------------------------------------------------
  // Displayed records and task messages
  // ---------------------------------------------------------------------------

  /** `InterfaceInfo`, as `refresh_interfaces` lists it. */
  datatype InterfaceInfo = InterfaceInfo(
    name: string, ifType: string, isUp: bool, isDefault: bool,
    ipv4: seq<string>, ipv6: seq<string>, mac: Option<string>)

  /** `PingResultDisplay`; the target is kept as an address, not as its text. */
  datatype PingDisplay = PingDisplay(
    seqNo: nat, target: IpAddr, rttMs: Option<real>, timestamp: int, success: bool, ttl: Option<nat>)

  /** `TracerouteHopDisplay`. */
  datatype HopDisplay = HopDisplay(
    hop: nat, address: Option<IpAddr>, hostname: Option<string>, rttMs: Option<real>, isTimeout: bool)

  /** `WifiInfo`. The band, security and standard are their debug texts. */
  datatype WifiInfo = WifiInfo(
    iface: string, poweredOn: bool, ssid: Option<string>, bssid: Option<string>,
    rssi: Option<int>, noise: Option<int>, channel: Option<nat>, band: Option<string>,
    security: Option<string>, txRate: Option<real>, standard: Option<string>)

  /** The resolver's `DnsResult`. */
  datatype DnsAnswer = DnsAnswer(
    query: string, addresses: seq<IpAddr>, duration: Duration, success: bool, error: Option<string>)

  /** `TaskMessage`: what a background task reports back. */
  datatype TaskMessage =
    | PingResult(stats: PingStats.PingStats)
    | PingError(err: string)
    | DnsResult(answer: DnsAnswer)
    | DnsError(err: string)
    | TracerouteHop(hop: TracerouteTypes.TracerouteHop)
    | TracerouteComplete(result: TracerouteTypes.TracerouteResult)
    | TracerouteError(err: string)
    | WifiUpdate(info: WifiInfo)
    | WifiError(err: string)

  /** The status line; each constructor stands for one of the formatted messages. */
  datatype Status =
    | PingComplete(received: nat, transmitted: nat)
    | PingFailed(err: string)
    | DnsComplete
    | DnsFailed(err: string)
    | TraceComplete(hops: nat, reached: bool)
    | TraceFailed(err: string)
    | WifiFailed(err: string)
    | Refreshed
    | Cleared
    | Pinging(target: string)
    | LookingUp(target: string)
    | Tracing(target: string)

  /** The key codes `on_key` and `handle_input_key` tell apart. */
  datatype Key = Char(c: char) | TabKey | BackTab | Left | Right | Up | Down | Enter | Esc | Backspace | OtherKey

  /** `as_secs_f64() * 1000.0`. */
  function RttMs(d: Duration): real {
    AsSecs(d) * 1000.0
  }

  function RttMsOf(rtt: Option<Duration>): Option<real> {
    if rtt.Some? then Some(RttMs(rtt.value)) else None
  }

  /** The display row of one probe result. */
  function ToDisplay(r: PingStats.PingResult, target: IpAddr, now: int): PingDisplay {
    PingDisplay(r.seqNo, target, RttMsOf(r.rtt), now, r.success, r.ttl)
  }

  /** The display rows of a run of probe results, in order. */
  function Displays(rs: seq<PingStats.PingResult>, target: IpAddr, now: int): (d: seq<PingDisplay>)
    ensures |d| == |rs|
    ensures forall i :: 0 <= i < |rs| ==> d[i] == ToDisplay(rs[i], target, now)
  {
    if rs == [] then []
    else Displays(rs[..|rs| - 1], target, now) + [ToDisplay(rs[|rs| - 1], target, now)]
  }

  /** The display row of a traceroute hop. */
  function ToHopDisplay(h: TracerouteTypes.TracerouteHop): HopDisplay {
    HopDisplay(h.hop, h.address, h.hostname, RttMsOf(h.avgRtt), h.allTimeout)
  }

  // ---------------------------------------------------------------------------
  // Bounded buffers
  // ---------------------------------------------------------------------------

  /** The sparkline keeps the last 50 round-trip times. */
  const RttHistoryCap: nat := 50
  /** The ping list keeps the last 100 results. */
  const PingResultsCap: nat := 100
  /** The DNS list keeps the 20 newest results. */
  const DnsResultsCap: nat := 20

  /** The last `n` elements of `s`, or all of it when it is shorter. */
  function KeepLast<T>(s: seq<T>, n: nat): (r: seq<T>)
    ensures |r| == if |s| < n then |s| else n
    ensures r == s[|s| - |r|..]
  {
    if |s| > n then s[|s| - n..] else s
  }

  /** The first `n` elements of `s`, or all of it when it is shorter. */
  function KeepFirst<T>(s: seq<T>, n: nat): (r: seq<T>)
    ensures |r| == if |s| < n then |s| else n
    ensures r == s[..|r|]
  {
    if |s| > n then s[..n] else s
  }

  /** One push onto the sparkline history, dropping the oldest entry past the cap. */
  function PushRtt(h: seq<real>, ms: real): seq<real> {
    var t := h + [ms];
    if |t| > RttHistoryCap then t[1..] else t
  }

  /** The history after the probe results `rs`, one push per result that has a time. */
  function RttFold(h: seq<real>, rs: seq<PingStats.PingResult>): seq<real> {
    if rs == [] then h
    else
      var before := RttFold(h, rs[..|rs| - 1]);
      var r := rs[|rs| - 1];
      if r.rtt.Some? then PushRtt(before, RttMs(r.rtt.value)) else before
  }

  /** The round-trip times of `rs`, in milliseconds, in probe order. */
  function RttsMs(rs: seq<PingStats.PingResult>): seq<real> {
    if rs == [] then []
    else
      var r := rs[|rs| - 1];
      RttsMs(rs[..|rs| - 1]) + (if r.rtt.Some? then [RttMs(r.rtt.value)] else [])
  }

  /** A push onto a buffer that holds the last 50 keeps the last 50. */
  lemma PushRttKeepsLast(s: seq<real>, ms: real)
    ensures PushRtt(KeepLast(s, RttHistoryCap), ms) == KeepLast(s + [ms], RttHistoryCap)
  {
    var k := KeepLast(s, RttHistoryCap);
    if |s| > RttHistoryCap {
      assert (k + [ms])[1..] == (s + [ms])[|s| + 1 - RttHistoryCap..];
    }
  }

  /** Starting within the cap, the history is always the last 50 times received. */
  lemma {:induction false} RttFoldKeepsLast(h: seq<real>, rs: seq<PingStats.PingResult>)
    requires |h| <= RttHistoryCap
    ensures RttFold(h, rs) == KeepLast(h + RttsMs(rs), RttHistoryCap)
  {
    if rs == [] {
      assert h + RttsMs(rs) == h;
    } else {
      var init := rs[..|rs| - 1];
      var r := rs[|rs| - 1];
      RttFoldKeepsLast(h, init);
      if r.rtt.Some? {
        PushRttKeepsLast(h + RttsMs(init), RttMs(r.rtt.value));
        assert h + RttsMs(rs) == (h + RttsMs(init)) + [RttMs(r.rtt.value)];
      } else {
        assert h + RttsMs(rs) == h + RttsMs(init);
      }
    }
  }

  /** `insert(0, result)` then `pop()` past the cap. */
  function PushDns(rs: seq<DnsAnswer>, a: DnsAnswer): (out: seq<DnsAnswer>)
    ensures |out| > 0 && out[0] == a
    ensures |rs| <= DnsResultsCap ==> |out| <= DnsResultsCap
    ensures |out| - 1 <= |rs| && out[1..] == rs[..|out| - 1]
  {
    var t := [a] + rs;
    if |t| > DnsResultsCap then t[..|t| - 1] else t
  }

  /** The list after the answers `answers` arrive one by one. */
  function DnsFold(rs: seq<DnsAnswer>, answers: seq<DnsAnswer>): seq<DnsAnswer> {
    if answers == [] then rs else PushDns(DnsFold(rs, answers[..|answers| - 1]), answers[|answers| - 1])
  }

  function Reversed<T>(s: seq<T>): (r: seq<T>)
    ensures |r| == |s|
    ensures forall i :: 0 <= i < |s| ==> r[i] == s[|s| - 1 - i]
  {
    if s == [] then [] else [s[|s| - 1]] + Reversed(s[..|s| - 1])
  }

  /** A push onto a list that holds the first 20 keeps the first 20. */
  lemma PushDnsKeepsFirst(s: seq<DnsAnswer>, a: DnsAnswer)
    ensures PushDns(KeepFirst(s, DnsResultsCap), a) == KeepFirst([a] + s, DnsResultsCap)
  {
    var k := KeepFirst(s, DnsResultsCap);
    if |s| > DnsResultsCap {
      assert ([a] + k)[..DnsResultsCap] == ([a] + s)[..DnsResultsCap];
    }
  }

  /** Starting within the cap, the list holds the 20 newest answers, newest first. */
  lemma {:induction false} DnsNewestFirst(rs: seq<DnsAnswer>, answers: seq<DnsAnswer>)
    requires |rs| <= DnsResultsCap
    ensures DnsFold(rs, answers) == KeepFirst(Reversed(answers) + rs, DnsResultsCap)
  {
    if answers == [] {
      assert Reversed(answers) + rs == rs;
    } else {
      var init := answers[..|answers| - 1];
      var a := answers[|answers| - 1];
      DnsNewestFirst(rs, init);
      PushDnsKeepsFirst(Reversed(init) + rs, a);
      assert Reversed(answers) + rs == [a] + (Reversed(init) + rs);
    }
  }

  /**
   * The loop of the ping branch of `handle_task_message`: one row per result
   * and one sparkline push, capped at 50, per result that has a time.
   */
  method AppendPingRows(history0: seq<real>, rows0: seq<PingDisplay>, rs: seq<PingStats.PingResult>,
                        target: IpAddr, now: int)
      returns (history: seq<real>, rows: seq<PingDisplay>)
    ensures history == RttFold(history0, rs)
    ensures rows == rows0 + Displays(rs, target, now)
  {
    history, rows := history0, rows0;
    for i := 0 to |rs|
      invariant history == RttFold(history0, rs[..i])
      invariant rows == rows0 + Displays(rs[..i], target, now)
    {
      assert rs[..i + 1][..i] == rs[..i];
      var row := ToDisplay(rs[i], target, now);
      if rs[i].rtt.Some? {
        history := history + [RttMs(rs[i].rtt.value)];
        if |history| > RttHistoryCap {
          history := history[1..];
        }
      }
      rows := rows + [row];
    }
    assert rs[..|rs|] == rs;
  }

  // ---------------------------------------------------------------------------
  // Application state and its transitions
  // ---------------------------------------------------------------------------

  /** The ping tool's fields: target input, result rows, running flag, statistics and sparkline. */
  datatype PingPanel = PingPanel(
    target: string, results: seq<PingDisplay>, running: bool,
    stats: Option<PingStats.PingStats>, rttHistory: seq<real>)

  /** The traceroute tool's fields. */
  datatype TracePanel = TracePanel(target: string, hops: seq<HopDisplay>, running: bool)

  /** The DNS tool's fields. */
  datatype DnsPanel = DnsPanel(target: string, results: seq<DnsAnswer>, running: bool)

  /** The WiFi panel's fields. */
  datatype WifiPanel = WifiPanel(info: Option<WifiInfo>, running: bool)

  /** The fields of `App` that the event handlers read and write. */
  datatype AppState = AppState(
    shouldQuit: bool,
    currentTab: Tab,
    interfaces: seq<InterfaceInfo>,
    selectedInterface: nat,
    inputMode: bool,
    statusMessage: Option<Status>,
    lastUpdate: int,
    ping: PingPanel,
    trace: TracePanel,
    dns: DnsPanel,
    wifi: WifiPanel)

  /** The buffers are within their caps and the selection is an interface or 0. */
  predicate Bounded(s: AppState) {
    && |s.ping.rttHistory| <= RttHistoryCap
    && |s.ping.results| <= PingResultsCap
    && |s.dns.results| <= DnsResultsCap
    && (s.selectedInterface == 0 || s.selectedInterface < |s.interfaces|)
  }

  /** `App::new`, with the clock reading `now`. */
  function Initial(now: int): (s: AppState)
    ensures Bounded(s)
    ensures s.currentTab == Dashboard && !s.inputMode && !s.shouldQuit
    ensures s.ping.results == [] && s.trace.hops == [] && s.dns.results == []
  {
    AppState(false, Dashboard, [], 0, false, None, now,
             PingPanel([], [], false, None, []), TracePanel([], [], false),
             DnsPanel([], [], false), WifiPanel(None, false))
  }

  /** `on_tick`. */
  function Ticked(s: AppState, now: int): AppState {
    s.(lastUpdate := now)
  }

  /**
   * `handle_task_message`, with the clock reading `now` for the new ping
   * rows. The source reads the clock once per row; here every row of one
   * batch shares the single reading `now`.
   */
  function Received(s: AppState, msg: TaskMessage, now: int): AppState {
    match msg
    case PingResult(stats) =>
      var rows := KeepLast(s.ping.results + Displays(stats.results, stats.target, now), PingResultsCap);
      s.(ping := s.ping.(running := false, stats := Some(stats), results := rows,
                         rttHistory := RttFold(s.ping.rttHistory, stats.results)),
         statusMessage := Some(PingComplete(stats.received, stats.transmitted)))
    case PingError(err) => s.(ping := s.ping.(running := false), statusMessage := Some(PingFailed(err)))
    case DnsResult(a) =>
      s.(dns := s.dns.(running := false, results := PushDns(s.dns.results, a)), statusMessage := Some(DnsComplete))
    case DnsError(err) => s.(dns := s.dns.(running := false), statusMessage := Some(DnsFailed(err)))
    case TracerouteHop(hop) => s.(trace := s.trace.(hops := s.trace.hops + [ToHopDisplay(hop)]))
    case TracerouteComplete(result) =>
      s.(trace := s.trace.(running := false), statusMessage := Some(TraceComplete(|result.hops|, result.reached)))
    case TracerouteError(err) => s.(trace := s.trace.(running := false), statusMessage := Some(TraceFailed(err)))
    case WifiUpdate(info) => s.(wifi := WifiPanel(Some(info), false))
    case WifiError(err) => s.(wifi := s.wifi.(running := false), statusMessage := Some(WifiFailed(err)))
  }

  /** `start_ping`: marks the ping running; the probe itself runs elsewhere. */
  function PingStarted(s: AppState): AppState {
    s.(ping := s.ping.(running := true), statusMessage := Some(Pinging(s.ping.target)))
  }

  /** `start_dns_lookup`. */
  function DnsStarted(s: AppState): AppState {
    s.(dns := s.dns.(running := true), statusMessage := Some(LookingUp(s.dns.target)))
  }

  /** `start_traceroute`: also clears the previous hops. */
  function TraceStarted(s: AppState): AppState {
    s.(trace := s.trace.(running := true, hops := []), statusMessage := Some(Tracing(s.trace.target)))
  }

  /** `execute_command`: starts the current tab's tool unless its target is empty or it is running. */
  function Executed(s: AppState): AppState {
    match s.currentTab
    case Ping => if s.ping.target != [] && !s.ping.running then PingStarted(s) else s
    case Dns => if s.dns.target != [] && !s.dns.running then DnsStarted(s) else s
    case Traceroute => if s.trace.target != [] && !s.trace.running then TraceStarted(s) else s
    case _ => s
  }

  /** `String::pop`: drops the last character, if any. */
  function PopChar(t: string): (r: string)
    ensures t == [] ==> r == []
    ensures t != [] ==> t == r + [t[|t| - 1]]
  {
    if t == [] then t else t[..|t| - 1]
  }

  /** A character typed in input mode goes to the current tab's target. */
  function Typed(s: AppState, c: char): AppState {
    match s.currentTab
    case Ping => s.(ping := s.ping.(target := s.ping.target + [c]))
    case Dns => s.(dns := s.dns.(target := s.dns.target + [c]))
    case Traceroute => s.(trace := s.trace.(target := s.trace.target + [c]))
    case _ => s
  }

  /** Backspace in input mode drops the last character of the current tab's target. */
  function Erased(s: AppState): AppState {
    match s.currentTab
    case Ping => s.(ping := s.ping.(target := PopChar(s.ping.target)))
    case Dns => s.(dns := s.dns.(target := PopChar(s.dns.target)))
    case Traceroute => s.(trace := s.trace.(target := PopChar(s.trace.target)))
    case _ => s
  }

  /** `handle_input_key`: editing the current tab's target. */
  function InputKeyed(s: AppState, key: Key): AppState {
    match key
    case Esc => s.(inputMode := false)
    case Enter => Executed(s.(inputMode := false))
    case Backspace => Erased(s)
    case Char(c) => Typed(s, c)
    case _ => s
  }

  /** `refresh_interfaces`, with the platform's list `ifaces`; an out-of-range selection resets to 0. */
  function InterfacesRefreshed(s: AppState, ifaces: seq<InterfaceInfo>): AppState {
    s.(interfaces := ifaces,
       selectedInterface := if s.selectedInterface >= |ifaces| then 0 else s.selectedInterface)
  }

  /** `refresh_wifi`: marks the scan running; the scan itself runs elsewhere. */
  function WifiRefreshed(s: AppState): AppState {
    s.(wifi := s.wifi.(running := true))
  }

  /** The results the `c` key drops, by tab. */
  function TabCleared(s: AppState): AppState {
    match s.currentTab
    case Ping => s.(ping := s.ping.(results := [], stats := None, rttHistory := []))
    case Dns => s.(dns := s.dns.(results := []))
    case Traceroute => s.(trace := s.trace.(hops := []))
    case _ => s
  }

  /** The Up / `k` key. */
  function SelectedUp(s: AppState): AppState {
    if s.selectedInterface > 0 then s.(selectedInterface := s.selectedInterface - 1) else s
  }

  /** The Down / `j` key: `len().saturating_sub(1)` bounds the selection. */
  function SelectedDown(s: AppState): AppState {
    var last := if |s.interfaces| > 0 then |s.interfaces| - 1 else 0;
    if s.selectedInterface < last then s.(selectedInterface := s.selectedInterface + 1) else s
  }

  /** Enter / `i` outside input mode: start editing a target, or rescan WiFi. */
  function EnterPressed(s: AppState): AppState {
    match s.currentTab
    case Ping => s.(inputMode := true)
    case Dns => s.(inputMode := true)
    case Traceroute => s.(inputMode := true)
    case Wifi => WifiRefreshed(s)
    case _ => s
  }

  /** The tab the keys `1` to `6` select. */
  function DigitTab(c: char): (t: Option<Tab>)
    ensures t.Some? <==> '1' <= c <= '6'
    ensures t.Some? ==> Index(t.value) == (c - '1') as nat
  {
    if c == '1' then Some(Dashboard)
    else if c == '2' then Some(Interfaces)
    else if c == '3' then Some(Ping)
    else if c == '4' then Some(Traceroute)
    else if c == '5' then Some(Dns)
    else if c == '6' then Some(Wifi)
    else None
  }

  /** The character keys outside input mode. */
  function CharPressed(s: AppState, c: char, ifaces: seq<InterfaceInfo>): AppState {
    if c == 'q' then s.(shouldQuit := true)
    else if DigitTab(c).Some? then s.(currentTab := DigitTab(c).value)
    else if c == 'r' then WifiRefreshed(InterfacesRefreshed(s, ifaces)).(statusMessage := Some(Refreshed))
    else if c == 'i' then EnterPressed(s)
    else if c == 'c' then TabCleared(s).(statusMessage := Some(Cleared))
    else if c == 'k' then SelectedUp(s)
    else if c == 'j' then SelectedDown(s)
    else if c == ' ' then (if s.currentTab == Ping && s.ping.target != [] then PingStarted(s) else s)
    else s
  }

  /**
   * `on_key`. `ifaces` is the interface list the platform would report if
   * the key asks for a refresh.
   */
  function Pressed(s: AppState, key: Key, ifaces: seq<InterfaceInfo>): AppState {
    if s.inputMode then InputKeyed(s, key)
    else
      match key
      case Char(c) => CharPressed(s, c, ifaces)
      case TabKey => s.(currentTab := Next(s.currentTab))
      case Right => s.(currentTab := Next(s.currentTab))
      case BackTab => s.(currentTab := Prev(s.currentTab))
      case Left => s.(currentTab := Prev(s.currentTab))
      case Enter => EnterPressed(s)
      case Up => SelectedUp(s)
      case Down => SelectedDown(s)
      case _ => s
  }

  // ---------------------------------------------------------------------------
  // Properties of the transitions
  // ---------------------------------------------------------------------------

  /** A task message keeps every buffer within its cap. */
  lemma ReceivedBounded(s: AppState, msg: TaskMessage, now: int)
    requires Bounded(s)
    ensures Bounded(Received(s, msg, now))
  {
    if msg.PingResult? {
      RttFoldKeepsLast(s.ping.rttHistory, msg.stats.results);
    }
  }

  /** After a ping run, the sparkline is the last 50 times and the list the last 100 rows. */
  lemma PingRunKeepsNewest(s: AppState, stats: PingStats.PingStats, now: int)
    requires Bounded(s)
    ensures var t := Received(s, PingResult(stats), now);
      && t.ping.rttHistory == KeepLast(s.ping.rttHistory + RttsMs(stats.results), RttHistoryCap)
      && t.ping.results == KeepLast(s.ping.results + Displays(stats.results, stats.target, now), PingResultsCap)
      && !t.ping.running && t.ping.stats == Some(stats)
  {
    RttFoldKeepsLast(s.ping.rttHistory, stats.results);
  }

  /** A DNS answer goes to the front of the list. */
  lemma DnsAnswerFirst(s: AppState, a: DnsAnswer, now: int)
    requires Bounded(s)
    ensures var t := Received(s, DnsResult(a), now);
      && t.dns.results[0] == a
      && t.dns.results[1..] == s.dns.results[..|t.dns.results| - 1]
      && |t.dns.results| == if |s.dns.results| < DnsResultsCap then |s.dns.results| + 1 else DnsResultsCap
  {
  }

  /** Input mode keeps every buffer within its cap and the selection in range. */
  lemma InputKeyedBounded(s: AppState, key: Key)
    requires Bounded(s)
    ensures Bounded(InputKeyed(s, key))
  {
  }

  /** The character keys keep every buffer within its cap and the selection in range. */
  lemma CharPressedBounded(s: AppState, c: char, ifaces: seq<InterfaceInfo>)
    requires Bounded(s)
    ensures Bounded(CharPressed(s, c, ifaces))
  {
    if c == 'r' {
      assert Bounded(InterfacesRefreshed(s, ifaces));
    } else if c == 'c' {
      assert Bounded(TabCleared(s));
    }
  }

  /** A key press keeps every buffer within its cap and the selection in range. */
  lemma PressedBounded(s: AppState, key: Key, ifaces: seq<InterfaceInfo>)
    requires Bounded(s)
    ensures Bounded(Pressed(s, key, ifaces))
  {
    if s.inputMode {
      InputKeyedBounded(s, key);
    } else if key.Char? {
      CharPressedBounded(s, key.c, ifaces);
    }
  }

  /** Outside input mode, Tab/Right and BackTab/Left move one tab along, wrapping around. */
  lemma NavigationWraps(s: AppState, ifaces: seq<InterfaceInfo>)
    requires !s.inputMode
    ensures Index(Pressed(s, Right, ifaces).currentTab) == (Index(s.currentTab) + 1) % TabCount
    ensures Index(Pressed(s, Left, ifaces).currentTab) == (Index(s.currentTab) + TabCount - 1) % TabCount
    ensures Pressed(s, TabKey, ifaces) == Pressed(s, Right, ifaces)
    ensures Pressed(s, BackTab, ifaces) == Pressed(s, Left, ifaces)
  {
    NextPrevIndex(s.currentTab);
  }

  /** Down never moves the selection past the last interface; Up never below 0. */
  lemma SelectionMoves(s: AppState, ifaces: seq<InterfaceInfo>)
    requires !s.inputMode
    ensures var d := Pressed(s, Down, ifaces).selectedInterface;
      d == s.selectedInterface || (d == s.selectedInterface + 1 && d < |s.interfaces|)
    ensures var u := Pressed(s, Up, ifaces).selectedInterface;
      (s.selectedInterface == 0 ==> u == 0) && (s.selectedInterface > 0 ==> u == s.selectedInterface - 1)
  {
  }

  /** A refresh keeps the selection when it is still an interface and resets it to 0 otherwise. */
  lemma RefreshSelection(s: AppState, ifaces: seq<InterfaceInfo>)
    requires !s.inputMode
    ensures var r := Pressed(s, Char('r'), ifaces);
      r.interfaces == ifaces
      && (s.selectedInterface < |ifaces| ==> r.selectedInterface == s.selectedInterface)
      && (s.selectedInterface >= |ifaces| ==> r.selectedInterface == 0)
  {
  }

  /** In input mode every character is typed into the target: `q` does not quit, digits do not switch tabs. */
  lemma TypingEdits(s: AppState, c: char, ifaces: seq<InterfaceInfo>)
    requires s.inputMode
    ensures var t := Pressed(s, Char(c), ifaces);
      t.shouldQuit == s.shouldQuit && t.currentTab == s.currentTab && t.inputMode
    ensures s.currentTab == Ping ==> Pressed(s, Char(c), ifaces).ping.target == s.ping.target + [c]
  {
  }

  /** Backspace undoes a typed character. */
  lemma BackspaceUndoesTyping(s: AppState, c: char, ifaces: seq<InterfaceInfo>)
    requires s.inputMode
    ensures Pressed(Pressed(s, Char(c), ifaces), Backspace, ifaces) == s
  {
    match s.currentTab {
      case Ping => assert PopChar(s.ping.target + [c]) == s.ping.target;
      case Dns => assert PopChar(s.dns.target + [c]) == s.dns.target;
      case Traceroute => assert PopChar(s.trace.target + [c]) == s.trace.target;
      case _ =>
    }
  }

  /** Enter in input mode leaves input mode and starts a ping only for a non-empty target not already running. */
  lemma EnterStartsPing(s: AppState, ifaces: seq<InterfaceInfo>)
    requires s.inputMode && s.currentTab == Ping
    ensures var t := Pressed(s, Enter, ifaces);
      !t.inputMode && (t.ping.running <==> (s.ping.running || s.ping.target != []))
    ensures s.ping.target != [] && !s.ping.running ==> Pressed(s, Enter, ifaces).statusMessage == Some(Pinging(s.ping.target))
  {
  }

  // ---------------------------------------------------------------------------
  // The application object
  // ---------------------------------------------------------------------------

  /** `App`, its fields grouped by tool; the message channel and the connectivity flags are not modelled. */
  class App {
    var shouldQuit: bool
    var currentTab: Tab
    var interfaces: seq<InterfaceInfo>
    var selectedInterface: nat
    var inputMode: bool
    var statusMessage: Option<Status>
    var lastUpdate: int
    var ping: PingPanel
    var trace: TracePanel
    var dns: DnsPanel
    var wifi: WifiPanel

    /** The fields as one value. */
    function State(): AppState
      reads this
    {
      AppState(shouldQuit, currentTab, interfaces, selectedInterface, inputMode, statusMessage,
               lastUpdate, ping, trace, dns, wifi)
    }

    /** `App::new`. */
    constructor(now: int)
      ensures State() == Initial(now)
    {
      shouldQuit, currentTab, interfaces, selectedInterface := false, Dashboard, [], 0;
      inputMode, statusMessage, lastUpdate := false, None, now;
      ping := PingPanel([], [], false, None, []);
      trace := TracePanel([], [], false);
      dns := DnsPanel([], [], false);
      wifi := WifiPanel(None, false);
    }

    /** `on_tick`. */
    method OnTick(now: int)
      modifies this
      ensures State() == Ticked(old(State()), now)
    {
      lastUpdate := now;
    }

    /** `handle_task_message`. */
    method HandleTaskMessage(msg: TaskMessage, now: int)
      modifies this
      ensures State() == Received(old(State()), msg, now)
    {
      if msg.PingResult? {
        AddPingResults(msg.stats, now);
      } else if msg.DnsResult? || msg.DnsError? {
        HandleDns(msg, now);
      } else if msg.TracerouteHop? || msg.TracerouteComplete? || msg.TracerouteError? {
        HandleTraceroute(msg, now);
      } else {
        HandleOther(msg, now);
      }
    }

    /** `handle_task_message` for the DNS messages. */
    method HandleDns(msg: TaskMessage, now: int)
      requires msg.DnsResult? || msg.DnsError?
      modifies this
      ensures State() == Received(old(State()), msg, now)
    {
      match msg {
        case DnsResult(a) =>
          var results := [a] + dns.results;
          if |results| > DnsResultsCap {
            results := results[..|results| - 1];
          }
          dns := dns.(running := false, results := results);
          statusMessage := Some(DnsComplete);
        case DnsError(err) =>
          dns := dns.(running := false);
          statusMessage := Some(DnsFailed(err));
      }
    }

    /** `handle_task_message` for the traceroute messages. */
    method HandleTraceroute(msg: TaskMessage, now: int)
      requires msg.TracerouteHop? || msg.TracerouteComplete? || msg.TracerouteError?
      modifies this
      ensures State() == Received(old(State()), msg, now)
    {
      match msg {
        case TracerouteHop(hop) =>
          trace := trace.(hops := trace.hops + [ToHopDisplay(hop)]);
        case TracerouteComplete(result) =>
          trace := trace.(running := false);
          statusMessage := Some(TraceComplete(|result.hops|, result.reached));
        case TracerouteError(err) =>
          trace := trace.(running := false);
          statusMessage := Some(TraceFailed(err));
      }
    }

    /** `handle_task_message` for a ping error and the WiFi messages. */
    method HandleOther(msg: TaskMessage, now: int)
      requires msg.PingError? || msg.WifiUpdate? || msg.WifiError?
      modifies this
      ensures State() == Received(old(State()), msg, now)
    {
      match msg {
        case PingError(err) =>
          ping := ping.(running := false);
          statusMessage := Some(PingFailed(err));
        case WifiUpdate(info) =>
          wifi := WifiPanel(Some(info), false);
        case WifiError(err) =>
          wifi := wifi.(running := false);
          statusMessage := Some(WifiFailed(err));
      }
    }

    /** The ping branch of `handle_task_message`. */
    method AddPingResults(stats: PingStats.PingStats, now: int)
      modifies this
      ensures State() == Received(old(State()), PingResult(stats), now)
    {
      var history, rows := AppendPingRows(ping.rttHistory, ping.results, stats.results, stats.target, now);
      if |rows| > PingResultsCap {
        rows := rows[|rows| - PingResultsCap..];
      }
      ping := ping.(running := false, stats := Some(stats), results := rows, rttHistory := history);
      statusMessage := Some(PingComplete(stats.received, stats.transmitted));
    }

    /** `start_ping`. */
    method StartPing()
      modifies this
      ensures State() == PingStarted(old(State()))
    {
      ping := ping.(running := true);
      statusMessage := Some(Pinging(ping.target));
    }

    /** `start_dns_lookup`. */
    method StartDnsLookup()
      modifies this
      ensures State() == DnsStarted(old(State()))
    {
      dns := dns.(running := true);
      statusMessage := Some(LookingUp(dns.target));
    }

    /** `start_traceroute`. */
    method StartTraceroute()
      modifies this
      ensures State() == TraceStarted(old(State()))
    {
      trace := trace.(running := true, hops := []);
      statusMessage := Some(Tracing(trace.target));
    }

    /** `execute_command`. */
    method ExecuteCommand()
      modifies this
      ensures State() == Executed(old(State()))
    {
      match currentTab {
        case Ping =>
          if ping.target != [] && !ping.running {
            StartPing();
          }
        case Dns =>
          if dns.target != [] && !dns.running {
            StartDnsLookup();
          }
        case Traceroute =>
          if trace.target != [] && !trace.running {
            StartTraceroute();
          }
        case _ =>
      }
    }

    /** `refresh_interfaces`, with the platform's list `ifaces`. */
    method RefreshInterfaces(ifaces: seq<InterfaceInfo>)
      modifies this
      ensures State() == InterfacesRefreshed(old(State()), ifaces)
    {
      interfaces := ifaces;
      if selectedInterface >= |interfaces| {
        selectedInterface := 0;
      }
    }

    /** `refresh_wifi`. */
    method RefreshWifi()
      modifies this
      ensures State() == WifiRefreshed(old(State()))
    {
      wifi := wifi.(running := true);
    }

    /** `handle_input_key`. */
    method HandleInputKey(key: Key)
      modifies this
      ensures State() == InputKeyed(old(State()), key)
    {
      match key {
        case Esc =>
          inputMode := false;
        case Enter =>
          inputMode := false;
          ExecuteCommand();
        case Backspace => Erase();
        case Char(c) => Type(c);
        case _ =>
      }
    }

    /** A character typed in input mode. */
    method Type(c: char)
      modifies this
      ensures State() == Typed(old(State()), c)
    {
      match currentTab {
        case Ping => ping := ping.(target := ping.target + [c]);
        case Dns => dns := dns.(target := dns.target + [c]);
        case Traceroute => trace := trace.(target := trace.target + [c]);
        case _ =>
      }
    }

    /** Backspace in input mode. */
    method Erase()
      modifies this
      ensures State() == Erased(old(State()))
    {
      match currentTab {
        case Ping => ping := ping.(target := PopChar(ping.target));
        case Dns => dns := dns.(target := PopChar(dns.target));
        case Traceroute => trace := trace.(target := PopChar(trace.target));
        case _ =>
      }
    }

    /** Enter / `i` outside input mode. */
    method OnEnter()
      modifies this
      ensures State() == EnterPressed(old(State()))
    {
      match currentTab {
        case Ping => inputMode := true;
        case Dns => inputMode := true;
        case Traceroute => inputMode := true;
        case Wifi => RefreshWifi();
        case _ =>
      }
    }

    /** The `c` key. */
    method ClearResults()
      modifies this
      ensures State() == TabCleared(old(State())).(statusMessage := Some(Cleared))
    {
      match currentTab {
        case Ping => ping := ping.(results := [], stats := None, rttHistory := []);
        case Dns => dns := dns.(results := []);
        case Traceroute => trace := trace.(hops := []);
        case _ =>
      }
      statusMessage := Some(Cleared);
    }

    /** Up / `k`. */
    method SelectUp()
      modifies this
      ensures State() == SelectedUp(old(State()))
    {
      if selectedInterface > 0 {
        selectedInterface := selectedInterface - 1;
      }
    }

    /** Down / `j`. */
    method SelectDown()
      modifies this
      ensures State() == SelectedDown(old(State()))
    {
      var last := if |interfaces| > 0 then |interfaces| - 1 else 0;
      if selectedInterface < last {
        selectedInterface := selectedInterface + 1;
      }
    }

    /** The character keys of `on_key` outside input mode. */
    method OnChar(c: char, ifaces: seq<InterfaceInfo>)
      modifies this
      ensures State() == CharPressed(old(State()), c, ifaces)
    {
      var digit := DigitTab(c);
      if c == 'q' {
        shouldQuit := true;
      } else if digit.Some? {
        currentTab := digit.value;
      } else if c == 'r' {
        RefreshInterfaces(ifaces);
        RefreshWifi();
        statusMessage := Some(Refreshed);
      } else if c == 'i' {
        OnEnter();
      } else if c == 'c' {
        ClearResults();
      } else if c == 'k' {
        SelectUp();
      } else if c == 'j' {
        SelectDown();
      } else if c == ' ' {
        if currentTab == Ping && ping.target != [] {
          StartPing();
        }
      }
    }

    /** `on_key`; `ifaces` is what a refresh would find. */
    method OnKey(key: Key, ifaces: seq<InterfaceInfo>)
      modifies this
      ensures State() == Pressed(old(State()), key, ifaces)
    {
      if inputMode {
        HandleInputKey(key);
        return;
      }
      match key {
        case Char(c) => OnChar(c, ifaces);
        case TabKey => currentTab := Next(currentTab);
        case Right => currentTab := Next(currentTab);
        case BackTab => currentTab := Prev(currentTab);
        case Left => currentTab := Prev(currentTab);
        case Enter => OnEnter();
        case Up => SelectUp();
        case Down => SelectDown();
        case _ =>
      }
    }
  }
}
