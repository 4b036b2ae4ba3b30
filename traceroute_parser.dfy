/**
 * The system-traceroute output parser (crates/netdiag-connectivity,
 * traceroute.rs): every line after the header becomes a hop, a hop line is
 * walked token by token for timeouts, the address, round-trip times and the
 * hostname, and the target counts as reached when the last hop answered
 * from it.
 */
module TracerouteParser {
  import opened Wrappers
  import opened Durations
  import opened Text
  import opened IpAddrs
  import opened TracerouteTypes

  /** The parts of `TracerouteConfig` the parser and the result use; `probesPerHop` is a `u8`. */
  datatype TracerouteConfig = TracerouteConfig(
    maxHops: nat, probesPerHop: nat, timeout: Duration, protocol: TracerouteProtocol, resolveHostnames: bool)

  /** `TracerouteConfig::default`: 30 hops, 3 probes, 3 s, ICMP, with name resolution. */
  function DefaultTracerouteConfig(): TracerouteConfig {
    TracerouteConfig(30, 3, 3 * NanosPerSec, Icmp, true)
  }

  /** The address a probe is attributed to when no address was seen yet: `0.0.0.0`. */
  function Unspecified(): IpAddr {
    V4([0, 0, 0, 0])
  }

  // ---------------------------------------------------------------------------
  // One hop line
  // ---------------------------------------------------------------------------

  /** Every part after the hop number is `*`. */
  predicate AllStars(parts: seq<string>) {
    forall i :: 1 <= i < |parts| ==> parts[i] == "*"
  }

  /** A part made only of ASCII digits and dots, which is never taken as a hostname. */
  predicate DigitsAndDots(s: string) {
    forall i :: 0 <= i < |s| ==> IsDigit(s[i]) || s[i] == '.'
  }

  /** A part such as `(192.168.1.1)`. */
  predicate Parenthesized(part: string) {
    StartsWith(part, "(") && EndsWith(part, ")")
  }

  /** What the token walk has gathered so far, and the index of the next part. */
  datatype HopScan = HopScan(i: nat, address: Option<IpAddr>, hostname: Option<string>,
                             probes: seq<TracerouteProbe>)

  /** The text between the parentheses of a parenthesized part. */
  function Inner(part: string): (r: string)
    requires Parenthesized(part)
    ensures |r| + 2 == |part|
  {
    assert part[0] == "("[0];
    assert part[|part| - 1..] == ")";
    part[1..|part| - 1]
  }

  /** The number text of an RTT part: without its `ms` suffixes when it has one, else the part itself. */
  function TimeText(part: string): string {
    if EndsWith(part, "ms") then TrimEndMatches(part, "ms") else part
  }

  /** An RTT part: it ends in `ms`, or the next part is a lone `ms`. */
  predicate IsRttPart(parts: seq<string>, i: nat)
    requires i < |parts|
  {
    EndsWith(parts[i], "ms") || (i + 1 < |parts| && parts[i + 1] == "ms")
  }

  /**
   * One turn of the token walk of `parse_hop_line` at part `st.i`: a `*` adds
   * a timed-out probe; a parenthesized address or a bare address becomes the
   * address when it parses; an RTT part adds a successful probe when its
   * number parses, and also consumes a separate `ms`; any other part is taken
   * as the hostname if none was taken yet and it is not made of digits and
   * dots.
   */
  function Step(parts: seq<string>, st: HopScan): (r: HopScan)
    requires st.i < |parts|
    ensures st.i < r.i <= st.i + 2 && r.i <= |parts|
    ensures |st.probes| <= |r.probes| <= |st.probes| + 1
    ensures r.probes[..|st.probes|] == st.probes
    ensures st.hostname.Some? ==> r.hostname == st.hostname
  {
    var part := parts[st.i];
    if part == "*" then
      st.(i := st.i + 1, probes := st.probes + [ProbeTimeout()])
    else if Parenthesized(part) then
      var ip := ParseIp(Inner(part));
      st.(i := st.i + 1, address := if ip.Some? then ip else st.address)
    else if ParseIp(part).Some? then
      st.(i := st.i + 1, address := ParseIp(part))
    else if IsRttPart(parts, st.i) then
      var probes := match ParseDecimal(TimeText(part))
        case Some(ms) =>
          st.probes + [ProbeSuccess(MsToDuration(ms), st.address.GetOr(Unspecified()), TimeExceeded)]
        case None => st.probes;
      var skip := !EndsWith(part, "ms") && st.i + 1 < |parts| && parts[st.i + 1] == "ms";
      st.(i := if skip then st.i + 2 else st.i + 1, probes := probes)
    else
      st.(i := st.i + 1,
          hostname := if st.hostname.None? && !DigitsAndDots(part) then Some(part) else st.hostname)
  }

  /** The token walk from `st.i` to the end of the parts. */
  function Walk(parts: seq<string>, st: HopScan): (r: HopScan)
    requires st.i <= |parts|
    ensures r.i == |parts|
    decreases |parts| - st.i
  {
    if st.i == |parts| then st else Walk(parts, Step(parts, st))
  }

  /** The walk adds at most one probe per part and never drops or reorders a probe it has. */
  lemma {:induction false} WalkKeepsProbes(parts: seq<string>, st: HopScan)
    requires st.i <= |parts|
    ensures |st.probes| <= |Walk(parts, st).probes| <= |st.probes| + (|parts| - st.i)
    ensures Walk(parts, st).probes[..|st.probes|] == st.probes
    decreases |parts| - st.i
  {
    if st.i < |parts| {
      var next := Step(parts, st);
      WalkKeepsProbes(parts, next);
      var r := Walk(parts, st);
      assert r.probes[..|st.probes|] == r.probes[..|next.probes|][..|st.probes|];
    }
  }

  /** Once a hostname is taken, the walk keeps it: the hostname is the first one seen. */
  lemma {:induction false} WalkKeepsHostname(parts: seq<string>, st: HopScan)
    requires st.i <= |parts| && st.hostname.Some?
    ensures Walk(parts, st).hostname == st.hostname
    decreases |parts| - st.i
  {
    if st.i < |parts| {
      WalkKeepsHostname(parts, Step(parts, st));
    }
  }

  /** The hop a non-timeout line describes, before its statistics. */
  function ScannedHop(hopNum: nat, scan: HopScan): TracerouteHop {
    TracerouteHop(hopNum, scan.probes, scan.address, scan.hostname, None, None, None, None, false)
  }

  /**
   * `parse_hop_line`: nothing for a line whose first part is not a `u8`; a
   * timeout hop of `probesPerHop` probes when every other part is `*`;
   * otherwise the walked hop with its statistics.
   */
  function HopLine(line: string, probesPerHop: nat): Option<TracerouteHop> {
    var parts := Tokens(line);
    if parts == [] then None
    else match ParseUnsigned(parts[0], U8Max)
      case None => None
      case Some(hopNum) =>
        if AllStars(parts) then Some(HopTimeout(hopNum, probesPerHop))
        else Some(CalculateStats(ScannedHop(hopNum, Walk(parts, HopScan(1, None, None, [])))))
  }

  /**
   * A line yields a hop exactly when its first part is a `u8`; the hop
   * carries that number; an all-`*` line gives an all-timeout hop of
   * `probesPerHop` probes; and every hop is all-timeout exactly when none of
   * its probes has an RTT.
   */
  lemma HopLineProps(line: string, probesPerHop: nat)
    ensures var parts := Tokens(line);
      HopLine(line, probesPerHop).Some? <==> parts != [] && ParseUnsigned(parts[0], U8Max).Some?
    ensures var parts := Tokens(line);
      HopLine(line, probesPerHop).Some? ==> HopLine(line, probesPerHop).value.hop == ParseUnsigned(parts[0], U8Max).value
    ensures var parts := Tokens(line);
      HopLine(line, probesPerHop).Some? && AllStars(parts) ==>
        HopLine(line, probesPerHop).value.allTimeout && |HopLine(line, probesPerHop).value.probes| == probesPerHop
    ensures HopLine(line, probesPerHop).Some? ==>
      var h := HopLine(line, probesPerHop).value;
      h.hop <= U8Max &&
      (h.allTimeout <==> forall k :: 0 <= k < |h.probes| ==> h.probes[k].rtt.None?)
  {
  }

  /** A part the walk takes as an address: a parsable parenthesized or bare address. */
  predicate GivesAddress(part: string) {
    part != "*" &&
    if Parenthesized(part) then ParseIp(Inner(part)).Some? else ParseIp(part).Some?
  }

  /** With no address part from `st.i` on, the walk keeps the address it has. */
  lemma {:induction false} WalkKeepsAddress(parts: seq<string>, st: HopScan)
    requires st.i <= |parts|
    requires forall k :: st.i <= k < |parts| ==> !GivesAddress(parts[k])
    ensures Walk(parts, st).address == st.address
    decreases |parts| - st.i
  {
    if st.i < |parts| {
      WalkKeepsAddress(parts, Step(parts, st));
    }
  }

  /** A part the walk takes as the hostname when it has none: nothing else it could be. */
  predicate HostnamePart(parts: seq<string>, i: nat)
    requires i < |parts|
  {
    parts[i] != "*" && !Parenthesized(parts[i]) && ParseIp(parts[i]).None? &&
    !IsRttPart(parts, i) && !DigitsAndDots(parts[i])
  }

  /**
   * The shape of `1  router.local (192.168.1.1)  1.234 ms ...`: a hostname
   * part then a parenthesized address, with no other address after it, give
   * the hop that hostname and that address.
   */
  lemma WalkHostThenAddress(parts: seq<string>, ip: IpAddr)
    requires |parts| >= 3 && HostnamePart(parts, 1)
    requires Parenthesized(parts[2]) && ParseIp(Inner(parts[2])) == Some(ip)
    requires forall k :: 3 <= k < |parts| ==> !GivesAddress(parts[k])
    ensures Walk(parts, HopScan(1, None, None, [])).hostname == Some(parts[1])
    ensures Walk(parts, HopScan(1, None, None, [])).address == Some(ip)
  {
    var s1 := Step(parts, HopScan(1, None, None, []));
    assert s1 == HopScan(2, None, Some(parts[1]), []);
    var s2 := Step(parts, s1);
    assert s2 == HopScan(3, Some(ip), Some(parts[1]), []);
    WalkKeepsHostname(parts, s2);
    WalkKeepsAddress(parts, s2);
  }

  /**
   * The body of the walk loop of `parse_hop_line` at part `st.i`, following
   * the source's checks one after another.
   */
  method ScanPart(parts: seq<string>, st: HopScan) returns (r: HopScan)
    requires st.i < |parts|
    ensures r == Step(parts, st)
  {
    var part := parts[st.i];
    if part == "*" {
      return st.(i := st.i + 1, probes := st.probes + [ProbeTimeout()]);
    }
    if StartsWith(part, "(") && EndsWith(part, ")") {
      var ip := ParseIp(part[1..|part| - 1]);
      r := st.(i := st.i + 1);
      if ip.Some? {
        r := r.(address := ip);
      }
      return r;
    }
    var bare := ParseIp(part);
    if bare.Some? {
      return st.(i := st.i + 1, address := bare);
    }
    if EndsWith(part, "ms") || (st.i + 1 < |parts| && parts[st.i + 1] == "ms") {
      var timeText := if EndsWith(part, "ms") then TrimEndMatches(part, "ms") else part;
      r := st;
      var time := ParseDecimal(timeText);
      if time.Some? {
        var rtt := MsToDuration(time.value);
        r := r.(probes := r.probes + [ProbeSuccess(rtt, st.address.GetOr(Unspecified()), TimeExceeded)]);
      }
      var i := st.i;
      if !EndsWith(part, "ms") && i + 1 < |parts| && parts[i + 1] == "ms" {
        i := i + 1;
      }
      return r.(i := i + 1);
    }
    r := st.(i := st.i + 1);
    if st.hostname.None? && !DigitsAndDots(part) {
      r := r.(hostname := Some(part));
    }
  }

  /** `parse_hop_line`, walking the parts with an index. */
  method ParseHopLine(line: string, probesPerHop: nat) returns (hop: Option<TracerouteHop>)
    ensures hop == HopLine(line, probesPerHop)
  {
    var parts := Tokens(line);
    if |parts| == 0 {
      return None;
    }
    var hopNum := ParseUnsigned(parts[0], U8Max);
    if hopNum.None? {
      return None;
    }
    if forall k :: 1 <= k < |parts| ==> parts[k] == "*" {
      return Some(HopTimeout(hopNum.value, probesPerHop));
    }
    var st := HopScan(1, None, None, []);
    while st.i < |parts|
      invariant st.i <= |parts|
      invariant Walk(parts, st) == Walk(parts, HopScan(1, None, None, []))
      decreases |parts| - st.i
    {
      st := ScanPart(parts, st);
    }
    var h := ScannedHop(hopNum.value, st);
    return Some(CalculateStats(h));
  }

  // ---------------------------------------------------------------------------
  // The whole output
  // ---------------------------------------------------------------------------

  /** The hops of lines `1 .. n` (the first line is the header): trimmed, blank ones skipped. */
  function HopsUpTo(lines: seq<string>, probesPerHop: nat, n: nat): seq<TracerouteHop>
    requires n <= |lines|
  {
    if n <= 1 then []
    else
      var line := Trim(lines[n - 1]);
      var prev := HopsUpTo(lines, probesPerHop, n - 1);
      if line == [] then prev
      else match HopLine(line, probesPerHop)
        case Some(h) => prev + [h]
        case None => prev
  }

  /** Every parsed hop comes from its own line after the header, and keeps the all-timeout invariant. */
  lemma {:induction false} HopsUpToProps(lines: seq<string>, probesPerHop: nat, n: nat)
    requires n <= |lines|
    ensures |HopsUpTo(lines, probesPerHop, n)| <= if n == 0 then 0 else n - 1
    ensures forall k :: 0 <= k < |HopsUpTo(lines, probesPerHop, n)| ==>
      (HopsUpTo(lines, probesPerHop, n)[k].hop <= U8Max &&
       (HopsUpTo(lines, probesPerHop, n)[k].allTimeout <==>
        forall j :: 0 <= j < |HopsUpTo(lines, probesPerHop, n)[k].probes| ==>
          HopsUpTo(lines, probesPerHop, n)[k].probes[j].rtt.None?))
  {
    if n > 1 {
      HopsUpToProps(lines, probesPerHop, n - 1);
      var line := Trim(lines[n - 1]);
      if line != [] {
        HopLineProps(line, probesPerHop);
      }
    }
  }

  /** `parse_traceroute_output`: skips the header line, then parses every non-blank trimmed line. */
  method ParseTracerouteOutput(output: string, config: TracerouteConfig) returns (hops: seq<TracerouteHop>)
    ensures hops == HopsUpTo(Lines(output), config.probesPerHop, |Lines(output)|)
  {
    var lines := Lines(output);
    if |lines| == 0 {
      return [];
    }
    hops := [];
    var k := 1;
    while k < |lines|
      invariant 1 <= k <= |lines|
      invariant hops == HopsUpTo(lines, config.probesPerHop, k)
    {
      hops := AddHopLine(lines, k, config.probesPerHop, hops);
      k := k + 1;
    }
  }

  /** One turn of the line loop: a non-blank trimmed line's hop, if any. */
  method AddHopLine(lines: seq<string>, k: nat, probesPerHop: nat, hops: seq<TracerouteHop>)
    returns (next: seq<TracerouteHop>)
    requires 1 <= k < |lines| && hops == HopsUpTo(lines, probesPerHop, k)
    ensures next == HopsUpTo(lines, probesPerHop, k + 1)
  {
    var line := Trim(lines[k]);
    next := hops;
    if line != [] {
      var hop := ParseHopLine(line, probesPerHop);
      if hop.Some? {
        next := hops + [hop.value];
      }
    }
  }

  /** `reached`: the last hop answered from the target; false with no hops. */
  function Reached(hops: seq<TracerouteHop>, target: IpAddr): (r: bool)
    ensures r <==> |hops| > 0 && hops[|hops| - 1].address == Some(target)
  {
    if |hops| == 0 then false else hops[|hops| - 1].address == Some(target)
  }

  /**
   * The result `trace` assembles from the command's output: the parsed hops,
   * reached when the last one is the target; the elapsed time is passed in.
   */
  method Trace(target: IpAddr, output: string, config: TracerouteConfig, elapsed: Duration)
    returns (r: TracerouteResult)
    ensures r.hops == HopsUpTo(Lines(output), config.probesPerHop, |Lines(output)|)
    ensures r.reached <==> |r.hops| > 0 && r.hops[|r.hops| - 1].address == Some(target)
    ensures r.target == target && r.targetHostname.None? && r.duration == elapsed && r.protocol == config.protocol
  {
    var hops := ParseTracerouteOutput(output, config);
    var reached := if |hops| > 0 then hops[|hops| - 1].address == Some(target) else false;
    r := TracerouteResult(target, None, hops, reached, elapsed, config.protocol);
  }
}
