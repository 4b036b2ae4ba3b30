/**
 * The system-ping output parser (crates/netdiag-connectivity, ping.rs):
 * reply and timeout lines become probe results numbered in order, and
 * when no such line is present the summary counters are expanded into
 * synthetic results.
 */
module PingParser {
  import opened Wrappers
  import opened Durations
  import opened Text
  import opened IpAddrs
  import opened PingStats

  /** `PingConfig`; `count` is a `u32`. */
  datatype PingConfig = PingConfig(count: nat, timeout: Duration, interval: Duration, size: nat)

  /** `PingConfig::default`: 4 probes of 64 bytes, 2 s timeout, 1 s apart. */
  function DefaultPingConfig(): PingConfig {
    PingConfig(4, 2 * NanosPerSec, NanosPerSec, 64)
  }

  /** `u16` casts of the summary's loop counter keep the low 16 bits. */
  function AsU16(i: nat): (r: nat)
    ensures r < 0x1_0000 && (i < 0x1_0000 ==> r == i)
  {
    i % 0x1_0000
  }

  // ---------------------------------------------------------------------------
  // One reply line
  // ---------------------------------------------------------------------------

  /** The TTL of a reply line: the first word after `ttl=` as a `u8`, else 64. */
  function LineTtl(line: string): (ttl: nat)
    ensures ttl <= U8Max
    ensures !Contains(line, "ttl=") ==> ttl == 64
  {
    var word := match SplitSecond(line, "ttl=")
      case None => None
      case Some(s) => FirstToken(s);
    var parsed := match word
      case None => None
      case Some(w) => ParseUnsigned(w, U8Max);
    parsed.GetOr(64)
  }

  /**
   * The time of a reply line in milliseconds: the first word after `time=`,
   * without a trailing `ms`, trimmed, as a decimal number.
   */
  function LineTimeMs(line: string): (ms: Option<real>)
    ensures !Contains(line, "time=") ==> ms.None?
    ensures ms.Some? ==> ms.value >= 0.0
  {
    match SplitSecond(line, "time=")
    case None => None
    case Some(s) =>
      match FirstToken(s)
      case None => None
      case Some(w) => ParseDecimal(Trim(TrimEndMatches(w, "ms")))
  }

  /**
   * `parse_ping_line`: always a result; a success carrying the line's TTL
   * (64 when absent or unreadable) when the time is readable, and a timeout
   * otherwise.
   */
  function ParsePingLine(line: string, seqNo: nat, target: IpAddr, size: nat): (r: Option<PingResult>)
    ensures r.Some? && r.value.seqNo == seqNo && r.value.target == target && r.value.size == size
    ensures r.value.success <==> LineTimeMs(line).Some?
    ensures r.value.success ==>
      r.value.ttl == Some(LineTtl(line)) && r.value.rtt == Some(MsToDuration(LineTimeMs(line).value))
    ensures !r.value.success ==> r.value == Timeout(seqNo, target, size)
  {
    match LineTimeMs(line)
    case Some(ms) => Some(Success(seqNo, target, MsToDuration(ms), LineTtl(line), size))
    case None => Some(Timeout(seqNo, target, size))
  }

  /** A reply line, such as `64 bytes from 1.1.1.1: icmp_seq=1 ttl=57 time=1.5 ms`. */
  predicate IsReplyLine(line: string) {
    Contains(line, "bytes from") && Contains(line, "time=")
  }

  /** A line that reports a lost probe. */
  predicate IsTimeoutLine(line: string) {
    Contains(line, "Request timeout") || Contains(line, "timed out")
  }

  // ---------------------------------------------------------------------------
  // The whole output
  // ---------------------------------------------------------------------------

  /**
   * The result one trimmed line contributes: the parsed reply for a reply
   * line, a timeout for a timeout line, nothing for any other line.
   */
  function LineResult(line: string, seqNo: nat, target: IpAddr, size: nat): (r: Option<PingResult>)
    ensures r.Some? <==> IsReplyLine(line) || IsTimeoutLine(line)
    ensures r.Some? ==> r.value.seqNo == seqNo && r.value.target == target && r.value.size == size
    ensures IsReplyLine(line) ==> r == ParsePingLine(line, seqNo, target, size)
    ensures !IsReplyLine(line) && IsTimeoutLine(line) ==> r == Some(Timeout(seqNo, target, size))
  {
    if IsReplyLine(line) then ParsePingLine(line, seqNo, target, size)
    else if IsTimeoutLine(line) then Some(Timeout(seqNo, target, size))
    else None
  }

  /**
   * The results of the first `n` lines under a line parser, each line
   * numbered by the count of results before it.
   */
  function Numbered(lines: seq<string>, parse: (string, nat) -> Option<PingResult>, n: nat): seq<PingResult>
    requires n <= |lines|
  {
    if n == 0 then []
    else
      var prev := Numbered(lines, parse, n - 1);
      match parse(lines[n - 1], |prev|)
      case Some(r) => prev + [r]
      case None => prev
  }

  /** At most one result per line. */
  lemma {:induction false} NumberedAtMostOnePerLine(lines: seq<string>, parse: (string, nat) -> Option<PingResult>, n: nat)
    requires n <= |lines|
    ensures |Numbered(lines, parse, n)| <= n
  {
    if n > 0 {
      NumberedAtMostOnePerLine(lines, parse, n - 1);
    }
  }

  /** A parser that keeps the number it is given yields results numbered 0, 1, 2, ... */
  lemma {:induction false} NumberedInOrder(lines: seq<string>, parse: (string, nat) -> Option<PingResult>,
                                           target: IpAddr, size: nat, n: nat)
    requires n <= |lines|
    requires forall line, seqNo :: parse(line, seqNo).Some? ==>
      (parse(line, seqNo).value.seqNo == seqNo && parse(line, seqNo).value.target == target &&
       parse(line, seqNo).value.size == size)
    ensures forall k :: 0 <= k < |Numbered(lines, parse, n)| ==>
      (Numbered(lines, parse, n)[k].seqNo == k &&
       Numbered(lines, parse, n)[k].target == target &&
       Numbered(lines, parse, n)[k].size == size)
  {
    if n > 0 {
      NumberedInOrder(lines, parse, target, size, n - 1);
      var prev := Numbered(lines, parse, n - 1);
      var cur := Numbered(lines, parse, n);
      assert forall k :: 0 <= k < |prev| ==> cur[k] == prev[k];
    }
  }

  /** The line parser of `parse_ping_output`: a trimmed line's result. */
  function LineParser(target: IpAddr, size: nat): (string, nat) -> Option<PingResult> {
    (line: string, seqNo: nat) => LineResult(Trim(line), seqNo, target, size)
  }

  /** The results of the first `n` lines of `parse_ping_output`. */
  function LineResults(lines: seq<string>, target: IpAddr, size: nat, n: nat): seq<PingResult>
    requires n <= |lines|
  {
    Numbered(lines, LineParser(target, size), n)
  }

  /** The results are at most one per line, numbered 0, 1, 2, ... in line order, all for the target and size. */
  lemma LineResultsNumbered(lines: seq<string>, target: IpAddr, size: nat, n: nat)
    requires n <= |lines|
    ensures |LineResults(lines, target, size, n)| <= n
    ensures forall k :: 0 <= k < |LineResults(lines, target, size, n)| ==>
      (LineResults(lines, target, size, n)[k].seqNo == k &&
       LineResults(lines, target, size, n)[k].target == target &&
       LineResults(lines, target, size, n)[k].size == size)
  {
    NumberedAtMostOnePerLine(lines, LineParser(target, size), n);
    NumberedInOrder(lines, LineParser(target, size), target, size, n);
  }

  /** A line that is neither a reply nor a timeout adds nothing; one that is adds exactly one result. */
  lemma LineResultsStep(lines: seq<string>, target: IpAddr, size: nat, n: nat)
    requires 0 < n <= |lines|
    ensures var line := Trim(lines[n - 1]);
      |LineResults(lines, target, size, n)| ==
        |LineResults(lines, target, size, n - 1)| + (if IsReplyLine(line) || IsTimeoutLine(line) then 1 else 0)
  {
  }

  /** The first line that holds both the transmitted and the received counters, and a comma. */
  predicate IsSummaryLine(line: string) {
    Contains(line, "packets transmitted") && Contains(line, "received") && |SplitChars(line, {','})| >= 2
  }

  /** The index of the first summary line among `lines[from..]`. */
  function FirstSummaryLine(lines: seq<string>, from: nat): (r: Option<nat>)
    requires from <= |lines|
    ensures r.Some? ==> from <= r.value < |lines| && IsSummaryLine(lines[r.value])
    ensures r.Some? ==> forall j :: from <= j < r.value ==> !IsSummaryLine(lines[j])
    ensures r.None? ==> forall j :: from <= j < |lines| ==> !IsSummaryLine(lines[j])
    decreases |lines| - from
  {
    if from == |lines| then None
    else if IsSummaryLine(lines[from]) then Some(from)
    else FirstSummaryLine(lines, from + 1)
  }

  /** The leading number of a comma-separated part, as a `u32`. */
  function LeadingCount(part: string): Option<nat> {
    match FirstToken(part)
    case None => None
    case Some(w) => ParseUnsigned(w, U32Max)
  }

  /**
   * The average RTT of the first `min/avg/max` line: the second `/` field of
   * the text after the first `=`, trimmed, in milliseconds.
   */
  function SummaryAvgRtt(lines: seq<string>): Option<Duration> {
    if |lines| == 0 then None
    else if Contains(lines[0], "min/avg/max") then
      var afterEq := SplitChars(lines[0], {'='});
      if |afterEq| < 2 then None
      else
        var fields := SplitChars(afterEq[1], {'/'});
        if |fields| < 2 then None
        else match ParseDecimal(Trim(fields[1]))
          case None => None
          case Some(ms) => Some(MsToDuration(ms))
    else SummaryAvgRtt(lines[1..])
  }

  /**
   * Synthetic result `i` of a summary: a success at the average RTT (50 ms
   * when missing) with TTL and size 64 for the first `received`, a timeout
   * of size 64 after that.
   */
  function SyntheticResult(i: nat, received: nat, rtt: Duration, target: IpAddr): PingResult {
    if i < received then Success(AsU16(i), target, rtt, 64, 64) else Timeout(AsU16(i), target, 64)
  }

  /** The counters `parse_summary` reads from a summary line: transmitted (else `count`) and received (else 0). */
  function SummaryCounts(line: string, count: nat): (nat, nat) {
    var parts := SplitChars(line, {','});
    (LeadingCount(parts[0]).GetOr(count), if |parts| >= 2 then LeadingCount(parts[1]).GetOr(0) else 0)
  }

  /** The `transmitted` synthetic results of a summary. */
  function SyntheticResults(transmitted: nat, received: nat, rtt: Duration, target: IpAddr): (r: seq<PingResult>)
    ensures |r| == transmitted
    ensures forall i :: 0 <= i < transmitted ==> r[i] == SyntheticResult(i, received, rtt, target)
  {
    seq(transmitted, (i: int) requires 0 <= i => SyntheticResult(i, received, rtt, target))
  }

  /** What `parse_summary` finds in the lines: nothing without a summary line, else its synthetic results. */
  function SummaryOf(lines: seq<string>, target: IpAddr, count: nat): Option<seq<PingResult>> {
    match FirstSummaryLine(lines, 0)
    case None => None
    case Some(k) =>
      var (transmitted, received) := SummaryCounts(lines[k], count);
      Some(SyntheticResults(transmitted, received, SummaryAvgRtt(lines).GetOr(FromMillis(50)), target))
  }

  /**
   * A summary yields exactly `transmitted` results, numbered from 0 (as
   * `u16`), of which the first `min(received, transmitted)` are successes at
   * the average RTT (50 ms when missing) and the rest timeouts.
   */
  lemma SummaryShape(lines: seq<string>, target: IpAddr, count: nat)
    requires FirstSummaryLine(lines, 0).Some?
    ensures var (transmitted, received) := SummaryCounts(lines[FirstSummaryLine(lines, 0).value], count);
      var r := SummaryOf(lines, target, count).value;
      |r| == transmitted &&
      (forall i :: 0 <= i < transmitted ==> r[i].seqNo == AsU16(i) && r[i].size == 64 && r[i].target == target) &&
      (forall i :: 0 <= i < transmitted ==> (r[i].success <==> i < received)) &&
      (forall i :: 0 <= i < transmitted && i < received ==>
        r[i].rtt == Some(SummaryAvgRtt(lines).GetOr(FromMillis(50))) && r[i].ttl == Some(64))
  {
  }

  /**
   * `parse_summary`: scans the lines for the first summary line and expands
   * its counters into synthetic results.
   */
  method ParseSummary(output: string, target: IpAddr, count: nat) returns (r: Option<seq<PingResult>>)
    ensures r == SummaryOf(Lines(output), target, count)
  {
    var lines := Lines(output);
    var k := 0;
    while k < |lines|
      invariant 0 <= k <= |lines|
      invariant FirstSummaryLine(lines, 0) == FirstSummaryLine(lines, k)
    {
      var line := lines[k];
      if Contains(line, "packets transmitted") && Contains(line, "received") {
        var parts := SplitChars(line, {','});
        if |parts| >= 2 {
          var transmitted := LeadingCount(parts[0]).GetOr(count);
          var received := LeadingCount(parts[1]).GetOr(0);
          var rtt := SummaryAvgRtt(lines).GetOr(FromMillis(50));
          var results := Synthesize(transmitted, received, rtt, target);
          return Some(results);
        }
      }
      k := k + 1;
    }
    return None;
  }

  /** The expansion loop of `parse_summary`: `transmitted` results, the first `received` of them successes. */
  method Synthesize(transmitted: nat, received: nat, rtt: Duration, target: IpAddr) returns (results: seq<PingResult>)
    ensures results == SyntheticResults(transmitted, received, rtt, target)
  {
    results := [];
    var i := 0;
    while i < transmitted
      invariant 0 <= i <= transmitted && |results| == i
      invariant forall j :: 0 <= j < i ==> results[j] == SyntheticResult(j, received, rtt, target)
    {
      if i < received {
        results := results + [Success(AsU16(i), target, rtt, 64, 64)];
      } else {
        results := results + [Timeout(AsU16(i), target, 64)];
      }
      i := i + 1;
    }
  }

  /** The body of the line loop of `parse_ping_output`, for one trimmed line. */
  method ParseLine(line: string, seqNo: nat, target: IpAddr, size: nat) returns (r: Option<PingResult>)
    ensures r == LineResult(line, seqNo, target, size)
  {
    r := None;
    if Contains(line, "bytes from") && Contains(line, "time=") {
      r := ParsePingLine(line, seqNo, target, size);
    } else if Contains(line, "Request timeout") || Contains(line, "timed out") {
      r := Some(Timeout(seqNo, target, size));
    }
  }

  /**
   * `parse_ping_output`: walks the trimmed lines, numbering each reply or
   * timeout result; with no results at all it falls back to the summary,
   * and to the empty list when there is none.
   */
  method ParsePingOutput(output: string, target: IpAddr, config: PingConfig) returns (results: seq<PingResult>)
    ensures var fromLines := LineResults(Lines(output), target, config.size, |Lines(output)|);
      results == if fromLines != [] then fromLines else SummaryOf(Lines(output), target, config.count).GetOr([])
  {
    var lines := Lines(output);
    results := ParseLines(lines, target, config.size);
    if results == [] {
      var summary := ParseSummary(output, target, config.count);
      if summary.Some? {
        return summary.value;
      }
    }
  }

  /** The line loop of `parse_ping_output`. */
  method ParseLines(lines: seq<string>, target: IpAddr, size: nat) returns (results: seq<PingResult>)
    ensures results == LineResults(lines, target, size, |lines|)
  {
    results := [];
    var seqNo := 0;
    var k := 0;
    while k < |lines|
      invariant 0 <= k <= |lines|
      invariant results == LineResults(lines, target, size, k) && seqNo == |results|
    {
      results, seqNo := AddLine(lines, k, seqNo, target, size, results);
      k := k + 1;
    }
  }

  /** One turn of the line loop: the trimmed line's result, if any, numbered `seqNo`. */
  method AddLine(lines: seq<string>, k: nat, seqNo: nat, target: IpAddr, size: nat, results: seq<PingResult>)
    returns (next: seq<PingResult>, nextSeqNo: nat)
    requires k < |lines| && results == LineResults(lines, target, size, k) && seqNo == |results|
    ensures next == LineResults(lines, target, size, k + 1) && nextSeqNo == |next|
  {
    var parsed := ParseLine(Trim(lines[k]), seqNo, target, size);
    if parsed.Some? {
      next, nextSeqNo := results + [parsed.value], seqNo + 1;
    } else {
      next, nextSeqNo := results, seqNo;
    }
  }
}
