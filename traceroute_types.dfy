/**
 * Traceroute result types (crates/netdiag-types, diagnostics/traceroute.rs):
 * hops and probes, the per-hop statistics, and the path queries over a
 * finished traceroute.
 */
module TracerouteTypes {
  import opened Wrappers
  import opened Durations
  import opened IpAddrs

  datatype IcmpResponse = TimeExceeded | EchoReply | DestinationUnreachable | PortUnreachable | AdminProhibited

  datatype TracerouteProtocol = Icmp | Udp | Tcp

  datatype HopLocation = HopLocation(
    country: Option<string>, city: Option<string>, latitude: Option<real>, longitude: Option<real>)

  datatype TracerouteProbe = TracerouteProbe(
    rtt: Option<Duration>, address: Option<IpAddr>, responseType: Option<IcmpResponse>)

  /** One hop; `hop` is the TTL (a `u8`). */
  datatype TracerouteHop = TracerouteHop(
    hop: nat,
    probes: seq<TracerouteProbe>,
    address: Option<IpAddr>,
    hostname: Option<string>,
    asn: Option<nat>,
    asName: Option<string>,
    location: Option<HopLocation>,
    avgRtt: Option<Duration>,
    allTimeout: bool)

  datatype TracerouteResult = TracerouteResult(
    target: IpAddr,
    targetHostname: Option<string>,
    hops: seq<TracerouteHop>,
    reached: bool,
    duration: Duration,
    protocol: TracerouteProtocol)

  /** `TracerouteProbe::success`. */
  function ProbeSuccess(rtt: Duration, address: IpAddr, response: IcmpResponse): TracerouteProbe {
    TracerouteProbe(Some(rtt), Some(address), Some(response))
  }

  /** `TracerouteProbe::timeout`. */
  function ProbeTimeout(): TracerouteProbe {
    TracerouteProbe(None, None, None)
  }

  /** `k` timed-out probes. */
  function TimeoutProbes(k: nat): (ps: seq<TracerouteProbe>)
    ensures |ps| == k && forall i :: 0 <= i < k ==> ps[i] == ProbeTimeout()
  {
    if k == 0 then [] else TimeoutProbes(k - 1) + [ProbeTimeout()]
  }

  /**
   * `TracerouteHop::timeout`: `probe_count` probes, none with an RTT, no
   * address and no average, flagged all-timeout.
   */
  function HopTimeout(hop: nat, probeCount: nat): (h: TracerouteHop)
    ensures h.hop == hop && |h.probes| == probeCount
    ensures forall i :: 0 <= i < |h.probes| ==> h.probes[i].rtt.None?
    ensures h.address.None? && h.hostname.None? && h.avgRtt.None? && h.allTimeout
  {
    TracerouteHop(hop, TimeoutProbes(probeCount), None, None, None, None, None, None, true)
  }

  /** `filter_map(|p| p.rtt)` over the probes. */
  function ProbeRtts(probes: seq<TracerouteProbe>): (r: seq<Duration>)
    ensures |r| <= |probes|
    ensures r == [] <==> forall i :: 0 <= i < |probes| ==> probes[i].rtt.None?
    ensures forall x :: x in r ==> exists i :: 0 <= i < |probes| && probes[i].rtt == Some(x)
  {
    if |probes| == 0 then []
    else
      var rest := ProbeRtts(probes[1..]);
      assert forall x :: x in rest ==> exists i :: 0 <= i < |probes| && probes[i].rtt == Some(x) by {
        forall x | x in rest
          ensures exists i :: 0 <= i < |probes| && probes[i].rtt == Some(x)
        {
          var j :| 0 <= j < |probes[1..]| && probes[1..][j].rtt == Some(x);
          assert probes[j + 1].rtt == Some(x);
        }
      }
      match probes[0].rtt
      case Some(d) => [d] + rest
      case None => rest
  }

  /**
   * `TracerouteHop::calculate_stats`: all-timeout exactly when no probe has
   * an RTT; otherwise the average becomes the truncated mean of the probe
   * RTTs, which lies between the fastest and the slowest. With no RTT the
   * previous average is left as it was. Nothing else changes.
   */
  function CalculateStats(h: TracerouteHop): (r: TracerouteHop)
    ensures r.allTimeout <==> forall i :: 0 <= i < |h.probes| ==> h.probes[i].rtt.None?
    ensures r.allTimeout ==> r.avgRtt == h.avgRtt
    ensures !r.allTimeout ==>
      var rtts := ProbeRtts(h.probes);
      r.avgRtt == Some(Sum(rtts) / |rtts|) && MinOf(rtts) <= r.avgRtt.value <= MaxOf(rtts)
    ensures r == h.(allTimeout := r.allTimeout, avgRtt := r.avgRtt)
  {
    var rtts := ProbeRtts(h.probes);
    if rtts == [] then h.(allTimeout := true)
    else
      MeanBetween(rtts);
      h.(allTimeout := false, avgRtt := Some(Sum(rtts) / |rtts|))
  }

  /** A timeout hop stays a timeout hop with no average under `calculate_stats`. */
  lemma TimeoutHopIsStable(hop: nat, probeCount: nat)
    ensures CalculateStats(HopTimeout(hop, probeCount)) == HopTimeout(hop, probeCount)
  {
  }

  /** `TracerouteResult::hop_count`: the number of hops, counted only when the target was reached. */
  function HopCount(t: TracerouteResult): (n: nat)
    ensures n <= |t.hops|
    ensures n > 0 <==> t.reached && |t.hops| > 0
    ensures t.reached ==> n == |t.hops|
  {
    if t.reached then |t.hops| else 0
  }

  /** A hop whose average RTT, in whole milliseconds, is above the threshold. */
  predicate IsHighLatency(h: TracerouteHop, thresholdMs: nat) {
    h.avgRtt.Some? && AsMillis(h.avgRtt.value) > thresholdMs
  }

  /** `TracerouteResult::high_latency_hops`: the hops above the threshold, in path order. */
  function HighLatencyHops(hops: seq<TracerouteHop>, thresholdMs: nat): (r: seq<TracerouteHop>)
    ensures |r| <= |hops|
    ensures forall h :: h in r <==> h in hops && IsHighLatency(h, thresholdMs)
  {
    if |hops| == 0 then []
    else
      var rest := HighLatencyHops(hops[1..], thresholdMs);
      assert forall h :: h in hops <==> h == hops[0] || h in hops[1..];
      if IsHighLatency(hops[0], thresholdMs) then [hops[0]] + rest else rest
  }

  /**
   * Like the source's `filter(..).collect()`, it keeps each hop above the
   * threshold once, in path order: it distributes over concatenation.
   */
  lemma {:induction false} HighLatencySplits(a: seq<TracerouteHop>, b: seq<TracerouteHop>, x: TracerouteHop, thresholdMs: nat)
    ensures HighLatencyHops([x], thresholdMs) == if IsHighLatency(x, thresholdMs) then [x] else []
    ensures HighLatencyHops(a + b, thresholdMs) == HighLatencyHops(a, thresholdMs) + HighLatencyHops(b, thresholdMs)
  {
    assert [x][1..] == [];
    if a == [] {
      assert a + b == b;
    } else {
      assert (a + b)[0] == a[0];
      assert (a + b)[1..] == a[1..] + b;
      HighLatencySplits(a[1..], b, x, thresholdMs);
    }
  }

  /**
   * A latency jump at hop index `i`: both it and the hop before it have an
   * average, the average rises, and the rise in whole milliseconds is above
   * the threshold.
   */
  predicate IsJump(hops: seq<TracerouteHop>, i: nat, thresholdMs: nat)
    requires i < |hops|
  {
    i > 0 && hops[i - 1].avgRtt.Some? && hops[i].avgRtt.Some? &&
    hops[i].avgRtt.value > hops[i - 1].avgRtt.value &&
    AsMillis(hops[i].avgRtt.value - hops[i - 1].avgRtt.value) > thresholdMs
  }

  /** One latency jump: the index of the hop, and the rise in its average RTT. */
  datatype Jump = Jump(index: nat, diff: Duration)

  /** The jumps among the first `n` hops, in path order. */
  function JumpsUpTo(hops: seq<TracerouteHop>, thresholdMs: nat, n: nat): seq<Jump>
    requires n <= |hops|
  {
    if n == 0 then []
    else
      var i := n - 1;
      JumpsUpTo(hops, thresholdMs, i) +
        if IsJump(hops, i, thresholdMs)
        then [Jump(i, hops[i].avgRtt.value - hops[i - 1].avgRtt.value)]
        else []
  }

  /**
   * Every recorded jump is a rise of more than the threshold over the previous
   * hop, every such rise is recorded, and the jumps follow the path order.
   */
  lemma {:induction false} JumpsExact(hops: seq<TracerouteHop>, thresholdMs: nat, n: nat)
    requires n <= |hops|
    ensures var r := JumpsUpTo(hops, thresholdMs, n);
      (forall k :: 0 <= k < |r| ==>
        r[k].index < n && IsJump(hops, r[k].index, thresholdMs) &&
        r[k].diff == hops[r[k].index].avgRtt.value - hops[r[k].index - 1].avgRtt.value &&
        r[k].diff > 0 && AsMillis(r[k].diff) > thresholdMs) &&
      (forall i :: 0 <= i < n && IsJump(hops, i, thresholdMs) ==>
        exists k :: 0 <= k < |r| && r[k].index == i) &&
      (forall k, l :: 0 <= k < l < |r| ==> r[k].index < r[l].index)
  {
    if n > 0 {
      JumpsExact(hops, thresholdMs, n - 1);
      var rest := JumpsUpTo(hops, thresholdMs, n - 1);
      var r := JumpsUpTo(hops, thresholdMs, n);
      assert forall k :: 0 <= k < |rest| ==> r[k] == rest[k];
      assert |r| == |rest| || (|r| == |rest| + 1 && IsJump(hops, n - 1, thresholdMs) && r[|rest|].index == n - 1);
      forall i | 0 <= i < n && IsJump(hops, i, thresholdMs)
        ensures exists k :: 0 <= k < |r| && r[k].index == i
      {
        if i < n - 1 {
          var k :| 0 <= k < |rest| && rest[k].index == i;
          assert r[k].index == i;
        } else {
          assert r[|rest|].index == i;
        }
      }
      forall k, l | 0 <= k < l < |r|
        ensures r[k].index < r[l].index
      {
        if l >= |rest| {
          assert r[k] == rest[k] && rest[k].index < n - 1;
        }
      }
    }
  }

  /**
   * `TracerouteResult::latency_jumps`: walks the hops remembering the
   * previous hop's average, and records every hop whose average rose by more
   * than the threshold over the previous hop's.
   */
  method LatencyJumps(hops: seq<TracerouteHop>, thresholdMs: nat) returns (jumps: seq<Jump>)
    ensures jumps == JumpsUpTo(hops, thresholdMs, |hops|)
  {
    jumps := [];
    var prevRtt: Option<Duration> := None;
    var i := 0;
    while i < |hops|
      invariant 0 <= i <= |hops|
      invariant jumps == JumpsUpTo(hops, thresholdMs, i)
      invariant prevRtt == if i == 0 then None else hops[i - 1].avgRtt
    {
      var hop := hops[i];
      assert JumpsUpTo(hops, thresholdMs, i + 1) == JumpsUpTo(hops, thresholdMs, i) +
        (if IsJump(hops, i, thresholdMs) then [Jump(i, hop.avgRtt.value - hops[i - 1].avgRtt.value)] else []);
      if prevRtt.Some? && hop.avgRtt.Some? {
        var prev, curr := prevRtt.value, hop.avgRtt.value;
        if curr > prev {
          var diff := curr - prev;
          if AsMillis(diff) > thresholdMs {
            jumps := jumps + [Jump(i, diff)];
          }
        }
      }
      prevRtt := hop.avgRtt;
      i := i + 1;
    }
  }
}
