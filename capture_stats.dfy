/**
 * Capture statistics (crates/netdiag-capture, stats.rs): counters updated
 * per captured packet, a per-protocol breakdown keyed by protocol name,
 * and on finalisation the rates and the ten busiest addresses and ports.
 * Timestamps are milliseconds supplied by the caller; the counters are
 * unbounded.
 */
module CaptureStatistics {
  import opened Wrappers
  import opened Decode

  /** `ProtocolStats`. */
  datatype ProtocolStats = ProtocolStats(packets: nat, bytes: nat, ipCounts: map<string, nat>, portCounts: map<nat, nat>)

  function Count<K>(m: map<K, nat>, k: K): nat {
    if k in m then m[k] else 0
  }

  /** `*entry(k).or_insert(0) += 1`. */
  function Bump<K(!new)>(m: map<K, nat>, k: K): (r: map<K, nat>)
    ensures r.Keys == m.Keys + {k}
    ensures Count(r, k) == Count(m, k) + 1
    ensures forall k' :: k' != k ==> Count(r, k') == Count(m, k')
  {
    m[k := Count(m, k) + 1]
  }

  /** `ProtocolStats::new`. */
  function NewProtocolStats(): ProtocolStats {
    ProtocolStats(0, 0, map[], map[])
  }

  /** `update_ip`. */
  function UpdateIp(s: ProtocolStats, ip: string): ProtocolStats {
    s.(ipCounts := Bump(s.ipCounts, ip))
  }

  /** `update_port`. */
  function UpdatePort(s: ProtocolStats, port: nat): ProtocolStats {
    s.(portCounts := Bump(s.portCounts, port))
  }

  /** 1 when the optional value is `x`. */
  function Seen<T(==)>(o: Option<T>, x: T): nat {
    if o == Some(x) then 1 else 0
  }

  /** `if let Some(ip) = ip { update_ip(ip) }`. */
  function OptIp(s: ProtocolStats, ip: Option<string>): (r: ProtocolStats)
    ensures r.packets == s.packets && r.bytes == s.bytes && r.portCounts == s.portCounts
    ensures forall x :: Count(r.ipCounts, x) == Count(s.ipCounts, x) + Seen(ip, x)
  {
    if ip.Some? then UpdateIp(s, ip.value) else s
  }

  /** `if let Some(port) = port { update_port(port) }`. */
  function OptPort(s: ProtocolStats, port: Option<nat>): (r: ProtocolStats)
    ensures r.packets == s.packets && r.bytes == s.bytes && r.ipCounts == s.ipCounts
    ensures forall x :: Count(r.portCounts, x) == Count(s.portCounts, x) + Seen(port, x)
  {
    if port.Some? then UpdatePort(s, port.value) else s
  }

  /** What `update` does to the protocol's entry: one more packet and its bytes, then each address and port seen. */
  function Tracked(s: ProtocolStats, length: nat, srcIp: Option<string>, dstIp: Option<string>,
                   srcPort: Option<nat>, dstPort: Option<nat>): (r: ProtocolStats)
    ensures r.packets == s.packets + 1 && r.bytes == s.bytes + length
    ensures forall ip :: Count(r.ipCounts, ip) == Count(s.ipCounts, ip) + Seen(srcIp, ip) + Seen(dstIp, ip)
    ensures forall p :: Count(r.portCounts, p) == Count(s.portCounts, p) + Seen(srcPort, p) + Seen(dstPort, p)
  {
    var t := s.(packets := s.packets + 1, bytes := s.bytes + length);
    var a := OptIp(t, srcIp);
    var b := OptIp(a, dstIp);
    var c := OptPort(b, srcPort);
    OptPort(c, dstPort)
  }

  /** `ProtocolStats::percentage`: this protocol's share of `total` packets, 0 when `total` is 0. */
  function Percentage(s: ProtocolStats, total: nat): (r: real)
    ensures r >= 0.0
    ensures total == 0 ==> r == 0.0
    ensures 0 < total && s.packets <= total ==> r <= 100.0
  {
    if total == 0 then 0.0 else (s.packets as real / total as real) * 100.0
  }

  /** `drop_rate`: dropped packets as a share of all packets seen, 0 while nothing was captured. */
  function DropRate(captured: nat, dropped: nat): (r: real)
    ensures 0.0 <= r < 100.0
    ensures r == 0.0 <==> captured == 0 || dropped == 0
  {
    if captured == 0 then 0.0 else (dropped as real / (captured + dropped) as real) * 100.0
  }

  // ---------------------------------------------------------------------------
  // Sums over the protocol table
  // ---------------------------------------------------------------------------

  function Entry(protocols: map<string, ProtocolStats>, name: string): ProtocolStats {
    if name in protocols then protocols[name] else NewProtocolStats()
  }

  /** The packets recorded under the names of `ps`. */
  function SumPackets(ps: seq<Protocol>, protocols: map<string, ProtocolStats>): nat {
    if ps == [] then 0 else SumPackets(ps[..|ps| - 1], protocols) + Entry(protocols, Name(ps[|ps| - 1])).packets
  }

  /** The bytes recorded under the names of `ps`. */
  function SumBytes(ps: seq<Protocol>, protocols: map<string, ProtocolStats>): nat {
    if ps == [] then 0 else SumBytes(ps[..|ps| - 1], protocols) + Entry(protocols, Name(ps[|ps| - 1])).bytes
  }

  predicate NamedIn(ps: seq<Protocol>, name: string) {
    exists i :: 0 <= i < |ps| && Name(ps[i]) == name
  }

  predicate Distinct(ps: seq<Protocol>) {
    forall i, j :: 0 <= i < j < |ps| ==> ps[i] != ps[j]
  }

  /** Changing an entry no protocol of `ps` is named by leaves the sums alone. */
  lemma {:induction false} SumsUnaffected(ps: seq<Protocol>, protocols: map<string, ProtocolStats>, name: string,
                                          v: ProtocolStats)
    requires !NamedIn(ps, name)
    ensures SumPackets(ps, protocols[name := v]) == SumPackets(ps, protocols)
    ensures SumBytes(ps, protocols[name := v]) == SumBytes(ps, protocols)
  {
    if ps != [] {
      var init := ps[..|ps| - 1];
      assert !NamedIn(init, name) by {
        forall i | 0 <= i < |init| ensures Name(init[i]) != name { assert init[i] == ps[i]; }
      }
      SumsUnaffected(init, protocols, name, v);
      assert Name(ps[|ps| - 1]) != name;
    }
  }

  /** Changing the entry of a protocol listed once moves each sum by the entry's change. */
  lemma {:induction false} SumsUpdate(ps: seq<Protocol>, protocols: map<string, ProtocolStats>, p: Protocol,
                                      v: ProtocolStats)
    requires Distinct(ps) && p in ps
    ensures SumPackets(ps, protocols[Name(p) := v]) + Entry(protocols, Name(p)).packets ==
            SumPackets(ps, protocols) + v.packets
    ensures SumBytes(ps, protocols[Name(p) := v]) + Entry(protocols, Name(p)).bytes ==
            SumBytes(ps, protocols) + v.bytes
  {
    var init, last := ps[..|ps| - 1], ps[|ps| - 1];
    if last == p {
      assert !NamedIn(init, Name(p)) by {
        forall i | 0 <= i < |init| ensures Name(init[i]) != Name(p) {
          assert init[i] == ps[i];
          if Name(init[i]) == Name(p) {
            NameInjective(init[i], p);
          }
        }
      }
      SumsUnaffected(init, protocols, Name(p), v);
    } else {
      assert p in init by {
        var i :| 0 <= i < |ps| && ps[i] == p;
        assert i < |ps| - 1 && init[i] == p;
      }
      assert Distinct(init) by {
        forall i, j | 0 <= i < j < |init| ensures init[i] != init[j] { assert init[i] == ps[i] && init[j] == ps[j]; }
      }
      SumsUpdate(init, protocols, p, v);
      assert Name(last) != Name(p) by {
        if Name(last) == Name(p) {
          NameInjective(last, p);
        }
      }
    }
  }

  /** Replacing one protocol's entry moves the totals by that entry's change and keeps the keys protocol names. */
  lemma TableUpdate(protocols: map<string, ProtocolStats>, p: Protocol, v: ProtocolStats)
    requires KnownNames(protocols)
    ensures KnownNames(protocols[Name(p) := v])
    ensures SumPackets(AllProtocols(), protocols[Name(p) := v]) + Entry(protocols, Name(p)).packets ==
            SumPackets(AllProtocols(), protocols) + v.packets
    ensures SumBytes(AllProtocols(), protocols[Name(p) := v]) + Entry(protocols, Name(p)).bytes ==
            SumBytes(AllProtocols(), protocols) + v.bytes
  {
    AllProtocolsComplete(p);
    SumsUpdate(AllProtocols(), protocols, p, v);
    var i :| 0 <= i < |AllProtocols()| && AllProtocols()[i] == p;
    assert NamedIn(AllProtocols(), Name(p));
  }

  /** The names of all protocols. */
  predicate KnownNames(protocols: map<string, ProtocolStats>) {
    forall name :: name in protocols ==> NamedIn(AllProtocols(), name)
  }

  /** Every entry's share of the packets it was given; see `PercentagesSum`. */
  function SumPercent(ps: seq<Protocol>, protocols: map<string, ProtocolStats>, total: nat): real {
    if ps == [] then 0.0
    else SumPercent(ps[..|ps| - 1], protocols, total) + Percentage(Entry(protocols, Name(ps[|ps| - 1])), total)
  }

  lemma Shares(a: real, b: real, t: real)
    requires t > 0.0
    ensures (a / t) * 100.0 + (b / t) * 100.0 == ((a + b) / t) * 100.0
  {
  }

  lemma {:induction false} SumPercentScaled(ps: seq<Protocol>, protocols: map<string, ProtocolStats>, total: nat)
    requires total > 0
    ensures SumPercent(ps, protocols, total) == (SumPackets(ps, protocols) as real / total as real) * 100.0
  {
    if ps != [] {
      SumPercentScaled(ps[..|ps| - 1], protocols, total);
      var a := SumPackets(ps[..|ps| - 1], protocols) as real;
      var b := Entry(protocols, Name(ps[|ps| - 1])).packets as real;
      Shares(a, b, total as real);
    }
  }

  // ---------------------------------------------------------------------------
  // Aggregated counts and top lists
  // ---------------------------------------------------------------------------

  /** `acc` with every count of `m` added to it. */
  function Added<K(!new)>(acc: map<K, nat>, m: map<K, nat>): (r: map<K, nat>)
    ensures r.Keys == acc.Keys + m.Keys
    ensures forall k :: Count(r, k) == Count(acc, k) + Count(m, k)
  {
    map k | k in acc.Keys + m.Keys :: Count(acc, k) + Count(m, k)
  }

  /** The address counts of every protocol in `ps`, summed. */
  function IpTotals(ps: seq<Protocol>, protocols: map<string, ProtocolStats>): map<string, nat> {
    if ps == [] then map[]
    else Added(IpTotals(ps[..|ps| - 1], protocols), Entry(protocols, Name(ps[|ps| - 1])).ipCounts)
  }

  /** The port counts of every protocol in `ps`, summed. */
  function PortTotals(ps: seq<Protocol>, protocols: map<string, ProtocolStats>): map<nat, nat> {
    if ps == [] then map[]
    else Added(PortTotals(ps[..|ps| - 1], protocols), Entry(protocols, Name(ps[|ps| - 1])).portCounts)
  }

  /** Entries whose counts do not increase. */
  predicate SortedDesc<K>(s: seq<(K, nat)>) {
    forall i, j :: 0 <= i < j < |s| ==> s[i].1 >= s[j].1
  }

  /** Each key of `m` appears once in `s`, with its count, and nothing else does. */
  predicate EntriesOf<K>(s: seq<(K, nat)>, m: map<K, nat>) {
    (forall i :: 0 <= i < |s| ==> s[i].0 in m && s[i].1 == m[s[i].0]) &&
    (forall i, j :: 0 <= i < j < |s| ==> s[i].0 != s[j].0) &&
    (forall k :: k in m ==> exists i :: 0 <= i < |s| && s[i].0 == k)
  }

  /** Inserts `x` before the first entry with a smaller count. */
  function Insert<K>(x: (K, nat), s: seq<(K, nat)>): seq<(K, nat)> {
    if s == [] then [x]
    else if s[0].1 >= x.1 then [s[0]] + Insert(x, s[1..])
    else [x] + s
  }

  lemma {:induction false} InsertPerm<K>(x: (K, nat), s: seq<(K, nat)>)
    ensures multiset(Insert(x, s)) == multiset(s) + multiset{x}
    ensures |Insert(x, s)| == |s| + 1
  {
    if s != [] && s[0].1 >= x.1 {
      InsertPerm(x, s[1..]);
      assert s == [s[0]] + s[1..];
    }
  }

  /** Inserting under a bound keeps every count under it. */
  lemma {:induction false} InsertBounded<K>(x: (K, nat), s: seq<(K, nat)>, b: nat)
    requires x.1 <= b && forall i :: 0 <= i < |s| ==> s[i].1 <= b
    ensures forall i :: 0 <= i < |Insert(x, s)| ==> Insert(x, s)[i].1 <= b
  {
    if s != [] && s[0].1 >= x.1 {
      InsertBounded(x, s[1..], b);
      var r := Insert(x, s[1..]);
      assert forall i :: 0 < i < |r| + 1 ==> ([s[0]] + r)[i] == r[i - 1];
    } else if s != [] {
      assert forall i :: 0 < i < |s| + 1 ==> ([x] + s)[i] == s[i - 1];
    }
  }

  lemma {:induction false} InsertSorted<K>(x: (K, nat), s: seq<(K, nat)>)
    requires SortedDesc(s)
    ensures SortedDesc(Insert(x, s))
  {
    if s != [] && s[0].1 >= x.1 {
      var rest := Insert(x, s[1..]);
      InsertSorted(x, s[1..]);
      InsertBounded(x, s[1..], s[0].1);
      var r := [s[0]] + rest;
      forall i, j | 0 <= i < j < |r| ensures r[i].1 >= r[j].1 {
        if i > 0 {
          assert r[i] == rest[i - 1] && r[j] == rest[j - 1];
        } else {
          assert r[j] == rest[j - 1];
        }
      }
    } else if s != [] {
      var r := [x] + s;
      forall i, j | 0 <= i < j < |r| ensures r[i].1 >= r[j].1 {
        if i > 0 {
          assert r[i] == s[i - 1] && r[j] == s[j - 1];
        } else {
          assert r[j] == s[j - 1];
        }
      }
    }
  }

  /** Sorting by descending count, as `sort_by(|a, b| b.1.cmp(&a.1))` does. */
  function SortDesc<K>(s: seq<(K, nat)>): seq<(K, nat)> {
    if s == [] then [] else Insert(s[|s| - 1], SortDesc(s[..|s| - 1]))
  }

  /** Sorting is a permutation whose counts do not increase. */
  lemma {:induction false} SortDescProps<K>(s: seq<(K, nat)>)
    ensures multiset(SortDesc(s)) == multiset(s)
    ensures SortedDesc(SortDesc(s))
    ensures |SortDesc(s)| == |s|
  {
    if s != [] {
      SortDescProps(s[..|s| - 1]);
      InsertPerm(s[|s| - 1], SortDesc(s[..|s| - 1]));
      InsertSorted(s[|s| - 1], SortDesc(s[..|s| - 1]));
      assert s == s[..|s| - 1] + [s[|s| - 1]];
    }
  }

  /** `into_iter().take(10)`. */
  function Top<K>(s: seq<(K, nat)>): (r: seq<(K, nat)>)
    ensures |r| == if |s| < 10 then |s| else 10
  {
    if |s| <= 10 then s else s[..10]
  }

  /** The entries in a sequence equal as multisets satisfy the same entry description. */
  lemma EntriesPermuted<K>(s: seq<(K, nat)>, t: seq<(K, nat)>, m: map<K, nat>)
    requires EntriesOf(s, m) && multiset(s) == multiset(t)
    ensures forall i :: 0 <= i < |t| ==> t[i].0 in m && t[i].1 == m[t[i].0]
    ensures forall k :: k in m ==> exists i :: 0 <= i < |t| && t[i].0 == k
  {
    forall i | 0 <= i < |t| ensures t[i].0 in m && t[i].1 == m[t[i].0] {
      assert t[i] in multiset(s);
      var j :| 0 <= j < |s| && s[j] == t[i];
    }
    forall k | k in m ensures exists i :: 0 <= i < |t| && t[i].0 == k {
      var j :| 0 <= j < |s| && s[j].0 == k;
      assert s[j] in multiset(t);
      var i :| 0 <= i < |t| && t[i] == s[j];
    }
  }

  /** Sums the address and port counts of the protocols in `all`, one protocol at a time. */
  method Aggregate(all: seq<Protocol>, protocols: map<string, ProtocolStats>) returns (ips: map<string, nat>, ports: map<nat, nat>)
    ensures ips == IpTotals(all, protocols) && ports == PortTotals(all, protocols)
  {
    ips, ports := map[], map[];
    var k := 0;
    while k < |all|
      invariant 0 <= k <= |all|
      invariant ips == IpTotals(all[..k], protocols)
      invariant ports == PortTotals(all[..k], protocols)
    {
      assert all[..k + 1][..k] == all[..k];
      var entry := Entry(protocols, Name(all[k]));
      ips := AddInto(ips, entry.ipCounts);
      ports := AddInto(ports, entry.portCounts);
      k := k + 1;
    }
    assert all[..k] == all;
  }

  /** Collects a table's entries, sorts them by descending count and keeps the first ten. */
  method TopList<K>(m: map<K, nat>) returns (top: seq<(K, nat)>)
    ensures IsTopList(top, m)
  {
    var es := EntriesOfMap(m);
    TopProps(es, m);
    top := Top(SortDesc(es));
  }

  /** A list is the top list of a table: at most ten entries of the table, with their counts, by descending count, none left out counting more than one kept. */
  predicate IsTopList<K>(top: seq<(K, nat)>, m: map<K, nat>) {
    |top| == (if |m| < 10 then |m| else 10) &&
    SortedDesc(top) &&
    (forall i :: 0 <= i < |top| ==> top[i].0 in m && top[i].1 == m[top[i].0]) &&
    (forall k :: k in m && (forall i :: 0 <= i < |top| ==> top[i].0 != k) ==>
       forall i :: 0 <= i < |top| ==> m[k] <= top[i].1)
  }

  /** Nothing left out of the first `n` entries of a sorted listing counts more than one kept. */
  lemma TopDominates<K>(sorted: seq<(K, nat)>, m: map<K, nat>, n: nat)
    requires SortedDesc(sorted) && n <= |sorted|
    requires forall k :: k in m ==> exists i :: 0 <= i < |sorted| && sorted[i].0 == k
    requires forall i :: 0 <= i < |sorted| ==> sorted[i].0 in m && sorted[i].1 == m[sorted[i].0]
    ensures forall k :: k in m && (forall i :: 0 <= i < n ==> sorted[i].0 != k) ==>
      forall i :: 0 <= i < n ==> m[k] <= sorted[i].1
  {
    forall k | k in m && (forall i :: 0 <= i < n ==> sorted[i].0 != k)
      ensures forall i :: 0 <= i < n ==> m[k] <= sorted[i].1
    {
      var j :| 0 <= j < |sorted| && sorted[j].0 == k;
      assert j >= n;
    }
  }

  /**
   * The top list of a table's entries: at most ten entries of the table,
   * with their counts, by descending count, and every entry left out has a
   * count no larger than every entry kept.
   */
  lemma TopProps<K>(es: seq<(K, nat)>, m: map<K, nat>)
    requires EntriesOf(es, m)
    ensures IsTopList(Top(SortDesc(es)), m)
  {
    var sorted := SortDesc(es);
    SortDescProps(es);
    EntriesPermuted(es, sorted, m);
    EntriesCount(es, m);
    TopOfSorted(sorted, m);
  }

  /** The first ten entries of a sorted listing of a table are its top list. */
  lemma TopOfSorted<K>(sorted: seq<(K, nat)>, m: map<K, nat>)
    requires SortedDesc(sorted) && |sorted| == |m|
    requires forall k :: k in m ==> exists i :: 0 <= i < |sorted| && sorted[i].0 == k
    requires forall i :: 0 <= i < |sorted| ==> sorted[i].0 in m && sorted[i].1 == m[sorted[i].0]
    ensures IsTopList(Top(sorted), m)
  {
    var top := Top(sorted);
    assert forall i :: 0 <= i < |top| ==> top[i] == sorted[i];
    assert SortedDesc(top);
    TopDominates(sorted, m, |top|);
  }

  /** A listing of a table's entries has one entry per key. */
  lemma EntriesCount<K>(es: seq<(K, nat)>, m: map<K, nat>)
    requires EntriesOf(es, m)
    ensures |es| == |m|
  {
    var keys := set i | 0 <= i < |es| :: es[i].0;
    assert keys == m.Keys;
    IndexedSetSize(es);
  }

  /** Distinct keys at each index: the key set is as large as the sequence. */
  lemma {:induction false} IndexedSetSize<K>(es: seq<(K, nat)>)
    requires forall i, j :: 0 <= i < j < |es| ==> es[i].0 != es[j].0
    ensures |set i | 0 <= i < |es| :: es[i].0| == |es|
  {
    if es != [] {
      var init := es[..|es| - 1];
      IndexedSetSize(init);
      var a := set i | 0 <= i < |init| :: init[i].0;
      var b := set i | 0 <= i < |es| :: es[i].0;
      assert b == a + {es[|es| - 1].0};
      assert es[|es| - 1].0 !in a;
    }
  }

  /** Lists the entries of a table, in no particular order (a hash map's iteration order). */
  method EntriesOfMap<K>(m: map<K, nat>) returns (es: seq<(K, nat)>)
    ensures EntriesOf(es, m)
  {
    es := [];
    var rest := m.Keys;
    while rest != {}
      invariant rest <= m.Keys
      invariant forall i :: 0 <= i < |es| ==> es[i].0 in m && es[i].1 == m[es[i].0] && es[i].0 !in rest
      invariant forall i, j :: 0 <= i < j < |es| ==> es[i].0 != es[j].0
      invariant forall k :: k in m && k !in rest ==> exists i :: 0 <= i < |es| && es[i].0 == k
      decreases rest
    {
      var k :| k in rest;
      ghost var old_es := es;
      es := es + [(k, m[k])];
      assert es[|es| - 1].0 == k;
      assert forall i :: 0 <= i < |old_es| ==> es[i] == old_es[i];
      rest := rest - {k};
    }
  }

  /** Adds every count of `m` into `acc`, one key at a time. */
  method AddInto<K(!new)>(acc: map<K, nat>, m: map<K, nat>) returns (r: map<K, nat>)
    ensures r == Added(acc, m)
  {
    r := acc;
    var rest := m.Keys;
    while rest != {}
      invariant rest <= m.Keys
      invariant r.Keys == acc.Keys + (m.Keys - rest)
      invariant forall k :: Count(r, k) == Count(acc, k) + if k in rest then 0 else Count(m, k)
      decreases rest
    {
      var k :| k in rest;
      r := r[k := Count(r, k) + m[k]];
      rest := rest - {k};
    }
    assert forall k :: k in r ==> r[k] == Count(Added(acc, m), k);
  }

  /** `CaptureStats`. */
  class CaptureStats {
    var packetsCaptured: nat
    var packetsDropped: nat
    var packetsDroppedInterface: nat
    var bytesCaptured: nat
    var startTime: Option<int>
    var endTime: Option<int>
    var durationSecs: real
    var packetsPerSecond: real
    var bytesPerSecond: real
    var protocols: map<string, ProtocolStats>
    var topTalkers: seq<(string, nat)>
    var topPorts: seq<(nat, nat)>

    /** The totals are the sums over the protocol table, which is keyed by protocol names. */
    ghost predicate Valid()
      reads this`packetsCaptured, this`bytesCaptured, this`protocols
    {
      KnownNames(protocols) &&
      packetsCaptured == SumPackets(AllProtocols(), protocols) &&
      bytesCaptured == SumBytes(AllProtocols(), protocols)
    }

    /** `CaptureStats::new`: everything zero, started now. */
    constructor(now: int)
      ensures Valid()
      ensures packetsCaptured == 0 && packetsDropped == 0 && packetsDroppedInterface == 0 && bytesCaptured == 0
      ensures startTime == Some(now) && endTime.None? && protocols == map[]
      ensures durationSecs == 0.0 && packetsPerSecond == 0.0 && bytesPerSecond == 0.0
      ensures topTalkers == [] && topPorts == []
    {
      packetsCaptured, packetsDropped, packetsDroppedInterface, bytesCaptured := 0, 0, 0, 0;
      startTime, endTime := Some(now), None;
      durationSecs, packetsPerSecond, bytesPerSecond := 0.0, 0.0, 0.0;
      protocols := map[];
      topTalkers, topPorts := [], [];
      new;
      EmptySums(AllProtocols());
    }

    /**
     * `update`: one more packet and `length` more bytes, globally and in
     * the protocol's entry, which also counts the packet's addresses and
     * ports. The totals stay the sums of the table.
     */
    method Update(protocol: Protocol, length: nat, srcIp: Option<string>, dstIp: Option<string>,
                  srcPort: Option<nat>, dstPort: Option<nat>)
      requires Valid()
      modifies this`packetsCaptured, this`bytesCaptured, this`protocols
      ensures Valid()
      ensures packetsCaptured == old(packetsCaptured) + 1 && bytesCaptured == old(bytesCaptured) + length
      ensures protocols == old(protocols)[Name(protocol) :=
        Tracked(Entry(old(protocols), Name(protocol)), length, srcIp, dstIp, srcPort, dstPort)]
    {
      packetsCaptured := packetsCaptured + 1;
      bytesCaptured := bytesCaptured + length;
      var name := Name(protocol);
      var t := Tracked(Entry(protocols, name), length, srcIp, dstIp, srcPort, dstPort);
      TableUpdate(protocols, protocol, t);
      protocols := protocols[name := t];
    }

    /**
     * `finalize`: records the end time, the duration in seconds and, for a
     * positive duration, the rates; then the ten busiest addresses and
     * ports over all protocols.
     */
    method Finalize(now: int)
      modifies this`endTime, this`durationSecs, this`packetsPerSecond, this`bytesPerSecond
      modifies this`topTalkers, this`topPorts
      ensures endTime == Some(now)
      ensures startTime.Some? ==> durationSecs == (now - startTime.value) as real / 1000.0
      ensures startTime.None? ==> durationSecs == old(durationSecs)
      ensures startTime.Some? && durationSecs > 0.0 ==>
        packetsPerSecond == packetsCaptured as real / durationSecs &&
        bytesPerSecond == bytesCaptured as real / durationSecs
      ensures !(startTime.Some? && durationSecs > 0.0) ==>
        packetsPerSecond == old(packetsPerSecond) && bytesPerSecond == old(bytesPerSecond)
      ensures Ranked()
    {
      RecordEnd(now);
      Rank();
    }

    /** The top lists are those of the address and port counts summed over all protocols. */
    ghost predicate Ranked()
      reads this`topTalkers, this`topPorts, this`protocols
    {
      IsTopList(topTalkers, IpTotals(AllProtocols(), protocols)) &&
      IsTopList(topPorts, PortTotals(AllProtocols(), protocols))
    }

    /** The first half of `finalize`: the end time, the duration in seconds and, for a positive duration, the rates. */
    method RecordEnd(now: int)
      modifies this`endTime, this`durationSecs, this`packetsPerSecond, this`bytesPerSecond
      ensures endTime == Some(now)
      ensures startTime.Some? ==> durationSecs == (now - startTime.value) as real / 1000.0
      ensures startTime.None? ==> durationSecs == old(durationSecs)
      ensures startTime.Some? && durationSecs > 0.0 ==>
        packetsPerSecond == packetsCaptured as real / durationSecs &&
        bytesPerSecond == bytesCaptured as real / durationSecs
      ensures !(startTime.Some? && durationSecs > 0.0) ==>
        packetsPerSecond == old(packetsPerSecond) && bytesPerSecond == old(bytesPerSecond)
    {
      endTime := Some(now);
      if startTime.Some? {
        var secs := (now - startTime.value) as real / 1000.0;
        durationSecs := secs;
        if secs > 0.0 {
          packetsPerSecond := packetsCaptured as real / secs;
          bytesPerSecond := bytesCaptured as real / secs;
        }
      }
    }

    /** The second half of `finalize`: sums the counts over all protocols and keeps the ten busiest addresses and ports. */
    method Rank()
      modifies this`topTalkers, this`topPorts
      ensures Ranked()
    {
      var ips, ports := Aggregate(AllProtocols(), protocols);
      var talkers := TopList(ips);
      var busiest := TopList(ports);
      topTalkers, topPorts := talkers, busiest;
    }

    /** `drop_rate`. */
    function DropRateOf(): real
      reads this
    {
      DropRate(packetsCaptured, packetsDropped)
    }
  }

  lemma {:induction false} EmptySums(ps: seq<Protocol>)
    ensures SumPackets(ps, map[]) == 0 && SumBytes(ps, map[]) == 0
  {
    if ps != [] {
      EmptySums(ps[..|ps| - 1]);
    }
  }

  /**
   * With the totals kept by `update`, the protocols' shares of the captured
   * packets add up to 100 percent once anything was captured.
   */
  lemma PercentagesSum(protocols: map<string, ProtocolStats>, captured: nat)
    requires captured == SumPackets(AllProtocols(), protocols) && captured > 0
    ensures SumPercent(AllProtocols(), protocols, captured) == 100.0
  {
    SumPercentScaled(AllProtocols(), protocols, captured);
    WholeShare(captured as real);
  }

  lemma WholeShare(t: real)
    requires t > 0.0
    ensures (t / t) * 100.0 == 100.0
  {
  }
}
