/**
 * Protocol decoding helpers (crates/netdiag-capture, decode.rs): protocol
 * names, TCP flags from the header's flag byte and their short text, and
 * the application protocol guessed from TCP and UDP ports. Slicing a raw
 * frame into headers is the work of an external parser and is not
 * modelled.
 */
module Decode {
  /** `Protocol`. */
  datatype Protocol =
    | Unknown | Ethernet | Arp | Ipv4 | Ipv6 | Tcp | Udp | Icmp | Icmpv6 | Dns | Http | Https | Ssh | Dhcp

  /** `Protocol::name`, also its `Display`. */
  function Name(p: Protocol): string {
    match p
    case Unknown => "Unknown"
    case Ethernet => "Ethernet"
    case Arp => "ARP"
    case Ipv4 => "IPv4"
    case Ipv6 => "IPv6"
    case Tcp => "TCP"
    case Udp => "UDP"
    case Icmp => "ICMP"
    case Icmpv6 => "ICMPv6"
    case Dns => "DNS"
    case Http => "HTTP"
    case Https => "HTTPS"
    case Ssh => "SSH"
    case Dhcp => "DHCP"
  }

  /** Every protocol, in declaration order. */
  function AllProtocols(): seq<Protocol> {
    [Unknown, Ethernet, Arp, Ipv4, Ipv6, Tcp, Udp, Icmp, Icmpv6, Dns, Http, Https, Ssh, Dhcp]
  }

  /** The list of protocols is complete and without repetition. */
  lemma AllProtocolsComplete(p: Protocol)
    ensures p in AllProtocols()
    ensures forall i, j :: 0 <= i < j < |AllProtocols()| ==> AllProtocols()[i] != AllProtocols()[j]
  {
    var ps := AllProtocols();
    match p
    case Unknown => assert ps[0] == p;
    case Ethernet => assert ps[1] == p;
    case Arp => assert ps[2] == p;
    case Ipv4 => assert ps[3] == p;
    case Ipv6 => assert ps[4] == p;
    case Tcp => assert ps[5] == p;
    case Udp => assert ps[6] == p;
    case Icmp => assert ps[7] == p;
    case Icmpv6 => assert ps[8] == p;
    case Dns => assert ps[9] == p;
    case Http => assert ps[10] == p;
    case Https => assert ps[11] == p;
    case Ssh => assert ps[12] == p;
    case Dhcp => assert ps[13] == p;
  }

  /** Distinct protocols have distinct names, so a name identifies its protocol. */
  lemma NameInjective(p: Protocol, q: Protocol)
    requires Name(p) == Name(q)
    ensures p == q
  {
  }

  /** `TcpFlags`. */
  datatype TcpFlags = TcpFlags(fin: bool, syn: bool, rst: bool, psh: bool, ack: bool, urg: bool, ece: bool, cwr: bool)

  /** `TcpFlags::from_byte`: bit 0 is FIN, then SYN, RST, PSH, ACK, URG, ECE and bit 7 CWR. */
  function FromByte(b: bv8): TcpFlags {
    TcpFlags(b & 0x01 != 0, b & 0x02 != 0, b & 0x04 != 0, b & 0x08 != 0,
             b & 0x10 != 0, b & 0x20 != 0, b & 0x40 != 0, b & 0x80 != 0)
  }

  function Bit(on: bool, mask: bv8): bv8 {
    if on then mask else 0
  }

  /** The flag byte a set of flags is read from, as laid out in the TCP header. */
  function ToByte(f: TcpFlags): bv8 {
    Bit(f.fin, 0x01) | Bit(f.syn, 0x02) | Bit(f.rst, 0x04) | Bit(f.psh, 0x08) |
    Bit(f.ack, 0x10) | Bit(f.urg, 0x20) | Bit(f.ece, 0x40) | Bit(f.cwr, 0x80)
  }

  /** `from_byte` reads every bit: the byte is recovered from its flags. */
  lemma ByteRoundTrip(b: bv8)
    ensures ToByte(FromByte(b)) == b
  {
  }

  /** Every combination of flags comes from exactly one byte. */
  lemma FlagsRoundTrip(f: TcpFlags)
    ensures FromByte(ToByte(f)) == f
  {
  }

  /** The k-th letter `to_string_short` may report: S, A, F, R, P, U. */
  function Letter(k: nat): char
    requires k < 6
  {
    if k == 0 then 'S' else if k == 1 then 'A' else if k == 2 then 'F'
    else if k == 3 then 'R' else if k == 4 then 'P' else 'U'
  }

  /** Whether the flag behind the k-th letter is set. */
  predicate FlagAt(f: TcpFlags, k: nat)
    requires k < 6
  {
    if k == 0 then f.syn else if k == 1 then f.ack else if k == 2 then f.fin
    else if k == 3 then f.rst else if k == 4 then f.psh else f.urg
  }

  /** Any of the reported flags is set (ECE and CWR are never shown). */
  predicate AnyShown(f: TcpFlags) {
    f.syn || f.ack || f.fin || f.rst || f.psh || f.urg
  }

  /** The letters of the set flags among the first `k`, in letter order. */
  function Chosen(f: TcpFlags, k: nat): string
    requires k <= 6
  {
    if k == 0 then [] else Chosen(f, k - 1) + if FlagAt(f, k - 1) then [Letter(k - 1)] else []
  }

  /** What `to_string_short` returns. */
  function Short(f: TcpFlags): string {
    if AnyShown(f) then Chosen(f, 6) else "."
  }

  lemma {:induction false} ChosenLength(f: TcpFlags, k: nat)
    requires k <= 6
    ensures |Chosen(f, k)| <= k
  {
    if k > 0 {
      ChosenLength(f, k - 1);
    }
  }

  /** `c` is the letter of one of the first `k` flags, and that flag is set. */
  predicate SetLetter(f: TcpFlags, c: char, k: nat)
    requires k <= 6
  {
    exists j :: 0 <= j < k && c == Letter(j) && FlagAt(f, j)
  }

  /** Every chosen letter is the letter of a set flag. */
  lemma {:induction false} ChosenSound(f: TcpFlags, k: nat)
    requires k <= 6
    ensures forall i :: 0 <= i < |Chosen(f, k)| ==> SetLetter(f, Chosen(f, k)[i], k)
  {
    if k > 0 {
      ChosenSound(f, k - 1);
      var init := Chosen(f, k - 1);
      forall i | 0 <= i < |Chosen(f, k)|
        ensures SetLetter(f, Chosen(f, k)[i], k)
      {
        if i < |init| {
          assert SetLetter(f, init[i], k - 1);
          var j :| 0 <= j < k - 1 && init[i] == Letter(j) && FlagAt(f, j);
          assert Chosen(f, k)[i] == init[i];
        } else {
          assert Chosen(f, k)[i] == Letter(k - 1) && FlagAt(f, k - 1);
        }
      }
    }
  }

  /** Each set flag's letter is chosen. */
  lemma {:induction false} ChosenComplete(f: TcpFlags, k: nat)
    requires k <= 6
    ensures forall j :: 0 <= j < k && FlagAt(f, j) ==> Letter(j) in Chosen(f, k)
  {
    if k > 0 {
      ChosenComplete(f, k - 1);
    }
  }

  /** Chosen letters ascend in rank. */
  lemma {:induction false} ChosenOrdered(f: TcpFlags, k: nat)
    requires k <= 6
    ensures forall i, i' :: 0 <= i < i' < |Chosen(f, k)| ==> Rank(Chosen(f, k)[i]) < Rank(Chosen(f, k)[i'])
    ensures forall i :: 0 <= i < |Chosen(f, k)| ==> Rank(Chosen(f, k)[i]) < k
  {
    if k > 0 {
      ChosenOrdered(f, k - 1);
      RankLetter(k - 1);
      var init := Chosen(f, k - 1);
      assert forall i :: 0 <= i < |init| ==> Chosen(f, k)[i] == init[i];
    }
  }

  /** A letter's position among S A F R P U. */
  function Rank(c: char): nat {
    if c == 'S' then 0 else if c == 'A' then 1 else if c == 'F' then 2
    else if c == 'R' then 3 else if c == 'P' then 4 else 5
  }

  lemma RankLetter(k: nat)
    requires k < 6
    ensures Rank(Letter(k)) == k
  {
  }

  /** A letter is chosen exactly when its flag is among the first `k` and set. */
  lemma ChosenExact(f: TcpFlags, k: nat, j: nat)
    requires k <= 6 && j < 6
    ensures Letter(j) in Chosen(f, k) <==> j < k && FlagAt(f, j)
  {
    ChosenSound(f, k);
    ChosenComplete(f, k);
    var c := Chosen(f, k);
    if Letter(j) in c {
      var i :| 0 <= i < |c| && c[i] == Letter(j);
      assert SetLetter(f, c[i], k);
      var j' :| 0 <= j' < k && c[i] == Letter(j') && FlagAt(f, j');
      RankLetter(j);
      RankLetter(j');
    }
  }

  /** The short form is "." exactly when none of SYN, ACK, FIN, RST, PSH and URG is set. */
  lemma ShortDot(f: TcpFlags)
    ensures Short(f) == "." <==> !AnyShown(f)
    ensures 1 <= |Short(f)| <= 6
  {
    ChosenLength(f, 6);
    if AnyShown(f) {
      var k := if f.syn then 0 else if f.ack then 1 else if f.fin then 2 else if f.rst then 3 else if f.psh then 4 else 5;
      assert FlagAt(f, k);
      ChosenExact(f, 6, k);
      assert Letter(k) != '.';
    }
  }

  /**
   * Otherwise it holds the letter of each set flag, and only those, in the
   * order S A F R P U.
   */
  lemma ShortLetters(f: TcpFlags)
    requires AnyShown(f)
    ensures forall k :: 0 <= k < 6 ==> (Letter(k) in Short(f) <==> FlagAt(f, k))
    ensures forall i :: 0 <= i < |Short(f)| ==> SetLetter(f, Short(f)[i], 6)
  {
    ChosenSound(f, 6);
    forall k | 0 <= k < 6 ensures Letter(k) in Short(f) <==> FlagAt(f, k) {
      ChosenExact(f, 6, k);
    }
  }

  /** The letters of the short form ascend in the order S A F R P U. */
  lemma ShortOrdered(f: TcpFlags)
    ensures forall i, j :: 0 <= i < j < |Short(f)| ==> Rank(Short(f)[i]) < Rank(Short(f)[j])
  {
    ChosenOrdered(f, 6);
  }

  /** One `if flag { s.push(c) }` of `to_string_short`. */
  method PushIf(s: string, on: bool, c: char) returns (s': string)
    ensures s' == s + if on then [c] else []
  {
    s' := s;
    if on {
      s' := s' + [c];
    }
  }

  /** `to_string_short`: pushes the letter of each set flag, then "." if nothing was pushed. */
  method ToStringShort(f: TcpFlags) returns (s: string)
    ensures s == Short(f)
  {
    s := "";
    s := PushIf(s, f.syn, 'S');
    assert s == Chosen(f, 1);
    s := PushIf(s, f.ack, 'A');
    assert s == Chosen(f, 2);
    s := PushIf(s, f.fin, 'F');
    assert s == Chosen(f, 3);
    s := PushIf(s, f.rst, 'R');
    assert s == Chosen(f, 4);
    s := PushIf(s, f.psh, 'P');
    assert s == Chosen(f, 5);
    s := PushIf(s, f.urg, 'U');
    assert s == Chosen(f, 6);
    if s == "" {
      s := s + ['.'];
    } else {
      assert AnyShown(f);
    }
  }

  /** `TcpFlags`' `Display`: the short form in brackets. */
  method DisplayFlags(f: TcpFlags) returns (s: string)
    ensures |s| >= 3 && s[0] == '[' && s[|s| - 1] == ']'
    ensures s[1..|s| - 1] == Short(f)
  {
    var inner := ToStringShort(f);
    ShortDot(f);
    s := "[" + inner + "]";
    assert s[1..|s| - 1] == inner;
  }

  predicate EitherPort(src: nat, dst: nat, p: nat) {
    src == p || dst == p
  }

  predicate HttpPorts(src: nat, dst: nat) {
    EitherPort(src, dst, 80) || EitherPort(src, dst, 8080)
  }

  predicate HttpsPorts(src: nat, dst: nat) {
    EitherPort(src, dst, 443) || EitherPort(src, dst, 8443)
  }

  /**
   * `identify_tcp_protocol`: HTTP ports (80, 8080) win over HTTPS ports
   * (443, 8443), which win over SSH (22), then DNS (53); either endpoint
   * counts. Anything else is plain TCP.
   */
  function TcpProtocol(src: nat, dst: nat): (p: Protocol)
    ensures p == Http <==> HttpPorts(src, dst)
    ensures p == Https <==> !HttpPorts(src, dst) && HttpsPorts(src, dst)
    ensures p == Ssh <==> !HttpPorts(src, dst) && !HttpsPorts(src, dst) && EitherPort(src, dst, 22)
    ensures p == Dns <==>
      !HttpPorts(src, dst) && !HttpsPorts(src, dst) && !EitherPort(src, dst, 22) && EitherPort(src, dst, 53)
    ensures p in {Http, Https, Ssh, Dns, Tcp}
  {
    if src == 80 || dst == 80 || src == 8080 || dst == 8080 then Http
    else if src == 443 || dst == 443 || src == 8443 || dst == 8443 then Https
    else if src == 22 || dst == 22 then Ssh
    else if src == 53 || dst == 53 then Dns
    else Tcp
  }

  /** `identify_udp_protocol`: DNS (53) wins over DHCP (67, 68); anything else is plain UDP. */
  function UdpProtocol(src: nat, dst: nat): (p: Protocol)
    ensures p == Dns <==> EitherPort(src, dst, 53)
    ensures p == Dhcp <==> !EitherPort(src, dst, 53) && (EitherPort(src, dst, 67) || EitherPort(src, dst, 68))
    ensures p in {Dns, Dhcp, Udp}
  {
    if src == 53 || dst == 53 then Dns
    else if src == 67 || dst == 67 || src == 68 || dst == 68 then Dhcp
    else Udp
  }

  /** Neither guess depends on which endpoint is the source. */
  lemma PortGuessSymmetric(src: nat, dst: nat)
    ensures TcpProtocol(src, dst) == TcpProtocol(dst, src)
    ensures UdpProtocol(src, dst) == UdpProtocol(dst, src)
  {
  }

  /** A web request to port 443 from HTTP's alternative port counts as HTTP, not HTTPS. */
  lemma HttpBeatsHttps()
    ensures TcpProtocol(8080, 443) == Http
    ensures TcpProtocol(443, 22) == Https
    ensures UdpProtocol(68, 53) == Dns
  {
  }
}
