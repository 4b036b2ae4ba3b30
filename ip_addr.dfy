/**
 * `std::net::IpAddr` as far as the parsers need it: dotted-quad IPv4
 * text is parsed and displayed; an IPv6 address is carried as a value.
 */
module IpAddrs {
  import opened Wrappers
  import opened Text

  /** An IP address; every octet of `V4` and every segment of `V6` is in range. */
  datatype IpAddr = V4(octets: seq<nat>) | V6(segments: seq<nat>)

  predicate ValidIp(a: IpAddr) {
    match a
    case V4(o) => |o| == 4 && forall i :: 0 <= i < 4 ==> o[i] < 256
    case V6(g) => |g| == 8 && forall i :: 0 <= i < 8 ==> g[i] < 65536
  }

  /**
   * One component of `Ipv4Addr::from_str`: one to three ASCII digits, no
   * leading zero unless the component is `0`, a value below 256.
   */
  function ParseOctet(s: string): (r: Option<nat>)
    ensures r.Some? ==> r.value < 256
  {
    if 1 <= |s| <= 3 && AllDigits(s) && !(|s| > 1 && s[0] == '0') && DecimalValue(s) < 256
    then Some(DecimalValue(s))
    else None
  }

  /** `Ipv4Addr::from_str`: exactly four components separated by `.`. */
  function ParseIpv4(s: string): (r: Option<IpAddr>)
    ensures r.Some? ==> r.value.V4? && ValidIp(r.value)
  {
    var parts := SplitChars(s, {'.'});
    if |parts| != 4 then None
    else match (ParseOctet(parts[0]), ParseOctet(parts[1]), ParseOctet(parts[2]), ParseOctet(parts[3]))
      case (Some(a), Some(b), Some(c), Some(d)) => Some(V4([a, b, c, d]))
      case _ => None
  }

  /** `IpAddr::from_str` restricted to the IPv4 form. */
  function ParseIp(s: string): (r: Option<IpAddr>)
    ensures r.Some? ==> ValidIp(r.value)
  {
    ParseIpv4(s)
  }

  /** The dotted-quad display of an IPv4 address. */
  function Ipv4ToString(a: IpAddr): (s: string)
    requires a.V4? && ValidIp(a)
  {
    JoinWith([NatToString(a.octets[0]), NatToString(a.octets[1]),
              NatToString(a.octets[2]), NatToString(a.octets[3])], '.')
  }

  lemma OctetDisplay(n: nat)
    requires n < 256
    ensures ParseOctet(NatToString(n)) == Some(n)
    ensures FreeOf(NatToString(n), {'.'})
  {
    var s := NatToString(n);
    assert |s| <= 3 by {
      if |s| > 3 {
        DecimalValueAtLeast(s);
      }
    }
  }

  /** A numeral that does not start with `0` is at least 10^(length - 1). */
  lemma {:induction false} DecimalValueAtLeast(s: string)
    requires |s| > 0 && AllDigits(s) && s[0] != '0'
    ensures DecimalValue(s) >= Pow10(|s| - 1)
  {
    var init := s[..|s| - 1];
    if |s| > 1 {
      assert init[0] == s[0];
      DecimalValueAtLeast(init);
    } else {
      assert init == [];
    }
  }

  /** Parsing the display of an IPv4 address gives the address back. */
  lemma {:induction false} ParseDisplayIpv4(a: IpAddr)
    requires a.V4? && ValidIp(a)
    ensures ParseIpv4(Ipv4ToString(a)) == Some(a)
  {
    var o := a.octets;
    OctetDisplay(o[0]);
    OctetDisplay(o[1]);
    OctetDisplay(o[2]);
    OctetDisplay(o[3]);
    var parts := [NatToString(o[0]), NatToString(o[1]), NatToString(o[2]), NatToString(o[3])];
    SplitJoin(parts, '.', {'.'});
    assert [o[0], o[1], o[2], o[3]] == o;
  }
}
