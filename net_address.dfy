/**
 * Network addresses (crates/netdiag-types, network/address.rs): MAC
 * addresses with their text form and predicates, and IPv4 subnets with
 * their netmask and membership test. An IPv4 address in a subnet is its
 * 32-bit value, as `u32::from` gives it.
 */
module NetAddress {
  import opened Wrappers
  import opened Text

  /** The six octets of a MAC address. */
  type MacOctets = s: seq<Byte> | |s| == 6 witness [0, 0, 0, 0, 0, 0]

  /** `MacAddress`. */
  datatype MacAddress = MacAddress(octets: MacOctets)

  /** `MacAddress::broadcast`. */
  function Broadcast(): MacAddress {
    MacAddress([0xFF, 0xFF, 0xFF, 0xFF, 0xFF, 0xFF])
  }

  /** `MacAddress::zero`. */
  function Zero(): MacAddress {
    MacAddress([0, 0, 0, 0, 0, 0])
  }

  predicate IsBroadcast(m: MacAddress) {
    m.octets == [0xFF, 0xFF, 0xFF, 0xFF, 0xFF, 0xFF]
  }

  predicate IsZero(m: MacAddress) {
    m.octets == [0, 0, 0, 0, 0, 0]
  }

  /** `is_multicast`: bit 0 of the first octet (`& 0x01`). */
  predicate IsMulticast(m: MacAddress) {
    m.octets[0] % 2 == 1
  }

  /** `is_local`: bit 1 of the first octet (`& 0x02`). */
  predicate IsLocal(m: MacAddress) {
    m.octets[0] / 2 % 2 == 1
  }

  /** The broadcast address is multicast and locally administered; the zero address is neither. */
  lemma SpecialAddresses()
    ensures IsBroadcast(Broadcast()) && IsMulticast(Broadcast()) && IsLocal(Broadcast())
    ensures IsZero(Zero()) && !IsMulticast(Zero()) && !IsLocal(Zero()) && !IsBroadcast(Zero())
  {
  }

  /** `Display`: six two-digit upper-case hexadecimal octets separated by `:`. */
  function MacDisplay(m: MacAddress): string {
    JoinWith(Hexes(m), ':')
  }

  function Hexes(m: MacAddress): seq<string> {
    [HexByte(m.octets[0]), HexByte(m.octets[1]), HexByte(m.octets[2]),
     HexByte(m.octets[3]), HexByte(m.octets[4]), HexByte(m.octets[5])]
  }

  /** The characters `from_str` splits on. */
  function MacSeparators(): set<char> {
    {':', '-'}
  }

  function FormatError(s: string): string {
    "Invalid MAC address format: " + s
  }

  function HexError(part: string): string {
    "Invalid hex digit in MAC address: " + part
  }

  /** The octets of the first `k` parts, or the error for the first part that is not a hexadecimal byte. */
  function ParsedUpTo(parts: seq<string>, k: nat): (r: Result<seq<Byte>, string>)
    requires k <= |parts|
    ensures r.Ok? ==> |r.value| == k
  {
    if k == 0 then Ok([])
    else match ParsedUpTo(parts, k - 1)
      case Err(e) => Err(e)
      case Ok(bs) =>
        match ParseHexByte(parts[k - 1])
        case None => Err(HexError(parts[k - 1]))
        case Some(b) => Ok(bs + [b])
  }

  /** `MacAddress::from_str`. */
  function MacFromStr(s: string): Result<MacAddress, string> {
    var parts := SplitChars(s, MacSeparators());
    if |parts| != 6 then Err(FormatError(s))
    else match ParsedUpTo(parts, 6)
      case Err(e) => Err(e)
      case Ok(bs) => Ok(MacAddress(bs))
  }

  /** The parts parse exactly when each is a hexadecimal byte, and the octets are their values. */
  lemma ParsedUpToProps(parts: seq<string>, k: nat)
    requires k <= |parts|
    ensures ParsedUpTo(parts, k).Ok? <==> forall i :: 0 <= i < k ==> ParseHexByte(parts[i]).Some?
    ensures ParsedUpTo(parts, k).Ok? ==>
      forall i :: 0 <= i < k ==> ParsedUpTo(parts, k).value[i] == ParseHexByte(parts[i]).value
    ensures ParsedUpTo(parts, k).Err? ==>
      exists i :: 0 <= i < k && ParseHexByte(parts[i]).None? &&
        (forall j :: 0 <= j < i ==> ParseHexByte(parts[j]).Some?) &&
        ParsedUpTo(parts, k).error == HexError(parts[i])
  {
    ParsedOk(parts, k);
    if ParsedUpTo(parts, k).Err? {
      var i := ParsedErr(parts, k);
    }
  }

  /** A successful parse holds every part's value; a failed one has a part that is not a byte. */
  lemma {:induction false} ParsedOk(parts: seq<string>, k: nat)
    requires k <= |parts|
    ensures ParsedUpTo(parts, k).Ok? <==> forall i :: 0 <= i < k ==> ParseHexByte(parts[i]).Some?
    ensures ParsedUpTo(parts, k).Ok? ==>
      forall i :: 0 <= i < k ==> ParsedUpTo(parts, k).value[i] == ParseHexByte(parts[i]).value
  {
    if k > 0 {
      ParsedOk(parts, k - 1);
      var prev := ParsedUpTo(parts, k - 1);
      if prev.Ok? && ParseHexByte(parts[k - 1]).Some? {
        var bs := prev.value + [ParseHexByte(parts[k - 1]).value];
        assert ParsedUpTo(parts, k) == Ok(bs);
        assert forall i :: 0 <= i < k - 1 ==> bs[i] == prev.value[i];
      } else if prev.Err? {
        assert ParsedUpTo(parts, k).Err?;
        assert !ParseHexByte(parts[k - 1]).Some? || !forall i :: 0 <= i < k - 1 ==> ParseHexByte(parts[i]).Some?;
      } else {
        assert ParsedUpTo(parts, k).Err?;
      }
    }
  }

  /** A failed parse reports the first part that is not a hexadecimal byte. */
  lemma {:induction false} ParsedErr(parts: seq<string>, k: nat) returns (i: nat)
    requires k <= |parts| && ParsedUpTo(parts, k).Err?
    ensures i < k && ParseHexByte(parts[i]).None?
    ensures forall j :: 0 <= j < i ==> ParseHexByte(parts[j]).Some?
    ensures ParsedUpTo(parts, k).error == HexError(parts[i])
  {
    if ParsedUpTo(parts, k - 1).Err? {
      i := ParsedErr(parts, k - 1);
    } else {
      ParsedOk(parts, k - 1);
      i := k - 1;
    }
  }

  /**
   * `from_str` accepts exactly six parts separated by `:` or `-`, each an
   * optional `+` and hexadecimal digits worth at most 255; the octets are
   * the parts' values.
   */
  lemma MacFromStrProps(s: string)
    ensures var parts := SplitChars(s, MacSeparators());
      MacFromStr(s).Ok? <==> |parts| == 6 && forall i :: 0 <= i < 6 ==> ParseHexByte(parts[i]).Some?
    ensures var parts := SplitChars(s, MacSeparators());
      MacFromStr(s).Ok? ==> forall i :: 0 <= i < 6 ==> MacFromStr(s).value.octets[i] == ParseHexByte(parts[i]).value
    ensures |SplitChars(s, MacSeparators())| != 6 ==> MacFromStr(s) == Err(FormatError(s))
  {
    var parts := SplitChars(s, MacSeparators());
    if |parts| == 6 {
      ParsedUpToProps(parts, 6);
    }
  }

  /** Each octet's two digits hold no separator and parse back to the octet. */
  lemma HexesParse(m: MacAddress)
    ensures forall i :: 0 <= i < 6 ==> FreeOf(Hexes(m)[i], MacSeparators())
    ensures forall i :: 0 <= i < 6 ==> ParseHexByte(Hexes(m)[i]) == Some(m.octets[i])
  {
    var hs := Hexes(m);
    forall i | 0 <= i < 6
      ensures FreeOf(hs[i], MacSeparators()) && ParseHexByte(hs[i]) == Some(m.octets[i])
    {
      assert hs[i] == HexByte(m.octets[i]);
    }
  }

  /** Joining the octets' digits with either separator parses back to the address. */
  lemma MacJoinedParses(m: MacAddress, sep: char)
    requires sep in MacSeparators()
    ensures MacFromStr(JoinWith(Hexes(m), sep)) == Ok(m)
  {
    var hs := Hexes(m);
    HexesParse(m);
    SplitJoin(hs, sep, MacSeparators());
    ParsedUpToProps(hs, 6);
    var bs := ParsedUpTo(hs, 6).value;
    assert forall i :: 0 <= i < 6 ==> bs[i] == m.octets[i];
    assert bs == m.octets;
  }

  /** `from_str(to_string(m)) == m` for every MAC address. */
  lemma MacRoundTrip(m: MacAddress)
    ensures MacFromStr(MacDisplay(m)) == Ok(m)
  {
    MacJoinedParses(m, ':');
  }

  /** `from_str`, filling a six-byte array part by part and stopping at the first bad part. */
  method ParseMac(s: string) returns (r: Result<MacAddress, string>)
    ensures r == MacFromStr(s)
  {
    var parts := SplitChars(s, MacSeparators());
    if |parts| != 6 {
      return Err(FormatError(s));
    }
    var bytes: seq<Byte> := [0, 0, 0, 0, 0, 0];
    var i := 0;
    while i < 6
      invariant 0 <= i <= 6 && |bytes| == 6
      invariant ParsedUpTo(parts, i) == Ok(bytes[..i])
    {
      match ParseHexByte(parts[i])
      case None =>
        ErrorPersists(parts, i + 1, 6);
        return Err(HexError(parts[i]));
      case Some(b) =>
        assert bytes[i := b][..i + 1] == bytes[..i] + [b];
        bytes := bytes[i := b];
        i := i + 1;
    }
    assert bytes[..6] == bytes;
    return Ok(MacAddress(bytes));
  }

  /** Once a part fails, the result stays that failure. */
  lemma {:induction false} ErrorPersists(parts: seq<string>, k: nat, n: nat)
    requires k <= n <= |parts| && ParsedUpTo(parts, k).Err?
    ensures ParsedUpTo(parts, n) == ParsedUpTo(parts, k)
    decreases n - k
  {
    if n > k {
      ErrorPersists(parts, k, n - 1);
    }
  }

  // ---------------------------------------------------------------------------
  // IPv4 subnets
  // ---------------------------------------------------------------------------

  /** `Ipv4Subnet`: the network address as a 32-bit value and a `u8` prefix length. */
  datatype Ipv4Subnet = Ipv4Subnet(network: bv32, prefixLen: Byte)

  /** `netmask`: no bits for /0, all bits from /32 on, else the top `prefix_len` bits. */
  function Netmask(s: Ipv4Subnet): bv32 {
    if s.prefixLen == 0 then 0
    else if s.prefixLen >= 32 then 0xFFFF_FFFF
    else !((1 << (32 - s.prefixLen)) - 1)
  }

  /** `contains`: the address agrees with the network on the masked bits. */
  predicate Contains(s: Ipv4Subnet, addr: bv32) {
    s.network & Netmask(s) == addr & Netmask(s)
  }

  /** A mask of `p` bits, 0 < p < 32, is all ones shifted up by `32 - p`: the top `p` bits set, the rest clear. */
  lemma NetmaskBits(s: Ipv4Subnet)
    requires 0 < s.prefixLen < 32
    ensures Netmask(s) == 0xFFFF_FFFF << (32 - s.prefixLen)
  {
    LowBitsComplement(32 - s.prefixLen);
  }

  /** Clearing the `k` low bits is the complement of `2^k - 1`. */
  lemma LowBitsComplement(k: nat)
    requires 0 < k < 32
    ensures !(((1 as bv32) << k) - 1) == 0xFFFF_FFFF << k
  {
  }

  /** Every subnet contains its own network address. */
  lemma ContainsNetwork(s: Ipv4Subnet)
    ensures Contains(s, s.network)
  {
  }

  /** /0 contains every address. */
  lemma ContainsAll(s: Ipv4Subnet, addr: bv32)
    requires s.prefixLen == 0
    ensures Contains(s, addr)
  {
    assert Netmask(s) == 0;
  }

  /** /32 and longer contain only the network address. */
  lemma ContainsOnlyNetwork(s: Ipv4Subnet, addr: bv32)
    requires s.prefixLen >= 32 && Contains(s, addr)
    ensures addr == s.network
  {
    var mask := Netmask(s);
    assert mask == 0xFFFF_FFFF;
    AllOnes(addr);
    AllOnes(s.network);
  }

  lemma AllOnes(x: bv32)
    ensures x & 0xFFFF_FFFF == x
  {
  }

  /** 192.168.1.0/24 contains 192.168.1.77 and not 192.168.2.1. */
  lemma Slash24Example()
    ensures Netmask(Ipv4Subnet(0xC0A8_0100, 24)) == 0xFFFF_FF00
    ensures Contains(Ipv4Subnet(0xC0A8_0100, 24), 0xC0A8_014D)
    ensures !Contains(Ipv4Subnet(0xC0A8_0100, 24), 0xC0A8_0201)
  {
  }
}
