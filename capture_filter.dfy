/**
 * Capture filters (crates/netdiag-capture, filter.rs): BPF filter strings
 * built from primitives and combined with `and`, `or` and `not`, where the
 * empty filter captures everything. An address enters a builder as its
 * display text.
 */
module CaptureFilters {
  import opened Text

  /** `CaptureFilter`: the raw BPF string; empty means "capture all". */
  datatype CaptureFilter = CaptureFilter(filter: string)

  /** `CaptureFilter::all` and `Default`. */
  function All(): CaptureFilter {
    CaptureFilter("")
  }

  function Host(addr: string): CaptureFilter {
    CaptureFilter("host " + addr)
  }

  function SrcHost(addr: string): CaptureFilter {
    CaptureFilter("src host " + addr)
  }

  function DstHost(addr: string): CaptureFilter {
    CaptureFilter("dst host " + addr)
  }

  function Port(port: nat): CaptureFilter
    requires port < 0x1_0000
  {
    CaptureFilter("port " + NatToString(port))
  }

  function SrcPort(port: nat): CaptureFilter
    requires port < 0x1_0000
  {
    CaptureFilter("src port " + NatToString(port))
  }

  function DstPort(port: nat): CaptureFilter
    requires port < 0x1_0000
  {
    CaptureFilter("dst port " + NatToString(port))
  }

  /** `CaptureFilter::protocol`: the protocol name in lower case. */
  function Protocol(proto: string): CaptureFilter {
    CaptureFilter(ToLower(proto))
  }

  function Tcp(): CaptureFilter {
    Protocol("tcp")
  }

  function Udp(): CaptureFilter {
    Protocol("udp")
  }

  function Icmp(): CaptureFilter {
    Protocol("icmp")
  }

  function Dns(): CaptureFilter {
    CaptureFilter("port 53")
  }

  function Http(): CaptureFilter {
    CaptureFilter("port 80 or port 443")
  }

  /** `is_empty`. */
  predicate IsEmpty(f: CaptureFilter) {
    f.filter == []
  }

  /** `and`: an empty operand yields the other one; otherwise both are parenthesised. */
  function And(a: CaptureFilter, b: CaptureFilter): (r: CaptureFilter)
    ensures IsEmpty(a) ==> r == b
    ensures !IsEmpty(a) && IsEmpty(b) ==> r == a
    ensures IsEmpty(r) <==> IsEmpty(a) && IsEmpty(b)
    ensures !IsEmpty(a) && !IsEmpty(b) ==> |r.filter| == |a.filter| + |b.filter| + 9
  {
    if IsEmpty(a) then b
    else if IsEmpty(b) then a
    else CaptureFilter("(" + a.filter + ") and (" + b.filter + ")")
  }

  /** `or`: an empty operand yields the other one; otherwise both are parenthesised. */
  function Or(a: CaptureFilter, b: CaptureFilter): (r: CaptureFilter)
    ensures IsEmpty(a) ==> r == b
    ensures !IsEmpty(a) && IsEmpty(b) ==> r == a
    ensures IsEmpty(r) <==> IsEmpty(a) && IsEmpty(b)
    ensures !IsEmpty(a) && !IsEmpty(b) ==> |r.filter| == |a.filter| + |b.filter| + 8
  {
    if IsEmpty(a) then b
    else if IsEmpty(b) then a
    else CaptureFilter("(" + a.filter + ") or (" + b.filter + ")")
  }

  /** `not`: the empty filter stays empty (it is not turned into "capture nothing"). */
  function Not(f: CaptureFilter): (r: CaptureFilter)
    ensures IsEmpty(r) <==> IsEmpty(f)
    ensures IsEmpty(f) ==> r == f
  {
    if IsEmpty(f) then f else CaptureFilter("not (" + f.filter + ")")
  }

  /** `Display`: "(all)" for the empty filter, the filter string otherwise. */
  function Display(f: CaptureFilter): (s: string)
    ensures |s| > 0
    ensures IsEmpty(f) ==> s == "(all)"
  {
    if IsEmpty(f) then "(all)" else f.filter
  }

  // ---------------------------------------------------------------------------
  // Parenthesis balance
  // ---------------------------------------------------------------------------

  /** Opening minus closing parentheses. */
  function Depth(s: string): int {
    if s == [] then 0
    else Depth(s[..|s| - 1]) + (if s[|s| - 1] == '(' then 1 else if s[|s| - 1] == ')' then -1 else 0)
  }

  /** Every prefix closes no more parentheses than it opened, and the whole closes them all. */
  predicate Balanced(s: string) {
    Depth(s) == 0 && forall k :: 0 <= k <= |s| ==> Depth(s[..k]) >= 0
  }

  lemma {:induction false} DepthAppend(a: string, b: string)
    ensures Depth(a + b) == Depth(a) + Depth(b)
  {
    if b != [] {
      assert (a + b)[..|a + b| - 1] == a + b[..|b| - 1];
      DepthAppend(a, b[..|b| - 1]);
    } else {
      assert a + b == a;
    }
  }

  /** Concatenating balanced strings, or wrapping one in parentheses, keeps balance. */
  lemma BalancedAppend(a: string, b: string)
    requires Balanced(a) && Balanced(b)
    ensures Balanced(a + b)
  {
    DepthAppend(a, b);
    forall k | 0 <= k <= |a + b|
      ensures Depth((a + b)[..k]) >= 0
    {
      if k <= |a| {
        assert (a + b)[..k] == a[..k];
      } else {
        assert (a + b)[..k] == a + b[..k - |a|];
        DepthAppend(a, b[..k - |a|]);
      }
    }
  }

  /** Text without parentheses is balanced. */
  lemma {:induction false} NoParensBalanced(s: string)
    requires FreeOf(s, {'(', ')'})
    ensures Balanced(s)
    ensures forall k :: 0 <= k <= |s| ==> Depth(s[..k]) == 0
  {
    if s != [] {
      var init := s[..|s| - 1];
      assert FreeOf(init, {'(', ')'}) by {
        forall i | 0 <= i < |init| ensures init[i] !in {'(', ')'} { assert init[i] == s[i]; }
      }
      NoParensBalanced(init);
      forall k | 0 <= k <= |s| ensures Depth(s[..k]) == 0
      {
        if k < |s| {
          assert s[..k] == init[..k];
        } else {
          assert s[..k] == s;
          assert s[|s| - 1] !in {'(', ')'};
        }
      }
    }
  }

  lemma Wrapped(s: string)
    requires Balanced(s)
    ensures Balanced("(" + s + ")")
    ensures forall k :: 1 <= k < |s| + 2 ==> Depth(("(" + s + ")")[..k]) >= 1
  {
    var w := "(" + s + ")";
    DepthAppend("(" + s, ")");
    DepthAppend("(", s);
    assert Depth("(") == 1 by { assert "("[..0] == []; }
    assert Depth(")") == -1 by { assert ")"[..0] == []; }
    forall k | 1 <= k <= |w| ensures Depth(w[..k]) >= if k < |w| then 1 else 0
    {
      if k < |w| {
        assert w[..k] == "(" + s[..k - 1];
        DepthAppend("(", s[..k - 1]);
      } else {
        assert w[..k] == w;
      }
    }
    assert w[..0] == [];
  }

  /** Filters built without parenthesised text in their primitives. */
  predicate WellFormed(f: CaptureFilter) {
    Balanced(f.filter)
  }

  /** Two balanced strings in parentheses around an operator without parentheses. */
  lemma Joined(a: string, op: string, b: string)
    requires Balanced(a) && Balanced(b) && FreeOf(op, {'(', ')'})
    ensures Balanced("(" + a + ")" + op + "(" + b + ")")
  {
    Wrapped(a);
    Wrapped(b);
    NoParensBalanced(op);
    BalancedAppend("(" + a + ")", op);
    BalancedAppend("(" + a + ")" + op, "(" + b + ")");
    assert "(" + a + ")" + op + "(" + b + ")" == ("(" + a + ")" + op) + ("(" + b + ")");
  }

  /** `and` keeps a filter's parentheses balanced. */
  lemma AndBalanced(a: CaptureFilter, b: CaptureFilter)
    requires WellFormed(a) && WellFormed(b)
    ensures WellFormed(And(a, b))
  {
    if !IsEmpty(a) && !IsEmpty(b) {
      Joined(a.filter, " and ", b.filter);
      assert "(" + a.filter + ") and (" + b.filter + ")" == "(" + a.filter + ")" + " and " + "(" + b.filter + ")";
    }
  }

  /** `or` keeps a filter's parentheses balanced. */
  lemma OrBalanced(a: CaptureFilter, b: CaptureFilter)
    requires WellFormed(a) && WellFormed(b)
    ensures WellFormed(Or(a, b))
  {
    if !IsEmpty(a) && !IsEmpty(b) {
      Joined(a.filter, " or ", b.filter);
      assert "(" + a.filter + ") or (" + b.filter + ")" == "(" + a.filter + ")" + " or " + "(" + b.filter + ")";
    }
  }

  /** `not` keeps a filter's parentheses balanced. */
  lemma NotBalanced(f: CaptureFilter)
    requires WellFormed(f)
    ensures WellFormed(Not(f))
  {
    if !IsEmpty(f) {
      Wrapped(f.filter);
      NoParensBalanced("not ");
      BalancedAppend("not ", "(" + f.filter + ")");
      assert "not (" + f.filter + ")" == "not " + ("(" + f.filter + ")");
    }
  }

  /** A fixed prefix without parentheses followed by a text without them is balanced. */
  lemma PrimitiveBalanced(prefix: string, s: string)
    requires FreeOf(prefix, {'(', ')'}) && FreeOf(s, {'(', ')'})
    ensures Balanced(prefix + s)
  {
    NoParensBalanced(prefix);
    NoParensBalanced(s);
    BalancedAppend(prefix, s);
  }

  /** The host builders yield non-empty well-formed filters for an address without parentheses. */
  lemma HostsWellFormed(addr: string)
    requires FreeOf(addr, {'(', ')'})
    ensures WellFormed(Host(addr)) && WellFormed(SrcHost(addr)) && WellFormed(DstHost(addr))
    ensures !IsEmpty(Host(addr)) && !IsEmpty(SrcHost(addr)) && !IsEmpty(DstHost(addr))
  {
    PrimitiveBalanced("host ", addr);
    PrimitiveBalanced("src host ", addr);
    PrimitiveBalanced("dst host ", addr);
  }

  /** The port builders yield non-empty well-formed filters. */
  lemma PortsWellFormed(port: nat)
    requires port < 0x1_0000
    ensures WellFormed(Port(port)) && WellFormed(SrcPort(port)) && WellFormed(DstPort(port))
    ensures !IsEmpty(Port(port)) && !IsEmpty(SrcPort(port)) && !IsEmpty(DstPort(port))
  {
    var digits := NatToString(port);
    assert FreeOf(digits, {'(', ')'}) by {
      forall i | 0 <= i < |digits| ensures digits[i] !in {'(', ')'} { assert IsDigit(digits[i]); }
    }
    PrimitiveBalanced("port ", digits);
    PrimitiveBalanced("src port ", digits);
    PrimitiveBalanced("dst port ", digits);
  }

  /**
   * `protocol` yields a well-formed filter for a name without parentheses,
   * empty only for the empty name; the named protocols and `dns` and `http`
   * are non-empty and well-formed.
   */
  lemma ProtocolsWellFormed(proto: string)
    requires FreeOf(proto, {'(', ')'})
    ensures WellFormed(Protocol(proto)) && (IsEmpty(Protocol(proto)) <==> proto == [])
    ensures WellFormed(Tcp()) && WellFormed(Udp()) && WellFormed(Icmp())
    ensures WellFormed(Dns()) && WellFormed(Http())
    ensures !IsEmpty(Tcp()) && !IsEmpty(Udp()) && !IsEmpty(Icmp()) && !IsEmpty(Dns()) && !IsEmpty(Http())
  {
    LowerBalanced(proto);
    LowerBalanced("tcp");
    LowerBalanced("udp");
    LowerBalanced("icmp");
    NoParensBalanced("port 53");
    NoParensBalanced("port 80 or port 443");
  }

  /** Lower-casing a text without parentheses gives a balanced one. */
  lemma LowerBalanced(q: string)
    requires FreeOf(q, {'(', ')'})
    ensures Balanced(ToLower(q))
  {
    var lq := ToLower(q);
    assert FreeOf(lq, {'(', ')'}) by {
      forall i | 0 <= i < |lq| ensures lq[i] !in {'(', ')'} { assert lq[i] == LowerChar(q[i]); }
    }
    NoParensBalanced(lq);
  }

  /**
   * A combined filter keeps each non-empty operand whole, in parentheses,
   * so the operand is read as one unit whatever operators it contains.
   */
  lemma AndOperands(a: CaptureFilter, b: CaptureFilter)
    requires !IsEmpty(a) && !IsEmpty(b)
    ensures var r := And(a, b).filter;
      r[..|a.filter| + 2] == "(" + a.filter + ")" && r[|r| - |b.filter| - 2..] == "(" + b.filter + ")"
  {
  }

  lemma TwoDigits(n: nat)
    requires 10 <= n < 100
    ensures NatToString(n) == [DigitChar(n / 10), DigitChar(n % 10)]
  {
  }

  lemma ThreeDigits(n: nat)
    requires 100 <= n < 1000
    ensures NatToString(n) == [DigitChar(n / 100), DigitChar(n / 10 % 10), DigitChar(n % 10)]
  {
    TwoDigits(n / 10);
  }

  /** `port(80)`. */
  lemma Port80()
    ensures Port(80).filter == "port 80"
  {
    TwoDigits(80);
  }

  /** `port(443)`. */
  lemma Port443()
    ensures Port(443).filter == "port 443"
  {
    ThreeDigits(443);
  }

  /** `tcp().and(port(80))`. */
  lemma TcpAndPort80()
    ensures And(Tcp(), Port(80)).filter == "(tcp) and (port 80)"
  {
    Port80();
    assert ToLower("tcp") == "tcp";
  }

  /** `port(80).or(port(443))`. */
  lemma Port80OrPort443()
    ensures Or(Port(80), Port(443)).filter == "(port 80) or (port 443)"
  {
    Port80();
    Port443();
  }
}
