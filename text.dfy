/**
 * The parts of Rust's `str` API that the netdiag parsers and formatters use:
 * `lines`, `trim`, `split_whitespace`, `split(pat)`, `contains`,
 * `trim_end_matches`, the integer and decimal `parse`, `to_lowercase`, and
 * decimal and hexadecimal formatting. Whitespace and case are ASCII only.
 */
module Text {
  import opened Wrappers

  /** `char::is_whitespace`, restricted to the ASCII whitespace characters. */
  predicate IsSpace(c: char) {
    c == ' ' || c == '\t' || c == '\n' || c == '\r' || c == '\U{0B}' || c == '\U{0C}'
  }

  predicate NoSpace(s: string) {
    forall i :: 0 <= i < |s| ==> !IsSpace(s[i])
  }

  // ---------------------------------------------------------------------------
  // Trimming
  // ---------------------------------------------------------------------------

  /** `trim_start`: drops the leading whitespace. */
  function TrimStart(s: string): (r: string)
    ensures |r| <= |s|
    ensures r == [] || !IsSpace(r[0])
  {
    if |s| > 0 && IsSpace(s[0]) then TrimStart(s[1..]) else s
  }

  /** `trim_start` keeps a suffix of its input and drops only whitespace. */
  lemma {:induction false} TrimStartDropsSpace(s: string)
    ensures TrimStart(s) == s[|s| - |TrimStart(s)|..]
    ensures forall i :: 0 <= i < |s| - |TrimStart(s)| ==> IsSpace(s[i])
  {
    if |s| > 0 && IsSpace(s[0]) {
      TrimStartDropsSpace(s[1..]);
    }
  }

  /** `trim_end`: drops the trailing whitespace. */
  function TrimEnd(s: string): (r: string)
    ensures |r| <= |s|
    ensures r == [] || !IsSpace(r[|r| - 1])
    ensures r != [] ==> r[0] == s[0]
  {
    if |s| > 0 && IsSpace(s[|s| - 1]) then TrimEnd(s[..|s| - 1]) else s
  }

  /** `trim_end` keeps a prefix of its input and drops only whitespace. */
  lemma {:induction false} TrimEndDropsSpace(s: string)
    ensures TrimEnd(s) == s[..|TrimEnd(s)|]
    ensures forall i :: |TrimEnd(s)| <= i < |s| ==> IsSpace(s[i])
  {
    if |s| > 0 && IsSpace(s[|s| - 1]) {
      TrimEndDropsSpace(s[..|s| - 1]);
    }
  }

  /** `trim`. */
  function Trim(s: string): (r: string)
    ensures r == [] || (!IsSpace(r[0]) && !IsSpace(r[|r| - 1]))
    ensures |r| <= |s|
  {
    TrimEnd(TrimStart(s))
  }

  // ---------------------------------------------------------------------------
  // Searching
  // ---------------------------------------------------------------------------

  /** `pat` occurs in `s` starting at index `k`. */
  predicate OccursAt(s: string, pat: string, k: int) {
    0 <= k && k + |pat| <= |s| && s[k..k + |pat|] == pat
  }

  /** The search of `Find` from index `from` on. */
  function FindFrom(s: string, pat: string, from: nat): (r: Option<nat>)
    requires |pat| > 0
    ensures r.Some? ==> from <= r.value && OccursAt(s, pat, r.value)
    ensures r.Some? ==> forall k :: from <= k < r.value ==> !OccursAt(s, pat, k)
    ensures r.None? ==> forall k :: from <= k ==> !OccursAt(s, pat, k)
    decreases |s| - from
  {
    if from + |pat| > |s| then None
    else if s[from..from + |pat|] == pat then Some(from)
    else FindFrom(s, pat, from + 1)
  }

  /** `str::find`: the index of the first occurrence of `pat`. */
  function Find(s: string, pat: string): (r: Option<nat>)
    requires |pat| > 0
    ensures r.Some? ==> OccursAt(s, pat, r.value)
    ensures r.Some? ==> forall k :: 0 <= k < r.value ==> !OccursAt(s, pat, k)
    ensures r.None? ==> forall k :: !OccursAt(s, pat, k)
  {
    FindFrom(s, pat, 0)
  }

  /** `str::contains`. */
  predicate Contains(s: string, pat: string)
    requires |pat| > 0
  {
    Find(s, pat).Some?
  }

  /** `s.split(pat).next()`: the text before the first occurrence of `pat`. */
  function SplitFirst(s: string, pat: string): (r: string)
    requires |pat| > 0
    ensures r <= s
  {
    match Find(s, pat)
    case None => s
    case Some(i) => s[..i]
  }

  /**
   * `s.split(pat).nth(1)`: the text between the first occurrence of `pat` and
   * the next one (or the end of `s`); `None` when `pat` does not occur.
   */
  function SplitSecond(s: string, pat: string): (r: Option<string>)
    requires |pat| > 0
    ensures r.Some? <==> Contains(s, pat)
  {
    match Find(s, pat)
    case None => None
    case Some(i) =>
      var rest := s[i + |pat|..];
      Some(SplitFirst(rest, pat))
  }

  /** `split(|c| seps.contains(c))`: the pieces between separator characters. */
  function SplitChars(s: string, seps: set<char>): (r: seq<string>)
    ensures |r| >= 1
  {
    if s == [] then [[]]
    else
      var rest := SplitChars(s[1..], seps);
      if s[0] in seps then [[]] + rest else [[s[0]] + rest[0]] + rest[1..]
  }

  /** The pieces of a non-empty list, joined by `sep`. */
  function JoinWith(parts: seq<string>, sep: char): (s: string)
    requires |parts| >= 1
  {
    if |parts| == 1 then parts[0] else parts[0] + [sep] + JoinWith(parts[1..], sep)
  }

  /** `join(sep)`: the pieces joined by the string `sep`, and empty for no pieces. */
  function JoinStr(parts: seq<string>, sep: string): string {
    if |parts| == 0 then [] else if |parts| == 1 then parts[0] else parts[0] + sep + JoinStr(parts[1..], sep)
  }

  /** No character of `s` is a separator. */
  predicate FreeOf(s: string, seps: set<char>) {
    forall i :: 0 <= i < |s| ==> s[i] !in seps
  }

  /** A leading non-separator joins the first piece of what follows it. */
  lemma SplitCons(c: char, s: string, seps: set<char>)
    requires c !in seps
    ensures SplitChars([c] + s, seps) == [[c] + SplitChars(s, seps)[0]] + SplitChars(s, seps)[1..]
  {
    assert ([c] + s)[1..] == s;
  }

  /** A separator-free prefix joins the first piece of what follows it. */
  lemma {:induction false} SplitFreePrefix(p: string, rest: string, seps: set<char>)
    requires FreeOf(p, seps)
    ensures SplitChars(p + rest, seps)
         == [p + SplitChars(rest, seps)[0]] + SplitChars(rest, seps)[1..]
  {
    var tail := SplitChars(rest, seps);
    if p != [] {
      assert FreeOf(p[1..], seps);
      SplitFreePrefix(p[1..], rest, seps);
      assert p + rest == [p[0]] + (p[1..] + rest);
      SplitCons(p[0], p[1..] + rest, seps);
      assert [p[0]] + (p[1..] + tail[0]) == p + tail[0];
    } else {
      assert p + rest == rest && p + tail[0] == tail[0];
      assert tail == [tail[0]] + tail[1..];
    }
  }

  /** Splitting a join gives back the pieces when none of them holds a separator. */
  lemma {:induction false} SplitJoin(parts: seq<string>, sep: char, seps: set<char>)
    requires |parts| >= 1 && sep in seps
    requires forall i :: 0 <= i < |parts| ==> FreeOf(parts[i], seps)
    ensures SplitChars(JoinWith(parts, sep), seps) == parts
  {
    if |parts| == 1 {
      SplitFreePrefix(parts[0], [], seps);
      assert parts[0] + [] == parts[0];
    } else {
      var tail := JoinWith(parts[1..], sep);
      SplitJoin(parts[1..], sep, seps);
      assert JoinWith(parts, sep) == parts[0] + ([sep] + tail);
      SplitFreePrefix(parts[0], [sep] + tail, seps);
      assert ([sep] + tail)[1..] == tail;
      var u := SplitChars([sep] + tail, seps);
      assert u == [[]] + parts[1..];
      assert parts[0] + u[0] == parts[0];
      assert parts == [parts[0]] + parts[1..];
    }
  }

  /** `starts_with`. */
  predicate StartsWith(s: string, pat: string) {
    pat <= s
  }

  /** `ends_with`. */
  predicate EndsWith(s: string, pat: string) {
    |pat| <= |s| && s[|s| - |pat|..] == pat
  }

  /** `trim_end_matches(pat)`: strips every trailing repetition of `pat`. */
  function TrimEndMatches(s: string, pat: string): (r: string)
    requires |pat| > 0
    ensures r <= s
    ensures !EndsWith(r, pat)
  {
    if EndsWith(s, pat) then TrimEndMatches(s[..|s| - |pat|], pat) else s
  }

  // ---------------------------------------------------------------------------
  // Lines and whitespace tokens
  // ---------------------------------------------------------------------------

  /** Drops one trailing carriage return. */
  function StripCr(s: string): string {
    if |s| > 0 && s[|s| - 1] == '\r' then s[..|s| - 1] else s
  }

  /**
   * `str::lines`: the pieces between line feeds; a line ended by a line feed
   * loses one trailing carriage return, and a final line feed does not start
   * an empty last line.
   */
  function Lines(s: string): (r: seq<string>)
    ensures s == [] <==> r == []
    decreases |s|
  {
    if s == [] then []
    else match Find(s, "\n")
      case None => [s]
      case Some(i) => [StripCr(s[..i])] + Lines(s[i + 1..])
  }

  /** The longest prefix of `s` that holds no whitespace. */
  function Word(s: string): (w: string)
    ensures w <= s && NoSpace(w)
    ensures |w| < |s| ==> IsSpace(s[|w|])
  {
    if |s| == 0 || IsSpace(s[0]) then [] else [s[0]] + Word(s[1..])
  }

  /** `split_whitespace`: the maximal runs of non-whitespace characters. */
  function Tokens(s: string): (r: seq<string>)
    ensures forall i :: 0 <= i < |r| ==> |r[i]| > 0 && NoSpace(r[i])
    decreases |s|
  {
    var t := TrimStart(s);
    if t == [] then []
    else
      var w := Word(t);
      [w] + Tokens(t[|w|..])
  }

  /** `split_whitespace().next()`. */
  function FirstToken(s: string): (r: Option<string>)
    ensures r.Some? ==> |r.value| > 0 && NoSpace(r.value)
  {
    var ts := Tokens(s);
    if ts == [] then None else Some(ts[0])
  }

  // ---------------------------------------------------------------------------
  // Decimal numbers
  // ---------------------------------------------------------------------------

  predicate IsDigit(c: char) {
    '0' <= c <= '9'
  }

  predicate AllDigits(s: string) {
    forall i :: 0 <= i < |s| ==> IsDigit(s[i])
  }

  function DigitValue(c: char): (d: nat)
    requires IsDigit(c)
    ensures d < 10
  {
    c as int - '0' as int
  }

  function DigitChar(d: nat): (c: char)
    requires d < 10
    ensures IsDigit(c) && DigitValue(c) == d
  {
    ('0' as int + d) as char
  }

  /** The value of a string of decimal digits, most significant first. */
  function DecimalValue(s: string): nat
    requires AllDigits(s)
  {
    if s == [] then 0 else DecimalValue(s[..|s| - 1]) * 10 + DigitValue(s[|s| - 1])
  }

  function Pow10(n: nat): (p: nat)
    ensures p >= 1
  {
    if n == 0 then 1 else 10 * Pow10(n - 1)
  }

  /** The decimal display of `n` (Rust's `{}` formatting of an unsigned integer). */
  function NatToString(n: nat): (s: string)
    ensures |s| > 0 && AllDigits(s)
    ensures DecimalValue(s) == n
    ensures |s| == 1 || s[0] != '0'
  {
    if n < 10 then [DigitChar(n)]
    else
      var s := NatToString(n / 10) + [DigitChar(n % 10)];
      assert s[..|s| - 1] == NatToString(n / 10);
      s
  }

  /** The largest `u8` and the largest `u32`. */
  const U8Max: nat := 255
  const U32Max: nat := 0xFFFF_FFFF

  /** A `u8` value. */
  type Byte = x: nat | x <= U8Max

  /**
   * `str::parse` of an unsigned integer type whose largest value is `max`:
   * an optional `+`, then one or more ASCII digits, with a value that fits.
   */
  function ParseUnsigned(s: string, max: nat): (r: Option<nat>)
    ensures r.Some? ==> r.value <= max
    ensures r.Some? ==> |s| > 0 && (IsDigit(s[0]) || s[0] == '+')
  {
    var ds := if |s| > 0 && s[0] == '+' then s[1..] else s;
    if |ds| > 0 && AllDigits(ds) && DecimalValue(ds) <= max then Some(DecimalValue(ds)) else None
  }

  lemma ParseUnsignedDisplay(n: nat, max: nat)
    requires n <= max
    ensures ParseUnsigned(NatToString(n), max) == Some(n)
  {
  }

  /**
   * `str::parse::<f64>` on the plain decimal forms: an optional `+`, then
   * digits with an optional fractional part (`12`, `1.234`, `1.`, `.5`).
   */
  function ParseDecimal(s: string): (r: Option<real>)
    ensures r.Some? ==> r.value >= 0.0
  {
    var body := if |s| > 0 && s[0] == '+' then s[1..] else s;
    match Find(body, ".")
    case None =>
      if |body| > 0 && AllDigits(body) then Some(DecimalValue(body) as real) else None
    case Some(i) =>
      var whole, frac := body[..i], body[i + 1..];
      if |whole| + |frac| > 0 && AllDigits(whole) && AllDigits(frac)
      then Some(DecimalValue(whole) as real + DecimalValue(frac) as real / Pow10(|frac|) as real)
      else None
  }

  // ---------------------------------------------------------------------------
  // Hexadecimal numbers
  // ---------------------------------------------------------------------------

  predicate IsHexDigit(c: char) {
    IsDigit(c) || 'a' <= c <= 'f' || 'A' <= c <= 'F'
  }

  predicate AllHexDigits(s: string) {
    forall i :: 0 <= i < |s| ==> IsHexDigit(s[i])
  }

  function HexDigitValue(c: char): (d: nat)
    requires IsHexDigit(c)
    ensures d < 16
  {
    if IsDigit(c) then DigitValue(c)
    else if 'a' <= c <= 'f' then c as int - 'a' as int + 10
    else c as int - 'A' as int + 10
  }

  /** The upper-case hexadecimal digit of `d`. */
  function HexDigitChar(d: nat): (c: char)
    requires d < 16
    ensures IsHexDigit(c) && HexDigitValue(c) == d
  {
    if d < 10 then DigitChar(d) else ('A' as int + (d - 10)) as char
  }

  function HexValue(s: string): nat
    requires AllHexDigits(s)
  {
    if s == [] then 0 else HexValue(s[..|s| - 1]) * 16 + HexDigitValue(s[|s| - 1])
  }

  /**
   * `u8::from_str_radix(s, 16)`: an optional `+`, then one or more hexadecimal
   * digits of either case, with a value below 256.
   */
  function ParseHexByte(s: string): (r: Option<nat>)
    ensures r.Some? ==> r.value < 256
  {
    var ds := if |s| > 0 && s[0] == '+' then s[1..] else s;
    if |ds| > 0 && AllHexDigits(ds) && HexValue(ds) < 256 then Some(HexValue(ds)) else None
  }

  /** `{:02X}`: a byte as exactly two upper-case hexadecimal digits. */
  function HexByte(b: nat): (s: string)
    requires b < 256
    ensures |s| == 2 && AllHexDigits(s) && HexValue(s) == b
    ensures s[0] != '+' && s[0] != ':' && s[0] != '-' && s[1] != ':' && s[1] != '-'
  {
    var s := [HexDigitChar(b / 16), HexDigitChar(b % 16)];
    assert s[..1] == [HexDigitChar(b / 16)];
    assert s[..1][..0] == [];
    assert HexValue(s[..1]) == b / 16;
    s
  }

  // ---------------------------------------------------------------------------
  // Case
  // ---------------------------------------------------------------------------

  function LowerChar(c: char): char {
    if 'A' <= c <= 'Z' then (c as int + 32) as char else c
  }

  /** `to_lowercase`, ASCII letters only. */
  function ToLower(s: string): (r: string)
    ensures |r| == |s|
    ensures forall i :: 0 <= i < |s| ==> r[i] == LowerChar(s[i])
  {
    if s == [] then [] else [LowerChar(s[0])] + ToLower(s[1..])
  }
  /** Lower-casing leaves a text without capital letters unchanged. */
  lemma LowerFixed(s: string)
    requires forall i :: 0 <= i < |s| ==> !('A' <= s[i] <= 'Z')
    ensures ToLower(s) == s
  {
    assert forall i :: 0 <= i < |s| ==> ToLower(s)[i] == s[i];
  }

}
