/**
 * SSL Labs grades (crates/netdiag-integrations, ssllabs.rs): the grade
 * enumeration, its text form in both directions, and the passing grades.
 */
module SslGrades {
  import opened Wrappers

  /** `SslGrade`, best to worst, then the trust (T) and mismatch (M) grades. */
  datatype SslGrade = APlus | A | AMinus | B | C | D | E | F | T | M

  /** `SslGrade::as_str`. */
  function AsStr(g: SslGrade): (s: string)
    ensures 1 <= |s| <= 2
  {
    match g
    case APlus => "A+"
    case A => "A"
    case AMinus => "A-"
    case B => "B"
    case C => "C"
    case D => "D"
    case E => "E"
    case F => "F"
    case T => "T"
    case M => "M"
  }

  /** `SslGrade::from_str`: the grade whose text is exactly `s`, else `None`. */
  function FromStr(s: string): (r: Option<SslGrade>)
    ensures r.Some? ==> AsStr(r.value) == s
  {
    if s == "A+" then Some(APlus)
    else if s == "A" then Some(A)
    else if s == "A-" then Some(AMinus)
    else if s == "B" then Some(B)
    else if s == "C" then Some(C)
    else if s == "D" then Some(D)
    else if s == "E" then Some(E)
    else if s == "F" then Some(F)
    else if s == "T" then Some(T)
    else if s == "M" then Some(M)
    else None
  }

  /** Every grade reads back from its own text. */
  lemma FromStrAsStr(g: SslGrade)
    ensures FromStr(AsStr(g)) == Some(g)
  {
  }

  /** A text is parsed exactly when it is some grade's text; any other text gives `None`. */
  lemma FromStrExact(s: string)
    ensures FromStr(s).None? <==> forall g: SslGrade :: AsStr(g) != s
  {
    if FromStr(s).None? {
      forall g: SslGrade ensures AsStr(g) != s {
        FromStrAsStr(g);
      }
    }
  }

  /** No two grades share a text. */
  lemma AsStrInjective(g: SslGrade, h: SslGrade)
    requires AsStr(g) == AsStr(h)
    ensures g == h
  {
    FromStrAsStr(g);
    FromStrAsStr(h);
  }

  /** `is_passing`: A+, A, A- and B. */
  predicate IsPassing(g: SslGrade) {
    g.APlus? || g.A? || g.AMinus? || g.B?
  }

  /** The passing grades are exactly those whose text starts with 'A', and "B". */
  lemma PassingTexts(g: SslGrade)
    ensures IsPassing(g) <==> AsStr(g)[0] == 'A' || AsStr(g) == "B"
  {
  }
}
