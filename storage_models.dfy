/**
 * Stored session kinds (crates/netdiag-storage, models.rs): the session
 * type and status enumerations and their lower-case text forms, parsed
 * case-insensitively.
 */
module StorageModels {
  import opened Wrappers
  import opened Text

  /** `SessionType`. */
  datatype SessionType = Quick | Full | Scheduled | Manual

  /** `SessionStatus`. */
  datatype SessionStatus = Running | Completed | Failed | Cancelled

  /** `SessionType::as_str`. */
  function TypeAsStr(t: SessionType): (s: string)
    ensures s != [] && forall i :: 0 <= i < |s| ==> 'a' <= s[i] <= 'z'
  {
    match t
    case Quick => "quick"
    case Full => "full"
    case Scheduled => "scheduled"
    case Manual => "manual"
  }

  /**
   * `SessionType::from_str`: the type whose text is `s` in lower case, else
   * the error "Unknown session type: {s}".
   */
  function TypeFromStr(s: string): (r: Result<SessionType, string>)
    ensures r.Ok? ==> TypeAsStr(r.value) == ToLower(s)
    ensures r.Err? ==> r.error == "Unknown session type: " + s
  {
    var l := ToLower(s);
    if l == "quick" then Ok(Quick)
    else if l == "full" then Ok(Full)
    else if l == "scheduled" then Ok(Scheduled)
    else if l == "manual" then Ok(Manual)
    else Err("Unknown session type: " + s)
  }

  /** `SessionStatus::as_str`. */
  function StatusAsStr(t: SessionStatus): (s: string)
    ensures s != [] && forall i :: 0 <= i < |s| ==> 'a' <= s[i] <= 'z'
  {
    match t
    case Running => "running"
    case Completed => "completed"
    case Failed => "failed"
    case Cancelled => "cancelled"
  }

  /**
   * `SessionStatus::from_str`: the status whose text is `s` in lower case,
   * else the error "Unknown session status: {s}".
   */
  function StatusFromStr(s: string): (r: Result<SessionStatus, string>)
    ensures r.Ok? ==> StatusAsStr(r.value) == ToLower(s)
    ensures r.Err? ==> r.error == "Unknown session status: " + s
  {
    var l := ToLower(s);
    if l == "running" then Ok(Running)
    else if l == "completed" then Ok(Completed)
    else if l == "failed" then Ok(Failed)
    else if l == "cancelled" then Ok(Cancelled)
    else Err("Unknown session status: " + s)
  }

  /** The texts are already in lower case. */
  lemma AsStrLower(t: SessionType, u: SessionStatus)
    ensures ToLower(TypeAsStr(t)) == TypeAsStr(t)
    ensures ToLower(StatusAsStr(u)) == StatusAsStr(u)
  {
    LowerFixed(TypeAsStr(t));
    LowerFixed(StatusAsStr(u));
  }

  /**
   * Parsing is case-insensitive and inverts `as_str`: any text that
   * lower-cases to a type's text parses to that type.
   */
  lemma TypeRoundTrip(t: SessionType, s: string)
    requires ToLower(s) == TypeAsStr(t)
    ensures TypeFromStr(s) == Ok(t)
  {
  }

  /** The same for statuses. */
  lemma StatusRoundTrip(t: SessionStatus, s: string)
    requires ToLower(s) == StatusAsStr(t)
    ensures StatusFromStr(s) == Ok(t)
  {
  }

  /** A text that lower-cases to no type's text is rejected. */
  lemma TypeUnknown(s: string)
    requires forall t: SessionType :: ToLower(s) != TypeAsStr(t)
    ensures TypeFromStr(s).Err?
  {
  }

  /** A text that lower-cases to no status's text is rejected. */
  lemma StatusUnknown(s: string)
    requires forall t: SessionStatus :: ToLower(s) != StatusAsStr(t)
    ensures StatusFromStr(s).Err?
  {
  }

  /** For instance, "QUICK" parses as a quick session. */
  lemma UpperCaseExample()
    ensures TypeFromStr("QUICK") == Ok(Quick)
  {
    var l := ToLower("QUICK");
    assert l[0] == 'q' && l[1] == 'u' && l[2] == 'i' && l[3] == 'c' && l[4] == 'k';
    assert l == "quick";
  }

  /** "quickly" is not a session type. */
  lemma LongerTextRejected()
    ensures TypeFromStr("quickly").Err?
  {
    assert |ToLower("quickly")| == 7;
  }
}
