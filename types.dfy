// Shared value types of the backend: the string unions of the record
// declarations, the result envelope of the store helpers, the caller's
// authentication context and the two shapes a stored time can take.
module Types {
  import opened Wrappers

  /** The four states of a meeting. */
  datatype MeetingStatus = Pending | Accepted | Rejected | Cancelled

  function StatusText(s: MeetingStatus): (r: string)
    ensures r in {"pending", "accepted", "rejected", "cancelled"}
  {
    match s
    case Pending => "pending"
    case Accepted => "accepted"
    case Rejected => "rejected"
    case Cancelled => "cancelled"
  }

  /** The status a stored text names, if any. */
  function StatusOf(t: string): (r: Option<MeetingStatus>)
    ensures r.Some? ==> StatusText(r.value) == t
  {
    if t == "pending" then Some(Pending)
    else if t == "accepted" then Some(Accepted)
    else if t == "rejected" then Some(Rejected)
    else if t == "cancelled" then Some(Cancelled)
    else None
  }

  /** Each status is stored as its own text, and reading that text back gives the status. */
  lemma StatusTextRoundTrip(s: MeetingStatus, s': MeetingStatus)
    ensures StatusOf(StatusText(s)) == Some(s)
    ensures StatusText(s) == StatusText(s') ==> s == s'
  {
    match s
    case Pending =>
    case Accepted => assert StatusText(s) != "pending";
    case Rejected => assert StatusText(s) != "pending" && StatusText(s) != "accepted";
    case Cancelled => assert StatusText(s) != "pending" && StatusText(s) != "accepted" && StatusText(s) != "rejected";
  }

  /** The `acknowledgment_signed` tri-state of a user record. */
  datatype AcknowledgmentSigned = Yes | No | NotApplicable

  function AcknowledgmentText(a: AcknowledgmentSigned): (r: string)
    ensures r in {"yes", "no", "not_applicable"}
  {
    match a
    case Yes => "yes"
    case No => "no"
    case NotApplicable => "not_applicable"
  }

  function AcknowledgmentOf(t: string): (r: Option<AcknowledgmentSigned>)
    ensures r.Some? ==> AcknowledgmentText(r.value) == t
  {
    if t == "yes" then Some(Yes)
    else if t == "no" then Some(No)
    else if t == "not_applicable" then Some(NotApplicable)
    else None
  }

  lemma AcknowledgmentTextRoundTrip(a: AcknowledgmentSigned, a': AcknowledgmentSigned)
    ensures AcknowledgmentOf(AcknowledgmentText(a)) == Some(a)
    ensures AcknowledgmentText(a) == AcknowledgmentText(a') ==> a == a'
  {
    match a
    case Yes =>
    case No => assert AcknowledgmentText(a) != "yes";
    case NotApplicable => assert AcknowledgmentText(a) != "yes" && AcknowledgmentText(a) != "no";
  }

  datatype Priority = High | Medium | Low | NoPriority

  /** Who an announcement is meant for, as stored. */
  datatype Audience = Mentors | Mentees | Both

  function AudienceText(a: Audience): (r: string)
    ensures r in {"mentors", "mentees", "both"}
  {
    match a
    case Mentors => "mentors"
    case Mentees => "mentees"
    case Both => "both"
  }

  function AudienceOf(t: string): (r: Option<Audience>)
    ensures r.Some? ==> AudienceText(r.value) == t
  {
    if t == "mentors" then Some(Mentors)
    else if t == "mentees" then Some(Mentees)
    else if t == "both" then Some(Both)
    else None
  }

  lemma AudienceTextRoundTrip(a: Audience, a': Audience)
    ensures AudienceOf(AudienceText(a)) == Some(a)
    ensures AudienceText(a) == AudienceText(a') ==> a == a'
  {
    match a
    case Mentors =>
    case Mentees => assert AudienceText(a) != "mentors";
    case Both => assert AudienceText(a) != "mentors" && AudienceText(a) != "mentees";
  }

  /** The envelope returned by the store helpers. */
  datatype DatabaseResult<T> = DatabaseResult(
    success: bool,
    data: Option<T>,
    error: Option<string>,
    message: Option<string>)

  /** The identity extracted from a call's token. */
  datatype AuthContext = AuthContext(
    uid: string,
    email: Option<string>,
    role: Option<string>,
    universityPath: Option<string>)

  /**
   * The authentication part of a callable request: the uid and the
   * token claims the handlers read (`role`, `userType`,
   * `university_path`, `admin`, `email`).
   */
  datatype Token = Token(
    uid: string,
    email: Option<string>,
    role: Option<string>,
    userType: Option<string>,
    universityPath: Option<string>,
    admin: bool)

  /**
   * A stored time: `Instant` is a store timestamp built from a date
   * string, `Plain` keeps the caller's string as it was given.
   */
  datatype TimeValue = Instant(text: string) | Plain(text: string)

  /**
   * Parsing a date string to whole epoch seconds (the floor of the
   * millisecond value divided by 1000); `None` is an invalid date.
   */
  type Epoch = string -> Option<int>
}
