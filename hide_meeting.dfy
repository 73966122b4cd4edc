// Per-user hiding of a meeting (meetings/hide-meeting.ts): `hidden_by`
// is a set of uids, grown with `arrayUnion` and shrunk with
// `arrayRemove`. Hiding needs the checks of the status handlers;
// unhiding needs only an existing meeting.
module MeetingVisibility {
  import opened Wrappers
  import opened Types
  import opened Store
  import opened Auth
  import MeetingStatusHandlers

  /** The answer of both handlers. */
  datatype Visibility = Visibility(message: string, meetingId: string)

  const Hidden := "Meeting hidden successfully"
  const Unhidden := "Meeting unhidden successfully"

  function HidePatch(m: Meeting, uid: string, now: int): (r: Meeting)
    ensures r.hiddenBy == m.hiddenBy + {uid} && r.updatedAt == Some(now)
    ensures r == m.(hiddenBy := r.hiddenBy, updatedAt := r.updatedAt)
  {
    m.(hiddenBy := m.hiddenBy + {uid}, updatedAt := Some(now))
  }

  function UnhidePatch(m: Meeting, uid: string, now: int): (r: Meeting)
    ensures r.hiddenBy == m.hiddenBy - {uid} && r.updatedAt == Some(now)
    ensures r == m.(hiddenBy := r.hiddenBy, updatedAt := r.updatedAt)
  {
    m.(hiddenBy := m.hiddenBy - {uid}, updatedAt := Some(now))
  }

  method HideMeeting(t: Tenant, auth: Option<Token>, meetingId: Option<string>, now: int)
    returns (r: Result<Visibility>)
    modifies t
    ensures var load := MeetingStatusHandlers.LoadMeeting(auth, old(t.state.meetings), meetingId);
      (r.Err? <==> load.Err?) && (r.Err? ==> r.error == load.error && t.state == old(t.state))
    ensures r.Ok? ==>
      r.value == Visibility(Hidden, meetingId.value) &&
      t.state == old(t.state).(
        meetings := old(t.state.meetings)[meetingId.value := HidePatch(old(t.state.meetings)[meetingId.value], auth.value.uid, now)])
  {
    var target := MeetingStatusHandlers.LoadMeeting(auth, t.state.meetings, meetingId);
    if target.Err? {
      return Err(target.error);
    }
    t.state := t.state.(meetings := t.state.meetings[meetingId.value := HidePatch(target.value.meeting, target.value.ctx.uid, now)]);
    return Ok(Visibility(Hidden, meetingId.value));
  }

  /** Unhiding checks only the caller, the id and that the meeting exists. */
  function CheckUnhide(auth: Option<Token>, meetings: map<string, Meeting>, meetingId: Option<string>): (r: Result<AuthContext>)
    ensures r.Ok? <==> auth.Some? && Truthy(meetingId) && meetingId.value in meetings
    ensures auth.None? ==> r == Err(Unauthenticated)
    ensures auth.Some? && !Truthy(meetingId) ==> r == Err(InvalidArgument)
    ensures auth.Some? && Truthy(meetingId) && meetingId.value !in meetings ==> r == Err(NotFound)
    ensures r.Ok? ==> r.value == VerifyAuth(auth).value
  {
    match VerifyAuth(auth)
    case Err(e) => Err(e)
    case Ok(ctx) =>
      if !Truthy(meetingId) then Err(InvalidArgument)
      else if meetingId.value !in meetings then Err(NotFound)
      else Ok(ctx)
  }

  method UnhideMeeting(t: Tenant, auth: Option<Token>, meetingId: Option<string>, now: int)
    returns (r: Result<Visibility>)
    modifies t
    ensures var c := CheckUnhide(auth, old(t.state.meetings), meetingId);
      (r.Err? <==> c.Err?) && (r.Err? ==> r.error == c.error && t.state == old(t.state))
    ensures r.Ok? ==>
      r.value == Visibility(Unhidden, meetingId.value) &&
      t.state == old(t.state).(
        meetings := old(t.state.meetings)[meetingId.value := UnhidePatch(old(t.state.meetings)[meetingId.value], auth.value.uid, now)])
  {
    var check := CheckUnhide(auth, t.state.meetings, meetingId);
    if check.Err? {
      return Err(check.error);
    }
    t.state := t.state.(meetings := t.state.meetings[meetingId.value := UnhidePatch(t.state.meetings[meetingId.value], check.value.uid, now)]);
    return Ok(Visibility(Unhidden, meetingId.value));
  }

  /** Hiding twice is hiding once. */
  lemma HideIdempotent(m: Meeting, uid: string, now: int, later: int)
    ensures HidePatch(HidePatch(m, uid, now), uid, later) == HidePatch(m, uid, later)
  {
  }

  /** Unhiding undoes a hide by a caller who had not hidden the meeting before. */
  lemma UnhideUndoesHide(m: Meeting, uid: string, now: int, later: int)
    requires uid !in m.hiddenBy
    ensures UnhidePatch(HidePatch(m, uid, now), uid, later) == m.(updatedAt := Some(later))
  {
  }

  /** Neither handler changes a meeting's status or arrangement, and other callers' choices stay. */
  lemma VisibilityKeepsMeeting(m: Meeting, uid: string, other: string, now: int)
    requires other != uid
    ensures HidePatch(m, uid, now).status == m.status && UnhidePatch(m, uid, now).status == m.status
    ensures (other in HidePatch(m, uid, now).hiddenBy <==> other in m.hiddenBy)
    ensures (other in UnhidePatch(m, uid, now).hiddenBy <==> other in m.hiddenBy)
  {
  }

  /** Any caller may unhide for themselves, party to the meeting or not. */
  lemma UnhideNeedsNoParty(auth: Option<Token>, meetings: map<string, Meeting>, meetingId: string)
    requires auth.Some? && meetingId != "" && meetingId in meetings
    requires !MeetingStatusHandlers.IsStaff(VerifyAuth(auth).value)
    requires !MeetingStatusHandlers.IsParty(auth.value.uid, meetings[meetingId])
    ensures MeetingStatusHandlers.LoadMeeting(auth, meetings, Some(meetingId)) == Err(PermissionDenied)
    ensures CheckUnhide(auth, meetings, Some(meetingId)).Ok?
  {
  }
}
