// Status changes of a meeting in the top-level `meetings` collection
// (meetings/meeting-status.ts): cancel (which rejects a pending meeting),
// accept and reject. Cancel and reject then free the meeting's
// availability document, if it names one; a failure there is swallowed.
module MeetingStatusHandlers {
  import opened Wrappers
  import opened Types
  import opened Store
  import opened Auth
  import opened Database

  /** Coordinators and super admins may act on any meeting. */
  predicate IsStaff(ctx: AuthContext)
  {
    ctx.role == Some("coordinator") || ctx.role == Some("super_admin")
  }

  /** The uid is one of the meeting's four party fields; an absent field matches nobody. */
  predicate IsParty(uid: string, m: Meeting)
  {
    Some(uid) == m.mentorId || Some(uid) == m.menteeId || Some(uid) == m.mentorUid || Some(uid) == m.menteeUid
  }

  /** Who, when, where and what a meeting is about; a status change keeps all of it. */
  predicate SameArrangement(a: Meeting, b: Meeting)
  {
    a.id == b.id && a.mentorId == b.mentorId && a.menteeId == b.menteeId &&
    a.mentorUid == b.mentorUid && a.menteeUid == b.menteeUid &&
    a.startTime == b.startTime && a.endTime == b.endTime && a.topic == b.topic &&
    a.location == b.location && a.availabilityId == b.availabilityId && a.hiddenBy == b.hiddenBy &&
    a.createdAt == b.createdAt && a.createdBy == b.createdBy
  }

  /** The caller and the meeting a status handler acts on. */
  datatype Target = Target(ctx: AuthContext, meeting: Meeting)

  /**
   * The checks every status handler makes before writing: an
   * authenticated caller, a meeting id, an existing meeting, and a caller
   * who is staff or a party to it.
   */
  function LoadMeeting(auth: Option<Token>, meetings: map<string, Meeting>, meetingId: Option<string>): (r: Result<Target>)
    ensures auth.None? ==> r == Err(Unauthenticated)
    ensures auth.Some? && !Truthy(meetingId) ==> r == Err(InvalidArgument)
    ensures auth.Some? && Truthy(meetingId) && meetingId.value !in meetings ==> r == Err(NotFound)
    ensures r.Ok? <==>
      auth.Some? && Truthy(meetingId) && meetingId.value in meetings &&
      (IsStaff(VerifyAuth(auth).value) || IsParty(auth.value.uid, meetings[meetingId.value]))
    ensures r.Err? ==> r.error in {Unauthenticated, InvalidArgument, NotFound, PermissionDenied}
    ensures r.Ok? ==> r.value == Target(VerifyAuth(auth).value, meetings[meetingId.value])
  {
    match VerifyAuth(auth)
    case Err(e) => Err(e)
    case Ok(ctx) =>
      if !Truthy(meetingId) then Err(InvalidArgument)
      else
        var found := GetDocument(meetings, meetingId.value);
        if !found.success || found.data.None? then Err(NotFound)
        else
          var m := found.data.value.data;
          if !IsStaff(ctx) && !IsParty(ctx.uid, m) then Err(PermissionDenied) else Ok(Target(ctx, m))
  }

  /** cancelMeeting's update: a pending meeting becomes rejected, any other cancelled. */
  function CancelPatch(m: Meeting, uid: string, reason: Option<string>, now: int): (r: Meeting)
    ensures m.status == Pending ==>
      r.status == Rejected && r.rejectedBy == Some(uid) && r.rejectedAt == Some(now) &&
      r.cancelledBy == m.cancelledBy && r.cancellationReason == m.cancellationReason
    ensures m.status != Pending ==>
      r.status == Cancelled && r.cancelledBy == Some(uid) && r.cancelledAt == Some(now) &&
      r.cancellationReason == OrNull(reason) && r.rejectedBy == m.rejectedBy
    ensures r.updatedBy == Some(uid) && r.updatedAt == Some(now) && r.acceptedBy == m.acceptedBy
    ensures SameArrangement(r, m)
  {
    if m.status == Pending then
      m.(status := Rejected, updatedAt := Some(now), updatedBy := Some(uid),
         rejectedAt := Some(now), rejectedBy := Some(uid))
    else
      m.(status := Cancelled, updatedAt := Some(now), updatedBy := Some(uid),
         cancelledAt := Some(now), cancelledBy := Some(uid), cancellationReason := OrNull(reason))
  }

  /** acceptMeeting's update. */
  function AcceptPatch(m: Meeting, uid: string, now: int): (r: Meeting)
    ensures r.status == Accepted && r.acceptedBy == Some(uid) && r.acceptedAt == Some(now)
    ensures r.updatedBy == Some(uid) && r.updatedAt == Some(now)
    ensures r.rejectedBy == m.rejectedBy && r.cancelledBy == m.cancelledBy
    ensures SameArrangement(r, m)
  {
    m.(status := Accepted, acceptedAt := Some(now), acceptedBy := Some(uid),
       updatedAt := Some(now), updatedBy := Some(uid))
  }

  /** rejectMeeting's update. */
  function RejectPatch(m: Meeting, uid: string, reason: Option<string>, now: int): (r: Meeting)
    ensures r.status == Rejected && r.rejectedBy == Some(uid) && r.rejectedAt == Some(now)
    ensures r.rejectionReason == OrNull(reason)
    ensures r.updatedBy == Some(uid) && r.updatedAt == Some(now)
    ensures r.acceptedBy == m.acceptedBy && r.cancelledBy == m.cancelledBy
    ensures SameArrangement(r, m)
  {
    m.(status := Rejected, rejectedAt := Some(now), rejectedBy := Some(uid),
       rejectionReason := OrNull(reason), updatedAt := Some(now), updatedBy := Some(uid))
  }

  /**
   * A freed availability document: the top-level booking fields are
   * cleared; the per-slot `is_booked` flags of a day document are not
   * touched.
   */
  function Unbooked(a: Availability, now: int): (r: Availability)
    ensures !r.isBooked && r.bookedByUid.None? && r.bookedByDocId.None? && r.bookedByName.None?
    ensures r.meetingId.None? && r.bookedAt.None? && r.updatedAt == Some(now)
    ensures r.slots == a.slots && r.mentorUid == a.mentorUid && r.mentorId == a.mentorId
    ensures r.startTime == a.startTime && r.endTime == a.endTime && r.date == a.date
    ensures r.menteeId == a.menteeId
  {
    a.(isBooked := false, bookedByUid := None, bookedByDocId := None, bookedByName := None,
       meetingId := None, bookedAt := None, updatedAt := Some(now))
  }

  /**
   * The availability collection after a meeting's slot is freed: only the
   * named document changes, and a missing one (the update throws and the
   * error is swallowed) changes nothing.
   */
  function Unbooking(avail: map<string, Availability>, availabilityId: Option<string>, now: int): (r: map<string, Availability>)
    ensures r.Keys == avail.Keys
    ensures forall k :: k in avail && !(Truthy(availabilityId) && k == availabilityId.value) ==> r[k] == avail[k]
    ensures Truthy(availabilityId) && availabilityId.value in avail ==>
      r[availabilityId.value] == Unbooked(avail[availabilityId.value], now)
  {
    if Truthy(availabilityId) && availabilityId.value in avail then
      avail[availabilityId.value := Unbooked(avail[availabilityId.value], now)]
    else avail
  }

  /** The result `updateDocument` gives for an existing document. */
  const Updated: DatabaseResult<()> := DatabaseResult(true, None, None, Some("Document updated successfully"))

  method CancelMeeting(t: Tenant, auth: Option<Token>, meetingId: Option<string>, reason: Option<string>, now: int)
    returns (r: Result<DatabaseResult<()>>)
    modifies t
    ensures r.Err? <==> LoadMeeting(auth, old(t.state.meetings), meetingId).Err?
    ensures r.Err? ==> r.error == LoadMeeting(auth, old(t.state.meetings), meetingId).error && t.state == old(t.state)
    ensures r.Ok? ==> r.value == Updated
    ensures r.Ok? ==>
      var m := old(t.state.meetings)[meetingId.value];
      t.state == old(t.state).(
        meetings := old(t.state.meetings)[meetingId.value := CancelPatch(m, auth.value.uid, reason, now)],
        availability := Unbooking(old(t.state.availability), m.availabilityId, now))
  {
    var target := LoadMeeting(auth, t.state.meetings, meetingId);
    if target.Err? {
      return Err(target.error);
    }
    var uid := target.value.ctx.uid;
    var m := target.value.meeting;
    var w := UpdateDocument(t.state.meetings, meetingId.value, (x: Meeting) => CancelPatch(x, uid, reason, now));
    t.state := t.state.(meetings := w.docs);
    t.state := t.state.(availability := Unbooking(t.state.availability, m.availabilityId, now));
    return Ok(w.result);
  }

  method AcceptMeeting(t: Tenant, auth: Option<Token>, meetingId: Option<string>, now: int)
    returns (r: Result<DatabaseResult<()>>)
    modifies t
    ensures LoadMeeting(auth, old(t.state.meetings), meetingId).Err? ==>
      r == Err(LoadMeeting(auth, old(t.state.meetings), meetingId).error)
    ensures LoadMeeting(auth, old(t.state.meetings), meetingId).Ok? && old(t.state.meetings)[meetingId.value].status != Pending ==>
      r == Err(FailedPrecondition)
    ensures r.Err? ==> t.state == old(t.state)
    ensures r.Ok? <==> LoadMeeting(auth, old(t.state.meetings), meetingId).Ok? && old(t.state.meetings)[meetingId.value].status == Pending
    ensures r.Ok? ==> r.value == Updated
    ensures r.Ok? ==>
      t.state == old(t.state).(
        meetings := old(t.state.meetings)[meetingId.value := AcceptPatch(old(t.state.meetings)[meetingId.value], auth.value.uid, now)])
  {
    var target := LoadMeeting(auth, t.state.meetings, meetingId);
    if target.Err? {
      return Err(target.error);
    }
    if target.value.meeting.status != Pending {
      return Err(FailedPrecondition);
    }
    var uid := target.value.ctx.uid;
    var w := UpdateDocument(t.state.meetings, meetingId.value, (x: Meeting) => AcceptPatch(x, uid, now));
    t.state := t.state.(meetings := w.docs);
    return Ok(w.result);
  }

  method RejectMeeting(t: Tenant, auth: Option<Token>, meetingId: Option<string>, reason: Option<string>, now: int)
    returns (r: Result<DatabaseResult<()>>)
    modifies t
    ensures LoadMeeting(auth, old(t.state.meetings), meetingId).Err? ==>
      r == Err(LoadMeeting(auth, old(t.state.meetings), meetingId).error)
    ensures LoadMeeting(auth, old(t.state.meetings), meetingId).Ok? && old(t.state.meetings)[meetingId.value].status != Pending ==>
      r == Err(FailedPrecondition)
    ensures r.Err? ==> t.state == old(t.state)
    ensures r.Ok? <==> LoadMeeting(auth, old(t.state.meetings), meetingId).Ok? && old(t.state.meetings)[meetingId.value].status == Pending
    ensures r.Ok? ==> r.value == Updated
    ensures r.Ok? ==>
      var m := old(t.state.meetings)[meetingId.value];
      t.state == old(t.state).(
        meetings := old(t.state.meetings)[meetingId.value := RejectPatch(m, auth.value.uid, reason, now)],
        availability := Unbooking(old(t.state.availability), m.availabilityId, now))
  {
    var target := LoadMeeting(auth, t.state.meetings, meetingId);
    if target.Err? {
      return Err(target.error);
    }
    var m := target.value.meeting;
    if m.status != Pending {
      return Err(FailedPrecondition);
    }
    var uid := target.value.ctx.uid;
    var w := UpdateDocument(t.state.meetings, meetingId.value, (x: Meeting) => RejectPatch(x, uid, reason, now));
    t.state := t.state.(meetings := w.docs);
    t.state := t.state.(availability := Unbooking(t.state.availability, m.availabilityId, now));
    return Ok(w.result);
  }

  // ---------------------------------------------------------------- the status machine

  /**
   * The status changes these handlers can make: a pending meeting is
   * accepted or rejected, and any meeting that is not pending can be
   * cancelled.
   */
  predicate StatusStep(from: MeetingStatus, to: MeetingStatus)
  {
    (from == Pending && (to == Accepted || to == Rejected)) || (from != Pending && to == Cancelled)
  }

  /** Every status change of the three handlers is a step of the machine. */
  lemma HandlersFollowStatusMachine(m: Meeting, uid: string, reason: Option<string>, now: int)
    ensures StatusStep(m.status, CancelPatch(m, uid, reason, now).status)
    ensures m.status == Pending ==> StatusStep(m.status, AcceptPatch(m, uid, now).status)
    ensures m.status == Pending ==> StatusStep(m.status, RejectPatch(m, uid, reason, now).status)
  {
  }

  /** No step leads back to pending, so a decided meeting stays decided. */
  lemma NoStepToPending(from: MeetingStatus, to: MeetingStatus)
    requires StatusStep(from, to)
    ensures to != Pending
  {
  }

  /** Cancelling twice always ends cancelled: the first cancel of a pending meeting only rejects it. */
  lemma CancelTwiceCancels(m: Meeting, uid: string, reason: Option<string>, now: int, later: int)
    ensures CancelPatch(CancelPatch(m, uid, reason, now), uid, reason, later).status == Cancelled
  {
  }
}
