// The first revision of the meeting handlers (meetings/management.ts),
// the one the deployed entry point exports. Meetings get store-generated
// ids; availability references are `<docId>_slot_<n>` strings into a day
// document's `slots` array; the checks differ from the later revision
// in several places (no status checks, mentor-only accept and reject,
// no updater recorded), and booking writes go to the whole reference
// string rather than to the day document.
module LegacyMeetings {
  import opened Wrappers
  import opened Types
  import opened Text
  import opened Order
  import opened Store
  import opened Auth
  import opened Database
  import opened MeetingHelpers
  import MeetingCreation
  import MeetingStatusHandlers
  import MeetingUpdates
  import AvailabilityManagement

  // ---------------------------------------------------------------- slot references

  /**
   * `parts = id.split('_slot_')`; the document id is the first part and
   * the index `parseInt` of the second, or -1 when there is no non-empty
   * second part. The index is `None` when `parseInt` gives NaN.
   */
  datatype LegacyRef = LegacyRef(docId: string, index: Option<int>)

  function LegacySlotRef(availabilityId: string): LegacyRef
  {
    var parts := Split(availabilityId, "_slot_");
    LegacyRef(parts[0], if |parts| >= 2 && parts[1] != "" then ParseInt(parts[1]) else Some(-1))
  }

  /** A reference written as `<docId>_slot_<n>` names that document and index. */
  lemma LegacySlotRefOfWellFormed(docId: string, n: nat)
    requires !Contains(docId + "_slot", "_slot_")
    ensures LegacySlotRef(docId + "_slot_" + NatToString(n)) == LegacyRef(docId, Some(n))
  {
    assert "_slot_"[..5] == "_slot";
    SlotSeparatorNotInNumber(n);
    SplitAtFirst(docId, "_slot_", NatToString(n));
    ParseIntNatToString(n);
  }

  /** A reference without the separator is refused as malformed. */
  lemma LegacySlotRefWithoutSeparator(availabilityId: string)
    requires !Contains(availabilityId, "_slot_")
    ensures LegacySlotRef(availabilityId).index == Some(-1)
  {
    assert IndexOf(availabilityId, "_slot_").None?;
  }

  /**
   * The checks on a named slot: a malformed reference, a missing
   * document, a missing array entry (also for a NaN or negative index)
   * and a booked entry, in that order.
   */
  function CheckLegacySlot(avail: map<string, Availability>, availabilityId: string): (r: Result<()>)
    ensures var ref := LegacySlotRef(availabilityId);
      (ref.index == Some(-1) ==> r == Err(InvalidArgument)) &&
      (r.Ok? <==>
        ref.index.Some? && ref.index.value != -1 && ref.docId != "" && ref.docId in avail &&
        0 <= ref.index.value < |avail[ref.docId].slots| && !avail[ref.docId].slots[ref.index.value].isBooked) &&
      (r == Err(FailedPrecondition) ==>
        ref.docId in avail && ref.index.Some? && 0 <= ref.index.value < |avail[ref.docId].slots| &&
        avail[ref.docId].slots[ref.index.value].isBooked)
  {
    var ref := LegacySlotRef(availabilityId);
    if ref.index == Some(-1) then Err(InvalidArgument)
    else
      var found := GetDocument(avail, ref.docId);
      if !found.success || found.data.None? then Err(NotFound)
      else
        var slots := found.data.value.data.slots;
        if ref.index.None? || !(0 <= ref.index.value < |slots|) then Err(NotFound)
        else if slots[ref.index.value].isBooked then Err(FailedPrecondition)
        else Ok(())
  }

  // ---------------------------------------------------------------- creating

  predicate LegacyFieldsGiven(mentorId: Option<string>, menteeId: Option<string>, startTime: Option<string>)
  {
    Truthy(mentorId) && Truthy(menteeId) && Truthy(startTime)
  }

  /** The checks of the legacy `createMeeting`, in the order they are made. */
  function CheckLegacyCreate(auth: Option<Token>, avail: map<string, Availability>, mentorId: Option<string>,
                             menteeId: Option<string>, startTime: Option<string>, availabilityId: Option<string>): (r: Result<()>)
    ensures r.Ok? <==>
      auth.Some? && LegacyFieldsGiven(mentorId, menteeId, startTime) &&
      MeetingCreation.MayCreate(VerifyAuth(auth).value, mentorId.value, menteeId.value) &&
      (Truthy(availabilityId) ==> CheckLegacySlot(avail, availabilityId.value).Ok?)
    ensures auth.None? ==> r == Err(Unauthenticated)
    ensures auth.Some? && !LegacyFieldsGiven(mentorId, menteeId, startTime) ==> r == Err(InvalidArgument)
    ensures (auth.Some? && LegacyFieldsGiven(mentorId, menteeId, startTime) &&
             !MeetingCreation.MayCreate(VerifyAuth(auth).value, mentorId.value, menteeId.value)) ==> r == Err(PermissionDenied)
    ensures (auth.Some? && LegacyFieldsGiven(mentorId, menteeId, startTime) &&
             MeetingCreation.MayCreate(VerifyAuth(auth).value, mentorId.value, menteeId.value) &&
             Truthy(availabilityId) && CheckLegacySlot(avail, availabilityId.value).Err?) ==>
      r == CheckLegacySlot(avail, availabilityId.value)
  {
    match VerifyAuth(auth)
    case Err(e) => Err(e)
    case Ok(ctx) =>
      if !LegacyFieldsGiven(mentorId, menteeId, startTime) then Err(InvalidArgument)
      else if !MeetingCreation.MayCreate(ctx, mentorId.value, menteeId.value) then Err(PermissionDenied)
      else if Truthy(availabilityId) then CheckLegacySlot(avail, availabilityId.value)
      else Ok(())
  }

  /** The meeting the legacy handlers add: the caller's strings as given, pending. */
  function LegacyMeeting(mentorId: Option<string>, menteeId: Option<string>, startTime: Option<string>,
                         endTime: Option<string>, topic: Option<string>, location: Option<string>,
                         availabilityId: Option<string>, now: int): (m: Meeting)
    ensures m.status == Pending && m.id.None? && m.createdAt == Some(now)
    ensures m.mentorId == mentorId && m.menteeId == menteeId && m.mentorUid.None? && m.menteeUid.None?
    ensures m.startTime == (if startTime.Some? then Some(Plain(startTime.value)) else None)
    ensures m.endTime == (if endTime.Some? then Some(Plain(endTime.value)) else None)
    ensures m.topic == topic && m.location == location && m.availabilityId == availabilityId
  {
    BlankMeeting(Pending).(
      mentorId := mentorId, menteeId := menteeId,
      startTime := if startTime.Some? then Some(Plain(startTime.value)) else None,
      endTime := if endTime.Some? then Some(Plain(endTime.value)) else None,
      topic := topic, location := location, availabilityId := availabilityId, createdAt := Some(now))
  }

  /** The booking fields written to the document keyed by the whole reference. */
  function LegacyBooked(a: Availability, menteeId: string, meetingId: string, now: int): (r: Availability)
    ensures r.isBooked && r.menteeId == Some(menteeId) && r.meetingId == Some(meetingId) && r.updatedAt == Some(now)
    ensures r.slots == a.slots
  {
    a.(isBooked := true, menteeId := Some(menteeId), meetingId := Some(meetingId), updatedAt := Some(now))
  }

  /**
   * `updateDocument(availability, availability_id, booking)`: keyed by the
   * reference string itself; when no document has that id the update
   * fails and the failure is ignored.
   */
  function LegacyBooking(avail: map<string, Availability>, availabilityId: Option<string>, menteeId: string,
                         meetingId: string, now: int): (r: map<string, Availability>)
    ensures r.Keys == avail.Keys
    ensures !Truthy(availabilityId) ==> r == avail
    ensures forall k :: k in avail && !(Truthy(availabilityId) && k == availabilityId.value) ==> r[k] == avail[k]
    ensures Truthy(availabilityId) && availabilityId.value in avail ==>
      r[availabilityId.value] == LegacyBooked(avail[availabilityId.value], menteeId, meetingId, now)
  {
    if Truthy(availabilityId) then
      UpdateDocument(avail, availabilityId.value, (a: Availability) => LegacyBooked(a, menteeId, meetingId, now)).docs
    else avail
  }

  /** The legacy `createMeeting`: the meeting is added under a fresh id, then the booking is attempted. */
  method LegacyCreateMeeting(t: Tenant, auth: Option<Token>, mentorId: Option<string>, menteeId: Option<string>,
                             startTime: Option<string>, endTime: Option<string>, topic: Option<string>,
                             location: Option<string>, availabilityId: Option<string>, now: int)
    returns (r: Result<DatabaseResult<string>>)
    modifies t
    ensures var c := CheckLegacyCreate(auth, old(t.state.availability), mentorId, menteeId, startTime, availabilityId);
      (r.Err? <==> c.Err?) && (r.Err? ==> r.error == c.error && t.state == old(t.state))
    ensures r.Ok? ==> r.value.success && r.value.data.Some? && r.value.data.value !in old(t.state.meetings)
    ensures r.Ok? ==>
      var id := r.value.data.value;
      t.state == old(t.state).(
        meetings := old(t.state.meetings)[id := LegacyMeeting(mentorId, menteeId, startTime, endTime, topic, location,
                                                        availabilityId, now)],
        availability := LegacyBooking(old(t.state.availability), availabilityId, menteeId.value, id, now))
  {
    var check := CheckLegacyCreate(auth, t.state.availability, mentorId, menteeId, startTime, availabilityId);
    if check.Err? {
      return Err(check.error);
    }
    var created := AddMeeting(t, LegacyMeeting(mentorId, menteeId, startTime, endTime, topic, location,
                                               availabilityId, now), availabilityId, menteeId.value, now);
    return Ok(created);
  }

  /** The writes of a legacy create: the meeting under a fresh id, then the booking by reference. */
  method AddMeeting(t: Tenant, m: Meeting, availabilityId: Option<string>, menteeId: string, now: int)
    returns (created: DatabaseResult<string>)
    modifies t
    ensures created == CreateDocument(old(t.state.meetings), m).result
    ensures created.success && created.data.Some? && created.data.value !in old(t.state.meetings)
    ensures t.state == old(t.state).(
      meetings := old(t.state.meetings)[created.data.value := m],
      availability := LegacyBooking(old(t.state.availability), availabilityId, menteeId, created.data.value, now))
  {
    var id := FreshKey(t.state.meetings.Keys);
    created := DatabaseResult(true, Some(id), None, Some("Document created successfully"));
    t.state := t.state.(meetings := t.state.meetings[id := m],
                        availability := LegacyBooking(t.state.availability, availabilityId, menteeId, id, now));
  }

  /**
   * Booking by a well-formed reference never books the slot that was
   * checked: the write goes to a document named by the whole reference,
   * and when there is none the day document's entry stays free.
   */
  lemma LegacyBookingMissesCheckedSlot(avail: map<string, Availability>, docId: string, n: nat, menteeId: string,
                                       meetingId: string, now: int)
    requires !Contains(docId + "_slot", "_slot_")
    requires CheckLegacySlot(avail, docId + "_slot_" + NatToString(n)).Ok?
    requires docId + "_slot_" + NatToString(n) !in avail
    ensures var after := LegacyBooking(avail, Some(docId + "_slot_" + NatToString(n)), menteeId, meetingId, now);
      after == avail && docId in after && n < |after[docId].slots| && !after[docId].slots[n].isBooked
  {
    LegacySlotRefOfWellFormed(docId, n);
  }

  // ---------------------------------------------------------------- loading a meeting

  /** The id check and the lookup every legacy meeting handler starts with. */
  function FindMeeting(auth: Option<Token>, meetings: map<string, Meeting>, meetingId: Option<string>): (r: Result<MeetingStatusHandlers.Target>)
    ensures r.Ok? <==> auth.Some? && Truthy(meetingId) && meetingId.value in meetings
    ensures auth.None? ==> r == Err(Unauthenticated)
    ensures auth.Some? && !Truthy(meetingId) ==> r == Err(InvalidArgument)
    ensures auth.Some? && Truthy(meetingId) && meetingId.value !in meetings ==> r == Err(NotFound)
    ensures r.Ok? ==> r.value == MeetingStatusHandlers.Target(VerifyAuth(auth).value, meetings[meetingId.value])
  {
    match VerifyAuth(auth)
    case Err(e) => Err(e)
    case Ok(ctx) =>
      if !Truthy(meetingId) then Err(InvalidArgument)
      else
        var found := GetDocument(meetings, meetingId.value);
        if !found.success || found.data.None? then Err(NotFound)
        else Ok(MeetingStatusHandlers.Target(ctx, found.data.value.data))
  }

  /** The legacy party test reads only `mentor_id` and `mentee_id`. */
  predicate IsLegacyParty(uid: string, m: Meeting)
  {
    Some(uid) == m.mentorId || Some(uid) == m.menteeId
  }

  /** Update and cancel: staff, or a party. */
  function LoadForChange(auth: Option<Token>, meetings: map<string, Meeting>, meetingId: Option<string>): (r: Result<MeetingStatusHandlers.Target>)
    ensures FindMeeting(auth, meetings, meetingId).Err? ==> r == FindMeeting(auth, meetings, meetingId)
    ensures r.Ok? <==>
      FindMeeting(auth, meetings, meetingId).Ok? &&
      (MeetingStatusHandlers.IsStaff(VerifyAuth(auth).value) || IsLegacyParty(auth.value.uid, meetings[meetingId.value]))
    ensures r.Ok? ==> r == FindMeeting(auth, meetings, meetingId)
    ensures r.Err? && FindMeeting(auth, meetings, meetingId).Ok? ==> r.error == PermissionDenied
  {
    match FindMeeting(auth, meetings, meetingId)
    case Err(e) => Err(e)
    case Ok(target) =>
      if !MeetingStatusHandlers.IsStaff(target.ctx) && !IsLegacyParty(target.ctx.uid, target.meeting) then Err(PermissionDenied)
      else Ok(target)
  }

  /** Accept and reject: the meeting's mentor only; staff are not exempt. */
  function LoadForMentor(auth: Option<Token>, meetings: map<string, Meeting>, meetingId: Option<string>): (r: Result<MeetingStatusHandlers.Target>)
    ensures FindMeeting(auth, meetings, meetingId).Err? ==> r == FindMeeting(auth, meetings, meetingId)
    ensures r.Ok? <==> FindMeeting(auth, meetings, meetingId).Ok? && meetings[meetingId.value].mentorId == Some(auth.value.uid)
    ensures r.Ok? ==> r == FindMeeting(auth, meetings, meetingId)
    ensures r.Err? && FindMeeting(auth, meetings, meetingId).Ok? ==> r.error == PermissionDenied
  {
    match FindMeeting(auth, meetings, meetingId)
    case Err(e) => Err(e)
    case Ok(target) =>
      if Some(target.ctx.uid) != target.meeting.mentorId then Err(PermissionDenied) else Ok(target)
  }

  // ---------------------------------------------------------------- updating

  /**
   * The legacy update spreads every supplied field as given, empty strings
   * included, and adds only `updated_at`.
   */
  function LegacyUpdatePatch(m: Meeting, c: MeetingUpdates.Changes, now: int): (r: Meeting)
    ensures r.updatedAt == Some(now) && r.updatedBy == m.updatedBy
    ensures r.startTime == (if c.startTime.Some? then Some(Plain(c.startTime.value)) else m.startTime)
    ensures r.endTime == (if c.endTime.Some? then Some(Plain(c.endTime.value)) else m.endTime)
    ensures r.topic == (if c.topic.Some? then c.topic else m.topic)
    ensures r.location == (if c.location.Some? then c.location else m.location)
    ensures r.status == (if c.status.Some? then c.status.value else m.status)
    ensures r == m.(updatedAt := r.updatedAt, startTime := r.startTime, endTime := r.endTime,
                    topic := r.topic, location := r.location, status := r.status)
  {
    m.(startTime := if c.startTime.Some? then Some(Plain(c.startTime.value)) else m.startTime,
       endTime := if c.endTime.Some? then Some(Plain(c.endTime.value)) else m.endTime,
       topic := if c.topic.Some? then c.topic else m.topic,
       location := if c.location.Some? then c.location else m.location,
       status := if c.status.Some? then c.status.value else m.status,
       updatedAt := Some(now))
  }

  method LegacyUpdateMeeting(t: Tenant, auth: Option<Token>, meetingId: Option<string>, c: MeetingUpdates.Changes, now: int)
    returns (r: Result<DatabaseResult<()>>)
    modifies t
    ensures var load := LoadForChange(auth, old(t.state.meetings), meetingId);
      (r.Err? <==> load.Err?) && (r.Err? ==> r.error == load.error && t.state == old(t.state))
    ensures r.Ok? ==>
      r.value == MeetingStatusHandlers.Updated &&
      t.state == old(t.state).(
        meetings := old(t.state.meetings)[meetingId.value := LegacyUpdatePatch(old(t.state.meetings)[meetingId.value], c, now)])
  {
    var target := LoadForChange(auth, t.state.meetings, meetingId);
    if target.Err? {
      return Err(target.error);
    }
    var w := UpdateDocument(t.state.meetings, meetingId.value, (x: Meeting) => LegacyUpdatePatch(x, c, now));
    t.state := t.state.(meetings := w.docs);
    return Ok(w.result);
  }

  /** Unlike the later revision, an empty start time is written rather than ignored. */
  lemma LegacyWritesEmptyStart(m: Meeting, uid: string, now: int)
    ensures LegacyUpdatePatch(m, MeetingUpdates.NoChanges.(startTime := Some("")), now).startTime == Some(Plain(""))
    ensures MeetingUpdates.UpdatePatch(m, uid, MeetingUpdates.NoChanges.(startTime := Some("")), now).startTime == m.startTime
  {
  }

  // ---------------------------------------------------------------- status changes

  /** The fields the legacy free writes to the document keyed by the meeting's reference. */
  function LegacyFreed(a: Availability, now: int): (r: Availability)
    ensures !r.isBooked && r.menteeId.None? && r.meetingId.None? && r.updatedAt == Some(now)
    ensures r.slots == a.slots && r.bookedByUid == a.bookedByUid && r.bookedAt == a.bookedAt
  {
    a.(isBooked := false, menteeId := None, meetingId := None, updatedAt := Some(now))
  }

  /** The free, keyed by the reference string; a missing document changes nothing. */
  function LegacyFreeing(avail: map<string, Availability>, availabilityId: Option<string>, now: int): (r: map<string, Availability>)
    ensures r.Keys == avail.Keys
    ensures forall k :: k in avail && !(Truthy(availabilityId) && k == availabilityId.value) ==> r[k] == avail[k]
    ensures Truthy(availabilityId) && availabilityId.value in avail ==>
      r[availabilityId.value] == LegacyFreed(avail[availabilityId.value], now)
  {
    if Truthy(availabilityId) then
      UpdateDocument(avail, availabilityId.value, (a: Availability) => LegacyFreed(a, now)).docs
    else avail
  }

  function LegacyCancelPatch(m: Meeting, uid: string, reason: Option<string>, now: int): (r: Meeting)
    ensures r.status == Cancelled && r.cancelledBy == Some(uid) && r.cancelledAt == Some(now)
    ensures r.cancellationReason == reason
    ensures r == m.(status := Cancelled, cancelledBy := r.cancelledBy, cancelledAt := r.cancelledAt,
                    cancellationReason := r.cancellationReason)
  {
    m.(status := Cancelled, cancellationReason := reason, cancelledBy := Some(uid), cancelledAt := Some(now))
  }

  function LegacyAcceptPatch(m: Meeting, uid: string, now: int): (r: Meeting)
    ensures r.status == Accepted && r.acceptedBy == Some(uid) && r.acceptedAt == Some(now)
    ensures r == m.(status := Accepted, acceptedBy := r.acceptedBy, acceptedAt := r.acceptedAt)
  {
    m.(status := Accepted, acceptedBy := Some(uid), acceptedAt := Some(now))
  }

  function LegacyRejectPatch(m: Meeting, uid: string, reason: Option<string>, now: int): (r: Meeting)
    ensures r.status == Rejected && r.rejectedBy == Some(uid) && r.rejectedAt == Some(now)
    ensures r.rejectionReason == reason
    ensures r == m.(status := Rejected, rejectedBy := r.rejectedBy, rejectedAt := r.rejectedAt,
                    rejectionReason := r.rejectionReason)
  {
    m.(status := Rejected, rejectionReason := reason, rejectedBy := Some(uid), rejectedAt := Some(now))
  }

  /** The legacy `cancelMeeting`: cancelled whatever the status, then the reference freed. */
  method LegacyCancelMeeting(t: Tenant, auth: Option<Token>, meetingId: Option<string>, reason: Option<string>, now: int)
    returns (r: Result<DatabaseResult<()>>)
    modifies t
    ensures var load := LoadForChange(auth, old(t.state.meetings), meetingId);
      (r.Err? <==> load.Err?) && (r.Err? ==> r.error == load.error && t.state == old(t.state))
    ensures r.Ok? ==>
      var m := old(t.state.meetings)[meetingId.value];
      r.value == MeetingStatusHandlers.Updated &&
      t.state == old(t.state).(
        meetings := old(t.state.meetings)[meetingId.value := LegacyCancelPatch(m, auth.value.uid, reason, now)],
        availability := LegacyFreeing(old(t.state.availability), m.availabilityId, now))
  {
    var target := LoadForChange(auth, t.state.meetings, meetingId);
    if target.Err? {
      return Err(target.error);
    }
    var uid := target.value.ctx.uid;
    var w := UpdateDocument(t.state.meetings, meetingId.value, (x: Meeting) => LegacyCancelPatch(x, uid, reason, now));
    t.state := t.state.(meetings := w.docs);
    t.state := t.state.(availability := LegacyFreeing(t.state.availability, target.value.meeting.availabilityId, now));
    return Ok(w.result);
  }

  /** The legacy `acceptMeeting`: the mentor accepts, whatever the status. */
  method LegacyAcceptMeeting(t: Tenant, auth: Option<Token>, meetingId: Option<string>, now: int)
    returns (r: Result<DatabaseResult<()>>)
    modifies t
    ensures var load := LoadForMentor(auth, old(t.state.meetings), meetingId);
      (r.Err? <==> load.Err?) && (r.Err? ==> r.error == load.error && t.state == old(t.state))
    ensures r.Ok? ==>
      r.value == MeetingStatusHandlers.Updated &&
      t.state == old(t.state).(
        meetings := old(t.state.meetings)[meetingId.value := LegacyAcceptPatch(old(t.state.meetings)[meetingId.value], auth.value.uid, now)])
  {
    var target := LoadForMentor(auth, t.state.meetings, meetingId);
    if target.Err? {
      return Err(target.error);
    }
    var uid := target.value.ctx.uid;
    var w := UpdateDocument(t.state.meetings, meetingId.value, (x: Meeting) => LegacyAcceptPatch(x, uid, now));
    t.state := t.state.(meetings := w.docs);
    return Ok(w.result);
  }

  /** The legacy `rejectMeeting`: the mentor rejects, whatever the status, then the reference is freed. */
  method LegacyRejectMeeting(t: Tenant, auth: Option<Token>, meetingId: Option<string>, reason: Option<string>, now: int)
    returns (r: Result<DatabaseResult<()>>)
    modifies t
    ensures var load := LoadForMentor(auth, old(t.state.meetings), meetingId);
      (r.Err? <==> load.Err?) && (r.Err? ==> r.error == load.error && t.state == old(t.state))
    ensures r.Ok? ==>
      var m := old(t.state.meetings)[meetingId.value];
      r.value == MeetingStatusHandlers.Updated &&
      t.state == old(t.state).(
        meetings := old(t.state.meetings)[meetingId.value := LegacyRejectPatch(m, auth.value.uid, reason, now)],
        availability := LegacyFreeing(old(t.state.availability), m.availabilityId, now))
  {
    var target := LoadForMentor(auth, t.state.meetings, meetingId);
    if target.Err? {
      return Err(target.error);
    }
    var uid := target.value.ctx.uid;
    var w := UpdateDocument(t.state.meetings, meetingId.value, (x: Meeting) => LegacyRejectPatch(x, uid, reason, now));
    t.state := t.state.(meetings := w.docs);
    t.state := t.state.(availability := LegacyFreeing(t.state.availability, target.value.meeting.availabilityId, now));
    return Ok(w.result);
  }

  /**
   * No legacy status change consults the status: a cancelled meeting can
   * be accepted again, a step the later revision's machine does not have.
   */
  lemma LegacyIgnoresStatus(m: Meeting, uid: string, reason: Option<string>, now: int)
    requires m.status == Cancelled
    ensures LegacyAcceptPatch(m, uid, now).status == Accepted
    ensures LegacyRejectPatch(m, uid, reason, now).status == Rejected
    ensures !MeetingStatusHandlers.StatusStep(Cancelled, Accepted)
  {
  }

  /** A coordinator who is not the meeting's mentor cannot accept or reject it. */
  lemma StaffCannotAccept(auth: Option<Token>, meetings: map<string, Meeting>, meetingId: string)
    requires auth.Some? && auth.value.role == Some("coordinator")
    requires meetingId != "" && meetingId in meetings && meetings[meetingId].mentorId != Some(auth.value.uid)
    ensures LoadForMentor(auth, meetings, Some(meetingId)) == Err(PermissionDenied)
    ensures LoadForChange(auth, meetings, Some(meetingId)).Ok?
  {
  }

  // ---------------------------------------------------------------- availability

  /** `day.replace(/\s/g, '_')`: every whitespace character becomes `_`. */
  function UnderscoreSpaces(s: string): (r: string)
    ensures |r| == |s| && NoSpace(r)
    ensures forall i :: 0 <= i < |s| ==> r[i] == if IsSpace(s[i]) then '_' else s[i]
  {
    seq(|s|, i requires 0 <= i < |s| => if IsSpace(s[i]) then '_' else s[i])
  }

  /** The legacy day document: slot ends as given, never computed. */
  function LegacySlots(inputs: seq<AvailabilityManagement.SlotInput>): (r: seq<Slot>)
    ensures |r| == |inputs|
    ensures forall i :: 0 <= i < |inputs| ==>
      r[i] == Slot(Some(inputs[i].slotStart), inputs[i].slotEnd, false, None, None)
  {
    seq(|inputs|, i requires 0 <= i < |inputs| => Slot(Some(inputs[i].slotStart), inputs[i].slotEnd, false, None, None))
  }

  function LegacyDayDocument(mentorId: string, day: string, inputs: seq<AvailabilityManagement.SlotInput>, now: int): (a: Availability)
    ensures a.mentorId == Some(mentorId) && a.day == Some(day) && a.slots == LegacySlots(inputs)
    ensures a.id.None? && a.createdAt == Some(now) && a.updatedAt == Some(now)
    ensures !AvailabilityManagement.HasBookedSlot(a)
  {
    BlankAvailability.(mentorId := Some(mentorId), day := Some(day), slots := LegacySlots(inputs),
                       createdAt := Some(now), updatedAt := Some(now))
  }

  /** `where('firebase_uid', '==', uid).limit(1)`: the first such user by id. */
  function FirstUserWithUid(users: map<string, User>, uid: string): (r: Option<Doc<User>>)
    ensures r.None? <==> UidMatches(users, uid) == {}
    ensures r.Some? ==>
      r.value.id in users && r.value.data == users[r.value.id] && users[r.value.id].firebaseUid == Some(uid) &&
      forall k :: k in UidMatches(users, uid) && k != r.value.id ==> Lt(r.value.id, k)
  {
    var found := UidMatches(users, uid);
    if found == {} then None else var k := FirstKey(found); Some(Doc(k, users[k]))
  }

  /** The existing documents for the day in the shared collection: same mentor, same day. */
  function SharedDayDocs(avail: map<string, Availability>, mentorId: string, day: string): set<string>
  {
    set k | k in avail && avail[k].mentorId == Some(mentorId) && avail[k].day == Some(day)
  }

  /** The existing documents for the day in the user's own collection. */
  function OwnDayDocs(own: map<string, Availability>, day: string): set<string>
  {
    set k | k in own && own[k].day == Some(day)
  }

  predicate AnyBooked(docs: map<string, Availability>, keys: set<string>)
  {
    exists k :: k in keys && k in docs && AvailabilityManagement.HasBookedSlot(docs[k])
  }

  /**
   * One `forEach` over a query's documents: raise the flag for a document
   * holding a booked slot, and queue the delete of every other one.
   */
  method ScanDay(docs: map<string, Availability>, keys: seq<string>) returns (booked: bool, deletes: set<string>)
    requires forall k :: k in keys ==> k in docs
    ensures booked <==> exists k :: k in keys && AvailabilityManagement.HasBookedSlot(docs[k])
    ensures forall k :: k in deletes <==> k in keys && !AvailabilityManagement.HasBookedSlot(docs[k])
  {
    booked, deletes := false, {};
    var i := 0;
    while i < |keys|
      invariant 0 <= i <= |keys|
      invariant booked <==> exists k :: k in keys[..i] && AvailabilityManagement.HasBookedSlot(docs[k])
      invariant forall k :: k in deletes <==> k in keys[..i] && !AvailabilityManagement.HasBookedSlot(docs[k])
    {
      assert keys[..i + 1] == keys[..i] + [keys[i]];
      if AvailabilityManagement.HasBookedSlot(docs[keys[i]]) {
        booked := true;
      } else {
        deletes := deletes + {keys[i]};
      }
      i := i + 1;
    }
    assert keys[..i] == keys;
  }

  predicate LegacySetFieldsGiven(mentorId: Option<string>, day: Option<string>, slots: Option<seq<AvailabilityManagement.SlotInput>>)
  {
    Truthy(mentorId) && Truthy(day) && slots.Some?
  }

  /** The checks before the scan: fields, a mentor setting their own uid, their user document. */
  function CheckLegacySet(auth: Option<Token>, users: map<string, User>, mentorId: Option<string>, day: Option<string>,
                          slots: Option<seq<AvailabilityManagement.SlotInput>>): (r: Result<Doc<User>>)
    ensures r.Ok? <==>
      auth.Some? && LegacySetFieldsGiven(mentorId, day, slots) &&
      auth.value.role == Some("mentor") && auth.value.uid == mentorId.value &&
      FirstUserWithUid(users, mentorId.value).Some?
    ensures auth.None? ==> r == Err(Unauthenticated)
    ensures auth.Some? && !LegacySetFieldsGiven(mentorId, day, slots) ==> r == Err(InvalidArgument)
    ensures (auth.Some? && LegacySetFieldsGiven(mentorId, day, slots) &&
             (auth.value.role != Some("mentor") || auth.value.uid != mentorId.value)) ==> r == Err(PermissionDenied)
    ensures r.Ok? ==> r.value == FirstUserWithUid(users, mentorId.value).value
    ensures r.Err? ==> r.error in {Unauthenticated, InvalidArgument, PermissionDenied, NotFound}
  {
    match VerifyAuth(auth)
    case Err(e) => Err(e)
    case Ok(ctx) =>
      if !LegacySetFieldsGiven(mentorId, day, slots) then Err(InvalidArgument)
      else if ctx.role != Some("mentor") || ctx.uid != mentorId.value then Err(PermissionDenied)
      else
        match FirstUserWithUid(users, mentorId.value)
        case None => Err(NotFound)
        case Some(u) => Ok(u)
  }

  function OwnCollection(userAvailability: map<string, map<string, Availability>>, userDocId: string): map<string, Availability>
  {
    if userDocId in userAvailability then userAvailability[userDocId] else map[]
  }

  /**
   * The legacy `setMentorAvailability`. When any existing document for the
   * day, in either collection, holds a booked slot, the batch is never
   * committed; otherwise every existing one is deleted and one day
   * document is written to both collections under
   * `<userDocId>_<day with whitespace as _>`.
   */
  method LegacySetMentorAvailability(t: Tenant, auth: Option<Token>, mentorId: Option<string>, day: Option<string>,
                                     slots: Option<seq<AvailabilityManagement.SlotInput>>, now: int)
    returns (r: Result<AvailabilityManagement.DaySet>)
    modifies t
    ensures var c := CheckLegacySet(auth, old(t.state.users), mentorId, day, slots);
      c.Err? ==> r == Err(c.error) && t.state == old(t.state)
    ensures var c := CheckLegacySet(auth, old(t.state.users), mentorId, day, slots);
      c.Ok? ==>
        var own := OwnCollection(old(t.state.userAvailability), c.value.id);
        var booked := AnyBooked(old(t.state.availability), SharedDayDocs(old(t.state.availability), mentorId.value, day.value)) ||
                      AnyBooked(own, OwnDayDocs(own, day.value));
        (booked ==> r == Err(FailedPrecondition) && t.state == old(t.state)) &&
        (!booked ==>
          var docId := c.value.id + "_" + UnderscoreSpaces(day.value);
          var doc := LegacyDayDocument(mentorId.value, day.value, slots.value, now);
          r == Ok(AvailabilityManagement.DaySet(1, docId, |slots.value|)) &&
          t.state == old(t.state).(
            availability := (old(t.state.availability) - SharedDayDocs(old(t.state.availability), mentorId.value, day.value))[docId := doc],
            userAvailability := old(t.state.userAvailability)[c.value.id := (own - OwnDayDocs(own, day.value))[docId := doc]]))
  {
    var check := CheckLegacySet(auth, t.state.users, mentorId, day, slots);
    if check.Err? {
      return Err(check.error);
    }
    var userDocId := check.value.id;
    var own := OwnCollection(t.state.userAvailability, userDocId);
    var shared := SharedDayDocs(t.state.availability, mentorId.value, day.value);
    var mine := OwnDayDocs(own, day.value);
    var bookedShared, deleteShared := ScanDay(t.state.availability, SortedKeys(shared));
    var bookedOwn, deleteOwn := ScanDay(own, SortedKeys(mine));
    if bookedShared || bookedOwn {
      BookedFlagMeansAnyBooked(t.state.availability, shared, bookedShared);
      BookedFlagMeansAnyBooked(own, mine, bookedOwn);
      return Err(FailedPrecondition);
    }
    NoBookedDeletesAll(t.state.availability, shared, deleteShared);
    NoBookedDeletesAll(own, mine, deleteOwn);
    var docId := userDocId + "_" + UnderscoreSpaces(day.value);
    var doc := LegacyDayDocument(mentorId.value, day.value, slots.value, now);
    t.state := t.state.(availability := (t.state.availability - deleteShared)[docId := doc],
                        userAvailability := t.state.userAvailability[userDocId := (own - deleteOwn)[docId := doc]]);
    return Ok(AvailabilityManagement.DaySet(1, docId, |slots.value|));
  }

  /** The scan's flag over the sorted keys of a set is `AnyBooked` of the set. */
  lemma BookedFlagMeansAnyBooked(docs: map<string, Availability>, keys: set<string>, booked: bool)
    requires forall k :: k in keys ==> k in docs
    requires booked <==> exists k :: k in SortedKeys(keys) && AvailabilityManagement.HasBookedSlot(docs[k])
    ensures booked <==> AnyBooked(docs, keys)
  {
  }

  /** With no booked document, the queued deletes are all the day's documents. */
  lemma NoBookedDeletesAll(docs: map<string, Availability>, keys: set<string>, deletes: set<string>)
    requires forall k :: k in keys ==> k in docs
    requires forall k :: k in deletes <==> k in SortedKeys(keys) && !AvailabilityManagement.HasBookedSlot(docs[k])
    requires !exists k :: k in SortedKeys(keys) && AvailabilityManagement.HasBookedSlot(docs[k])
    ensures deletes == keys
  {
  }

  /**
   * `getAvailableSlots` (legacy, no authentication): the days in the
   * bounds from the subcollection of the user document named by the
   * mentor id, or, when that gives nothing, from the shared collection
   * filtered by mentor; booked slots are not filtered out.
   */
  function LegacyAvailableSlots(s: TenantState, mentorId: Option<string>, startDate: Option<string>,
                                endDate: Option<string>): (r: Result<seq<Doc<Availability>>>)
    ensures !Truthy(mentorId) ==> r == Err(InvalidArgument)
    ensures Truthy(mentorId) ==> r.Ok?
    ensures r.Ok? ==>
      var own := OwnCollection(s.userAvailability, mentorId.value);
      var primary := AvailabilityManagement.DayQuery(own, None, startDate, endDate);
      var ids := if primary != [] then primary else AvailabilityManagement.DayQuery(s.availability, mentorId, startDate, endDate);
      var docs := if primary != [] then own else s.availability;
      |r.value| == |ids| && forall i :: 0 <= i < |ids| ==> r.value[i] == Doc(ids[i], docs[ids[i]])
  {
    if !Truthy(mentorId) then Err(InvalidArgument)
    else
      var own := OwnCollection(s.userAvailability, mentorId.value);
      var primary := AvailabilityManagement.DayQuery(own, None, startDate, endDate);
      var ids := if primary != [] then primary else AvailabilityManagement.DayQuery(s.availability, mentorId, startDate, endDate);
      var docs := if primary != [] then own else s.availability;
      Ok(seq(|ids|, i requires 0 <= i < |ids| => Doc(ids[i], docs[ids[i]])))
  }

  /**
   * The legacy set writes the user's own copy under the user document id,
   * while the legacy read looks under the mentor id: a mentor whose
   * document id is not their uid is always answered from the shared
   * collection, booked days included.
   */
  lemma LegacyReadFallsBackToShared(s: TenantState, mentorId: string, startDate: Option<string>, endDate: Option<string>, id: string)
    requires mentorId != "" && mentorId !in s.userAvailability
    requires id in s.availability && AvailabilityManagement.DayMatches(s.availability[id], Some(mentorId), startDate, endDate)
    ensures var r := LegacyAvailableSlots(s, Some(mentorId), startDate, endDate).value;
      exists i :: 0 <= i < |r| && r[i] == Doc(id, s.availability[id])
  {
    var ids := AvailabilityManagement.DayQuery(s.availability, Some(mentorId), startDate, endDate);
    AvailabilityManagement.DayQuerySpec(s.availability, Some(mentorId), startDate, endDate);
    assert AvailabilityManagement.DayQuery(map[], None, startDate, endDate) == [];
    var i :| 0 <= i < |ids| && ids[i] == id;
    assert LegacyAvailableSlots(s, Some(mentorId), startDate, endDate).value[i] == Doc(id, s.availability[id]);
  }

  // ---------------------------------------------------------------- requests

  const CustomTopic := "Custom time request"

  /** The topic of a legacy request: the marker for a custom time given without a topic. */
  function RequestTopic(topic: Option<string>, isCustomTime: bool): (r: Option<string>)
    ensures isCustomTime && !Truthy(topic) ==> r == Some(CustomTopic)
    ensures !(isCustomTime && !Truthy(topic)) ==> r == topic
  {
    if isCustomTime && !Truthy(topic) then Some(CustomTopic) else topic
  }

  /**
   * The legacy `requestMeeting`: only the mentee may ask, nothing else is
   * checked, the meeting is added pending and no availability changes.
   */
  method LegacyRequestMeeting(t: Tenant, auth: Option<Token>, mentorId: Option<string>, menteeId: Option<string>,
                              startTime: Option<string>, endTime: Option<string>, topic: Option<string>,
                              location: Option<string>, isCustomTime: bool, now: int)
    returns (r: Result<DatabaseResult<string>>)
    modifies t
    ensures auth.None? ==> r == Err(Unauthenticated)
    ensures auth.Some? && menteeId != Some(auth.value.uid) ==> r == Err(PermissionDenied)
    ensures r.Err? ==> t.state == old(t.state)
    ensures r.Ok? <==> auth.Some? && menteeId == Some(auth.value.uid)
    ensures r.Ok? ==> r.value.success && r.value.data.Some? && r.value.data.value !in old(t.state.meetings)
    ensures r.Ok? ==>
      t.state == old(t.state).(
        meetings := old(t.state.meetings)[r.value.data.value := LegacyMeeting(mentorId, menteeId, startTime, endTime,
                                                                        RequestTopic(topic, isCustomTime), location, None, now)])
  {
    var ctx := VerifyAuth(auth);
    if ctx.Err? {
      return Err(ctx.error);
    }
    if menteeId != Some(ctx.value.uid) {
      return Err(PermissionDenied);
    }
    var created := AddMeeting(t, LegacyMeeting(mentorId, menteeId, startTime, endTime, RequestTopic(topic, isCustomTime),
                                               location, None, now), None, menteeId.value, now);
    return Ok(created);
  }
}
