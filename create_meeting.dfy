// Creating a meeting in the top-level `meetings` collection
// (meetings/create-meeting.ts). The meeting is stored with `set` under
// its readable id, so a second creation for the same mentor, mentee and
// second replaces the first; a named availability document is then
// marked booked whatever it held before.
module MeetingCreation {
  import opened Wrappers
  import opened Types
  import opened Store
  import opened Auth
  import opened Database
  import opened MeetingHelpers
  import MeetingStatusHandlers

  const CreatorRoles: set<string> := {"mentor", "mentee", "coordinator", "super_admin"}

  /** `name || ''` of a user document. */
  function DisplayName(u: User): string
  {
    OrElse(u.name, "")
  }

  /** The caller and both parties' user documents. */
  datatype Parties = Parties(ctx: AuthContext, mentor: Doc<User>, mentee: Doc<User>)

  predicate FieldsGiven(mentorId: Option<string>, menteeId: Option<string>, startTime: Option<string>)
  {
    Truthy(mentorId) && Truthy(menteeId) && Truthy(startTime)
  }

  /** A creator role, and a mentor or mentee only for a meeting of their own. */
  predicate MayCreate(ctx: AuthContext, mentorId: string, menteeId: string)
  {
    ctx.role.Some? && ctx.role.value in CreatorRoles &&
    (ctx.role.value in {"mentor", "mentee"} ==> ctx.uid == mentorId || ctx.uid == menteeId)
  }

  predicate PartiesFound(users: map<string, User>, mentorId: string, menteeId: string)
  {
    GetUserDocByUid(users, mentorId).Some? && GetUserDocByUid(users, menteeId).Some?
  }

  /**
   * The debug line `new Date(start_time).toISOString()` throws for a start
   * that is missing, empty or not a date; this happens right after the
   * caller is authenticated, before any other check.
   */
  predicate StartParses(epoch: Epoch, startTime: Option<string>)
  {
    Truthy(startTime) && epoch(startTime.value).Some?
  }

  /** `Timestamp.fromDate` accepts the start and, when given, the end. */
  predicate DatesValid(epoch: Epoch, startTime: string, endTime: Option<string>)
  {
    epoch(startTime).Some? && (Truthy(endTime) ==> epoch(endTime.value).Some?)
  }

  /** The checks made before anything is written, in the order they are made. */
  function CheckCreate(auth: Option<Token>, users: map<string, User>, mentorId: Option<string>,
                       menteeId: Option<string>, startTime: Option<string>, endTime: Option<string>,
                       epoch: Epoch): (r: Result<Parties>)
    ensures r.Ok? <==>
      auth.Some? && StartParses(epoch, startTime) && FieldsGiven(mentorId, menteeId, startTime) &&
      MayCreate(VerifyAuth(auth).value, mentorId.value, menteeId.value) &&
      PartiesFound(users, mentorId.value, menteeId.value) && DatesValid(epoch, startTime.value, endTime)
    ensures auth.None? ==> r == Err(Unauthenticated)
    ensures auth.Some? && !StartParses(epoch, startTime) ==> r == Err(Internal)
    ensures auth.Some? && StartParses(epoch, startTime) && !FieldsGiven(mentorId, menteeId, startTime) ==>
      r == Err(InvalidArgument)
    ensures (auth.Some? && StartParses(epoch, startTime) && FieldsGiven(mentorId, menteeId, startTime) &&
             !MayCreate(VerifyAuth(auth).value, mentorId.value, menteeId.value)) ==> r == Err(PermissionDenied)
    ensures (auth.Some? && StartParses(epoch, startTime) && FieldsGiven(mentorId, menteeId, startTime) &&
             MayCreate(VerifyAuth(auth).value, mentorId.value, menteeId.value) &&
             !PartiesFound(users, mentorId.value, menteeId.value)) ==> r == Err(NotFound)
    ensures r.Err? && r.error == Internal ==>
      !StartParses(epoch, startTime) || !DatesValid(epoch, startTime.value, endTime)
    ensures r.Ok? ==>
      r.value.ctx == VerifyAuth(auth).value &&
      r.value.mentor == GetUserDocByUid(users, mentorId.value).value &&
      r.value.mentee == GetUserDocByUid(users, menteeId.value).value
  {
    match VerifyAuth(auth)
    case Err(e) => Err(e)
    case Ok(ctx) =>
      if !StartParses(epoch, startTime) then Err(Internal)
      else if !FieldsGiven(mentorId, menteeId, startTime) then Err(InvalidArgument)
      else if !MayCreate(ctx, mentorId.value, menteeId.value) then Err(PermissionDenied)
      else
        var mentorDoc := GetUserDocByUid(users, mentorId.value);
        var menteeDoc := GetUserDocByUid(users, menteeId.value);
        if mentorDoc.None? || menteeDoc.None? then Err(NotFound)
        else if !DatesValid(epoch, startTime.value, endTime) then Err(Internal)
        else Ok(Parties(ctx, mentorDoc.value, menteeDoc.value))
  }

  /**
   * A start that is not a date fails as `internal` before the fields are
   * looked at: even a request missing both parties gets that answer, not
   * `invalid-argument`.
   */
  lemma BadStartAnswersInternal(auth: Option<Token>, users: map<string, User>, startTime: Option<string>,
                                endTime: Option<string>, epoch: Epoch)
    requires auth.Some? && (startTime.None? || epoch(startTime.value).None?)
    ensures CheckCreate(auth, users, None, None, startTime, endTime, epoch) == Err(Internal)
  {
  }

  /** The document written for a new meeting. */
  function StoredMeeting(id: string, p: Parties, mentorId: string, menteeId: string, startTime: string,
                         endTime: Option<string>, topic: Option<string>, location: Option<string>,
                         availabilityId: Option<string>, now: int): (m: Meeting)
    ensures m.status == Pending && m.id == Some(id) && m.hiddenBy == {}
    ensures m.mentorId == Some(mentorId) && m.menteeId == Some(menteeId)
    ensures m.mentorUid == Some(mentorId) && m.menteeUid == Some(menteeId)
    ensures m.mentorDocId == Some(p.mentor.id) && m.menteeDocId == Some(p.mentee.id)
    ensures m.startTime == Some(Instant(startTime))
    ensures m.endTime.Some? <==> Truthy(endTime)
    ensures m.topic == Some(OrElse(topic, "")) && m.location == Some(OrElse(location, ""))
    ensures m.availabilityId == OrNull(availabilityId)
    ensures m.createdBy == Some(p.ctx.uid) && m.createdAt == Some(now) && m.requestedBy.None?
  {
    BlankMeeting(Pending).(
      id := Some(id), mentorDocId := Some(p.mentor.id), menteeDocId := Some(p.mentee.id),
      mentorUid := Some(mentorId), menteeUid := Some(menteeId),
      mentorName := Some(DisplayName(p.mentor.data)), menteeName := Some(DisplayName(p.mentee.data)),
      startTime := Some(Instant(startTime)),
      endTime := if Truthy(endTime) then Some(Instant(endTime.value)) else None,
      topic := Some(OrElse(topic, "")), location := Some(OrElse(location, "")),
      availabilityId := OrNull(availabilityId),
      createdAt := Some(now), createdBy := Some(p.ctx.uid), updatedAt := Some(now),
      mentorId := Some(mentorId), menteeId := Some(menteeId))
  }

  /** The booking written into a slot document; nothing about its earlier state is consulted. */
  function Booked(a: Availability, menteeId: string, mentee: Doc<User>, meetingId: string, now: int): (r: Availability)
    ensures r.isBooked && r.bookedByUid == Some(menteeId) && r.bookedByDocId == Some(mentee.id)
    ensures r.bookedByName == Some(DisplayName(mentee.data)) && r.meetingId == Some(meetingId)
    ensures r.bookedAt == Some(now) && r.updatedAt == Some(now)
    ensures r.slots == a.slots && r.mentorUid == a.mentorUid && r.startTime == a.startTime
  {
    a.(isBooked := true, bookedByUid := Some(menteeId), bookedByDocId := Some(mentee.id),
       bookedByName := Some(DisplayName(mentee.data)), meetingId := Some(meetingId),
       bookedAt := Some(now), updatedAt := Some(now))
  }

  /**
   * The availability collection after booking: only the named document
   * changes; a missing one makes the update throw, which is swallowed.
   */
  function Booking(avail: map<string, Availability>, availabilityId: Option<string>, menteeId: string,
                   mentee: Doc<User>, meetingId: string, now: int): (r: map<string, Availability>)
    ensures r.Keys == avail.Keys
    ensures forall k :: k in avail && !(Truthy(availabilityId) && k == availabilityId.value) ==> r[k] == avail[k]
    ensures Truthy(availabilityId) && availabilityId.value in avail ==>
      r[availabilityId.value] == Booked(avail[availabilityId.value], menteeId, mentee, meetingId, now)
  {
    if Truthy(availabilityId) && availabilityId.value in avail then
      avail[availabilityId.value := Booked(avail[availabilityId.value], menteeId, mentee, meetingId, now)]
    else avail
  }

  /** Freeing a booked slot forgets the booking: it is as if the slot had been freed directly. */
  lemma FreeingUndoesBooking(a: Availability, menteeId: string, mentee: Doc<User>, meetingId: string, now: int, later: int)
    ensures MeetingStatusHandlers.Unbooked(Booked(a, menteeId, mentee, meetingId, now), later) ==
            MeetingStatusHandlers.Unbooked(a, later)
  {
  }

  /** What the handler answers: the id and the meeting with the caller's own time strings. */
  datatype Created = Created(id: string, meeting: Meeting)

  method CreateMeeting(t: Tenant, auth: Option<Token>, mentorId: Option<string>, menteeId: Option<string>,
                       startTime: Option<string>, endTime: Option<string>, topic: Option<string>,
                       location: Option<string>, availabilityId: Option<string>, epoch: Epoch, now: int)
    returns (r: Result<Created>)
    modifies t
    ensures var c := CheckCreate(auth, old(t.state.users), mentorId, menteeId, startTime, endTime, epoch);
      (r.Err? <==> c.Err?) && (r.Err? ==> r.error == c.error && t.state == old(t.state))
    ensures r.Ok? ==>
      var p := CheckCreate(auth, old(t.state.users), mentorId, menteeId, startTime, endTime, epoch).value;
      var id := GenerateMeetingId(p.mentor.id, p.mentee.id, startTime.value, epoch);
      var stored := StoredMeeting(id, p, mentorId.value, menteeId.value, startTime.value, endTime, topic,
                                  location, availabilityId, now);
      r.value.id == id &&
      r.value.meeting == stored.(startTime := Some(Plain(startTime.value)),
                                 endTime := if Truthy(endTime) then Some(Plain(endTime.value)) else None) &&
      t.state == old(t.state).(
        meetings := old(t.state.meetings)[id := stored],
        availability := Booking(old(t.state.availability), availabilityId, menteeId.value, p.mentee, id, now))
  {
    var check := CheckCreate(auth, t.state.users, mentorId, menteeId, startTime, endTime, epoch);
    if check.Err? {
      return Err(check.error);
    }
    var p := check.value;
    var id := GenerateMeetingId(p.mentor.id, p.mentee.id, startTime.value, epoch);
    var stored := StoredMeeting(id, p, mentorId.value, menteeId.value, startTime.value, endTime, topic,
                                location, availabilityId, now);
    t.state := t.state.(meetings := t.state.meetings[id := stored]);
    t.state := t.state.(availability := Booking(t.state.availability, availabilityId, menteeId.value, p.mentee, id, now));
    var answer := stored.(startTime := Some(Plain(startTime.value)),
                          endTime := if Truthy(endTime) then Some(Plain(endTime.value)) else None);
    return Ok(Created(id, answer));
  }

  /**
   * Creating the same meeting twice (same parties and start) leaves one
   * document, the second one: its topic wins and the collection grows
   * by at most one.
   */
  method CreateTwiceOverwrites(t: Tenant, auth: Option<Token>, mentorId: Option<string>, menteeId: Option<string>,
                               startTime: Option<string>, topic1: Option<string>, topic2: Option<string>,
                               epoch: Epoch, now: int)
    returns (first: Result<Created>, second: Result<Created>)
    modifies t
    requires CheckCreate(auth, t.state.users, mentorId, menteeId, startTime, None, epoch).Ok?
    ensures first.Ok? && second.Ok? && first.value.id == second.value.id
    ensures t.state.meetings.Keys == old(t.state.meetings).Keys + {first.value.id}
    ensures t.state.meetings[second.value.id].topic == Some(OrElse(topic2, ""))
  {
    first := CreateMeeting(t, auth, mentorId, menteeId, startTime, None, topic1, None, None, epoch, now);
    second := CreateMeeting(t, auth, mentorId, menteeId, startTime, None, topic2, None, None, epoch, now);
  }
}
