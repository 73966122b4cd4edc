// A mentee's meeting request (meetings/request-meeting.ts). The date and
// the start time are joined into one `dateTtime` key; a named availability
// document must exist, be free and belong to the mentor, but it is not
// booked: the meeting is stored pending and availability is left alone.
module MeetingRequests {
  import opened Wrappers
  import opened Types
  import opened Store
  import opened Auth
  import opened Database
  import opened MeetingHelpers
  import opened MeetingCreation

  predicate RequestFieldsGiven(mentorId: Option<string>, menteeId: Option<string>, date: Option<string>,
                               startTime: Option<string>, topic: Option<string>)
  {
    Truthy(mentorId) && Truthy(menteeId) && Truthy(date) && Truthy(startTime) && Truthy(topic)
  }

  /** `${date}T${time}`. */
  function DateTime(date: string, time: string): string
  {
    date + "T" + time
  }

  /** Only a mentee is restricted, and only to requests of their own. */
  predicate MayRequest(ctx: AuthContext, menteeId: string)
  {
    !(ctx.role == Some("mentee") && ctx.uid != menteeId)
  }

  /**
   * The error the named availability document raises, if any: missing,
   * booked (the top-level flag), or owned by another mentor (its
   * `mentor_uid`; a day document has none, so it always fails here).
   */
  function SlotProblem(avail: map<string, Availability>, availabilityId: Option<string>, mentorId: string): (r: Option<ErrorKind>)
    ensures !Truthy(availabilityId) ==> r.None?
    ensures Truthy(availabilityId) && availabilityId.value !in avail ==> r == Some(NotFound)
    ensures r.None? && Truthy(availabilityId) ==>
      availabilityId.value in avail && !avail[availabilityId.value].isBooked &&
      avail[availabilityId.value].mentorUid == Some(mentorId)
    ensures Truthy(availabilityId) && availabilityId.value in avail && avail[availabilityId.value].isBooked ==>
      r == Some(FailedPrecondition)
    ensures r.Some? ==> r.value in {NotFound, FailedPrecondition, InvalidArgument}
  {
    if !Truthy(availabilityId) then None
    else if availabilityId.value !in avail then Some(NotFound)
    else
      var slot := avail[availabilityId.value];
      if slot.isBooked then Some(FailedPrecondition)
      else if slot.mentorUid != Some(mentorId) then Some(InvalidArgument)
      else None
  }

  /** `Timestamp.fromDate` accepts the joined start and, when an end is given, the joined end. */
  predicate RequestDatesValid(epoch: Epoch, date: string, startTime: string, endTime: Option<string>)
  {
    epoch(DateTime(date, startTime)).Some? && (Truthy(endTime) ==> epoch(DateTime(date, endTime.value)).Some?)
  }

  /** The checks made before the meeting is written, in the order they are made. */
  function CheckRequest(auth: Option<Token>, users: map<string, User>, avail: map<string, Availability>,
                        mentorId: Option<string>, menteeId: Option<string>,
                        date: Option<string>, startTime: Option<string>, endTime: Option<string>,
                        topic: Option<string>, availabilityId: Option<string>, epoch: Epoch): (r: Result<Parties>)
    ensures auth.None? ==> r == Err(Unauthenticated)
    ensures auth.Some? && !RequestFieldsGiven(mentorId, menteeId, date, startTime, topic) ==> r == Err(InvalidArgument)
    ensures auth.Some? && RequestFieldsGiven(mentorId, menteeId, date, startTime, topic) && auth.value.uid == "" ==>
      r == Err(Unauthenticated)
    ensures (auth.Some? && RequestFieldsGiven(mentorId, menteeId, date, startTime, topic) && auth.value.uid != "" &&
             !MayRequest(VerifyAuth(auth).value, menteeId.value)) ==> r == Err(PermissionDenied)
    ensures (auth.Some? && RequestFieldsGiven(mentorId, menteeId, date, startTime, topic) && auth.value.uid != "" &&
             MayRequest(VerifyAuth(auth).value, menteeId.value) &&
             !PartiesFound(users, mentorId.value, menteeId.value)) ==> r == Err(NotFound)
    ensures (auth.Some? && RequestFieldsGiven(mentorId, menteeId, date, startTime, topic) &&
             auth.value.uid != "" && MayRequest(VerifyAuth(auth).value, menteeId.value) &&
             PartiesFound(users, mentorId.value, menteeId.value) &&
             SlotProblem(avail, availabilityId, mentorId.value).Some?) ==>
      r == Err(SlotProblem(avail, availabilityId, mentorId.value).value)
    ensures r.Ok? <==>
      auth.Some? && RequestFieldsGiven(mentorId, menteeId, date, startTime, topic) &&
      auth.value.uid != "" && MayRequest(VerifyAuth(auth).value, menteeId.value) &&
      PartiesFound(users, mentorId.value, menteeId.value) &&
      SlotProblem(avail, availabilityId, mentorId.value).None? &&
      RequestDatesValid(epoch, date.value, startTime.value, endTime)
    ensures r.Err? && r.error == Internal ==> !RequestDatesValid(epoch, date.value, startTime.value, endTime)
    ensures r.Err? ==> r.error in {Unauthenticated, InvalidArgument, PermissionDenied, NotFound, FailedPrecondition, Internal}
    ensures r.Ok? ==>
      r.value.ctx == VerifyAuth(auth).value &&
      GetUserDocByUid(users, mentorId.value) == Some(r.value.mentor) &&
      GetUserDocByUid(users, menteeId.value) == Some(r.value.mentee)
  {
    match VerifyAuth(auth)
    case Err(e) => Err(e)
    case Ok(ctx) =>
      if !RequestFieldsGiven(mentorId, menteeId, date, startTime, topic) then Err(InvalidArgument)
      else if ctx.uid == "" then Err(Unauthenticated)
      else if !MayRequest(ctx, menteeId.value) then Err(PermissionDenied)
      else
        var mentorDoc := GetUserDocByUid(users, mentorId.value);
        var menteeDoc := GetUserDocByUid(users, menteeId.value);
        if mentorDoc.None? || menteeDoc.None? then Err(NotFound)
        else
          match SlotProblem(avail, availabilityId, mentorId.value)
          case Some(e) => Err(e)
          case None =>
            if epoch(DateTime(date.value, startTime.value)).None? then Err(Internal)
            else if Truthy(endTime) && epoch(DateTime(date.value, endTime.value)).None? then Err(Internal)
            else Ok(Parties(ctx, mentorDoc.value, menteeDoc.value))
  }

  /**
   * The document written for a request. It carries `mentor_uid` and
   * `mentee_uid` but, unlike a created meeting, no `mentor_id` or
   * `mentee_id`.
   */
  function RequestedMeeting(id: string, p: Parties, mentorId: string, menteeId: string, start: string,
                            end: Option<string>, topic: string, location: Option<string>,
                            availabilityId: Option<string>, now: int): (m: Meeting)
    ensures m.status == Pending && m.id == Some(id) && m.hiddenBy == {}
    ensures m.mentorUid == Some(mentorId) && m.menteeUid == Some(menteeId)
    ensures m.mentorId.None? && m.menteeId.None?
    ensures m.mentorDocId == Some(p.mentor.id) && m.menteeDocId == Some(p.mentee.id)
    ensures m.startTime == Some(Instant(start)) && (m.endTime.Some? <==> end.Some?)
    ensures m.topic == Some(topic) && m.location == Some(OrElse(location, ""))
    ensures m.availabilityId == OrNull(availabilityId)
    ensures m.requestedBy == Some(menteeId) && m.requestedAt == Some(now) && m.createdBy == Some(p.ctx.uid)
  {
    BlankMeeting(Pending).(
      id := Some(id), mentorDocId := Some(p.mentor.id), menteeDocId := Some(p.mentee.id),
      mentorUid := Some(mentorId), menteeUid := Some(menteeId),
      mentorName := Some(DisplayName(p.mentor.data)), menteeName := Some(DisplayName(p.mentee.data)),
      startTime := Some(Instant(start)),
      endTime := if end.Some? then Some(Instant(end.value)) else None,
      topic := Some(topic), location := Some(OrElse(location, "")),
      availabilityId := OrNull(availabilityId),
      createdAt := Some(now), createdBy := Some(p.ctx.uid),
      requestedBy := Some(menteeId), requestedAt := Some(now), updatedAt := Some(now))
  }

  /** `${date}T${end_time}` when an end time is given. */
  function EndKey(date: string, endTime: Option<string>): (r: Option<string>)
    ensures r.Some? <==> Truthy(endTime)
  {
    if Truthy(endTime) then Some(DateTime(date, endTime.value)) else None
  }

  method RequestMeeting(t: Tenant, auth: Option<Token>, mentorId: Option<string>, menteeId: Option<string>,
                        date: Option<string>, startTime: Option<string>, endTime: Option<string>,
                        topic: Option<string>, location: Option<string>, availabilityId: Option<string>,
                        epoch: Epoch, now: int)
    returns (r: Result<Created>)
    modifies t
    ensures var c := CheckRequest(auth, old(t.state.users), old(t.state.availability), mentorId, menteeId, date, startTime, endTime, topic,
                                  availabilityId, epoch);
      (r.Err? <==> c.Err?) && (r.Err? ==> r.error == c.error && t.state == old(t.state))
    ensures t.state.availability == old(t.state.availability)
    ensures r.Ok? ==>
      var p := CheckRequest(auth, old(t.state.users), old(t.state.availability), mentorId, menteeId, date, startTime, endTime, topic,
                            availabilityId, epoch).value;
      var start := DateTime(date.value, startTime.value);
      var id := GenerateMeetingId(p.mentor.id, p.mentee.id, start, epoch);
      var stored := RequestedMeeting(id, p, mentorId.value, menteeId.value, start, EndKey(date.value, endTime),
                                     topic.value, location, availabilityId, now);
      r.value.id == id &&
      r.value.meeting == stored.(mentorId := Some(mentorId.value), menteeId := Some(menteeId.value),
                                 startTime := Some(Plain(start)),
                                 endTime := if Truthy(endTime) then Some(Plain(EndKey(date.value, endTime).value)) else None) &&
      t.state == old(t.state).(meetings := old(t.state.meetings)[id := stored])
  {
    var check := CheckRequest(auth, t.state.users, t.state.availability, mentorId, menteeId, date, startTime, endTime, topic, availabilityId, epoch);
    if check.Err? {
      return Err(check.error);
    }
    var p := check.value;
    var start := DateTime(date.value, startTime.value);
    var end := EndKey(date.value, endTime);
    var id := GenerateMeetingId(p.mentor.id, p.mentee.id, start, epoch);
    var stored := RequestedMeeting(id, p, mentorId.value, menteeId.value, start, end, topic.value, location,
                                   availabilityId, now);
    t.state := t.state.(meetings := t.state.meetings[id := stored]);
    var answer := stored.(mentorId := Some(mentorId.value), menteeId := Some(menteeId.value),
                          startTime := Some(Plain(start)),
                          endTime := if end.Some? then Some(Plain(end.value)) else None);
    return Ok(Created(id, answer));
  }

  /**
   * A day document (one with `mentor_id` and a `slots` array but no
   * `mentor_uid`) can never be requested: the ownership check fails.
   */
  lemma DayDocumentIsNotRequestable(avail: map<string, Availability>, availabilityId: string, mentorId: string)
    requires availabilityId != "" && availabilityId in avail
    requires !avail[availabilityId].isBooked && avail[availabilityId].mentorUid.None?
    ensures SlotProblem(avail, Some(availabilityId), mentorId) == Some(InvalidArgument)
  {
  }

  /** Only a mentee caller is tied to the request's mentee; a caller of any other role, or none, is not. */
  lemma RequestOpenToOtherRoles(ctx: AuthContext, menteeId: string)
    requires ctx.role != Some("mentee")
    ensures MayRequest(ctx, menteeId)
  {
  }
}
