// The partial update of a meeting (meetings/update-meeting.ts): the
// caller's identity and the time are always written; each other field
// only when it is supplied. Nothing checks the status it sets against
// the status machine of the other handlers.
module MeetingUpdates {
  import opened Wrappers
  import opened Types
  import opened Store
  import opened Auth
  import opened Database
  import MeetingStatusHandlers

  /**
   * The fields a caller may supply. `topic` and `location` count as
   * supplied even when empty; the others only when truthy (a status is
   * one of the four).
   */
  datatype Changes = Changes(
    startTime: Option<string>,
    endTime: Option<string>,
    topic: Option<string>,
    location: Option<string>,
    status: Option<MeetingStatus>)

  /** `Timestamp.fromDate` accepts every time that will be written. */
  predicate TimesValid(epoch: Epoch, c: Changes)
  {
    (Truthy(c.startTime) ==> epoch(c.startTime.value).Some?) && (Truthy(c.endTime) ==> epoch(c.endTime.value).Some?)
  }

  /** The update applied to the stored meeting. */
  function UpdatePatch(m: Meeting, uid: string, c: Changes, now: int): (r: Meeting)
    ensures r.updatedBy == Some(uid) && r.updatedAt == Some(now)
    ensures r.startTime == (if Truthy(c.startTime) then Some(Instant(c.startTime.value)) else m.startTime)
    ensures r.endTime == (if Truthy(c.endTime) then Some(Instant(c.endTime.value)) else m.endTime)
    ensures r.topic == (if c.topic.Some? then c.topic else m.topic)
    ensures r.location == (if c.location.Some? then c.location else m.location)
    ensures r.status == (if c.status.Some? then c.status.value else m.status)
    ensures r == m.(updatedBy := r.updatedBy, updatedAt := r.updatedAt, startTime := r.startTime,
                    endTime := r.endTime, topic := r.topic, location := r.location, status := r.status)
  {
    var m1 := m.(updatedAt := Some(now), updatedBy := Some(uid));
    var m2 := if Truthy(c.startTime) then m1.(startTime := Some(Instant(c.startTime.value))) else m1;
    var m3 := if Truthy(c.endTime) then m2.(endTime := Some(Instant(c.endTime.value))) else m2;
    var m4 := if c.topic.Some? then m3.(topic := c.topic) else m3;
    var m5 := if c.location.Some? then m4.(location := c.location) else m4;
    if c.status.Some? then m5.(status := c.status.value) else m5
  }

  /**
   * `updateMeeting`. The checks are those of the status handlers; an
   * invalid time makes `Timestamp.fromDate` throw before the write.
   */
  method UpdateMeeting(t: Tenant, auth: Option<Token>, meetingId: Option<string>, c: Changes, epoch: Epoch, now: int)
    returns (r: Result<DatabaseResult<()>>)
    modifies t
    ensures var load := MeetingStatusHandlers.LoadMeeting(auth, old(t.state.meetings), meetingId);
      (load.Err? ==> r == Err(load.error)) &&
      (load.Ok? && !TimesValid(epoch, c) ==> r == Err(Internal))
    ensures r.Err? ==> t.state == old(t.state)
    ensures r.Ok? <==> MeetingStatusHandlers.LoadMeeting(auth, old(t.state.meetings), meetingId).Ok? && TimesValid(epoch, c)
    ensures r.Ok? ==>
      r.value == MeetingStatusHandlers.Updated &&
      t.state == old(t.state).(
        meetings := old(t.state.meetings)[meetingId.value := UpdatePatch(old(t.state.meetings)[meetingId.value], auth.value.uid, c, now)])
  {
    var target := MeetingStatusHandlers.LoadMeeting(auth, t.state.meetings, meetingId);
    if target.Err? {
      return Err(target.error);
    }
    if !TimesValid(epoch, c) {
      return Err(Internal);
    }
    var uid := target.value.ctx.uid;
    var w := UpdateDocument(t.state.meetings, meetingId.value, (x: Meeting) => UpdatePatch(x, uid, c, now));
    t.state := t.state.(meetings := w.docs);
    return Ok(w.result);
  }

  const NoChanges := Changes(None, None, None, None, None)

  /** With nothing supplied, only who updated and when change. */
  lemma EmptyUpdateTouchesOnlyMetadata(m: Meeting, uid: string, now: int)
    ensures UpdatePatch(m, uid, NoChanges, now) == m.(updatedBy := Some(uid), updatedAt := Some(now))
  {
  }

  /**
   * An empty topic or location is written, while an empty start time,
   * end time or status is ignored.
   */
  lemma EmptyStringsDiffer(m: Meeting, uid: string, now: int)
    ensures UpdatePatch(m, uid, Changes(Some(""), Some(""), Some(""), Some(""), None), now) ==
      m.(updatedBy := Some(uid), updatedAt := Some(now), topic := Some(""), location := Some(""))
  {
  }

  /**
   * Any status can be set, whatever the current one: an update can move
   * a cancelled meeting back to pending, a change no status handler
   * makes.
   */
  lemma UpdateBypassesStatusMachine(m: Meeting, uid: string, s: MeetingStatus, now: int)
    requires m.status == Cancelled
    ensures UpdatePatch(m, uid, NoChanges.(status := Some(s)), now).status == s
    ensures !MeetingStatusHandlers.StatusStep(Cancelled, Pending)
  {
  }

  /** Updating twice with the same changes gives what updating once at the later time does. */
  lemma UpdateIdempotent(m: Meeting, uid: string, c: Changes, now: int, later: int)
    ensures UpdatePatch(UpdatePatch(m, uid, c, now), uid, c, later) == UpdatePatch(m, uid, c, later)
  {
  }
}
