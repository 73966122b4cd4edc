// The one-off migration (migrations/meetings-availability-migration.ts)
// that moves each user's `meetings`, `availability` and `requestedMeetings`
// subcollections into the university-wide `meetings` and `availability`
// collections under readable ids, and the cleanup that removes the old
// subcollections afterwards. Both are admin-only and default to a dry run,
// which counts what would be done and writes nothing.
//
// The migration is specified by folds over the store's id order (users,
// then each user's documents, then each document's slots), each step
// written as a function of the progress so far; the imperative loops are
// proved to compute exactly these folds.
module Migration {
  import opened Wrappers
  import opened Types
  import opened Text
  import opened Order
  import opened Store
  import MeetingHelpers

  /** The three old subcollections of a user. */
  datatype Source = OldMeetings | OldAvailability | OldRequested

  function SourceName(source: Source): (r: string)
    ensures r in {"meetings", "availability", "requestedMeetings"}
  {
    match source
    case OldMeetings => "meetings"
    case OldAvailability => "availability"
    case OldRequested => "requestedMeetings"
  }

  /** The entries of the run's error list. */
  datatype MigrationError =
    | MissingUid(userId: string)
    | OtherUserNotFound(source: Source, docId: string, otherUid: string)
    | Threw(source: Source, docId: string)

  /** The counters and error list the run reports. */
  datatype Tally = Tally(meetingsMigrated: nat, availabilityMigrated: nat, requestedMeetingsMigrated: nat,
                         errors: seq<MigrationError>)

  const NoTally := Tally(0, 0, 0, [])

  /** The two target collections and the tally, as they stand at some point of the run. */
  datatype Progress = Progress(meetings: map<string, Meeting>, availability: map<string, Availability>, tally: Tally)

  /** What stays fixed during a run: dry or not, the date parser and the current time. */
  datatype Run = Run(dryRun: bool, epoch: Epoch, now: int)

  /** The user whose subcollections are being moved: document id, login id and name. */
  datatype Mover = Mover(userId: string, uid: string, name: Option<string>)

  /** A template literal's rendering of an optional string. */
  function Interpolated(o: Option<string>): (r: string)
    ensures o.Some? ==> r == o.value
  {
    if o.Some? then o.value else "undefined"
  }

  function Logged(p: Progress, e: MigrationError): (r: Progress)
    ensures r.tally.errors == p.tally.errors + [e]
    ensures r == p.(tally := r.tally) && r.tally == p.tally.(errors := r.tally.errors)
  {
    p.(tally := p.tally.(errors := p.tally.errors + [e]))
  }

  /**
   * `r` comes later in the same run than `p`: no meeting in the target
   * collection is replaced or removed, no availability document is removed,
   * no counter goes down and no error entry is forgotten.
   */
  predicate Extends(p: Progress, r: Progress)
  {
    p.meetings.Keys <= r.meetings.Keys && (forall k :: k in p.meetings ==> r.meetings[k] == p.meetings[k]) &&
    p.availability.Keys <= r.availability.Keys &&
    p.tally.meetingsMigrated <= r.tally.meetingsMigrated &&
    p.tally.availabilityMigrated <= r.tally.availabilityMigrated &&
    p.tally.requestedMeetingsMigrated <= r.tally.requestedMeetingsMigrated &&
    p.tally.errors <= r.tally.errors
  }

  lemma ExtendsTransitive(p: Progress, q: Progress, r: Progress)
    requires Extends(p, q) && Extends(q, r)
    ensures Extends(p, r)
  {
  }

  /**
   * `r` comes later than `p` in the availability part of a run: no
   * availability document is removed, the availability counter does not go
   * down and no error entry is forgotten.
   */
  predicate ExtendsAvailability(p: Progress, r: Progress)
  {
    p.availability.Keys <= r.availability.Keys && p.tally.availabilityMigrated <= r.tally.availabilityMigrated &&
    p.tally.errors <= r.tally.errors
  }

  /** A dry run writes nothing. */
  predicate SameTargets(p: Progress, r: Progress)
  {
    r.meetings == p.meetings && r.availability == p.availability
  }

  // ---------------------------------------------------------------- meetings and requested meetings

  /**
   * The seconds in a migrated meeting's id: a stored instant's own seconds
   * unless they are zero, a string parsed as a date; `None` (printed NaN)
   * when there is no start or it does not parse.
   */
  function StartSeconds(start: Option<TimeValue>, epoch: Epoch): (r: Option<int>)
    ensures start.Some? && start.value.Plain? ==> r == epoch(start.value.text)
    ensures start.None? ==> r.None?
  {
    match start
    case None => None
    case Some(Plain(s)) => epoch(s)
    case Some(Instant(s)) => if epoch(s).Some? && epoch(s).value != 0 then epoch(s) else None
  }

  /** What one old meeting becomes: a meeting to write under a new id, or an error entry. */
  datatype Outcome = Write(id: string, meeting: Meeting) | Skip(error: MigrationError)

  /**
   * The moved meeting. The mover is the mentor when the meeting's
   * `mentor_id` is their login id; the other party is the first user, by
   * id, with the other login id. A missing other id cannot be queried (the
   * store throws). Requested meetings become pending.
   */
  function MigrateMeeting(users: map<string, User>, mover: Mover, source: Source, docId: string, m: Meeting,
                          epoch: Epoch, now: int): (o: Outcome)
    ensures o.Skip? ==> !o.error.MissingUid? && o.error.source == source && o.error.docId == docId
    ensures o.Write? ==> o.meeting.id == Some(o.id) && o.meeting.migratedAt == Some(now)
    ensures o.Write? ==> o.meeting.migratedFrom == Some("users/" + mover.userId + "/" + SourceName(source) + "/" + docId)
    ensures o.Write? ==> o.meeting.status == (if source == OldRequested then Pending else m.status)
    ensures o.Write? ==> o.meeting.startTime == m.startTime && o.meeting.mentorDocId.Some? && o.meeting.menteeDocId.Some?
  {
    var base := if source == OldRequested then m.(status := Pending, migratedFromRequested := true) else m;
    var isMentor := m.mentorId == Some(mover.uid);
    var other := if isMentor then m.menteeId else m.mentorId;
    if other.None? then Skip(Threw(source, docId))
    else
      var found := MeetingHelpers.UidMatches(users, other.value);
      if found == {} then Skip(OtherUserNotFound(source, docId, other.value))
      else
        var otherId := FirstKey(found);
        var mentorDoc := if isMentor then mover.userId else otherId;
        var menteeDoc := if isMentor then otherId else mover.userId;
        var id := mentorDoc + "__" + menteeDoc + "__" + MeetingHelpers.SecondsText(StartSeconds(m.startTime, epoch));
        Write(id, base.(
          id := Some(id),
          mentorDocId := Some(mentorDoc),
          menteeDocId := Some(menteeDoc),
          mentorUid := Some(if isMentor then mover.uid else other.value),
          menteeUid := Some(if isMentor then other.value else mover.uid),
          mentorName := if isMentor then mover.name else users[otherId].name,
          menteeName := if isMentor then users[otherId].name else mover.name,
          migratedFrom := Some("users/" + mover.userId + "/" + SourceName(source) + "/" + docId),
          migratedAt := Some(now)))
  }

  function Counted(t: Tally, source: Source): (r: Tally)
    ensures source == OldRequested ==> r == t.(requestedMeetingsMigrated := t.requestedMeetingsMigrated + 1)
    ensures source != OldRequested ==> r == t.(meetingsMigrated := t.meetingsMigrated + 1)
  {
    if source == OldRequested then t.(requestedMeetingsMigrated := t.requestedMeetingsMigrated + 1)
    else t.(meetingsMigrated := t.meetingsMigrated + 1)
  }

  /**
   * One old meeting: an error is logged; a dry run only counts; a real
   * run writes and counts only when the new id is still free.
   */
  function MeetingStep(p: Progress, o: Outcome, source: Source, dryRun: bool): (r: Progress)
    ensures r.availability == p.availability && r.tally.availabilityMigrated == p.tally.availabilityMigrated
    ensures Extends(p, r)
    ensures dryRun ==> r.meetings == p.meetings
    ensures o.Write? && !dryRun ==> o.id in r.meetings
    ensures !dryRun && (o.Write? ==> o.id in p.meetings) ==> r == p.(tally := p.tally.(errors := r.tally.errors))
  {
    match o
    case Skip(e) => Logged(p, e)
    case Write(id, mt) =>
      if dryRun then p.(tally := Counted(p.tally, source))
      else if id in p.meetings then p
      else p.(meetings := p.meetings[id := mt], tally := Counted(p.tally, source))
  }

  /** The meetings loop of one user over the documents `ids`, in order. */
  function MeetingsFold(p: Progress, users: map<string, User>, mover: Mover, source: Source, docs: map<string, Meeting>,
                        ids: seq<string>, run: Run): (r: Progress)
    requires forall i :: 0 <= i < |ids| ==> ids[i] in docs
    ensures r.availability == p.availability && r.tally.availabilityMigrated == p.tally.availabilityMigrated
    ensures Extends(p, r)
    ensures run.dryRun ==> r.meetings == p.meetings
    decreases |ids|
  {
    if ids == [] then p
    else
      var k := ids[|ids| - 1];
      MeetingStep(MeetingsFold(p, users, mover, source, docs, ids[..|ids| - 1], run),
                  MigrateMeeting(users, mover, source, k, docs[k], run.epoch, run.now), source, run.dryRun)
  }

  // ---------------------------------------------------------------- availability

  /** The new id of a slot: the mover's document id and the slot's start, as seconds. */
  function SlotId(userId: string, day: Option<string>, slot: Slot, epoch: Epoch): string
  {
    userId + "__" + MeetingHelpers.SecondsText(epoch(Interpolated(day) + "T" + Interpolated(slot.slotStart)))
  }

  /** A slot's end: its own when set, else an hour after its start; `None` when that throws. */
  function SlotEnd(slot: Slot): (r: Option<string>)
    ensures Truthy(slot.slotEnd) ==> r == slot.slotEnd
    ensures !Truthy(slot.slotEnd) && slot.slotStart.None? ==> r.None?
    ensures !Truthy(slot.slotEnd) && slot.slotStart.Some? ==> r == MeetingHelpers.AddHours(slot.slotStart.value, 1)
  {
    if Truthy(slot.slotEnd) then slot.slotEnd
    else if slot.slotStart.None? then None
    else MeetingHelpers.AddHours(slot.slotStart.value, 1)
  }

  /**
   * One slot as a document of its own, or `None` when building it throws:
   * the day must be a valid date and the end must be computable.
   */
  function MigrateSlot(mover: Mover, docId: string, a: Availability, slot: Slot, run: Run): (r: Option<(string, Availability)>)
    ensures r.Some? <==> a.day.Some? && run.epoch(a.day.value).Some? && SlotEnd(slot).Some?
    ensures r.Some? ==> r.value.0 == SlotId(mover.userId, a.day, slot, run.epoch) && r.value.1.id == Some(r.value.0)
    ensures r.Some? ==> (r.value.1.mentorDocId == Some(mover.userId) && r.value.1.mentorUid == Some(mover.uid) &&
      r.value.1.date == Some(Instant(a.day.value)) && r.value.1.startTime == slot.slotStart &&
      r.value.1.endTime == SlotEnd(slot) && r.value.1.isBooked == slot.isBooked &&
      r.value.1.mentorDate == Some(mover.uid + "_" + a.day.value))
  {
    if a.day.None? || run.epoch(a.day.value).None? then None
    else
      match SlotEnd(slot)
      case None => None
      case Some(end) =>
        var id := SlotId(mover.userId, a.day, slot, run.epoch);
        Some((id, BlankAvailability.(
          id := Some(id),
          mentorUid := Some(mover.uid),
          mentorDocId := Some(mover.userId),
          mentorName := mover.name,
          date := Some(Instant(a.day.value)),
          startTime := slot.slotStart,
          endTime := Some(end),
          isBooked := slot.isBooked,
          bookedByUid := OrNull(slot.menteeId),
          meetingId := OrNull(slot.meetingId),
          createdAt := if a.createdAt.Some? then a.createdAt else Some(run.now),
          updatedAt := Some(run.now),
          mentorDate := Some(mover.uid + "_" + a.day.value),
          migratedFrom := Some("users/" + mover.userId + "/availability/" + docId),
          migratedAt := Some(run.now))))
  }

  /** The slot loop so far, and whether a slot has thrown (which ends the loop). */
  datatype SlotRun = SlotRun(p: Progress, threw: bool)

  /** One slot of the loop: once a slot has thrown nothing changes; a built slot is counted, and written unless dry. */
  function SlotStep(prev: SlotRun, made: Option<(string, Availability)>, dryRun: bool): (r: SlotRun)
    ensures prev.threw ==> r == prev
    ensures !prev.threw && made.None? ==> r == SlotRun(prev.p, true)
    ensures r.p.meetings == prev.p.meetings
    ensures r.p.tally == prev.p.tally.(availabilityMigrated := r.p.tally.availabilityMigrated)
    ensures dryRun ==> r.p.availability == prev.p.availability
    ensures ExtendsAvailability(prev.p, r.p)
    ensures !prev.threw && made.Some? && !dryRun ==> made.value.0 in r.p.availability
  {
    if prev.threw then prev
    else
      match made
      case None => SlotRun(prev.p, true)
      case Some((id, rec)) =>
        var q := prev.p;
        SlotRun(q.(availability := if dryRun then q.availability else q.availability[id := rec],
                   tally := q.tally.(availabilityMigrated := q.tally.availabilityMigrated + 1)), false)
  }

  /** The slots loop of one old availability document. */
  function SlotsFold(p: Progress, mover: Mover, docId: string, a: Availability, slots: seq<Slot>, run: Run): (r: SlotRun)
    ensures r.p.meetings == p.meetings
    ensures r.p.tally == p.tally.(availabilityMigrated := r.p.tally.availabilityMigrated)
    ensures run.dryRun ==> r.p.availability == p.availability
    ensures ExtendsAvailability(p, r.p)
    decreases |slots|
  {
    if slots == [] then SlotRun(p, false)
    else SlotStep(SlotsFold(p, mover, docId, a, slots[..|slots| - 1], run),
                  MigrateSlot(mover, docId, a, slots[|slots| - 1], run), run.dryRun)
  }

  /** One old availability document: its slots, and an error entry when one of them threw. */
  function AvailabilityStep(p: Progress, mover: Mover, docId: string, a: Availability, run: Run): (r: Progress)
    ensures r.meetings == p.meetings
    ensures r.tally.meetingsMigrated == p.tally.meetingsMigrated
    ensures r.tally.requestedMeetingsMigrated == p.tally.requestedMeetingsMigrated
    ensures run.dryRun ==> r.availability == p.availability
    ensures ExtendsAvailability(p, r)
  {
    var s := SlotsFold(p, mover, docId, a, a.slots, run);
    if s.threw then Logged(s.p, Threw(OldAvailability, docId)) else s.p
  }

  function AvailabilityFold(p: Progress, mover: Mover, docs: map<string, Availability>, ids: seq<string>, run: Run)
    : (r: Progress)
    requires forall i :: 0 <= i < |ids| ==> ids[i] in docs
    ensures r.meetings == p.meetings
    ensures r.tally.meetingsMigrated == p.tally.meetingsMigrated
    ensures r.tally.requestedMeetingsMigrated == p.tally.requestedMeetingsMigrated
    ensures run.dryRun ==> r.availability == p.availability
    ensures ExtendsAvailability(p, r)
    decreases |ids|
  {
    if ids == [] then p
    else
      var k := ids[|ids| - 1];
      AvailabilityStep(AvailabilityFold(p, mover, docs, ids[..|ids| - 1], run), mover, k, docs[k], run)
  }

  /** One user's old meetings of one kind, in the store's id order. */
  function MeetingsOf(p: Progress, users: map<string, User>, mover: Mover, source: Source, docs: map<string, Meeting>,
                      run: Run): Progress
  {
    MeetingsFold(p, users, mover, source, docs, SortedKeys(docs.Keys), run)
  }

  /** One user's old availability documents, in the store's id order. */
  function AvailabilityOf(p: Progress, mover: Mover, docs: map<string, Availability>, run: Run): Progress
  {
    AvailabilityFold(p, mover, docs, SortedKeys(docs.Keys), run)
  }

  // ---------------------------------------------------------------- users

  /** A user's old subcollection; a missing one is empty. */
  function Sub<T>(m: map<string, map<string, T>>, userId: string): (r: map<string, T>)
    ensures userId in m ==> r == m[userId]
    ensures userId !in m ==> r == map[]
  {
    if userId in m then m[userId] else map[]
  }

  /** The user `userId` as the mover of their own subcollections. */
  function MoverOf(users: map<string, User>, userId: string): (r: Mover)
    requires userId in users && Truthy(users[userId].firebaseUid)
    ensures r.userId == userId && users[userId].firebaseUid == Some(r.uid)
  {
    Mover(userId, users[userId].firebaseUid.value, users[userId].name)
  }

  /** One user: without a login id, an error entry; else their meetings, availability and requested meetings. */
  function UserStep(p: Progress, s: TenantState, userId: string, run: Run): (r: Progress)
    requires userId in s.users
    ensures Extends(p, r)
    ensures run.dryRun ==> SameTargets(p, r)
  {
    if !Truthy(s.users[userId].firebaseUid) then Logged(p, MissingUid(userId))
    else
      var mover := MoverOf(s.users, userId);
      var meetings := Sub(s.userMeetings, userId);
      var availability := Sub(s.userAvailability, userId);
      var requested := Sub(s.userRequested, userId);
      var p1 := MeetingsOf(p, s.users, mover, OldMeetings, meetings, run);
      var p2 := AvailabilityOf(p1, mover, availability, run);
      var p3 := MeetingsOf(p2, s.users, mover, OldRequested, requested, run);
      ExtendsTransitive(p, p1, p2);
      ExtendsTransitive(p, p2, p3);
      p3
  }

  function UsersFold(p: Progress, s: TenantState, ids: seq<string>, run: Run): (r: Progress)
    requires forall i :: 0 <= i < |ids| ==> ids[i] in s.users
    ensures Extends(p, r)
    ensures run.dryRun ==> SameTargets(p, r)
    decreases |ids|
  {
    if ids == [] then p
    else UserStep(UsersFold(p, s, ids[..|ids| - 1], run), s, ids[|ids| - 1], run)
  }

  /** The whole migration of a university's store. */
  function Migrate(s: TenantState, run: Run): Progress
  {
    UsersFold(Progress(s.meetings, s.availability, NoTally), s, SortedKeys(s.users.Keys), run)
  }

  // ---------------------------------------------------------------- the imperative run

  /** The run's statistics object, which every per-user helper updates. */
  class MigrationStats {
    var meetingsMigrated: nat
    var availabilityMigrated: nat
    var requestedMeetingsMigrated: nat
    var errors: seq<MigrationError>

    constructor ()
      ensures Current() == NoTally
    {
      meetingsMigrated, availabilityMigrated, requestedMeetingsMigrated, errors := 0, 0, 0, [];
    }

    function Current(): Tally
      reads this
    {
      Tally(meetingsMigrated, availabilityMigrated, requestedMeetingsMigrated, errors)
    }
  }

  function ProgressOf(t: Tenant, stats: MigrationStats): Progress
    reads t, stats
  {
    Progress(t.state.meetings, t.state.availability, stats.Current())
  }

  /** Bumps the counter of the subcollection a written meeting came from. */
  method Count(stats: MigrationStats, source: Source)
    modifies stats
    ensures stats.Current() == Counted(old(stats.Current()), source)
  {
    if source == OldRequested {
      stats.requestedMeetingsMigrated := stats.requestedMeetingsMigrated + 1;
    } else {
      stats.meetingsMigrated := stats.meetingsMigrated + 1;
    }
  }

  /** One old meeting's outcome applied to the store and the statistics. */
  method ApplyMeeting(t: Tenant, stats: MigrationStats, o: Outcome, source: Source, dryRun: bool)
    modifies t, stats
    ensures ProgressOf(t, stats) == MeetingStep(old(ProgressOf(t, stats)), o, source, dryRun)
    ensures t.state == old(t.state).(meetings := t.state.meetings)
  {
    match o {
      case Skip(e) =>
        stats.errors := stats.errors + [e];
      case Write(id, mt) =>
        if dryRun {
          Count(stats, source);
        } else if id !in t.state.meetings {
          t.state := t.state.(meetings := t.state.meetings[id := mt]);
          Count(stats, source);
        }
    }
  }

  /** One more document of the meetings loop is one more step. */
  lemma MeetingsFoldNext(p: Progress, users: map<string, User>, mover: Mover, source: Source, docs: map<string, Meeting>,
                         ids: seq<string>, i: nat, run: Run)
    requires i < |ids| && forall j :: 0 <= j < |ids| ==> ids[j] in docs
    ensures MeetingsFold(p, users, mover, source, docs, ids[..i + 1], run) ==
      MeetingStep(MeetingsFold(p, users, mover, source, docs, ids[..i], run),
                  MigrateMeeting(users, mover, source, ids[i], docs[ids[i]], run.epoch, run.now), source, run.dryRun)
  {
    assert ids[..i + 1][..i] == ids[..i];
  }

  /** The body of the meetings loop: the document `ids[i]`. */
  method MigrateMeetingAt(t: Tenant, stats: MigrationStats, ghost p0: Progress, mover: Mover, source: Source,
                          docs: map<string, Meeting>, ids: seq<string>, i: nat, run: Run)
    requires i < |ids| && forall j :: 0 <= j < |ids| ==> ids[j] in docs
    requires ProgressOf(t, stats) == MeetingsFold(p0, t.state.users, mover, source, docs, ids[..i], run)
    modifies t, stats
    ensures ProgressOf(t, stats) == MeetingsFold(p0, old(t.state.users), mover, source, docs, ids[..i + 1], run)
    ensures t.state == old(t.state).(meetings := t.state.meetings)
  {
    MeetingsFoldNext(p0, t.state.users, mover, source, docs, ids, i, run);
    var o := MigrateMeeting(t.state.users, mover, source, ids[i], docs[ids[i]], run.epoch, run.now);
    ApplyMeeting(t, stats, o, source, run.dryRun);
  }

  /** `migrateMeetingsForUser` and `migrateRequestedMeetingsForUser`: one user's old meetings of one kind. */
  method MigrateMeetingsForUser(t: Tenant, stats: MigrationStats, mover: Mover, source: Source,
                                docs: map<string, Meeting>, run: Run)
    modifies t, stats
    ensures ProgressOf(t, stats) == MeetingsOf(old(ProgressOf(t, stats)), old(t.state.users), mover, source, docs, run)
    ensures t.state == old(t.state).(meetings := t.state.meetings)
  {
    MigrateMeetingDocs(t, stats, mover, source, docs, SortedKeys(docs.Keys), run);
  }

  /** The loop of `migrateMeetingsForUser` over the documents `ids`, in order. */
  method MigrateMeetingDocs(t: Tenant, stats: MigrationStats, mover: Mover, source: Source,
                            docs: map<string, Meeting>, ids: seq<string>, run: Run)
    requires forall j :: 0 <= j < |ids| ==> ids[j] in docs
    modifies t, stats
    ensures ProgressOf(t, stats) == MeetingsFold(old(ProgressOf(t, stats)), old(t.state.users), mover, source, docs, ids, run)
    ensures t.state == old(t.state).(meetings := t.state.meetings)
  {
    ghost var p0 := ProgressOf(t, stats);
    ghost var users := t.state.users;
    for i := 0 to |ids|
      invariant ProgressOf(t, stats) == MeetingsFold(p0, users, mover, source, docs, ids[..i], run)
      invariant t.state == old(t.state).(meetings := t.state.meetings)
    {
      MigrateMeetingAt(t, stats, p0, mover, source, docs, ids, i, run);
    }
    assert ids[..|ids|] == ids;
  }

  lemma SlotsFoldNext(p: Progress, mover: Mover, docId: string, a: Availability, slots: seq<Slot>, i: nat, run: Run)
    requires i < |slots|
    ensures SlotsFold(p, mover, docId, a, slots[..i + 1], run) ==
      SlotStep(SlotsFold(p, mover, docId, a, slots[..i], run), MigrateSlot(mover, docId, a, slots[i], run), run.dryRun)
  {
    assert slots[..i + 1][..i] == slots[..i];
  }

  /** One built slot applied to the store and the statistics. */
  method ApplySlot(t: Tenant, stats: MigrationStats, made: Option<(string, Availability)>, dryRun: bool)
    modifies t, stats
    ensures SlotRun(ProgressOf(t, stats), made.None?) == SlotStep(SlotRun(old(ProgressOf(t, stats)), false), made, dryRun)
    ensures t.state == old(t.state).(availability := t.state.availability)
  {
    if made.Some? {
      var (id, rec) := made.value;
      if !dryRun {
        t.state := t.state.(availability := t.state.availability[id := rec]);
      }
      stats.availabilityMigrated := stats.availabilityMigrated + 1;
    }
  }

  /** The slots of one old availability document; `threw` reports the slot that ended the loop. */
  method MigrateSlots(t: Tenant, stats: MigrationStats, mover: Mover, docId: string, a: Availability, run: Run)
    returns (threw: bool)
    modifies t, stats
    ensures SlotRun(ProgressOf(t, stats), threw) == SlotsFold(old(ProgressOf(t, stats)), mover, docId, a, a.slots, run)
    ensures t.state == old(t.state).(availability := t.state.availability)
  {
    ghost var p0 := ProgressOf(t, stats);
    threw := false;
    var i := 0;
    while i < |a.slots| && !threw
      invariant 0 <= i <= |a.slots|
      invariant SlotRun(ProgressOf(t, stats), threw) == SlotsFold(p0, mover, docId, a, a.slots[..i], run)
      invariant t.state == old(t.state).(availability := t.state.availability)
    {
      SlotsFoldNext(p0, mover, docId, a, a.slots, i, run);
      var made := MigrateSlot(mover, docId, a, a.slots[i], run);
      ApplySlot(t, stats, made, run.dryRun);
      threw := made.None?;
      i := i + 1;
    }
    SlotsFoldStopped(p0, mover, docId, a, a.slots, i, run);
  }

  /** Once a slot has thrown, the later slots change nothing. */
  lemma {:induction false} SlotsFoldStopped(p: Progress, mover: Mover, docId: string, a: Availability, slots: seq<Slot>,
                                            i: nat, run: Run)
    requires i <= |slots|
    requires i < |slots| ==> SlotsFold(p, mover, docId, a, slots[..i], run).threw
    ensures SlotsFold(p, mover, docId, a, slots, run) == SlotsFold(p, mover, docId, a, slots[..i], run)
    decreases |slots| - i
  {
    if i == |slots| {
      assert slots[..i] == slots;
    } else {
      var n := |slots|;
      assert slots[..n - 1][..i] == slots[..i];
      SlotsFoldStopped(p, mover, docId, a, slots[..n - 1], i, run);
      SlotsFoldNext(p, mover, docId, a, slots, n - 1, run);
      assert slots[..n] == slots;
    }
  }

  lemma AvailabilityFoldNext(p: Progress, mover: Mover, docs: map<string, Availability>, ids: seq<string>, i: nat, run: Run)
    requires i < |ids| && forall j :: 0 <= j < |ids| ==> ids[j] in docs
    ensures AvailabilityFold(p, mover, docs, ids[..i + 1], run) ==
      AvailabilityStep(AvailabilityFold(p, mover, docs, ids[..i], run), mover, ids[i], docs[ids[i]], run)
  {
    assert ids[..i + 1][..i] == ids[..i];
  }

  /** `migrateAvailabilityForUser`: every old availability document of one user. */
  method MigrateAvailabilityForUser(t: Tenant, stats: MigrationStats, mover: Mover, docs: map<string, Availability>, run: Run)
    modifies t, stats
    ensures ProgressOf(t, stats) == AvailabilityOf(old(ProgressOf(t, stats)), mover, docs, run)
    ensures t.state == old(t.state).(availability := t.state.availability)
  {
    MigrateAvailabilityDocs(t, stats, mover, docs, SortedKeys(docs.Keys), run);
  }

  /** The loop of `migrateAvailabilityForUser` over the documents `ids`, in order. */
  method MigrateAvailabilityDocs(t: Tenant, stats: MigrationStats, mover: Mover, docs: map<string, Availability>,
                                 ids: seq<string>, run: Run)
    requires forall j :: 0 <= j < |ids| ==> ids[j] in docs
    modifies t, stats
    ensures ProgressOf(t, stats) == AvailabilityFold(old(ProgressOf(t, stats)), mover, docs, ids, run)
    ensures t.state == old(t.state).(availability := t.state.availability)
  {
    ghost var p0 := ProgressOf(t, stats);
    for i := 0 to |ids|
      invariant ProgressOf(t, stats) == AvailabilityFold(p0, mover, docs, ids[..i], run)
      invariant t.state == old(t.state).(availability := t.state.availability)
    {
      MigrateAvailabilityAt(t, stats, p0, mover, docs, ids, i, run);
    }
    assert ids[..|ids|] == ids;
  }

  /** The body of the availability loop: the document `ids[i]`, and an error entry when one of its slots threw. */
  method MigrateAvailabilityAt(t: Tenant, stats: MigrationStats, ghost p0: Progress, mover: Mover,
                               docs: map<string, Availability>, ids: seq<string>, i: nat, run: Run)
    requires i < |ids| && forall j :: 0 <= j < |ids| ==> ids[j] in docs
    requires ProgressOf(t, stats) == AvailabilityFold(p0, mover, docs, ids[..i], run)
    modifies t, stats
    ensures ProgressOf(t, stats) == AvailabilityFold(p0, mover, docs, ids[..i + 1], run)
    ensures t.state == old(t.state).(availability := t.state.availability)
  {
    AvailabilityFoldNext(p0, mover, docs, ids, i, run);
    var threw := MigrateSlots(t, stats, mover, ids[i], docs[ids[i]], run);
    if threw {
      stats.errors := stats.errors + [Threw(OldAvailability, ids[i])];
    }
  }

  lemma UsersFoldNext(p: Progress, s: TenantState, ids: seq<string>, i: nat, run: Run)
    requires i < |ids| && forall j :: 0 <= j < |ids| ==> ids[j] in s.users
    ensures UsersFold(p, s, ids[..i + 1], run) == UserStep(UsersFold(p, s, ids[..i], run), s, ids[i], run)
  {
    assert ids[..i + 1][..i] == ids[..i];
  }

  /** One user of the run: their three old subcollections, or an error entry when they have no login id. */
  method MigrateUser(t: Tenant, stats: MigrationStats, ghost s: TenantState, userId: string, run: Run)
    requires userId in s.users
    requires t.state == s.(meetings := t.state.meetings, availability := t.state.availability)
    modifies t, stats
    ensures ProgressOf(t, stats) == UserStep(old(ProgressOf(t, stats)), s, userId, run)
    ensures t.state == s.(meetings := t.state.meetings, availability := t.state.availability)
  {
    var u := t.state.users[userId];
    if !Truthy(u.firebaseUid) {
      stats.errors := stats.errors + [MissingUid(userId)];
    } else {
      var mover := MoverOf(t.state.users, userId);
      MigrateMeetingsForUser(t, stats, mover, OldMeetings, Sub(t.state.userMeetings, userId), run);
      MigrateAvailabilityForUser(t, stats, mover, Sub(t.state.userAvailability, userId), run);
      MigrateMeetingsForUser(t, stats, mover, OldRequested, Sub(t.state.userRequested, userId), run);
    }
  }

  /** The users `ids`, in order. */
  method MigrateUsers(t: Tenant, stats: MigrationStats, ghost s: TenantState, ids: seq<string>, run: Run)
    requires forall k :: k in ids ==> k in s.users
    requires t.state == s.(meetings := t.state.meetings, availability := t.state.availability)
    modifies t, stats
    ensures ProgressOf(t, stats) == UsersFold(old(ProgressOf(t, stats)), s, ids, run)
    ensures t.state == s.(meetings := t.state.meetings, availability := t.state.availability)
  {
    ghost var p0 := ProgressOf(t, stats);
    for i := 0 to |ids|
      invariant ProgressOf(t, stats) == UsersFold(p0, s, ids[..i], run)
      invariant t.state == s.(meetings := t.state.meetings, availability := t.state.availability)
    {
      UsersFoldNext(p0, s, ids, i, run);
      MigrateUser(t, stats, s, ids[i], run);
    }
    assert ids[..|ids|] == ids;
  }

  /** Every user of the university, in id order, with one statistics object for the whole run. */
  method MigrateAll(t: Tenant, run: Run) returns (tally: Tally)
    modifies t
    ensures Progress(t.state.meetings, t.state.availability, tally) == Migrate(old(t.state), run)
    ensures t.state == old(t.state).(meetings := t.state.meetings, availability := t.state.availability)
  {
    var stats := new MigrationStats();
    MigrateUsers(t, stats, t.state, SortedKeys(t.state.users.Keys), run);
    return stats.Current();
  }

  /** What the migration reports. */
  datatype MigrationReport = MigrationReport(stats: Tally, message: string)

  function MigrationMessage(dryRun: bool): string
  {
    if dryRun then "Dry run completed. No data was modified." else "Migration completed successfully."
  }

  /** `dryRun` defaults to a dry run when it is not given. */
  function DryRun(dryRun: Option<bool>): (r: bool)
    ensures dryRun.None? ==> r
  {
    dryRun.None? || dryRun.value
  }

  /**
   * `migrateMeetingsAndAvailability`: an admin token and a university path
   * are required. Users are taken in id order; one without a login id is
   * logged and skipped.
   */
  method MigrateMeetingsAndAvailability(t: Tenant, auth: Option<Token>, universityPath: Option<string>,
                                        dryRun: Option<bool>, epoch: Epoch, now: int)
    returns (r: Result<MigrationReport>)
    modifies t
    ensures auth.None? || !auth.value.admin ==> r == Err(PermissionDenied)
    ensures auth.Some? && auth.value.admin && !Truthy(universityPath) ==> r == Err(InvalidArgument)
    ensures r.Err? ==> t.state == old(t.state)
    ensures r.Ok? <==> auth.Some? && auth.value.admin && Truthy(universityPath)
    ensures r.Ok? ==>
      var p := Migrate(old(t.state), Run(DryRun(dryRun), epoch, now));
      r.value == MigrationReport(p.tally, MigrationMessage(DryRun(dryRun))) &&
      t.state == old(t.state).(meetings := p.meetings, availability := p.availability)
    ensures r.Ok? && DryRun(dryRun) ==> t.state == old(t.state)
  {
    if auth.None? || !auth.value.admin {
      return Err(PermissionDenied);
    }
    if !Truthy(universityPath) {
      return Err(InvalidArgument);
    }
    var run := Run(DryRun(dryRun), epoch, now);
    var tally := MigrateAll(t, run);
    return Ok(MigrationReport(tally, MigrationMessage(run.dryRun)));
  }

  // ---------------------------------------------------------------- cleanup

  /** The three subcollections the cleanup empties. */
  const OldSubcollections: set<string> := {"meetings", "availability", "requestedMeetings"}

  /** The subcollections among the three that hold a `_metadata` marker of the user. */
  function OldMarkers(s: TenantState, userId: string): (r: set<string>)
    ensures r <= OldSubcollections
    ensures forall n :: n in r <==> n in OldSubcollections && n in Sub(s.userMarkers, userId)
  {
    Sub(s.userMarkers, userId).Keys * OldSubcollections
  }

  /** The old documents a user holds in the three subcollections, their `_metadata` markers included. */
  function OldDocuments(s: TenantState, userId: string): nat
  {
    |Sub(s.userMeetings, userId)| + |Sub(s.userAvailability, userId)| + |Sub(s.userRequested, userId)| +
    |OldMarkers(s, userId)|
  }

  /** The documents the cleanup loop counts over the users `ids`. */
  function OldDocumentsOf(s: TenantState, ids: seq<string>): (n: nat)
    ensures ids == [] ==> n == 0
    decreases |ids|
  {
    if ids == [] then 0 else OldDocumentsOf(s, ids[..|ids| - 1]) + OldDocuments(s, ids[|ids| - 1])
  }

  /**
   * The users' markers once the three subcollections of the users `ids`
   * are deleted: those users keep only the markers of their other
   * subcollections.
   */
  function ClearedMarkers(m: map<string, map<string, SubcollectionMarker>>, ids: set<string>)
    : (r: map<string, map<string, SubcollectionMarker>>)
    ensures r.Keys == m.Keys
    ensures forall u :: u in r ==> r[u] == if u in ids then m[u] - OldSubcollections else m[u]
  {
    map u | u in m :: if u in ids then m[u] - OldSubcollections else m[u]
  }

  /** The store once the old subcollections of the users `ids` are deleted; other users' stay. */
  function Cleared(s: TenantState, ids: set<string>): (r: TenantState)
    ensures r == s.(userMeetings := r.userMeetings, userAvailability := r.userAvailability,
                    userRequested := r.userRequested, userMarkers := r.userMarkers)
  {
    s.(userMeetings := s.userMeetings - ids, userAvailability := s.userAvailability - ids,
       userRequested := s.userRequested - ids, userMarkers := ClearedMarkers(s.userMarkers, ids))
  }

  /** After clearing, the given users hold no old documents; any other user keeps theirs. */
  lemma ClearedEmpties(s: TenantState, ids: set<string>)
    ensures forall k :: k in ids ==> OldDocuments(Cleared(s, ids), k) == 0
    ensures forall k :: k !in ids ==> OldDocuments(Cleared(s, ids), k) == OldDocuments(s, k)
  {
    forall k | k in ids
      ensures OldDocuments(Cleared(s, ids), k) == 0
    {
      ClearedUserEmpty(s, ids, k);
    }
  }

  lemma ClearedUserEmpty(s: TenantState, ids: set<string>, userId: string)
    requires userId in ids
    ensures OldDocuments(Cleared(s, ids), userId) == 0
  {
    var c := Cleared(s, ids);
    assert OldMarkers(c, userId) == {} by {
      if userId in s.userMarkers {
        assert Sub(c.userMarkers, userId) == s.userMarkers[userId] - OldSubcollections;
      }
    }
  }

  /** A cleared user keeps the markers of their other subcollections, and nobody else's markers change. */
  lemma ClearedKeepsOtherMarkers(s: TenantState, ids: set<string>, userId: string, name: string)
    requires userId in s.userMarkers && name in s.userMarkers[userId]
    ensures name in Sub(Cleared(s, ids).userMarkers, userId) <==> userId !in ids || name !in OldSubcollections
  {
  }

  datatype CleanupReport = CleanupReport(deletedCount: nat, message: string)

  function CleanupMessage(dryRun: bool, count: nat): string
  {
    if dryRun then "Dry run: Would delete " + NatToString(count) + " documents"
    else "Deleted " + NatToString(count) + " documents from subcollections"
  }

  lemma MinusOneMore<V>(m: map<string, map<string, V>>, done: set<string>, userId: string)
    ensures (m - done) - {userId} == m - (done + {userId})
    ensures userId !in done ==> Sub(m - done, userId) == Sub(m, userId)
  {
  }

  /** Clearing nobody changes nothing. */
  lemma ClearedNobody(s: TenantState)
    ensures Cleared(s, {}) == s
  {
    assert ClearedMarkers(s.userMarkers, {}) == s.userMarkers;
  }

  /** Clearing one more user's markers is clearing the larger set. */
  lemma ClearedMarkersOneMore(m: map<string, map<string, SubcollectionMarker>>, done: set<string>, userId: string)
    ensures ClearedMarkers(ClearedMarkers(m, done), {userId}) == ClearedMarkers(m, done + {userId})
    ensures userId !in done ==> Sub(ClearedMarkers(m, done), userId) == Sub(m, userId)
  {
    var a, b := ClearedMarkers(ClearedMarkers(m, done), {userId}), ClearedMarkers(m, done + {userId});
    forall u | u in a
      ensures a[u] == b[u]
    {
      if u in done && u == userId {
        assert m[u] - OldSubcollections - OldSubcollections == m[u] - OldSubcollections;
      }
    }
  }

  /** The user's three subcollections after one more user is cleared. */
  lemma ClearedNext(s: TenantState, done: set<string>, userId: string)
    ensures Cleared(Cleared(s, done), {userId}) == Cleared(s, done + {userId})
    ensures userId !in done ==> OldDocuments(Cleared(s, done), userId) == OldDocuments(s, userId)
  {
    MinusOneMore(s.userMeetings, done, userId);
    MinusOneMore(s.userAvailability, done, userId);
    MinusOneMore(s.userRequested, done, userId);
    ClearedMarkersOneMore(s.userMarkers, done, userId);
  }

  lemma OldDocumentsNext(s: TenantState, ids: seq<string>, i: nat)
    requires i < |ids|
    ensures OldDocumentsOf(s, ids[..i + 1]) == OldDocumentsOf(s, ids[..i]) + OldDocuments(s, ids[i])
  {
    assert ids[..i + 1][..i] == ids[..i];
  }

  /** The users of the cleanup loop's first `i + 1` steps, the last of them new. */
  lemma PrefixMembers(ids: seq<string>, i: nat)
    requires i < |ids| && forall a, b :: 0 <= a < b < |ids| ==> ids[a] != ids[b]
    ensures ids[i] !in ids[..i]
    ensures forall k :: k in ids[..i + 1] <==> k in ids[..i] || k == ids[i]
  {
    assert ids[..i + 1] == ids[..i] + [ids[i]];
  }

  /** One user of the cleanup: their old documents are counted, and deleted unless dry. */
  method ClearUser(t: Tenant, userId: string, dryRun: bool) returns (n: nat)
    modifies t
    ensures n == OldDocuments(old(t.state), userId)
    ensures t.state == if dryRun then old(t.state) else Cleared(old(t.state), {userId})
  {
    var markers := Sub(t.state.userMarkers, userId).Keys * OldSubcollections;
    n := |Sub(t.state.userMeetings, userId)| + |Sub(t.state.userAvailability, userId)| +
         |Sub(t.state.userRequested, userId)| + |markers|;
    if !dryRun {
      t.state := t.state.(userMeetings := t.state.userMeetings - {userId},
                          userAvailability := t.state.userAvailability - {userId},
                          userRequested := t.state.userRequested - {userId},
                          userMarkers := ClearedMarkers(t.state.userMarkers, {userId}));
    }
  }

  /**
   * One step of the cleanup loop over the distinct users `ids`, the first
   * `i` of them `done`: the count of the first `i + 1` users, given the
   * state before clearing `ids[i]`.
   */
  lemma ClearStepCount(s: TenantState, done: set<string>, ids: seq<string>, i: nat, dryRun: bool, before: TenantState)
    requires i < |ids| && forall a, b :: 0 <= a < b < |ids| ==> ids[a] != ids[b]
    requires forall k :: k in done <==> k in ids[..i]
    requires before == if dryRun then s else Cleared(s, done)
    ensures OldDocumentsOf(s, ids[..i + 1]) == OldDocumentsOf(s, ids[..i]) + OldDocuments(before, ids[i])
    ensures forall k :: k in done + {ids[i]} <==> k in ids[..i + 1]
  {
    PrefixMembers(ids, i);
    assert OldDocuments(before, ids[i]) == OldDocuments(s, ids[i]) by {
      assert ids[i] !in done;
      ClearedNext(s, done, ids[i]);
    }
    OldDocumentsNext(s, ids, i);
  }

  /** One step of the cleanup loop: the state after clearing `ids[i]` is the first `i + 1` users cleared. */
  lemma ClearStepState(s: TenantState, done: set<string>, userId: string, dryRun: bool, before: TenantState, after: TenantState)
    requires before == if dryRun then s else Cleared(s, done)
    requires after == if dryRun then before else Cleared(before, {userId})
    ensures after == if dryRun then s else Cleared(s, done + {userId})
  {
    ClearedNext(s, done, userId);
  }

  /** The cleanup loop over the distinct users `ids`. */
  method ClearUsers(t: Tenant, ids: seq<string>, ghost users: set<string>, dryRun: bool) returns (count: nat)
    requires forall a, b :: 0 <= a < b < |ids| ==> ids[a] != ids[b]
    requires forall k :: k in ids <==> k in users
    modifies t
    ensures count == OldDocumentsOf(old(t.state), ids)
    ensures dryRun ==> t.state == old(t.state)
    ensures !dryRun ==> t.state == Cleared(old(t.state), users)
  {
    ghost var s := t.state;
    ghost var done: set<string> := {};
    count := 0;
    ClearedNobody(s);
    for i := 0 to |ids|
      invariant count == OldDocumentsOf(s, ids[..i])
      invariant forall k :: k in done <==> k in ids[..i]
      invariant t.state == if dryRun then s else Cleared(s, done)
    {
      ClearStepCount(s, done, ids, i, dryRun, t.state);
      ghost var before := t.state;
      var n := ClearUser(t, ids[i], dryRun);
      ClearStepState(s, done, ids[i], dryRun, before, t.state);
      count := count + n;
      done := done + {ids[i]};
    }
    assert ids[..|ids|] == ids;
    assert done == users;
  }

  /**
   * `cleanupOldMeetingSubcollections`: an admin token and a university path
   * are required; the old documents of every user are counted and, unless
   * the run is dry, deleted. Migrated meetings and availability stay.
   */
  method CleanupOldMeetingSubcollections(t: Tenant, auth: Option<Token>, universityPath: Option<string>,
                                         dryRun: Option<bool>)
    returns (r: Result<CleanupReport>)
    modifies t
    ensures auth.None? || !auth.value.admin ==> r == Err(PermissionDenied)
    ensures auth.Some? && auth.value.admin && !Truthy(universityPath) ==> r == Err(InvalidArgument)
    ensures r.Err? ==> t.state == old(t.state)
    ensures r.Ok? <==> auth.Some? && auth.value.admin && Truthy(universityPath)
    ensures r.Ok? ==>
      var n := OldDocumentsOf(old(t.state), SortedKeys(old(t.state.users).Keys));
      r.value == CleanupReport(n, CleanupMessage(DryRun(dryRun), n)) &&
      t.state == if DryRun(dryRun) then old(t.state) else Cleared(old(t.state), old(t.state.users).Keys)
  {
    if auth.None? || !auth.value.admin {
      return Err(PermissionDenied);
    }
    if !Truthy(universityPath) {
      return Err(InvalidArgument);
    }
    var dry := DryRun(dryRun);
    var ids := SortedKeys(t.state.users.Keys);
    forall a, b | 0 <= a < b < |ids|
      ensures ids[a] != ids[b]
    {
      LtIrreflexive(ids[a]);
    }
    var count := ClearUsers(t, ids, t.state.users.Keys, dry);
    return Ok(CleanupReport(count, CleanupMessage(dry, count)));
  }

  // ---------------------------------------------------------------- properties

  /**
   * A moved meeting links two real users: the mover and the other party
   * are both stored users whose login ids are the meeting's mentor and
   * mentee uids, and the mover is one of the two.
   */
  lemma MovedMeetingLinksParties(users: map<string, User>, mover: Mover, source: Source, docId: string, m: Meeting,
                                 epoch: Epoch, now: int)
    requires mover.userId in users && users[mover.userId].firebaseUid == Some(mover.uid)
    ensures var o := MigrateMeeting(users, mover, source, docId, m, epoch, now);
      o.Write? ==>
        var mentor := o.meeting.mentorDocId.value;
        var mentee := o.meeting.menteeDocId.value;
        mentor in users && mentee in users &&
        users[mentor].firebaseUid == o.meeting.mentorUid && users[mentee].firebaseUid == o.meeting.menteeUid &&
        (mover.userId == mentor || mover.userId == mentee)
  {
    var o := MigrateMeeting(users, mover, source, docId, m, epoch, now);
    if o.Write? {
      var isMentor := m.mentorId == Some(mover.uid);
      var other := if isMentor then m.menteeId else m.mentorId;
      var otherId := FirstKey(MeetingHelpers.UidMatches(users, other.value));
      assert users[otherId].firebaseUid == other;
    }
  }

  /** For a start stored as a string, the moved meeting's id is the one the booking code generates. */
  lemma MovedMeetingIdIsGenerated(users: map<string, User>, mover: Mover, source: Source, docId: string, m: Meeting,
                                  epoch: Epoch, now: int, start: string)
    requires m.startTime == Some(Plain(start))
    ensures var o := MigrateMeeting(users, mover, source, docId, m, epoch, now);
      o.Write? ==>
        o.id == MeetingHelpers.GenerateMeetingId(o.meeting.mentorDocId.value, o.meeting.menteeDocId.value, start, epoch)
  {
  }

  /** A slot's new id is the one the availability code generates for its mentor, day and start. */
  lemma SlotIdIsGenerated(userId: string, day: string, slot: Slot, epoch: Epoch)
    requires slot.slotStart.Some?
    ensures SlotId(userId, Some(day), slot, epoch) ==
      MeetingHelpers.GenerateAvailabilityId(userId, day, slot.slotStart.value, epoch)
  {
  }

  /** A dry run leaves both target collections as they were. */
  lemma DryRunWritesNothing(s: TenantState, run: Run)
    requires run.dryRun
    ensures Migrate(s, run).meetings == s.meetings && Migrate(s, run).availability == s.availability
  {
  }

  /** The id a meeting moves to does not depend on when the run happens. */
  lemma OutcomeIgnoresTime(users: map<string, User>, mover: Mover, source: Source, docId: string, m: Meeting,
                           epoch: Epoch, now: int, later: int)
    ensures var o := MigrateMeeting(users, mover, source, docId, m, epoch, now);
      var o' := MigrateMeeting(users, mover, source, docId, m, epoch, later);
      o.Write? == o'.Write? && (o.Write? ==> o.id == o'.id)
  {
  }

  /** Every old meeting among `ids` that can be moved has its new id taken in `meetings`. */
  predicate AllMoved(meetings: map<string, Meeting>, users: map<string, User>, mover: Mover, source: Source,
                     docs: map<string, Meeting>, ids: seq<string>, epoch: Epoch)
  {
    forall k :: k in ids && k in docs ==>
      var o := MigrateMeeting(users, mover, source, k, docs[k], epoch, 0);
      o.Write? ==> o.id in meetings
  }

  /** A real run over `ids` leaves each of them moved. */
  lemma {:induction false} MeetingsFoldMoves(p: Progress, users: map<string, User>, mover: Mover, source: Source,
                                             docs: map<string, Meeting>, ids: seq<string>, run: Run)
    requires forall i :: 0 <= i < |ids| ==> ids[i] in docs
    requires !run.dryRun
    ensures AllMoved(MeetingsFold(p, users, mover, source, docs, ids, run).meetings, users, mover, source, docs, ids, run.epoch)
    decreases |ids|
  {
    if ids != [] {
      var n := |ids|;
      var prefix := ids[..n - 1];
      assert ids == prefix + [ids[n - 1]];
      MeetingsFoldMoves(p, users, mover, source, docs, prefix, run);
      var q := MeetingsFold(p, users, mover, source, docs, prefix, run);
      var r := MeetingsFold(p, users, mover, source, docs, ids, run);
      forall k | k in ids && k in docs
        ensures var o := MigrateMeeting(users, mover, source, k, docs[k], run.epoch, 0); o.Write? ==> o.id in r.meetings
      {
        OutcomeIgnoresTime(users, mover, source, k, docs[k], run.epoch, 0, run.now);
      }
    }
  }

  /** A real run over `ids` that finds each of them moved already changes nothing but the error list. */
  lemma {:induction false} MeetingsFoldSettled(p: Progress, users: map<string, User>, mover: Mover, source: Source,
                                               docs: map<string, Meeting>, ids: seq<string>, run: Run)
    requires forall i :: 0 <= i < |ids| ==> ids[i] in docs
    requires !run.dryRun && AllMoved(p.meetings, users, mover, source, docs, ids, run.epoch)
    ensures var r := MeetingsFold(p, users, mover, source, docs, ids, run);
      r == p.(tally := p.tally.(errors := r.tally.errors))
    decreases |ids|
  {
    if ids != [] {
      var n := |ids|;
      var prefix := ids[..n - 1];
      assert ids == prefix + [ids[n - 1]];
      MeetingsFoldSettled(p, users, mover, source, docs, prefix, run);
      OutcomeIgnoresTime(users, mover, source, ids[n - 1], docs[ids[n - 1]], run.epoch, 0, run.now);
    }
  }

  /** Every old meeting in `docs` that can be moved has its new id taken in `meetings`. */
  predicate DocsMoved(meetings: map<string, Meeting>, users: map<string, User>, mover: Mover, source: Source,
                      docs: map<string, Meeting>, epoch: Epoch)
  {
    forall k :: k in docs ==>
      var o := MigrateMeeting(users, mover, source, k, docs[k], epoch, 0);
      o.Write? ==> o.id in meetings
  }

  /** A real run over one user's old meetings of one kind leaves them all moved. */
  lemma MeetingsOfMoves(p: Progress, users: map<string, User>, mover: Mover, source: Source,
                        docs: map<string, Meeting>, run: Run)
    requires !run.dryRun
    ensures DocsMoved(MeetingsOf(p, users, mover, source, docs, run).meetings, users, mover, source, docs, run.epoch)
  {
    MeetingsFoldMoves(p, users, mover, source, docs, SortedKeys(docs.Keys), run);
  }

  /** A real run over old meetings that are all moved already changes nothing but the error list. */
  lemma MeetingsOfSettled(p: Progress, users: map<string, User>, mover: Mover, source: Source,
                          docs: map<string, Meeting>, run: Run)
    requires !run.dryRun && DocsMoved(p.meetings, users, mover, source, docs, run.epoch)
    ensures var r := MeetingsOf(p, users, mover, source, docs, run);
      r == p.(tally := p.tally.(errors := r.tally.errors))
  {
    MeetingsFoldSettled(p, users, mover, source, docs, SortedKeys(docs.Keys), run);
  }

  /** A user's meetings and requested meetings are all moved in `meetings`. */
  predicate UserMoved(meetings: map<string, Meeting>, s: TenantState, userId: string, epoch: Epoch)
    requires userId in s.users
  {
    Truthy(s.users[userId].firebaseUid) ==>
      var mover := MoverOf(s.users, userId);
      DocsMoved(meetings, s.users, mover, OldMeetings, Sub(s.userMeetings, userId), epoch) &&
      DocsMoved(meetings, s.users, mover, OldRequested, Sub(s.userRequested, userId), epoch)
  }

  lemma DocsMovedGrows(meetings: map<string, Meeting>, more: map<string, Meeting>, users: map<string, User>, mover: Mover,
                       source: Source, docs: map<string, Meeting>, epoch: Epoch)
    requires meetings.Keys <= more.Keys && DocsMoved(meetings, users, mover, source, docs, epoch)
    ensures DocsMoved(more, users, mover, source, docs, epoch)
  {
  }

  lemma UserMovedGrows(meetings: map<string, Meeting>, more: map<string, Meeting>, s: TenantState, userId: string,
                       epoch: Epoch)
    requires userId in s.users && meetings.Keys <= more.Keys && UserMoved(meetings, s, userId, epoch)
    ensures UserMoved(more, s, userId, epoch)
  {
    if Truthy(s.users[userId].firebaseUid) {
      var mover := MoverOf(s.users, userId);
      DocsMovedGrows(meetings, more, s.users, mover, OldMeetings, Sub(s.userMeetings, userId), epoch);
      DocsMovedGrows(meetings, more, s.users, mover, OldRequested, Sub(s.userRequested, userId), epoch);
    }
  }

  lemma UserStepMoves(p: Progress, s: TenantState, userId: string, run: Run)
    requires userId in s.users && !run.dryRun
    ensures UserMoved(UserStep(p, s, userId, run).meetings, s, userId, run.epoch)
  {
    if Truthy(s.users[userId].firebaseUid) {
      var mover := MoverOf(s.users, userId);
      var held := Sub(s.userMeetings, userId);
      var p1 := MeetingsOf(p, s.users, mover, OldMeetings, held, run);
      var p2 := AvailabilityOf(p1, mover, Sub(s.userAvailability, userId), run);
      var p3 := MeetingsOf(p2, s.users, mover, OldRequested, Sub(s.userRequested, userId), run);
      MeetingsOfMoves(p, s.users, mover, OldMeetings, held, run);
      MeetingsOfMoves(p2, s.users, mover, OldRequested, Sub(s.userRequested, userId), run);
      DocsMovedGrows(p1.meetings, p3.meetings, s.users, mover, OldMeetings, held, run.epoch);
    }
  }

  lemma UserStepSettled(p: Progress, s: TenantState, userId: string, run: Run)
    requires userId in s.users && !run.dryRun && UserMoved(p.meetings, s, userId, run.epoch)
    ensures var r := UserStep(p, s, userId, run);
      r.meetings == p.meetings && r.tally.meetingsMigrated == p.tally.meetingsMigrated &&
      r.tally.requestedMeetingsMigrated == p.tally.requestedMeetingsMigrated
  {
    if Truthy(s.users[userId].firebaseUid) {
      var mover := MoverOf(s.users, userId);
      var p1 := MeetingsOf(p, s.users, mover, OldMeetings, Sub(s.userMeetings, userId), run);
      MeetingsOfSettled(p, s.users, mover, OldMeetings, Sub(s.userMeetings, userId), run);
      var p2 := AvailabilityOf(p1, mover, Sub(s.userAvailability, userId), run);
      MeetingsOfSettled(p2, s.users, mover, OldRequested, Sub(s.userRequested, userId), run);
    }
  }

  /** After a real run over `ids`, every one of those users is moved. */
  lemma {:induction false} UsersFoldMoves(p: Progress, s: TenantState, ids: seq<string>, run: Run)
    requires forall i :: 0 <= i < |ids| ==> ids[i] in s.users
    requires !run.dryRun
    ensures forall k :: k in ids && k in s.users ==> UserMoved(UsersFold(p, s, ids, run).meetings, s, k, run.epoch)
    decreases |ids|
  {
    if ids != [] {
      var n := |ids|;
      var prefix := ids[..n - 1];
      assert ids == prefix + [ids[n - 1]];
      UsersFoldMoves(p, s, prefix, run);
      var q := UsersFold(p, s, prefix, run);
      var r := UsersFold(p, s, ids, run);
      UserStepMoves(q, s, ids[n - 1], run);
      forall k | k in prefix && k in s.users
        ensures UserMoved(r.meetings, s, k, run.epoch)
      {
        UserMovedGrows(q.meetings, r.meetings, s, k, run.epoch);
      }
    }
  }

  /** A real run over users who are all moved already writes no meeting and counts none. */
  lemma {:induction false} UsersFoldSettled(p: Progress, s: TenantState, ids: seq<string>, run: Run)
    requires forall i :: 0 <= i < |ids| ==> ids[i] in s.users
    requires !run.dryRun && forall k :: k in ids && k in s.users ==> UserMoved(p.meetings, s, k, run.epoch)
    ensures var r := UsersFold(p, s, ids, run);
      r.meetings == p.meetings && r.tally.meetingsMigrated == p.tally.meetingsMigrated &&
      r.tally.requestedMeetingsMigrated == p.tally.requestedMeetingsMigrated
    decreases |ids|
  {
    if ids != [] {
      var n := |ids|;
      var prefix := ids[..n - 1];
      assert ids == prefix + [ids[n - 1]];
      UsersFoldSettled(p, s, prefix, run);
      UserStepSettled(UsersFold(p, s, prefix, run), s, ids[n - 1], run);
    }
  }

  /**
   * The migration can be run again safely: a second real run over the
   * result of the first (same date parsing) writes no meeting and reports
   * none moved, since every new id is taken already.
   */
  lemma RerunMovesNoMeetings(s: TenantState, first: Run, second: Run)
    requires !first.dryRun && !second.dryRun && first.epoch == second.epoch
    ensures var p1 := Migrate(s, first);
      var p2 := Migrate(s.(meetings := p1.meetings, availability := p1.availability), second);
      p2.meetings == p1.meetings && p2.tally.meetingsMigrated == 0 && p2.tally.requestedMeetingsMigrated == 0
  {
    var ids := SortedKeys(s.users.Keys);
    var p1 := Migrate(s, first);
    var s2 := s.(meetings := p1.meetings, availability := p1.availability);
    UsersFoldMoves(Progress(s.meetings, s.availability, NoTally), s, ids, first);
    assert forall k :: k in ids && k in s2.users ==> UserMoved(p1.meetings, s2, k, second.epoch);
    UsersFoldSettled(Progress(s2.meetings, s2.availability, NoTally), s2, ids, second);
  }

  /** Users without old documents add nothing to the cleanup count. */
  lemma {:induction false} NothingLeftToCount(s: TenantState, ids: seq<string>)
    requires forall k :: k in ids ==> OldDocuments(s, k) == 0
    ensures OldDocumentsOf(s, ids) == 0
    decreases |ids|
  {
    if ids != [] {
      var n := |ids|;
      assert ids == ids[..n - 1] + [ids[n - 1]];
      NothingLeftToCount(s, ids[..n - 1]);
    }
  }

  /** A second real cleanup finds nothing left: it reports zero documents. */
  lemma CleanupTwiceCountsNothing(s: TenantState)
    ensures var after := Cleared(s, s.users.Keys);
      after.users == s.users && OldDocumentsOf(after, SortedKeys(after.users.Keys)) == 0
  {
    var after := Cleared(s, s.users.Keys);
    ClearedEmpties(s, s.users.Keys);
    NothingLeftToCount(after, SortedKeys(after.users.Keys));
  }

  /** The cleanup deletes nothing the migration wrote, and nothing of a document id that is not a user. */
  lemma CleanupKeepsMigratedData(s: TenantState, userId: string)
    requires userId !in s.users
    ensures var after := Cleared(s, s.users.Keys);
      after.meetings == s.meetings && after.availability == s.availability &&
      OldDocuments(after, userId) == OldDocuments(s, userId)
  {
  }
}
