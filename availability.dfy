// The availability ledger of the modular revision
// (meetings/availability-management.ts): one day document per mentor
// and day, holding a `slots` array, replaced wholesale unless one of its
// slots is booked; read back filtered by mentor and day range, or with
// the booked slots removed; and single documents deleted unless booked
// at the top level.
module AvailabilityManagement {
  import opened Wrappers
  import opened Types
  import opened Order
  import opened Store
  import opened Auth
  import opened Database
  import opened MeetingHelpers

  const SetterRoles: set<string> := {"mentor", "coordinator", "super_admin"}
  const StaffRoles: set<string> := {"coordinator", "super_admin"}

  /** One entry of the `slots` argument. */
  datatype SlotInput = SlotInput(slotStart: string, slotEnd: Option<string>)

  /** `slot_end || addHours(slot_start, 1)`; `None` when `addHours` throws. */
  function SlotEnd(s: SlotInput): Option<string>
  {
    if Truthy(s.slotEnd) then s.slotEnd else AddHours(s.slotStart, 1)
  }

  /**
   * The stored `slots` array: the input slots in their order, each free
   * and without a mentee; `None` when some end time cannot be computed.
   */
  function StoredSlots(inputs: seq<SlotInput>): (r: Option<seq<Slot>>)
    ensures r.Some? <==> forall i :: 0 <= i < |inputs| ==> SlotEnd(inputs[i]).Some?
    ensures r.Some? ==> |r.value| == |inputs|
    ensures r.Some? ==> forall i :: 0 <= i < |inputs| ==>
      r.value[i].slotStart == Some(inputs[i].slotStart) && r.value[i].slotEnd == SlotEnd(inputs[i]) &&
      !r.value[i].isBooked && r.value[i].menteeId.None?
  {
    if |inputs| == 0 then Some([])
    else
      var rest := StoredSlots(inputs[1..]);
      match SlotEnd(inputs[0])
      case None => None
      case Some(e) =>
        if rest.None? then None
        else Some([Slot(Some(inputs[0].slotStart), Some(e), false, None, None)] + rest.value)
  }

  /** A slot given without an end lasts one hour, wrapping at midnight. */
  lemma DefaultSlotLastsAnHour(h: nat, m: nat)
    requires h < 24 && m < 100
    ensures SlotEnd(SlotInput(Clock(h, m), None)) == Some(Clock((h + 1) % 24, m))
  {
    AddHoursClock(h, m, 1);
  }

  /** `slots.some(slot => slot.is_booked)` on a stored document. */
  predicate HasBookedSlot(a: Availability)
  {
    exists i :: 0 <= i < |a.slots| && a.slots[i].isBooked
  }

  /** `${mentorDoc.id}_${day}`. */
  function DayDocId(mentorDocId: string, day: string): string
  {
    mentorDocId + "_" + day
  }

  /**
   * The day document written by a set: it replaces the whole document,
   * so nothing of the earlier one survives.
   */
  function DayDocument(docId: string, mentorId: string, day: string, slots: seq<Slot>, now: int): (a: Availability)
    ensures a.id == Some(docId) && a.mentorId == Some(mentorId) && a.day == Some(day)
    ensures a.slots == slots && a.synced && a.updatedAt == Some(now)
    ensures !a.isBooked && a.mentorUid.None? && a.meetingId.None? && a.bookedByUid.None?
  {
    BlankAvailability.(id := Some(docId), mentorId := Some(mentorId), day := Some(day), slots := slots,
                       synced := true, updatedAt := Some(now))
  }

  predicate SetFieldsGiven(mentorId: Option<string>, day: Option<string>, slots: seq<SlotInput>)
  {
    Truthy(mentorId) && Truthy(day) && |slots| > 0
  }

  /** A setter role, and a mentor only for their own availability. */
  predicate MaySetFor(ctx: AuthContext, mentorId: string)
  {
    HasRole(ctx, SetterRoles) && !(ctx.role == Some("mentor") && ctx.uid != mentorId)
  }

  /** What a set will write, once every check has passed. */
  datatype DayPlan = DayPlan(mentor: Doc<User>, docId: string, slots: seq<Slot>)

  /** The checks made before the day document is written, in the order they are made. */
  function CheckSetAvailability(auth: Option<Token>, users: map<string, User>, avail: map<string, Availability>,
                                mentorId: Option<string>, day: Option<string>, slots: seq<SlotInput>): (r: Result<DayPlan>)
    ensures auth.None? ==> r == Err(Unauthenticated)
    ensures auth.Some? && !SetFieldsGiven(mentorId, day, slots) ==> r == Err(InvalidArgument)
    ensures (auth.Some? && SetFieldsGiven(mentorId, day, slots) &&
             !MaySetFor(VerifyAuth(auth).value, mentorId.value)) ==> r == Err(PermissionDenied)
    ensures (auth.Some? && SetFieldsGiven(mentorId, day, slots) && MaySetFor(VerifyAuth(auth).value, mentorId.value) &&
             GetUserDocByUid(users, mentorId.value).None?) ==> r == Err(NotFound)
    ensures r.Ok? <==>
      auth.Some? && SetFieldsGiven(mentorId, day, slots) && MaySetFor(VerifyAuth(auth).value, mentorId.value) &&
      GetUserDocByUid(users, mentorId.value).Some? && StoredSlots(slots).Some? &&
      var docId := DayDocId(GetUserDocByUid(users, mentorId.value).value.id, day.value);
      !(docId in avail && HasBookedSlot(avail[docId]))
    ensures r.Ok? ==>
      r.value.mentor == GetUserDocByUid(users, mentorId.value).value &&
      r.value.docId == DayDocId(r.value.mentor.id, day.value) && Some(r.value.slots) == StoredSlots(slots)
    ensures (auth.Some? && SetFieldsGiven(mentorId, day, slots) && MaySetFor(VerifyAuth(auth).value, mentorId.value) &&
             GetUserDocByUid(users, mentorId.value).Some? && StoredSlots(slots).Some? &&
             var docId := DayDocId(GetUserDocByUid(users, mentorId.value).value.id, day.value);
             docId in avail && HasBookedSlot(avail[docId])) ==> r == Err(FailedPrecondition)
  {
    match VerifyAuth(auth)
    case Err(e) => Err(e)
    case Ok(ctx) =>
      if !SetFieldsGiven(mentorId, day, slots) then Err(InvalidArgument)
      else if !MaySetFor(ctx, mentorId.value) then Err(PermissionDenied)
      else
        match GetUserDocByUid(users, mentorId.value)
        case None => Err(NotFound)
        case Some(mentor) =>
          var docId := DayDocId(mentor.id, day.value);
          match StoredSlots(slots)
          case None => Err(Internal)
          case Some(stored) =>
            if docId in avail && HasBookedSlot(avail[docId]) then Err(FailedPrecondition)
            else Ok(DayPlan(mentor, docId, stored))
  }

  /** What a successful set answers. */
  datatype DaySet = DaySet(created: int, docId: string, slotsCount: int)

  method SetMentorAvailability(t: Tenant, auth: Option<Token>, mentorId: Option<string>, day: Option<string>,
                               slots: seq<SlotInput>, now: int)
    returns (r: Result<DaySet>)
    modifies t
    ensures var c := CheckSetAvailability(auth, old(t.state.users), old(t.state.availability), mentorId, day, slots);
      (r.Err? <==> c.Err?) && (r.Err? ==> r.error == c.error && t.state == old(t.state))
    ensures r.Ok? ==>
      var plan := CheckSetAvailability(auth, old(t.state.users), old(t.state.availability), mentorId, day, slots).value;
      r.value == DaySet(1, plan.docId, |slots|) &&
      t.state == old(t.state).(
        availability := old(t.state.availability)[plan.docId := DayDocument(plan.docId, mentorId.value, day.value, plan.slots, now)])
  {
    var check := CheckSetAvailability(auth, t.state.users, t.state.availability, mentorId, day, slots);
    if check.Err? {
      return Err(check.error);
    }
    var plan := check.value;
    t.state := t.state.(availability := t.state.availability[plan.docId := DayDocument(plan.docId, mentorId.value, day.value, plan.slots, now)]);
    return Ok(DaySet(1, plan.docId, |plan.slots|));
  }

  /**
   * A day that was just set can be set again with the same arguments:
   * the document written holds no booked slot, and the second write
   * plans exactly what the first did.
   */
  lemma SetAgainAccepted(auth: Option<Token>, users: map<string, User>, avail: map<string, Availability>,
                         mentorId: Option<string>, day: Option<string>, slots: seq<SlotInput>, now: int)
    requires CheckSetAvailability(auth, users, avail, mentorId, day, slots).Ok?
    ensures var plan := CheckSetAvailability(auth, users, avail, mentorId, day, slots).value;
      CheckSetAvailability(auth, users, avail[plan.docId := DayDocument(plan.docId, mentorId.value, day.value, plan.slots, now)],
                           mentorId, day, slots) == Ok(plan)
  {
    var plan := CheckSetAvailability(auth, users, avail, mentorId, day, slots).value;
    var written := DayDocument(plan.docId, mentorId.value, day.value, plan.slots, now);
    assert !HasBookedSlot(written) by {
      forall i | 0 <= i < |written.slots| ensures !written.slots[i].isBooked {
        assert written.slots[i] == StoredSlots(slots).value[i];
      }
    }
  }

  /**
   * The replace guard reads only the `slots` array: a single-slot
   * document booked at the top level, with no array, does not stop it.
   */
  lemma TopLevelBookingIsNotGuarded(a: Availability)
    requires a.isBooked && a.slots == []
    ensures !HasBookedSlot(a)
  {
  }

  /**
   * `mentor_id == m` when a mentor is named, `day` present, and within
   * the bounds given (by string order).
   */
  predicate DayMatches(a: Availability, mentor: Option<string>, startDate: Option<string>, endDate: Option<string>)
  {
    (mentor.Some? ==> a.mentorId == mentor) && a.day.Some? &&
    (Truthy(startDate) ==> !Lt(a.day.value, startDate.value)) &&
    (Truthy(endDate) ==> !Lt(endDate.value, a.day.value))
  }

  /** Ids of the matching documents, with the day each is ordered by. */
  function MatchingDays(avail: map<string, Availability>, mentor: Option<string>, startDate: Option<string>,
                        endDate: Option<string>): set<(string, string)>
  {
    set id | id in avail && DayMatches(avail[id], mentor, startDate, endDate) :: (avail[id].day.value, id)
  }

  /**
   * The query `[where mentor_id == m] [and day >= start] [and day <= end]
   * orderBy day`: the ids of exactly the matching documents, ordered by
   * day and, within a day, by id.
   */
  function DayQuery(avail: map<string, Availability>, mentor: Option<string>, startDate: Option<string>,
                    endDate: Option<string>): (r: seq<string>)
    ensures forall i :: 0 <= i < |r| ==> r[i] in avail && DayMatches(avail[r[i]], mentor, startDate, endDate)
  {
    DayPairsMatch(avail, mentor, startDate, endDate);
    Seconds(SortedPairs(MatchingDays(avail, mentor, startDate, endDate)))
  }

  /** The query lists every matching document, each once, in day order. */
  lemma DayQuerySpec(avail: map<string, Availability>, mentor: Option<string>, startDate: Option<string>,
                     endDate: Option<string>)
    ensures var r := DayQuery(avail, mentor, startDate, endDate);
      (forall id :: id in r <==> id in avail && DayMatches(avail[id], mentor, startDate, endDate)) &&
      (forall i, j :: 0 <= i < j < |r| ==> r[i] != r[j] && !Lt(avail[r[j]].day.value, avail[r[i]].day.value))
  {
    var pairs := SortedPairs(MatchingDays(avail, mentor, startDate, endDate));
    DayPairsMatch(avail, mentor, startDate, endDate);
    DayPairsApart(avail, mentor, startDate, endDate);
    DayPairsComplete(avail, mentor, startDate, endDate);
    var r := DayQuery(avail, mentor, startDate, endDate);
    assert r == Seconds(pairs);
    forall id | id in avail && DayMatches(avail[id], mentor, startDate, endDate) ensures id in r {
      var k :| 0 <= k < |pairs| && pairs[k].1 == id;
      assert r[k] == id;
    }
  }

  lemma DayPairsMatch(avail: map<string, Availability>, mentor: Option<string>, startDate: Option<string>,
                      endDate: Option<string>)
    ensures var pairs := SortedPairs(MatchingDays(avail, mentor, startDate, endDate));
      forall k :: 0 <= k < |pairs| ==>
        pairs[k].1 in avail && DayMatches(avail[pairs[k].1], mentor, startDate, endDate) &&
        pairs[k].0 == avail[pairs[k].1].day.value
  {
    var m := MatchingDays(avail, mentor, startDate, endDate);
    var pairs := SortedPairs(m);
    forall k | 0 <= k < |pairs|
      ensures pairs[k].1 in avail && DayMatches(avail[pairs[k].1], mentor, startDate, endDate)
      ensures pairs[k].0 == avail[pairs[k].1].day.value
    {
      assert pairs[k] in m;
    }
  }

  lemma DayPairsApart(avail: map<string, Availability>, mentor: Option<string>, startDate: Option<string>,
                      endDate: Option<string>)
    ensures var pairs := SortedPairs(MatchingDays(avail, mentor, startDate, endDate));
      forall i, j :: 0 <= i < j < |pairs| ==> pairs[i].1 != pairs[j].1 && !Lt(pairs[j].0, pairs[i].0)
  {
    var pairs := SortedPairs(MatchingDays(avail, mentor, startDate, endDate));
    DayPairsMatch(avail, mentor, startDate, endDate);
    forall i, j | 0 <= i < j < |pairs| ensures pairs[i].1 != pairs[j].1 && !Lt(pairs[j].0, pairs[i].0) {
      PairLtApart(pairs[i], pairs[j]);
    }
  }

  lemma DayPairsComplete(avail: map<string, Availability>, mentor: Option<string>, startDate: Option<string>,
                         endDate: Option<string>)
    ensures var pairs := SortedPairs(MatchingDays(avail, mentor, startDate, endDate));
      forall id :: id in avail && DayMatches(avail[id], mentor, startDate, endDate) ==>
        exists k :: 0 <= k < |pairs| && pairs[k].1 == id
  {
    var m := MatchingDays(avail, mentor, startDate, endDate);
    var pairs := SortedPairs(m);
    forall id | id in avail && DayMatches(avail[id], mentor, startDate, endDate)
      ensures exists k :: 0 <= k < |pairs| && pairs[k].1 == id
    {
      assert (avail[id].day.value, id) in m;
      var k :| 0 <= k < |pairs| && pairs[k] == (avail[id].day.value, id);
    }
  }

  /** The second components, in order. */
  function Seconds(pairs: seq<(string, string)>): (r: seq<string>)
    ensures |r| == |pairs| && forall k :: 0 <= k < |pairs| ==> r[k] == pairs[k].1
  {
    seq(|pairs|, k requires 0 <= k < |pairs| => pairs[k].1)
  }

  /** Ordered pairs with equal first components differ in the second, and never run backwards in the first. */
  lemma PairLtApart(a: (string, string), b: (string, string))
    requires PairLt(a, b)
    ensures !Lt(b.0, a.0)
    ensures a.0 == b.0 ==> a.1 != b.1
  {
    LtIrreflexive(a.0);
    LtIrreflexive(a.1);
    if Lt(b.0, a.0) && Lt(a.0, b.0) {
      LtTransitive(a.0, b.0, a.0);
    }
  }

  /** A listed day document, as the handlers answer it; `synced || true` is always true. */
  datatype DayView = DayView(id: string, mentorId: Option<string>, day: Option<string>, slots: seq<Slot>,
                             synced: bool, updatedAt: Option<int>)

  function ViewOf(id: string, a: Availability): DayView
  {
    DayView(id, a.mentorId, a.day, a.slots, true, a.updatedAt)
  }

  /** The documents a query lists, in its order, as views. */
  function MentorDays(avail: map<string, Availability>, mentorId: string, startDate: Option<string>,
                      endDate: Option<string>): (r: seq<DayView>)
    ensures |r| == |DayQuery(avail, Some(mentorId), startDate, endDate)|
    ensures forall i :: 0 <= i < |r| ==>
      var id := DayQuery(avail, Some(mentorId), startDate, endDate)[i];
      r[i] == ViewOf(id, avail[id])
  {
    var ids := DayQuery(avail, Some(mentorId), startDate, endDate);
    seq(|ids|, k requires 0 <= k < |ids| => ViewOf(ids[k], avail[ids[k]]))
  }

  /**
   * `getMentorAvailability`: the query's documents in its order, each
   * projected to its view.
   */
  function GetMentorAvailability(auth: Option<Token>, avail: map<string, Availability>, mentorId: Option<string>,
                                 startDate: Option<string>, endDate: Option<string>): (r: Result<seq<DayView>>)
    ensures auth.None? ==> r == Err(Unauthenticated)
    ensures auth.Some? && !Truthy(mentorId) ==> r == Err(InvalidArgument)
    ensures r.Ok? <==> auth.Some? && Truthy(mentorId)
    ensures r.Ok? ==> r.value == MentorDays(avail, mentorId.value, startDate, endDate)
  {
    match VerifyAuth(auth)
    case Err(e) => Err(e)
    case Ok(_) =>
      if !Truthy(mentorId) then Err(InvalidArgument)
      else Ok(MentorDays(avail, mentorId.value, startDate, endDate))
  }

  /**
   * What `getMentorAvailability` answers: every document of the mentor
   * whose day lies in the bounds and no other, in day order, each marked
   * synced.
   */
  lemma MentorAvailabilityListsMatches(auth: Option<Token>, avail: map<string, Availability>, mentorId: string,
                                       startDate: Option<string>, endDate: Option<string>, id: string)
    requires auth.Some? && mentorId != ""
    ensures var r := GetMentorAvailability(auth, avail, Some(mentorId), startDate, endDate).value;
      ((exists i :: 0 <= i < |r| && r[i].id == id) <==> id in avail && DayMatches(avail[id], Some(mentorId), startDate, endDate)) &&
      (forall i, j :: 0 <= i < j < |r| ==> !Lt(r[j].day.value, r[i].day.value)) &&
      (forall i :: 0 <= i < |r| ==> r[i].synced && r[i].mentorId == Some(mentorId))
  {
    var ids := DayQuery(avail, Some(mentorId), startDate, endDate);
    DayQuerySpec(avail, Some(mentorId), startDate, endDate);
    var r := MentorDays(avail, mentorId, startDate, endDate);
    if id in ids {
      var i :| 0 <= i < |ids| && ids[i] == id;
      assert r[i].id == id;
    }
  }

  /** `slots.filter(slot => !slot.is_booked)`. */
  function UnbookedSlots(slots: seq<Slot>): (r: seq<Slot>)
    ensures |r| <= |slots|
  {
    if |slots| == 0 then []
    else if slots[0].isBooked then UnbookedSlots(slots[1..])
    else [slots[0]] + UnbookedSlots(slots[1..])
  }

  /** The filter keeps exactly the slots that are not booked. */
  lemma {:induction false} UnbookedSlotsSpec(slots: seq<Slot>)
    ensures forall s :: s in UnbookedSlots(slots) <==> s in slots && !s.isBooked
    decreases |slots|
  {
    if |slots| > 0 {
      UnbookedSlotsSpec(slots[1..]);
      assert slots == [slots[0]] + slots[1..];
    }
  }

  /**
   * The answer of `getAvailableSlots` for the listed documents: each with
   * its booked slots removed, and those left with none dropped.
   */
  function OpenDays(views: seq<DayView>): (r: seq<DayView>)
    ensures |r| <= |views|
  {
    if |views| == 0 then []
    else
      var last := views[|views| - 1];
      var open := UnbookedSlots(last.slots);
      OpenDays(views[..|views| - 1]) + (if |open| > 0 then [last.(slots := open)] else [])
  }

  /** Every answered day has free slots only, and at least one; every listed day with a free slot is answered. */
  lemma {:induction false} OpenDaysSpec(views: seq<DayView>)
    ensures var r := OpenDays(views);
      (forall v :: v in r ==> |v.slots| > 0 && forall s :: s in v.slots ==> !s.isBooked) &&
      (forall w :: w in views && |UnbookedSlots(w.slots)| > 0 ==> w.(slots := UnbookedSlots(w.slots)) in r)
    decreases |views|
  {
    if |views| > 0 {
      var init := views[..|views| - 1];
      var last := views[|views| - 1];
      assert views == init + [last];
      OpenDaysSpec(init);
      UnbookedSlotsSpec(last.slots);
    }
  }

  /** One more listed day adds it, with its free slots only, when it has any. */
  lemma OpenDaysNext(docs: seq<DayView>, i: nat)
    requires i < |docs|
    ensures OpenDays(docs[..i + 1]) ==
      OpenDays(docs[..i]) + (if |UnbookedSlots(docs[i].slots)| > 0 then [docs[i].(slots := UnbookedSlots(docs[i].slots))] else [])
  {
    assert docs[..i + 1][..i] == docs[..i];
  }

  /** `getAvailableSlots`: the days of the mentor in the bounds, keeping only their free slots. */
  method GetAvailableSlots(t: Tenant, auth: Option<Token>, mentorId: Option<string>, startDate: Option<string>,
                           endDate: Option<string>)
    returns (r: Result<seq<DayView>>)
    ensures auth.None? ==> r == Err(Unauthenticated)
    ensures auth.Some? && !Truthy(mentorId) ==> r == Err(InvalidArgument)
    ensures r.Ok? <==> auth.Some? && Truthy(mentorId)
    ensures r.Ok? ==> r.value == OpenDays(MentorDays(t.state.availability, mentorId.value, startDate, endDate))
  {
    var ctx := VerifyAuth(auth);
    if ctx.Err? {
      return Err(ctx.error);
    }
    if !Truthy(mentorId) {
      return Err(InvalidArgument);
    }
    var docs := MentorDays(t.state.availability, mentorId.value, startDate, endDate);
    var open := CollectOpenDays(docs);
    return Ok(open);
  }

  /** The `forEach` that pushes each listed day still holding a free slot. */
  method CollectOpenDays(docs: seq<DayView>) returns (open: seq<DayView>)
    ensures open == OpenDays(docs)
  {
    open := [];
    var i := 0;
    while i < |docs|
      invariant 0 <= i <= |docs|
      invariant open == OpenDays(docs[..i])
    {
      var unbooked := UnbookedSlots(docs[i].slots);
      OpenDaysNext(docs, i);
      if |unbooked| > 0 {
        open := open + [docs[i].(slots := unbooked)];
      }
      i := i + 1;
    }
    assert docs[..i] == docs;
  }

  /** Every answered day is one of the listed days with its booked slots removed. */
  lemma {:induction false} OpenDaysFromViews(views: seq<DayView>, v: DayView)
    requires v in OpenDays(views)
    ensures exists w :: w in views && v == w.(slots := UnbookedSlots(w.slots))
    decreases |views|
  {
    var init := views[..|views| - 1];
    var last := views[|views| - 1];
    assert views == init + [last];
    if v in OpenDays(init) {
      OpenDaysFromViews(init, v);
      var w :| w in init && v == w.(slots := UnbookedSlots(w.slots));
      assert w in views;
    } else {
      assert v == last.(slots := UnbookedSlots(last.slots));
    }
  }

  /** The checks made before a single availability document is deleted, in order. */
  function CheckRemove(auth: Option<Token>, avail: map<string, Availability>, slotId: Option<string>): (r: Result<()>)
    ensures r.Ok? <==>
      auth.Some? && Truthy(slotId) && slotId.value in avail &&
      (HasRole(VerifyAuth(auth).value, StaffRoles) || avail[slotId.value].mentorUid == Some(auth.value.uid)) &&
      !avail[slotId.value].isBooked
    ensures auth.None? ==> r == Err(Unauthenticated)
    ensures auth.Some? && !Truthy(slotId) ==> r == Err(InvalidArgument)
    ensures auth.Some? && Truthy(slotId) && slotId.value !in avail ==> r == Err(NotFound)
    ensures (auth.Some? && Truthy(slotId) && slotId.value in avail && !HasRole(VerifyAuth(auth).value, StaffRoles) &&
             avail[slotId.value].mentorUid != Some(auth.value.uid)) ==> r == Err(PermissionDenied)
    ensures r.Err? && r.error == FailedPrecondition ==> avail[slotId.value].isBooked
  {
    match VerifyAuth(auth)
    case Err(e) => Err(e)
    case Ok(ctx) =>
      if !Truthy(slotId) then Err(InvalidArgument)
      else if slotId.value !in avail then Err(NotFound)
      else
        var slot := avail[slotId.value];
        if !HasRole(ctx, StaffRoles) && slot.mentorUid != Some(ctx.uid) then Err(PermissionDenied)
        else if slot.isBooked then Err(FailedPrecondition)
        else Ok(())
  }

  const Removed := "Availability slot removed successfully"

  /** `removeAvailabilitySlot`: the named document is deleted and no other. */
  method RemoveAvailabilitySlot(t: Tenant, auth: Option<Token>, slotId: Option<string>) returns (r: Result<string>)
    modifies t
    ensures var c := CheckRemove(auth, old(t.state.availability), slotId);
      (r.Err? <==> c.Err?) && (r.Err? ==> r.error == c.error && t.state == old(t.state))
    ensures r.Ok? ==>
      r.value == Removed &&
      t.state == old(t.state).(availability := old(t.state.availability) - {slotId.value})
  {
    var check := CheckRemove(auth, t.state.availability, slotId);
    if check.Err? {
      return Err(check.error);
    }
    t.state := t.state.(availability := t.state.availability - {slotId.value});
    return Ok(Removed);
  }

  /**
   * Removal reads only the top-level booking: a day document whose
   * `slots` array holds a booked slot is still deleted by a coordinator.
   */
  lemma DayBookingsDoNotStopRemoval(auth: Option<Token>, avail: map<string, Availability>, slotId: string)
    requires auth.Some? && auth.value.role == Some("coordinator")
    requires slotId != "" && slotId in avail && !avail[slotId].isBooked && HasBookedSlot(avail[slotId])
    ensures CheckRemove(auth, avail, Some(slotId)) == Ok(())
  {
  }

  /** A day document has no `mentor_uid`, so only staff can remove it. */
  lemma DayDocumentsOnlyStaffRemove(auth: Option<Token>, avail: map<string, Availability>, slotId: string)
    requires auth.Some? && !HasRole(VerifyAuth(auth).value, StaffRoles)
    requires slotId != "" && slotId in avail && avail[slotId].mentorUid.None?
    ensures CheckRemove(auth, avail, Some(slotId)) == Err(PermissionDenied)
  {
  }
}
