// Helpers shared by the meeting handlers (meetings/utils/meeting-helpers.ts):
// finding a user's document, the readable meeting and availability ids,
// the legacy `<doc>_slot_<n>` reference, date labels and clock arithmetic.
module MeetingHelpers {
  import opened Wrappers
  import opened Types
  import opened Text
  import opened Order
  import opened Store
  import opened Database

  // ---------------------------------------------------------------- user lookup

  /** The ids of the user documents whose `firebase_uid` is `uid`. */
  function UidMatches(users: map<string, User>, uid: string): (r: set<string>)
    ensures forall k :: k in r <==> k in users && users[k].firebaseUid == Some(uid)
  {
    set k | k in users && users[k].firebaseUid == Some(uid)
  }

  /**
   * A user's document: the one whose id is `uid` if there is one (the
   * empty id cannot name a document), else the first document, by id,
   * whose `firebase_uid` is `uid`.
   */
  function GetUserDocByUid(users: map<string, User>, uid: string): (r: Option<Doc<User>>)
    ensures r.Some? ==> r.value.id in users && r.value.data == users[r.value.id]
    ensures uid != "" && uid in users ==> r == Some(Doc(uid, users[uid]))
    ensures !(uid != "" && uid in users) ==> (r.None? <==> UidMatches(users, uid) == {})
    ensures !(uid != "" && uid in users) && r.Some? ==>
      users[r.value.id].firebaseUid == Some(uid) &&
      forall k :: k in UidMatches(users, uid) && k != r.value.id ==> Lt(r.value.id, k)
  {
    if uid != "" && uid in users then Some(Doc(uid, users[uid]))
    else
      var found := UidMatches(users, uid);
      if found == {} then None else var k := FirstKey(found); Some(Doc(k, users[k]))
  }

  /** A user is found exactly when some document has the uid as its id or its login id. */
  lemma GetUserDocByUidFinds(users: map<string, User>, uid: string)
    ensures GetUserDocByUid(users, uid).Some? <==>
      (uid != "" && uid in users) || exists k :: k in users && users[k].firebaseUid == Some(uid)
    ensures GetUserDocByUid(users, uid).Some? ==>
      var d := GetUserDocByUid(users, uid).value; d.id == uid || d.data.firebaseUid == Some(uid)
  {
    if exists k :: k in users && users[k].firebaseUid == Some(uid) {
      var k :| k in users && users[k].firebaseUid == Some(uid);
      assert k in UidMatches(users, uid);
    }
  }

  // ---------------------------------------------------------------- readable ids

  /**
   * `Math.floor(date.getTime() / 1000)` printed: the epoch seconds, or
   * `NaN` for an invalid date.
   */
  function SecondsText(seconds: Option<int>): string
  {
    if seconds.None? then NumberToString(NaN) else NumberToString(Int(seconds.value))
  }

  lemma SecondsTextHasNoUnderscore(seconds: Option<int>)
    ensures !Contains(SecondsText(seconds), "__")
  {
    var r := SecondsText(seconds);
    forall i | 0 <= i < |r| ensures r[i] != "__"[0] {
      if seconds.Some? && seconds.value < 0 {
        assert r == "-" + NatToString(-seconds.value);
        if i > 0 { assert r[i] == NatToString(-seconds.value)[i - 1]; }
      }
    }
    NoFirstCharNoContains(r, "__");
  }

  lemma IntTextIsNotNaN(v: int)
    ensures IntToString(v) != NumberToString(NaN)
  {
    if v >= 0 {
      assert IsDigit(IntToString(v)[0]);
    } else {
      assert IntToString(v)[0] == '-';
    }
  }

  /** Different instants (or an instant and an invalid date) print differently. */
  lemma SecondsTextInjective(a: Option<int>, b: Option<int>)
    requires SecondsText(a) == SecondsText(b)
    ensures a == b
  {
    if a.Some? && b.Some? {
      IntToStringInjective(a.value, b.value);
    } else if a.Some? {
      IntTextIsNotNaN(a.value);
    } else if b.Some? {
      IntTextIsNotNaN(b.value);
    }
  }

  /** `<mentorDocId>__<menteeDocId>__<seconds of startTime>`. */
  function GenerateMeetingId(mentorDocId: string, menteeDocId: string, startTime: string, epoch: Epoch): string
  {
    mentorDocId + "__" + menteeDocId + "__" + SecondsText(epoch(startTime))
  }

  /** `<mentorDocId>__<seconds of date T slotStart>`. */
  function GenerateAvailabilityId(mentorDocId: string, date: string, slotStart: string, epoch: Epoch): string
  {
    mentorDocId + "__" + SecondsText(epoch(date + "T" + slotStart))
  }

  /** An id segment that cannot run into a `__` separator placed after it. */
  predicate SeparatorSafe(x: string)
  {
    !Contains(x + "_", "__")
  }

  /** No doubled underscore and no trailing one: safe before a separator. */
  lemma SeparatorSafeOf(x: string)
    requires NoDoubleUnderscore(x) && (x == [] || x[|x| - 1] != '_')
    ensures SeparatorSafe(x)
  {
    var y := x + "_";
    forall i | 0 <= i <= |y| - 2 ensures !OccursAt(y, "__", i) {
      assert y[i..i + 2][0] == y[i] && y[i..i + 2][1] == y[i + 1];
      if i + 1 < |x| {
        assert y[i] == x[i] && y[i + 1] == x[i + 1];
      } else {
        assert y[i] == x[|x| - 1];
      }
    }
  }

  /** The document ids built from names are safe segments of the readable ids. */
  lemma GeneratedUserIdsAreSeparatorSafe(name: string)
    requires GenerateUserDocumentId(name).Some?
    ensures SeparatorSafe(GenerateUserDocumentId(name).value)
  {
    SeparatorSafeOf(GenerateUserDocumentId(name).value);
  }

  /** A meeting id splits back into its two document ids and its seconds. */
  lemma MeetingIdSplits(mentorDocId: string, menteeDocId: string, startTime: string, epoch: Epoch)
    requires SeparatorSafe(mentorDocId) && SeparatorSafe(menteeDocId)
    ensures Split(GenerateMeetingId(mentorDocId, menteeDocId, startTime, epoch), "__") ==
      [mentorDocId, menteeDocId, SecondsText(epoch(startTime))]
  {
    var t := SecondsText(epoch(startTime));
    SecondsTextHasNoUnderscore(epoch(startTime));
    assert "__"[..1] == "_";
    SplitAtFirst(menteeDocId, "__", t);
    SplitCons(mentorDocId, "__", menteeDocId + "__" + t);
    assert GenerateMeetingId(mentorDocId, menteeDocId, startTime, epoch) == mentorDocId + "__" + (menteeDocId + "__" + t);
  }

  /**
   * Two meetings get the same id only for the same mentor, the same
   * mentee and the same second.
   */
  lemma MeetingIdInjective(mentor1: string, mentee1: string, start1: string,
                           mentor2: string, mentee2: string, start2: string, epoch: Epoch)
    requires SeparatorSafe(mentor1) && SeparatorSafe(mentee1)
    requires SeparatorSafe(mentor2) && SeparatorSafe(mentee2)
    requires GenerateMeetingId(mentor1, mentee1, start1, epoch) == GenerateMeetingId(mentor2, mentee2, start2, epoch)
    ensures mentor1 == mentor2 && mentee1 == mentee2 && epoch(start1) == epoch(start2)
  {
    MeetingIdSplits(mentor1, mentee1, start1, epoch);
    MeetingIdSplits(mentor2, mentee2, start2, epoch);
    SecondsTextInjective(epoch(start1), epoch(start2));
  }

  /** An availability id splits back into the mentor's document id and the seconds. */
  lemma AvailabilityIdSplits(mentorDocId: string, date: string, slotStart: string, epoch: Epoch)
    requires SeparatorSafe(mentorDocId)
    ensures Split(GenerateAvailabilityId(mentorDocId, date, slotStart, epoch), "__") ==
      [mentorDocId, SecondsText(epoch(date + "T" + slotStart))]
  {
    SecondsTextHasNoUnderscore(epoch(date + "T" + slotStart));
    assert "__"[..1] == "_";
    SplitAtFirst(mentorDocId, "__", SecondsText(epoch(date + "T" + slotStart)));
  }

  // ---------------------------------------------------------------- legacy slot references

  /** A slot of a legacy day document: the document and the slot's index. */
  datatype SlotRef = SlotRef(docId: string, slotIndex: int)

  /**
   * `<docId>_slot_<n>`: split at `_slot_`, exactly two parts, and the
   * second read with `parseInt`.
   */
  function ParseOldAvailabilityId(availabilityId: string): (r: Option<SlotRef>)
  {
    var parts := Split(availabilityId, "_slot_");
    if |parts| != 2 then None
    else
      match ParseInt(parts[1])
      case None => None
      case Some(n) => Some(SlotRef(parts[0], n))
  }

  lemma SlotSeparatorNotInNumber(n: nat)
    ensures !Contains(NatToString(n), "_slot_")
  {
    assert "_slot_"[0] == '_';
    NoFirstCharNoContains(NatToString(n), "_slot_");
  }

  /** A reference written as `<docId>_slot_<n>` reads back as that document and index. */
  lemma OldAvailabilityIdRoundTrip(docId: string, n: nat)
    requires !Contains(docId + "_slot", "_slot_")
    ensures ParseOldAvailabilityId(docId + "_slot_" + NatToString(n)) == Some(SlotRef(docId, n))
  {
    assert "_slot_"[..5] == "_slot";
    SlotSeparatorNotInNumber(n);
    SplitAtFirst(docId, "_slot_", NatToString(n));
    ParseIntNatToString(n);
  }

  /**
   * A reference is read only from an id holding the separator exactly
   * once, with a number after it.
   */
  lemma OldAvailabilityIdSound(availabilityId: string)
    ensures var r := ParseOldAvailabilityId(availabilityId);
      r.Some? ==>
        var k := |r.value.docId|;
        k + 6 <= |availabilityId| && availabilityId[..k] == r.value.docId &&
        OccursAt(availabilityId, "_slot_", k) &&
        !Contains(r.value.docId, "_slot_") && !Contains(availabilityId[k + 6..], "_slot_") &&
        ParseInt(availabilityId[k + 6..]) == Some(r.value.slotIndex)
  {
    var parts := Split(availabilityId, "_slot_");
    if |parts| == 2 {
      JoinSplit(availabilityId, "_slot_");
      assert Join(parts, "_slot_") == parts[0] + "_slot_" + parts[1] by {
        assert parts[1..] == [parts[1]];
      }
      var s := availabilityId;
      var k := |parts[0]|;
      assert s[..k] == parts[0];
      assert s[k..k + 6] == "_slot_";
      assert s[k + 6..] == parts[1];
    }
  }

  /** An id without the separator is not a legacy reference. */
  lemma OldAvailabilityIdWithoutSeparator(availabilityId: string)
    requires !Contains(availabilityId, "_slot_")
    ensures ParseOldAvailabilityId(availabilityId).None?
  {
    assert IndexOf(availabilityId, "_slot_").None?;
  }

  // ---------------------------------------------------------------- dates and clock times

  /** The fields of a `Date` as its getters return them; the month counts from 0. */
  datatype CalendarDate = CalendarDate(year: int, month: int, day: int)

  predicate ValidDate(d: CalendarDate)
  {
    0 <= d.month < 12 && 1 <= d.day <= 31
  }

  /** `n.toString().padStart(2, '0')`. */
  function TwoDigits(n: nat): string
  {
    PadStart2(NatToString(n))
  }

  lemma TwoDigitsShape(n: nat)
    requires n < 100
    ensures |TwoDigits(n)| == 2 && AllDigits(TwoDigits(n))
    ensures ParseInt(TwoDigits(n)) == Some(n) && ToNumber(TwoDigits(n)) == Int(n)
  {
    PadStart2Digits(n);
    PadStart2Value(n);
    ParseIntDigits(TwoDigits(n));
    ToNumberDigits(TwoDigits(n));
  }

  /** `YYYY-MM`. */
  function GetMonthYear(d: CalendarDate): string
    requires ValidDate(d)
  {
    IntToString(d.year) + "-" + TwoDigits(d.month + 1)
  }

  /** `YYYY-MM-DD`. */
  function FormatDate(d: CalendarDate): string
    requires ValidDate(d)
  {
    IntToString(d.year) + "-" + TwoDigits(d.month + 1) + "-" + TwoDigits(d.day)
  }

  /** A date's label extends its month's label by the day. */
  lemma FormatDateExtendsMonthYear(d: CalendarDate)
    requires ValidDate(d)
    ensures FormatDate(d) == GetMonthYear(d) + "-" + TwoDigits(d.day)
    ensures |FormatDate(d)| == |GetMonthYear(d)| + 3
  {
    TwoDigitsShape(d.day);
  }

  lemma FormatDateSplits(d: CalendarDate)
    requires ValidDate(d) && d.year >= 0
    ensures Split(FormatDate(d), "-") == [NatToString(d.year), TwoDigits(d.month + 1), TwoDigits(d.day)]
  {
    var y, m, dd := NatToString(d.year), TwoDigits(d.month + 1), TwoDigits(d.day);
    PadStart2Digits(d.month + 1);
    PadStart2Digits(d.day);
    DigitsAvoid(y, "-");
    DigitsAvoid(m, "-");
    DigitsAvoid(dd, "-");
    SplitTriple(y, "-", m, dd);
    assert FormatDate(d) == y + "-" + m + "-" + dd;
  }

  /** For a year of the common era the label splits back into year, month and day. */
  lemma FormatDateDecodes(d: CalendarDate)
    requires ValidDate(d) && d.year >= 0
    ensures Split(FormatDate(d), "-") == [NatToString(d.year), TwoDigits(d.month + 1), TwoDigits(d.day)]
    ensures ParseInt(NatToString(d.year)) == Some(d.year)
    ensures ParseInt(TwoDigits(d.month + 1)) == Some(d.month + 1) && ParseInt(TwoDigits(d.day)) == Some(d.day)
  {
    var y, m, dd := NatToString(d.year), TwoDigits(d.month + 1), TwoDigits(d.day);
    FormatDateSplits(d);
    TwoDigitsShape(d.month + 1);
    TwoDigitsShape(d.day);
    ParseIntNatToString(d.year);
  }

  /** Different dates of the common era get different labels. */
  lemma FormatDateInjective(d1: CalendarDate, d2: CalendarDate)
    requires ValidDate(d1) && d1.year >= 0 && ValidDate(d2) && d2.year >= 0
    requires FormatDate(d1) == FormatDate(d2)
    ensures d1 == d2
  {
    FormatDateDecodes(d1);
    FormatDateDecodes(d2);
  }

  /**
   * `addHours`: the text before the first `:` is the hour and the text
   * after it up to the next `:` the minutes, each read with `Number`; the
   * hour is advanced modulo 24 (JavaScript's remainder) and both are
   * printed with two digits. A time without `:` has no minutes, and
   * printing them throws (`None`).
   */
  function AddHours(time: string, hours: int): (r: Option<string>)
  {
    var parts := Split(time, ":");
    if |parts| < 2 then None else Some(ClockOf(ToNumber(parts[0]), ToNumber(parts[1]), hours))
  }

  /** The printed time for an hour and minutes read as numbers, the hour advanced. */
  function ClockOf(hour: Number, minutes: Number, hours: int): string
  {
    PadStart2(NumberToString(AdvanceHour(hour, hours))) + ":" + PadStart2(NumberToString(minutes))
  }

  /** `(h + hours) % 24` on a JavaScript number. */
  function AdvanceHour(h: Number, hours: int): Number
  {
    if h.NaN? then NaN else Int(JsRem(h.v + hours, 24))
  }

  /** `HH:MM`. */
  function Clock(h: nat, m: nat): string
  {
    TwoDigits(h) + ":" + TwoDigits(m)
  }

  lemma ClockSplits(h: nat, m: nat)
    requires h < 100 && m < 100
    ensures Split(Clock(h, m), ":") == [TwoDigits(h), TwoDigits(m)]
  {
    TwoDigitsShape(h);
    TwoDigitsShape(m);
    DigitsAvoid(TwoDigits(h), ":");
    DigitsAvoid(TwoDigits(m), ":");
    SplitPair(TwoDigits(h), ":", TwoDigits(m));
  }

  /** `addHours` on a time whose two fields read as numbers. */
  lemma AddHoursOfNumbers(time: string, h: int, m: int, k: int)
    requires |Split(time, ":")| >= 2
    requires ToNumber(Split(time, ":")[0]) == Int(h) && ToNumber(Split(time, ":")[1]) == Int(m)
    ensures AddHours(time, k) == Some(PadStart2(IntToString(JsRem(h + k, 24))) + ":" + PadStart2(IntToString(m)))
  {
    assert AddHours(time, k) == Some(ClockOf(Int(h), Int(m), k));
    var hour := JsRem(h + k, 24);
    assert AdvanceHour(Int(h), k) == Int(hour);
    assert NumberToString(Int(hour)) == IntToString(hour);
    assert NumberToString(Int(m)) == IntToString(m);
  }

  /** On a clock time, adding hours moves the hour round the day and keeps the minutes. */
  lemma AddHoursClock(h: nat, m: nat, k: nat)
    requires h < 24 && m < 100
    ensures AddHours(Clock(h, m), k) == Some(Clock((h + k) % 24, m))
  {
    ClockSplits(h, m);
    TwoDigitsShape(h);
    TwoDigitsShape(m);
    AddHoursOfNumbers(Clock(h, m), h, m, k);
    var n := (h + k) % 24;
    assert JsRem(h + k, 24) == n;
    assert IntToString(n) == NatToString(n);
  }

  /** The hour after 23 is 00. */
  lemma AddHoursWrapsAtMidnight(m: nat)
    requires m < 100
    ensures AddHours(Clock(23, m), 1) == Some(Clock(0, m))
  {
    var h := 23;
    AddHoursClock(h, m, 1);
    assert (h + 1) % 24 == 0;
  }

  /** A time without minutes makes `addHours` throw. */
  lemma AddHoursNeedsMinutes(time: string, hours: int)
    requires !Contains(time, ":")
    ensures AddHours(time, hours).None?
  {
    assert IndexOf(time, ":").None?;
  }
}
