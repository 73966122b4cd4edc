// Announcements of a university (announcements/management.ts): mentors,
// coordinators and super admins post them; a mentor may change or remove
// only their own. Titles are capped at 200 UTF-16 code units and contents
// at 2000, measured before trimming. Readers ask for one user type and get the
// announcements whose stored audience is `both` or that exact string.
module Announcements {
  import opened Wrappers
  import opened Types
  import opened Text
  import opened Order
  import opened Store
  import opened Auth
  import opened Database

  const MaxTitleLength := 200
  const MaxContentLength := 2000

  /** The fields a caller sends to create an announcement; `None` is a field left out. */
  datatype AnnouncementInput = AnnouncementInput(
    title: Option<string>,
    content: Option<string>,
    priority: Option<Priority>,
    targetAudience: Option<Audience>,
    time: Option<string>)

  /** Neither text is over its cap (an absent text is not checked). */
  predicate WithinLimits(title: Option<string>, content: Option<string>)
  {
    (title.None? || Utf16Length(title.value) <= MaxTitleLength) &&
    (content.None? || Utf16Length(content.value) <= MaxContentLength)
  }

  /** Every stored announcement respects both caps. */
  predicate AllWithinLimits(announcements: map<string, Announcement>)
  {
    forall id :: id in announcements ==>
      Utf16Length(announcements[id].title) <= MaxTitleLength && Utf16Length(announcements[id].content) <= MaxContentLength
  }

  /** Storing an announcement within both caps keeps every stored one within them. */
  lemma StoreWithinLimits(announcements: map<string, Announcement>, id: string, a: Announcement)
    requires AllWithinLimits(announcements)
    requires Utf16Length(a.title) <= MaxTitleLength && Utf16Length(a.content) <= MaxContentLength
    ensures AllWithinLimits(announcements[id := a])
  {
  }

  /**
   * createAnnouncement's checks: the mentor gate, then the four required
   * fields, then the two caps.
   */
  function CheckCreate(auth: Option<Token>, input: AnnouncementInput): (r: Result<AuthContext>)
    ensures VerifyMentor(auth).Err? ==> r == Err(VerifyMentor(auth).error)
    ensures r.Ok? <==>
      VerifyMentor(auth).Ok? && Truthy(input.title) && Truthy(input.content) &&
      input.priority.Some? && input.targetAudience.Some? && WithinLimits(input.title, input.content)
    ensures VerifyMentor(auth).Ok? && r.Err? ==> r.error == InvalidArgument
    ensures r.Ok? ==> r == VerifyMentor(auth)
  {
    match VerifyMentor(auth)
    case Err(e) => Err(e)
    case Ok(ctx) =>
      if !Truthy(input.title) || !Truthy(input.content) || input.priority.None? || input.targetAudience.None? then
        Err(InvalidArgument)
      else if Utf16Length(input.title.value) > MaxTitleLength then Err(InvalidArgument)
      else if Utf16Length(input.content.value) > MaxContentLength then Err(InvalidArgument)
      else Ok(ctx)
  }

  /**
   * The stored announcement: trimmed texts, the given time or the current
   * one, and the caller as author.
   */
  function NewAnnouncement(input: AnnouncementInput, uid: string, nowIso: string, now: int): (a: Announcement)
    requires Truthy(input.title) && Truthy(input.content) && input.priority.Some? && input.targetAudience.Some?
    ensures a.title == Trim(input.title.value) && a.content == Trim(input.content.value)
    ensures a.time == (if Truthy(input.time) then input.time.value else nowIso)
    ensures a.priority == input.priority.value && a.targetAudience == input.targetAudience.value
    ensures a.createdBy == uid && a.createdAt == now && a.updatedBy.None?
  {
    Announcement(Trim(input.title.value), Trim(input.content.value), OrElse(input.time, nowIso),
                 input.priority.value, input.targetAudience.value, now, uid, None, None)
  }

  method CreateAnnouncement(t: Tenant, auth: Option<Token>, input: AnnouncementInput, nowIso: string, now: int)
    returns (r: Result<DatabaseResult<string>>)
    modifies t
    ensures r.Err? <==> CheckCreate(auth, input).Err?
    ensures r.Err? ==> r.error == CheckCreate(auth, input).error && t.state == old(t.state)
    ensures r.Ok? ==>
      r.value.success && r.value.data.Some? && r.value.data.value !in old(t.state.announcements) &&
      t.state == old(t.state).(announcements := old(t.state.announcements)[r.value.data.value :=
        NewAnnouncement(input, auth.value.uid, nowIso, now)])
    ensures AllWithinLimits(old(t.state.announcements)) ==> AllWithinLimits(t.state.announcements)
  {
    var checked := CheckCreate(auth, input);
    if checked.Err? {
      return Err(checked.error);
    }
    var a := NewAnnouncement(input, checked.value.uid, nowIso, now);
    var w := CreateDocument(t.state.announcements, a);
    if AllWithinLimits(t.state.announcements) {
      TrimUnits(input.title.value);
      TrimUnits(input.content.value);
      StoreWithinLimits(t.state.announcements, w.result.data.value, a);
    }
    t.state := t.state.(announcements := w.docs);
    return Ok(w.result);
  }

  // ---------------------------------------------------------------- update and delete

  /** The fields a caller may change; `None` is a field left out. */
  datatype AnnouncementChanges = AnnouncementChanges(
    title: Option<string>,
    content: Option<string>,
    priority: Option<Priority>,
    targetAudience: Option<Audience>,
    time: Option<string>)

  /** A mentor acts only on their own announcements; coordinators and super admins on any. */
  predicate MayEdit(ctx: AuthContext, a: Announcement)
  {
    !(ctx.role == Some("mentor") && a.createdBy != ctx.uid)
  }

  /** The checks update and delete share: the mentor gate, an id, an existing announcement, ownership. */
  function CheckOwner(auth: Option<Token>, announcements: map<string, Announcement>, announcementId: Option<string>)
    : (r: Result<AuthContext>)
    ensures VerifyMentor(auth).Err? ==> r == Err(VerifyMentor(auth).error)
    ensures VerifyMentor(auth).Ok? && !Truthy(announcementId) ==> r == Err(InvalidArgument)
    ensures VerifyMentor(auth).Ok? && Truthy(announcementId) && announcementId.value !in announcements ==> r == Err(NotFound)
    ensures r.Ok? <==>
      VerifyMentor(auth).Ok? && Truthy(announcementId) && announcementId.value in announcements &&
      MayEdit(VerifyMentor(auth).value, announcements[announcementId.value])
    ensures r.Err? ==> r.error in {Unauthenticated, PermissionDenied, InvalidArgument, NotFound}
    ensures r.Ok? ==> r == VerifyMentor(auth)
  {
    match VerifyMentor(auth)
    case Err(e) => Err(e)
    case Ok(ctx) =>
      if !Truthy(announcementId) then Err(InvalidArgument)
      else if announcementId.value !in announcements then Err(NotFound)
      else if !MayEdit(ctx, announcements[announcementId.value]) then Err(PermissionDenied)
      else Ok(ctx)
  }

  /** updateAnnouncement's checks: ownership, then the caps on the texts that are given and not empty. */
  function CheckUpdate(auth: Option<Token>, announcements: map<string, Announcement>, announcementId: Option<string>,
                       c: AnnouncementChanges): (r: Result<AuthContext>)
    ensures CheckOwner(auth, announcements, announcementId).Err? ==> r == CheckOwner(auth, announcements, announcementId)
    ensures r.Ok? <==> CheckOwner(auth, announcements, announcementId).Ok? && WithinLimits(c.title, c.content)
    ensures CheckOwner(auth, announcements, announcementId).Ok? && r.Err? ==> r.error == InvalidArgument
    ensures r.Ok? ==> r == VerifyMentor(auth)
  {
    match CheckOwner(auth, announcements, announcementId)
    case Err(e) => Err(e)
    case Ok(ctx) =>
      if Truthy(c.title) && Utf16Length(c.title.value) > MaxTitleLength then Err(InvalidArgument)
      else if Truthy(c.content) && Utf16Length(c.content.value) > MaxContentLength then Err(InvalidArgument)
      else Ok(ctx)
  }

  /** A given text is stored trimmed; an empty one is stored as it is. */
  function TrimmedText(given: Option<string>, old_: string): (r: string)
    ensures given.None? ==> r == old_
    ensures given.Some? ==> r == Trim(given.value)
  {
    match given
    case None => old_
    case Some(s) => if s != "" then Trim(s) else s
  }

  /**
   * The merge of an update made of the declared `UpdateAnnouncementData`
   * fields: each given field replaces the stored one, texts trimmed, and
   * the editor and time are recorded; the author and creation time, which
   * are not among those fields, stay.
   */
  function UpdatePatch(a: Announcement, c: AnnouncementChanges, uid: string, now: int): (r: Announcement)
    ensures r.title == (if c.title.Some? then Trim(c.title.value) else a.title)
    ensures r.content == (if c.content.Some? then Trim(c.content.value) else a.content)
    ensures r.priority == (if c.priority.Some? then c.priority.value else a.priority)
    ensures r.targetAudience == (if c.targetAudience.Some? then c.targetAudience.value else a.targetAudience)
    ensures r.time == (if c.time.Some? then c.time.value else a.time)
    ensures r.createdBy == a.createdBy && r.createdAt == a.createdAt
    ensures r.updatedBy == Some(uid) && r.updatedAt == Some(now)
  {
    a.(title := TrimmedText(c.title, a.title),
       content := TrimmedText(c.content, a.content),
       priority := if c.priority.Some? then c.priority.value else a.priority,
       targetAudience := if c.targetAudience.Some? then c.targetAudience.value else a.targetAudience,
       time := if c.time.Some? then c.time.value else a.time,
       updatedAt := Some(now),
       updatedBy := Some(uid))
  }

  /** A merge whose given texts pass the caps keeps a stored announcement within them. */
  lemma PatchWithinLimits(a: Announcement, c: AnnouncementChanges, uid: string, now: int)
    requires Utf16Length(a.title) <= MaxTitleLength && Utf16Length(a.content) <= MaxContentLength
    requires WithinLimits(c.title, c.content)
    ensures Utf16Length(UpdatePatch(a, c, uid, now).title) <= MaxTitleLength
    ensures Utf16Length(UpdatePatch(a, c, uid, now).content) <= MaxContentLength
  {
    if c.title.Some? { TrimUnits(c.title.value); }
    if c.content.Some? { TrimUnits(c.content.value); }
  }

  method UpdateAnnouncement(t: Tenant, auth: Option<Token>, announcementId: Option<string>, c: AnnouncementChanges, now: int)
    returns (r: Result<DatabaseResult<()>>)
    modifies t
    ensures r.Err? <==> CheckUpdate(auth, old(t.state.announcements), announcementId, c).Err?
    ensures r.Err? ==> r.error == CheckUpdate(auth, old(t.state.announcements), announcementId, c).error && t.state == old(t.state)
    ensures r.Ok? ==> (r.value.success &&
      t.state == old(t.state).(announcements := old(t.state.announcements)[announcementId.value :=
        UpdatePatch(old(t.state.announcements)[announcementId.value], c, auth.value.uid, now)]))
    ensures AllWithinLimits(old(t.state.announcements)) ==> AllWithinLimits(t.state.announcements)
  {
    var checked := CheckUpdate(auth, t.state.announcements, announcementId, c);
    if checked.Err? {
      return Err(checked.error);
    }
    var uid := checked.value.uid;
    var w := UpdateDocument(t.state.announcements, announcementId.value, (a: Announcement) => UpdatePatch(a, c, uid, now));
    if AllWithinLimits(t.state.announcements) {
      PatchWithinLimits(t.state.announcements[announcementId.value], c, uid, now);
      StoreWithinLimits(t.state.announcements, announcementId.value,
                        UpdatePatch(t.state.announcements[announcementId.value], c, uid, now));
    }
    t.state := t.state.(announcements := w.docs);
    return Ok(w.result);
  }

  method DeleteAnnouncement(t: Tenant, auth: Option<Token>, announcementId: Option<string>)
    returns (r: Result<DatabaseResult<()>>)
    modifies t
    ensures r.Err? <==> CheckOwner(auth, old(t.state.announcements), announcementId).Err?
    ensures r.Err? ==> r.error == CheckOwner(auth, old(t.state.announcements), announcementId).error && t.state == old(t.state)
    ensures r.Ok? ==> (r.value.success &&
      t.state == old(t.state).(announcements := old(t.state.announcements) - {announcementId.value}))
  {
    var checked := CheckOwner(auth, t.state.announcements, announcementId);
    if checked.Err? {
      return Err(checked.error);
    }
    var w := DeleteDocument(t.state.announcements, announcementId.value);
    t.state := t.state.(announcements := w.docs);
    return Ok(w.result);
  }

  // ---------------------------------------------------------------- getAnnouncements

  const DefaultLimit := 20

  /** The page size asked for, 20 when none is given. */
  function LimitOrDefault(limit: Option<nat>): nat
  {
    if limit.Some? then limit.value else DefaultLimit
  }

  /** The query `where target_audience in ['both', userType]`. */
  predicate ForReader(a: Announcement, userType: string)
  {
    AudienceText(a.targetAudience) == "both" || AudienceText(a.targetAudience) == userType
  }

  /** An announcement's place in the listing: its `created_at`, then its id. */
  function Position(announcements: map<string, Announcement>, id: string): (int, string)
  {
    (if id in announcements then announcements[id].createdAt else 0, id)
  }

  function Candidates(announcements: map<string, Announcement>, userType: string): (r: set<(int, string)>)
    ensures forall p :: p in r ==>
      p.1 in announcements && ForReader(announcements[p.1], userType) && p == Position(announcements, p.1)
    ensures forall id :: id in announcements && ForReader(announcements[id], userType) ==>
      Position(announcements, id) in r
  {
    set id | id in announcements && ForReader(announcements[id], userType) :: Position(announcements, id)
  }

  /** The ids of the listing: the matching announcements, newest first, at most `limit`. */
  function ListAnnouncements(announcements: map<string, Announcement>, userType: string, limit: nat): (r: seq<string>)
  {
    var sorted := NewestFirst(Candidates(announcements, userType));
    var n := if limit < |sorted| then limit else |sorted|;
    seq(n, i requires 0 <= i < n => sorted[i].1)
  }

  /** The listing holds at most `limit` announcements, each meant for the reader. */
  lemma ListedMatch(announcements: map<string, Announcement>, userType: string, limit: nat)
    ensures var r := ListAnnouncements(announcements, userType, limit);
      |r| <= limit && forall i :: 0 <= i < |r| ==> r[i] in announcements && ForReader(announcements[r[i]], userType)
  {
    var sorted := NewestFirst(Candidates(announcements, userType));
    var r := ListAnnouncements(announcements, userType, limit);
    forall i | 0 <= i < |r| ensures r[i] in announcements && ForReader(announcements[r[i]], userType) {
      assert sorted[i] in Candidates(announcements, userType);
    }
  }

  /** The listing is newest first. */
  lemma ListedOrdered(announcements: map<string, Announcement>, userType: string, limit: nat)
    ensures var r := ListAnnouncements(announcements, userType, limit);
      forall i, j :: 0 <= i < j < |r| ==> NewerFirst(Position(announcements, r[i]), Position(announcements, r[j]))
  {
    var sorted := NewestFirst(Candidates(announcements, userType));
    var r := ListAnnouncements(announcements, userType, limit);
    forall i | 0 <= i < |r| ensures Position(announcements, r[i]) == sorted[i] {
      assert sorted[i] in Candidates(announcements, userType);
    }
  }

  /** The listing is the first `limit` candidates, newest first. */
  lemma ListedPrefix(announcements: map<string, Announcement>, userType: string, limit: nat)
    ensures var sorted := NewestFirst(Candidates(announcements, userType));
      var r := ListAnnouncements(announcements, userType, limit);
      |r| == (if limit < |sorted| then limit else |sorted|) &&
      forall k :: 0 <= k < |r| ==> sorted[k].1 in r
  {
    var sorted := NewestFirst(Candidates(announcements, userType));
    var r := ListAnnouncements(announcements, userType, limit);
    forall k | 0 <= k < |r| ensures sorted[k].1 in r {
      assert r[k] == sorted[k].1;
    }
  }

  /** An announcement for the reader that is left out is older than every listed one, and the listing is full. */
  lemma ListedComplete(announcements: map<string, Announcement>, userType: string, limit: nat)
    ensures var r := ListAnnouncements(announcements, userType, limit);
      forall id :: id in announcements && ForReader(announcements[id], userType) && id !in r ==>
        |r| == limit && forall i :: 0 <= i < |r| ==> NewerFirst(Position(announcements, r[i]), Position(announcements, id))
  {
    var sorted := NewestFirst(Candidates(announcements, userType));
    var n := if limit < |sorted| then limit else |sorted|;
    var r := ListAnnouncements(announcements, userType, limit);
    ListedOrdered(announcements, userType, limit);
    forall id | id in announcements && ForReader(announcements[id], userType) && id !in r
      ensures |r| == limit && forall i :: 0 <= i < |r| ==> NewerFirst(Position(announcements, r[i]), Position(announcements, id))
    {
      var p := Position(announcements, id);
      assert p in Candidates(announcements, userType);
      var k :| 0 <= k < |sorted| && sorted[k] == p;
      ListedPrefix(announcements, userType, limit);
      assert n <= k;
      forall i | 0 <= i < |r| ensures NewerFirst(Position(announcements, r[i]), p) {
        assert Position(announcements, r[i]) == sorted[i];
      }
    }
  }

  /**
   * The listing holds at most `limit` announcements, each meant for the
   * reader, newest first; one that is left out is older than every listed
   * one, and then the listing is full.
   */
  lemma ListAnnouncementsSpec(announcements: map<string, Announcement>, userType: string, limit: nat)
    ensures var r := ListAnnouncements(announcements, userType, limit);
      |r| <= limit &&
      (forall i :: 0 <= i < |r| ==> r[i] in announcements && ForReader(announcements[r[i]], userType)) &&
      (forall i, j :: 0 <= i < j < |r| ==> NewerFirst(Position(announcements, r[i]), Position(announcements, r[j]))) &&
      (forall id :: id in announcements && ForReader(announcements[id], userType) && id !in r ==>
        |r| == limit && forall i :: 0 <= i < |r| ==> NewerFirst(Position(announcements, r[i]), Position(announcements, id)))
  {
    ListedMatch(announcements, userType, limit);
    ListedOrdered(announcements, userType, limit);
    ListedComplete(announcements, userType, limit);
  }

  /** A listed announcement with its id. */
  datatype Listed = Listed(id: string, announcement: Announcement)

  /**
   * getAnnouncements: any authenticated caller; a request without a user
   * type cannot be queried (the store refuses an undefined value).
   */
  function GetAnnouncements(auth: Option<Token>, announcements: map<string, Announcement>, userType: Option<string>,
                            limit: Option<nat>): (r: Result<seq<Listed>>)
    ensures auth.None? ==> r == Err(Unauthenticated)
    ensures auth.Some? && userType.None? ==> r == Err(Internal)
    ensures r.Ok? <==> auth.Some? && userType.Some?
    ensures r.Ok? ==>
      var ids := ListAnnouncements(announcements, userType.value, LimitOrDefault(limit));
      |r.value| == |ids| && forall i :: 0 <= i < |ids| ==>
        r.value[i].id == ids[i] && ids[i] in announcements && r.value[i].announcement == announcements[ids[i]]
  {
    match VerifyAuth(auth)
    case Err(e) => Err(e)
    case Ok(_) =>
      if userType.None? then Err(Internal)
      else
        var ids := ListAnnouncements(announcements, userType.value, LimitOrDefault(limit));
        ListedMatch(announcements, userType.value, LimitOrDefault(limit));
        Ok(seq(|ids|, i requires 0 <= i < |ids| => Listed(ids[i], announcements[ids[i]])))
  }

  // ---------------------------------------------------------------- properties

  /** The caps are inclusive: 200 and 2000 code units pass, one more fails. */
  lemma LengthBoundaries(auth: Option<Token>, title: string, content: string, p: Priority, a: Audience, time: Option<string>)
    requires VerifyMentor(auth).Ok?
    requires 0 < |title| && Utf16Length(title) <= MaxTitleLength
    requires 0 < |content| && Utf16Length(content) <= MaxContentLength
    ensures CheckCreate(auth, AnnouncementInput(Some(title), Some(content), Some(p), Some(a), time)).Ok?
    ensures CheckCreate(auth, AnnouncementInput(Some(title + "x"), Some(content), Some(p), Some(a), time)).Ok? <==>
      Utf16Length(title) < MaxTitleLength
    ensures CheckCreate(auth, AnnouncementInput(Some(title), Some(content + "x"), Some(p), Some(a), time)).Ok? <==>
      Utf16Length(content) < MaxContentLength
  {
    TitleBoundary(auth, title, content, p, a, time);
    ContentBoundary(auth, title, content, p, a, time);
  }

  /** One code unit more than the title's length passes exactly while the title is under its cap. */
  lemma TitleBoundary(auth: Option<Token>, title: string, content: string, p: Priority, a: Audience, time: Option<string>)
    requires VerifyMentor(auth).Ok?
    requires 0 < |content| && Utf16Length(content) <= MaxContentLength
    ensures CheckCreate(auth, AnnouncementInput(Some(title + "x"), Some(content), Some(p), Some(a), time)).Ok? <==>
      Utf16Length(title) < MaxTitleLength
  {
    AppendOneUnit(title);
  }

  /** One code unit more than the content's length passes exactly while the content is under its cap. */
  lemma ContentBoundary(auth: Option<Token>, title: string, content: string, p: Priority, a: Audience, time: Option<string>)
    requires VerifyMentor(auth).Ok?
    requires 0 < |title| && Utf16Length(title) <= MaxTitleLength
    ensures CheckCreate(auth, AnnouncementInput(Some(title), Some(content + "x"), Some(p), Some(a), time)).Ok? <==>
      Utf16Length(content) < MaxContentLength
  {
    AppendOneUnit(content);
  }

  /** Appending a one-unit character adds one code unit. */
  lemma AppendOneUnit(s: string)
    ensures Utf16Length(s + "x") == Utf16Length(s) + 1
  {
    Utf16LengthAppend(s, "x");
    assert Utf16Length("x") == 1 by { assert "x"[1..] == []; }
  }

  /**
   * The caps count UTF-16 code units, so a character outside the Basic
   * Multilingual Plane counts twice: 101 emoji make a title over the cap.
   */
  lemma AstralCharactersCountTwice(auth: Option<Token>, p: Priority, a: Audience)
    requires VerifyMentor(auth).Ok?
    ensures var emoji := seq(101, _ => '\U{1F600}');
      |emoji| == 101 &&
      CheckCreate(auth, AnnouncementInput(Some(emoji), Some("c"), Some(p), Some(a), None)) == Err(InvalidArgument)
  {
    var emoji := seq(101, _ => '\U{1F600}');
    Utf16LengthAstral(emoji);
  }

  /** The length is measured before trimming: a short text padded past the cap is refused. */
  lemma LimitCheckedBeforeTrim(auth: Option<Token>, p: Priority, a: Audience)
    requires VerifyMentor(auth).Ok?
    ensures var padded := "x" + seq(MaxTitleLength, _ => ' ');
      Trim(padded) == "x" &&
      CheckCreate(auth, AnnouncementInput(Some(padded), Some("c"), Some(p), Some(a), None)) == Err(InvalidArgument)
  {
    var padded := "x" + seq(MaxTitleLength, _ => ' ');
    assert forall i :: 1 <= i < |padded| ==> IsSpace(padded[i]);
    assert forall i :: 0 <= i < |padded| ==> padded[i] as int < 0x10000;
    Utf16LengthBasic(padded);
    TrimOfPadded(padded);
  }

  lemma {:induction false} TrimEndOfPadded(s: string)
    requires |s| >= 1 && s[0] == 'x' && forall i :: 1 <= i < |s| ==> IsSpace(s[i])
    ensures TrimEnd(s) == "x"
    decreases |s|
  {
    if |s| == 1 {
      assert s == "x";
    } else {
      var init := s[..|s| - 1];
      assert TrimEnd(s) == TrimEnd(init);
      TrimEndOfPadded(init);
    }
  }

  lemma TrimOfPadded(s: string)
    requires |s| >= 1 && s[0] == 'x' && forall i :: 1 <= i < |s| ==> IsSpace(s[i])
    ensures Trim(s) == "x"
  {
    TrimStartKeeps(s);
    TrimEndOfPadded(s);
  }

  /**
   * A mentor may change or remove only their own announcements, while
   * coordinators and super admins may act on any.
   */
  lemma OwnerOnlyForMentors(auth: Option<Token>, announcements: map<string, Announcement>, id: string)
    requires auth.Some? && id != "" && id in announcements
    ensures auth.value.role == Some("mentor") ==>
      (CheckOwner(auth, announcements, Some(id)).Ok? <==> announcements[id].createdBy == auth.value.uid)
    ensures auth.value.role == Some("coordinator") || auth.value.role == Some("super_admin") ==>
      CheckOwner(auth, announcements, Some(id)).Ok?
    ensures auth.value.role == Some("mentee") ==> CheckOwner(auth, announcements, Some(id)) == Err(PermissionDenied)
  {
  }

  /**
   * The declared audiences are `mentors`, `mentees` or `both`, and readers
   * ask with `mentor` or `mentee`: among announcements whose audience is one
   * of the declared three, such a reader sees only those meant for both.
   */
  lemma AudienceMismatch(a: Announcement)
    ensures ForReader(a, "mentor") <==> a.targetAudience == Both
    ensures ForReader(a, "mentee") <==> a.targetAudience == Both
    ensures ForReader(a, "mentors") <==> a.targetAudience != Mentees
  {
  }

  /** Stored texts are trimmed: trimming them again changes nothing. */
  lemma StoredTextsTrimmed(input: AnnouncementInput, uid: string, nowIso: string, now: int)
    requires Truthy(input.title) && Truthy(input.content) && input.priority.Some? && input.targetAudience.Some?
    ensures var a := NewAnnouncement(input, uid, nowIso, now); Trim(a.title) == a.title && Trim(a.content) == a.content
  {
    TrimIdempotent(input.title.value);
    TrimIdempotent(input.content.value);
  }

  /** Applying the same update twice stores what applying it once does, apart from the time. */
  lemma UpdateIdempotent(a: Announcement, c: AnnouncementChanges, uid: string, now: int, later: int)
    ensures UpdatePatch(UpdatePatch(a, c, uid, now), c, uid, later) == UpdatePatch(a, c, uid, later)
  {
    TrimmedTextIdempotent(c.title, a.title);
    TrimmedTextIdempotent(c.content, a.content);
  }

  lemma TrimmedTextIdempotent(given: Option<string>, old_: string)
    ensures TrimmedText(given, TrimmedText(given, old_)) == TrimmedText(given, old_)
  {
    if given.Some? { TrimIdempotent(given.value); }
  }
}
