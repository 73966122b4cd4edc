// Conversations between two users and their messages
// (messaging/conversations.ts). A conversation's id is the two user
// document ids, sorted and joined by `__`. Each participant keeps their
// own settings inside the conversation (unread count, last read, archive,
// pin, nickname); the messages are a collection of their own under the
// conversation. Every handler first needs a caller with a university path.
module Conversations {
  import opened Wrappers
  import opened Types
  import opened Order
  import opened Text
  import opened Store
  import opened Auth
  import opened Database
  import MeetingHelpers

  /** `verifyAuth`, then a present, non-empty `university_path`. */
  function CallerWithPath(auth: Option<Token>): (r: Result<AuthContext>)
    ensures r.Ok? <==> auth.Some? && Truthy(auth.value.universityPath)
    ensures auth.None? ==> r == Err(Unauthenticated)
    ensures auth.Some? && !Truthy(auth.value.universityPath) ==> r == Err(FailedPrecondition)
    ensures r.Ok? ==> r.value == VerifyAuth(auth).value
  {
    match VerifyAuth(auth)
    case Err(e) => Err(e)
    case Ok(ctx) => if Truthy(ctx.universityPath) then Ok(ctx) else Err(FailedPrecondition)
  }

  /** The first user document, by id, whose `firebase_uid` is the caller's uid. */
  function UserByUid(users: map<string, User>, uid: string): (r: Result<string>)
    ensures r.Ok? <==> MeetingHelpers.UidMatches(users, uid) != {}
    ensures r.Err? ==> r.error == NotFound
    ensures r.Ok? ==> r.value in users && users[r.value].firebaseUid == Some(uid)
    ensures r.Ok? ==> forall k :: k in MeetingHelpers.UidMatches(users, uid) && k != r.value ==> Lt(r.value, k)
  {
    var found := MeetingHelpers.UidMatches(users, uid);
    if found == {} then Err(NotFound) else Ok(FirstKey(found))
  }

  // ---------------------------------------------------------------- conversation ids

  /** `[a, b].sort()`: the smaller id, by UTF-16 code units, first. */
  function SortedPair(a: string, b: string): (r: (string, string))
    ensures (r.0 == a && r.1 == b) || (r.0 == b && r.1 == a)
    ensures !SortLt(r.1, r.0)
  {
    if SortLt(b, a) then SortLtTotal(b, a); (b, a) else (a, b)
  }

  const Separator := "__"

  function ConversationId(user1Id: string, user2Id: string): string
  {
    var p := SortedPair(user1Id, user2Id);
    p.0 + Separator + p.1
  }

  /** The order in which the two users are named does not matter. */
  lemma ConversationIdSymmetric(a: string, b: string)
    ensures SortedPair(a, b) == SortedPair(b, a)
    ensures ConversationId(a, b) == ConversationId(b, a)
  {
    SortLtTotal(a, b);
  }

  /**
   * An id that cannot hide the separator: no `__` inside and no `_` at the
   * end. Every id made by `generateUserDocumentId` is one.
   */
  predicate Splittable(s: string)
  {
    NoDoubleUnderscore(s) && (s == [] || s[|s| - 1] != '_')
  }

  /** The separator at position i of `c + __ + d` would start inside such an id c. */
  lemma NoSeparatorIn(c: string, d: string, i: int)
    requires Splittable(c) && 0 <= i < |c|
    ensures !((c + Separator + d)[i] == '_' && (c + Separator + d)[i + 1] == '_')
  {
    var s := c + Separator + d;
    assert s[i] == c[i];
    if i + 1 < |c| {
      assert s[i + 1] == c[i + 1];
    }
  }

  lemma SeparatorAt(a: string, b: string, c: string, d: string)
    requires Splittable(c)
    requires a + Separator + b == c + Separator + d
    ensures |c| <= |a|
  {
    var s := a + Separator + b;
    assert s[|a|] == '_' && s[|a| + 1] == '_';
    if |a| < |c| {
      NoSeparatorIn(c, d, |a|);
    }
  }

  lemma SeparatorPosition(a: string, b: string, c: string, d: string)
    requires Splittable(a) && Splittable(c)
    requires a + Separator + b == c + Separator + d
    ensures a == c && b == d
  {
    SeparatorAt(a, b, c, d);
    SeparatorAt(c, d, a, b);
    var s := a + Separator + b;
    assert a == s[..|a|];
    assert c == s[..|c|];
    assert b == s[|a| + 2..];
    assert d == s[|c| + 2..];
  }

  /** Between ids that cannot hide the separator, a conversation id names one pair of users. */
  lemma ConversationIdDeterminesPair(a: string, b: string, c: string, d: string)
    requires Splittable(a) && Splittable(b) && Splittable(c) && Splittable(d)
    requires ConversationId(a, b) == ConversationId(c, d)
    ensures SortedPair(a, b) == SortedPair(c, d)
  {
    var p := SortedPair(a, b);
    var q := SortedPair(c, d);
    SeparatorPosition(p.0, p.1, q.0, q.1);
  }

  /** Ids that do hide it let two different pairs share one conversation. */
  lemma SeparatorInIdsCollides()
    ensures ConversationId("a__b", "c") == ConversationId("a", "b__c")
    ensures SortedPair("a__b", "c") != SortedPair("a", "b__c")
  {
    SortOrderBelowSurrogates("a__b", "c");
    SortOrderBelowSurrogates("c", "a__b");
    SortOrderBelowSurrogates("a", "b__c");
    SortOrderBelowSurrogates("b__c", "a");
    assert Lt("a__b", "c") && !Lt("c", "a__b");
    assert Lt("a", "b__c") && !Lt("b__c", "a");
  }

  // ---------------------------------------------------------------- createConversation

  datatype CreateAnswer = CreateAnswer(conversationId: string, message: string, isNew: bool)

  const CreatedMessage := "Conversation created successfully"
  const ExistsMessage := "Conversation already exists"

  /** The login id compared with the caller's uid; a missing one compares as empty. */
  function LoginOf(u: User): string
  {
    OrElse(u.firebaseUid, "")
  }

  /** The checks of `createConversation`, in the order they are made. */
  function CheckCreate(auth: Option<Token>, users: map<string, User>, user1Id: Option<string>, user2Id: Option<string>)
    : (r: Result<AuthContext>)
    ensures r.Ok? <==>
      auth.Some? && Truthy(auth.value.universityPath) && Truthy(user1Id) && Truthy(user2Id) &&
      user1Id.value in users && user2Id.value in users &&
      (auth.value.uid == LoginOf(users[user1Id.value]) || auth.value.uid == LoginOf(users[user2Id.value]))
    ensures CallerWithPath(auth).Err? ==> r == Err(CallerWithPath(auth).error)
    ensures CallerWithPath(auth).Ok? && !(Truthy(user1Id) && Truthy(user2Id)) ==> r == Err(InvalidArgument)
    ensures (CallerWithPath(auth).Ok? && Truthy(user1Id) && Truthy(user2Id) &&
            (user1Id.value !in users || user2Id.value !in users)) ==> r == Err(NotFound)
    ensures r.Err? ==> r.error in {Unauthenticated, FailedPrecondition, InvalidArgument, NotFound, PermissionDenied}
    ensures r.Ok? ==> r.value == VerifyAuth(auth).value
  {
    match CallerWithPath(auth)
    case Err(e) => Err(e)
    case Ok(ctx) =>
      if !Truthy(user1Id) || !Truthy(user2Id) then Err(InvalidArgument)
      else if user1Id.value !in users || user2Id.value !in users then Err(NotFound)
      else if ctx.uid != LoginOf(users[user1Id.value]) && ctx.uid != LoginOf(users[user2Id.value]) then Err(PermissionDenied)
      else Ok(ctx)
  }

  /** Naming the users the other way round passes or fails the same checks. */
  lemma CheckCreateSymmetric(auth: Option<Token>, users: map<string, User>, user1Id: Option<string>, user2Id: Option<string>)
    ensures CheckCreate(auth, users, user1Id, user2Id) == CheckCreate(auth, users, user2Id, user1Id)
  {
  }

  /** A participant's settings in a new conversation. */
  function FreshSettings(now: int): UserSettings
  {
    UserSettings(Some(now), Some(0), Some(true), Some(false), Some(false), None)
  }

  function Detail(u: User, now: int): ParticipantDetail
  {
    ParticipantDetail(OrElse(u.name, ""), OrElse(u.userType, "mentee"), now)
  }

  /**
   * The conversation written for two users: participants sorted, a detail
   * and fresh settings for each, no last message, and a mentorship and
   * academic year only when a mentorship is named.
   */
  function NewConversation(user1Id: string, user2Id: string, u1: User, u2: User, mentorshipId: Option<string>,
                           year: string, now: int): (c: Conversation)
    ensures c.participants == [user1Id, user2Id] || c.participants == [user2Id, user1Id]
    ensures !SortLt(c.participants[1], c.participants[0])
    ensures forall k :: k in c.participantDetails <==> k == user1Id || k == user2Id
    ensures forall k :: k in c.userSettings <==> k == user1Id || k == user2Id
    ensures c.participantDetails[user2Id] == Detail(u2, now)
    ensures user1Id != user2Id ==> c.participantDetails[user1Id] == Detail(u1, now)
    ensures forall p :: p in c.userSettings ==> c.userSettings[p] == FreshSettings(now)
    ensures c.lastMessage.None? && c.kind == "direct" && c.createdAt == now && c.updatedAt == now
    ensures c.mentorshipId == OrNull(mentorshipId)
    ensures c.academicYear.Some? <==> Truthy(mentorshipId)
  {
    var p := SortedPair(user1Id, user2Id);
    Conversation(
      [p.0, p.1],
      map[user1Id := Detail(u1, now)][user2Id := Detail(u2, now)],
      None, now, now, "direct",
      OrNull(mentorshipId),
      if Truthy(mentorshipId) then Some(year) else None,
      map[user1Id := FreshSettings(now)][user2Id := FreshSettings(now)])
  }

  /** Between two different users, the conversation written does not depend on the order they are named. */
  lemma NewConversationSymmetric(a: string, b: string, ua: User, ub: User, mentorshipId: Option<string>,
                                 year: string, now: int)
    requires a != b
    ensures NewConversation(a, b, ua, ub, mentorshipId, year, now) == NewConversation(b, a, ub, ua, mentorshipId, year, now)
  {
    ConversationIdSymmetric(a, b);
    var c := NewConversation(a, b, ua, ub, mentorshipId, year, now);
    var d := NewConversation(b, a, ub, ua, mentorshipId, year, now);
    assert c.participantDetails == d.participantDetails;
    assert c.userSettings == d.userSettings;
  }

  /**
   * `createConversation`: an existing conversation under the pair's id is
   * reported and left alone; otherwise the new conversation is written.
   * `year` is the current year, as the clock gives it.
   */
  method CreateConversation(t: Tenant, auth: Option<Token>, user1Id: Option<string>, user2Id: Option<string>,
                            mentorshipId: Option<string>, year: string, now: int)
    returns (r: Result<CreateAnswer>)
    modifies t
    ensures var c := CheckCreate(auth, old(t.state.users), user1Id, user2Id);
      (r.Err? <==> c.Err?) && (r.Err? ==> r.error == c.error)
    ensures r.Ok? ==> r.value.conversationId == ConversationId(user1Id.value, user2Id.value)
    ensures r.Ok? ==> (r.value.isNew <==> r.value.conversationId !in old(t.state.conversations))
    ensures r.Ok? ==> r.value.message == if r.value.isNew then CreatedMessage else ExistsMessage
    ensures !(r.Ok? && r.value.isNew) ==> t.state == old(t.state)
    ensures r.Ok? && r.value.isNew ==>
      t.state == old(t.state).(conversations := old(t.state.conversations)[r.value.conversationId :=
        NewConversation(user1Id.value, user2Id.value, old(t.state.users)[user1Id.value], old(t.state.users)[user2Id.value],
                        mentorshipId, year, now)])
  {
    var check := CheckCreate(auth, t.state.users, user1Id, user2Id);
    if check.Err? {
      return Err(check.error);
    }
    var id := ConversationId(user1Id.value, user2Id.value);
    if id in t.state.conversations {
      return Ok(CreateAnswer(id, ExistsMessage, false));
    }
    var c := NewConversation(user1Id.value, user2Id.value, t.state.users[user1Id.value], t.state.users[user2Id.value],
                             mentorshipId, year, now);
    t.state := t.state.(conversations := t.state.conversations[id := c]);
    return Ok(CreateAnswer(id, CreatedMessage, true));
  }

  // ---------------------------------------------------------------- sendMessage

  const MaxMessageLength := 5000

  /** The ids of the user documents whose `email` is `email`. */
  function EmailMatches(users: map<string, User>, email: string): (r: set<string>)
    ensures forall k :: k in r <==> k in users && users[k].email == Some(email)
  {
    set k | k in users && users[k].email == Some(email)
  }

  /**
   * The sender's user document: the first whose `firebase_uid` is the
   * caller's uid; failing that, the document named by the uid; failing
   * that, the first whose `email` is the caller's. An empty uid cannot name
   * a document and a missing email cannot be queried: the store throws.
   */
  function FindSender(users: map<string, User>, ctx: AuthContext): (r: Result<string>)
    ensures r.Ok? ==> r.value in users
    ensures r.Ok? ==>
      users[r.value].firebaseUid == Some(ctx.uid) || r.value == ctx.uid || users[r.value].email == ctx.email
    ensures UserByUid(users, ctx.uid).Ok? ==> r == UserByUid(users, ctx.uid)
    ensures UserByUid(users, ctx.uid).Err? && ctx.uid != "" && ctx.uid in users ==> r == Ok(ctx.uid)
    ensures r.Err? <==>
      MeetingHelpers.UidMatches(users, ctx.uid) == {} &&
      (ctx.uid == "" || (ctx.uid !in users && (ctx.email.None? || EmailMatches(users, ctx.email.value) == {})))
    ensures r.Err? ==> r.error == (if ctx.uid == "" || ctx.email.None? then Internal else NotFound)
  {
    match UserByUid(users, ctx.uid)
    case Ok(id) => Ok(id)
    case Err(_) =>
      if ctx.uid == "" then Err(Internal)
      else if ctx.uid in users then Ok(ctx.uid)
      else if ctx.email.None? then Err(Internal)
      else
        var found := EmailMatches(users, ctx.email.value);
        if found == {} then Err(NotFound) else Ok(FirstKey(found))
  }

  /** A caller identified inside a conversation. */
  datatype Member = Member(id: string, conversation: Conversation)

  /** The checks of `sendMessage`, in the order they are made. */
  function CheckSend(auth: Option<Token>, users: map<string, User>, conversations: map<string, Conversation>,
                     conversationId: Option<string>, message: Option<string>): (r: Result<Member>)
    ensures CallerWithPath(auth).Err? ==> r == Err(CallerWithPath(auth).error)
    ensures CallerWithPath(auth).Ok? && !(Truthy(conversationId) && Truthy(message)) ==> r == Err(InvalidArgument)
    ensures CallerWithPath(auth).Ok? && Truthy(conversationId) && Truthy(message) && Utf16Length(message.value) > MaxMessageLength ==>
      r == Err(InvalidArgument)
    ensures r.Ok? ==>
      CallerWithPath(auth).Ok? && Truthy(conversationId) && Truthy(message) && Utf16Length(message.value) <= MaxMessageLength &&
      conversationId.value in conversations && r.value.conversation == conversations[conversationId.value] &&
      FindSender(users, VerifyAuth(auth).value) == Ok(r.value.id) && r.value.id in r.value.conversation.participants
    ensures (CallerWithPath(auth).Ok? && Truthy(conversationId) && Truthy(message) && Utf16Length(message.value) <= MaxMessageLength &&
            conversationId.value in conversations && FindSender(users, VerifyAuth(auth).value).Ok? &&
            FindSender(users, VerifyAuth(auth).value).value !in conversations[conversationId.value].participants) ==>
      r == Err(PermissionDenied)
  {
    match CallerWithPath(auth)
    case Err(e) => Err(e)
    case Ok(ctx) =>
      if !Truthy(conversationId) || !Truthy(message) then Err(InvalidArgument)
      else if Utf16Length(message.value) > MaxMessageLength then Err(InvalidArgument)
      else if conversationId.value !in conversations then Err(NotFound)
      else
        var c := conversations[conversationId.value];
        match FindSender(users, ctx)
        case Err(e) => Err(e)
        case Ok(sender) =>
          if sender !in c.participants then Err(PermissionDenied) else Ok(Member(sender, c))
  }

  /** A message of exactly the longest allowed length, in UTF-16 code units, is accepted. */
  lemma LongestMessageAccepted(auth: Option<Token>, users: map<string, User>, conversations: map<string, Conversation>,
                               conversationId: string, message: string)
    requires auth.Some? && Truthy(auth.value.universityPath)
    requires conversationId != "" && Utf16Length(message) == MaxMessageLength
    requires conversationId in conversations
    requires FindSender(users, VerifyAuth(auth).value).Ok?
    requires FindSender(users, VerifyAuth(auth).value).value in conversations[conversationId].participants
    ensures CheckSend(auth, users, conversations, Some(conversationId), Some(message)).Ok?
  {
  }

  /** The position of the first participant other than the sender. */
  function FirstOther(participants: seq<string>, sender: string): (i: nat)
    ensures i <= |participants|
    ensures forall j :: 0 <= j < i ==> participants[j] == sender
    ensures i < |participants| ==> participants[i] != sender
  {
    if participants == [] then 0
    else if participants[0] != sender then 0
    else 1 + FirstOther(participants[1..], sender)
  }

  /** `participants.find(id => id !== sender)`. */
  function Recipient(participants: seq<string>, sender: string): (r: Option<string>)
    ensures r.Some? ==> r.value in participants && r.value != sender
    ensures r.None? <==> forall j :: 0 <= j < |participants| ==> participants[j] == sender
  {
    var i := FirstOther(participants, sender);
    if i < |participants| then Some(participants[i]) else None
  }

  /** A participant's settings, or none when the conversation holds no entry for them. */
  function SettingsOf(settings: map<string, UserSettings>, id: string): UserSettings
  {
    if id in settings then settings[id] else NoSettings
  }

  /** `user_settings[id].unread_count || 0`. */
  function UnreadOf(settings: map<string, UserSettings>, id: string): int
  {
    var c := SettingsOf(settings, id).unreadCount;
    if c.Some? then c.value else 0
  }

  /** `FieldValue.increment(1)` on one participant's unread count; a missing count starts from 0. */
  function Bumped(settings: map<string, UserSettings>, id: string): (r: map<string, UserSettings>)
    ensures r.Keys == settings.Keys + {id}
    ensures UnreadOf(r, id) == UnreadOf(settings, id) + 1
    ensures r[id] == SettingsOf(settings, id).(unreadCount := r[id].unreadCount)
    ensures forall k :: k in settings && k != id ==> r[k] == settings[k]
  {
    settings[id := SettingsOf(settings, id).(unreadCount := Some(UnreadOf(settings, id) + 1))]
  }

  /** The message written: `type` defaults to text, and media is kept only on another type. */
  function NewMessage(sender: string, text: string, kind: Option<string>, media: Option<Media>, now: int): (m: Message)
    ensures m.senderId == sender && m.text == text && m.sentAt == now && m.status == "sent"
    ensures m.readBy == map[sender := now]
    ensures m.kind == (if kind.Some? then kind.value else "text")
    ensures m.media.Some? <==> media.Some? && m.kind != "text"
  {
    var k := if kind.Some? then kind.value else "text";
    Message(sender, text, now, k, "sent", map[sender := now], if media.Some? && k != "text" then media else None)
  }

  /**
   * The conversation after a message: it carries the last message and the
   * time, and the recipient, when there is one with a non-empty id, has one
   * more unread message.
   */
  function AfterSend(c: Conversation, sender: string, text: string, now: int): (r: Conversation)
    ensures r.lastMessage == Some(LastMessage(text, sender, now)) && r.updatedAt == now
    ensures r.userSettings == (var to := Recipient(c.participants, sender);
                               if Truthy(to) then Bumped(c.userSettings, to.value) else c.userSettings)
    ensures r == c.(lastMessage := r.lastMessage, updatedAt := r.updatedAt, userSettings := r.userSettings)
  {
    var to := Recipient(c.participants, sender);
    c.(lastMessage := Some(LastMessage(text, sender, now)), updatedAt := now,
       userSettings := if Truthy(to) then Bumped(c.userSettings, to.value) else c.userSettings)
  }

  /** The messages of a conversation; none before the first is sent. */
  function MessagesOf(messages: map<string, map<string, Message>>, conversationId: string): map<string, Message>
  {
    if conversationId in messages then messages[conversationId] else map[]
  }

  /**
   * `sendMessage`: the message goes under a fresh id and the conversation
   * is updated in the same batch. The answer is the new message's id.
   */
  method SendMessage(t: Tenant, auth: Option<Token>, conversationId: Option<string>, message: Option<string>,
                     kind: Option<string>, media: Option<Media>, now: int)
    returns (r: Result<string>)
    modifies t
    ensures var c := CheckSend(auth, old(t.state.users), old(t.state.conversations), conversationId, message);
      (r.Err? <==> c.Err?) && (r.Err? ==> r.error == c.error && t.state == old(t.state))
    ensures r.Ok? ==>
      var sender := CheckSend(auth, old(t.state.users), old(t.state.conversations), conversationId, message).value;
      var cid := conversationId.value;
      var before := MessagesOf(old(t.state.messages), cid);
      r.value != "" && r.value !in before &&
      t.state == old(t.state).(
        conversations := old(t.state.conversations)[cid := AfterSend(sender.conversation, sender.id, message.value, now)],
        messages := old(t.state.messages)[cid := before[r.value := NewMessage(sender.id, message.value, kind, media, now)]])
  {
    var check := CheckSend(auth, t.state.users, t.state.conversations, conversationId, message);
    if check.Err? {
      return Err(check.error);
    }
    var sender := check.value;
    var cid := conversationId.value;
    var w := CreateDocument(MessagesOf(t.state.messages, cid), NewMessage(sender.id, message.value, kind, media, now));
    t.state := t.state.(
      conversations := t.state.conversations[cid := AfterSend(sender.conversation, sender.id, message.value, now)],
      messages := t.state.messages[cid := w.docs]);
    return Ok(w.result.data.value);
  }

  /** In a conversation of two, a message adds one to the other's unread count and leaves the sender's settings. */
  lemma SendCountsForTheOther(c: Conversation, sender: string, other: string, text: string, now: int)
    requires c.participants == [sender, other] || c.participants == [other, sender]
    requires other != sender && other != ""
    ensures UnreadOf(AfterSend(c, sender, text, now).userSettings, other) == UnreadOf(c.userSettings, other) + 1
    ensures SettingsOf(AfterSend(c, sender, text, now).userSettings, sender) == SettingsOf(c.userSettings, sender)
  {
    if c.participants == [sender, other] {
      assert c.participants[1..] == [other];
      assert FirstOther(c.participants, sender) == 1;
    } else {
      assert FirstOther(c.participants, sender) == 0;
    }
  }

  /**
   * With more than two participants only the first other one is counted:
   * a third participant's unread count does not move.
   */
  lemma SendSkipsLaterParticipants(c: Conversation, sender: string, a: string, b: string, text: string, now: int)
    requires c.participants == [sender, a, b]
    requires a != sender && b != sender && a != b
    ensures SettingsOf(AfterSend(c, sender, text, now).userSettings, b) == SettingsOf(c.userSettings, b)
  {
    assert FirstOther(c.participants, sender) == 1;
  }

  /** A message to oneself counts for nobody: the settings stay as they were. */
  lemma SendToSelfCountsNothing(c: Conversation, sender: string, text: string, now: int)
    requires forall j :: 0 <= j < |c.participants| ==> c.participants[j] == sender
    ensures AfterSend(c, sender, text, now).userSettings == c.userSettings
  {
  }

  // ---------------------------------------------------------------- markMessagesRead

  /** One message read by `reader`. */
  function ReadBy(m: Message, reader: string, now: int): (r: Message)
    ensures r.status == "read" && reader in r.readBy && r.readBy[reader] == now
    ensures forall k :: k in m.readBy && k != reader ==> k in r.readBy && r.readBy[k] == m.readBy[k]
    ensures r.readBy.Keys == m.readBy.Keys + {reader}
    ensures r == m.(status := r.status, readBy := r.readBy)
  {
    m.(status := "read", readBy := m.readBy[reader := now])
  }

  /** Reading a message again at the same time changes nothing. */
  lemma ReadByIdempotent(m: Message, reader: string, now: int)
    ensures ReadBy(ReadBy(m, reader, now), reader, now) == ReadBy(m, reader, now)
  {
    assert ReadBy(ReadBy(m, reader, now), reader, now).readBy == ReadBy(m, reader, now).readBy;
  }

  /** The checks of `markMessagesRead`, in the order they are made; the caller is found by login id only. */
  function CheckMarkRead(auth: Option<Token>, users: map<string, User>, conversations: map<string, Conversation>,
                         conversationId: Option<string>, messageIds: Option<seq<string>>): (r: Result<Member>)
    ensures CallerWithPath(auth).Err? ==> r == Err(CallerWithPath(auth).error)
    ensures CallerWithPath(auth).Ok? && !(Truthy(conversationId) && messageIds.Some? && |messageIds.value| > 0) ==>
      r == Err(InvalidArgument)
    ensures r.Ok? ==>
      CallerWithPath(auth).Ok? && Truthy(conversationId) && messageIds.Some? && |messageIds.value| > 0 &&
      conversationId.value in conversations && r.value.conversation == conversations[conversationId.value] &&
      UserByUid(users, auth.value.uid) == Ok(r.value.id) && r.value.id in r.value.conversation.participants
    ensures (CallerWithPath(auth).Ok? && Truthy(conversationId) && messageIds.Some? && |messageIds.value| > 0 &&
            conversationId.value in conversations && UserByUid(users, auth.value.uid).Ok? &&
            UserByUid(users, auth.value.uid).value !in conversations[conversationId.value].participants) ==>
      r == Err(PermissionDenied)
  {
    match CallerWithPath(auth)
    case Err(e) => Err(e)
    case Ok(ctx) =>
      if !Truthy(conversationId) || messageIds.None? || |messageIds.value| == 0 then Err(InvalidArgument)
      else
        Participant(users, conversations, conversationId.value, ctx.uid)
  }

  /** The conversation must exist, the caller's user document too, and the caller must take part. */
  function Participant(users: map<string, User>, conversations: map<string, Conversation>, conversationId: string,
                       uid: string): (r: Result<Member>)
    ensures r.Ok? <==>
      conversationId in conversations && UserByUid(users, uid).Ok? &&
      UserByUid(users, uid).value in conversations[conversationId].participants
    ensures r.Ok? ==> r == Ok(Member(UserByUid(users, uid).value, conversations[conversationId]))
    ensures r.Err? ==> r.error == (if conversationId in conversations && UserByUid(users, uid).Ok? then PermissionDenied else NotFound)
  {
    if conversationId !in conversations then Err(NotFound)
    else
      match UserByUid(users, uid)
      case Err(e) => Err(e)
      case Ok(me) =>
        var c := conversations[conversationId];
        if me !in c.participants then Err(PermissionDenied) else Ok(Member(me, c))
  }

  /** The batch fails as a whole unless every id names an existing message. */
  predicate AllExist(messages: map<string, Message>, ids: seq<string>)
  {
    forall i :: 0 <= i < |ids| ==> ids[i] != "" && ids[i] in messages
  }

  /** Every listed message read by `reader`; the others unchanged. */
  method MarkEach(messages: map<string, Message>, ids: seq<string>, reader: string, now: int)
    returns (r: map<string, Message>)
    requires AllExist(messages, ids)
    ensures r.Keys == messages.Keys
    ensures forall k :: k in messages ==> r[k] == (if k in ids then ReadBy(messages[k], reader, now) else messages[k])
  {
    r := messages;
    var i := 0;
    while i < |ids|
      invariant 0 <= i <= |ids|
      invariant r.Keys == messages.Keys
      invariant forall k :: k in messages ==> r[k] == (if k in ids[..i] then ReadBy(messages[k], reader, now) else messages[k])
    {
      var id := ids[i];
      ReadByIdempotent(messages[id], reader, now);
      r := r[id := ReadBy(r[id], reader, now)];
      assert ids[..i + 1] == ids[..i] + [id];
      i := i + 1;
    }
    assert ids[..i] == ids;
  }

  /** The reader's own settings after reading: no unread messages, read now. */
  function Cleared(settings: map<string, UserSettings>, reader: string, now: int): (r: map<string, UserSettings>)
    ensures r.Keys == settings.Keys + {reader}
    ensures UnreadOf(r, reader) == 0 && SettingsOf(r, reader).lastRead == Some(now)
    ensures r[reader] == SettingsOf(settings, reader).(unreadCount := Some(0), lastRead := Some(now))
    ensures forall k :: k in settings && k != reader ==> r[k] == settings[k]
  {
    settings[reader := SettingsOf(settings, reader).(unreadCount := Some(0), lastRead := Some(now))]
  }

  function MarkedMessage(n: nat): string
  {
    NatToString(n) + " messages marked as read"
  }

  /**
   * `markMessagesRead`: every listed message read by the caller and the
   * caller's unread count reset, in one batch. A missing or empty id fails
   * the batch, and nothing is written.
   */
  method MarkMessagesRead(t: Tenant, auth: Option<Token>, conversationId: Option<string>, messageIds: Option<seq<string>>,
                          now: int)
    returns (r: Result<string>)
    modifies t
    ensures var c := CheckMarkRead(auth, old(t.state.users), old(t.state.conversations), conversationId, messageIds);
      (c.Err? ==> r == Err(c.error)) &&
      (c.Ok? && !AllExist(MessagesOf(old(t.state.messages), conversationId.value), messageIds.value) ==> r == Err(Internal))
    ensures r.Err? ==> t.state == old(t.state)
    ensures r.Ok? ==>
      var me := CheckMarkRead(auth, old(t.state.users), old(t.state.conversations), conversationId, messageIds).value;
      var cid := conversationId.value;
      var before := MessagesOf(old(t.state.messages), cid);
      AllExist(before, messageIds.value) &&
      r.value == MarkedMessage(|messageIds.value|) &&
      t.state.messages.Keys == old(t.state.messages.Keys) + {cid} &&
      (forall k :: k in old(t.state.messages) && k != cid ==> t.state.messages[k] == old(t.state.messages)[k]) &&
      t.state.messages[cid].Keys == before.Keys &&
      (forall k :: k in before ==>
        t.state.messages[cid][k] == if k in messageIds.value then ReadBy(before[k], me.id, now) else before[k]) &&
      t.state == old(t.state).(
        conversations := old(t.state.conversations)[cid := me.conversation.(userSettings := Cleared(me.conversation.userSettings, me.id, now))],
        messages := t.state.messages)
  {
    var check := CheckMarkRead(auth, t.state.users, t.state.conversations, conversationId, messageIds);
    if check.Err? {
      return Err(check.error);
    }
    var me := check.value;
    var cid := conversationId.value;
    var before := MessagesOf(t.state.messages, cid);
    if !AllExist(before, messageIds.value) {
      return Err(Internal);
    }
    var after := MarkEach(before, messageIds.value, me.id, now);
    t.state := t.state.(
      conversations := t.state.conversations[cid := me.conversation.(userSettings := Cleared(me.conversation.userSettings, me.id, now))],
      messages := t.state.messages[cid := after]);
    return Ok(MarkedMessage(|messageIds.value|));
  }

  /** Reading undoes what a message did to the reader's count: after a send and a read, the reader has nothing unread. */
  lemma ReadAfterSendClears(c: Conversation, sender: string, reader: string, text: string, sentAt: int, readAt: int)
    ensures UnreadOf(Cleared(AfterSend(c, sender, text, sentAt).userSettings, reader, readAt), reader) == 0
    ensures reader != sender ==>
      SettingsOf(Cleared(AfterSend(c, sender, text, sentAt).userSettings, reader, readAt), sender) ==
      SettingsOf(AfterSend(c, sender, text, sentAt).userSettings, sender)
  {
  }

  // ---------------------------------------------------------------- updateConversationSettings

  /**
   * The settings a caller may supply; `None` is a field left out. A
   * nickname may be supplied as null, which clears it.
   */
  datatype SettingsChange = SettingsChange(
    notificationsEnabled: Option<bool>,
    archived: Option<bool>,
    pinned: Option<bool>,
    customNickname: Option<Option<string>>)

  predicate ChangesNothing(c: SettingsChange)
  {
    c.notificationsEnabled.None? && c.archived.None? && c.pinned.None? && c.customNickname.None?
  }

  /** The supplied fields replace the stored ones; the counters are never touched. */
  function Applied(s: UserSettings, c: SettingsChange): (r: UserSettings)
    ensures r.unreadCount == s.unreadCount && r.lastRead == s.lastRead
    ensures r.notificationsEnabled == (if c.notificationsEnabled.Some? then c.notificationsEnabled else s.notificationsEnabled)
    ensures r.archived == (if c.archived.Some? then c.archived else s.archived)
    ensures r.pinned == (if c.pinned.Some? then c.pinned else s.pinned)
    ensures r.customNickname == (if c.customNickname.Some? then c.customNickname.value else s.customNickname)
  {
    s.(notificationsEnabled := if c.notificationsEnabled.Some? then c.notificationsEnabled else s.notificationsEnabled,
       archived := if c.archived.Some? then c.archived else s.archived,
       pinned := if c.pinned.Some? then c.pinned else s.pinned,
       customNickname := if c.customNickname.Some? then c.customNickname.value else s.customNickname)
  }

  /** Applying the same change twice is applying it once. */
  lemma AppliedIdempotent(s: UserSettings, c: SettingsChange)
    ensures Applied(Applied(s, c), c) == Applied(s, c)
  {
  }

  /** An empty change leaves the settings as they are. */
  lemma AppliedNothing(s: UserSettings, c: SettingsChange)
    requires ChangesNothing(c)
    ensures Applied(s, c) == s
  {
  }

  /**
   * The checks of `updateConversationSettings`, in order. An update with
   * no field in it is refused by the store, which the handler reports as
   * an internal error.
   */
  function CheckSettings(auth: Option<Token>, users: map<string, User>, conversations: map<string, Conversation>,
                         conversationId: Option<string>, settings: Option<SettingsChange>): (r: Result<Member>)
    ensures CallerWithPath(auth).Err? ==> r == Err(CallerWithPath(auth).error)
    ensures CallerWithPath(auth).Ok? && !(Truthy(conversationId) && settings.Some?) ==> r == Err(InvalidArgument)
    ensures r.Ok? <==>
      CallerWithPath(auth).Ok? && Truthy(conversationId) && settings.Some? &&
      Participant(users, conversations, conversationId.value, auth.value.uid).Ok? && !ChangesNothing(settings.value)
    ensures r.Ok? ==> r == Participant(users, conversations, conversationId.value, auth.value.uid)
    ensures (CallerWithPath(auth).Ok? && Truthy(conversationId) && settings.Some? &&
            Participant(users, conversations, conversationId.value, auth.value.uid).Ok? && ChangesNothing(settings.value)) ==>
      r == Err(Internal)
  {
    match CallerWithPath(auth)
    case Err(e) => Err(e)
    case Ok(ctx) =>
      if !Truthy(conversationId) || settings.None? then Err(InvalidArgument)
      else
        match Participant(users, conversations, conversationId.value, ctx.uid)
        case Err(e) => Err(e)
        case Ok(me) => if ChangesNothing(settings.value) then Err(Internal) else Ok(me)
  }

  const SettingsUpdated := "Conversation settings updated successfully"

  /** `updateConversationSettings`: only the caller's own entry changes. */
  method UpdateConversationSettings(t: Tenant, auth: Option<Token>, conversationId: Option<string>,
                                    settings: Option<SettingsChange>)
    returns (r: Result<string>)
    modifies t
    ensures var c := CheckSettings(auth, old(t.state.users), old(t.state.conversations), conversationId, settings);
      (r.Err? <==> c.Err?) && (r.Err? ==> r.error == c.error && t.state == old(t.state))
    ensures r.Ok? ==>
      var me := CheckSettings(auth, old(t.state.users), old(t.state.conversations), conversationId, settings).value;
      var s := me.conversation.userSettings;
      r.value == SettingsUpdated &&
      t.state == old(t.state).(conversations := old(t.state.conversations)[conversationId.value :=
        me.conversation.(userSettings := s[me.id := Applied(SettingsOf(s, me.id), settings.value)])])
  {
    var check := CheckSettings(auth, t.state.users, t.state.conversations, conversationId, settings);
    if check.Err? {
      return Err(check.error);
    }
    var me := check.value;
    var s := me.conversation.userSettings;
    t.state := t.state.(conversations := t.state.conversations[conversationId.value :=
      me.conversation.(userSettings := s[me.id := Applied(SettingsOf(s, me.id), settings.value)])]);
    return Ok(SettingsUpdated);
  }

  // ---------------------------------------------------------------- getUserConversations

  const DefaultLimit := 20

  /** A listed conversation with the caller's settings lifted beside it. */
  datatype ConversationView = ConversationView(
    id: string,
    conversation: Conversation,
    unreadCount: int,
    lastRead: Option<int>,
    archived: bool,
    pinned: bool,
    notificationsEnabled: bool,
    customNickname: Option<string>)

  datatype ConversationPage = ConversationPage(conversations: seq<ConversationView>, hasMore: bool)

  /** Missing flags read as off, except notifications, which are on unless turned off. */
  function ViewFor(id: string, c: Conversation, me: string): (v: ConversationView)
    ensures v.unreadCount == UnreadOf(c.userSettings, me)
    ensures v.archived <==> SettingsOf(c.userSettings, me).archived == Some(true)
    ensures v.pinned <==> SettingsOf(c.userSettings, me).pinned == Some(true)
    ensures v.notificationsEnabled <==> SettingsOf(c.userSettings, me).notificationsEnabled != Some(false)
    ensures v.id == id && v.conversation == c
  {
    var s := SettingsOf(c.userSettings, me);
    ConversationView(id, c, UnreadOf(c.userSettings, me), s.lastRead, s.archived == Some(true), s.pinned == Some(true),
                     s.notificationsEnabled != Some(false), s.customNickname)
  }

  /** A new conversation shows nothing unread, not archived or pinned, with notifications on, to both users. */
  lemma NewConversationView(user1Id: string, user2Id: string, u1: User, u2: User, mentorshipId: Option<string>,
                            year: string, now: int, me: string)
    requires me == user1Id || me == user2Id
    ensures var v := ViewFor(ConversationId(user1Id, user2Id), NewConversation(user1Id, user2Id, u1, u2, mentorshipId, year, now), me);
      v.unreadCount == 0 && !v.archived && !v.pinned && v.notificationsEnabled && v.customNickname.None?
  {
  }

  /** A conversation's place in the listing: its `updated_at`, then its id. */
  function Position(conversations: map<string, Conversation>, id: string): (int, string)
  {
    (if id in conversations then conversations[id].updatedAt else 0, id)
  }

  /** A conversation the query returns: the caller takes part, and it lies past the cursor when there is one. */
  predicate Listable(conversations: map<string, Conversation>, me: string, cursor: Option<(int, string)>, id: string)
  {
    id in conversations && me in conversations[id].participants &&
    (cursor.None? || NewerFirst(cursor.value, Position(conversations, id)))
  }

  function Candidates(conversations: map<string, Conversation>, me: string, cursor: Option<(int, string)>)
    : (r: set<(int, string)>)
    ensures forall p :: p in r ==> Listable(conversations, me, cursor, p.1) && p == Position(conversations, p.1)
    ensures forall id :: Listable(conversations, me, cursor, id) ==> Position(conversations, id) in r
  {
    set id | id in conversations && Listable(conversations, me, cursor, id) :: Position(conversations, id)
  }

  function Ids(pairs: seq<(int, string)>): (r: seq<string>)
    ensures |r| == |pairs| && forall k :: 0 <= k < |pairs| ==> r[k] == pairs[k].1
  {
    seq(|pairs|, k requires 0 <= k < |pairs| => pairs[k].1)
  }

  lemma IdsMember(pairs: seq<(int, string)>, k: int)
    requires 0 <= k
    ensures k < |pairs| ==> pairs[k].1 in Ids(pairs)
  {
    if k < |pairs| {
      assert Ids(pairs)[k] == pairs[k].1;
    }
  }

  /**
   * The query `where participants array-contains me orderBy updated_at desc
   * [startAfter cursor] limit n`: at most `limit` conversations of the
   * caller, newest first, and every one left out is older than every one
   * listed.
   */
  function ListConversations(conversations: map<string, Conversation>, me: string, limit: nat,
                             cursor: Option<(int, string)>): (r: seq<string>)
    ensures forall i :: 0 <= i < |r| ==> r[i] in conversations
  {
    var sorted := NewestFirst(Candidates(conversations, me, cursor));
    var n := if limit < |sorted| then limit else |sorted|;
    ListedInOrder(conversations, me, cursor, sorted, n);
    Ids(sorted[..n])
  }

  lemma ListConversationsSpec(conversations: map<string, Conversation>, me: string, limit: nat,
                              cursor: Option<(int, string)>)
    ensures var r := ListConversations(conversations, me, limit, cursor);
      |r| <= limit &&
      (forall i :: 0 <= i < |r| ==> Listable(conversations, me, cursor, r[i])) &&
      (forall i, j :: 0 <= i < j < |r| ==> NewerFirst(Position(conversations, r[i]), Position(conversations, r[j]))) &&
      (forall id :: Listable(conversations, me, cursor, id) && id !in r ==>
        |r| == limit && forall i :: 0 <= i < |r| ==> NewerFirst(Position(conversations, r[i]), Position(conversations, id)))
  {
    ConversationsMatch(conversations, me, limit, cursor);
    ConversationsOrdered(conversations, me, limit, cursor);
    ConversationsComplete(conversations, me, limit, cursor);
  }

  lemma ConversationsMatch(conversations: map<string, Conversation>, me: string, limit: nat,
                           cursor: Option<(int, string)>)
    ensures var r := ListConversations(conversations, me, limit, cursor);
      |r| <= limit && forall i :: 0 <= i < |r| ==> Listable(conversations, me, cursor, r[i])
  {
    var sorted := NewestFirst(Candidates(conversations, me, cursor));
    var n := if limit < |sorted| then limit else |sorted|;
    ListedInOrder(conversations, me, cursor, sorted, n);
    var r := ListConversations(conversations, me, limit, cursor);
    assert r == Ids(sorted[..n]);
    forall i | 0 <= i < |r| ensures Listable(conversations, me, cursor, r[i]) {
      assert r[i] == sorted[i].1;
    }
  }

  lemma ConversationsOrdered(conversations: map<string, Conversation>, me: string, limit: nat,
                             cursor: Option<(int, string)>)
    ensures var r := ListConversations(conversations, me, limit, cursor);
      forall i, j :: 0 <= i < j < |r| ==> NewerFirst(Position(conversations, r[i]), Position(conversations, r[j]))
  {
    var sorted := NewestFirst(Candidates(conversations, me, cursor));
    var n := if limit < |sorted| then limit else |sorted|;
    ListedInOrder(conversations, me, cursor, sorted, n);
    var r := ListConversations(conversations, me, limit, cursor);
    assert r == Ids(sorted[..n]);
    forall i, j | 0 <= i < j < |r|
      ensures NewerFirst(Position(conversations, r[i]), Position(conversations, r[j]))
    {
      assert r[i] == sorted[i].1 && r[j] == sorted[j].1;
    }
  }

  lemma ConversationsComplete(conversations: map<string, Conversation>, me: string, limit: nat,
                              cursor: Option<(int, string)>)
    ensures var r := ListConversations(conversations, me, limit, cursor);
      forall id :: Listable(conversations, me, cursor, id) && id !in r ==>
        |r| == limit && forall i :: 0 <= i < |r| ==> NewerFirst(Position(conversations, r[i]), Position(conversations, id))
  {
    var sorted := NewestFirst(Candidates(conversations, me, cursor));
    var n := if limit < |sorted| then limit else |sorted|;
    ListedInOrder(conversations, me, cursor, sorted, n);
    ListedOmitsOnlyOlder(conversations, me, cursor, sorted, n);
    var r := ListConversations(conversations, me, limit, cursor);
    assert r == Ids(sorted[..n]);
    forall id | Listable(conversations, me, cursor, id) && id !in r
      ensures |r| == limit && forall i :: 0 <= i < |r| ==> NewerFirst(Position(conversations, r[i]), Position(conversations, id))
    {
      forall i | 0 <= i < |r| ensures NewerFirst(Position(conversations, r[i]), Position(conversations, id)) {
        assert r[i] == sorted[i].1;
      }
    }
  }

  lemma ListedInOrder(conversations: map<string, Conversation>, me: string, cursor: Option<(int, string)>,
                      sorted: seq<(int, string)>, n: nat)
    requires sorted == NewestFirst(Candidates(conversations, me, cursor)) && n <= |sorted|
    ensures forall i :: 0 <= i < n ==> Listable(conversations, me, cursor, sorted[i].1)
    ensures forall i :: 0 <= i < n ==> sorted[i] == Position(conversations, sorted[i].1)
  {
    forall i | 0 <= i < n
      ensures Listable(conversations, me, cursor, sorted[i].1) && sorted[i] == Position(conversations, sorted[i].1)
    {
      assert sorted[i] in Candidates(conversations, me, cursor);
    }
  }

  lemma ListedOmitsOnlyOlder(conversations: map<string, Conversation>, me: string, cursor: Option<(int, string)>,
                             sorted: seq<(int, string)>, n: nat)
    requires sorted == NewestFirst(Candidates(conversations, me, cursor))
    requires n == if 0 <= n < |sorted| then n else |sorted|
    requires n <= |sorted|
    ensures forall id :: Listable(conversations, me, cursor, id) && id !in Ids(sorted[..n]) ==>
      n < |sorted| && forall i :: 0 <= i < n ==> NewerFirst(sorted[i], Position(conversations, id))
  {
    var r := Ids(sorted[..n]);
    forall id | Listable(conversations, me, cursor, id) && id !in r
      ensures n < |sorted| && forall i :: 0 <= i < n ==> NewerFirst(sorted[i], Position(conversations, id))
    {
      var p := Position(conversations, id);
      assert p in Candidates(conversations, me, cursor);
      var k :| 0 <= k < |sorted| && sorted[k] == p;
      IdsMember(sorted[..n], k);
      assert n <= k;
    }
  }

  /** Where the listing continues: after the named conversation, when it exists. */
  function Cursor(conversations: map<string, Conversation>, lastConversationId: Option<string>): Option<(int, string)>
  {
    if Truthy(lastConversationId) && lastConversationId.value in conversations
    then Some(Position(conversations, lastConversationId.value))
    else None
  }

  /**
   * `getUserConversations`: the caller's page of conversations, each with
   * the caller's settings. There may be more exactly when the page is full.
   */
  function GetUserConversations(auth: Option<Token>, users: map<string, User>, conversations: map<string, Conversation>,
                                limit: Option<nat>, lastConversationId: Option<string>): (r: Result<ConversationPage>)
    ensures CallerWithPath(auth).Err? ==> r == Err(CallerWithPath(auth).error)
    ensures r.Ok? <==> CallerWithPath(auth).Ok? && UserByUid(users, auth.value.uid).Ok?
    ensures r.Err? ==> r.error in {Unauthenticated, FailedPrecondition, NotFound}
    ensures r.Ok? ==>
      var me := UserByUid(users, auth.value.uid).value;
      var n := if limit.Some? then limit.value else DefaultLimit;
      var ids := ListConversations(conversations, me, n, Cursor(conversations, lastConversationId));
      |r.value.conversations| == |ids| &&
      (forall i :: 0 <= i < |ids| ==> r.value.conversations[i] == ViewFor(ids[i], conversations[ids[i]], me)) &&
      (r.value.hasMore <==> |ids| == n)
  {
    match CallerWithPath(auth)
    case Err(e) => Err(e)
    case Ok(ctx) =>
      match UserByUid(users, ctx.uid)
      case Err(e) => Err(e)
      case Ok(me) =>
        var n := if limit.Some? then limit.value else DefaultLimit;
        var ids := ListConversations(conversations, me, n, Cursor(conversations, lastConversationId));
        var views := seq(|ids|, i requires 0 <= i < |ids| => ViewFor(ids[i], conversations[ids[i]], me));
        Ok(ConversationPage(views, |views| == n))
  }

  /** A page that is not full holds every conversation of the caller past the cursor. */
  lemma ShortPageIsComplete(conversations: map<string, Conversation>, me: string, limit: nat,
                            cursor: Option<(int, string)>, id: string)
    requires |ListConversations(conversations, me, limit, cursor)| < limit
    requires id in conversations && me in conversations[id].participants
    requires cursor.None? || NewerFirst(cursor.value, Position(conversations, id))
    ensures id in ListConversations(conversations, me, limit, cursor)
  {
    ListConversationsSpec(conversations, me, limit, cursor);
    assert Listable(conversations, me, cursor, id);
  }

  /**
   * A message sent later than every conversation was last updated brings its
   * conversation to the top of every participant's first page.
   */
  lemma SentConversationComesFirst(conversations: map<string, Conversation>, cid: string, sender: string, text: string,
                                   now: int, me: string, limit: nat)
    requires cid in conversations && limit > 0
    requires forall id :: id in conversations ==> conversations[id].updatedAt < now
    requires me in conversations[cid].participants
    ensures var after := conversations[cid := AfterSend(conversations[cid], sender, text, now)];
      var r := ListConversations(after, me, limit, None);
      |r| > 0 && r[0] == cid
  {
    var after := conversations[cid := AfterSend(conversations[cid], sender, text, now)];
    var r := ListConversations(after, me, limit, None);
    ListConversationsSpec(after, me, limit, None);
    assert Listable(after, me, None, cid);
    assert |r| > 0;
    assert r[0] == cid;
  }
}
