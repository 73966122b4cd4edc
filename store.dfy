// The document store. A university (a tenant) owns one map per
// collection, from document id to record; collections nested under a
// user or a conversation are maps from the parent id to such a map.
// Record fields that a writer may leave out, or set to null, are
// `Option`s; `None` stands for both.
module Store {
  import opened Wrappers
  import opened Types

  datatype User = User(
    name: Option<string>,
    email: Option<string>,
    userType: Option<string>,
    firebaseUid: Option<string>,
    studentId: Option<string>,
    department: Option<string>,
    yearMajor: Option<string>,
    mentor: Option<string>,
    mentee: seq<string>,
    acknowledgmentSigned: Option<AcknowledgmentSigned>,
    acknowledgmentFullName: Option<string>,
    acknowledgmentDate: Option<int>,
    createdAt: Option<int>,
    updatedAt: Option<int>,
    lastLogin: Option<int>,
    accountCreatedAt: Option<int>)

  /** A user record with nothing but a name and a login id. */
  function PlainUser(name: Option<string>, firebaseUid: Option<string>): User
  {
    User(name, None, None, firebaseUid, None, None, None, None, [], None, None, None, None, None, None, None)
  }

  datatype Meeting = Meeting(
    id: Option<string>,
    mentorId: Option<string>,
    menteeId: Option<string>,
    mentorUid: Option<string>,
    menteeUid: Option<string>,
    mentorDocId: Option<string>,
    menteeDocId: Option<string>,
    mentorName: Option<string>,
    menteeName: Option<string>,
    startTime: Option<TimeValue>,
    endTime: Option<TimeValue>,
    topic: Option<string>,
    location: Option<string>,
    status: MeetingStatus,
    availabilityId: Option<string>,
    createdAt: Option<int>,
    createdBy: Option<string>,
    updatedAt: Option<int>,
    updatedBy: Option<string>,
    requestedBy: Option<string>,
    requestedAt: Option<int>,
    acceptedBy: Option<string>,
    acceptedAt: Option<int>,
    rejectedBy: Option<string>,
    rejectedAt: Option<int>,
    rejectionReason: Option<string>,
    cancelledBy: Option<string>,
    cancelledAt: Option<int>,
    cancellationReason: Option<string>,
    hiddenBy: set<string>,
    migratedFrom: Option<string>,
    migratedAt: Option<int>,
    migratedFromRequested: bool)

  /** A meeting with the given status and no other field set. */
  function BlankMeeting(status: MeetingStatus): (m: Meeting)
    ensures m.status == status && m.hiddenBy == {} && m.availabilityId.None?
  {
    Meeting(None, None, None, None, None, None, None, None, None, None, None, None, None,
            status, None, None, None, None, None, None, None, None, None, None, None, None,
            None, None, None, {}, None, None, false)
  }

  /** One entry of a day document's `slots` array. */
  datatype Slot = Slot(
    slotStart: Option<string>,
    slotEnd: Option<string>,
    isBooked: bool,
    menteeId: Option<string>,
    meetingId: Option<string>)

  /**
   * An availability document. Two shapes share the collection: the
   * day document (`mentor_id`, `day`, `slots`) and the single-slot
   * document (`mentor_uid`, `start_time`, and the booking fields at the
   * top level). An absent `slots` array reads as the empty one.
   */
  datatype Availability = Availability(
    id: Option<string>,
    mentorId: Option<string>,
    day: Option<string>,
    slots: seq<Slot>,
    synced: bool,
    mentorUid: Option<string>,
    mentorDocId: Option<string>,
    mentorName: Option<string>,
    date: Option<TimeValue>,
    startTime: Option<string>,
    endTime: Option<string>,
    isBooked: bool,
    bookedByUid: Option<string>,
    bookedByDocId: Option<string>,
    bookedByName: Option<string>,
    meetingId: Option<string>,
    bookedAt: Option<int>,
    menteeId: Option<string>,
    createdAt: Option<int>,
    updatedAt: Option<int>,
    mentorDate: Option<string>,
    migratedFrom: Option<string>,
    migratedAt: Option<int>)

  /** An availability document with no field set. */
  const BlankAvailability: Availability :=
    Availability(None, None, None, [], false, None, None, None, None, None, None, false,
                 None, None, None, None, None, None, None, None, None, None, None)

  datatype ParticipantDetail = ParticipantDetail(name: string, userType: string, joinedAt: int)

  /** A participant's own view settings inside a conversation. */
  datatype UserSettings = UserSettings(
    lastRead: Option<int>,
    unreadCount: Option<int>,
    notificationsEnabled: Option<bool>,
    archived: Option<bool>,
    pinned: Option<bool>,
    customNickname: Option<string>)

  const NoSettings := UserSettings(None, None, None, None, None, None)

  datatype LastMessage = LastMessage(text: string, senderId: string, timestamp: int)

  datatype Conversation = Conversation(
    participants: seq<string>,
    participantDetails: map<string, ParticipantDetail>,
    lastMessage: Option<LastMessage>,
    createdAt: int,
    updatedAt: int,
    kind: string,
    mentorshipId: Option<string>,
    academicYear: Option<string>,
    userSettings: map<string, UserSettings>)

  /** The attachment description a client sends with a media message. */
  datatype Media = Media(url: string, mimeType: string, size: int)

  datatype Message = Message(
    senderId: string,
    text: string,
    sentAt: int,
    kind: string,
    status: string,
    readBy: map<string, int>,
    media: Option<Media>)

  datatype Announcement = Announcement(
    title: string,
    content: string,
    time: string,
    priority: Priority,
    targetAudience: Audience,
    createdAt: int,
    createdBy: string,
    updatedAt: Option<int>,
    updatedBy: Option<string>)

  datatype Mentorship = Mentorship(
    mentorId: string,
    menteeId: string,
    assignedBy: string,
    overallProgress: int,
    createdAt: int)

  /** The `_metadata` document placed in each subcollection of a user. */
  datatype SubcollectionMarker = SubcollectionMarker(
    initialized: bool,
    userId: string,
    collectionName: string,
    createdAt: int,
    createdBy: string,
    version: int)

  datatype University = University(
    id: string,
    name: string,
    state: string,
    city: string,
    campus: string,
    path: string,
    createdAt: int,
    createdBy: string)

  /** The `_metadata` document placed in each collection of a new university. */
  datatype CollectionMarker = CollectionMarker(
    collection: string,
    createdAt: int,
    createdBy: string,
    version: int)

  datatype UniversitySettings = UniversitySettings(
    universityName: string,
    academicYear: int,
    mentorshipProgramActive: bool,
    registrationOpen: bool,
    createdAt: int,
    updatedAt: int)

  /** Custom claims kept by the identity provider for one account. */
  datatype Claims = Claims(role: Option<string>, universityPath: Option<string>)

  /** An account of the identity provider. */
  datatype Account = Account(email: Option<string>, customClaims: Option<Claims>)

  /** Every collection of one university, as a value. */
  datatype TenantState = TenantState(
    users: map<string, User>,
    meetings: map<string, Meeting>,
    availability: map<string, Availability>,
    conversations: map<string, Conversation>,
    messages: map<string, map<string, Message>>,
    announcements: map<string, Announcement>,
    mentorships: map<string, Mentorship>,
    userMeetings: map<string, map<string, Meeting>>,
    userAvailability: map<string, map<string, Availability>>,
    userRequested: map<string, map<string, Meeting>>,
    userMarkers: map<string, map<string, SubcollectionMarker>>)

  /**
   * The database of one university. Every handler reads the collections
   * it needs and replaces the whole record once, the way the store
   * applies a handler's writes.
   */
  class Tenant {
    var state: TenantState

    constructor (s: TenantState)
      ensures state == s
    {
      state := s;
    }
  }

  /** Everything outside a single university. */
  datatype PlatformState = PlatformState(
    universities: map<string, University>,
    collectionMarkers: map<string, map<string, CollectionMarker>>,
    settings: map<string, UniversitySettings>,
    accounts: map<string, Account>)

  /**
   * The `universities` collection, the per-university `_metadata` and
   * `settings` documents (keyed by university path), and the identity
   * provider's accounts (keyed by uid).
   */
  class Platform {
    var state: PlatformState

    constructor (s: PlatformState)
      ensures state == s
    {
      state := s;
    }
  }
}
