// User records of a university (users/management.ts). These handlers run
// without any caller check: creating, updating, deleting and listing users
// and assigning a mentor are open to every caller.
module UserManagement {
  import opened Wrappers
  import opened Types
  import opened Order
  import opened Store
  import opened Database

  /** The fields a caller sends to create a user; `None` is a field left out. */
  datatype NewUserInput = NewUserInput(
    name: Option<string>,
    email: Option<string>,
    userType: Option<string>,
    studentId: Option<string>,
    department: Option<string>,
    yearMajor: Option<string>,
    acknowledgmentSigned: Option<AcknowledgmentSigned>)

  /** A new user: required fields as given, no mentor, no mentees, acknowledgment `not_applicable` unless given. */
  function NewUser(input: NewUserInput, now: int): (u: User)
    ensures u.name == input.name && u.email == input.email && u.userType == input.userType
    ensures u.mentor.None? && u.mentee == [] && u.firebaseUid.None?
    ensures u.acknowledgmentSigned == Some(if input.acknowledgmentSigned.Some? then input.acknowledgmentSigned.value else NotApplicable)
    ensures u.studentId == OrNull(input.studentId) && u.department == OrNull(input.department)
    ensures u.yearMajor == OrNull(input.yearMajor)
    ensures u.createdAt == Some(now) && u.updatedAt.None?
  {
    User(input.name, input.email, input.userType, None,
         OrNull(input.studentId), OrNull(input.department), OrNull(input.yearMajor),
         None, [],
         Some(if input.acknowledgmentSigned.Some? then input.acknowledgmentSigned.value else NotApplicable),
         None, None, Some(now), None, None, None)
  }

  /** A user as createUser stores it: name, email and user type are non-empty. */
  predicate HasRequiredFields(u: User)
  {
    Truthy(u.name) && Truthy(u.email) && Truthy(u.userType)
  }

  method CreateUser(t: Tenant, input: NewUserInput, now: int) returns (r: Result<DatabaseResult<string>>)
    modifies t
    ensures r.Err? <==> !(Truthy(input.name) && Truthy(input.email) && Truthy(input.userType))
    ensures r.Err? ==> r.error == InvalidArgument && t.state == old(t.state)
    ensures r.Ok? ==> (r.value.success && r.value.data.Some? && r.value.data.value !in old(t.state.users) &&
      t.state == old(t.state).(users := old(t.state.users)[r.value.data.value := NewUser(input, now)]))
    ensures r.Ok? ==> HasRequiredFields(t.state.users[r.value.data.value])
  {
    if !Truthy(input.name) || !Truthy(input.email) || !Truthy(input.userType) {
      return Err(InvalidArgument);
    }
    var w := CreateDocument(t.state.users, NewUser(input, now));
    t.state := t.state.(users := w.docs);
    return Ok(w.result);
  }

  /** The fields updateUser accepts; `None` is a field left out. */
  datatype UserChanges = UserChanges(
    name: Option<string>,
    email: Option<string>,
    department: Option<string>,
    yearMajor: Option<string>,
    acknowledgmentSigned: Option<AcknowledgmentSigned>)

  function Merge<T>(given: Option<T>, current: Option<T>): (r: Option<T>)
    ensures given.Some? ==> r == given
    ensures given.None? ==> r == current
  {
    if given.Some? then given else current
  }

  /** The merge of an update: every given field replaces the stored one, and `updated_at` is set. */
  function UserPatch(u: User, c: UserChanges, now: int): (r: User)
    ensures r.name == Merge(c.name, u.name) && r.email == Merge(c.email, u.email)
    ensures r.department == Merge(c.department, u.department) && r.yearMajor == Merge(c.yearMajor, u.yearMajor)
    ensures r.acknowledgmentSigned == Merge(c.acknowledgmentSigned, u.acknowledgmentSigned)
    ensures r.updatedAt == Some(now)
    ensures r.(name := u.name, email := u.email, department := u.department, yearMajor := u.yearMajor,
               acknowledgmentSigned := u.acknowledgmentSigned, updatedAt := u.updatedAt) == u
  {
    u.(name := Merge(c.name, u.name), email := Merge(c.email, u.email),
       department := Merge(c.department, u.department), yearMajor := Merge(c.yearMajor, u.yearMajor),
       acknowledgmentSigned := Merge(c.acknowledgmentSigned, u.acknowledgmentSigned),
       updatedAt := Some(now))
  }

  /** updateUser: the store's update, whose failure comes back as a result and not as an error. */
  method UpdateUser(t: Tenant, userId: string, c: UserChanges, now: int) returns (r: DatabaseResult<()>)
    modifies t
    ensures r.success <==> userId != "" && userId in old(t.state.users)
    ensures !r.success ==> t.state == old(t.state)
    ensures r.success ==>
      t.state == old(t.state).(users := old(t.state.users)[userId := UserPatch(old(t.state.users)[userId], c, now)])
  {
    var w := UpdateDocument(t.state.users, userId, (u: User) => UserPatch(u, c, now));
    t.state := t.state.(users := w.docs);
    return w.result;
  }

  method DeleteUser(t: Tenant, userId: Option<string>) returns (r: Result<DatabaseResult<()>>)
    modifies t
    ensures r.Err? <==> !Truthy(userId)
    ensures r.Err? ==> r.error == InvalidArgument && t.state == old(t.state)
    ensures r.Ok? ==> r.value.success && t.state == old(t.state).(users := old(t.state.users) - {userId.value})
  {
    if !Truthy(userId) {
      return Err(InvalidArgument);
    }
    var w := DeleteDocument(t.state.users, userId.value);
    t.state := t.state.(users := w.docs);
    return Ok(w.result);
  }

  /** A listed user with its id. */
  datatype Listed = Listed(id: string, user: User)

  /** The users with their ids, in the store's id order. */
  function ById(users: map<string, User>): (r: seq<Listed>)
    ensures |r| == |users.Keys|
    ensures forall i :: 0 <= i < |r| ==> r[i].id in users && r[i].user == users[r[i].id]
    ensures forall i, j :: 0 <= i < j < |r| ==> Lt(r[i].id, r[j].id)
  {
    var ids := SortedKeys(users.Keys);
    seq(|ids|, i requires 0 <= i < |ids| => Listed(ids[i], users[ids[i]]))
  }

  /** Every user is listed. */
  lemma ByIdComplete(users: map<string, User>, id: string)
    requires id in users
    ensures exists i :: 0 <= i < |ById(users)| && ById(users)[i] == Listed(id, users[id])
  {
    var ids := SortedKeys(users.Keys);
    var i :| 0 <= i < |ids| && ids[i] == id;
    assert ById(users)[i] == Listed(id, users[id]);
  }

  /** getAllUsers: every user of the university, in the store's id order. */
  function GetAllUsers(users: map<string, User>, universityPath: Option<string>): (r: Result<seq<Listed>>)
    ensures r.Err? <==> !Truthy(universityPath)
    ensures r.Err? ==> r.error == InvalidArgument
    ensures r.Ok? ==> r.value == ById(users)
  {
    if !Truthy(universityPath) then Err(InvalidArgument) else Ok(ById(users))
  }

  const AssignedBy := "test-admin"

  /**
   * assignMentor: the mentee's `mentor` becomes the mentor's id, and a
   * mentorship record with progress 0 is added. The mentee update's own
   * failure (an unknown mentee) is ignored: the mentorship is added anyway.
   */
  method AssignMentor(t: Tenant, mentorId: Option<string>, menteeId: Option<string>, now: int) returns (r: Result<string>)
    modifies t
    ensures r.Err? <==> !(Truthy(mentorId) && Truthy(menteeId))
    ensures r.Err? ==> r.error == InvalidArgument && t.state == old(t.state)
    ensures r.Ok? ==> r.value == "Mentor assigned successfully"
    ensures r.Ok? ==> exists id :: (id !in old(t.state.mentorships) &&
      t.state == old(t.state).(
        users := if menteeId.value in old(t.state.users)
                 then old(t.state.users)[menteeId.value := old(t.state.users)[menteeId.value].(mentor := mentorId, updatedAt := Some(now))]
                 else old(t.state.users),
        mentorships := old(t.state.mentorships)[id := Mentorship(mentorId.value, menteeId.value, AssignedBy, 0, now)]))
  {
    if !Truthy(mentorId) || !Truthy(menteeId) {
      return Err(InvalidArgument);
    }
    var mentor := mentorId.value;
    var w := UpdateDocument(t.state.users, menteeId.value, (u: User) => u.(mentor := Some(mentor), updatedAt := Some(now)));
    var m := CreateDocument(t.state.mentorships, Mentorship(mentor, menteeId.value, AssignedBy, 0, now));
    t.state := t.state.(users := w.docs, mentorships := m.docs);
    return Ok("Mentor assigned successfully");
  }

  // ---------------------------------------------------------------- properties

  /** A user the store lists right after createUser is the new record under its new id. */
  lemma CreatedUserListed(users: map<string, User>, input: NewUserInput, now: int, path: string)
    requires Truthy(input.name) && Truthy(input.email) && Truthy(input.userType) && path != ""
    ensures var w := CreateDocument(users, NewUser(input, now));
      var r := GetAllUsers(w.docs, Some(path));
      r.Ok? && |r.value| == |users| + 1 &&
      exists i :: 0 <= i < |r.value| && r.value[i] == Listed(w.result.data.value, NewUser(input, now))
  {
    var w := CreateDocument(users, NewUser(input, now));
    var r := GetAllUsers(w.docs, Some(path));
    CreateDocumentGrowsByOne(users, NewUser(input, now));
    ByIdComplete(w.docs, w.result.data.value);
  }

  /**
   * updateUser applies the given fields as they are, so an update can blank
   * a name that createUser insisted on.
   */
  lemma UpdateCanBlankRequiredField(u: User, now: int)
    requires HasRequiredFields(u)
    ensures !HasRequiredFields(UserPatch(u, UserChanges(Some(""), None, None, None, None), now))
  {
  }

  /** Repeating an update stores what one update does, apart from `updated_at`. */
  lemma UpdateIdempotent(u: User, c: UserChanges, now: int, later: int)
    ensures UserPatch(UserPatch(u, c, now), c, later) == UserPatch(u, c, later)
  {
  }

  /**
   * An update made of the declared `UpdateUserData` fields never touches
   * the mentor relation, the login id, the creation time or the user type.
   */
  lemma UpdateKeepsIdentity(u: User, c: UserChanges, now: int)
    ensures var v := UserPatch(u, c, now);
      v.mentor == u.mentor && v.mentee == u.mentee && v.firebaseUid == u.firebaseUid && v.createdAt == u.createdAt &&
      v.userType == u.userType
  {
  }

  /** After a delete the user is no longer listed, and deleting again changes nothing. */
  lemma DeletedUserNotListed(users: map<string, User>, userId: string, path: string)
    requires userId != "" && path != ""
    ensures var after := DeleteDocument(users, userId).docs;
      var r := GetAllUsers(after, Some(path));
      r.Ok? && (forall i :: 0 <= i < |r.value| ==> r.value[i].id != userId) &&
      DeleteDocument(after, userId).docs == after
  {
    DeleteIdempotent(users, userId);
  }
}
