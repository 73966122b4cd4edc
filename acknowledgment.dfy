// The mentee acknowledgment (users/acknowledgment.ts). A mentee must sign
// the program's acknowledgment before using it; signing records the full
// name and grants the mentee role claims. Both handlers work on one fixed
// university, `california_merced_uc_merced`, whose users the tenant given
// to them stands for.
module Acknowledgment {
  import opened Wrappers
  import opened Types
  import opened Text
  import opened Order
  import opened Store
  import opened Auth
  import MeetingHelpers
  import Conversations

  const FixedUniversityPath := "california_merced_uc_merced"

  /** The role in the caller's claims: `role`, else `userType`. */
  function ClaimedRole(tok: Token): (r: Option<string>)
    ensures Truthy(tok.role) ==> r == tok.role
    ensures !Truthy(tok.role) ==> r == tok.userType
  {
    if Truthy(tok.role) then tok.role else tok.userType
  }

  /**
   * A user's document: the first, by id, whose `firebase_uid` is the uid;
   * when there is none and the email is not empty, the first whose `email`
   * is that email.
   */
  function FindUser(users: map<string, User>, uid: string, email: Option<string>): (r: Option<string>)
    ensures r.Some? ==> r.value in users
    ensures MeetingHelpers.UidMatches(users, uid) != {} ==>
      r.Some? && users[r.value].firebaseUid == Some(uid) &&
      forall k :: k in MeetingHelpers.UidMatches(users, uid) && k != r.value ==> Lt(r.value, k)
    ensures MeetingHelpers.UidMatches(users, uid) == {} && r.Some? ==>
      Truthy(email) && users[r.value].email == email &&
      forall k :: k in Conversations.EmailMatches(users, email.value) && k != r.value ==> Lt(r.value, k)
    ensures r.None? <==>
      MeetingHelpers.UidMatches(users, uid) == {} && (!Truthy(email) || Conversations.EmailMatches(users, email.value) == {})
  {
    var byUid := MeetingHelpers.UidMatches(users, uid);
    if byUid != {} then Some(FirstKey(byUid))
    else if !Truthy(email) then None
    else
      var byEmail := Conversations.EmailMatches(users, email.value);
      if byEmail == {} then None else Some(FirstKey(byEmail))
  }

  /** The stored acknowledgment, `no` when the field is missing. */
  function SignedStatus(u: User): (s: AcknowledgmentSigned)
    ensures u.acknowledgmentSigned.Some? ==> s == u.acknowledgmentSigned.value
    ensures u.acknowledgmentSigned.None? ==> s == No
  {
    if u.acknowledgmentSigned.Some? then u.acknowledgmentSigned.value else No
  }

  /** The answer of checkMenteeAcknowledgment; `signed` is reported only when a user document was read. */
  datatype AckStatus = AckStatus(needsAcknowledgment: bool, signed: Option<AcknowledgmentSigned>)

  function CheckMenteeAcknowledgment(auth: Option<Token>, users: map<string, User>): (r: Result<AckStatus>)
    ensures r.Err? <==> auth.None?
    ensures r.Err? ==> r.error == Unauthenticated
    ensures r.Ok? && ClaimedRole(auth.value) != Some("mentee") ==> r.value == AckStatus(false, None)
    ensures r.Ok? && ClaimedRole(auth.value) == Some("mentee") ==>
      match FindUser(users, auth.value.uid, auth.value.email)
      case None => r.value == AckStatus(true, None)
      case Some(id) => r.value.signed == Some(SignedStatus(users[id])) &&
                       (r.value.needsAcknowledgment <==> SignedStatus(users[id]) != Yes)
  {
    match auth
    case None => Err(Unauthenticated)
    case Some(tok) =>
      if ClaimedRole(tok) != Some("mentee") then Ok(AckStatus(false, None))
      else
        match FindUser(users, tok.uid, tok.email)
        case None => Ok(AckStatus(true, None))
        case Some(id) =>
          var s := SignedStatus(users[id]);
          Ok(AckStatus(s != Yes, Some(s)))
  }

  /** A full name is valid when, trimmed, it has at least three UTF-16 code units. */
  predicate ValidFullName(fullName: Option<string>)
  {
    fullName.Some? && Utf16Length(Trim(fullName.value)) >= 3
  }

  /** The signature: `yes`, the time and the trimmed name; nothing else of the user changes. */
  function SignPatch(u: User, fullName: string, now: int): (r: User)
    ensures SignedStatus(r) == Yes && r.acknowledgmentFullName == Some(Trim(fullName)) && r.acknowledgmentDate == Some(now)
    ensures r.(acknowledgmentSigned := u.acknowledgmentSigned, acknowledgmentFullName := u.acknowledgmentFullName,
               acknowledgmentDate := u.acknowledgmentDate) == u
  {
    u.(acknowledgmentSigned := Some(Yes), acknowledgmentDate := Some(now), acknowledgmentFullName := Some(Trim(fullName)))
  }

  /** The claims a signed mentee receives. */
  const MenteeClaims := Claims(Some("mentee"), Some(FixedUniversityPath))

  /** What submitMenteeAcknowledgment reports: whether the role claims could be set as well. */
  datatype SubmitOutcome = SubmitOutcome(claimsSet: bool)

  /**
   * submitMenteeAcknowledgment. The caller's claims are not checked, since
   * a mentee receives them only by signing. Once the signature is stored,
   * a failure to set the claims is reported and is not an error.
   */
  method SubmitMenteeAcknowledgment(t: Tenant, p: Platform, auth: Option<Token>, fullName: Option<string>, now: int,
                                    providerFails: bool)
    returns (r: Result<SubmitOutcome>)
    modifies t, p
    ensures auth.None? ==> r == Err(Unauthenticated)
    ensures auth.Some? && !ValidFullName(fullName) ==> r == Err(InvalidArgument)
    ensures auth.Some? && ValidFullName(fullName) && FindUser(old(t.state.users), auth.value.uid, auth.value.email).None? ==>
      r == Err(NotFound)
    ensures r.Err? ==> t.state == old(t.state) && p.state == old(p.state)
    ensures r.Ok? <==>
      auth.Some? && ValidFullName(fullName) && FindUser(old(t.state.users), auth.value.uid, auth.value.email).Some?
    ensures r.Ok? ==>
      var id := FindUser(old(t.state.users), auth.value.uid, auth.value.email).value;
      t.state == old(t.state).(users := old(t.state.users)[id := SignPatch(old(t.state.users)[id], fullName.value, now)]) &&
      (r.value.claimsSet <==> !providerFails && auth.value.uid in old(p.state.accounts)) &&
      (r.value.claimsSet ==> p.state == old(p.state).(accounts := old(p.state.accounts)[auth.value.uid :=
         old(p.state.accounts)[auth.value.uid].(customClaims := Some(MenteeClaims))])) &&
      (!r.value.claimsSet ==> p.state == old(p.state))
  {
    if auth.None? {
      return Err(Unauthenticated);
    }
    var tok := auth.value;
    if !ValidFullName(fullName) {
      return Err(InvalidArgument);
    }
    var found := FindUser(t.state.users, tok.uid, tok.email);
    if found.None? {
      return Err(NotFound);
    }
    var id := found.value;
    t.state := t.state.(users := t.state.users[id := SignPatch(t.state.users[id], fullName.value, now)]);
    var claims := SetUserClaims(p, tok.uid, MenteeClaims, providerFails);
    return Ok(SubmitOutcome(claims.Ok?));
  }

  // ---------------------------------------------------------------- properties

  /** A user is found again after any change that keeps every document's login id and email. */
  lemma FindUserStable(users: map<string, User>, users': map<string, User>, uid: string, email: Option<string>)
    requires users'.Keys == users.Keys
    requires forall k :: k in users ==> users'[k].firebaseUid == users[k].firebaseUid && users'[k].email == users[k].email
    ensures FindUser(users', uid, email) == FindUser(users, uid, email)
  {
    assert MeetingHelpers.UidMatches(users', uid) == MeetingHelpers.UidMatches(users, uid);
    if Truthy(email) {
      assert Conversations.EmailMatches(users', email.value) == Conversations.EmailMatches(users, email.value);
    }
  }

  /**
   * After a successful submission the same caller no longer needs to
   * acknowledge: signing marks the very document the check reads.
   */
  lemma SubmitSettlesCheck(users: map<string, User>, tok: Token, fullName: string, now: int)
    requires FindUser(users, tok.uid, tok.email).Some?
    ensures var id := FindUser(users, tok.uid, tok.email).value;
      var users' := users[id := SignPatch(users[id], fullName, now)];
      CheckMenteeAcknowledgment(Some(tok), users') == Ok(if ClaimedRole(tok) == Some("mentee") then AckStatus(false, Some(Yes)) else AckStatus(false, None))
  {
    var id := FindUser(users, tok.uid, tok.email).value;
    var users' := users[id := SignPatch(users[id], fullName, now)];
    FindUserStable(users, users', tok.uid, tok.email);
  }

  /** Only a mentee is ever asked to acknowledge, and a signed one never is. */
  lemma OnlyUnsignedMenteesNeedAcknowledgment(tok: Token, users: map<string, User>)
    ensures CheckMenteeAcknowledgment(Some(tok), users).value.needsAcknowledgment ==>
      ClaimedRole(tok) == Some("mentee") &&
      (FindUser(users, tok.uid, tok.email).None? || SignedStatus(users[FindUser(users, tok.uid, tok.email).value]) != Yes)
  {
  }

  /** The stored name is the trimmed one: at least three code units, no surrounding blanks. */
  lemma StoredNameTrimmed(u: User, fullName: string, now: int)
    requires ValidFullName(Some(fullName))
    ensures SignPatch(u, fullName, now).acknowledgmentFullName == Some(Trim(fullName))
    ensures Utf16Length(Trim(fullName)) >= 3 && Trim(Trim(fullName)) == Trim(fullName)
    ensures |Trim(fullName)| >= 2
  {
    TrimIdempotent(fullName);
  }

  /**
   * Lengths are counted in UTF-16 code units: two emoji (four units) make
   * a valid name, and a single one (two units) does not.
   */
  lemma TwoEmojiNameValid()
    ensures ValidFullName(Some("\U{1F600}\U{1F600}"))
    ensures !ValidFullName(Some("\U{1F600}"))
  {
    var one := "\U{1F600}";
    var two := "\U{1F600}\U{1F600}";
    TrimmedAlready(one);
    TrimmedAlready(two);
    Utf16LengthAstral(one);
    Utf16LengthAstral(two);
  }
}
