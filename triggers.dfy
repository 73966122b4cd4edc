// Role claims derived from the user records (auth/triggers.ts). At login,
// and right after registration, the caller's user document in the fixed
// university is found by login id or email, its `userType` becomes the
// `role` claim, and the document is stamped with the login id and time.
module ClaimsSync {
  import opened Wrappers
  import opened Types
  import opened Store
  import opened Auth
  import MeetingHelpers
  import Conversations
  import opened Acknowledgment

  /** Claims that a login keeps as they are: a super admin's, or any with a role and a university. */
  predicate Settled(existing: Option<Claims>)
  {
    existing.Some? && (existing.value.role == Some("super_admin") ||
                       (Truthy(existing.value.role) && Truthy(existing.value.universityPath)))
  }

  /** The claims granted to a user of the fixed university whose `userType` is `userType`. */
  function GrantedClaims(userType: string): (c: Claims)
    ensures c.role == Some(userType) && c.universityPath == Some(FixedUniversityPath)
  {
    Claims(Some(userType), Some(FixedUniversityPath))
  }

  /** What a login stamps on the user document: the login id when it has none, and the login time. */
  function LoginPatch(u: User, uid: string, now: int): (r: User)
    ensures r.firebaseUid == (if Truthy(u.firebaseUid) then u.firebaseUid else Some(uid))
    ensures r.lastLogin == Some(now)
    ensures r.(firebaseUid := u.firebaseUid, lastLogin := u.lastLogin) == u
  {
    if !Truthy(u.firebaseUid) then u.(firebaseUid := Some(uid), lastLogin := Some(now))
    else u.(lastLogin := Some(now))
  }

  /** What a registration stamps: as a login, plus the account creation time when the login id was missing. */
  function RegistrationPatch(u: User, uid: string, now: int): (r: User)
    ensures r.firebaseUid == LoginPatch(u, uid, now).firebaseUid && r.lastLogin == Some(now)
    ensures r.accountCreatedAt == (if Truthy(u.firebaseUid) then u.accountCreatedAt else Some(now))
    ensures r.(firebaseUid := u.firebaseUid, lastLogin := u.lastLogin, accountCreatedAt := u.accountCreatedAt) == u
  {
    if !Truthy(u.firebaseUid) then u.(firebaseUid := Some(uid), accountCreatedAt := Some(now), lastLogin := Some(now))
    else u.(lastLogin := Some(now))
  }

  /**
   * syncClaimsOnLogin. Settled claims are returned with no write. Otherwise
   * the user document must exist and carry a user type; the claims are
   * set first, and the document is stamped only once they are.
   */
  method SyncClaimsOnLogin(t: Tenant, p: Platform, auth: Option<Token>, now: int, providerFails: bool)
    returns (r: Result<Claims>)
    modifies t, p
    ensures auth.None? ==> r == Err(Unauthenticated)
    ensures auth.Some? && auth.value.uid !in old(p.state.accounts) ==> r == Err(Internal)
    ensures r.Err? || Settled(old(p.state.accounts)[auth.value.uid].customClaims) ==>
      t.state == old(t.state) && p.state == old(p.state)
    ensures auth.Some? && auth.value.uid in old(p.state.accounts) && Settled(old(p.state.accounts)[auth.value.uid].customClaims) ==>
      r == Ok(old(p.state.accounts)[auth.value.uid].customClaims.value)
    ensures auth.Some? && auth.value.uid in old(p.state.accounts) && !Settled(old(p.state.accounts)[auth.value.uid].customClaims) ==>
      match FindUser(old(t.state.users), auth.value.uid, auth.value.email)
      case None => r == Err(NotFound)
      case Some(id) =>
        if !Truthy(old(t.state.users)[id].userType) then r == Err(InvalidArgument)
        else if providerFails then r == Err(Internal)
        else
          r == Ok(GrantedClaims(old(t.state.users)[id].userType.value)) &&
          t.state == old(t.state).(users := old(t.state.users)[id := LoginPatch(old(t.state.users)[id], auth.value.uid, now)]) &&
          p.state == old(p.state).(accounts := old(p.state.accounts)[auth.value.uid :=
            old(p.state.accounts)[auth.value.uid].(customClaims := Some(r.value))])
    ensures r.Ok? ==> auth.value.uid in p.state.accounts && Settled(p.state.accounts[auth.value.uid].customClaims)
  {
    if auth.None? {
      return Err(Unauthenticated);
    }
    var tok := auth.value;
    if tok.uid !in p.state.accounts {
      return Err(Internal);
    }
    var existing := p.state.accounts[tok.uid].customClaims;
    if existing.Some? && existing.value.role == Some("super_admin") {
      return Ok(existing.value);
    }
    if existing.Some? && Truthy(existing.value.role) && Truthy(existing.value.universityPath) {
      return Ok(existing.value);
    }
    var found := FindUser(t.state.users, tok.uid, tok.email);
    if found.None? {
      return Err(NotFound);
    }
    var id := found.value;
    var userType := t.state.users[id].userType;
    if !Truthy(userType) {
      return Err(InvalidArgument);
    }
    var claims := GrantedClaims(userType.value);
    var set_ := SetUserClaims(p, tok.uid, claims, providerFails);
    if set_.Err? {
      return Err(Internal);
    }
    t.state := t.state.(users := t.state.users[id := LoginPatch(t.state.users[id], tok.uid, now)]);
    return Ok(claims);
  }

  /**
   * setClaimsOnRegistration: open to any caller, for the login id it is
   * given. The account's own email is the fallback key to the user
   * document.
   */
  method SetClaimsOnRegistration(t: Tenant, p: Platform, uid: Option<string>, now: int, providerFails: bool)
    returns (r: Result<Claims>)
    modifies t, p
    ensures !Truthy(uid) ==> r == Err(InvalidArgument)
    ensures Truthy(uid) && uid.value !in old(p.state.accounts) ==> r == Err(NotFound)
    ensures r.Err? ==> t.state == old(t.state) && p.state == old(p.state)
    ensures Truthy(uid) && uid.value in old(p.state.accounts) ==>
      match FindUser(old(t.state.users), uid.value, old(p.state.accounts)[uid.value].email)
      case None => r == Err(NotFound)
      case Some(id) =>
        if !Truthy(old(t.state.users)[id].userType) then r == Err(InvalidArgument)
        else if providerFails then r == Err(Internal)
        else
          r == Ok(GrantedClaims(old(t.state.users)[id].userType.value)) &&
          t.state == old(t.state).(users := old(t.state.users)[id := RegistrationPatch(old(t.state.users)[id], uid.value, now)]) &&
          p.state == old(p.state).(accounts := old(p.state.accounts)[uid.value :=
            old(p.state.accounts)[uid.value].(customClaims := Some(r.value))])
    ensures r.Ok? ==> Settled(p.state.accounts[uid.value].customClaims)
  {
    if !Truthy(uid) {
      return Err(InvalidArgument);
    }
    var id0 := uid.value;
    if id0 !in p.state.accounts {
      return Err(NotFound);
    }
    var email := p.state.accounts[id0].email;
    var found := FindUser(t.state.users, id0, email);
    if found.None? {
      return Err(NotFound);
    }
    var id := found.value;
    var userType := t.state.users[id].userType;
    if !Truthy(userType) {
      return Err(InvalidArgument);
    }
    var claims := GrantedClaims(userType.value);
    var set_ := SetUserClaims(p, id0, claims, providerFails);
    if set_.Err? {
      return Err(Internal);
    }
    t.state := t.state.(users := t.state.users[id := RegistrationPatch(t.state.users[id], id0, now)]);
    return Ok(claims);
  }

  // ---------------------------------------------------------------- properties

  /** Granted claims are settled: the next login returns them without touching anything. */
  lemma GrantedClaimsSettled(userType: string)
    requires userType != ""
    ensures Settled(Some(GrantedClaims(userType)))
  {
  }

  /**
   * The login stamp never moves the caller to another document: the
   * lookup finds the same one afterwards, now by login id when it was
   * found by email and had none.
   */
  lemma {:induction false} LoginLookupStable(users: map<string, User>, uid: string, email: Option<string>, now: int)
    requires FindUser(users, uid, email).Some?
    ensures var id := FindUser(users, uid, email).value;
      var users' := users[id := LoginPatch(users[id], uid, now)];
      FindUser(users', uid, email) == Some(id) &&
      (!Truthy(users[id].firebaseUid) ==> users'[id].firebaseUid == Some(uid))
  {
    var id := FindUser(users, uid, email).value;
    var users' := users[id := LoginPatch(users[id], uid, now)];
    var before := MeetingHelpers.UidMatches(users, uid);
    var after := MeetingHelpers.UidMatches(users', uid);
    if before != {} {
      assert users[id].firebaseUid == Some(uid);
      assert after == before;
    } else if !Truthy(users[id].firebaseUid) {
      assert after == {id};
    } else {
      assert after == {};
      assert Conversations.EmailMatches(users', email.value) == Conversations.EmailMatches(users, email.value);
    }
  }

  /** A document found by email that already carries another login id keeps it. */
  lemma LoginKeepsForeignUid(u: User, uid: string, now: int)
    requires Truthy(u.firebaseUid) && u.firebaseUid != Some(uid)
    ensures LoginPatch(u, uid, now).firebaseUid == u.firebaseUid
  {
  }
}
