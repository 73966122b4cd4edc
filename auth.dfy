// Authentication and role checks of the callable handlers, and the
// custom-claims write at the identity provider (utils/auth.ts).
//
// A call's authentication is an `Option<Token>`: `None` is a request
// without `auth`. The four role checks accept a role from a fixed list
// each; the lists are nested, so every gate lets through whatever a
// stricter gate does.
module Auth {
  import opened Wrappers
  import opened Types
  import opened Store

  const SuperAdminRoles: set<string> := {"super_admin"}
  const CoordinatorRoles: set<string> := {"coordinator", "super_admin"}
  const MentorRoles: set<string> := {"mentor", "coordinator", "super_admin"}
  const MenteeRoles: set<string> := {"mentee", "mentor", "coordinator", "super_admin"}

  /** The caller's role is present, not empty, and one of `roles`. */
  predicate HasRole(ctx: AuthContext, roles: set<string>)
  {
    Truthy(ctx.role) && ctx.role.value in roles
  }

  /** The identity of an authenticated call; a call without auth is refused. */
  function VerifyAuth(auth: Option<Token>): (r: Result<AuthContext>)
    ensures r.Err? <==> auth.None?
    ensures r.Err? ==> r.error == Unauthenticated
    ensures r.Ok? ==> r.value.uid == auth.value.uid && r.value.email == auth.value.email
    ensures r.Ok? ==> r.value.role == auth.value.role && r.value.universityPath == auth.value.universityPath
  {
    match auth
    case None => Err(Unauthenticated)
    case Some(t) => Ok(AuthContext(t.uid, t.email, t.role, t.universityPath))
  }

  /** The identity of the call when its role is in `roles`. */
  function Gate(auth: Option<Token>, roles: set<string>): (r: Result<AuthContext>)
    ensures r.Ok? ==> r == VerifyAuth(auth) && HasRole(r.value, roles)
  {
    match VerifyAuth(auth)
    case Err(e) => Err(e)
    case Ok(ctx) => if HasRole(ctx, roles) then Ok(ctx) else Err(PermissionDenied)
  }

  function VerifySuperAdmin(auth: Option<Token>): (r: Result<AuthContext>)
    ensures r.Ok? <==> auth.Some? && auth.value.role == Some("super_admin")
    ensures r.Ok? ==> r == VerifyAuth(auth)
    ensures r.Err? ==> r.error == (if auth.None? then Unauthenticated else PermissionDenied)
  {
    Gate(auth, SuperAdminRoles)
  }

  /**
   * A coordinator or a super admin; a coordinator only for the university
   * named in its own token.
   */
  function VerifyCoordinator(auth: Option<Token>, universityPath: Option<string>): (r: Result<AuthContext>)
    ensures r.Ok? <==>
      auth.Some? &&
      (auth.value.role == Some("super_admin") ||
       (auth.value.role == Some("coordinator") && auth.value.universityPath == universityPath))
    ensures r.Ok? ==> r == VerifyAuth(auth)
    ensures r.Err? ==> r.error == (if auth.None? then Unauthenticated else PermissionDenied)
  {
    match Gate(auth, CoordinatorRoles)
    case Err(e) => Err(e)
    case Ok(ctx) =>
      if ctx.role == Some("coordinator") && ctx.universityPath != universityPath then Err(PermissionDenied)
      else Ok(ctx)
  }

  function VerifyMentor(auth: Option<Token>): (r: Result<AuthContext>)
    ensures r.Ok? <==> auth.Some? && auth.value.role.Some? && auth.value.role.value in MentorRoles
    ensures r.Ok? ==> r == VerifyAuth(auth)
    ensures r.Err? ==> r.error == (if auth.None? then Unauthenticated else PermissionDenied)
  {
    Gate(auth, MentorRoles)
  }

  function VerifyMentee(auth: Option<Token>): (r: Result<AuthContext>)
    ensures r.Ok? <==> auth.Some? && auth.value.role.Some? && auth.value.role.value in MenteeRoles
    ensures r.Ok? ==> r == VerifyAuth(auth)
    ensures r.Err? ==> r.error == (if auth.None? then Unauthenticated else PermissionDenied)
  {
    Gate(auth, MenteeRoles)
  }

  /** Each gate admits every caller a stricter gate admits, with the same identity. */
  lemma RoleHierarchy(auth: Option<Token>, universityPath: Option<string>)
    ensures VerifySuperAdmin(auth).Ok? ==> VerifyCoordinator(auth, universityPath) == VerifySuperAdmin(auth)
    ensures VerifyCoordinator(auth, universityPath).Ok? ==> VerifyMentor(auth) == VerifyCoordinator(auth, universityPath)
    ensures VerifyMentor(auth).Ok? ==> VerifyMentee(auth) == VerifyMentor(auth)
  {
  }

  /** A token with no role, or an empty one, passes none of the four gates. */
  lemma NoRoleNoAccess(auth: Option<Token>, universityPath: Option<string>)
    requires auth.Some? && !Truthy(auth.value.role)
    ensures VerifySuperAdmin(auth) == Err(PermissionDenied)
    ensures VerifyCoordinator(auth, universityPath) == Err(PermissionDenied)
    ensures VerifyMentor(auth) == Err(PermissionDenied)
    ensures VerifyMentee(auth) == Err(PermissionDenied)
  {
  }

  /** A super admin passes all four gates, for any university. */
  lemma SuperAdminPassesAll(auth: Option<Token>, universityPath: Option<string>)
    requires auth.Some? && auth.value.role == Some("super_admin")
    ensures VerifySuperAdmin(auth).Ok? && VerifyCoordinator(auth, universityPath).Ok?
    ensures VerifyMentor(auth).Ok? && VerifyMentee(auth).Ok?
  {
  }

  /** A mentee passes only the mentee gate. */
  lemma MenteeOnlyMenteeGate(auth: Option<Token>, universityPath: Option<string>)
    requires auth.Some? && auth.value.role == Some("mentee")
    ensures VerifyMentee(auth).Ok?
    ensures VerifyMentor(auth).Err? && VerifyCoordinator(auth, universityPath).Err? && VerifySuperAdmin(auth).Err?
  {
  }

  /**
   * `setCustomUserClaims`: the account's claims are replaced. The provider
   * refuses an unknown uid, and may fail (`providerFails`); either gives
   * an internal error and changes nothing.
   */
  method SetUserClaims(p: Platform, uid: string, claims: Claims, providerFails: bool) returns (r: Result<()>)
    modifies p
    ensures r.Err? <==> providerFails || uid !in old(p.state.accounts)
    ensures r.Err? ==> r.error == Internal && p.state == old(p.state)
    ensures r.Ok? ==> p.state == old(p.state).(accounts := old(p.state.accounts)[uid := old(p.state.accounts)[uid].(customClaims := Some(claims))])
  {
    if providerFails || uid !in p.state.accounts {
      return Err(Internal);
    }
    p.state := p.state.(accounts := p.state.accounts[uid := p.state.accounts[uid].(customClaims := Some(claims))]);
    return Ok(());
  }
}
