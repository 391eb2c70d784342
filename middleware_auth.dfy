/** Request authentication (app/middleware/auth.py): resolving a bearer
    token to the caller's `users` row, the three role gates, and the
    optional-user helper. The identity provider is an opaque lookup whose
    answer is passed in. */
module AuthGuard {
  import opened Common
  import opened UserModels
  import opened Store

  /** The dict `get_current_user` returns: the caller's id and `users` row. */
  datatype CurrentUser = CurrentUser(id: Id, row: UserRow)

  /** What the identity provider answers for a bearer token: it fails
      (an expired or forged token raises), it finds no user, or it names one. */
  datatype TokenCheck = ProviderFailure | NoUser | TokenUser(userId: Id)

  const CredentialsError: Error := Error(Unauthorized, "Could not validate credentials")

  /** `get_current_user`: the token must name a user that has a `users`
      row; every failure, whatever its cause, is the same 401. */
  function ResolveUser(check: TokenCheck, users: map<Id, UserRow>): (r: Result<CurrentUser>)
    ensures r.Ok? <==> check.TokenUser? && check.userId in users
    ensures r.Ok? ==> r.value.id == check.userId && r.value.row == users[check.userId]
    ensures r.Err? ==> r.error == CredentialsError
  {
    match check
    case TokenUser(id) => if id in users then Ok(CurrentUser(id, users[id])) else Err(CredentialsError)
    case _ => Err(CredentialsError)
  }

  const TenantsOnly: Error := Error(Forbidden, "Only tenants can access this resource")
  const LandlordsOnly: Error := Error(Forbidden, "Only landlords can access this resource")
  const AdminsOnly: Error := Error(Forbidden, "Only admins can access this resource")

  /** `get_current_tenant`. */
  function RequireTenant(u: CurrentUser): (r: Result<CurrentUser>)
    ensures r == Ok(u) <==> u.row.userType == Tenant
    ensures r.Err? <==> r == Err(TenantsOnly)
  {
    if u.row.userType != Tenant then Err(TenantsOnly) else Ok(u)
  }

  /** `get_current_landlord`. */
  function RequireLandlord(u: CurrentUser): (r: Result<CurrentUser>)
    ensures r == Ok(u) <==> u.row.userType == Landlord
    ensures r.Err? <==> r == Err(LandlordsOnly)
  {
    if u.row.userType != Landlord then Err(LandlordsOnly) else Ok(u)
  }

  /** `get_current_admin`. */
  function RequireAdmin(u: CurrentUser): (r: Result<CurrentUser>)
    ensures r == Ok(u) <==> u.row.userType == Admin
    ensures r.Err? <==> r == Err(AdminsOnly)
  {
    if u.row.userType != Admin then Err(AdminsOnly) else Ok(u)
  }

  /** The three gates partition the roles: every caller passes exactly one. */
  lemma GatesPartitionRoles(u: CurrentUser)
    ensures (if RequireTenant(u).Ok? then 1 else 0) + (if RequireLandlord(u).Ok? then 1 else 0)
          + (if RequireAdmin(u).Ok? then 1 else 0) == 1
  {
  }

  /** `get_optional_current_user`, as intended: no credentials give no
      user; otherwise the token is resolved, and a 401 becomes no user. The
      `None` branch needs the bearer scheme to let a request without an
      `Authorization` header through, as `HTTPBearer(auto_error=False)` does. */
  function OptionalUser(token: Option<TokenCheck>, users: map<Id, UserRow>): (r: Option<CurrentUser>)
    ensures token.None? ==> r.None?
    ensures r.Some? <==> token.Some? && ResolveUser(token.value, users).Ok?
    ensures r.Some? ==> r.value == ResolveUser(token.value, users).value
  {
    if token.None? then None
    else
      match ResolveUser(token.value, users)
      case Ok(u) => Some(u)
      case Err(_) => None
  }

  /** The refusal of the bearer scheme `HTTPBearer()`, whose default
      `auto_error=True` rejects a request without credentials before any
      dependency on it runs. */
  const NotAuthenticated: Error := Error(Forbidden, "Not authenticated")

  /** What the route receives through `get_optional_current_user` as written:
      the request is refused by the bearer scheme, or the helper runs and
      hands over the un-awaited coroutine object of `get_current_user`. */
  datatype OptionalAsWritten = Refused(error: Error) | PendingCoroutine(token: TokenCheck)

  /** `get_optional_current_user` as written. The shared `HTTPBearer()` refuses
      a request without credentials, so the helper's `return None` is never
      reached; with credentials it calls the asynchronous `get_current_user`
      without awaiting it, so the `try` never sees a 401 and the route
      receives a coroutine, not a user row. */
  function OptionalUserAsWritten(token: Option<TokenCheck>): (r: OptionalAsWritten)
    ensures r.Refused? <==> token.None?
    ensures r.Refused? ==> r.error == NotAuthenticated
    ensures r.PendingCoroutine? ==> r.token == token.value
  {
    if token.None? then Refused(NotAuthenticated) else PendingCoroutine(token.value)
  }

  /** The as-written helper never yields a user: without credentials the
      request is refused where the intended helper yields no user, and with
      them even a valid token for an existing user gives a coroutine where
      the intended helper gives the caller's row. */
  lemma OptionalUserAsWrittenNeverResolves(id: Id, users: map<Id, UserRow>)
    requires id in users
    ensures OptionalUser(Some(TokenUser(id)), users) == Some(CurrentUser(id, users[id]))
    ensures OptionalUserAsWritten(Some(TokenUser(id))).PendingCoroutine?
    ensures OptionalUser(None, users).None? && OptionalUserAsWritten(None) == Refused(NotAuthenticated)
  {
  }
}
