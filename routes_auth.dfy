/** Registration and login (app/routes/auth.py). The identity provider's
    sign-up and sign-in are opaque calls whose outcome is passed in; the
    model covers the rows written and the error mapping around them. */
module AuthRoutes {
  import opened Common
  import opened UserModels
  import opened TenantProfile
  import opened Store
  import AuthGuard

  /** What the provider's `sign_up` does: raises with a message, returns no
      user, or creates one (possibly without a session, when e-mail
      confirmation is pending). */
  datatype SignUpOutcome = SignUpError(message: string) | SignUpNoUser | SignedUp(userId: Id, accessToken: Option<string>)

  /** The `AuthResponse` of a registration. */
  datatype Registered = Registered(userId: Id, user: UserRow, accessToken: string, message: string)

  const FailedToCreateUser: Error := Error(BadRequest, "Failed to create user")
  const RegistrationSuccessful: string := "Registration successful! Please check your email to verify your account."

  /** The text of the database error for an insert whose key is taken. */
  const DuplicateKey: string := "duplicate key value violates unique constraint"
  /** The text of the error raised on reading the token of a missing session. */
  const NoSession: string := "'NoneType' object has no attribute 'access_token'"

  function RegistrationFailed(message: string): Error
  {
    Error(BadRequest, "Registration failed: " + message)
  }

  /** The `users` row written at registration. */
  function NewUserRow(req: RegisterRequest, t: UserType): UserRow
  {
    UserRow(req.email, req.phoneNumber, req.fullName, t, BaseTrustScore, Partial, None, None)
  }

  /** The `landlords` row written at registration. */
  const NewLandlord: LandlordRow := LandlordRow(false, 0)

  /** The rows registration creates start from the documented defaults. */
  lemma RegistrationDefaults(req: RegisterRequest, t: UserType)
    ensures NewUserRow(req, t).trustScore == 50 && NewUserRow(req, t).verificationStatus == Partial
    ensures NewUserRow(req, t).userType == t && NewUserRow(req, t).email == req.email
    ensures EmptyTenant.profileCompletion == 0 && !EmptyTenant.onboardingCompleted && Completion(EmptyTenant) == 0
    ensures !NewLandlord.guaranteeJoined && NewLandlord.guaranteeContribution == 0
  {
  }

  /** `register`. Validation, then the provider's sign-up; then the `users`
      row, then the role's own row (none for an admin), then the session
      token. A failure after a write leaves the earlier writes in place. */
  method Register(db: Database, req: RegisterRequest, signUp: SignUpOutcome) returns (r: Result<Registered>)
    requires db.Valid()
    modifies db`users, db`tenants, db`landlords
    ensures db.Valid()
    ensures CheckRegistration(req).Err? ==>
              r == Err(CheckRegistration(req).error)
              && db.users == old(db.users) && db.tenants == old(db.tenants) && db.landlords == old(db.landlords)
    ensures CheckRegistration(req).Ok? && signUp.SignUpError? ==>
              r == Err(RegistrationFailed(signUp.message))
              && db.users == old(db.users) && db.tenants == old(db.tenants) && db.landlords == old(db.landlords)
    ensures CheckRegistration(req).Ok? && signUp.SignUpNoUser? ==>
              r == Err(FailedToCreateUser)
              && db.users == old(db.users) && db.tenants == old(db.tenants) && db.landlords == old(db.landlords)
    ensures CheckRegistration(req).Ok? && signUp.SignedUp? && signUp.userId in old(db.users) ==>
              r == Err(RegistrationFailed(DuplicateKey))
              && db.users == old(db.users) && db.tenants == old(db.tenants) && db.landlords == old(db.landlords)
    ensures CheckRegistration(req).Ok? && signUp.SignedUp? && signUp.userId !in old(db.users) ==>
              var id, t := signUp.userId, CheckRegistration(req).value;
              db.users == old(db.users)[id := NewUserRow(req, t)]
              && (t == Tenant ==>
                    db.landlords == old(db.landlords)
                    && (id !in old(db.tenants) ==> db.tenants == old(db.tenants)[id := EmptyTenant])
                    && (id in old(db.tenants) ==> db.tenants == old(db.tenants) && r == Err(RegistrationFailed(DuplicateKey))))
              && (t == Landlord ==>
                    db.tenants == old(db.tenants)
                    && (id !in old(db.landlords) ==> db.landlords == old(db.landlords)[id := NewLandlord])
                    && (id in old(db.landlords) ==> db.landlords == old(db.landlords) && r == Err(RegistrationFailed(DuplicateKey))))
              && (t == Admin ==> db.tenants == old(db.tenants) && db.landlords == old(db.landlords))
    ensures r.Ok? <==>
              CheckRegistration(req).Ok? && signUp.SignedUp? && signUp.accessToken.Some?
              && signUp.userId !in old(db.users)
              && (CheckRegistration(req).value == Tenant ==> signUp.userId !in old(db.tenants))
              && (CheckRegistration(req).value == Landlord ==> signUp.userId !in old(db.landlords))
    ensures r.Ok? ==>
              r.value == Registered(signUp.userId, NewUserRow(req, CheckRegistration(req).value),
                                    signUp.accessToken.value, RegistrationSuccessful)
    ensures CheckRegistration(req).Ok? && signUp.SignedUp? && signUp.accessToken.None? ==> r.Err?
  {
    var check := CheckRegistration(req);
    if check.Err? {
      return Err(check.error);
    }
    var t := check.value;
    match signUp
    case SignUpError(message) =>
      return Err(RegistrationFailed(message));
    case SignUpNoUser =>
      return Err(FailedToCreateUser);
    case SignedUp(id, token) =>
      if id in db.users {
        return Err(RegistrationFailed(DuplicateKey));
      }
      db.users := db.users[id := NewUserRow(req, t)];
      if t == Tenant {
        if id in db.tenants {
          return Err(RegistrationFailed(DuplicateKey));
        }
        TenantWriteKeepsConsistent(db.tenants, db.properties, db.applications, db.transactions, db.favorites,
                                   db.nextId, id, EmptyTenant);
        db.tenants := db.tenants[id := EmptyTenant];
      } else if t == Landlord {
        if id in db.landlords {
          return Err(RegistrationFailed(DuplicateKey));
        }
        db.landlords := db.landlords[id := NewLandlord];
      }
      if token.None? {
        return Err(RegistrationFailed(NoSession));
      }
      r := Ok(Registered(id, NewUserRow(req, t), token.value, RegistrationSuccessful));
  }

  /** What the provider's `sign_in_with_password` does. */
  datatype SignInOutcome = SignInError(message: string) | SignInNoUser | SignedIn(userId: Id, accessToken: Option<string>)

  /** The `AuthResponse` of a login: the user row as read before the login
      stamp, with the role's own row attached when there is one. */
  datatype LoggedIn = LoggedIn(
    userId: Id,
    user: UserRow,
    tenantProfile: Option<TenantRow>,
    landlordProfile: Option<LandlordRow>,
    accessToken: string)

  const InvalidCredentials: Error := Error(Unauthorized, "Invalid email or password")
  const UserProfileNotFound: Error := Error(NotFound, "User profile not found")

  /** The mapping of an exception raised during login: the provider's
      wrong-credentials messages become the generic 401, and every other
      message is passed through, also as a 401. */
  function LoginFailure(message: string): (e: Error)
    ensures e.status == Unauthorized
    ensures e == InvalidCredentials <==>
              Contains(message, "Invalid login credentials") || Contains(message, "invalid_grant")
    ensures e != InvalidCredentials ==> e.detail == "Login failed: " + message
  {
    if Contains(message, "Invalid login credentials") || Contains(message, "invalid_grant") then
      InvalidCredentials
    else
      var e := Error(Unauthorized, "Login failed: " + message);
      assert e.detail[0] == 'L' != InvalidCredentials.detail[0];
      e
  }

  /** The role's own row attached to the login response. */
  function TenantProfileOf(db: Database, id: Id, t: UserType): (p: Option<TenantRow>)
    reads db
    ensures p.Some? <==> t == Tenant && id in db.tenants
    ensures p.Some? ==> p.value == db.tenants[id]
  {
    if t == Tenant && id in db.tenants then Some(db.tenants[id]) else None
  }

  function LandlordProfileOf(db: Database, id: Id, t: UserType): (p: Option<LandlordRow>)
    reads db
    ensures p.Some? <==> t == Landlord && id in db.landlords
    ensures p.Some? ==> p.value == db.landlords[id]
  {
    if t == Landlord && id in db.landlords then Some(db.landlords[id]) else None
  }

  /** `login`. Every provider failure is a 401; a missing profile row is a
      404; otherwise the login time is stamped before the session token is
      read, so a missing session still leaves the stamp. */
  method Login(db: Database, signIn: SignInOutcome, now: Timestamp) returns (r: Result<LoggedIn>)
    requires db.Valid()
    modifies db`users
    ensures db.Valid()
    ensures signIn.SignInError? ==> r == Err(LoginFailure(signIn.message)) && db.users == old(db.users)
    ensures signIn.SignInNoUser? ==> r == Err(InvalidCredentials) && db.users == old(db.users)
    ensures signIn.SignedIn? && signIn.userId !in old(db.users) ==>
              r == Err(UserProfileNotFound) && db.users == old(db.users)
    ensures signIn.SignedIn? && signIn.userId in old(db.users) ==>
              var id := signIn.userId;
              var u := old(db.users)[id];
              db.users == old(db.users)[id := u.(lastLoginAt := Some(now))]
              && (signIn.accessToken.None? ==> r == Err(LoginFailure(NoSession)))
              && (signIn.accessToken.Some? ==>
                    r == Ok(LoggedIn(id, u, TenantProfileOf(db, id, u.userType), LandlordProfileOf(db, id, u.userType),
                                     signIn.accessToken.value)))
    ensures r.Err? ==> r.error.status == Unauthorized || r.error == UserProfileNotFound
  {
    match signIn
    case SignInError(message) =>
      return Err(LoginFailure(message));
    case SignInNoUser =>
      return Err(InvalidCredentials);
    case SignedIn(id, token) =>
      if id !in db.users {
        return Err(UserProfileNotFound);
      }
      var u := db.users[id];
      db.users := db.users[id := u.(lastLoginAt := Some(now))];
      var tenantProfile := TenantProfileOf(db, id, u.userType);
      var landlordProfile := LandlordProfileOf(db, id, u.userType);
      if token.None? {
        return Err(LoginFailure(NoSession));
      }
      r := Ok(LoggedIn(id, u, tenantProfile, landlordProfile, token.value));
  }

  /** The profile `GET /auth/me` returns. */
  datatype Profile = Profile(
    userId: Id,
    user: UserRow,
    tenantProfile: Option<TenantRow>,
    landlordProfile: Option<LandlordRow>)

  const UserNotFound: Error := Error(NotFound, "User not found")

  /** `get_current_user_profile`: the caller's stored row, re-read, with the
      role's own row attached when there is one. */
  function Me(db: Database, u: AuthGuard.CurrentUser): (r: Result<Profile>)
    reads db
    ensures r.Ok? <==> u.id in db.users
    ensures r.Err? ==> r == Err(UserNotFound)
    ensures r.Ok? ==> r.value.user == db.users[u.id] && r.value.userId == u.id
    ensures r.Ok? ==> (r.value.tenantProfile.Some? <==> db.users[u.id].userType == Tenant && u.id in db.tenants)
    ensures r.Ok? ==> (r.value.landlordProfile.Some? <==> db.users[u.id].userType == Landlord && u.id in db.landlords)
  {
    if u.id !in db.users then Err(UserNotFound)
    else
      var row := db.users[u.id];
      Ok(Profile(u.id, row, TenantProfileOf(db, u.id, row.userType), LandlordProfileOf(db, u.id, row.userType)))
  }
}
