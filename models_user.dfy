/** The user-side request models and enumerations (app/models/user.py):
    the role and verification-status literals, the registration bounds and
    the default trust-score breakdown. */
module UserModels {
  import opened Common

  /** `UserType = Literal["tenant", "landlord", "admin"]`. */
  datatype UserType = Tenant | Landlord | Admin

  function UserTypeName(t: UserType): string
  {
    match t
    case Tenant => "tenant"
    case Landlord => "landlord"
    case Admin => "admin"
  }

  /** Pydantic's check of a `UserType` literal: exactly the three role names. */
  function ParseUserType(s: string): (r: Option<UserType>)
    ensures r.Some? <==> s == "tenant" || s == "landlord" || s == "admin"
    ensures r.Some? ==> UserTypeName(r.value) == s
  {
    if s == "tenant" then Some(Tenant)
    else if s == "landlord" then Some(Landlord)
    else if s == "admin" then Some(Admin)
    else None
  }

  /** `VerificationStatus = Literal["pending", "approved", "rejected", "partial"]`. */
  datatype VerificationStatus = Pending | Approved | Rejected | Partial

  function VerificationStatusName(v: VerificationStatus): string
  {
    match v
    case Pending => "pending"
    case Approved => "approved"
    case Rejected => "rejected"
    case Partial => "partial"
  }

  function ParseVerificationStatus(s: string): (r: Option<VerificationStatus>)
    ensures r.Some? <==> s == "pending" || s == "approved" || s == "rejected" || s == "partial"
    ensures r.Some? ==> VerificationStatusName(r.value) == s
  {
    if s == "pending" then Some(Pending)
    else if s == "approved" then Some(Approved)
    else if s == "rejected" then Some(Rejected)
    else if s == "partial" then Some(Partial)
    else None
  }

  /** Every role and every status survives printing and re-reading. */
  lemma EnumNamesRoundTrip(t: UserType, v: VerificationStatus)
    ensures ParseUserType(UserTypeName(t)) == Some(t)
    ensures ParseVerificationStatus(VerificationStatusName(v)) == Some(v)
  {
  }

  /** The body of `POST /auth/register`, before validation. */
  datatype RegisterRequest = RegisterRequest(
    email: string,
    password: string,
    fullName: string,
    userType: string,
    phoneNumber: Option<string>)

  const MinPasswordLength: nat := 6
  const MinFullNameLength: nat := 2

  const ValidationFailed: string := "Request validation failed"

  /** Validation of `UserRegister`: the password and full-name lengths and the
      role literal; a valid request yields its role. */
  function CheckRegistration(req: RegisterRequest): (r: Result<UserType>)
    ensures r.Ok? <==>
      |req.password| >= MinPasswordLength && |req.fullName| >= MinFullNameLength
      && ParseUserType(req.userType).Some?
    ensures r.Ok? ==> UserTypeName(r.value) == req.userType
    ensures r.Err? ==> r.error.status == UnprocessableEntity
  {
    if |req.password| < MinPasswordLength || |req.fullName| < MinFullNameLength then
      Err(Error(UnprocessableEntity, ValidationFailed))
    else
      match ParseUserType(req.userType)
      case Some(t) => Ok(t)
      case None => Err(Error(UnprocessableEntity, ValidationFailed))
  }

  /** The trust score every account starts from. */
  const BaseTrustScore: int := 50

  /** The `breakdown` dictionary of `TrustScoreBreakdown`. */
  datatype TrustBreakdown = TrustBreakdown(
    baseScore: int,
    verificationBonus: int,
    ratingImpact: int,
    completionBonus: int,
    guaranteeBonus: int)

  const DefaultBreakdown: TrustBreakdown := TrustBreakdown(50, 0, 0, 0, 0)

  function BreakdownTotal(b: TrustBreakdown): int
  {
    b.baseScore + b.verificationBonus + b.ratingImpact + b.completionBonus + b.guaranteeBonus
  }

  /** The default breakdown adds up to the base score with which
      registration creates every user. */
  lemma DefaultBreakdownIsBase()
    ensures BreakdownTotal(DefaultBreakdown) == BaseTrustScore
    ensures DefaultBreakdown.verificationBonus == DefaultBreakdown.ratingImpact
         == DefaultBreakdown.completionBonus == DefaultBreakdown.guaranteeBonus == 0
  {
  }
}
