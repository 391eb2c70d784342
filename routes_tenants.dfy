/** The tenant routes (app/routes/tenants.py): reading the profile and its
    status report, partial updates that recompute the stored completion
    score, and the profile-completion wizard that unlocks applying. */
module TenantRoutes {
  import opened Common
  import opened UserModels
  import opened PropertyModels
  import opened TenantProfile
  import opened Store
  import opened AuthGuard

  const TenantProfileNotFound: Error := Error(NotFound, "Tenant profile not found")
  const UpdateFailed: Error := Error(BadRequest, "Failed to update profile")
  const CompleteFailed: Error := Error(BadRequest, "Failed to complete profile")

  /** `get_tenant_profile`: the stored row, reported with the completion
      score of its fields in place of the stored one. */
  function GetTenantProfile(db: Database, caller: CurrentUser): (r: Result<TenantRow>)
    reads db
    ensures caller.row.userType != Tenant ==> r == Err(TenantsOnly)
    ensures caller.row.userType == Tenant && caller.id !in db.tenants ==> r == Err(TenantProfileNotFound)
    ensures r.Ok? <==> caller.row.userType == Tenant && caller.id in db.tenants
    ensures r.Ok? ==> r.value.profileCompletion == Completion(r.value)
    ensures r.Ok? ==> r.value.(profileCompletion := db.tenants[caller.id].profileCompletion) == db.tenants[caller.id]
  {
    if caller.row.userType != Tenant then Err(TenantsOnly)
    else if caller.id !in db.tenants then Err(TenantProfileNotFound)
    else
      var t := db.tenants[caller.id];
      Ok(t.(profileCompletion := Completion(t)))
  }

  /** In a consistent database the reported profile is the stored row. */
  lemma ReportedProfileIsStored(db: Database, caller: CurrentUser)
    requires db.Valid()
    requires caller.row.userType == Tenant && caller.id in db.tenants
    ensures GetTenantProfile(db, caller) == Ok(db.tenants[caller.id])
  {
    assert CompletionsCurrent(db.tenants);
  }

  /** The body `get_profile_status` returns. */
  datatype ProfileStatus = ProfileStatus(
    profileCompletion: int,
    onboardingCompleted: bool,
    trustScore: int,
    verificationStatus: VerificationStatus,
    missingFields: seq<string>,
    canApply: bool)

  /** `get_profile_status`: the score, the checklist fields still missing,
      whether the tenant may apply, and the trust data of the `users` row
      (50 and `partial` when that row is absent). */
  method GetProfileStatus(db: Database, caller: CurrentUser) returns (r: Result<ProfileStatus>)
    ensures caller.row.userType != Tenant ==> r == Err(TenantsOnly)
    ensures caller.row.userType == Tenant && caller.id !in db.tenants ==> r == Err(TenantProfileNotFound)
    ensures r.Ok? <==> caller.row.userType == Tenant && caller.id in db.tenants
    ensures r.Ok? ==>
              var t := db.tenants[caller.id];
              r.value.profileCompletion == Completion(t)
              && r.value.onboardingCompleted == t.onboardingCompleted
              && r.value.missingFields == Outstanding(t, Checklist)
              && (r.value.canApply <==> CanApply(t))
              && r.value.trustScore == (if caller.id in db.users then db.users[caller.id].trustScore else BaseTrustScore)
              && r.value.verificationStatus ==
                   (if caller.id in db.users then db.users[caller.id].verificationStatus else Partial)
  {
    var gate := RequireTenant(caller);
    if gate.Err? {
      return Err(gate.error);
    }
    if caller.id !in db.tenants {
      return Err(TenantProfileNotFound);
    }
    var t := db.tenants[caller.id];
    var completion := Completion(t);
    var missing := MissingFields(t);
    var trust, verification := BaseTrustScore, Partial;
    if caller.id in db.users {
      trust, verification := db.users[caller.id].trustScore, db.users[caller.id].verificationStatus;
    }
    r := Ok(ProfileStatus(completion, t.onboardingCompleted, trust, verification, missing,
                          completion >= FullCompletion));
  }

  /** The body of `PATCH /tenants/profile`: each field left out or sent;
      a sent field may be `null`. */
  datatype TenantProfileUpdate = TenantProfileUpdate(
    budget: Patch<Option<int>>,
    preferredLocation: Patch<Option<string>>,
    moveInDate: Patch<Option<string>>,
    preferences: Patch<Option<Preferences>>)

  /** The row after the first write of `update_tenant_profile`: the sent
      fields replaced; documents, onboarding and the stored score untouched. */
  function ApplyProfileUpdate(t: TenantRow, u: TenantProfileUpdate): (t': TenantRow)
    ensures t'.documents == t.documents && t'.onboardingCompleted == t.onboardingCompleted
    ensures t'.profileCompletion == t.profileCompletion && t'.profileCompletedAt == t.profileCompletedAt
    ensures u.budget.Unset? ==> t'.budget == t.budget
    ensures u.preferredLocation.Unset? ==> t'.preferredLocation == t.preferredLocation
    ensures u.moveInDate.Unset? ==> t'.moveInDate == t.moveInDate
    ensures u.preferences.Unset? ==> t'.preferences == t.preferences
  {
    t.(budget := Patched(t.budget, u.budget),
       preferredLocation := Patched(t.preferredLocation, u.preferredLocation),
       moveInDate := Patched(t.moveInDate, u.moveInDate),
       preferences := Patched(t.preferences, u.preferences))
  }

  /** An update can move a tenant between 0 and 33 only: the document step
      and the onboarding gate are exactly as before, so applying is neither
      granted nor withdrawn by an update. */
  lemma ProfileUpdateKeepsGate(t: TenantRow, u: TenantProfileUpdate)
    ensures CanApply(ApplyProfileUpdate(t, u)) <==> CanApply(t)
    ensures HasDocuments(ApplyProfileUpdate(t, u)) <==> HasDocuments(t)
    ensures !t.onboardingCompleted && !HasDocuments(t) ==> Completion(ApplyProfileUpdate(t, u)) <= 33
  {
  }

  /** `update_tenant_profile`: writes the sent fields, then stores the score
      recomputed from the updated row, and returns that row. */
  method UpdateTenantProfile(db: Database, caller: CurrentUser, u: TenantProfileUpdate)
    returns (r: Result<TenantRow>)
    requires db.Valid()
    modifies db`tenants
    ensures db.Valid()
    ensures r.Err? ==> db.tenants == old(db.tenants)
    ensures caller.row.userType != Tenant ==> r == Err(TenantsOnly)
    ensures caller.row.userType == Tenant && caller.id !in old(db.tenants) ==> r == Err(UpdateFailed)
    ensures r.Ok? <==> caller.row.userType == Tenant && caller.id in old(db.tenants)
    ensures r.Ok? ==>
              var t := ApplyProfileUpdate(old(db.tenants)[caller.id], u);
              r.value == t.(profileCompletion := Completion(t))
              && db.tenants == old(db.tenants)[caller.id := r.value]
  {
    var gate := RequireTenant(caller);
    if gate.Err? {
      return Err(gate.error);
    }
    if caller.id !in db.tenants {
      return Err(UpdateFailed);
    }
    var updated := ApplyProfileUpdate(db.tenants[caller.id], u);
    ghost var tenants0 := db.tenants;
    db.tenants := db.tenants[caller.id := updated];
    var completion := Completion(updated);
    db.tenants := db.tenants[caller.id := db.tenants[caller.id].(profileCompletion := completion)];
    TenantWriteKeepsConsistent(tenants0, db.properties, db.applications, db.transactions, db.favorites,
                               db.nextId, caller.id, updated.(profileCompletion := completion));
    r := Ok(updated.(profileCompletion := completion));
  }

  /** The body of `POST /tenants/complete-profile`. */
  datatype CompleteProfileData = CompleteProfileData(
    budget: int,
    preferredLocation: string,
    bedrooms: int,
    moveInDate: Option<string>,
    idDocumentUrl: string,
    proofOfIncomeUrl: string,
    reference1Email: Option<string>,
    reference2Email: Option<string>,
    joinRentCredit: bool)

  /** The reference e-mails kept by the wizard: each one given and
      non-empty, first reference before second. */
  function ProvidedReferences(first: Option<string>, second: Option<string>): (refs: seq<string>)
    ensures |refs| == (if Provided(first) then 1 else 0) + (if Provided(second) then 1 else 0)
    ensures forall i :: 0 <= i < |refs| ==> refs[i] != ""
    ensures forall e :: e in refs <==> (Provided(first) && e == first.value) || (Provided(second) && e == second.value)
    ensures Provided(first) ==> refs[0] == first.value
    ensures Provided(second) ==> refs[|refs| - 1] == second.value
  {
    (if Provided(first) then [first.value] else []) + (if Provided(second) then [second.value] else [])
  }

  /** The `references` list of `complete_profile`, built by appending. */
  method CollectReferences(first: Option<string>, second: Option<string>) returns (refs: seq<string>)
    ensures refs == ProvidedReferences(first, second)
  {
    refs := [];
    if Provided(first) {
      refs := refs + [first.value];
    }
    if Provided(second) {
      refs := refs + [second.value];
    }
  }

  /** The `documents` object of `complete_profile`: both document URLs, and
      the `references` key only when some reference is kept. */
  function CompletedDocuments(idUrl: string, incomeUrl: string, refs: seq<string>): (d: map<string, DocValue>)
    ensures d.Keys == {DocIdDocument, DocProofOfIncome} + (if refs == [] then {} else {DocReferences})
    ensures d[DocIdDocument] == Text(idUrl) && d[DocProofOfIncome] == Text(incomeUrl)
    ensures DocReferences in d ==> d[DocReferences] == References(refs)
  {
    var base := map[DocIdDocument := Text(idUrl), DocProofOfIncome := Text(incomeUrl)];
    if refs == [] then base else base[DocReferences := References(refs)]
  }

  /** The tenant row `complete_profile` writes over `t`. */
  function CompletedRow(t: TenantRow, data: CompleteProfileData, now: Timestamp): TenantRow
  {
    var refs := ProvidedReferences(data.reference1Email, data.reference2Email);
    t.(budget := Some(data.budget), preferredLocation := Some(data.preferredLocation),
       preferences := Some(Preferences(Some(data.bedrooms), data.moveInDate, data.joinRentCredit)),
       documents := Docs(CompletedDocuments(data.idDocumentUrl, data.proofOfIncomeUrl, refs)),
       profileCompletion := FullCompletion, onboardingCompleted := true, profileCompletedAt := Some(now))
  }

  /** A completed row scores 100 and may apply, whatever documents were
      uploaded; its documents step holds exactly when both URLs are non-empty. */
  lemma CompletedRowScoresFull(t: TenantRow, data: CompleteProfileData, now: Timestamp)
    ensures Completion(CompletedRow(t, data, now)) == 100 == CompletedRow(t, data, now).profileCompletion
    ensures CanApply(CompletedRow(t, data, now))
    ensures HasDocuments(CompletedRow(t, data, now)) <==> data.idDocumentUrl != "" && data.proofOfIncomeUrl != ""
    ensures HasPreferences(CompletedRow(t, data, now)) <==> data.budget != 0 && data.preferredLocation != ""
  {
  }

  /** What `complete_profile` returns. */
  datatype ProfileCompleted = ProfileCompleted(profile: TenantRow, trustScore: int)

  /** `complete_profile`: overwrites the wizard's fields, marks onboarding
      complete with score 100, then sets the user's trust score to 70 (80
      with the rent-credit programme) and verification to `approved`. */
  method CompleteProfile(db: Database, caller: CurrentUser, data: CompleteProfileData, now: Timestamp)
    returns (r: Result<ProfileCompleted>)
    requires db.Valid()
    modifies db`tenants, db`users
    ensures db.Valid()
    ensures r.Err? ==> db.tenants == old(db.tenants) && db.users == old(db.users)
    ensures caller.row.userType != Tenant ==> r == Err(TenantsOnly)
    ensures caller.row.userType == Tenant && caller.id !in old(db.tenants) ==> r == Err(CompleteFailed)
    ensures r.Ok? <==> caller.row.userType == Tenant && caller.id in old(db.tenants)
    ensures r.Ok? ==>
              r.value.profile == CompletedRow(old(db.tenants)[caller.id], data, now)
              && r.value.profile.profileCompletion == 100 && r.value.profile.onboardingCompleted
              && db.tenants == old(db.tenants)[caller.id := r.value.profile]
              && r.value.trustScore == CompletionTrustScore(data.joinRentCredit)
              && (caller.id in old(db.users) ==>
                    db.users == old(db.users)[caller.id := old(db.users)[caller.id].(
                      trustScore := r.value.trustScore, verificationStatus := VerificationStatus.Approved)])
              && (caller.id !in old(db.users) ==> db.users == old(db.users))
  {
    var gate := RequireTenant(caller);
    if gate.Err? {
      return Err(gate.error);
    }
    var refs := CollectReferences(data.reference1Email, data.reference2Email);
    var documents := CompletedDocuments(data.idDocumentUrl, data.proofOfIncomeUrl, refs);
    var preferences := Preferences(Some(data.bedrooms), data.moveInDate, data.joinRentCredit);
    if caller.id !in db.tenants {
      return Err(CompleteFailed);
    }
    var completed := db.tenants[caller.id].(
      budget := Some(data.budget), preferredLocation := Some(data.preferredLocation),
      preferences := Some(preferences), documents := Docs(documents),
      profileCompletion := FullCompletion, onboardingCompleted := true, profileCompletedAt := Some(now));
    TenantWriteKeepsConsistent(db.tenants, db.properties, db.applications, db.transactions, db.favorites,
                               db.nextId, caller.id, completed);
    db.tenants := db.tenants[caller.id := completed];
    var trust := CompletionTrustScore(data.joinRentCredit);
    if caller.id in db.users {
      db.users := db.users[caller.id := db.users[caller.id].(trustScore := trust, verificationStatus := VerificationStatus.Approved)];
    }
    r := Ok(ProfileCompleted(completed, trust));
  }
}
