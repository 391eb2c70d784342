/** The pure part of the tenant routes (app/routes/tenants.py): the stored
    tenant row, the three-step profile-completion score, the list of fields
    still missing, and the trust score granted on completing the profile. */
module TenantProfile {
  import opened Common
  import UserModels

  /** A value stored under a key of the `documents` JSON object. */
  datatype DocValue = Text(text: string) | References(emails: seq<string>)

  /** The `documents` column: a JSON object, or something else (null, a list…)
      that is not a dict. An absent key reads as an empty object. */
  datatype Documents = Docs(entries: map<string, DocValue>) | NotADict

  /** The `preferences` JSON object, narrowed to the keys the wizard writes. */
  datatype Preferences = Preferences(bedrooms: Option<int>, moveInDate: Option<string>, joinRentCredit: bool)

  /** A `tenants` row. `budget` is in whole naira. */
  datatype TenantRow = TenantRow(
    budget: Option<int>,
    preferredLocation: Option<string>,
    moveInDate: Option<string>,
    preferences: Option<Preferences>,
    documents: Documents,
    profileCompletion: int,
    onboardingCompleted: bool,
    profileCompletedAt: Option<Timestamp>)

  /** The row inserted at registration. */
  const EmptyTenant: TenantRow := TenantRow(None, None, None, None, Docs(map[]), 0, false, None)

  const DocIdDocument: string := "id_document"
  const DocProofOfIncome: string := "proof_of_income"
  const DocReferences: string := "references"

  /** Python truthiness of a JSON value. */
  predicate DocTruthy(v: DocValue)
  {
    match v
    case Text(t) => t != ""
    case References(e) => e != []
  }

  /** `documents.get(key)` is truthy (only meaningful for a dict). */
  predicate HasDoc(entries: map<string, DocValue>, key: string)
  {
    key in entries && DocTruthy(entries[key])
  }

  /** `tenant_data.get("budget")` is truthy: present and non-zero. */
  predicate HasBudget(t: TenantRow) { t.budget.Some? && t.budget.value != 0 }

  /** `tenant_data.get("preferred_location")` is truthy. */
  predicate HasLocation(t: TenantRow) { Provided(t.preferredLocation) }

  /** Step 1 of the wizard: preferences. */
  predicate HasPreferences(t: TenantRow) { HasBudget(t) && HasLocation(t) }

  /** `documents.get(key)` is truthy on a dict `documents`; never on a non-dict. */
  predicate HasDocument(t: TenantRow, key: string)
  {
    t.documents.Docs? && HasDoc(t.documents.entries, key)
  }

  /** Step 2 of the wizard: both identity and income documents. */
  predicate HasDocuments(t: TenantRow)
  {
    HasDocument(t, DocIdDocument) && HasDocument(t, DocProofOfIncome)
  }

  const PreferencesThreshold: int := 33
  const DocumentsThreshold: int := 67
  const FullCompletion: int := 100

  /** `calculate_profile_completion`: each satisfied step overwrites the
      score, so the last satisfied step of the three decides it. */
  function Completion(t: TenantRow): (r: int)
    ensures r == 0 || r == 33 || r == 67 || r == 100
    ensures r == 100 <==> t.onboardingCompleted
    ensures r == 67 <==> !t.onboardingCompleted && HasDocuments(t)
    ensures r == 33 <==> !t.onboardingCompleted && !HasDocuments(t) && HasPreferences(t)
    ensures r == 0 <==> !t.onboardingCompleted && !HasDocuments(t) && !HasPreferences(t)
  {
    var afterPreferences := if HasPreferences(t) then PreferencesThreshold else 0;
    var afterDocuments := if HasDocuments(t) then DocumentsThreshold else afterPreferences;
    if t.onboardingCompleted then FullCompletion else afterDocuments
  }

  /** The gate used before applying: `completion >= 100`. */
  predicate CanApply(t: TenantRow) { Completion(t) >= FullCompletion }

  /** A tenant may apply exactly when onboarding has been completed; the
      preference and document fields play no part in the gate. */
  lemma CanApplyIffOnboarded(t: TenantRow)
    ensures CanApply(t) <==> t.onboardingCompleted
    ensures CanApply(t) <==> Completion(t) == 100
  {
  }

  /** The score is monotone in the checklist: with at least the steps of `t`
      satisfied, `u` scores at least as much. */
  lemma CompletionMonotone(t: TenantRow, u: TenantRow)
    requires HasPreferences(t) ==> HasPreferences(u)
    requires HasDocuments(t) ==> HasDocuments(u)
    requires t.onboardingCompleted ==> u.onboardingCompleted
    ensures Completion(t) <= Completion(u)
  {
  }

  /** The row created at registration scores 0; a row with every step done scores 100. */
  lemma CompletionExtremes(t: TenantRow)
    ensures Completion(EmptyTenant) == 0
    ensures t.onboardingCompleted ==> Completion(t) == 100
    ensures !t.onboardingCompleted && HasDocuments(t) && !HasPreferences(t) ==> Completion(t) == 67
  {
  }

  /** The fields `get_profile_status` reports on, in report order. */
  const Checklist: seq<string> := ["budget", "preferred_location", DocIdDocument, DocProofOfIncome]

  /** Whether the checklist field `f` counts as filled in. */
  predicate FieldFilled(t: TenantRow, f: string)
  {
    if f == "budget" then HasBudget(t)
    else if f == "preferred_location" then HasLocation(t)
    else HasDocument(t, f)
  }

  /** The fields of `fields` that are not filled in, in their order. */
  function Outstanding(t: TenantRow, fields: seq<string>): seq<string>
  {
    if fields == [] then []
    else (if FieldFilled(t, fields[0]) then [] else [fields[0]]) + Outstanding(t, fields[1..])
  }

  /** Membership in the outstanding list: exactly the unfilled fields. */
  lemma {:induction false} OutstandingMembers(t: TenantRow, fields: seq<string>, f: string)
    ensures f in Outstanding(t, fields) <==> f in fields && !FieldFilled(t, f)
  {
    if fields != [] {
      OutstandingMembers(t, fields[1..], f);
      assert fields == [fields[0]] + fields[1..];
    }
  }

  /** `missing_fields`: built by appending, in checklist order, each field
      whose value is falsy; a non-dict `documents` adds both document fields. */
  method MissingFields(t: TenantRow) returns (missing: seq<string>)
    ensures missing == Outstanding(t, Checklist)
  {
    missing := [];
    if !HasBudget(t) {
      missing := missing + ["budget"];
    }
    if !HasLocation(t) {
      missing := missing + ["preferred_location"];
    }
    if t.documents.Docs? {
      if !HasDoc(t.documents.entries, DocIdDocument) {
        missing := missing + [DocIdDocument];
      }
      if !HasDoc(t.documents.entries, DocProofOfIncome) {
        missing := missing + [DocProofOfIncome];
      }
    } else {
      missing := missing + [DocIdDocument, DocProofOfIncome];
    }
    OutstandingChecklist(t);
  }

  /** The outstanding checklist, one field at a time. */
  lemma OutstandingChecklist(t: TenantRow)
    ensures Outstanding(t, Checklist) ==
      (if HasBudget(t) then [] else ["budget"])
      + (if HasLocation(t) then [] else ["preferred_location"])
      + (if HasDocument(t, DocIdDocument) then [] else [DocIdDocument])
      + (if HasDocument(t, DocProofOfIncome) then [] else [DocProofOfIncome])
  {
    var c := Checklist;
    assert c[1..] == ["preferred_location", DocIdDocument, DocProofOfIncome];
    assert c[1..][1..] == [DocIdDocument, DocProofOfIncome];
    assert c[1..][1..][1..] == [DocProofOfIncome];
    assert c[1..][1..][1..][1..] == [];
    assert DocIdDocument != "budget" && DocIdDocument != "preferred_location";
    assert DocProofOfIncome != "budget" && DocProofOfIncome != "preferred_location";
    assert FieldFilled(t, DocIdDocument) == HasDocument(t, DocIdDocument);
    assert FieldFilled(t, DocProofOfIncome) == HasDocument(t, DocProofOfIncome);
    assert Outstanding(t, c[1..][1..][1..][1..]) == [];
    assert Outstanding(t, c[1..][1..][1..]) == (if HasDocument(t, DocProofOfIncome) then [] else [DocProofOfIncome]);
    assert Outstanding(t, c[1..][1..]) == (if HasDocument(t, DocIdDocument) then [] else [DocIdDocument])
      + (if HasDocument(t, DocProofOfIncome) then [] else [DocProofOfIncome]);
  }

  /** Nothing is missing exactly when the first two steps are both satisfied;
      a tenant with nothing missing scores at least 67. */
  lemma NothingMissingIff(t: TenantRow)
    ensures Outstanding(t, Checklist) == [] <==> HasPreferences(t) && HasDocuments(t)
    ensures Outstanding(t, Checklist) == [] ==> Completion(t) >= 67
  {
    OutstandingMembers(t, Checklist, "budget");
    OutstandingMembers(t, Checklist, "preferred_location");
    OutstandingMembers(t, Checklist, DocIdDocument);
    OutstandingMembers(t, Checklist, DocProofOfIncome);
    OutstandingChecklist(t);
  }

  /** With `documents` not a dict, both document fields are reported missing. */
  lemma NonDictDocumentsMissing(t: TenantRow)
    requires t.documents.NotADict?
    ensures DocIdDocument in Outstanding(t, Checklist) && DocProofOfIncome in Outstanding(t, Checklist)
    ensures Completion(t) <= 33 || t.onboardingCompleted
  {
    OutstandingMembers(t, Checklist, DocIdDocument);
    OutstandingMembers(t, Checklist, DocProofOfIncome);
  }

  /** The trust score grants on completing the profile. */
  const ProfileCompletionBonus: int := 20
  const RentCreditBonus: int := 10

  /** The trust score written by `complete_profile`: 70, or 80 for a tenant
      joining the rent-credit programme, whatever the score was before. */
  function CompletionTrustScore(joinRentCredit: bool): (score: int)
    ensures score == UserModels.BaseTrustScore + ProfileCompletionBonus
                     + (if joinRentCredit then RentCreditBonus else 0)
    ensures score == 70 || score == 80
  {
    var score := 70;
    if joinRentCredit then score + 10 else score
  }
}
