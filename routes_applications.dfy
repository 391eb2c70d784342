/** The rental application lifecycle (app/routes/applications.py): a tenant
    with a complete profile applies once per property, which opens a mock
    escrow hold for a month's rent; the owning landlord then approves
    (escrow released, property rented) or rejects (escrow refunded). */
module Applications {
  import opened Common
  import opened UserModels
  import opened PropertyModels
  import opened TenantProfile
  import opened Store
  import opened AuthGuard

  /** The body of `POST /applications/`. */
  datatype ApplicationCreate = ApplicationCreate(
    propertyId: Id,
    message: Option<string>,
    proposedMoveInDate: Option<string>)

  /** The body of `PATCH /applications/{id}/reject`. */
  datatype ApplicationReject = ApplicationReject(reason: string, reasonCode: string)

  /** What a successful submission returns: the two inserted rows and their ids. */
  datatype Submission = Submission(
    applicationId: Id,
    application: ApplicationRow,
    transactionId: Id,
    transaction: TransactionRow)

  const ProfileIncomplete: Error :=
    Error(Forbidden, "You must complete your profile (100%) before applying for properties")
  const PropertyNotFound: Error := Error(NotFound, "Property not found")
  const AlreadyApplied: Error := Error(BadRequest, "You have already applied for this property")
  const ApplicationNotFound: Error := Error(NotFound, "Application not found")
  const CannotApprove: Error := Error(Forbidden, "You don't have permission to approve this application")
  const CannotReject: Error := Error(Forbidden, "You don't have permission to reject this application")
  const InvalidUserType: Error := Error(Forbidden, "Invalid user type")

  /** The 400 raised for an application that has already been decided. */
  function AlreadyDecided(s: ApplicationStatus): Error
  {
    Error(BadRequest, "Application is already " + ApplicationStatusName(s))
  }

  const EscrowCurrency: string := "NGN"
  const EscrowGateway: string := "paystack"
  const EscrowType: string := "rent_payment"
  const EscrowNote: string := "Mock escrow - payment held pending approval"

  /** The gate on the stored `profile_completion`: the tenant row exists and
      the stored score is at least 100. */
  predicate PassesCompletionGate(tenants: map<Id, TenantRow>, tenantId: Id)
  {
    tenantId in tenants && tenants[tenantId].profileCompletion >= FullCompletion
  }

  /** With stored scores kept current, the gate on the stored score is the
      gate on the fields: the tenant has completed onboarding. */
  lemma GateMeansOnboarded(tenants: map<Id, TenantRow>, tenantId: Id)
    requires CompletionsCurrent(tenants)
    ensures PassesCompletionGate(tenants, tenantId) <==>
              tenantId in tenants && tenants[tenantId].onboardingCompleted
  {
    if tenantId in tenants {
      CanApplyIffOnboarded(tenants[tenantId]);
    }
  }

  /** Some application, in any state, exists for the pair. */
  predicate HasApplied(apps: map<Id, ApplicationRow>, tenantId: Id, propertyId: Id)
  {
    exists a | a in apps :: apps[a].tenantId == tenantId && apps[a].propertyId == propertyId
  }

  /** The `applications` row a submission inserts. */
  function NewApplication(tenantId: Id, req: ApplicationCreate): ApplicationRow
  {
    ApplicationRow(tenantId, req.propertyId, Submitted, req.message, req.proposedMoveInDate,
                   map[], None, None, None, None)
  }

  /** The `transactions` row a submission inserts for a property row `p`. */
  function NewEscrowHold(applicationId: Id, tenantId: Id, propertyId: Id, p: PropertyRow,
                         now: Timestamp): TransactionRow
  {
    TransactionRow(applicationId, tenantId, p.landlordId, propertyId, p.listing.rentAmount,
                   EscrowCurrency, Held, EscrowGateway, EscrowType, now, None, None, EscrowNote)
  }

  /** `create_application`. The checks run in the source's order: role,
      completion gate, property existence, duplicate; any failure writes
      nothing. A success inserts the application and its escrow hold and
      raises the property's `application_count` by one. */
  method CreateApplication(db: Database, caller: CurrentUser, req: ApplicationCreate, now: Timestamp)
    returns (r: Result<Submission>)
    requires db.Valid()
    modifies db`applications, db`transactions, db`properties, db`nextId
    ensures db.Valid()
    ensures r.Err? ==> db.applications == old(db.applications) && db.transactions == old(db.transactions)
                       && db.properties == old(db.properties)
    ensures caller.row.userType != Tenant ==> r == Err(TenantsOnly)
    ensures caller.row.userType == Tenant && !PassesCompletionGate(old(db.tenants), caller.id) ==>
              r == Err(ProfileIncomplete)
    ensures (caller.row.userType == Tenant && PassesCompletionGate(old(db.tenants), caller.id)
             && req.propertyId !in old(db.properties)) ==> r == Err(PropertyNotFound)
    ensures (caller.row.userType == Tenant && PassesCompletionGate(old(db.tenants), caller.id)
             && req.propertyId in old(db.properties)
             && HasApplied(old(db.applications), caller.id, req.propertyId)) ==> r == Err(AlreadyApplied)
    ensures r.Ok? <==> caller.row.userType == Tenant && PassesCompletionGate(old(db.tenants), caller.id)
                       && req.propertyId in old(db.properties)
                       && !HasApplied(old(db.applications), caller.id, req.propertyId)
    ensures r.Ok? ==>
              var s := r.value;
              var p := old(db.properties)[req.propertyId];
              s.applicationId !in old(db.applications) && s.transactionId !in old(db.transactions)
              && s.application == NewApplication(caller.id, req)
              && s.application.status == Submitted && s.application.documents == map[]
              && s.transaction == NewEscrowHold(s.applicationId, caller.id, req.propertyId, p, now)
              && s.transaction.status == Held && s.transaction.amount == p.listing.rentAmount
              && s.transaction.landlordId == p.landlordId
              && db.applications == old(db.applications)[s.applicationId := s.application]
              && db.transactions == old(db.transactions)[s.transactionId := s.transaction]
              && db.properties == old(db.properties)[req.propertyId := p.(applicationCount := p.applicationCount + 1)]
  {
    var gate := RequireTenant(caller);
    if gate.Err? {
      return Err(gate.error);
    }
    if !PassesCompletionGate(db.tenants, caller.id) {
      return Err(ProfileIncomplete);
    }
    if req.propertyId !in db.properties {
      return Err(PropertyNotFound);
    }
    if HasApplied(db.applications, caller.id, req.propertyId) {
      return Err(AlreadyApplied);
    }
    var s := RecordSubmission(db, caller.id, req, now);
    CountApplication(db, req.propertyId);
    r := Ok(s);
  }

  /** The two rows of a submission that passed its checks: the application
      and its hold, under the next two fresh ids. */
  method RecordSubmission(db: Database, tenantId: Id, req: ApplicationCreate, now: Timestamp)
    returns (s: Submission)
    requires db.Valid()
    requires tenantId in db.tenants && req.propertyId in db.properties
    requires !HasApplied(db.applications, tenantId, req.propertyId)
    modifies db`applications, db`transactions, db`nextId
    ensures db.Valid()
    ensures s.applicationId !in old(db.applications) && s.transactionId !in old(db.transactions)
    ensures s.application == NewApplication(tenantId, req)
    ensures s.transaction == NewEscrowHold(s.applicationId, tenantId, req.propertyId, db.properties[req.propertyId], now)
    ensures db.applications == old(db.applications)[s.applicationId := s.application]
    ensures db.transactions == old(db.transactions)[s.transactionId := s.transaction]
  {
    var applicationId, transactionId := db.nextId, db.nextId + 1;
    var application := NewApplication(tenantId, req);
    var transaction := NewEscrowHold(applicationId, tenantId, req.propertyId, db.properties[req.propertyId], now);
    var apps1, txs1 := db.applications[applicationId := application], db.transactions[transactionId := transaction];
    SubmissionKeepsConsistent(db.tenants, db.properties, db.applications, db.transactions, db.favorites, db.nextId,
                              applicationId, application, transactionId, transaction, apps1, txs1, db.nextId + 2);
    db.applications, db.transactions, db.nextId := apps1, txs1, db.nextId + 2;
    s := Submission(applicationId, application, transactionId, transaction);
  }

  /** The property's `application_count` goes up by one. */
  method CountApplication(db: Database, propertyId: Id)
    requires db.Valid() && propertyId in db.properties
    modifies db`properties
    ensures db.Valid()
    ensures var p := old(db.properties)[propertyId];
            db.properties == old(db.properties)[propertyId := p.(applicationCount := p.applicationCount + 1)]
  {
    var p := db.properties[propertyId];
    PropertyWriteKeepsConsistent(db.tenants, db.properties, db.applications, db.transactions, db.favorites,
                                 db.nextId, propertyId, p.(applicationCount := p.applicationCount + 1));
    db.properties := db.properties[propertyId := p.(applicationCount := p.applicationCount + 1)];
  }

  /** A submission keeps the database consistent: the two rows take the
      next two fresh ids. */
  lemma SubmissionKeepsConsistent(tenants: map<Id, TenantRow>, props: map<Id, PropertyRow>,
                                  apps: map<Id, ApplicationRow>, txs: map<Id, TransactionRow>,
                                  favs: seq<FavoriteRow>, n: nat,
                                  a: Id, app: ApplicationRow, t: Id, tx: TransactionRow,
                                  apps1: map<Id, ApplicationRow>, txs1: map<Id, TransactionRow>, n1: nat)
    requires Consistent(tenants, props, apps, txs, favs, n)
    requires a == n && t == n + 1
    requires app.tenantId in tenants && app.propertyId in props
    requires !HasApplied(apps, app.tenantId, app.propertyId)
    requires tx.applicationId == a && tx.status == EscrowStatusFor(app.status)
    requires tx.tenantId == app.tenantId && tx.propertyId == app.propertyId
    requires apps1 == apps[a := app] && txs1 == txs[t := tx] && n1 == n + 2
    ensures a !in apps && t !in txs
    ensures Consistent(tenants, props, apps1, txs1, favs, n1)
  {
    SubmissionKeepsLedger(apps, txs, a, app, t, tx);
  }

  /** Adding a fresh application together with a fresh hold that mirrors it
      keeps the ledger paired and the pairs unique. */
  lemma SubmissionKeepsLedger(apps: map<Id, ApplicationRow>, txs: map<Id, TransactionRow>,
                              a: Id, app: ApplicationRow, t: Id, tx: TransactionRow)
    requires EscrowMirrors(apps, txs) && EveryApplicationHeld(apps, txs) && ApplicationsUnique(apps)
    requires a !in apps && t !in txs
    requires !HasApplied(apps, app.tenantId, app.propertyId)
    requires tx.applicationId == a && tx.status == EscrowStatusFor(app.status)
    requires tx.tenantId == app.tenantId && tx.propertyId == app.propertyId
    ensures EscrowMirrors(apps[a := app], txs[t := tx])
    ensures EveryApplicationHeld(apps[a := app], txs[t := tx])
    ensures ApplicationsUnique(apps[a := app])
  {
    var apps', txs' := apps[a := app], txs[t := tx];
    forall b | b in apps'
      ensures exists u :: u in txs' && txs'[u].applicationId == b
    {
      if b == a {
        assert txs'[t].applicationId == b;
      } else {
        var u :| u in txs && txs[u].applicationId == b;
        assert txs'[u].applicationId == b;
      }
    }
  }

  /** The listing of `get_applications`: a tenant's own applications, or the
      applications on a landlord's own properties; any other role is refused. */
  function ListApplications(db: Database, caller: CurrentUser): (r: Result<map<Id, ApplicationRow>>)
    reads db
    ensures r.Err? <==> caller.row.userType == Admin
    ensures r.Err? ==> r.error == InvalidUserType
    ensures r.Ok? ==> forall a :: a in r.value ==> a in db.applications && r.value[a] == db.applications[a]
    ensures r.Ok? && caller.row.userType == Tenant ==>
              forall a :: a in db.applications ==> (a in r.value <==> db.applications[a].tenantId == caller.id)
    ensures r.Ok? && caller.row.userType == Landlord ==>
              forall a :: a in db.applications ==>
                (a in r.value <==> OwnsProperty(db.properties, db.applications[a].propertyId, caller.id))
  {
    match caller.row.userType
    case Tenant =>
      Ok(map a | a in db.applications && db.applications[a].tenantId == caller.id :: db.applications[a])
    case Landlord =>
      Ok(map a | a in db.applications && OwnsProperty(db.properties, db.applications[a].propertyId, caller.id)
               :: db.applications[a])
    case Admin => Err(InvalidUserType)
  }

  /** The escrow ledger after `approve_application`: every transaction of
      the application is released and stamped; nothing else changes. */
  function ReleaseEscrow(txs: map<Id, TransactionRow>, applicationId: Id, now: Timestamp)
    : (r: map<Id, TransactionRow>)
    ensures r.Keys == txs.Keys
    ensures forall t :: t in txs && txs[t].applicationId != applicationId ==> r[t] == txs[t]
    ensures forall t :: t in txs && txs[t].applicationId == applicationId ==>
              r[t].status == Released && r[t].releasedAt == Some(now)
              && r[t].(status := txs[t].status, releasedAt := txs[t].releasedAt) == txs[t]
  {
    map t | t in txs :: if txs[t].applicationId == applicationId
                        then txs[t].(status := Released, releasedAt := Some(now)) else txs[t]
  }

  /** The escrow ledger after `reject_application`: every transaction of
      the application is refunded and stamped; nothing else changes. */
  function RefundEscrow(txs: map<Id, TransactionRow>, applicationId: Id, now: Timestamp)
    : (r: map<Id, TransactionRow>)
    ensures r.Keys == txs.Keys
    ensures forall t :: t in txs && txs[t].applicationId != applicationId ==> r[t] == txs[t]
    ensures forall t :: t in txs && txs[t].applicationId == applicationId ==>
              r[t].status == Refunded && r[t].refundedAt == Some(now)
              && r[t].(status := txs[t].status, refundedAt := txs[t].refundedAt) == txs[t]
  {
    map t | t in txs :: if txs[t].applicationId == applicationId
                        then txs[t].(status := Refunded, refundedAt := Some(now)) else txs[t]
  }

  /** Deciding an application and moving its transactions to the matching
      escrow state keeps the ledger paired. */
  lemma DecisionKeepsLedger(apps: map<Id, ApplicationRow>, txs: map<Id, TransactionRow>,
                            a: Id, decided: ApplicationRow, txs': map<Id, TransactionRow>)
    requires EscrowMirrors(apps, txs) && EveryApplicationHeld(apps, txs) && ApplicationsUnique(apps)
    requires a in apps
    requires decided.tenantId == apps[a].tenantId && decided.propertyId == apps[a].propertyId
    requires txs'.Keys == txs.Keys
    requires forall t :: t in txs ==>
               (txs'[t].applicationId == txs[t].applicationId
                && txs'[t].tenantId == txs[t].tenantId && txs'[t].propertyId == txs[t].propertyId)
    requires forall t :: t in txs ==>
               txs'[t].status == (if txs[t].applicationId == a then EscrowStatusFor(decided.status) else txs[t].status)
    ensures EscrowMirrors(apps[a := decided], txs')
    ensures EveryApplicationHeld(apps[a := decided], txs')
    ensures ApplicationsUnique(apps[a := decided])
  {
    var apps' := apps[a := decided];
    forall t | t in txs'
      ensures var b := txs'[t].applicationId;
              b in apps' && txs'[t].status == EscrowStatusFor(apps'[b].status)
              && txs'[t].tenantId == apps'[b].tenantId && txs'[t].propertyId == apps'[b].propertyId
    {
      assert t in txs;
    }
    forall b | b in apps'
      ensures exists u :: u in txs' && txs'[u].applicationId == b
    {
      var u :| u in txs && txs[u].applicationId == b;
      assert txs'[u].applicationId == b;
    }
    forall b, c | b in apps' && c in apps' && b != c
      ensures apps'[b].tenantId != apps'[c].tenantId || apps'[b].propertyId != apps'[c].propertyId
    {
      assert apps'[b].tenantId == apps[b].tenantId && apps'[b].propertyId == apps[b].propertyId;
      assert apps'[c].tenantId == apps[c].tenantId && apps'[c].propertyId == apps[c].propertyId;
    }
  }

  /** Deciding an application, with its transactions moved to the matching
      escrow state, keeps the database consistent. */
  lemma DecisionKeepsConsistent(tenants: map<Id, TenantRow>, props: map<Id, PropertyRow>,
                                apps: map<Id, ApplicationRow>, txs: map<Id, TransactionRow>,
                                favs: seq<FavoriteRow>, n: nat, a: Id, decided: ApplicationRow,
                                apps': map<Id, ApplicationRow>, txs': map<Id, TransactionRow>)
    requires Consistent(tenants, props, apps, txs, favs, n)
    requires a in apps && apps' == apps[a := decided]
    requires decided.tenantId == apps[a].tenantId && decided.propertyId == apps[a].propertyId
    requires txs'.Keys == txs.Keys
    requires forall t :: t in txs ==>
               (txs'[t].applicationId == txs[t].applicationId
                && txs'[t].tenantId == txs[t].tenantId && txs'[t].propertyId == txs[t].propertyId)
    requires forall t :: t in txs ==>
               txs'[t].status == (if txs[t].applicationId == a then EscrowStatusFor(decided.status) else txs[t].status)
    ensures Consistent(tenants, props, apps', txs', favs, n)
  {
    DecisionKeepsLedger(apps, txs, a, decided, txs');
  }

  /** Approving keeps the database consistent. */
  lemma ApprovalKeepsConsistent(tenants: map<Id, TenantRow>, props: map<Id, PropertyRow>,
                                apps: map<Id, ApplicationRow>, txs: map<Id, TransactionRow>,
                                favs: seq<FavoriteRow>, n: nat, a: Id, decided: ApplicationRow, now: Timestamp,
                                props': map<Id, PropertyRow>, apps': map<Id, ApplicationRow>,
                                txs': map<Id, TransactionRow>)
    requires Consistent(tenants, props, apps, txs, favs, n)
    requires a in apps && apps[a].propertyId in props && decided.status == ApplicationStatus.Approved
    requires decided.tenantId == apps[a].tenantId && decided.propertyId == apps[a].propertyId
    requires apps' == apps[a := decided] && txs' == ReleaseEscrow(txs, a, now)
    requires var p := props[apps[a].propertyId];
             props' == props[apps[a].propertyId := p.(listing := p.listing.(status := Rented))]
    ensures Consistent(tenants, props', apps', txs', favs, n)
  {
    var pid := apps[a].propertyId;
    PropertyWriteKeepsConsistent(tenants, props, apps, txs, favs, n, pid,
                                 props[pid].(listing := props[pid].listing.(status := Rented)));
    ReleaseMovesEscrow(txs, a, now, decided);
    DecisionKeepsConsistent(tenants, props', apps, txs, favs, n, a, decided, apps', txs');
  }

  /** Releasing moves exactly the application's transactions to `Released`. */
  lemma ReleaseMovesEscrow(txs: map<Id, TransactionRow>, a: Id, now: Timestamp, decided: ApplicationRow)
    requires decided.status == ApplicationStatus.Approved
    ensures var txs' := ReleaseEscrow(txs, a, now);
            forall t :: t in txs ==>
              txs'[t].applicationId == txs[t].applicationId
              && txs'[t].tenantId == txs[t].tenantId && txs'[t].propertyId == txs[t].propertyId
              && txs'[t].status == (if txs[t].applicationId == a then EscrowStatusFor(decided.status) else txs[t].status)
  {
  }

  /** Refunding moves exactly the application's transactions to `Refunded`. */
  lemma RefundMovesEscrow(txs: map<Id, TransactionRow>, a: Id, now: Timestamp, decided: ApplicationRow)
    requires decided.status == ApplicationStatus.Rejected
    ensures var txs' := RefundEscrow(txs, a, now);
            forall t :: t in txs ==>
              txs'[t].applicationId == txs[t].applicationId
              && txs'[t].tenantId == txs[t].tenantId && txs'[t].propertyId == txs[t].propertyId
              && txs'[t].status == (if txs[t].applicationId == a then EscrowStatusFor(decided.status) else txs[t].status)
  {
  }

  /** Rejecting keeps the database consistent. */
  lemma RejectionKeepsConsistent(tenants: map<Id, TenantRow>, props: map<Id, PropertyRow>,
                                 apps: map<Id, ApplicationRow>, txs: map<Id, TransactionRow>,
                                 favs: seq<FavoriteRow>, n: nat, a: Id, decided: ApplicationRow, now: Timestamp,
                                 apps': map<Id, ApplicationRow>, txs': map<Id, TransactionRow>)
    requires Consistent(tenants, props, apps, txs, favs, n)
    requires a in apps && decided.status == ApplicationStatus.Rejected
    requires decided.tenantId == apps[a].tenantId && decided.propertyId == apps[a].propertyId
    requires apps' == apps[a := decided] && txs' == RefundEscrow(txs, a, now)
    ensures Consistent(tenants, props, apps', txs', favs, n)
  {
    RefundMovesEscrow(txs, a, now, decided);
    DecisionKeepsConsistent(tenants, props, apps, txs, favs, n, a, decided, apps', txs');
  }

  /** `approve_application`. Checks in order: role, application exists,
      caller owns its property, application still undecided. A success
      approves it with the reviewer stamped, releases its escrow and marks
      the property rented. */
  method ApproveApplication(db: Database, caller: CurrentUser, applicationId: Id, now: Timestamp)
    returns (r: Result<()>)
    requires db.Valid()
    modifies db`applications, db`transactions, db`properties
    ensures db.Valid()
    ensures r.Err? ==> db.applications == old(db.applications) && db.transactions == old(db.transactions)
                       && db.properties == old(db.properties)
    ensures caller.row.userType != Landlord ==> r == Err(LandlordsOnly)
    ensures caller.row.userType == Landlord && applicationId !in old(db.applications) ==>
              r == Err(ApplicationNotFound)
    ensures caller.row.userType == Landlord && applicationId in old(db.applications)
            && !OwnsProperty(old(db.properties), old(db.applications)[applicationId].propertyId, caller.id) ==>
              r == Err(CannotApprove)
    ensures caller.row.userType == Landlord && applicationId in old(db.applications)
            && OwnsProperty(old(db.properties), old(db.applications)[applicationId].propertyId, caller.id)
            && !Reviewable(old(db.applications)[applicationId].status) ==>
              r == Err(AlreadyDecided(old(db.applications)[applicationId].status))
    ensures r.Ok? <==> caller.row.userType == Landlord && applicationId in old(db.applications)
                       && OwnsProperty(old(db.properties), old(db.applications)[applicationId].propertyId, caller.id)
                       && Reviewable(old(db.applications)[applicationId].status)
    ensures r.Ok? ==>
              var a := old(db.applications)[applicationId];
              var p := old(db.properties)[a.propertyId];
              db.applications == old(db.applications)[applicationId :=
                a.(status := ApplicationStatus.Approved, reviewedAt := Some(now), reviewedBy := Some(caller.id))]
              && db.transactions == ReleaseEscrow(old(db.transactions), applicationId, now)
              && db.properties == old(db.properties)[a.propertyId := p.(listing := p.listing.(status := Rented))]
  {
    var gate := RequireLandlord(caller);
    if gate.Err? {
      return Err(gate.error);
    }
    if applicationId !in db.applications {
      return Err(ApplicationNotFound);
    }
    var a := db.applications[applicationId];
    if !OwnsProperty(db.properties, a.propertyId, caller.id) {
      return Err(CannotApprove);
    }
    if !Reviewable(a.status) {
      return Err(AlreadyDecided(a.status));
    }
    RecordApproval(db, applicationId, caller.id, now);
    r := Ok(());
  }

  /** The three writes of a successful approval. */
  method RecordApproval(db: Database, applicationId: Id, reviewer: Id, now: Timestamp)
    requires db.Valid()
    requires applicationId in db.applications && db.applications[applicationId].propertyId in db.properties
    modifies db`applications, db`transactions, db`properties
    ensures db.Valid()
    ensures var a := old(db.applications)[applicationId];
            var p := old(db.properties)[a.propertyId];
            db.applications == old(db.applications)[applicationId :=
              a.(status := ApplicationStatus.Approved, reviewedAt := Some(now), reviewedBy := Some(reviewer))]
            && db.transactions == ReleaseEscrow(old(db.transactions), applicationId, now)
            && db.properties == old(db.properties)[a.propertyId := p.(listing := p.listing.(status := Rented))]
  {
    var a := db.applications[applicationId];
    var decided := a.(status := ApplicationStatus.Approved, reviewedAt := Some(now), reviewedBy := Some(reviewer));
    ghost var props0, apps0, txs0 := db.properties, db.applications, db.transactions;
    db.applications := db.applications[applicationId := decided];
    db.transactions := ReleaseEscrow(db.transactions, applicationId, now);
    var p := db.properties[a.propertyId];
    db.properties := db.properties[a.propertyId := p.(listing := p.listing.(status := Rented))];
    ApprovalKeepsConsistent(db.tenants, props0, apps0, txs0, db.favorites, db.nextId, applicationId, decided, now,
                            db.properties, db.applications, db.transactions);
  }

  /** `reject_application`. The same checks as approval; a success rejects
      the application with the reason stored, refunds its escrow, and leaves
      the property as it is. */
  method RejectApplication(db: Database, caller: CurrentUser, applicationId: Id,
                           body: ApplicationReject, now: Timestamp)
    returns (r: Result<()>)
    requires db.Valid()
    modifies db`applications, db`transactions
    ensures db.Valid()
    ensures r.Err? ==> db.applications == old(db.applications) && db.transactions == old(db.transactions)
    ensures caller.row.userType != Landlord ==> r == Err(LandlordsOnly)
    ensures caller.row.userType == Landlord && applicationId !in old(db.applications) ==>
              r == Err(ApplicationNotFound)
    ensures caller.row.userType == Landlord && applicationId in old(db.applications)
            && !OwnsProperty(old(db.properties), old(db.applications)[applicationId].propertyId, caller.id) ==>
              r == Err(CannotReject)
    ensures caller.row.userType == Landlord && applicationId in old(db.applications)
            && OwnsProperty(old(db.properties), old(db.applications)[applicationId].propertyId, caller.id)
            && !Reviewable(old(db.applications)[applicationId].status) ==>
              r == Err(AlreadyDecided(old(db.applications)[applicationId].status))
    ensures r.Ok? <==> caller.row.userType == Landlord && applicationId in old(db.applications)
                       && OwnsProperty(old(db.properties), old(db.applications)[applicationId].propertyId, caller.id)
                       && Reviewable(old(db.applications)[applicationId].status)
    ensures r.Ok? ==>
              var a := old(db.applications)[applicationId];
              db.applications == old(db.applications)[applicationId :=
                a.(status := ApplicationStatus.Rejected, rejectionReason := Some(body.reason), reasonCode := Some(body.reasonCode),
                   reviewedAt := Some(now), reviewedBy := Some(caller.id))]
              && db.transactions == RefundEscrow(old(db.transactions), applicationId, now)
  {
    var gate := RequireLandlord(caller);
    if gate.Err? {
      return Err(gate.error);
    }
    if applicationId !in db.applications {
      return Err(ApplicationNotFound);
    }
    var a := db.applications[applicationId];
    if !OwnsProperty(db.properties, a.propertyId, caller.id) {
      return Err(CannotReject);
    }
    if !Reviewable(a.status) {
      return Err(AlreadyDecided(a.status));
    }
    RecordRejection(db, applicationId, caller.id, body, now);
    r := Ok(());
  }

  /** The two writes of a successful rejection. */
  method RecordRejection(db: Database, applicationId: Id, reviewer: Id, body: ApplicationReject, now: Timestamp)
    requires db.Valid() && applicationId in db.applications
    modifies db`applications, db`transactions
    ensures db.Valid()
    ensures var a := old(db.applications)[applicationId];
            db.applications == old(db.applications)[applicationId :=
              a.(status := ApplicationStatus.Rejected, rejectionReason := Some(body.reason),
                 reasonCode := Some(body.reasonCode), reviewedAt := Some(now), reviewedBy := Some(reviewer))]
            && db.transactions == RefundEscrow(old(db.transactions), applicationId, now)
  {
    var a := db.applications[applicationId];
    var decided := a.(status := ApplicationStatus.Rejected, rejectionReason := Some(body.reason),
                      reasonCode := Some(body.reasonCode), reviewedAt := Some(now), reviewedBy := Some(reviewer));
    ghost var apps0, txs0 := db.applications, db.transactions;
    db.applications := db.applications[applicationId := decided];
    db.transactions := RefundEscrow(db.transactions, applicationId, now);
    RejectionKeepsConsistent(db.tenants, db.properties, apps0, txs0, db.favorites, db.nextId, applicationId, decided,
                             now, db.applications, db.transactions);
  }

  /** A decision is final: neither decided state is reviewable, and the
      error for a second decision names the state reached. */
  lemma DecisionsAreFinal()
    ensures !Reviewable(ApplicationStatus.Approved) && !Reviewable(ApplicationStatus.Rejected)
    ensures AlreadyDecided(ApplicationStatus.Approved).detail == "Application is already approved"
    ensures AlreadyDecided(ApplicationStatus.Rejected).detail == "Application is already rejected"
  {
  }

  /** In a consistent database the escrow state of every transaction is
      determined by its application: held while undecided, released once
      approved, refunded once rejected. */
  lemma EscrowFollowsApplication(db: Database, t: Id)
    requires db.Valid() && t in db.transactions
    ensures db.transactions[t].applicationId in db.applications
    ensures var s := db.applications[db.transactions[t].applicationId].status;
            (db.transactions[t].status == Held <==> Reviewable(s))
            && (db.transactions[t].status == Released <==> s == ApplicationStatus.Approved)
            && (db.transactions[t].status == Refunded <==> s == ApplicationStatus.Rejected)
  {
  }
}
