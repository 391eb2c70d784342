/** The tables the route handlers read and write, held in memory, and the
    invariants that every handler keeps: the escrow ledger mirrors the
    application states, there is at most one application per tenant and
    property, counters never go negative, and the stored completion score
    of every tenant agrees with the tenant's fields. */
module Store {
  import opened Common
  import opened UserModels
  import opened PropertyModels
  import opened TenantProfile

  /** A `users` row. */
  datatype UserRow = UserRow(
    email: string,
    phoneNumber: Option<string>,
    fullName: string,
    userType: UserType,
    trustScore: int,
    verificationStatus: VerificationStatus,
    avatarUrl: Option<string>,
    lastLoginAt: Option<Timestamp>)

  /** A `landlords` row. */
  datatype LandlordRow = LandlordRow(guaranteeJoined: bool, guaranteeContribution: int)

  /** A `properties` row: the listing fields plus owner, fee, counters,
      verification flag and soft-delete stamp. */
  datatype PropertyRow = PropertyRow(
    landlordId: Id,
    listing: PropertyCreate,
    agencyFee: int,
    viewCount: int,
    favoriteCount: int,
    applicationCount: int,
    verified: bool,
    deletedAt: Option<Timestamp>)

  /** The states of a rental application. */
  datatype ApplicationStatus = Submitted | UnderReview | Approved | Rejected

  function ApplicationStatusName(s: ApplicationStatus): string
  {
    match s
    case Submitted => "submitted"
    case UnderReview => "under_review"
    case Approved => "approved"
    case Rejected => "rejected"
  }

  /** The states from which a landlord may still decide. */
  predicate Reviewable(s: ApplicationStatus)
  {
    s == Submitted || s == UnderReview
  }

  /** An `applications` row. */
  datatype ApplicationRow = ApplicationRow(
    tenantId: Id,
    propertyId: Id,
    status: ApplicationStatus,
    message: Option<string>,
    proposedMoveInDate: Option<string>,
    documents: map<string, string>,
    reviewedAt: Option<Timestamp>,
    reviewedBy: Option<Id>,
    rejectionReason: Option<string>,
    reasonCode: Option<string>)

  /** The states of a mock escrow transaction. */
  datatype EscrowStatus = Held | Released | Refunded

  /** A `transactions` row: the mock escrow hold paired with an application. */
  datatype TransactionRow = TransactionRow(
    applicationId: Id,
    tenantId: Id,
    landlordId: Id,
    propertyId: Id,
    amount: int,
    currency: string,
    status: EscrowStatus,
    paymentGateway: string,
    transactionType: string,
    heldAt: Timestamp,
    releasedAt: Option<Timestamp>,
    refundedAt: Option<Timestamp>,
    notes: string)

  /** A `favorites` row. */
  datatype FavoriteRow = FavoriteRow(tenantId: Id, propertyId: Id)

  /** A `messages` row. */
  datatype MessageRow = MessageRow(
    senderId: Id,
    recipientId: Id,
    content: string,
    propertyId: Option<Id>,
    applicationId: Option<Id>,
    messageType: string,
    read: bool,
    readAt: Option<Timestamp>,
    attachments: seq<string>,
    timestamp: Timestamp)

  /** The escrow state that belongs to each application state. */
  function EscrowStatusFor(s: ApplicationStatus): EscrowStatus
  {
    match s
    case Submitted => Held
    case UnderReview => Held
    case Approved => Released
    case Rejected => Refunded
  }

  /** Every transaction belongs to an existing application, for the same
      tenant and property, and its state is the one the application's
      state calls for. */
  ghost predicate EscrowMirrors(apps: map<Id, ApplicationRow>, txs: map<Id, TransactionRow>)
  {
    forall t :: t in txs ==>
      var a := txs[t].applicationId;
      a in apps && txs[t].status == EscrowStatusFor(apps[a].status)
      && txs[t].tenantId == apps[a].tenantId && txs[t].propertyId == apps[a].propertyId
  }

  /** Every application has an escrow transaction. */
  ghost predicate EveryApplicationHeld(apps: map<Id, ApplicationRow>, txs: map<Id, TransactionRow>)
  {
    forall a :: a in apps ==> exists t :: t in txs && txs[t].applicationId == a
  }

  /** At most one application per (tenant, property) pair. */
  ghost predicate ApplicationsUnique(apps: map<Id, ApplicationRow>)
  {
    forall a, b :: a in apps && b in apps && a != b ==>
      apps[a].tenantId != apps[b].tenantId || apps[a].propertyId != apps[b].propertyId
  }

  /** Applications name an existing tenant row and property row. */
  ghost predicate ApplicationsReferToRows(apps: map<Id, ApplicationRow>, tenants: map<Id, TenantRow>,
                                          props: map<Id, PropertyRow>)
  {
    forall a :: a in apps ==> apps[a].tenantId in tenants && apps[a].propertyId in props
  }

  /** The denormalised counters of every property are non-negative. */
  ghost predicate CountersNonNegative(props: map<Id, PropertyRow>)
  {
    forall p :: p in props ==>
      props[p].viewCount >= 0 && props[p].favoriteCount >= 0 && props[p].applicationCount >= 0
  }

  /** The stored `profile_completion` of every tenant is the score of its fields. */
  ghost predicate CompletionsCurrent(tenants: map<Id, TenantRow>)
  {
    forall t :: t in tenants ==> tenants[t].profileCompletion == Completion(tenants[t])
  }

  /** No (tenant, property) pair is favourited twice. */
  ghost predicate FavoritesUnique(favs: seq<FavoriteRow>)
  {
    forall i, j :: 0 <= i < j < |favs| ==> favs[i] != favs[j]
  }

  ghost predicate KeysBelow<T>(m: map<Id, T>, bound: nat)
  {
    forall k :: k in m ==> k < bound
  }

  /** `properties[propertyId].landlord_id == landlordId`, the row existing. */
  predicate OwnsProperty(props: map<Id, PropertyRow>, propertyId: Id, landlordId: Id)
  {
    propertyId in props && props[propertyId].landlordId == landlordId
  }

  /** A favourite row exists for the pair. */
  predicate Favorited(favs: seq<FavoriteRow>, tenantId: Id, propertyId: Id)
  {
    FavoriteRow(tenantId, propertyId) in favs
  }

  /** The invariants of the tables, `nextId` being the next fresh row id. */
  ghost predicate Consistent(tenants: map<Id, TenantRow>, properties: map<Id, PropertyRow>,
                             applications: map<Id, ApplicationRow>, transactions: map<Id, TransactionRow>,
                             favorites: seq<FavoriteRow>, nextId: nat)
  {
    KeysBelow(properties, nextId) && KeysBelow(applications, nextId) && KeysBelow(transactions, nextId)
    && EscrowMirrors(applications, transactions)
    && EveryApplicationHeld(applications, transactions)
    && ApplicationsUnique(applications)
    && ApplicationsReferToRows(applications, tenants, properties)
    && CountersNonNegative(properties)
    && CompletionsCurrent(tenants)
    && FavoritesUnique(favorites)
  }

  /** Writing a tenant row whose stored score is current keeps the tables
      consistent, whether the row is new or replaces one. */
  lemma TenantWriteKeepsConsistent(tenants: map<Id, TenantRow>, properties: map<Id, PropertyRow>,
                                   applications: map<Id, ApplicationRow>, transactions: map<Id, TransactionRow>,
                                   favorites: seq<FavoriteRow>, nextId: nat, id: Id, row: TenantRow)
    requires Consistent(tenants, properties, applications, transactions, favorites, nextId)
    requires row.profileCompletion == Completion(row)
    ensures Consistent(tenants[id := row], properties, applications, transactions, favorites, nextId)
  {
  }

  /** Changing a property row but not its counters keeps the tables consistent. */
  lemma PropertyWriteKeepsConsistent(tenants: map<Id, TenantRow>, properties: map<Id, PropertyRow>,
                                     applications: map<Id, ApplicationRow>, transactions: map<Id, TransactionRow>,
                                     favorites: seq<FavoriteRow>, nextId: nat, id: Id, row: PropertyRow)
    requires Consistent(tenants, properties, applications, transactions, favorites, nextId)
    requires id in properties || id < nextId
    requires row.viewCount >= 0 && row.favoriteCount >= 0 && row.applicationCount >= 0
    ensures Consistent(tenants, properties[id := row], applications, transactions, favorites, nextId)
  {
  }

  /** Raising the id bound keeps the tables consistent. */
  lemma LargerBoundKeepsConsistent(tenants: map<Id, TenantRow>, properties: map<Id, PropertyRow>,
                                   applications: map<Id, ApplicationRow>, transactions: map<Id, TransactionRow>,
                                   favorites: seq<FavoriteRow>, nextId: nat, bound: nat)
    requires Consistent(tenants, properties, applications, transactions, favorites, nextId)
    requires nextId <= bound
    ensures Consistent(tenants, properties, applications, transactions, favorites, bound)
  {
  }

  /** The database client, replaced by in-memory tables. Ids of generated
      rows come from `nextId`. Favourites and messages are kept in insertion
      order, which stands for their `created_at` / `timestamp` order. */
  class Database {
    var users: map<Id, UserRow>
    var tenants: map<Id, TenantRow>
    var landlords: map<Id, LandlordRow>
    var properties: map<Id, PropertyRow>
    var applications: map<Id, ApplicationRow>
    var transactions: map<Id, TransactionRow>
    var favorites: seq<FavoriteRow>
    var messages: seq<MessageRow>
    var nextId: nat

    ghost predicate Valid()
      reads this
    {
      Consistent(tenants, properties, applications, transactions, favorites, nextId)
    }

    constructor ()
      ensures Valid()
      ensures users == map[] && tenants == map[] && landlords == map[] && properties == map[]
      ensures applications == map[] && transactions == map[] && favorites == [] && messages == []
    {
      users, tenants, landlords, properties := map[], map[], map[], map[];
      applications, transactions, favorites, messages := map[], map[], [], [];
      nextId := 0;
    }

    /** A fresh row id for an insert. */
    method FreshId() returns (id: Id)
      modifies this`nextId
      ensures id == old(nextId) && nextId == id + 1
    {
      id := nextId;
      nextId := nextId + 1;
    }
  }
}
