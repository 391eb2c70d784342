/** Property listings (app/routes/properties.py): search pagination, the
    rows a landlord creates, the owner-only update and soft delete, and the
    detail view that counts views and reports whether the caller has
    favourited the listing. */
module PropertyRoutes {
  import opened Common
  import opened UserModels
  import opened PropertyModels
  import opened Store
  import opened AuthGuard

  const InvalidRequest: Error := Error(UnprocessableEntity, ValidationFailed)
  const PropertyNotFound: Error := Error(NotFound, "Property not found")
  const NoUpdatePermission: Error := Error(Forbidden, "You don't have permission to update this property")
  const NoDeletePermission: Error := Error(Forbidden, "You don't have permission to delete this property")

  /** The text of the error raised on indexing a missing row. */
  const MissingRow: string := "'NoneType' object is not subscriptable"

  /** The landlord summary embedded in a property response. */
  datatype LandlordInfo = LandlordInfo(
    id: Id,
    name: string,
    avatarUrl: Option<string>,
    trustScore: int,
    verified: bool,
    propertiesCount: int,
    joinedYear: int,
    guaranteeJoined: bool)

  /** A property as a handler returns it: the row, the embedded landlord
      when the join found one, and `is_favorited` when the response has it. */
  datatype PropertyView = PropertyView(id: Id, row: PropertyRow, landlord: Option<LandlordInfo>, isFavorited: Option<bool>)

  /** The landlord summary built from the joined `users` row, if any.
      `properties_count` is the constant each handler writes and the
      joined year is the current one. */
  function EmbeddedLandlord(users: map<Id, UserRow>, landlordId: Id, count: int, year: int): (r: Option<LandlordInfo>)
    ensures r.Some? <==> landlordId in users
    ensures r.Some? ==> r.value.id == landlordId && r.value.trustScore == users[landlordId].trustScore
    ensures r.Some? ==> (r.value.verified <==> users[landlordId].verificationStatus == VerificationStatus.Approved)
    ensures r.Some? ==> r.value.propertiesCount == count && !r.value.guaranteeJoined
  {
    if landlordId !in users then None
    else
      var u := users[landlordId];
      Some(LandlordInfo(landlordId, u.fullName, u.avatarUrl, u.trustScore,
                        u.verificationStatus == VerificationStatus.Approved, count, year, false))
  }

  // ---------------------------------------------------------------------
  // Search pagination

  /** The first row of a page. */
  function Offset(page: int, limit: int): (o: nat)
    requires page >= 1 && limit >= 1
  {
    (page - 1) * limit
  }

  /** The inclusive range `offset .. offset + limit - 1` of a page holds
      exactly `limit` positions, and each page starts where the previous one
      ends. */
  lemma PageRangeSpansLimit(page: int, limit: int)
    requires page >= 1 && limit >= 1
    ensures Offset(page, limit) >= 0
    ensures (Offset(page, limit) + limit - 1) - Offset(page, limit) + 1 == limit
    ensures Offset(page + 1, limit) == Offset(page, limit) + limit
    ensures Offset(1, limit) == 0
  {
  }

  /** `total_pages`: the ceiling of `total / limit`, and 1 when there are no
      results. */
  function TotalPages(total: nat, limit: int): (n: int)
    requires limit >= 1
    ensures n >= 1
  {
    if total > 0 then (total + limit - 1) / limit else 1
  }

  /** `TotalPages` is the least page count whose pages hold every result. */
  lemma TotalPagesIsCeiling(total: nat, limit: int)
    requires limit >= 1 && total > 0
    ensures (TotalPages(total, limit) - 1) * limit < total <= TotalPages(total, limit) * limit
  {
    var n := TotalPages(total, limit);
    var s := total + limit - 1;
    assert s == n * limit + s % limit;
    assert 0 <= s % limit < limit;
  }

  /** Every result lies on one of the pages 1 .. `total_pages`. */
  lemma EveryResultOnSomePage(total: nat, limit: int, i: nat)
    requires limit >= 1 && i < total
    ensures var page := i / limit + 1;
            1 <= page <= TotalPages(total, limit)
            && Offset(page, limit) <= i < Offset(page, limit) + limit
  {
    var q, r := i / limit, i % limit;
    var page := q + 1;
    assert i == q * limit + r && 0 <= r < limit;
    assert Offset(page, limit) == q * limit;
    TotalPagesIsCeiling(total, limit);
    var n := TotalPages(total, limit);
    assert q * limit < n * limit;
    MultiplyCancel(q, n, limit);
  }

  lemma MultiplyCancel(a: int, b: int, c: int)
    requires c > 0 && a * c < b * c
    ensures a < b
  {
  }

  /** The rows of a page starting at `offset`: at most `limit` of them. */
  function Window(hits: seq<Id>, offset: nat, limit: int): (w: seq<Id>)
    requires limit >= 1
    ensures |w| <= limit
    ensures forall k | 0 <= k < |w| :: offset + k < |hits| && w[k] == hits[offset + k]
    ensures offset + limit <= |hits| ==> |w| == limit
  {
    if offset >= |hits| then [] else hits[offset..if offset + limit <= |hits| then offset + limit else |hits|]
  }

  /** The paginated search response. */
  datatype Listing = Listing(properties: seq<PropertyView>, total: nat, page: int, limit: int, totalPages: int)

  /** A search result row: the property with its landlord embedded; the
      search response has no `is_favorited`. */
  function ListingView(props: map<Id, PropertyRow>, users: map<Id, UserRow>, id: Id, year: int): PropertyView
    requires id in props
  {
    PropertyView(id, props[id], EmbeddedLandlord(users, props[id].landlordId, 0, year), None)
  }

  /** The formatted rows, in the order of `ids`. */
  function ListingViews(props: map<Id, PropertyRow>, users: map<Id, UserRow>, ids: seq<Id>, year: int): (r: seq<PropertyView>)
    requires forall i | 0 <= i < |ids| :: ids[i] in props
    ensures |r| == |ids|
    ensures forall k | 0 <= k < |r| :: r[k] == ListingView(props, users, ids[k], year)
  {
    if ids == [] then []
    else ListingViews(props, users, ids[..|ids| - 1], year) + [ListingView(props, users, ids[|ids| - 1], year)]
  }

  /** The search as intended, on the ids the filtered, sorted query matches:
      the request is validated, and the page of rows is formatted. */
  function SearchResult(props: map<Id, PropertyRow>, users: map<Id, UserRow>, q: PropertySearch,
                        hits: seq<Id>, year: int): (r: Result<Listing>)
    requires forall i | 0 <= i < |hits| :: hits[i] in props
    ensures r.Err? <==> !ValidPropertySearch(q)
    ensures r.Err? ==> r.error == InvalidRequest
    ensures r.Ok? ==> r.value.total == |hits| && r.value.page == q.page && r.value.limit == q.limit
    ensures r.Ok? ==> r.value.totalPages == TotalPages(|hits|, q.limit)
  {
    if !ValidPropertySearch(q) then Err(InvalidRequest)
    else
      var w := Window(hits, Offset(q.page, q.limit), q.limit);
      Ok(Listing(ListingViews(props, users, w, year), |hits|, q.page, q.limit, TotalPages(|hits|, q.limit)))
  }

  /** A page of search results is the page's window of the matching rows,
      formatted: at most `limit` rows, the k-th being match `offset + k`. */
  lemma SearchPageIsWindow(props: map<Id, PropertyRow>, users: map<Id, UserRow>, q: PropertySearch,
                           hits: seq<Id>, year: int)
    requires forall i | 0 <= i < |hits| :: hits[i] in props
    requires ValidPropertySearch(q)
    ensures var page := SearchResult(props, users, q, hits, year).value.properties;
            |page| <= q.limit
            && (Offset(q.page, q.limit) + q.limit <= |hits| ==> |page| == q.limit)
            && forall k | 0 <= k < |page| ::
                 Offset(q.page, q.limit) + k < |hits|
                 && page[k] == ListingView(props, users, hits[Offset(q.page, q.limit) + k], year)
  {
    var w := Window(hits, Offset(q.page, q.limit), q.limit);
    var page := ListingViews(props, users, w, year);
    assert SearchResult(props, users, q, hits, year).value.properties == page;
    forall k | 0 <= k < |page|
      ensures Offset(q.page, q.limit) + k < |hits|
      ensures page[k] == ListingView(props, users, hits[Offset(q.page, q.limit) + k], year)
    {
      assert page[k] == ListingView(props, users, w[k], year);
    }
  }

  /** The loop that formats the page of rows. */
  method FormatListings(db: Database, ids: seq<Id>, year: int) returns (views: seq<PropertyView>)
    requires forall i | 0 <= i < |ids| :: ids[i] in db.properties
    ensures views == ListingViews(db.properties, db.users, ids, year)
  {
    views := [];
    var i := 0;
    while i < |ids|
      invariant 0 <= i <= |ids|
      invariant views == ListingViews(db.properties, db.users, ids[..i], year)
    {
      assert ids[..i + 1][..i] == ids[..i];
      views := views + [ListingView(db.properties, db.users, ids[i], year)];
      i := i + 1;
    }
    assert ids[..i] == ids;
  }

  /** `search_properties`, as intended. */
  method SearchProperties(db: Database, q: PropertySearch, hits: seq<Id>, year: int) returns (r: Result<Listing>)
    requires forall i | 0 <= i < |hits| :: hits[i] in db.properties
    ensures r == SearchResult(db.properties, db.users, q, hits, year)
  {
    if !ValidPropertySearch(q) {
      return Err(InvalidRequest);
    }
    var w := Window(hits, Offset(q.page, q.limit), q.limit);
    var views := FormatListings(db, w, year);
    r := Ok(Listing(views, |hits|, q.page, q.limit, TotalPages(|hits|, q.limit)));
  }

  const UndefinedRentAmount: Error := Error(InternalServerError, "Search failed: name 'rent_amount' is not defined")

  /** `search_properties` as written. Without credentials the bearer scheme
      behind the optional-user dependency refuses the request before the
      query parameters are checked. With them, once the parameters pass
      validation, the stray expression `rent_amount` on its own line raises
      `NameError`, which the handler reports as a 500. */
  function SearchAsWritten(token: Option<TokenCheck>, q: PropertySearch): (r: Result<Listing>)
    ensures r.Err?
    ensures token.None? ==> r == Err(NotAuthenticated)
    ensures token.Some? && !ValidPropertySearch(q) ==> r == Err(InvalidRequest)
    ensures token.Some? && ValidPropertySearch(q) ==> r == Err(UndefinedRentAmount)
  {
    match OptionalUserAsWritten(token)
    case Refused(e) => Err(e)
    case PendingCoroutine(_) =>
      if !ValidPropertySearch(q) then Err(InvalidRequest) else Err(UndefinedRentAmount)
  }

  /** Every valid search, even the default one, fails as written, whoever
      asks, where the intended search returns a page. */
  lemma SearchAsWrittenAlwaysFails(props: map<Id, PropertyRow>, users: map<Id, UserRow>, q: PropertySearch,
                                   hits: seq<Id>, year: int, check: TokenCheck)
    requires forall i | 0 <= i < |hits| :: hits[i] in props
    requires ValidPropertySearch(q)
    ensures SearchResult(props, users, q, hits, year).Ok?
    ensures SearchAsWritten(Some(check), q) == Err(UndefinedRentAmount)
    ensures SearchAsWritten(Some(check), DefaultSearch) == Err(UndefinedRentAmount)
    ensures SearchAsWritten(None, q) == Err(NotAuthenticated)
  {
    DefaultSearchValid();
  }

  // ---------------------------------------------------------------------
  // Create, update, soft delete

  /** The row `create_property` inserts. */
  function NewPropertyRow(landlordId: Id, data: PropertyCreate): PropertyRow
  {
    PropertyRow(landlordId, data, 0, 0, 0, 0, false, None)
  }

  /** A new listing belongs to its creator, charges no agency fee, starts
      with zero counters, unverified and not deleted. */
  lemma NewPropertyDefaults(landlordId: Id, data: PropertyCreate)
    ensures var row := NewPropertyRow(landlordId, data);
            row.landlordId == landlordId && row.listing == data && row.agencyFee == 0
            && row.viewCount == 0 && row.favoriteCount == 0 && row.applicationCount == 0
            && !row.verified && row.deletedAt.None?
  {
  }

  /** `create_property`. The landlord gate, then body validation, then the
      insert; the creator's `users` row is read after the insert, so its
      absence fails the request with the row already written. */
  method CreateProperty(db: Database, caller: CurrentUser, data: PropertyCreate, year: int) returns (r: Result<PropertyView>)
    requires db.Valid()
    modifies db`properties, db`nextId
    ensures db.Valid()
    ensures RequireLandlord(caller).Err? ==>
              r == Err(LandlordsOnly) && db.properties == old(db.properties) && db.nextId == old(db.nextId)
    ensures RequireLandlord(caller).Ok? && !ValidPropertyCreate(data) ==>
              r == Err(InvalidRequest) && db.properties == old(db.properties) && db.nextId == old(db.nextId)
    ensures RequireLandlord(caller).Ok? && ValidPropertyCreate(data) ==>
              old(db.nextId) !in old(db.properties) && db.nextId == old(db.nextId) + 1
              && db.properties == old(db.properties)[old(db.nextId) := NewPropertyRow(caller.id, data)]
    ensures r.Ok? <==> RequireLandlord(caller).Ok? && ValidPropertyCreate(data) && caller.id in db.users
    ensures RequireLandlord(caller).Ok? && ValidPropertyCreate(data) && caller.id !in db.users ==>
              r == Err(Error(BadRequest, "Failed to create property: " + MissingRow))
    ensures r.Ok? ==>
              r.value == PropertyView(old(db.nextId), NewPropertyRow(caller.id, data),
                                      EmbeddedLandlord(db.users, caller.id, 1, year), Some(false))
  {
    var gate := RequireLandlord(caller);
    if gate.Err? {
      return Err(gate.error);
    }
    if !ValidPropertyCreate(data) {
      return Err(InvalidRequest);
    }
    ghost var n0 := db.nextId;
    var id := db.FreshId();
    LargerBoundKeepsConsistent(db.tenants, db.properties, db.applications, db.transactions, db.favorites, n0, db.nextId);
    var row := NewPropertyRow(caller.id, data);
    PropertyWriteKeepsConsistent(db.tenants, db.properties, db.applications, db.transactions, db.favorites,
                                 db.nextId, id, row);
    db.properties := db.properties[id := row];
    if caller.id !in db.users {
      return Err(Error(BadRequest, "Failed to create property: " + MissingRow));
    }
    r := Ok(PropertyView(id, row, EmbeddedLandlord(db.users, caller.id, 1, year), Some(false)));
  }

  /** `update_property`. The landlord gate, body validation, then ownership
      of an existing row (deleted or not); the sent fields are written. */
  method UpdateProperty(db: Database, caller: CurrentUser, pid: Id, u: PropertyUpdate) returns (r: Result<PropertyView>)
    requires db.Valid()
    modifies db`properties
    ensures db.Valid()
    ensures RequireLandlord(caller).Err? ==> r == Err(LandlordsOnly)
    ensures RequireLandlord(caller).Ok? && !ValidPropertyUpdate(u) ==> r == Err(InvalidRequest)
    ensures RequireLandlord(caller).Ok? && ValidPropertyUpdate(u) && !OwnsProperty(old(db.properties), pid, caller.id) ==>
              r == Err(NoUpdatePermission)
    ensures r.Ok? <==> RequireLandlord(caller).Ok? && ValidPropertyUpdate(u) && OwnsProperty(old(db.properties), pid, caller.id)
    ensures r.Err? ==> db.properties == old(db.properties)
    ensures r.Ok? ==>
              var row := old(db.properties)[pid];
              db.properties == old(db.properties)[pid := row.(listing := ApplyUpdate(row.listing, u))]
              && r.value == PropertyView(pid, db.properties[pid], None, Some(false))
  {
    var gate := RequireLandlord(caller);
    if gate.Err? {
      return Err(gate.error);
    }
    if !ValidPropertyUpdate(u) {
      return Err(InvalidRequest);
    }
    if !OwnsProperty(db.properties, pid, caller.id) {
      return Err(NoUpdatePermission);
    }
    var row := db.properties[pid];
    var updated := row.(listing := ApplyUpdate(row.listing, u));
    PropertyWriteKeepsConsistent(db.tenants, db.properties, db.applications, db.transactions, db.favorites,
                                 db.nextId, pid, updated);
    db.properties := db.properties[pid := updated];
    r := Ok(PropertyView(pid, updated, None, Some(false)));
  }

  /** The row after a soft delete. */
  function SoftDeleted(row: PropertyRow, now: Timestamp): PropertyRow
  {
    row.(listing := row.listing.(status := Inactive), deletedAt := Some(now))
  }

  /** `delete_property`: the landlord gate, then ownership; the row stays,
      marked inactive and stamped. */
  method DeleteProperty(db: Database, caller: CurrentUser, pid: Id, now: Timestamp) returns (r: Result<()>)
    requires db.Valid()
    modifies db`properties
    ensures db.Valid()
    ensures RequireLandlord(caller).Err? ==> r == Err(LandlordsOnly)
    ensures RequireLandlord(caller).Ok? && !OwnsProperty(old(db.properties), pid, caller.id) ==> r == Err(NoDeletePermission)
    ensures r.Ok? <==> RequireLandlord(caller).Ok? && OwnsProperty(old(db.properties), pid, caller.id)
    ensures r.Err? ==> db.properties == old(db.properties)
    ensures r.Ok? ==> db.properties == old(db.properties)[pid := SoftDeleted(old(db.properties)[pid], now)]
  {
    var gate := RequireLandlord(caller);
    if gate.Err? {
      return Err(gate.error);
    }
    if !OwnsProperty(db.properties, pid, caller.id) {
      return Err(NoDeletePermission);
    }
    var row := SoftDeleted(db.properties[pid], now);
    PropertyWriteKeepsConsistent(db.tenants, db.properties, db.applications, db.transactions, db.favorites,
                                 db.nextId, pid, row);
    db.properties := db.properties[pid := row];
    r := Ok(());
  }

  // ---------------------------------------------------------------------
  // Property detail

  /** The detail response, as intended: a missing or soft-deleted row is a
      404; otherwise the row as read before the view is counted, its
      landlord, and whether a signed-in caller has favourited it. */
  function PropertyDetail(props: map<Id, PropertyRow>, users: map<Id, UserRow>, favs: seq<FavoriteRow>,
                          viewer: Option<CurrentUser>, pid: Id, year: int): (r: Result<PropertyView>)
    ensures r.Ok? <==> pid in props && props[pid].deletedAt.None?
    ensures r.Err? ==> r.error == PropertyNotFound
    ensures r.Ok? ==> r.value.id == pid && r.value.row == props[pid]
    ensures r.Ok? ==> r.value.landlord == EmbeddedLandlord(users, props[pid].landlordId, 0, year)
    ensures r.Ok? ==> (r.value.isFavorited == Some(true) <==> viewer.Some? && Favorited(favs, viewer.value.id, pid))
    ensures r.Ok? ==> r.value.isFavorited.Some?
  {
    if pid !in props || props[pid].deletedAt.Some? then Err(PropertyNotFound)
    else
      var favorited := viewer.Some? && Favorited(favs, viewer.value.id, pid);
      Ok(PropertyView(pid, props[pid], EmbeddedLandlord(users, props[pid].landlordId, 0, year), Some(favorited)))
  }

  /** A soft-deleted property is hidden from the detail view, though its
      row is still stored. */
  lemma SoftDeletedIsHidden(props: map<Id, PropertyRow>, users: map<Id, UserRow>, favs: seq<FavoriteRow>,
                            viewer: Option<CurrentUser>, pid: Id, now: Timestamp, year: int)
    requires pid in props
    ensures var after := props[pid := SoftDeleted(props[pid], now)];
            pid in after && after[pid].listing.status == Inactive
            && PropertyDetail(after, users, favs, viewer, pid, year) == Err(PropertyNotFound)
  {
  }

  /** The view counter's read-modify-write on an existing row. */
  method CountView(db: Database, pid: Id)
    requires db.Valid() && pid in db.properties
    modifies db`properties
    ensures db.Valid()
    ensures db.properties == old(db.properties)[pid := old(db.properties)[pid].(viewCount := old(db.properties)[pid].viewCount + 1)]
  {
    var row := db.properties[pid];
    assert row.viewCount >= 0;
    PropertyWriteKeepsConsistent(db.tenants, db.properties, db.applications, db.transactions, db.favorites,
                                 db.nextId, pid, row.(viewCount := row.viewCount + 1));
    db.properties := db.properties[pid := row.(viewCount := row.viewCount + 1)];
  }

  /** `get_property`, with the intended optional-user helper. Every
      successful fetch counts one view. */
  method GetProperty(db: Database, token: Option<TokenCheck>, pid: Id, year: int) returns (r: Result<PropertyView>)
    requires db.Valid()
    modifies db`properties
    ensures db.Valid()
    ensures r == PropertyDetail(old(db.properties), db.users, db.favorites, OptionalUser(token, db.users), pid, year)
    ensures r.Err? ==> db.properties == old(db.properties)
    ensures r.Ok? ==>
              var row := old(db.properties)[pid];
              db.properties == old(db.properties)[pid := row.(viewCount := row.viewCount + 1)]
  {
    var viewer := OptionalUser(token, db.users);
    r := PropertyDetail(db.properties, db.users, db.favorites, viewer, pid, year);
    if r.Ok? {
      CountView(db, pid);
    }
  }

  const CoroutineNotSubscriptable: Error :=
    Error(InternalServerError, "Failed to fetch property: 'coroutine' object is not subscriptable")

  /** The detail response as written. Without credentials the bearer
      scheme refuses the request before the handler runs. With them the
      optional-user helper hands the route a coroutine, and indexing it for
      the favourite check raises, which the handler reports as a 500; only a
      missing or soft-deleted row answers first, with the 404. */
  function PropertyDetailAsWritten(props: map<Id, PropertyRow>, users: map<Id, UserRow>, favs: seq<FavoriteRow>,
                                   token: Option<TokenCheck>, pid: Id, year: int): (r: Result<PropertyView>)
    ensures r.Err?
    ensures token.None? ==> r == Err(NotAuthenticated)
    ensures token.Some? && (pid !in props || props[pid].deletedAt.Some?) ==> r == Err(PropertyNotFound)
    ensures token.Some? && pid in props && props[pid].deletedAt.None? ==> r == Err(CoroutineNotSubscriptable)
  {
    match OptionalUserAsWritten(token)
    case Refused(e) => Err(e)
    case PendingCoroutine(_) =>
      if pid !in props || props[pid].deletedAt.Some? then Err(PropertyNotFound)
      else Err(CoroutineNotSubscriptable)
  }

  /** `get_property` as written: a refused request reaches no write; with
      credentials the view is counted before the favourite check fails. */
  method GetPropertyAsWritten(db: Database, token: Option<TokenCheck>, pid: Id, year: int) returns (r: Result<PropertyView>)
    requires db.Valid()
    modifies db`properties
    ensures db.Valid()
    ensures r == PropertyDetailAsWritten(old(db.properties), db.users, db.favorites, token, pid, year)
    ensures (token.Some? && pid in old(db.properties) && old(db.properties)[pid].deletedAt.None?) ==>
              var row := old(db.properties)[pid];
              db.properties == old(db.properties)[pid := row.(viewCount := row.viewCount + 1)]
    ensures !(token.Some? && pid in old(db.properties) && old(db.properties)[pid].deletedAt.None?) ==>
              db.properties == old(db.properties)
  {
    r := PropertyDetailAsWritten(db.properties, db.users, db.favorites, token, pid, year);
    if token.Some? && pid in db.properties && db.properties[pid].deletedAt.None? {
      CountView(db, pid);
    }
  }

  /** An anonymous visitor is refused as written, where the intended route
      shows the listing, not favourited. */
  lemma AnonymousFetchRefusedAsWritten(props: map<Id, PropertyRow>, users: map<Id, UserRow>, favs: seq<FavoriteRow>,
                                       pid: Id, year: int)
    requires pid in props && props[pid].deletedAt.None?
    ensures PropertyDetailAsWritten(props, users, favs, None, pid, year) == Err(NotAuthenticated)
    ensures var intended := PropertyDetail(props, users, favs, OptionalUser(None, users), pid, year);
            intended.Ok? && intended.value.isFavorited == Some(false)
  {
  }

  /** A signed-in tenant who favourited a listing gets a 500 from the
      detail view as written, where the intended view reports the favourite. */
  lemma SignedInFetchFailsAsWritten(props: map<Id, PropertyRow>, users: map<Id, UserRow>, favs: seq<FavoriteRow>,
                                    id: Id, pid: Id, year: int)
    requires pid in props && props[pid].deletedAt.None? && id in users
    requires Favorited(favs, id, pid)
    ensures PropertyDetailAsWritten(props, users, favs, Some(TokenUser(id)), pid, year) == Err(CoroutineNotSubscriptable)
    ensures var intended := PropertyDetail(props, users, favs, OptionalUser(Some(TokenUser(id)), users), pid, year);
            intended.Ok? && intended.value.isFavorited == Some(true)
  {
  }
}
