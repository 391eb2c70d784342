/** Favourites (app/routes/favorites.py): a tenant's saved listings and the
    `favorite_count` counter kept beside them. */
module FavoriteRoutes {
  import opened Common
  import opened TenantProfile
  import opened Store
  import opened AuthGuard
  import PropertyRoutes

  const AlreadyFavorited: Error := Error(BadRequest, "Property already in favorites")
  const FavoriteNotFound: Error := Error(NotFound, "Favorite not found")

  /** The counter after removing a favourite: one less, never below zero. */
  function FlooredDecrement(c: int): (d: int)
    ensures d >= 0
    ensures c >= 1 ==> d == c - 1
    ensures c <= 1 ==> d == 0
  {
    if c - 1 > 0 then c - 1 else 0
  }

  /** The favourites with one pair's rows deleted, the rest in order. */
  function Without(favs: seq<FavoriteRow>, row: FavoriteRow): (r: seq<FavoriteRow>)
    ensures forall x :: x in r <==> x in favs && x != row
    ensures |r| <= |favs|
  {
    if favs == [] then []
    else Without(favs[..|favs| - 1], row) + (if favs[|favs| - 1] == row then [] else [favs[|favs| - 1]])
  }

  /** Deleting a pair that occurs once removes exactly one row and keeps
      the pairs distinct. */
  lemma {:induction false} WithoutDropsOne(favs: seq<FavoriteRow>, row: FavoriteRow)
    requires FavoritesUnique(favs) && row in favs
    ensures |Without(favs, row)| == |favs| - 1
    ensures FavoritesUnique(Without(favs, row))
  {
    var init := favs[..|favs| - 1];
    assert FavoritesUnique(init);
    WithoutKeepsUnique(init, row);
    if favs[|favs| - 1] == row {
      assert row !in init;
      WithoutAbsent(init, row);
    } else {
      assert row in init;
      WithoutDropsOne(init, row);
      var r := Without(init, row);
      assert favs[|favs| - 1] !in r;
      assert Without(favs, row) == r + [favs[|favs| - 1]];
    }
  }

  lemma {:induction false} WithoutAbsent(favs: seq<FavoriteRow>, row: FavoriteRow)
    requires row !in favs
    ensures Without(favs, row) == favs
  {
    if favs != [] {
      assert favs[..|favs| - 1] + [favs[|favs| - 1]] == favs;
      WithoutAbsent(favs[..|favs| - 1], row);
    }
  }

  lemma {:induction false} WithoutKeepsUnique(favs: seq<FavoriteRow>, row: FavoriteRow)
    requires FavoritesUnique(favs)
    ensures FavoritesUnique(Without(favs, row))
  {
    if favs != [] {
      var init := favs[..|favs| - 1];
      assert FavoritesUnique(init);
      WithoutKeepsUnique(init, row);
      var last := favs[|favs| - 1];
      if last != row {
        assert last !in init;
        assert last !in Without(init, row);
      }
    }
  }

  /** Removing a favourite undoes adding it: the rows and the counter
      return to where they were. */
  lemma RemoveUndoesAdd(favs: seq<FavoriteRow>, row: FavoriteRow, count: int)
    requires row !in favs && count >= 0
    ensures Without(favs + [row], row) == favs
    ensures FlooredDecrement(count + 1) == count
  {
    assert (favs + [row])[..|favs|] == favs;
    WithoutAbsent(favs, row);
  }

  /** Adding a new pair and counting it keeps the tables consistent. */
  lemma AddKeepsConsistent(tenants: map<Id, TenantRow>, props: map<Id, PropertyRow>,
                           apps: map<Id, ApplicationRow>, txs: map<Id, TransactionRow>,
                           favs: seq<FavoriteRow>, n: nat, row: FavoriteRow)
    requires Consistent(tenants, props, apps, txs, favs, n)
    requires row.propertyId in props && row !in favs
    ensures var p := props[row.propertyId];
            Consistent(tenants, props[row.propertyId := p.(favoriteCount := p.favoriteCount + 1)],
                       apps, txs, favs + [row], n)
  {
    var p := props[row.propertyId];
    PropertyWriteKeepsConsistent(tenants, props, apps, txs, favs, n, row.propertyId, p.(favoriteCount := p.favoriteCount + 1));
  }

  /** Deleting a pair, and lowering the counter when the property is there,
      keeps the tables consistent. */
  lemma RemoveKeepsConsistent(tenants: map<Id, TenantRow>, props: map<Id, PropertyRow>,
                              apps: map<Id, ApplicationRow>, txs: map<Id, TransactionRow>,
                              favs: seq<FavoriteRow>, n: nat, row: FavoriteRow, props1: map<Id, PropertyRow>)
    requires Consistent(tenants, props, apps, txs, favs, n)
    requires row.propertyId in props ==>
               props1 == props[row.propertyId := props[row.propertyId].(favoriteCount := FlooredDecrement(props[row.propertyId].favoriteCount))]
    requires row.propertyId !in props ==> props1 == props
    ensures Consistent(tenants, props1, apps, txs, Without(favs, row), n)
  {
    WithoutKeepsUnique(favs, row);
    if row.propertyId in props {
      var p := props[row.propertyId];
      PropertyWriteKeepsConsistent(tenants, props, apps, txs, favs, n, row.propertyId,
                                   p.(favoriteCount := FlooredDecrement(p.favoriteCount)));
    }
  }

  /** `add_favorite`: the tenant gate, the property must exist (deleted or
      not), the pair must be new; then the row and the counter are written. */
  method AddFavorite(db: Database, caller: CurrentUser, pid: Id) returns (r: Result<FavoriteRow>)
    requires db.Valid()
    modifies db`favorites, db`properties
    ensures db.Valid()
    ensures RequireTenant(caller).Err? ==> r == Err(TenantsOnly)
    ensures RequireTenant(caller).Ok? && pid !in old(db.properties) ==> r == Err(PropertyRoutes.PropertyNotFound)
    ensures RequireTenant(caller).Ok? && pid in old(db.properties) && Favorited(old(db.favorites), caller.id, pid) ==>
              r == Err(AlreadyFavorited)
    ensures r.Ok? <==>
              RequireTenant(caller).Ok? && pid in old(db.properties) && !Favorited(old(db.favorites), caller.id, pid)
    ensures r.Err? ==> db.favorites == old(db.favorites) && db.properties == old(db.properties)
    ensures r.Ok? ==>
              var p := old(db.properties)[pid];
              r.value == FavoriteRow(caller.id, pid)
              && db.favorites == old(db.favorites) + [FavoriteRow(caller.id, pid)]
              && db.properties == old(db.properties)[pid := p.(favoriteCount := p.favoriteCount + 1)]
  {
    var gate := RequireTenant(caller);
    if gate.Err? {
      return Err(gate.error);
    }
    if pid !in db.properties {
      return Err(PropertyRoutes.PropertyNotFound);
    }
    if Favorited(db.favorites, caller.id, pid) {
      return Err(AlreadyFavorited);
    }
    var row := FavoriteRow(caller.id, pid);
    AddKeepsConsistent(db.tenants, db.properties, db.applications, db.transactions, db.favorites, db.nextId, row);
    db.favorites := db.favorites + [row];
    var p := db.properties[pid];
    db.properties := db.properties[pid := p.(favoriteCount := p.favoriteCount + 1)];
    r := Ok(row);
  }

  /** `remove_favorite`: the tenant gate, the pair must be favourited; the
      row goes, and the counter drops by one, floored at zero, when the
      property row is still there. */
  method RemoveFavorite(db: Database, caller: CurrentUser, pid: Id) returns (r: Result<()>)
    requires db.Valid()
    modifies db`favorites, db`properties
    ensures db.Valid()
    ensures RequireTenant(caller).Err? ==> r == Err(TenantsOnly)
    ensures RequireTenant(caller).Ok? && !Favorited(old(db.favorites), caller.id, pid) ==> r == Err(FavoriteNotFound)
    ensures r.Ok? <==> RequireTenant(caller).Ok? && Favorited(old(db.favorites), caller.id, pid)
    ensures r.Err? ==> db.favorites == old(db.favorites) && db.properties == old(db.properties)
    ensures r.Ok? ==>
              db.favorites == Without(old(db.favorites), FavoriteRow(caller.id, pid))
              && |db.favorites| == |old(db.favorites)| - 1
              && !Favorited(db.favorites, caller.id, pid)
    ensures r.Ok? && pid in old(db.properties) ==>
              var p := old(db.properties)[pid];
              db.properties == old(db.properties)[pid := p.(favoriteCount := FlooredDecrement(p.favoriteCount))]
    ensures r.Ok? && pid !in old(db.properties) ==> db.properties == old(db.properties)
  {
    var gate := RequireTenant(caller);
    if gate.Err? {
      return Err(gate.error);
    }
    var row := FavoriteRow(caller.id, pid);
    if !Favorited(db.favorites, caller.id, pid) {
      return Err(FavoriteNotFound);
    }
    WithoutDropsOne(db.favorites, row);
    ghost var props1 := if pid in db.properties
                        then db.properties[pid := db.properties[pid].(favoriteCount := FlooredDecrement(db.properties[pid].favoriteCount))]
                        else db.properties;
    RemoveKeepsConsistent(db.tenants, db.properties, db.applications, db.transactions, db.favorites, db.nextId, row, props1);
    db.favorites := Without(db.favorites, row);
    if pid in db.properties {
      var p := db.properties[pid];
      db.properties := db.properties[pid := p.(favoriteCount := FlooredDecrement(p.favoriteCount))];
    }
    r := Ok(());
  }

  /** A tenant's favourites, newest first (insertion order reversed). */
  function NewestFirst(favs: seq<FavoriteRow>, tenantId: Id): (r: seq<FavoriteRow>)
    ensures forall x :: x in r <==> x in favs && x.tenantId == tenantId
    ensures |r| <= |favs|
  {
    if favs == [] then []
    else
      var last := favs[|favs| - 1];
      (if last.tenantId == tenantId then [last] else []) + NewestFirst(favs[..|favs| - 1], tenantId)
  }

  /** A favourite added after all the others heads its tenant's list, and
      leaves every other tenant's list alone. */
  lemma NewestFirstAppend(favs: seq<FavoriteRow>, x: FavoriteRow, tenantId: Id)
    ensures NewestFirst(favs + [x], tenantId)
            == (if x.tenantId == tenantId then [x] else []) + NewestFirst(favs, tenantId)
  {
    assert (favs + [x])[..|favs|] == favs;
  }

  /** Favourites added later come first: the list is the tenant's rows in
      reverse insertion order. */
  lemma {:induction false} NewestFirstConcat(older: seq<FavoriteRow>, newer: seq<FavoriteRow>, tenantId: Id)
    ensures NewestFirst(older + newer, tenantId) == NewestFirst(newer, tenantId) + NewestFirst(older, tenantId)
    decreases |newer|
  {
    if newer == [] {
      assert older + newer == older;
    } else {
      var init := newer[..|newer| - 1];
      var last := newer[|newer| - 1];
      var head := if last.tenantId == tenantId then [last] else [];
      assert older + newer == (older + init) + [last];
      calc {
        NewestFirst(older + newer, tenantId);
        { NewestFirstAppend(older + init, last, tenantId); }
        head + NewestFirst(older + init, tenantId);
        { NewestFirstConcat(older, init, tenantId); }
        head + (NewestFirst(init, tenantId) + NewestFirst(older, tenantId));
        (head + NewestFirst(init, tenantId)) + NewestFirst(older, tenantId);
        { assert newer == init + [last]; NewestFirstAppend(init, last, tenantId); }
        NewestFirst(newer, tenantId) + NewestFirst(older, tenantId);
      }
    }
  }

  /** A favourites entry: the property, its landlord, marked favourited. */
  function FavoriteView(props: map<Id, PropertyRow>, users: map<Id, UserRow>, pid: Id, year: int): PropertyRoutes.PropertyView
    requires pid in props
  {
    PropertyRoutes.PropertyView(pid, props[pid], PropertyRoutes.EmbeddedLandlord(users, props[pid].landlordId, 0, year), Some(true))
  }

  /** The formatted entries: favourites whose property row is missing are
      skipped, every other one is reported in order. */
  function FavoriteViews(props: map<Id, PropertyRow>, users: map<Id, UserRow>, rows: seq<FavoriteRow>, year: int)
    : (r: seq<PropertyRoutes.PropertyView>)
    ensures |r| <= |rows|
    ensures forall k | 0 <= k < |r| ::
              r[k].id in props && r[k] == FavoriteView(props, users, r[k].id, year)
    ensures forall f | f in rows && f.propertyId in props :: FavoriteView(props, users, f.propertyId, year) in r
  {
    if rows == [] then []
    else
      var last := rows[|rows| - 1];
      FavoriteViews(props, users, rows[..|rows| - 1], year)
      + (if last.propertyId in props then [FavoriteView(props, users, last.propertyId, year)] else [])
  }

  /** One more row of the favourites takes one step of `FavoriteViews`. */
  lemma FavoriteViewsExtend(props: map<Id, PropertyRow>, users: map<Id, UserRow>, rows: seq<FavoriteRow>,
                            i: nat, year: int)
    requires i < |rows|
    ensures FavoriteViews(props, users, rows[..i + 1], year)
            == FavoriteViews(props, users, rows[..i], year)
               + (if rows[i].propertyId in props then [FavoriteView(props, users, rows[i].propertyId, year)] else [])
  {
    assert rows[..i + 1][..i] == rows[..i] && rows[..i + 1][i] == rows[i];
  }

  /** The `get_favorites` response. */
  datatype FavoriteList = FavoriteList(favorites: seq<PropertyRoutes.PropertyView>, count: nat)

  /** `get_favorites`: the tenant gate, then the loop over the tenant's
      favourites, newest first. */
  method GetFavorites(db: Database, caller: CurrentUser, year: int) returns (r: Result<FavoriteList>)
    ensures RequireTenant(caller).Err? <==> r == Err(TenantsOnly)
    ensures r.Ok? ==> r.value.count == |r.value.favorites|
    ensures r.Ok? ==>
              r.value.favorites == FavoriteViews(db.properties, db.users, NewestFirst(db.favorites, caller.id), year)
  {
    var gate := RequireTenant(caller);
    if gate.Err? {
      return Err(gate.error);
    }
    var feed := NewestFirst(db.favorites, caller.id);
    var favorites := [];
    var i := 0;
    while i < |feed|
      invariant 0 <= i <= |feed|
      invariant favorites == FavoriteViews(db.properties, db.users, feed[..i], year)
    {
      FavoriteViewsExtend(db.properties, db.users, feed, i, year);
      var pid := feed[i].propertyId;
      if pid in db.properties {
        favorites := favorites + [FavoriteView(db.properties, db.users, pid, year)];
      }
      i := i + 1;
    }
    assert feed[..i] == feed;
    r := Ok(FavoriteList(favorites, |favorites|));
  }

  /** The favourites list and the property detail view agree: every listing
      in a tenant's favourites that is not deleted shows as favourited to
      that tenant. */
  lemma FavoritesAgreeWithDetail(props: map<Id, PropertyRow>, users: map<Id, UserRow>, favs: seq<FavoriteRow>,
                                 u: CurrentUser, year: int, v: PropertyRoutes.PropertyView)
    requires v in FavoriteViews(props, users, NewestFirst(favs, u.id), year)
    requires v.id in props && props[v.id].deletedAt.None?
    ensures PropertyRoutes.PropertyDetail(props, users, favs, Some(u), v.id, year).Ok?
    ensures PropertyRoutes.PropertyDetail(props, users, favs, Some(u), v.id, year).value.isFavorited == Some(true)
  {
    var feed := NewestFirst(favs, u.id);
    FavoriteViewsFromRows(props, users, feed, year, v);
  }

  /** Every entry of the formatted list comes from one of the rows. */
  lemma {:induction false} FavoriteViewsFromRows(props: map<Id, PropertyRow>, users: map<Id, UserRow>,
                                                 rows: seq<FavoriteRow>, year: int, v: PropertyRoutes.PropertyView)
    requires v in FavoriteViews(props, users, rows, year)
    ensures exists f :: f in rows && f.propertyId == v.id
  {
    var init := rows[..|rows| - 1];
    var last := rows[|rows| - 1];
    if v in FavoriteViews(props, users, init, year) {
      FavoriteViewsFromRows(props, users, init, year, v);
      var f :| f in init && f.propertyId == v.id;
      assert f in rows;
    } else {
      assert last in rows && last.propertyId == v.id;
    }
  }
}
