/** A user's favourites: links from a user to a favourite item, either an
    existing item or one created with the link. */
module FavoritesService {
  import opened Common
  import opened Store

  const CreatePrefix: string := "Error creating favorite: "
  const UpdatePrefix: string := "Error updating favorite: "
  const DeletePrefix: string := "Error deleting favorite: "

  const NothingGiven: HttpError := HttpError(BadRequest, "Either itemId or favItem must be provided.")
  const AlreadyFavorite: HttpError := HttpError(BadRequest, "This item is already in favorites.")
  const FavoriteMissing: HttpError := HttpError(NotFound, "Favorite not found")
  const ItemMissing: HttpError := HttpError(BadRequest, "Provided itemId does not exist.")

  const DeleteHandled: map<StoreCode, HttpError> := map[P2025 := FavoriteMissing]

  /** Whether `userId` already has item `itemId` among its favourites. */
  predicate HasPair(favorites: map<Id, Favorite>, userId: Id, itemId: Id) {
    exists k :: k in favorites && favorites[k] == Favorite(userId, itemId)
  }

  /** No user has the same item twice. */
  predicate UniquePairs(favorites: map<Id, Favorite>) {
    forall a, b :: a in favorites && b in favorites && favorites[a] == favorites[b] ==> a == b
  }

  /** The item an update writes: an optional tool or worker is kept when not
      given, the other fields are replaced. */
  function Rewritten(item: FavItem, data: FavItem): (r: FavItem)
    ensures r.count == data.count && r.timeUnit == data.timeUnit && r.time == data.time && r.price == data.price
    ensures r.toolId == (if data.toolId.Some? then data.toolId else item.toolId)
    ensures r.workerId == (if data.workerId.Some? then data.workerId else item.workerId)
  {
    data.(toolId := if data.toolId.Some? then data.toolId else item.toolId,
          workerId := if data.workerId.Some? then data.workerId else item.workerId)
  }

  /** Rewriting with the same data twice is rewriting once, and data that names
      both a tool and a worker leaves nothing of the old item. */
  lemma RewrittenLaws(item: FavItem, other: FavItem, data: FavItem)
    ensures Rewritten(Rewritten(item, data), data) == Rewritten(item, data)
    ensures data.toolId.Some? && data.workerId.Some? ==> Rewritten(item, data) == Rewritten(other, data) == data
  {
  }

  /** Inserting a favourite that no one holds keeps the pairs unique. */
  lemma InsertKeepsUnique(favorites: map<Id, Favorite>, id: Id, f: Favorite)
    requires UniquePairs(favorites) && id !in favorites && !HasPair(favorites, f.userId, f.itemId)
    ensures UniquePairs(favorites[id := f])
  {
  }

  /** Re-pointing a favourite by update checks no pair, so a user can end up
      with the same item twice. */
  lemma RepointCanDuplicate()
    ensures var favorites := map[1 := Favorite(9, 4), 2 := Favorite(9, 5)];
      UniquePairs(favorites) && !UniquePairs(favorites[2 := favorites[2].(itemId := 4)])
  {
    var favorites := map[1 := Favorite(9, 4), 2 := Favorite(9, 5)];
    var moved := favorites[2 := favorites[2].(itemId := 4)];
    assert moved[1] == moved[2];
  }

  /** No favourite can name an item created after it. */
  lemma FreshItemIsNoFavorite(favorites: map<Id, Favorite>, bound: Id, userId: Id)
    requires forall k :: k in favorites ==> favorites[k].itemId < bound
    ensures !HasPair(favorites, userId, bound)
  {
  }

  /** Inserts a favourite item under a fresh id. */
  method PlaceItem(db: Db, item: FavItem) returns (id: Id)
    requires db.Valid()
    modifies db`favItems, db`nextId
    ensures db.Valid()
    ensures id == old(db.nextId) && db.nextId == id + 1 && db.favItems == old(db.favItems)[id := item]
  {
    id := db.FreshId();
    db.favItems := db.favItems[id := item];
    db.StaysValid();
  }

  /** Inserts a favourite under a fresh id. */
  method PlaceFavorite(db: Db, f: Favorite)
    requires db.Valid() && f.itemId < db.nextId
    modifies db`favorites, db`nextId
    ensures db.Valid()
    ensures db.nextId == old(db.nextId) + 1 && db.favorites == old(db.favorites)[old(db.nextId) := f]
  {
    var id := db.FreshId();
    db.favorites := db.favorites[id := f];
    assert KeysBelow(db.favorites, db.nextId);
    db.StaysValid();
  }

  /** Replaces an existing favourite item. */
  method RewriteItem(db: Db, itemId: Id, item: FavItem)
    requires db.Valid() && itemId in db.favItems
    modifies db`favItems
    ensures db.Valid()
    ensures db.favItems == old(db.favItems)[itemId := item]
  {
    db.favItems := db.favItems[itemId := item];
    assert KeysBelow(db.favItems, db.nextId);
    db.StaysValid();
  }

  /** Writes favourite `id`, whose item is one the store has handed out. */
  method Repoint(db: Db, id: Id, f: Favorite)
    requires db.Valid() && id in db.favorites && f.itemId < db.nextId
    modifies db`favorites
    ensures db.Valid()
    ensures db.favorites == old(db.favorites)[id := f]
  {
    db.favorites := db.favorites[id := f];
    assert KeysBelow(db.favorites, db.nextId);
    db.StaysValid();
  }

  /** Makes item `itemId`, or else a new item built from `favItem`, a
      favourite of `userId`. A request with neither is refused before the
      store is touched, and that refusal is not wrapped. `itemInsert` and
      `insert` are the store's verdicts on the new item and the new favourite;
      the store accepts a favourite only for an item it holds. */
  method Create(db: Db, userId: Id, itemId: Option<Id>, favItem: Option<FavItem>, itemInsert: Verdict, insert: Verdict)
    returns (r: Result<Favorite>)
    requires db.Valid()
    requires insert.Accept? && itemId.Some? ==> itemId.value in db.favItems
    modifies db`favItems, db`favorites, db`nextId
    ensures db.Valid()
    ensures itemId.None? && favItem.None? ==>
      r == Err(NothingGiven) && unchanged(db`favItems, db`favorites, db`nextId)
    ensures itemId.None? && favItem.Some? && itemInsert.Reject? ==>
      r == Err(Wrapped(CreatePrefix, StoreError(itemInsert.code, itemInsert.message)))
      && unchanged(db`favItems, db`favorites, db`nextId)
    ensures itemId.Some? || (favItem.Some? && itemInsert.Accept?) ==>
      var target := if itemId.Some? then itemId.value else old(db.nextId);
      var base := if itemId.Some? then old(db.nextId) else old(db.nextId) + 1;
      && db.favItems == (if itemId.Some? then old(db.favItems) else old(db.favItems)[target := favItem.value])
      && (HasPair(old(db.favorites), userId, target) ==>
            r == Err(Wrapped(CreatePrefix, Raised(AlreadyFavorite))) && db.favorites == old(db.favorites) && db.nextId == base)
      && (!HasPair(old(db.favorites), userId, target) && insert.Reject? ==>
            r == Err(Wrapped(CreatePrefix, StoreError(insert.code, insert.message)))
            && db.favorites == old(db.favorites) && db.nextId == base)
      && (!HasPair(old(db.favorites), userId, target) && insert.Accept? ==>
            r == Ok(Favorite(userId, target)) && db.favorites == old(db.favorites)[base := Favorite(userId, target)]
            && db.nextId == base + 1)
    ensures itemId.None? && favItem.Some? && itemInsert.Accept? && insert.Accept? ==> r.Ok?
    ensures UniquePairs(old(db.favorites)) ==> UniquePairs(db.favorites)
  {
    if itemId.None? && favItem.None? {
      r := Err(NothingGiven);
      return;
    }
    var target: Id;
    if itemId.Some? {
      target := itemId.value;
    } else {
      if itemInsert.Reject? {
        r := Err(Wrapped(CreatePrefix, StoreError(itemInsert.code, itemInsert.message)));
        return;
      }
      FreshItemIsNoFavorite(db.favorites, db.nextId, userId);
      target := PlaceItem(db, favItem.value);
    }
    r := Link(db, userId, target, insert);
  }

  /** The second half of `Create`: refuses a pair the user already has, and
      otherwise stores the favourite. */
  method Link(db: Db, userId: Id, target: Id, insert: Verdict) returns (r: Result<Favorite>)
    requires db.Valid()
    requires insert.Accept? ==> target < db.nextId
    modifies db`favorites, db`nextId
    ensures db.Valid()
    ensures HasPair(old(db.favorites), userId, target) ==>
      r == Err(Wrapped(CreatePrefix, Raised(AlreadyFavorite))) && unchanged(db`favorites, db`nextId)
    ensures !HasPair(old(db.favorites), userId, target) && insert.Reject? ==>
      r == Err(Wrapped(CreatePrefix, StoreError(insert.code, insert.message))) && unchanged(db`favorites, db`nextId)
    ensures !HasPair(old(db.favorites), userId, target) && insert.Accept? ==>
      r == Ok(Favorite(userId, target)) && db.favorites == old(db.favorites)[old(db.nextId) := Favorite(userId, target)]
      && db.nextId == old(db.nextId) + 1
    ensures UniquePairs(old(db.favorites)) ==> UniquePairs(db.favorites)
  {
    var existing := HasPair(db.favorites, userId, target);
    if existing {
      r := Err(Wrapped(CreatePrefix, Raised(AlreadyFavorite)));
      return;
    }
    if insert.Reject? {
      r := Err(Wrapped(CreatePrefix, StoreError(insert.code, insert.message)));
      return;
    }
    if UniquePairs(db.favorites) {
      InsertKeepsUnique(db.favorites, db.nextId, Favorite(userId, target));
    }
    PlaceFavorite(db, Favorite(userId, target));
    r := Ok(Favorite(userId, target));
  }

  /** Points favourite `id` at item `itemId` when that differs from its item,
      and writes `favItem` to the item it ends up pointing at. `write` is the
      store's verdict on that item write, which a refused tool or worker
      reference (P2003) can turn down. */
  method Update(db: Db, id: Id, itemId: Option<Id>, favItem: Option<FavItem>, write: Verdict) returns (r: Result<Favorite>)
    requires db.Valid()
    modifies db`favItems, db`favorites
    ensures db.Valid()
    ensures id !in old(db.favorites) ==>
      r == Err(Wrapped(UpdatePrefix, Raised(FavoriteMissing))) && unchanged(db`favItems, db`favorites)
    ensures id in old(db.favorites) ==>
      var current := old(db.favorites)[id].itemId;
      var moves := itemId.Some? && itemId.value != current;
      var target := if moves then itemId.value else current;
      && (moves && target !in old(db.favItems) ==>
            r == Err(Wrapped(UpdatePrefix, Raised(ItemMissing))) && unchanged(db`favItems, db`favorites))
      && (favItem.Some? && target !in old(db.favItems) && !moves ==>
            r == Err(Wrapped(UpdatePrefix, StoreError(P2025, RecordNotFound))) && unchanged(db`favItems, db`favorites))
      && (favItem.Some? && target in old(db.favItems) && write.Reject? ==>
            r == Err(Wrapped(UpdatePrefix, StoreError(write.code, write.message))) && unchanged(db`favItems, db`favorites))
      && (target in old(db.favItems) && (favItem.None? || write.Accept?) ==>
            && db.favItems == (if favItem.Some? then old(db.favItems)[target := Rewritten(old(db.favItems)[target], favItem.value)]
                               else old(db.favItems))
            && db.favorites == old(db.favorites)[id := Favorite(old(db.favorites)[id].userId, target)]
            && r == Ok(Favorite(old(db.favorites)[id].userId, target)))
      && (favItem.None? && !moves ==>
            db.favItems == old(db.favItems) && db.favorites == old(db.favorites) && r == Ok(old(db.favorites)[id]))
  {
    if id !in db.favorites {
      r := Err(Wrapped(UpdatePrefix, Raised(FavoriteMissing)));
      return;
    }
    var favorite := db.favorites[id];
    var target := favorite.itemId;
    if itemId.Some? && itemId.value != favorite.itemId {
      if itemId.value !in db.favItems {
        r := Err(Wrapped(UpdatePrefix, Raised(ItemMissing)));
        return;
      }
      target := itemId.value;
    }
    if favItem.Some? {
      if target !in db.favItems {
        r := Err(Wrapped(UpdatePrefix, StoreError(P2025, RecordNotFound)));
        return;
      }
      if write.Reject? {
        r := Err(Wrapped(UpdatePrefix, StoreError(write.code, write.message)));
        return;
      }
      RewriteItem(db, target, Rewritten(db.favItems[target], favItem.value));
    }
    Repoint(db, id, Favorite(favorite.userId, target));
    r := Ok(Favorite(favorite.userId, target));
  }

  /** Deletes an existing favourite; its item stays. */
  method Remove(db: Db, id: Id) returns (r: Result<Favorite>)
    requires db.Valid()
    modifies db`favorites
    ensures db.Valid()
    ensures id !in old(db.favorites) ==>
      r == Err(Caught(DeletePrefix, DeleteHandled, Raised(FavoriteMissing))) && db.favorites == old(db.favorites)
    ensures id in old(db.favorites) ==>
      r == Ok(old(db.favorites)[id]) && db.favorites == old(db.favorites) - {id}
  {
    if id !in db.favorites {
      r := Err(Caught(DeletePrefix, DeleteHandled, Raised(FavoriteMissing)));
      return;
    }
    r := Ok(db.favorites[id]);
    db.favorites := db.favorites - {id};
    db.StaysValid();
  }
}
