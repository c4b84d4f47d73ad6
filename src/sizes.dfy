/** The sizes of tools: labels unique per tool up to case. */
module SizesService {
  import opened Common
  import opened Store
  import opened ToolLabels

  const Words: Wording := Wording(
    "Size",
    "Related tool does not exist",
    "Duplicate size name",
    "Error creating size: ",
    "Error fetching size by name: ",
    "Error updating size: ",
    "Error deleting size: ")

  /** Adds size `l` when its tool exists and has no size of that name.
      `insert` is the store's verdict on the row. */
  method Create(db: Db, l: ToolLabel, insert: Verdict) returns (r: Result<(Id, ToolLabel)>)
    requires db.Valid()
    modifies db`sizes, db`nextId
    ensures db.Valid()
    ensures var gate := CreateGate(Words, db.tools, old(db.sizes), db.fold, l);
      && (gate.Some? ==> r == Err(Caught(Words.createPrefix, CreateHandled(Words), Raised(gate.value))))
      && (gate.None? && insert.Reject? ==>
            r == Err(Caught(Words.createPrefix, CreateHandled(Words), StoreError(insert.code, insert.message))))
      && (gate.None? && insert.Accept? ==>
            r == Ok((old(db.nextId), l)) && db.sizes == old(db.sizes)[old(db.nextId) := l]
            && db.nextId == old(db.nextId) + 1)
      && (r.Err? ==> db.sizes == old(db.sizes) && db.nextId == old(db.nextId))
    ensures UniqueLabels(old(db.sizes), db.fold) ==> UniqueLabels(db.sizes, db.fold)
  {
    var gate := CreateGate(Words, db.tools, db.sizes, db.fold, l);
    if gate.Some? {
      r := Err(Caught(Words.createPrefix, CreateHandled(Words), Raised(gate.value)));
      return;
    }
    if insert.Reject? {
      r := Err(Caught(Words.createPrefix, CreateHandled(Words), StoreError(insert.code, insert.message)));
      return;
    }
    var id := db.FreshId();
    if UniqueLabels(db.sizes, db.fold) {
      CreateKeepsUnique(db.sizes, db.fold, id, l);
    }
    db.sizes := db.sizes[id := l];
    db.StaysValid();
    r := Ok((id, l));
  }

  /** Some size whose name folds like `name`, on whichever tool. */
  method FindByName(db: Db, name: string) returns (r: Result<(Id, ToolLabel)>)
    ensures r.Ok? ==> NamedLike(db.sizes, db.fold, name, r.value.0) && r.value.1 == db.sizes[r.value.0]
    ensures r.Err? <==> forall k :: !NamedLike(db.sizes, db.fold, name, k)
    ensures r.Err? ==> r.error == Wrapped(Words.findPrefix, Raised(Missing(Words)))
  {
    if k :| k in db.sizes && NamedLike(db.sizes, db.fold, name, k) {
      r := Ok((k, db.sizes[k]));
    } else {
      r := Err(Wrapped(Words.findPrefix, Raised(Missing(Words))));
    }
  }

  /** Rewrites size `id` with the fields of `p`. `write` is the store's
      verdict on the update. */
  method Update(db: Db, id: Id, p: LabelPatch, write: Verdict) returns (r: Result<ToolLabel>)
    modifies db`sizes
    ensures var gate := UpdateGate(Words, db.tools, old(db.sizes), db.fold, id, p);
      && (gate.Some? ==> r == Err(Wrapped(Words.updatePrefix, gate.value)))
      && (gate.None? && write.Reject? ==> r == Err(Wrapped(Words.updatePrefix, StoreError(write.code, write.message))))
      && (gate.None? && write.Accept? ==>
            r == Ok(Patched(old(db.sizes)[id], p)) && db.sizes == old(db.sizes)[id := r.value])
      && (r.Err? ==> db.sizes == old(db.sizes))
    ensures UniqueLabels(old(db.sizes), db.fold) ==> UniqueLabels(db.sizes, db.fold)
  {
    var gate := UpdateGate(Words, db.tools, db.sizes, db.fold, id, p);
    if gate.Some? {
      r := Err(Wrapped(Words.updatePrefix, gate.value));
      return;
    }
    if write.Reject? {
      r := Err(Wrapped(Words.updatePrefix, StoreError(write.code, write.message)));
      return;
    }
    var l := Patched(db.sizes[id], p);
    if UniqueLabels(db.sizes, db.fold) {
      UpdateKeepsUnique(db.sizes, db.fold, id, p);
    }
    db.sizes := db.sizes[id := l];
    r := Ok(l);
  }

  /** Deletes size `id`. `delete` is the store's verdict on the delete. */
  method Remove(db: Db, id: Id, delete: Verdict) returns (r: Result<ToolLabel>)
    modifies db`sizes
    ensures id !in old(db.sizes) ==>
      r == Err(Caught(Words.deletePrefix, DeleteHandled(Words), Raised(Missing(Words))))
    ensures id in old(db.sizes) && delete.Reject? ==>
      r == Err(Caught(Words.deletePrefix, DeleteHandled(Words), StoreError(delete.code, delete.message)))
    ensures id in old(db.sizes) && delete.Accept? ==>
      r == Ok(old(db.sizes)[id]) && db.sizes == old(db.sizes) - {id}
    ensures r.Err? ==> db.sizes == old(db.sizes)
  {
    if id !in db.sizes {
      r := Err(Caught(Words.deletePrefix, DeleteHandled(Words), Raised(Missing(Words))));
      return;
    }
    if delete.Reject? {
      r := Err(Caught(Words.deletePrefix, DeleteHandled(Words), StoreError(delete.code, delete.message)));
      return;
    }
    r := Ok(db.sizes[id]);
    db.sizes := db.sizes - {id};
  }

  /** The pre-check's own not-found is caught and reported as an internal
      error; only the store's record-not-found on delete becomes a not-found. */
  lemma MissingIsInternal()
    ensures Caught(Words.deletePrefix, DeleteHandled(Words), Raised(Missing(Words))).status == InternalServerError
    ensures Caught(Words.deletePrefix, DeleteHandled(Words), StoreError(P2025, RecordNotFound)) == Missing(Words)
  {
  }
}
