/** The capacities of tools: labels unique per tool up to case. */
module CapacitiesService {
  import opened Common
  import opened Store
  import opened ToolLabels

  const Words: Wording := Wording(
    "Capacity",
    "Tool does not exist",
    "Duplicate capacity name",
    "Error creating capacity: ",
    "Error fetching capacity by name: ",
    "Error updating capacity: ",
    "Error deleting capacity: ")

  /** Adds capacity `l` when its tool exists and has no capacity of that name.
      `insert` is the store's verdict on the row. */
  method Create(db: Db, l: ToolLabel, insert: Verdict) returns (r: Result<(Id, ToolLabel)>)
    requires db.Valid()
    modifies db`capacities, db`nextId
    ensures db.Valid()
    ensures var gate := CreateGate(Words, db.tools, old(db.capacities), db.fold, l);
      && (gate.Some? ==> r == Err(Caught(Words.createPrefix, CreateHandled(Words), Raised(gate.value))))
      && (gate.None? && insert.Reject? ==>
            r == Err(Caught(Words.createPrefix, CreateHandled(Words), StoreError(insert.code, insert.message))))
      && (gate.None? && insert.Accept? ==>
            r == Ok((old(db.nextId), l)) && db.capacities == old(db.capacities)[old(db.nextId) := l]
            && db.nextId == old(db.nextId) + 1)
      && (r.Err? ==> db.capacities == old(db.capacities) && db.nextId == old(db.nextId))
    ensures UniqueLabels(old(db.capacities), db.fold) ==> UniqueLabels(db.capacities, db.fold)
  {
    var gate := CreateGate(Words, db.tools, db.capacities, db.fold, l);
    if gate.Some? {
      r := Err(Caught(Words.createPrefix, CreateHandled(Words), Raised(gate.value)));
      return;
    }
    if insert.Reject? {
      r := Err(Caught(Words.createPrefix, CreateHandled(Words), StoreError(insert.code, insert.message)));
      return;
    }
    var id := db.FreshId();
    if UniqueLabels(db.capacities, db.fold) {
      CreateKeepsUnique(db.capacities, db.fold, id, l);
    }
    db.capacities := db.capacities[id := l];
    db.StaysValid();
    r := Ok((id, l));
  }

  /** Some capacity whose name folds like `name`, on whichever tool. */
  method FindByName(db: Db, name: string) returns (r: Result<(Id, ToolLabel)>)
    ensures r.Ok? ==> NamedLike(db.capacities, db.fold, name, r.value.0) && r.value.1 == db.capacities[r.value.0]
    ensures r.Err? <==> forall k :: !NamedLike(db.capacities, db.fold, name, k)
    ensures r.Err? ==> r.error == Wrapped(Words.findPrefix, Raised(Missing(Words)))
  {
    if k :| k in db.capacities && NamedLike(db.capacities, db.fold, name, k) {
      r := Ok((k, db.capacities[k]));
    } else {
      r := Err(Wrapped(Words.findPrefix, Raised(Missing(Words))));
    }
  }

  /** Rewrites capacity `id` with the fields of `p`. `write` is the store's
      verdict on the update. */
  method Update(db: Db, id: Id, p: LabelPatch, write: Verdict) returns (r: Result<ToolLabel>)
    modifies db`capacities
    ensures var gate := UpdateGate(Words, db.tools, old(db.capacities), db.fold, id, p);
      && (gate.Some? ==> r == Err(Wrapped(Words.updatePrefix, gate.value)))
      && (gate.None? && write.Reject? ==> r == Err(Wrapped(Words.updatePrefix, StoreError(write.code, write.message))))
      && (gate.None? && write.Accept? ==>
            r == Ok(Patched(old(db.capacities)[id], p)) && db.capacities == old(db.capacities)[id := r.value])
      && (r.Err? ==> db.capacities == old(db.capacities))
    ensures UniqueLabels(old(db.capacities), db.fold) ==> UniqueLabels(db.capacities, db.fold)
  {
    var gate := UpdateGate(Words, db.tools, db.capacities, db.fold, id, p);
    if gate.Some? {
      r := Err(Wrapped(Words.updatePrefix, gate.value));
      return;
    }
    if write.Reject? {
      r := Err(Wrapped(Words.updatePrefix, StoreError(write.code, write.message)));
      return;
    }
    var l := Patched(db.capacities[id], p);
    if UniqueLabels(db.capacities, db.fold) {
      UpdateKeepsUnique(db.capacities, db.fold, id, p);
    }
    db.capacities := db.capacities[id := l];
    r := Ok(l);
  }

  /** Deletes capacity `id`. `delete` is the store's verdict on the delete. */
  method Remove(db: Db, id: Id, delete: Verdict) returns (r: Result<ToolLabel>)
    modifies db`capacities
    ensures id !in old(db.capacities) ==>
      r == Err(Caught(Words.deletePrefix, DeleteHandled(Words), Raised(Missing(Words))))
    ensures id in old(db.capacities) && delete.Reject? ==>
      r == Err(Caught(Words.deletePrefix, DeleteHandled(Words), StoreError(delete.code, delete.message)))
    ensures id in old(db.capacities) && delete.Accept? ==>
      r == Ok(old(db.capacities)[id]) && db.capacities == old(db.capacities) - {id}
    ensures r.Err? ==> db.capacities == old(db.capacities)
  {
    if id !in db.capacities {
      r := Err(Caught(Words.deletePrefix, DeleteHandled(Words), Raised(Missing(Words))));
      return;
    }
    if delete.Reject? {
      r := Err(Caught(Words.deletePrefix, DeleteHandled(Words), StoreError(delete.code, delete.message)));
      return;
    }
    r := Ok(db.capacities[id]);
    db.capacities := db.capacities - {id};
  }

  /** The pre-check's own not-found is caught and reported as an internal
      error; only the store's record-not-found on delete becomes a not-found. */
  lemma MissingIsInternal()
    ensures Caught(Words.deletePrefix, DeleteHandled(Words), Raised(Missing(Words))).status == InternalServerError
    ensures Caught(Words.deletePrefix, DeleteHandled(Words), StoreError(P2025, RecordNotFound)) == Missing(Words)
  {
  }
}
