/** Assigning workers to the worker lines of orders. A worker is attached only
    while free, and attaching makes it busy. */
module AttachedWorkersService {
  import opened Common
  import opened Store

  const CreatePrefix: string := "Error creating attached worker: "
  const UpdatePrefix: string := "Error updating attached worker: "
  const DeletePrefix: string := "Error deleting attached worker: "

  const WorkerMissing: HttpError := HttpError(NotFound, "Worker not found")
  const LineMissing: HttpError := HttpError(NotFound, "OrderWorker not found")
  const NotFree: HttpError := HttpError(BadRequest, "Worker is not free")
  const AttachmentMissing: HttpError := HttpError(NotFound, "Attached worker not found")

  /** The store errors `create` reports as they are; every other error is wrapped. */
  const CreateHandled: map<StoreCode, HttpError> :=
    map[P2003 := HttpError(BadRequest, "Invalid relation: Worker or OrderWorker not found")]

  /** The gate in front of an attachment: the worker and the worker line exist,
      and the worker is free. */
  function Gate(workers: map<Id, Worker>, lines: map<Id, OrderWorker>, workerId: Id, lineId: Id): (r: Option<HttpError>)
    ensures r.None? <==> workerId in workers && lineId in lines && workers[workerId].isFree
    ensures r.Some? ==> r.value in {WorkerMissing, LineMissing, NotFree}
  {
    if workerId !in workers then Some(WorkerMissing)
    else if lineId !in lines then Some(LineMissing)
    else if !workers[workerId].isFree then Some(NotFree)
    else None
  }

  /** The worker table after `workerId` is marked busy. */
  function Busy(workers: map<Id, Worker>, workerId: Id): (r: map<Id, Worker>)
    requires workerId in workers
    ensures r.Keys == workers.Keys && !r[workerId].isFree
    ensures forall w :: w in workers && w != workerId ==> r[w] == workers[w]
  {
    workers[workerId := workers[workerId].(isFree := false)]
  }

  /** Every worker with an attachment is busy. */
  predicate AttachedAreBusy(workers: map<Id, Worker>, attached: map<Id, AttachedWorker>) {
    forall a :: a in attached && attached[a].workerId in workers ==> !workers[attached[a].workerId].isFree
  }

  /** Once attached, a worker cannot be attached again, to any line. */
  lemma AttachOnce(workers: map<Id, Worker>, lines: map<Id, OrderWorker>, workerId: Id, lineId: Id, otherLine: Id)
    requires Gate(workers, lines, workerId, lineId).None?
    ensures Gate(Busy(workers, workerId), lines, workerId, otherLine).Some?
    ensures otherLine in lines ==> Gate(Busy(workers, workerId), lines, workerId, otherLine) == Some(NotFree)
  {
  }

  /** Attaching keeps every attached worker busy. */
  lemma AttachKeepsBusy(workers: map<Id, Worker>, attached: map<Id, AttachedWorker>, id: Id, row: AttachedWorker)
    requires AttachedAreBusy(workers, attached) && row.workerId in workers
    ensures AttachedAreBusy(Busy(workers, row.workerId), attached[id := row])
  {
  }

  /** Re-pointing an attachment to another worker by update passes no gate, so
      a free worker can end up attached. */
  lemma UpdateBypassesGate()
    ensures var workers := map[1 := Worker("a", false), 2 := Worker("b", true)];
      var attached := map[7 := AttachedWorker(5, 1)];
      AttachedAreBusy(workers, attached)
      && !AttachedAreBusy(workers, attached[7 := Patched(attached[7], AttachmentPatch(None, Some(2)))])
  {
    var workers := map[1 := Worker("a", false), 2 := Worker("b", true)];
    var moved := map[7 := AttachedWorker(5, 1)][7 := AttachedWorker(5, 2)];
    assert moved[7].workerId in workers && workers[moved[7].workerId].isFree;
  }

  /** The fields an update may carry. */
  datatype AttachmentPatch = AttachmentPatch(orderWorkerId: Option<Id>, workerId: Option<Id>)

  function Patched(a: AttachedWorker, p: AttachmentPatch): (r: AttachedWorker)
    ensures p.orderWorkerId.None? ==> r.orderWorkerId == a.orderWorkerId
    ensures p.workerId.None? ==> r.workerId == a.workerId
    ensures p.orderWorkerId.Some? ==> r.orderWorkerId == p.orderWorkerId.value
    ensures p.workerId.Some? ==> r.workerId == p.workerId.value
  {
    AttachedWorker(p.orderWorkerId.GetOr(a.orderWorkerId), p.workerId.GetOr(a.workerId))
  }

  /** Attaches worker `workerId` to worker line `lineId`: one attachment row is
      inserted and the worker becomes busy. `insert` is the store's verdict on
      the row. */
  method Create(db: Db, workerId: Id, lineId: Id, insert: Verdict) returns (r: Result<AttachedWorker>)
    requires db.Valid()
    modifies db`attachedWorkers, db`workers, db`nextId
    ensures db.Valid()
    ensures var gate := Gate(old(db.workers), old(db.orderWorkers), workerId, lineId);
      && (gate.Some? ==> r == Err(Caught(CreatePrefix, CreateHandled, Raised(gate.value))))
      && (gate.None? && insert.Reject? ==> r == Err(Caught(CreatePrefix, CreateHandled, StoreError(insert.code, insert.message))))
      && (gate.None? && insert.Accept? ==>
            && r == Ok(AttachedWorker(lineId, workerId))
            && db.attachedWorkers == old(db.attachedWorkers)[old(db.nextId) := AttachedWorker(lineId, workerId)]
            && db.workers == Busy(old(db.workers), workerId)
            && db.nextId == old(db.nextId) + 1)
      && (gate.Some? || insert.Reject? ==> unchanged(db`attachedWorkers, db`workers, db`nextId))
    ensures AttachedAreBusy(old(db.workers), old(db.attachedWorkers)) ==> AttachedAreBusy(db.workers, db.attachedWorkers)
  {
    var gate := Gate(db.workers, db.orderWorkers, workerId, lineId);
    if gate.Some? {
      r := Err(Caught(CreatePrefix, CreateHandled, Raised(gate.value)));
      return;
    }
    if insert.Reject? {
      r := Err(Caught(CreatePrefix, CreateHandled, StoreError(insert.code, insert.message)));
      return;
    }
    r := Attach(db, workerId, lineId);
  }

  /** The accepted path of `Create`: the row is stored under a fresh identifier
      and the worker is marked busy. */
  method Attach(db: Db, workerId: Id, lineId: Id) returns (r: Result<AttachedWorker>)
    requires db.Valid() && workerId in db.workers
    modifies db`attachedWorkers, db`workers, db`nextId
    ensures db.Valid()
    ensures r == Ok(AttachedWorker(lineId, workerId))
    ensures db.attachedWorkers == old(db.attachedWorkers)[old(db.nextId) := AttachedWorker(lineId, workerId)]
    ensures db.workers == Busy(old(db.workers), workerId) && db.nextId == old(db.nextId) + 1
    ensures AttachedAreBusy(old(db.workers), old(db.attachedWorkers)) ==> AttachedAreBusy(db.workers, db.attachedWorkers)
  {
    var row := AttachedWorker(lineId, workerId);
    var id := InsertRow(db, row);
    MarkBusy(db, workerId);
    if AttachedAreBusy(old(db.workers), old(db.attachedWorkers)) {
      AttachKeepsBusy(old(db.workers), old(db.attachedWorkers), id, row);
    }
    r := Ok(row);
  }

  /** Stores one attachment row under a fresh identifier. */
  method InsertRow(db: Db, row: AttachedWorker) returns (id: Id)
    requires db.Valid()
    modifies db`attachedWorkers, db`nextId
    ensures db.Valid()
    ensures id == old(db.nextId) && db.nextId == id + 1
    ensures db.attachedWorkers == old(db.attachedWorkers)[id := row]
  {
    id := db.FreshId();
    db.attachedWorkers := db.attachedWorkers[id := row];
    assert KeysBelow(db.attachedWorkers, db.nextId);
    db.StaysValid();
  }

  /** Marks an existing worker busy. */
  method MarkBusy(db: Db, workerId: Id)
    requires db.Valid() && workerId in db.workers
    modifies db`workers
    ensures db.Valid()
    ensures db.workers == Busy(old(db.workers), workerId)
  {
    db.workers := Busy(db.workers, workerId);
    assert KeysBelow(db.workers, db.nextId);
    db.StaysValid();
  }

  /** Changes the fields of an existing attachment; the worker flags are not
      touched. `write` is the store's verdict on the update. */
  method Update(db: Db, id: Id, patch: AttachmentPatch, write: Verdict) returns (r: Result<AttachedWorker>)
    modifies db`attachedWorkers
    ensures id !in old(db.attachedWorkers) ==>
      r == Err(Wrapped(UpdatePrefix, Raised(AttachmentMissing))) && db.attachedWorkers == old(db.attachedWorkers)
    ensures id in old(db.attachedWorkers) && write.Reject? ==>
      r == Err(Wrapped(UpdatePrefix, StoreError(write.code, write.message))) && db.attachedWorkers == old(db.attachedWorkers)
    ensures id in old(db.attachedWorkers) && write.Accept? ==>
      var a := Patched(old(db.attachedWorkers)[id], patch);
      r == Ok(a) && db.attachedWorkers == old(db.attachedWorkers)[id := a]
  {
    if id !in db.attachedWorkers {
      r := Err(Wrapped(UpdatePrefix, Raised(AttachmentMissing)));
      return;
    }
    if write.Reject? {
      r := Err(Wrapped(UpdatePrefix, StoreError(write.code, write.message)));
      return;
    }
    var a := Patched(db.attachedWorkers[id], patch);
    db.attachedWorkers := db.attachedWorkers[id := a];
    r := Ok(a);
  }

  /** Deletes an existing attachment. The worker stays busy. */
  method Remove(db: Db, id: Id) returns (r: Result<AttachedWorker>)
    modifies db`attachedWorkers
    ensures id !in old(db.attachedWorkers) ==>
      r == Err(Wrapped(DeletePrefix, Raised(AttachmentMissing))) && db.attachedWorkers == old(db.attachedWorkers)
    ensures id in old(db.attachedWorkers) ==>
      r == Ok(old(db.attachedWorkers)[id]) && db.attachedWorkers == old(db.attachedWorkers) - {id}
    ensures AttachedAreBusy(db.workers, old(db.attachedWorkers)) ==> AttachedAreBusy(db.workers, db.attachedWorkers)
  {
    if id !in db.attachedWorkers {
      r := Err(Wrapped(DeletePrefix, Raised(AttachmentMissing)));
      return;
    }
    r := Ok(db.attachedWorkers[id]);
    db.attachedWorkers := db.attachedWorkers - {id};
  }
}
