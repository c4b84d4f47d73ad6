/** Single star ratings of workers, addressed one row at a time. */
module CommentWorkersService {
  import opened Common
  import opened Store
  import CommentsService

  const CreatePrefix: string := "Error creating comment-worker: "
  const UpdatePrefix: string := "Error updating comment-worker: "
  const DeletePrefix: string := "Error deleting comment-worker: "

  const WorkerMissing: HttpError := HttpError(NotFound, "Worker not found")
  const CommentMissing: HttpError := HttpError(NotFound, "Comment not found")
  const RatingMissing: HttpError := HttpError(NotFound, "CommentWorker not found")

  const CreateHandled: map<StoreCode, HttpError> :=
    map[P2002 := HttpError(BadRequest, "Duplicate comment for worker"),
        P2003 := HttpError(BadRequest, "Invalid relation data")]

  const DeleteHandled: map<StoreCode, HttpError> := map[P2025 := RatingMissing]

  /** The fields an update may carry. */
  datatype RatingPatch = RatingPatch(commentId: Option<Id>, workerId: Option<Id>, stars: Option<int>)

  function Patched(c: CommentWorker, p: RatingPatch): (r: CommentWorker)
    ensures p.stars.Some? ==> r.stars == p.stars.value
    ensures p.stars.None? ==> r.stars == c.stars
    ensures p.commentId.Some? ==> r.commentId == p.commentId.value
    ensures p.commentId.None? ==> r.commentId == c.commentId
    ensures p.workerId.Some? ==> r.workerId == p.workerId.value
    ensures p.workerId.None? ==> r.workerId == c.workerId
  {
    CommentWorker(p.commentId.GetOr(c.commentId), p.workerId.GetOr(c.workerId), p.stars.GetOr(c.stars))
  }

  /** Applying the same patch again changes nothing more. */
  lemma PatchedIdempotent(c: CommentWorker, p: RatingPatch)
    ensures Patched(Patched(c, p), p) == Patched(c, p)
  {
  }

  /** The existence checks of `create`: the worker first, then the comment. */
  function Existence(workers: map<Id, Worker>, comments: map<Id, Comment>, workerId: Id, commentId: Id): (r: Option<HttpError>)
    ensures r.None? <==> workerId in workers && commentId in comments
    ensures workerId !in workers ==> r == Some(WorkerMissing)
  {
    if workerId !in workers then Some(WorkerMissing)
    else if commentId !in comments then Some(CommentMissing)
    else None
  }

  /** The guard in front of changing rating `id` on behalf of `userId`: the
      rating exists, and the owner of its comment's order is that user. A
      missing comment or order fails reading through it. */
  function Ownership(orders: map<Id, Order>, comments: map<Id, Comment>, ratings: map<Id, CommentWorker>, id: Id, userId: Id)
    : (r: Option<Thrown>)
    ensures r.None? <==>
      && id in ratings && ratings[id].commentId in comments
      && comments[ratings[id].commentId].orderId in orders
      && orders[comments[ratings[id].commentId].orderId].userId == userId
    ensures id !in ratings ==> r == Some(Raised(RatingMissing))
  {
    if id !in ratings then Some(Raised(RatingMissing))
    else if ratings[id].commentId !in comments then Some(ScriptError(NullRead("order")))
    else
      var comment := comments[ratings[id].commentId];
      if comment.orderId !in orders then Some(ScriptError(NullRead("userId")))
      else if orders[comment.orderId].userId != userId then Some(Raised(CommentsService.NotOwner))
      else None
  }

  /** Rates a worker within a comment; `insert` is the store's verdict on the
      row, which a refused foreign key (P2003) or a unique constraint (P2002)
      can turn down. */
  method Create(db: Db, commentId: Id, workerId: Id, stars: int, insert: Verdict) returns (r: Result<CommentWorker>)
    requires db.Valid()
    modifies db`commentWorkers, db`nextId
    ensures db.Valid()
    ensures var gate := Existence(db.workers, db.comments, workerId, commentId);
      && (gate.Some? ==> r == Err(Caught(CreatePrefix, CreateHandled, Raised(gate.value))))
      && (gate.None? && insert.Reject? ==> r == Err(Caught(CreatePrefix, CreateHandled, StoreError(insert.code, insert.message))))
      && (gate.Some? || insert.Reject? ==> unchanged(db`commentWorkers, db`nextId))
      && (gate.None? && insert.Accept? ==>
            r == Ok(CommentWorker(commentId, workerId, stars))
            && db.commentWorkers == old(db.commentWorkers)[old(db.nextId) := CommentWorker(commentId, workerId, stars)]
            && db.nextId == old(db.nextId) + 1)
  {
    var gate := Existence(db.workers, db.comments, workerId, commentId);
    if gate.Some? {
      r := Err(Caught(CreatePrefix, CreateHandled, Raised(gate.value)));
      return;
    }
    if insert.Reject? {
      r := Err(Caught(CreatePrefix, CreateHandled, StoreError(insert.code, insert.message)));
      return;
    }
    var id := db.FreshId();
    var row := CommentWorker(commentId, workerId, stars);
    db.commentWorkers := db.commentWorkers[id := row];
    db.StaysValid();
    r := Ok(row);
  }

  /** Lets the owner of the order change the supplied fields of one rating;
      `write` is the store's verdict on the update. */
  method Update(db: Db, id: Id, patch: RatingPatch, userId: Id, write: Verdict) returns (r: Result<CommentWorker>)
    requires db.Valid()
    requires write.Accept? && patch.commentId.Some? ==> patch.commentId.value in db.comments
    modifies db`commentWorkers
    ensures db.Valid()
    ensures var guard := Ownership(db.orders, db.comments, old(db.commentWorkers), id, userId);
      && (guard.Some? ==> r == Err(Wrapped(UpdatePrefix, guard.value)) && db.commentWorkers == old(db.commentWorkers))
      && (guard.None? && write.Reject? ==>
            r == Err(Wrapped(UpdatePrefix, StoreError(write.code, write.message))) && db.commentWorkers == old(db.commentWorkers))
      && (guard.None? && write.Accept? ==>
            var c := Patched(old(db.commentWorkers)[id], patch);
            r == Ok(c) && db.commentWorkers == old(db.commentWorkers)[id := c])
  {
    var guard := Ownership(db.orders, db.comments, db.commentWorkers, id, userId);
    if guard.Some? {
      r := Err(Wrapped(UpdatePrefix, guard.value));
      return;
    }
    if write.Reject? {
      r := Err(Wrapped(UpdatePrefix, StoreError(write.code, write.message)));
      return;
    }
    var c := Patched(db.commentWorkers[id], patch);
    db.commentWorkers := db.commentWorkers[id := c];
    db.StaysValid();
    r := Ok(c);
  }

  /** Lets the owner of the order delete one rating; `write` is the store's
      verdict on the delete. */
  method Remove(db: Db, id: Id, userId: Id, write: Verdict) returns (r: Result<CommentWorker>)
    requires db.Valid()
    modifies db`commentWorkers
    ensures db.Valid()
    ensures var guard := Ownership(db.orders, db.comments, old(db.commentWorkers), id, userId);
      && (guard.Some? ==> r == Err(Caught(DeletePrefix, DeleteHandled, guard.value)) && db.commentWorkers == old(db.commentWorkers))
      && (guard.None? && write.Reject? ==>
            r == Err(Caught(DeletePrefix, DeleteHandled, StoreError(write.code, write.message)))
            && db.commentWorkers == old(db.commentWorkers))
      && (guard.None? && write.Accept? ==>
            r == Ok(old(db.commentWorkers)[id]) && db.commentWorkers == old(db.commentWorkers) - {id})
  {
    var guard := Ownership(db.orders, db.comments, db.commentWorkers, id, userId);
    if guard.Some? {
      r := Err(Caught(DeletePrefix, DeleteHandled, guard.value));
      return;
    }
    if write.Reject? {
      r := Err(Caught(DeletePrefix, DeleteHandled, StoreError(write.code, write.message)));
      return;
    }
    r := Ok(db.commentWorkers[id]);
    db.commentWorkers := db.commentWorkers - {id};
    db.StaysValid();
  }

  /** Only someone other than the owner is refused as not the owner; the owner
      passes the guard of every rating whose comment and order are present. */
  lemma OwnerPasses(orders: map<Id, Order>, comments: map<Id, Comment>, ratings: map<Id, CommentWorker>, id: Id, userId: Id)
    requires id in ratings && ratings[id].commentId in comments && comments[ratings[id].commentId].orderId in orders
    ensures var owner := orders[comments[ratings[id].commentId].orderId].userId;
      && Ownership(orders, comments, ratings, id, owner).None?
      && (userId != owner ==> Ownership(orders, comments, ratings, id, userId) == Some(Raised(CommentsService.NotOwner)))
  {
  }
}
