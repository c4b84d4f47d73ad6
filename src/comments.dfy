/** Comments on orders, each with star ratings of the workers who served it.
    Only the owner of the order may change or delete a comment. */
module CommentsService {
  import opened Common
  import opened Store
  import opened Appending

  /** One rating of a comment request. */
  datatype Rating = Rating(workerId: Id, stars: int)

  const CreatePrefix: string := "Error creating comment and workers: "
  const UpdatePrefix: string := "Error updating comment and workers: "
  const DeletePrefix: string := "Error deleting comment: "

  const OrderMissing: HttpError := HttpError(NotFound, "Order not found")
  /** The not-found error both `update` and `remove` raise for a missing comment. */
  const CommentMissing: HttpError := HttpError(NotFound, "CommentWorker not found")
  const NotOwner: HttpError := HttpError(BadRequest, "You cannot update this comment")

  const DeleteHandled: map<StoreCode, HttpError> := map[P2025 := HttpError(NotFound, "Comment not found")]

  /** The worker of a rating must exist; the two loops word the error differently. */
  function CreateCheck(workers: map<Id, Worker>): Rating -> Option<HttpError> {
    (r: Rating) => if r.workerId in workers then None
                   else Some(HttpError(NotFound, "Worker with ID " + Show(r.workerId) + " not found"))
  }

  function UpdateCheck(workers: map<Id, Worker>): Rating -> Option<HttpError> {
    (r: Rating) => if r.workerId in workers then None
                   else Some(HttpError(NotFound, "Worker " + Show(r.workerId) + " not found"))
  }

  function RatingRow(commentId: Id): Rating -> CommentWorker {
    (r: Rating) => CommentWorker(commentId, r.workerId, r.stars)
  }

  /** The guard in front of changing comment `commentId` on behalf of `userId`:
      the comment exists and its order belongs to that user. A comment whose
      order row is gone fails reading the order's owner. */
  function Ownership(orders: map<Id, Order>, comments: map<Id, Comment>, commentId: Id, userId: Id): (r: Option<Thrown>)
    ensures r.None? <==>
      commentId in comments && comments[commentId].orderId in orders && orders[comments[commentId].orderId].userId == userId
    ensures commentId !in comments ==> r == Some(Raised(CommentMissing))
  {
    if commentId !in comments then Some(Raised(CommentMissing))
    else if comments[commentId].orderId !in orders then Some(ScriptError(NullRead("userId")))
    else if orders[comments[commentId].orderId].userId != userId then Some(Raised(NotOwner))
    else None
  }

  /** The comment a rating belongs to. */
  function RatingComment(w: CommentWorker): Id {
    w.commentId
  }

  /** The message an update leaves: a given message replaces the stored one,
      an absent one leaves it. */
  function NewMessage(stored: Option<string>, given: Option<string>): (m: Option<string>)
    ensures given.Some? ==> m == given
    ensures given.None? ==> m == stored
  {
    if given.Some? then given else stored
  }

  /** After a full replacement the comment's ratings are exactly the given
      ones, in order from id `first`, and the ratings of every other comment
      are kept. */
  lemma ReplaceAll(ratings: map<Id, CommentWorker>, commentId: Id, first: Id, lines: seq<Rating>, workers: map<Id, Worker>)
    requires KeysBelow(ratings, first)
    requires forall j :: 0 <= j < |lines| ==> lines[j].workerId in workers
    ensures var S := AppendAll(Appended(Without(ratings, RatingComment, commentId), first, None), lines, UpdateCheck(workers), RatingRow(commentId));
      && S.fault.None?
      && (forall k :: k in S.rows && S.rows[k].commentId == commentId ==> first <= k < first + |lines|)
      && (forall j :: 0 <= j < |lines| ==> first + j in S.rows && S.rows[first + j] == CommentWorker(commentId, lines[j].workerId, lines[j].stars))
      && (forall k :: k in ratings && ratings[k].commentId != commentId ==> k in S.rows && S.rows[k] == ratings[k])
  {
    var check, make := UpdateCheck(workers), RatingRow(commentId);
    var kept := Without(ratings, RatingComment, commentId);
    AppendAllSettles(kept, first, lines, check, make);
    AllAccepted(lines, workers);
    assert lines[..|lines|] == lines;
    var made := Made(first, lines, make);
    MadeShape(first, lines, make);
    var rows := kept + made;
    assert AppendAll(Appended(kept, first, None), lines, check, make) == Appended(rows, first + |lines|, None);
    forall j | 0 <= j < |lines|
      ensures first + j in rows && rows[first + j] == CommentWorker(commentId, lines[j].workerId, lines[j].stars)
    {
      assert made[first + j] == make(lines[j]);
    }
    forall k | k in ratings && ratings[k].commentId != commentId
      ensures k in rows && rows[k] == ratings[k]
    {
      assert k in kept && k !in made;
    }
  }

  /** With every worker present, no rating is rejected. */
  lemma AllAccepted(lines: seq<Rating>, workers: map<Id, Worker>)
    requires forall j :: 0 <= j < |lines| ==> lines[j].workerId in workers
    ensures FirstRejected(lines, UpdateCheck(workers)) == |lines|
  {
  }

  /** Inserts the ratings of comment `commentId` in order, stopping at the first
      rating whose worker is missing. */
  method AddRatings(db: Db, commentId: Id, lines: seq<Rating>, check: Rating -> Option<HttpError>) returns (fault: Option<HttpError>)
    requires commentId < db.nextId
    requires KeysBelow(db.commentWorkers, db.nextId) && forall k :: k in db.commentWorkers ==> db.commentWorkers[k].commentId < db.nextId
    modifies db`commentWorkers, db`nextId
    ensures KeysBelow(db.commentWorkers, db.nextId) && forall k :: k in db.commentWorkers ==> db.commentWorkers[k].commentId < db.nextId
    ensures db.nextId >= old(db.nextId)
    ensures var A := AppendAll(Appended(old(db.commentWorkers), old(db.nextId), None), lines, check, RatingRow(commentId));
      db.commentWorkers == A.rows && db.nextId == A.nextId && fault == A.fault
  {
    var make := RatingRow(commentId);
    ghost var A0: Appended<CommentWorker> := Appended(db.commentWorkers, db.nextId, None);
    var i := 0;
    while i < |lines|
      invariant 0 <= i <= |lines|
      invariant commentId < db.nextId && db.nextId >= old(db.nextId)
      invariant KeysBelow(db.commentWorkers, db.nextId) && forall k :: k in db.commentWorkers ==> db.commentWorkers[k].commentId < db.nextId
      invariant AppendAll(A0, lines[..i], check, make) == Appended(db.commentWorkers, db.nextId, None)
    {
      var line := lines[i];
      assert lines[..i + 1][..i] == lines[..i];
      var missing := check(line);
      if missing.Some? {
        fault := missing;
        StopsAtRejection(A0, lines, i + 1, check, make);
        return;
      }
      var rowId := db.FreshId();
      db.commentWorkers := db.commentWorkers[rowId := make(line)];
      i := i + 1;
    }
    assert lines[..i] == lines;
    fault := None;
  }

  /** `AddRatings` on a valid store keeps it valid. */
  method Rate(db: Db, commentId: Id, lines: seq<Rating>, check: Rating -> Option<HttpError>) returns (fault: Option<HttpError>)
    requires db.Valid() && commentId < db.nextId
    modifies db`commentWorkers, db`nextId
    ensures db.Valid()
    ensures var A := AppendAll(Appended(old(db.commentWorkers), old(db.nextId), None), lines, check, RatingRow(commentId));
      db.commentWorkers == A.rows && db.nextId == A.nextId && fault == A.fault
  {
    fault := AddRatings(db, commentId, lines, check);
    db.StaysValid();
  }

  /** Inserts a comment row under a fresh id. */
  method PlaceComment(db: Db, c: Comment) returns (id: Id)
    requires db.Valid()
    modifies db`comments, db`nextId
    ensures db.Valid()
    ensures id == old(db.nextId) && db.nextId == id + 1 && db.comments == old(db.comments)[id := c]
  {
    id := db.FreshId();
    db.comments := db.comments[id := c];
    db.StaysValid();
  }

  /** Replaces an existing comment row. */
  method Rewrite(db: Db, commentId: Id, c: Comment)
    requires db.Valid() && commentId in db.comments
    modifies db`comments
    ensures db.Valid()
    ensures db.comments == old(db.comments)[commentId := c]
  {
    db.comments := db.comments[commentId := c];
    assert KeysBelow(db.comments, db.nextId);
    db.StaysValid();
  }

  /** Deletes every rating of comment `commentId`. */
  method ClearRatings(db: Db, commentId: Id)
    requires db.Valid()
    modifies db`commentWorkers
    ensures db.Valid()
    ensures db.commentWorkers == Without(old(db.commentWorkers), RatingComment, commentId)
  {
    db.commentWorkers := Without(db.commentWorkers, RatingComment, commentId);
    db.StaysValid();
  }

  /** Comments on order `orderId` and rates its workers. The comment is
      written first; a missing worker stops the ratings and leaves the comment
      and the earlier ratings stored. Returns the comment with its id.
      `ratings` is `None` when the body has no `commentWorkers`: the loop then
      throws a TypeError after the comment is written. */
  method Create(db: Db, orderId: Id, message: Option<string>, ratings: Option<seq<Rating>>) returns (r: Result<(Id, Comment)>)
    requires db.Valid()
    modifies db`comments, db`commentWorkers, db`nextId
    ensures db.Valid()
    ensures orderId !in db.orders ==>
      r == Err(Wrapped(CreatePrefix, Raised(OrderMissing))) && unchanged(db`comments, db`commentWorkers, db`nextId)
    ensures orderId in db.orders && ratings.None? ==>
      var id := old(db.nextId);
      && db.comments == old(db.comments)[id := Comment(orderId, message)]
      && db.commentWorkers == old(db.commentWorkers) && db.nextId == id + 1
      && r == Err(Wrapped(CreatePrefix, ScriptError(NotIterable("commentWorkers"))))
    ensures orderId in db.orders && ratings.Some? ==>
      var id := old(db.nextId);
      var A := AppendAll(Appended(old(db.commentWorkers), id + 1, None), ratings.value, CreateCheck(db.workers), RatingRow(id));
      && db.comments == old(db.comments)[id := Comment(orderId, message)]
      && db.commentWorkers == A.rows && db.nextId == A.nextId
      && (A.fault.Some? ==> r == Err(Wrapped(CreatePrefix, Raised(A.fault.value))))
      && (A.fault.None? ==> r == Ok((id, Comment(orderId, message))))
  {
    if orderId !in db.orders {
      r := Err(Wrapped(CreatePrefix, Raised(OrderMissing)));
      return;
    }
    var id := PlaceComment(db, Comment(orderId, message));
    if ratings.None? {
      r := Err(Wrapped(CreatePrefix, ScriptError(NotIterable("commentWorkers"))));
      return;
    }
    var fault := Rate(db, id, ratings.value, CreateCheck(db.workers));
    if fault.Some? {
      r := Err(Wrapped(CreatePrefix, Raised(fault.value)));
    } else {
      r := Ok((id, Comment(orderId, message)));
    }
  }

  /** Lets the owner of the order change a comment's message and, when a
      non-empty list of ratings is given, replace all of its ratings. The
      message is written before the ratings; the old ratings are deleted before
      the new ones are checked. */
  method Update(db: Db, commentId: Id, message: Option<string>, ratings: Option<seq<Rating>>, userId: Id)
    returns (r: Result<Comment>)
    requires db.Valid()
    modifies db`comments, db`commentWorkers, db`nextId
    ensures db.Valid()
    ensures var guard := Ownership(db.orders, old(db.comments), commentId, userId);
      && (guard.Some? ==> r == Err(Wrapped(UpdatePrefix, guard.value)) && unchanged(db`comments, db`commentWorkers, db`nextId))
      && (guard.None? ==>
            var c := old(db.comments)[commentId].(message := NewMessage(old(db.comments)[commentId].message, message));
            && db.comments == old(db.comments)[commentId := c]
            && (ratings.None? || |ratings.value| == 0 ==>
                  r == Ok(c) && db.commentWorkers == old(db.commentWorkers) && db.nextId == old(db.nextId))
            && (ratings.Some? && |ratings.value| > 0 ==>
                  var A := AppendAll(Appended(Without(old(db.commentWorkers), RatingComment, commentId), old(db.nextId), None),
                                     ratings.value, UpdateCheck(db.workers), RatingRow(commentId));
                  && db.commentWorkers == A.rows && db.nextId == A.nextId
                  && (A.fault.Some? ==> r == Err(Wrapped(UpdatePrefix, Raised(A.fault.value))))
                  && (A.fault.None? ==> r == Ok(c))))
  {
    var guard := Ownership(db.orders, db.comments, commentId, userId);
    if guard.Some? {
      r := Err(Wrapped(UpdatePrefix, guard.value));
      return;
    }
    var c := db.comments[commentId].(message := NewMessage(db.comments[commentId].message, message));
    Rewrite(db, commentId, c);
    if ratings.None? || |ratings.value| == 0 {
      r := Ok(c);
      return;
    }
    ClearRatings(db, commentId);
    var fault := Rate(db, commentId, ratings.value, UpdateCheck(db.workers));
    if fault.Some? {
      r := Err(Wrapped(UpdatePrefix, Raised(fault.value)));
    } else {
      r := Ok(c);
    }
  }

  /** Lets the owner of the order delete a comment. `write` is the store's
      verdict on the delete. */
  method Remove(db: Db, commentId: Id, userId: Id, write: Verdict) returns (r: Result<Comment>)
    requires db.Valid()
    modifies db`comments
    ensures db.Valid()
    ensures var guard := Ownership(db.orders, old(db.comments), commentId, userId);
      && (guard.Some? ==> r == Err(Caught(DeletePrefix, DeleteHandled, guard.value)) && db.comments == old(db.comments))
      && (guard.None? && write.Reject? ==>
            r == Err(Caught(DeletePrefix, DeleteHandled, StoreError(write.code, write.message))) && db.comments == old(db.comments))
      && (guard.None? && write.Accept? ==>
            r == Ok(old(db.comments)[commentId]) && db.comments == old(db.comments) - {commentId})
  {
    var guard := Ownership(db.orders, db.comments, commentId, userId);
    if guard.Some? {
      r := Err(Caught(DeletePrefix, DeleteHandled, guard.value));
      return;
    }
    if write.Reject? {
      r := Err(Caught(DeletePrefix, DeleteHandled, StoreError(write.code, write.message)));
      return;
    }
    r := Ok(db.comments[commentId]);
    db.comments := db.comments - {commentId};
    db.StaysValid();
  }

  /** A guard failure never reaches the caller as the store's not-found: it is
      an internal error whose message carries the guard's own message. */
  lemma GuardFailuresAreInternal(orders: map<Id, Order>, comments: map<Id, Comment>, commentId: Id, userId: Id)
    requires Ownership(orders, comments, commentId, userId).Some?
    ensures var t := Ownership(orders, comments, commentId, userId).value;
      Caught(DeletePrefix, DeleteHandled, t) == HttpError(InternalServerError, DeletePrefix + t.Message())
  {
  }
}
