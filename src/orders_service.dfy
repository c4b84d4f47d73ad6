/** Placing, updating and deleting orders. */
module OrdersService {
  import opened Common
  import opened Store
  import opened OrderLedger
  import opened Appending
  import opened OrderNotification

  /** A worker line of an order request (the order id is the new order's). */
  datatype WorkerLine = WorkerLine(
    workerProficiencyId: Id,
    workerLevelId: Id,
    count: int,
    withTools: bool,
    time: int,
    timeUnit: string,
    price: real)

  /** A validated order request. `paymentStatus` is accepted but not used. */
  datatype OrderRequest = OrderRequest(
    userId: Id,
    status: string,
    date: string,
    address: Option<string>,
    overallPrice: real,
    paymentMethodId: Id,
    withDelivery: bool,
    deliveryComment: Option<string>,
    longitude: Option<real>,
    latitude: Option<real>,
    paymentStatus: Option<string>,
    orderTools: Option<seq<ToolLine>>,
    orderWorkers: Option<seq<WorkerLine>>)

  /** The fields an order update may carry; an absent field is left as it is. */
  datatype OrderPatch = OrderPatch(
    date: Option<string>,
    address: Option<string>,
    overallPrice: Option<real>,
    paymentMethodId: Option<Id>,
    withDelivery: Option<bool>,
    deliveryComment: Option<string>,
    latitude: Option<real>,
    longitude: Option<real>,
    status: Option<string>,
    paymentStatus: Option<string>)

  const CreatePrefix: string := "Error creating order: "
  const UpdatePrefix: string := "Error updating order: "
  const DeletePrefix: string := "Error deleting order: "
  const OrderMissing: HttpError := HttpError(NotFound, "Order not found")

  /** The order row built from the request's scalar fields. */
  function NewOrder(req: OrderRequest): (o: Order)
    ensures o.paymentStatus == DefaultPaymentStatus
    ensures o.userId == req.userId && o.paymentMethodId == req.paymentMethodId
  {
    Order(req.userId, req.status, req.date, req.address, req.overallPrice, req.paymentMethodId,
          req.withDelivery, req.deliveryComment, req.longitude, req.latitude, DefaultPaymentStatus)
  }

  function WorkerFault(proficiencies: map<Id, Proficiency>, levels: map<Id, Level>, l: WorkerLine): (r: Option<HttpError>)
    ensures r.None? <==> l.workerProficiencyId in proficiencies && l.workerLevelId in levels
  {
    if l.workerProficiencyId !in proficiencies then
      Some(HttpError(NotFound, "Worker proficiency with id " + Show(l.workerProficiencyId) + " not found"))
    else if l.workerLevelId !in levels then
      Some(HttpError(NotFound, "Worker level with id " + Show(l.workerLevelId) + " not found"))
    else None
  }

  /** The check a worker line must pass: its proficiency and its level exist. */
  function WorkerCheck(proficiencies: map<Id, Proficiency>, levels: map<Id, Level>): WorkerLine -> Option<HttpError> {
    (l: WorkerLine) => WorkerFault(proficiencies, levels, l)
  }

  /** The order-worker row a line produces for order `orderId`. */
  function WorkerRow(orderId: Id): WorkerLine -> OrderWorker {
    (l: WorkerLine) => OrderWorker(orderId, l.workerProficiencyId, l.workerLevelId, l.count, l.withTools, l.time, l.timeUnit, l.price)
  }

  function ToolsOf(req: OrderRequest): seq<ToolLine> {
    req.orderTools.GetOr([])
  }

  function WorkersOf(req: OrderRequest): seq<WorkerLine> {
    req.orderWorkers.GetOr([])
  }

  /** The tool items of the re-read order: one per line, in line order, without a name. */
  function ToolItems(lines: seq<ToolLine>): (r: seq<ToolItem>)
    ensures |r| == |lines|
    ensures forall j :: 0 <= j < |lines| ==> r[j] == ToolItem(None, lines[j].count, lines[j].price)
  {
    seq(|lines|, j requires 0 <= j < |lines| => ToolItem(None, lines[j].count, lines[j].price))
  }

  /** The worker items of the re-read order, with the names of their proficiency and level. */
  function WorkerItems(proficiencies: map<Id, Proficiency>, levels: map<Id, Level>, lines: seq<WorkerLine>): (r: seq<WorkerItem>)
    ensures |r| == |lines|
  {
    seq(|lines|, j requires 0 <= j < |lines| =>
      var l := lines[j];
      WorkerItem(
        if l.workerProficiencyId in proficiencies then Some(proficiencies[l.workerProficiencyId].name) else None,
        if l.workerLevelId in levels then Some(levels[l.workerLevelId].name) else None,
        l.count, l.withTools, l.time, l.timeUnit))
  }

  /** The order as it is read back after every line was stored. */
  function PlacedView(id: Id, req: OrderRequest, users: map<Id, User>, methods: map<Id, PaymentMethod>,
                      proficiencies: map<Id, Proficiency>, levels: map<Id, Level>): OrderView
  {
    OrderView(id, NewOrder(req),
      if req.userId in users then Some(users[req.userId]) else None,
      if req.paymentMethodId in methods then Some(methods[req.paymentMethodId]) else None,
      Some(ToolItems(ToolsOf(req))),
      Some(WorkerItems(proficiencies, levels, WorkersOf(req))))
  }

  /** The order update: every field the patch carries replaces the stored one. */
  function Patched(o: Order, p: OrderPatch): (r: Order)
    ensures r.userId == o.userId
    ensures p.status.Some? ==> r.status == p.status.value
    ensures p.status.None? ==> r.status == o.status
    ensures p.date.Some? ==> r.date == p.date.value
    ensures p.date.None? ==> r.date == o.date
    ensures p.address.Some? ==> r.address == p.address
    ensures p.address.None? ==> r.address == o.address
    ensures p.overallPrice.Some? ==> r.overallPrice == p.overallPrice.value
    ensures p.overallPrice.None? ==> r.overallPrice == o.overallPrice
    ensures p.paymentMethodId.Some? ==> r.paymentMethodId == p.paymentMethodId.value
    ensures p.paymentMethodId.None? ==> r.paymentMethodId == o.paymentMethodId
    ensures p.withDelivery.Some? ==> r.withDelivery == p.withDelivery.value
    ensures p.withDelivery.None? ==> r.withDelivery == o.withDelivery
    ensures p.deliveryComment.Some? ==> r.deliveryComment == p.deliveryComment
    ensures p.deliveryComment.None? ==> r.deliveryComment == o.deliveryComment
    ensures p.longitude.Some? ==> r.longitude == p.longitude
    ensures p.longitude.None? ==> r.longitude == o.longitude
    ensures p.latitude.Some? ==> r.latitude == p.latitude
    ensures p.latitude.None? ==> r.latitude == o.latitude
    ensures p.paymentStatus.Some? ==> r.paymentStatus == p.paymentStatus.value
    ensures p.paymentStatus.None? ==> r.paymentStatus == o.paymentStatus
  {
    Order(o.userId, p.status.GetOr(o.status), p.date.GetOr(o.date), p.address.Or(o.address),
          p.overallPrice.GetOr(o.overallPrice), p.paymentMethodId.GetOr(o.paymentMethodId),
          p.withDelivery.GetOr(o.withDelivery), p.deliveryComment.Or(o.deliveryComment),
          p.longitude.Or(o.longitude), p.latitude.Or(o.latitude),
          p.paymentStatus.GetOr(o.paymentStatus))
  }

  const EmptyPatch: OrderPatch := OrderPatch(None, None, None, None, None, None, None, None, None, None)

  /** An empty patch changes nothing, a patch applied twice is applied once, and
      a later patch wins over an earlier one field by field. */
  lemma PatchLaws(o: Order, p: OrderPatch, q: OrderPatch)
    ensures Patched(o, EmptyPatch) == o
    ensures Patched(Patched(o, p), p) == Patched(o, p)
    ensures Patched(Patched(o, p), q) == Patched(o, Overlay(p, q))
  {
  }

  /** The patch that has `q`'s fields where `q` has them and `p`'s elsewhere. */
  function Overlay(p: OrderPatch, q: OrderPatch): OrderPatch {
    OrderPatch(
      if q.date.Some? then q.date else p.date,
      if q.address.Some? then q.address else p.address,
      if q.overallPrice.Some? then q.overallPrice else p.overallPrice,
      if q.paymentMethodId.Some? then q.paymentMethodId else p.paymentMethodId,
      if q.withDelivery.Some? then q.withDelivery else p.withDelivery,
      if q.deliveryComment.Some? then q.deliveryComment else p.deliveryComment,
      if q.latitude.Some? then q.latitude else p.latitude,
      if q.longitude.Some? then q.longitude else p.longitude,
      if q.status.Some? then q.status else p.status,
      if q.paymentStatus.Some? then q.paymentStatus else p.paymentStatus)
  }

  /** Every order-tool row sits under an id below `bound` and points at an order below it. */
  ghost predicate ToolRowsBelow(rows: map<Id, OrderTool>, bound: nat) {
    KeysBelow(rows, bound) && forall k :: k in rows ==> rows[k].orderId < bound
  }

  /** One tool line for order `id`: the tool must exist and hold at least the
      count; then the order-tool row is inserted and the stock decremented. */
  method TakeLine(db: Db, id: Id, line: ToolLine) returns (fault: Option<HttpError>)
    requires id < db.nextId && ToolRowsBelow(db.orderTools, db.nextId)
    modifies db`tools, db`orderTools, db`nextId
    ensures ToolRowsBelow(db.orderTools, db.nextId)
    ensures Progress(Ledger(db.tools, db.orderTools, db.nextId), fault)
         == Take(Progress(Ledger(old(db.tools), old(db.orderTools), old(db.nextId)), None), id, line)
  {
    if line.toolId !in db.tools {
      return Some(ToolMissing(line.toolId));
    }
    var tool := db.tools[line.toolId];
    if tool.inStockCount < line.count {
      return Some(OutOfStock(line.toolId));
    }
    var rowId := db.FreshId();
    db.orderTools := db.orderTools[rowId := OrderTool(id, line.toolId, line.count, line.price)];
    db.tools := db.tools[line.toolId := tool.(inStockCount := tool.inStockCount - line.count)];
    fault := None;
  }

  /** Takes the tool lines from the store's tool table, one at a time, for order `id`. */
  method TakeTools(db: Db, id: Id, lines: seq<ToolLine>) returns (fault: Option<HttpError>)
    requires id < db.nextId && ToolRowsBelow(db.orderTools, db.nextId)
    modifies db`tools, db`orderTools, db`nextId
    ensures ToolRowsBelow(db.orderTools, db.nextId)
    ensures db.tools.Keys == old(db.tools.Keys) && db.nextId >= old(db.nextId)
    ensures var P := TakeAll(Progress(Ledger(old(db.tools), old(db.orderTools), old(db.nextId)), None), id, lines);
      Ledger(db.tools, db.orderTools, db.nextId) == P.ledger && fault == P.fault
  {
    ghost var P0 := Progress(Ledger(db.tools, db.orderTools, db.nextId), None);
    var i := 0;
    while i < |lines|
      invariant 0 <= i <= |lines|
      invariant id < db.nextId && db.nextId >= old(db.nextId) && db.tools.Keys == old(db.tools.Keys)
      invariant ToolRowsBelow(db.orderTools, db.nextId)
      invariant TakeAll(P0, id, lines[..i]) == Progress(Ledger(db.tools, db.orderTools, db.nextId), None)
    {
      assert lines[..i + 1][..i] == lines[..i];
      fault := TakeLine(db, id, lines[i]);
      if fault.Some? {
        StopsAtFault(P0, id, lines, i + 1);
        return;
      }
      i := i + 1;
    }
    assert lines[..i] == lines;
    fault := None;
  }

  /** Inserts one order-worker row per line for order `id`, stopping at the
      first line whose proficiency or level is missing. */
  method AddWorkers(db: Db, id: Id, lines: seq<WorkerLine>) returns (fault: Option<HttpError>)
    requires id < db.nextId
    requires KeysBelow(db.orderWorkers, db.nextId) && forall k :: k in db.orderWorkers ==> db.orderWorkers[k].orderId < db.nextId
    modifies db`orderWorkers, db`nextId
    ensures KeysBelow(db.orderWorkers, db.nextId) && forall k :: k in db.orderWorkers ==> db.orderWorkers[k].orderId < db.nextId
    ensures db.nextId >= old(db.nextId)
    ensures var A := AppendAll(Appended(old(db.orderWorkers), old(db.nextId), None), lines,
                               WorkerCheck(db.proficiencies, db.levels), WorkerRow(id));
      db.orderWorkers == A.rows && db.nextId == A.nextId && fault == A.fault
  {
    var check := WorkerCheck(db.proficiencies, db.levels);
    var make := WorkerRow(id);
    ghost var A0: Appended<OrderWorker> := Appended(db.orderWorkers, db.nextId, None);
    var i := 0;
    while i < |lines|
      invariant 0 <= i <= |lines|
      invariant id < db.nextId && db.nextId >= old(db.nextId)
      invariant KeysBelow(db.orderWorkers, db.nextId) && forall k :: k in db.orderWorkers ==> db.orderWorkers[k].orderId < db.nextId
      invariant AppendAll(A0, lines[..i], check, make) == Appended(db.orderWorkers, db.nextId, None)
    {
      var line := lines[i];
      assert lines[..i + 1][..i] == lines[..i];
      var proficiency := line.workerProficiencyId in db.proficiencies;
      var level := line.workerLevelId in db.levels;
      if !proficiency || !level {
        fault := check(line);
        StopsAtRejection(A0, lines, i + 1, check, make);
        return;
      }
      var rowId := db.FreshId();
      db.orderWorkers := db.orderWorkers[rowId := make(line)];
      i := i + 1;
    }
    assert lines[..i] == lines;
    fault := None;
  }

  /** `TakeTools` on a valid store keeps it valid. */
  method ServeTools(db: Db, id: Id, lines: seq<ToolLine>) returns (fault: Option<HttpError>)
    requires db.Valid() && id < db.nextId
    modifies db`tools, db`orderTools, db`nextId
    ensures db.Valid()
    ensures var P := TakeAll(Progress(Ledger(old(db.tools), old(db.orderTools), old(db.nextId)), None), id, lines);
      Ledger(db.tools, db.orderTools, db.nextId) == P.ledger && fault == P.fault
  {
    fault := TakeTools(db, id, lines);
    KeysBelowGrow(db.tools, old(db.nextId), db.nextId);
    db.StaysValid();
  }

  /** `AddWorkers` on a valid store keeps it valid. */
  method ServeWorkers(db: Db, id: Id, lines: seq<WorkerLine>) returns (fault: Option<HttpError>)
    requires db.Valid() && id < db.nextId
    modifies db`orderWorkers, db`nextId
    ensures db.Valid()
    ensures var A := AppendAll(Appended(old(db.orderWorkers), old(db.nextId), None), lines,
                               WorkerCheck(db.proficiencies, db.levels), WorkerRow(id));
      db.orderWorkers == A.rows && db.nextId == A.nextId && fault == A.fault
  {
    fault := AddWorkers(db, id, lines);
    db.StaysValid();
  }

  /** Inserts the order row under a fresh id. */
  method PlaceRow(db: Db, o: Order) returns (id: Id)
    requires db.Valid()
    modifies db`orders, db`nextId
    ensures db.Valid()
    ensures id == old(db.nextId) && db.nextId == id + 1 && db.orders == old(db.orders)[id := o]
    ensures db.tools == old(db.tools) && db.orderTools == old(db.orderTools) && db.orderWorkers == old(db.orderWorkers)
  {
    id := db.FreshId();
    db.orders := db.orders[id := o];
    db.StaysValid();
  }

  /** The part of `Create` after the tool lines: the worker lines, then the
      notification. */
  method Complete(db: Db, id: Id, req: OrderRequest, postFailure: Option<string>)
    returns (r: Result<OrderView>, notice: Option<OrderView>)
    requires db.Valid() && id < db.nextId
    modifies db`orderWorkers, db`nextId
    ensures db.Valid()
    ensures var A := AppendAll(Appended(old(db.orderWorkers), old(db.nextId), None), WorkersOf(req),
                               WorkerCheck(db.proficiencies, db.levels), WorkerRow(id));
      var view := PlacedView(id, req, db.users, db.paymentMethods, db.proficiencies, db.levels);
      && db.orderWorkers == A.rows
      && db.nextId == A.nextId
      && (A.fault.Some? ==> r == Err(Wrapped(CreatePrefix, Raised(A.fault.value))) && notice == None)
      && (A.fault.None? ==> notice == Some(view))
      && (A.fault.None? && postFailure.Some? ==> r == Err(Wrapped(CreatePrefix, ScriptError(postFailure.value))))
      && (A.fault.None? && postFailure.None? ==> r == Ok(view))
  {
    notice := None;
    var workerFault := ServeWorkers(db, id, WorkersOf(req));
    if workerFault.Some? {
      r := Err(Wrapped(CreatePrefix, Raised(workerFault.value)));
      return;
    }
    var view := PlacedView(id, req, db.users, db.paymentMethods, db.proficiencies, db.levels);
    notice := Some(view);
    if postFailure.Some? {
      r := Err(Wrapped(CreatePrefix, ScriptError(postFailure.value)));
    } else {
      r := Ok(view);
    }
  }

  /** Places an order: the order row first, then the tool lines against the
      stock, then the worker lines, then the chat notification of the re-read
      order. Nothing is undone when a later step fails; every failure reaches
      the caller as an internal error prefixed "Error creating order: ".
      `orderInsert` is the store's verdict on the order row and `postFailure`
      the error message of the chat post, if it failed. `notice` is the order
      handed to the bot service, which posts `OrderNotification.Message` of it. */
  method Create(db: Db, req: OrderRequest, orderInsert: Verdict, postFailure: Option<string>)
    returns (r: Result<OrderView>, notice: Option<OrderView>)
    requires db.Valid()
    modifies db`orders, db`tools, db`orderTools, db`orderWorkers, db`nextId
    ensures db.Valid()
    ensures orderInsert.Reject? ==>
      && r == Err(Wrapped(CreatePrefix, StoreError(orderInsert.code, orderInsert.message)))
      && notice == None
      && unchanged(db`orders, db`tools, db`orderTools, db`orderWorkers, db`nextId)
    // `Fulfilled` is compared with `true` so that it is checked as one fact
    // against `Fulfil`'s postcondition rather than conjunct by conjunct.
    ensures orderInsert.Accept? ==>
      var id := old(db.nextId);
      var P := TakeAll(Progress(Ledger(old(db.tools), old(db.orderTools), id + 1), None), id, ToolsOf(req));
      && db.orders == old(db.orders)[id := NewOrder(req)]
      && Fulfilled(db, old(db.orderWorkers), id, req, P, postFailure, r, notice) == true
  {
    notice := None;
    if orderInsert.Reject? {
      r := Err(Wrapped(CreatePrefix, StoreError(orderInsert.code, orderInsert.message)));
      return;
    }
    var id := PlaceRow(db, NewOrder(req));
    r, notice := Fulfil(db, id, req, postFailure,
                        Ledger(old(db.tools), old(db.orderTools), id + 1), old(db.orderWorkers));
  }

  /** What `Create` leaves behind once the order row `id` is in place and the
      tool lines have run to `P`: the tool tables as `P` says; on a tool fault
      nothing more; otherwise the worker lines, then the notification. */
  ghost predicate Fulfilled(db: Db, workersBefore: map<Id, OrderWorker>, id: Id, req: OrderRequest, P: Progress,
                            postFailure: Option<string>, r: Result<OrderView>, notice: Option<OrderView>)
    reads db
  {
    && db.tools == P.ledger.tools
    && db.orderTools == P.ledger.orderTools
    && (P.fault.Some? ==>
          && r == Err(Wrapped(CreatePrefix, Raised(P.fault.value)))
          && notice == None
          && db.orderWorkers == workersBefore
          && db.nextId == P.ledger.nextId)
    && (P.fault.None? ==>
          var A := AppendAll(Appended(workersBefore, P.ledger.nextId, None), WorkersOf(req),
                             WorkerCheck(db.proficiencies, db.levels), WorkerRow(id));
          var view := PlacedView(id, req, db.users, db.paymentMethods, db.proficiencies, db.levels);
          && db.orderWorkers == A.rows
          && db.nextId == A.nextId
          && (A.fault.Some? ==> r == Err(Wrapped(CreatePrefix, Raised(A.fault.value))) && notice == None)
          && (A.fault.None? ==> notice == Some(view))
          && (A.fault.None? && postFailure.Some? ==> r == Err(Wrapped(CreatePrefix, ScriptError(postFailure.value))))
          && (A.fault.None? && postFailure.None? ==> r == Ok(view)))
  }

  /** The part of `Create` after the order row: the tool lines, then `Complete`.
      `start` is the ledger and `workersBefore` the order-worker table as they
      stand on entry. */
  method Fulfil(db: Db, id: Id, req: OrderRequest, postFailure: Option<string>,
                ghost start: Ledger, ghost workersBefore: map<Id, OrderWorker>)
    returns (r: Result<OrderView>, notice: Option<OrderView>)
    requires db.Valid() && id < db.nextId
    requires start == Ledger(db.tools, db.orderTools, db.nextId) && workersBefore == db.orderWorkers
    modifies db`tools, db`orderTools, db`orderWorkers, db`nextId
    ensures db.Valid()
    ensures Fulfilled(db, workersBefore, id, req, TakeAll(Progress(start, None), id, ToolsOf(req)), postFailure, r, notice)
  {
    notice := None;
    var toolFault := ServeTools(db, id, ToolsOf(req));
    if toolFault.Some? {
      r := Err(Wrapped(CreatePrefix, Raised(toolFault.value)));
      return;
    }
    r, notice := Complete(db, id, req, postFailure);
  }

  /** Updates an existing order with the fields the patch carries;
      `write` is the store's verdict on the update. */
  method Update(db: Db, id: Id, patch: OrderPatch, write: Verdict) returns (r: Result<Order>)
    modifies db`orders
    ensures id !in old(db.orders) ==> r == Err(Wrapped(UpdatePrefix, Raised(OrderMissing))) && db.orders == old(db.orders)
    ensures id in old(db.orders) && write.Reject? ==>
      r == Err(Wrapped(UpdatePrefix, StoreError(write.code, write.message))) && db.orders == old(db.orders)
    ensures id in old(db.orders) && write.Accept? ==>
      var o := Patched(old(db.orders)[id], patch);
      r == Ok(o) && db.orders == old(db.orders)[id := o]
  {
    if id !in db.orders {
      r := Err(Wrapped(UpdatePrefix, Raised(OrderMissing)));
      return;
    }
    if write.Reject? {
      r := Err(Wrapped(UpdatePrefix, StoreError(write.code, write.message)));
      return;
    }
    var o := Patched(db.orders[id], patch);
    db.orders := db.orders[id := o];
    r := Ok(o);
  }

  /** Deletes an existing order; `write` is the store's verdict on the delete
      (rows that still reference the order may make it refuse). */
  method Remove(db: Db, id: Id, write: Verdict) returns (r: Result<Order>)
    modifies db`orders
    ensures id !in old(db.orders) ==> r == Err(Wrapped(DeletePrefix, Raised(OrderMissing))) && db.orders == old(db.orders)
    ensures id in old(db.orders) && write.Reject? ==>
      r == Err(Wrapped(DeletePrefix, StoreError(write.code, write.message))) && db.orders == old(db.orders)
    ensures id in old(db.orders) && write.Accept? ==>
      r == Ok(old(db.orders)[id]) && db.orders == old(db.orders) - {id}
  {
    if id !in db.orders {
      r := Err(Wrapped(DeletePrefix, Raised(OrderMissing)));
      return;
    }
    if write.Reject? {
      r := Err(Wrapped(DeletePrefix, StoreError(write.code, write.message)));
      return;
    }
    r := Ok(db.orders[id]);
    db.orders := db.orders - {id};
  }
}
