/** The stock ledger that order placement walks: one step per tool line, in
    array order, against the tool table as earlier lines left it. */
module OrderLedger {
  import opened Common
  import opened Store

  /** A tool line of an order request (the order id is the new order's). */
  datatype ToolLine = ToolLine(toolId: Id, count: int, price: real)

  /** The part of the store the tool lines touch. */
  datatype Ledger = Ledger(tools: map<Id, Tool>, orderTools: map<Id, OrderTool>, nextId: Id)

  /** A ledger and the error that stopped the walk, if one did. */
  datatype Progress = Progress(ledger: Ledger, fault: Option<HttpError>)

  function ToolMissing(toolId: Id): HttpError {
    HttpError(NotFound, "Tool with id " + Show(toolId) + " not found")
  }

  function OutOfStock(toolId: Id): HttpError {
    HttpError(BadRequest, "Not enough stock for tool with id " + Show(toolId))
  }

  /** One tool line: the tool must exist and hold at least `count`; then one
      order-tool row is inserted and the stock drops by exactly `count`. */
  function Take(p: Progress, orderId: Id, line: ToolLine): (r: Progress)
    ensures r.ledger.tools.Keys == p.ledger.tools.Keys
    ensures r.fault.None? ==> p.fault.None? && r.ledger.nextId == p.ledger.nextId + 1
    ensures r.fault.Some? ==> r.ledger == p.ledger
  {
    if p.fault.Some? then p
    else if line.toolId !in p.ledger.tools then Progress(p.ledger, Some(ToolMissing(line.toolId)))
    else
      var tool := p.ledger.tools[line.toolId];
      if tool.inStockCount < line.count then Progress(p.ledger, Some(OutOfStock(line.toolId)))
      else
        var L := p.ledger;
        var row := OrderTool(orderId, line.toolId, line.count, line.price);
        Progress(Ledger(L.tools[line.toolId := tool.(inStockCount := tool.inStockCount - line.count)],
                        L.orderTools[L.nextId := row],
                        L.nextId + 1),
                 None)
  }

  /** The tool lines taken one after another. */
  function TakeAll(p: Progress, orderId: Id, lines: seq<ToolLine>): (r: Progress)
    ensures r.ledger.tools.Keys == p.ledger.tools.Keys
    ensures r.fault.None? ==> p.fault.None? && r.ledger.nextId == p.ledger.nextId + |lines|
    decreases |lines|
  {
    if |lines| == 0 then p
    else Take(TakeAll(p, orderId, lines[..|lines| - 1]), orderId, lines[|lines| - 1])
  }

  /** The total count the lines ask of one tool. */
  function Demand(lines: seq<ToolLine>, toolId: Id): int
    decreases |lines|
  {
    if |lines| == 0 then 0
    else Demand(lines[..|lines| - 1], toolId)
         + (if lines[|lines| - 1].toolId == toolId then lines[|lines| - 1].count else 0)
  }

  /** Line `j` passes its checks: its tool exists and the initial stock covers
      every count asked of that tool up to and including line `j`. */
  predicate Fits(tools: map<Id, Tool>, lines: seq<ToolLine>, j: nat)
    requires j < |lines|
  {
    lines[j].toolId in tools && Demand(lines[..j + 1], lines[j].toolId) <= tools[lines[j].toolId].inStockCount
  }

  /** The error line `j` stops the walk with when it does not fit. */
  function Misfit(tools: map<Id, Tool>, lines: seq<ToolLine>, j: nat): HttpError
    requires j < |lines|
  {
    if lines[j].toolId !in tools then ToolMissing(lines[j].toolId) else OutOfStock(lines[j].toolId)
  }

  /** The index of the first line that does not fit, or `|lines|` if all fit. */
  function FirstMisfit(tools: map<Id, Tool>, lines: seq<ToolLine>): (k: nat)
    ensures k <= |lines|
    ensures forall j :: 0 <= j < k ==> Fits(tools, lines, j)
    ensures k < |lines| ==> !Fits(tools, lines, k)
    decreases |lines|
  {
    if |lines| == 0 then 0
    else
      var front := lines[..|lines| - 1];
      var m := FirstMisfit(tools, front);
      FitsPrefix(tools, lines, |lines| - 1);
      if m < |front| then m
      else if Fits(tools, lines, |lines| - 1) then |lines|
      else |lines| - 1
  }

  /** Whether a line fits depends only on the lines up to it. */
  lemma FitsPrefix(tools: map<Id, Tool>, lines: seq<ToolLine>, n: nat)
    requires n <= |lines|
    ensures forall j :: 0 <= j < n ==> (Fits(tools, lines, j) <==> Fits(tools, lines[..n], j))
  {
    forall j | 0 <= j < n
      ensures Fits(tools, lines, j) <==> Fits(tools, lines[..n], j)
    {
      assert lines[..n][..j + 1] == lines[..j + 1];
    }
  }

  /** The tool table after the lines' counts are drawn from it. */
  function Drawn(tools: map<Id, Tool>, lines: seq<ToolLine>): map<Id, Tool> {
    map t | t in tools :: tools[t].(inStockCount := tools[t].inStockCount - Demand(lines, t))
  }

  /** The order-tool rows the lines insert, from id `first` on. */
  function Rows(orderId: Id, first: Id, lines: seq<ToolLine>): map<Id, OrderTool>
    decreases |lines|
  {
    if |lines| == 0 then map[]
    else
      var l := lines[|lines| - 1];
      Rows(orderId, first, lines[..|lines| - 1])[first + |lines| - 1 := OrderTool(orderId, l.toolId, l.count, l.price)]
  }

  /** The ledger after every one of `lines` was taken from `L`. */
  function Closed(L: Ledger, orderId: Id, lines: seq<ToolLine>): Ledger {
    Ledger(Drawn(L.tools, lines), L.orderTools + Rows(orderId, L.nextId, lines), L.nextId + |lines|)
  }

  /** Where the walk ends: the lines before the first misfit are committed and
      the misfit, if any, is the error. */
  function Outcome(L: Ledger, orderId: Id, lines: seq<ToolLine>): Progress {
    var k := FirstMisfit(L.tools, lines);
    Progress(Closed(L, orderId, lines[..k]), if k == |lines| then None else Some(Misfit(L.tools, lines, k)))
  }

  /** The rows occupy exactly the ids `first .. first + |lines|`, line `j` at `first + j`. */
  lemma {:induction false} RowsShape(orderId: Id, first: Id, lines: seq<ToolLine>)
    ensures forall id :: id in Rows(orderId, first, lines) <==> first <= id < first + |lines|
    ensures forall j :: 0 <= j < |lines| ==>
      Rows(orderId, first, lines)[first + j] == OrderTool(orderId, lines[j].toolId, lines[j].count, lines[j].price)
    decreases |lines|
  {
    if |lines| > 0 {
      var front := lines[..|lines| - 1];
      RowsShape(orderId, first, front);
      forall j | 0 <= j < |front| ensures front[j] == lines[j] { }
    }
  }

  /** Taking one more fitting line extends the closed form by that line. */
  lemma ClosedStep(L: Ledger, orderId: Id, lines: seq<ToolLine>, n: nat)
    requires n < |lines|
    requires lines[n].toolId in L.tools
    ensures
      var C := Closed(L, orderId, lines[..n]);
      var l := lines[n];
      var tool := C.tools[l.toolId];
      Closed(L, orderId, lines[..n + 1])
        == Ledger(C.tools[l.toolId := tool.(inStockCount := tool.inStockCount - l.count)],
                  C.orderTools[C.nextId := OrderTool(orderId, l.toolId, l.count, l.price)],
                  C.nextId + 1)
  {
    var front, ext := lines[..n], lines[..n + 1];
    assert ext[..|ext| - 1] == front;
    assert ext[|ext| - 1] == lines[n];
  }

  /** Past the first misfit, one more line leaves the outcome as it was. */
  lemma OutcomeStepAfterMisfit(L: Ledger, orderId: Id, lines: seq<ToolLine>)
    requires |lines| > 0
    requires FirstMisfit(L.tools, lines[..|lines| - 1]) < |lines| - 1
    ensures Outcome(L, orderId, lines) == Take(Outcome(L, orderId, lines[..|lines| - 1]), orderId, lines[|lines| - 1])
  {
    var n := |lines| - 1;
    var front := lines[..n];
    var k := FirstMisfit(L.tools, front);
    FitsPrefix(L.tools, lines, n);
    assert FirstMisfit(L.tools, lines) == k;
    assert front[..k] == lines[..k];
    assert front[k] == lines[k];
  }

  /** With every earlier line committed, the next line commits exactly when it fits. */
  lemma OutcomeStepAfterFits(L: Ledger, orderId: Id, lines: seq<ToolLine>)
    requires |lines| > 0
    requires FirstMisfit(L.tools, lines[..|lines| - 1]) == |lines| - 1
    ensures Outcome(L, orderId, lines) == Take(Outcome(L, orderId, lines[..|lines| - 1]), orderId, lines[|lines| - 1])
  {
    var n := |lines| - 1;
    var front := lines[..n];
    var l := lines[n];
    FitsPrefix(L.tools, lines, n);
    assert front[..n] == front;
    assert lines[..n + 1] == lines;
    assert Demand(lines, l.toolId) == Demand(front, l.toolId) + l.count;
    var C := Closed(L, orderId, front);
    assert Outcome(L, orderId, front) == Progress(C, None);
    if l.toolId in L.tools {
      assert C.tools[l.toolId].inStockCount == L.tools[l.toolId].inStockCount - Demand(front, l.toolId);
      if Fits(L.tools, lines, n) {
        assert FirstMisfit(L.tools, lines) == n + 1;
        ClosedStep(L, orderId, lines, n);
      } else {
        assert FirstMisfit(L.tools, lines) == n;
      }
    } else {
      assert FirstMisfit(L.tools, lines) == n;
    }
  }

  /** The walk of a fault-free start ends in `Outcome`: the first misfitting
      line stops it with its error, and everything before it is committed. */
  lemma {:induction false} TakeAllOutcome(L: Ledger, orderId: Id, lines: seq<ToolLine>)
    ensures TakeAll(Progress(L, None), orderId, lines) == Outcome(L, orderId, lines)
    decreases |lines|
  {
    if |lines| == 0 {
      assert lines[..0] == lines;
      assert L.orderTools + map[] == L.orderTools;
      assert Drawn(L.tools, []) == L.tools;
    } else {
      var n := |lines| - 1;
      TakeAllOutcome(L, orderId, lines[..n]);
      if FirstMisfit(L.tools, lines[..n]) < n {
        OutcomeStepAfterMisfit(L, orderId, lines);
      } else {
        OutcomeStepAfterFits(L, orderId, lines);
      }
    }
  }

  /** A walk that has stopped takes no further line. */
  lemma {:induction false} FaultSticks(p: Progress, orderId: Id, lines: seq<ToolLine>)
    requires p.fault.Some?
    ensures TakeAll(p, orderId, lines) == p
    decreases |lines|
  {
    if |lines| > 0 {
      FaultSticks(p, orderId, lines[..|lines| - 1]);
    }
  }

  /** Walking `a + b` is walking `a` and then `b` from where `a` stopped. */
  lemma {:induction false} TakeAllSplit(p: Progress, orderId: Id, a: seq<ToolLine>, b: seq<ToolLine>)
    ensures TakeAll(p, orderId, a + b) == TakeAll(TakeAll(p, orderId, a), orderId, b)
    decreases |b|
  {
    if |b| == 0 {
      assert a + b == a;
    } else {
      var ab := a + b;
      assert ab[..|ab| - 1] == a + b[..|b| - 1];
      assert ab[|ab| - 1] == b[|b| - 1];
      TakeAllSplit(p, orderId, a, b[..|b| - 1]);
    }
  }

  /** Once a line fails, later lines change nothing. */
  lemma StopsAtFault(p: Progress, orderId: Id, lines: seq<ToolLine>, i: nat)
    requires i <= |lines|
    requires TakeAll(p, orderId, lines[..i]).fault.Some?
    ensures TakeAll(p, orderId, lines) == TakeAll(p, orderId, lines[..i])
  {
    assert lines == lines[..i] + lines[i..];
    TakeAllSplit(p, orderId, lines[..i], lines[i..]);
    FaultSticks(TakeAll(p, orderId, lines[..i]), orderId, lines[i..]);
  }

  /** The counts of fitting lines never draw more of a tool than it held. */
  lemma {:induction false} DemandCovered(tools: map<Id, Tool>, lines: seq<ToolLine>, t: Id)
    requires t in tools
    requires forall j :: 0 <= j < |lines| ==> Fits(tools, lines, j)
    ensures Demand(lines, t) <= tools[t].inStockCount || Demand(lines, t) == 0
    decreases |lines|
  {
    if |lines| > 0 {
      var n := |lines| - 1;
      FitsPrefix(tools, lines, n);
      DemandCovered(tools, lines[..n], t);
      assert lines[..n + 1] == lines;
      if lines[n].toolId == t {
        assert Fits(tools, lines, n);
      } else {
        assert Demand(lines, t) == Demand(lines[..n], t);
      }
    }
  }

  /** Stock never goes below zero within one order: with no tool negative at
      the start, none is negative wherever the walk ends, even when several
      lines name the same tool. */
  lemma StockStaysNonNegative(L: Ledger, orderId: Id, lines: seq<ToolLine>)
    requires forall t :: t in L.tools ==> L.tools[t].inStockCount >= 0
    ensures var E := TakeAll(Progress(L, None), orderId, lines).ledger;
      forall t :: t in E.tools ==> E.tools[t].inStockCount >= 0
  {
    TakeAllOutcome(L, orderId, lines);
    var k := FirstMisfit(L.tools, lines);
    FitsPrefix(L.tools, lines, k);
    forall t | t in L.tools
      ensures Demand(lines[..k], t) <= L.tools[t].inStockCount || Demand(lines[..k], t) == 0
    {
      DemandCovered(L.tools, lines[..k], t);
    }
  }

  /** Nothing is asked of a tool that no line names. */
  lemma {:induction false} DemandOfOthers(lines: seq<ToolLine>, t: Id)
    requires forall j :: 0 <= j < |lines| ==> lines[j].toolId != t
    ensures Demand(lines, t) == 0
    decreases |lines|
  {
    if |lines| > 0 {
      DemandOfOthers(lines[..|lines| - 1], t);
    }
  }

  /** A tool that no line names keeps its stock, whatever the outcome. */
  lemma UnnamedToolUntouched(L: Ledger, orderId: Id, lines: seq<ToolLine>, t: Id)
    requires t in L.tools
    requires forall j :: 0 <= j < |lines| ==> lines[j].toolId != t
    ensures TakeAll(Progress(L, None), orderId, lines).ledger.tools[t] == L.tools[t]
  {
    TakeAllOutcome(L, orderId, lines);
    var k := FirstMisfit(L.tools, lines);
    DemandOfOthers(lines[..k], t);
  }

  /** A request whose single line asks for the whole stock is accepted and
      leaves that tool at zero; one more unit is refused. */
  lemma ExactStockAccepted(L: Ledger, orderId: Id, t: Id)
    requires t in L.tools && L.tools[t].inStockCount >= 1
    ensures var n := L.tools[t].inStockCount;
      var P := TakeAll(Progress(L, None), orderId, [ToolLine(t, n, 1.0)]);
      P.fault == None && P.ledger.tools[t].inStockCount == 0
    ensures var n := L.tools[t].inStockCount;
      TakeAll(Progress(L, None), orderId, [ToolLine(t, n + 1, 1.0)]).fault == Some(OutOfStock(t))
  {
    var n := L.tools[t].inStockCount;
    assert [ToolLine(t, n, 1.0)][..0] == [];
    assert [ToolLine(t, n + 1, 1.0)][..0] == [];
  }

  /** Lines that ask for no negative count draw a non-negative total. */
  lemma {:induction false} DemandNonNegative(lines: seq<ToolLine>, t: Id)
    requires forall j :: 0 <= j < |lines| ==> lines[j].count >= 0
    ensures Demand(lines, t) >= 0
    decreases |lines|
  {
    if |lines| > 0 {
      DemandNonNegative(lines[..|lines| - 1], t);
    }
  }

  /** Lines that ask for no negative count never raise a tool's stock,
      wherever the walk ends. */
  lemma CountsNeverRaiseStock(L: Ledger, orderId: Id, lines: seq<ToolLine>)
    requires forall j :: 0 <= j < |lines| ==> lines[j].count >= 0
    ensures var E := TakeAll(Progress(L, None), orderId, lines).ledger;
      forall t :: t in E.tools ==> t in L.tools && E.tools[t].inStockCount <= L.tools[t].inStockCount
  {
    TakeAllOutcome(L, orderId, lines);
    var k := FirstMisfit(L.tools, lines);
    forall t | t in L.tools
      ensures Demand(lines[..k], t) >= 0
    {
      DemandNonNegative(lines[..k], t);
    }
  }

  /** The walk itself bounds no count from below: a line asking for -3 units
      of a tool holding 5 passes the stock check and leaves 8 in stock. */
  lemma NegativeCountRaisesStock(L: Ledger, orderId: Id, t: Id)
    requires t in L.tools && L.tools[t].inStockCount == 5
    ensures var P := TakeAll(Progress(L, None), orderId, [ToolLine(t, -3, 1.0)]);
      P.fault == None && P.ledger.tools[t].inStockCount == 8
  {
    assert [ToolLine(t, -3, 1.0)][..0] == [];
  }

  /** Two lines on one tool holding 5, asking 2 and then 4: the first commits
      and leaves 3, the second sees that 3 and fails. */
  lemma SecondLineSeesDecrement(L: Ledger, orderId: Id, t: Id)
    requires t in L.tools && L.tools[t].inStockCount == 5
    ensures var P := TakeAll(Progress(L, None), orderId, [ToolLine(t, 2, 1.0), ToolLine(t, 4, 1.0)]);
      P.fault == Some(OutOfStock(t)) && P.ledger.tools[t].inStockCount == 3
      && P.ledger.nextId == L.nextId + 1
  {
    var lines := [ToolLine(t, 2, 1.0), ToolLine(t, 4, 1.0)];
    var p0 := Progress(L, None);
    assert lines[..1] == [ToolLine(t, 2, 1.0)];
    assert lines[..1][..0] == [];
    assert TakeAll(p0, orderId, lines[..1][..0]) == p0;
    var p1 := TakeAll(p0, orderId, lines[..1]);
    assert p1 == Take(p0, orderId, lines[0]);
    assert p1.ledger.tools[t].inStockCount == 3;
    assert TakeAll(p0, orderId, lines) == Take(p1, orderId, lines[1]);
  }
}
