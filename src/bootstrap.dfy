/** Application start-up. The routes are bound when the server starts to
    listen, and each route keeps the global pipes and the global prefix that
    were registered by then; a set-up call made after `listen` reaches no route. */
module Bootstrap {
  import opened Common
  import opened Validation
  import OrderLedger

  datatype Pipe = ValidationPipe

  /** One set-up call on the application. */
  datatype Step =
    | Listen
    | EnableCors
    | SetGlobalPrefix(prefix: string)
    | EnableShutdownHooks
    | UseGlobalPipes(pipes: seq<Pipe>)

  /** What the routes are bound with: the global pipes and the path prefix. */
  datatype Binding = Binding(pipes: seq<Pipe>, prefix: string)

  const Unconfigured: Binding := Binding([], "")

  /** The set-up calls of `bootstrap`, in the order they are made. */
  const AsWritten: seq<Step> :=
    [Listen, EnableCors, SetGlobalPrefix("api"), EnableShutdownHooks, UseGlobalPipes([ValidationPipe])]

  /** The same calls with the routing set-up made before `listen`. */
  const Corrected: seq<Step> :=
    [SetGlobalPrefix("api"), UseGlobalPipes([ValidationPipe]), EnableCors, EnableShutdownHooks, Listen]

  /** The binding the routes get from `steps`, starting from `acc`: the
      registrations up to the first `Listen`; `None` when the server never
      listens. */
  function Bound(steps: seq<Step>, acc: Binding): (r: Option<Binding>)
    ensures r.Some? <==> Listen in steps
    decreases |steps|
  {
    if |steps| == 0 then None
    else match steps[0]
      case Listen => Some(acc)
      case SetGlobalPrefix(p) => Bound(steps[1..], acc.(prefix := p))
      case UseGlobalPipes(ps) => Bound(steps[1..], acc.(pipes := acc.pipes + ps))
      case _ => Bound(steps[1..], acc)
  }

  /** Whatever follows the first `Listen` leaves the binding as it was. */
  lemma {:induction false} AfterListenIgnored(pre: seq<Step>, post: seq<Step>, acc: Binding)
    requires Listen !in pre
    ensures Bound(pre + [Listen] + post, acc) == Bound(pre + [Listen], acc)
    decreases |pre|
  {
    if |pre| > 0 {
      assert (pre + [Listen] + post)[1..] == pre[1..] + [Listen] + post;
      assert (pre + [Listen])[1..] == pre[1..] + [Listen];
      match pre[0]
      case SetGlobalPrefix(p) => AfterListenIgnored(pre[1..], post, acc.(prefix := p));
      case UseGlobalPipes(ps) => AfterListenIgnored(pre[1..], post, acc.(pipes := acc.pipes + ps));
      case EnableCors => AfterListenIgnored(pre[1..], post, acc);
      case EnableShutdownHooks => AfterListenIgnored(pre[1..], post, acc);
      case Listen => assert false;
    }
  }

  /** What a route hands its handler for a body declared by `schema`: the
      validation pipe's outcome when the route carries the pipe, and the raw
      body, unchecked, when it does not. */
  function Handed(b: Binding, schema: Schema, body: map<string, Value>, env: Env): (r: Outcome)
    ensures ValidationPipe !in b.pipes ==> r.Pass?
    ensures r.Pass? <==> ValidationPipe !in b.pipes || Check(schema, body, env).Pass?
  {
    if ValidationPipe in b.pipes then Check(schema, body, env) else Pass
  }

  /** As written, the pipe and the prefix are registered after `listen`, so
      the routes carry neither. */
  lemma AsWrittenBindsNothing()
    ensures Bound(AsWritten, Unconfigured) == Some(Unconfigured)
  {
    AfterListenIgnored([], AsWritten[1..], Unconfigured);
    assert AsWritten == [] + [Listen] + AsWritten[1..];
  }

  /** The value of property `f` as the handler receives it: converted for
      its declared type when the route carries the pipe (which is set to
      transform), and exactly as sent when it does not. */
  function Received(b: Binding, f: Field, fields: map<string, Value>, env: Env): Value {
    if ValidationPipe in b.pipes then Converted(f, fields, env) else Get(fields, f.name)
  }

  /** The tool line the order handler passes on for one line of the body, on a
      route bound with `b`: its tool id read through `ids` (the model's ids are
      numbers), its count and its price. `None` when the line is not an object
      with a text tool id, a whole count and a numeric price, as received. */
  function LineOf(b: Binding, item: Value, ids: string -> Id, env: Env): (r: Option<OrderLedger.ToolLine>)
    ensures r.Some? ==> item.Obj?
    ensures r.Some? ==> var c := Received(b, OrderToolLine[1], item.fields, env); c.Num? && r.value.count as real == c.n
    ensures r.Some? && ValidationPipe !in b.pipes ==> Get(item.fields, "count").Num?
    ensures ValidationPipe in b.pipes && |OrderToolLine| == 3 && ToolLineShape(OrderToolLine, item, env) ==> r.Some?
  {
    if !item.Obj? then None
    else
      var t := Received(b, OrderToolLine[0], item.fields, env);
      var c := Received(b, OrderToolLine[1], item.fields, env);
      var p := Received(b, OrderToolLine[2], item.fields, env);
      if t.Str? && c.Num? && IsWhole(c.n) && p.Num? then Some(OrderLedger.ToolLine(ids(t.s), c.n.Floor, p.n)) else None
  }

  /** The tool lines of an array, one per item, or `None` when one of them is
      not a tool line. */
  function LinesOf(b: Binding, items: seq<Value>, ids: string -> Id, env: Env): (r: Option<seq<OrderLedger.ToolLine>>)
    ensures r.Some? <==> forall j :: 0 <= j < |items| ==> LineOf(b, items[j], ids, env).Some?
    ensures r.Some? ==> |r.value| == |items| && forall j :: 0 <= j < |items| ==> LineOf(b, items[j], ids, env) == Some(r.value[j])
    decreases |items|
  {
    if |items| == 0 then Some([])
    else
      var front := LinesOf(b, items[..|items| - 1], ids, env);
      var last := LineOf(b, items[|items| - 1], ids, env);
      if front.Some? && last.Some? then Some(front.value + [last.value]) else None
  }

  /** The tool lines an order request hands to `OrdersService.Create` on a
      route bound with `b`: none when `orderTools` is missing or null, one per
      item when it is an array. */
  function ToolLinesOf(b: Binding, body: map<string, Value>, ids: string -> Id, env: Env): (r: Option<seq<OrderLedger.ToolLine>>)
    ensures var v := Received(b, CreateOrderDto[OrderToolsAt], body, env);
      && (v.Absent? || v.Null? ==> r == Some([]))
      && (v.Arr? ==> r == LinesOf(b, v.items, ids, env))
  {
    var v := Received(b, CreateOrderDto[OrderToolsAt], body, env);
    if v.Absent? || v.Null? then Some([]) else if v.Arr? then LinesOf(b, v.items, ids, env) else None
  }

  /** A tool line whose count is sent as text. */
  function TextCountLine(toolId: string): Value {
    Obj(map["toolId" := Str(toolId), "count" := Str("3"), "price" := Num(1.0)])
  }

  /** A count sent as the text `"3"` is a count of 3 only through the pipe:
      as written the handler gets the text, which is no tool line the walk
      can take; with the corrected set-up it gets the number. */
  lemma TextCountReadOnlyThroughPipe(env: Env, toolId: string, ids: string -> Id)
    requires env.toNumber("3") == Some(3.0)
    ensures LineOf(Bound(AsWritten, Unconfigured).value, TextCountLine(toolId), ids, env).None?
    ensures LineOf(Bound(Corrected, Unconfigured).value, TextCountLine(toolId), ids, env)
            == Some(OrderLedger.ToolLine(ids(toolId), 3, 1.0))
  {
    AsWrittenBindsNothing();
    CorrectedBindsPipe();
    var fields := TextCountLine(toolId).fields;
    assert OrderToolLine == [CreateOrderToolDto[1], CreateOrderToolDto[2], CreateOrderToolDto[3]];
    assert Get(fields, "count") == Str("3");
    assert Converted(OrderToolLine[1], fields, env) == Num(3.0);
    assert Converted(OrderToolLine[0], fields, env) == Str(toolId);
    assert Converted(OrderToolLine[2], fields, env) == Num(1.0);
  }

  /** A tool line asking for -3 units, with a property no decorator declares. */
  function NegativeLine(toolId: string): Value {
    Obj(map["toolId" := Str(toolId), "count" := Num(-3.0), "price" := Num(1.0), "note" := Str("x")])
  }

  /** As written, an order request whose one tool line asks for -3 units and
      carries an undeclared property reaches `OrdersService.Create` as that
      line; `OrderLedger.NegativeCountRaisesStock` shows the walk then raises
      the stock of a tool holding 5 to 8. */
  lemma AsWrittenAdmitsNegativeCount(env: Env, base: map<string, Value>, toolId: string, ids: string -> Id,
                                     L: OrderLedger.Ledger, orderId: Id)
    requires ids(toolId) in L.tools && L.tools[ids(toolId)].inStockCount == 5
    ensures var body := base["orderTools" := Arr([NegativeLine(toolId)])];
      && Handed(Bound(AsWritten, Unconfigured).value, CreateOrderDto, body, env).Pass?
      && ToolLinesOf(Bound(AsWritten, Unconfigured).value, body, ids, env) == Some([OrderLedger.ToolLine(ids(toolId), -3, 1.0)])
    ensures var P := OrderLedger.TakeAll(OrderLedger.Progress(L, None), orderId, [OrderLedger.ToolLine(ids(toolId), -3, 1.0)]);
      P.fault == None && P.ledger.tools[ids(toolId)].inStockCount == 8
  {
    AsWrittenBindsNothing();
    OrderLedger.NegativeCountRaisesStock(L, orderId, ids(toolId));
    var body := base["orderTools" := Arr([NegativeLine(toolId)])];
    assert Received(Unconfigured, CreateOrderDto[OrderToolsAt], body, env) == Arr([NegativeLine(toolId)]);
    assert OrderToolLine == [CreateOrderToolDto[1], CreateOrderToolDto[2], CreateOrderToolDto[3]];
    assert LineOf(Unconfigured, NegativeLine(toolId), ids, env) == Some(OrderLedger.ToolLine(ids(toolId), -3, 1.0));
    var items := [NegativeLine(toolId)];
    assert items[..|items| - 1] == [] && items[|items| - 1] == NegativeLine(toolId);
    var line := OrderLedger.ToolLine(ids(toolId), -3, 1.0);
    assert LinesOf(Unconfigured, items, ids, env) == Some([] + [line]);
    assert [] + [line] == [line];
    assert ToolLinesOf(Unconfigured, body, ids, env) == LinesOf(Unconfigured, items, ids, env);
  }

  /** With the corrected set-up the same request is refused before the
      service, and, because the refusal comes from a line, with a 500. */
  lemma CorrectedRefusesNegativeCount(env: Env, base: map<string, Value>, toolId: string)
    ensures var body := base["orderTools" := Arr([NegativeLine(toolId)])];
      var o := Handed(Bound(Corrected, Unconfigured).value, CreateOrderDto, body, env);
      o.Refuse? && o.status == InternalServerError
  {
    CorrectedBindsPipe();
    var body := base["orderTools" := Arr([NegativeLine(toolId)])];
    assert Converted(CreateOrderDto[OrderToolsAt], body, env) == Arr([NegativeLine(toolId)]);
    assert !LineOk(OrderToolLine, NegativeLine(toolId), env) by {
      var c := Converted(OrderToolLine[1], NegativeLine(toolId).fields, env);
      assert OrderToolLine[1] == Required("count", NumberKind, [IsInt, Min(1.0)]);
      assert c == Num(-3.0);
      assert !Holds(OrderToolLine[1].rules[1], c, env);
    }
    BadLineAnswersInternal(body, env, 0);
  }

  /** With the routing set-up before `listen`, every route carries the pipe
      under the `api` prefix. */
  lemma CorrectedBindsPipe()
    ensures Bound(Corrected, Unconfigured) == Some(Binding([ValidationPipe], "api"))
  {
    var b := Binding([ValidationPipe], "api");
    assert Bound(Corrected, Unconfigured) == Bound(Corrected[1..], Binding([], "api"));
    assert Corrected[1..][0] == UseGlobalPipes([ValidationPipe]) && Corrected[1..][1..] == Corrected[2..];
    assert [] + [ValidationPipe] == [ValidationPipe];
    assert Bound(Corrected[1..], Binding([], "api")) == Bound(Corrected[2..], b);
    assert Corrected[2..][1..] == Corrected[3..] && Corrected[3..][1..] == Corrected[4..];
    assert Bound(Corrected[2..], b) == Bound(Corrected[3..], b) == Bound(Corrected[4..], b);
    assert Corrected[4..] == [Listen];
  }

  /** With the corrected set-up, a `POST /order-tools` body reaches its
      handler only with a whole count of at least one and no undeclared
      property. */
  lemma CorrectedBoundsCount(body: map<string, Value>, env: Env)
    requires Handed(Bound(Corrected, Unconfigured).value, CreateOrderToolDto, body, env).Pass?
    ensures var v := Converted(CreateOrderToolDto[2], body, env); v.Num? && IsWhole(v.n) && v.n >= 1.0
    ensures body.Keys <= Names(CreateOrderToolDto)
  {
    CorrectedBindsPipe();
    OrderLineCount(body, env);
  }

  /** With the corrected set-up, an order request reaches `OrdersService.Create`
      only with tool lines that each ask for at least one unit. */
  lemma CorrectedBoundsOrderLines(body: map<string, Value>, env: Env, ids: string -> Id)
    requires Handed(Bound(Corrected, Unconfigured).value, CreateOrderDto, body, env).Pass?
    ensures var lines := ToolLinesOf(Bound(Corrected, Unconfigured).value, body, ids, env);
      lines.Some? && forall j :: 0 <= j < |lines.value| ==> lines.value[j].count >= 1
  {
    CorrectedBindsPipe();
    var b := Binding([ValidationPipe], "api");
    OrderRequestLines(body, env);
    var v := Converted(CreateOrderDto[OrderToolsAt], body, env);
    assert Received(b, CreateOrderDto[OrderToolsAt], body, env) == v;
    if v.Arr? {
      forall j | 0 <= j < |v.items|
        ensures LineOf(b, v.items[j], ids, env).Some? && LineOf(b, v.items[j], ids, env).value.count >= 1
      {
        assert ToolLineShape(OrderToolLine, v.items[j], env);
      }
    }
  }

  /** With the corrected set-up, placing an order never raises the stock of
      any tool, wherever the walk over its lines ends. */
  lemma CorrectedNeverRaisesStock(body: map<string, Value>, env: Env, ids: string -> Id, L: OrderLedger.Ledger, orderId: Id)
    requires Handed(Bound(Corrected, Unconfigured).value, CreateOrderDto, body, env).Pass?
    ensures ToolLinesOf(Bound(Corrected, Unconfigured).value, body, ids, env).Some?
    ensures var E := OrderLedger.TakeAll(OrderLedger.Progress(L, None), orderId,
                                         ToolLinesOf(Bound(Corrected, Unconfigured).value, body, ids, env).value).ledger;
      forall t :: t in E.tools ==> t in L.tools && E.tools[t].inStockCount <= L.tools[t].inStockCount
  {
    CorrectedBoundsOrderLines(body, env, ids);
    OrderLedger.CountsNeverRaiseStock(L, orderId, ToolLinesOf(Bound(Corrected, Unconfigured).value, body, ids, env).value);
  }
}
