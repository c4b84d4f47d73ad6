/** The text of the chat message sent when an order is placed. The post to the
    chat service is not part of this module. */
module OrderNotification {
  import opened Common
  import opened Store

  /** A tool line as the formatter sees it; the order-tool rows an order
      includes carry no name. */
  datatype ToolItem = ToolItem(name: Option<string>, count: int, price: real)

  /** A worker line with the names of its proficiency and level, when included. */
  datatype WorkerItem = WorkerItem(
    proficiencyName: Option<string>,
    levelName: Option<string>,
    count: int,
    withTools: bool,
    time: int,
    timeUnit: string)

  /** An order with the relations the formatter reads. */
  datatype OrderView = OrderView(
    id: Id,
    order: Order,
    user: Option<User>,
    paymentMethod: Option<PaymentMethod>,
    tools: Option<seq<ToolItem>>,
    workers: Option<seq<WorkerItem>>)

  /** How dates (in the Asia/Tashkent zone) and JavaScript numbers are written out. */
  datatype Render = Render(date: string -> string, num: real -> string)

  function YesNo(b: bool): string {
    if b then "Yes" else "No"
  }

  predicate IsLower(c: char) {
    'a' <= c <= 'z'
  }

  function UpperChar(c: char): char {
    if IsLower(c) then (c as int - 32) as char else c
  }

  /** Upper-casing of the ASCII letters, as status names are shown. */
  function Upper(s: string): (r: string)
    ensures |r| == |s|
    ensures forall i :: 0 <= i < |s| ==> !IsLower(r[i])
    ensures forall i :: 0 <= i < |s| && !IsLower(s[i]) ==> r[i] == s[i]
  {
    seq(|s|, i requires 0 <= i < |s| => UpperChar(s[i]))
  }

  /** Upper-casing twice is upper-casing once, and it leaves exactly the strings
      without a lower-case letter unchanged. */
  lemma UpperIdempotent(s: string)
    ensures Upper(Upper(s)) == Upper(s)
    ensures Upper(s) == s <==> forall i :: 0 <= i < |s| ==> !IsLower(s[i])
  {
    if Upper(s) == s {
      forall i | 0 <= i < |s| ensures !IsLower(s[i]) {
        assert Upper(s)[i] == s[i];
      }
    }
  }

  /** One numbered tool entry. */
  function ToolEntry(number: nat, t: ToolItem, num: real -> string): string {
    "#" + Show(number) + " " + t.name.GetOr("Tool") + " x" + ShowInt(t.count) + " - $" + num(t.price)
  }

  /** One numbered worker entry. */
  function WorkerEntry(number: nat, w: WorkerItem): string {
    "#" + Show(number) + " Proficiency: " + w.proficiencyName.GetOr("Unknown")
      + ", Level: " + w.levelName.GetOr("Unknown")
      + ", Count: " + ShowInt(w.count)
      + ", Tools: " + YesNo(w.withTools)
      + ", Time: " + ShowInt(w.time) + " " + w.timeUnit
  }

  /** The tool entries, numbered from 1 in list order. */
  function ToolEntries(ts: seq<ToolItem>, num: real -> string): seq<string> {
    seq(|ts|, k requires 0 <= k < |ts| => ToolEntry(k + 1, ts[k], num))
  }

  /** The worker entries, numbered from 1 in list order. */
  function WorkerEntries(ws: seq<WorkerItem>): seq<string> {
    seq(|ws|, k requires 0 <= k < |ws| => WorkerEntry(k + 1, ws[k]))
  }

  /** Lines joined with a newline between each two. */
  function JoinLines(xs: seq<string>): (s: string)
    decreases |xs|
  {
    if |xs| == 0 then ""
    else if |xs| == 1 then xs[0]
    else xs[0] + "\n" + JoinLines(xs[1..])
  }

  /** A text cut at every newline: the inverse of `JoinLines`. */
  function SplitLines(s: string): (r: seq<string>)
    ensures |r| > 0
    decreases |s|
  {
    if |s| == 0 then [""]
    else if s[0] == '\n' then [""] + SplitLines(s[1..])
    else
      var rest := SplitLines(s[1..]);
      [[s[0]] + rest[0]] + rest[1..]
  }

  predicate OneLine(x: string) {
    forall i :: 0 <= i < |x| ==> x[i] != '\n'
  }

  lemma {:induction false} SplitAfterLine(x: string, t: string)
    requires OneLine(x)
    ensures SplitLines(x + "\n" + t) == [x] + SplitLines(t)
    ensures SplitLines(x) == [x]
    decreases |x|
  {
    if |x| == 0 {
      assert x + "\n" + t == "\n" + t;
      assert ("\n" + t)[1..] == t;
    } else {
      SplitAfterLine(x[1..], t);
      assert (x + "\n" + t)[1..] == x[1..] + "\n" + t;
      assert [x[0]] + x[1..] == x;
    }
  }

  /** Joining one-line entries and cutting the text at newlines gives the entries back. */
  lemma {:induction false} SplitJoin(xs: seq<string>)
    requires |xs| > 0
    requires forall k :: 0 <= k < |xs| ==> OneLine(xs[k])
    ensures SplitLines(JoinLines(xs)) == xs
    decreases |xs|
  {
    SplitAfterLine(xs[0], "");
    if |xs| > 1 {
      SplitJoin(xs[1..]);
      SplitAfterLine(xs[0], JoinLines(xs[1..]));
      assert [xs[0]] + xs[1..] == xs;
    }
  }

  lemma {:induction false} JoinStartsWith(xs: seq<string>, c: char)
    requires |xs| > 0
    requires forall k :: 0 <= k < |xs| ==> |xs[k]| > 0 && xs[k][0] == c
    ensures |JoinLines(xs)| > 0 && JoinLines(xs)[0] == c
  {
    if |xs| > 1 {
      assert (xs[0] + "\n" + JoinLines(xs[1..]))[0] == xs[0][0];
    }
  }

  /** The tools section: the fallback text, or the entries one per line. */
  function ToolsBlock(tools: Option<seq<ToolItem>>, num: real -> string): (r: string)
    ensures r == "No tools added." <==> tools.None? || |tools.value| == 0
  {
    if tools.None? || |tools.value| == 0 then "No tools added."
    else
      var es := ToolEntries(tools.value, num);
      JoinStartsWith(es, '#');
      assert "No tools added."[0] == 'N';
      JoinLines(es)
  }

  /** The workers section: the fallback text, or the entries one per line. */
  function WorkersBlock(workers: Option<seq<WorkerItem>>): (r: string)
    ensures r == "No workers requested." <==> workers.None? || |workers.value| == 0
  {
    if workers.None? || |workers.value| == 0 then "No workers requested."
    else
      var es := WorkerEntries(workers.value);
      JoinStartsWith(es, '#');
      assert "No workers requested."[0] == 'N';
      JoinLines(es)
  }

  /** The tools block is the fallback text exactly when there are no tool lines;
      otherwise its lines are the entries, one per tool, numbered from 1. */
  lemma ToolsBlockShape(tools: Option<seq<ToolItem>>, num: real -> string)
    ensures ToolsBlock(tools, num) == "No tools added." <==> tools.None? || |tools.value| == 0
    ensures tools.Some? && |tools.value| > 0 && (forall k :: 0 <= k < |tools.value| ==> OneLine(ToolEntry(k + 1, tools.value[k], num)))
      ==> SplitLines(ToolsBlock(tools, num)) == ToolEntries(tools.value, num)
  {
    if tools.Some? && |tools.value| > 0 {
      var es := ToolEntries(tools.value, num);
      JoinStartsWith(es, '#');
      assert "No tools added."[0] == 'N';
      if forall k :: 0 <= k < |tools.value| ==> OneLine(ToolEntry(k + 1, tools.value[k], num)) {
        SplitJoin(es);
      }
    }
  }

  /** The workers block is the fallback text exactly when there are no worker
      lines; otherwise its lines are the entries, one per worker, numbered from 1. */
  lemma WorkersBlockShape(workers: Option<seq<WorkerItem>>)
    ensures WorkersBlock(workers) == "No workers requested." <==> workers.None? || |workers.value| == 0
    ensures workers.Some? && |workers.value| > 0 && (forall k :: 0 <= k < |workers.value| ==> OneLine(WorkerEntry(k + 1, workers.value[k])))
      ==> SplitLines(WorkersBlock(workers)) == WorkerEntries(workers.value)
  {
    if workers.Some? && |workers.value| > 0 {
      var es := WorkerEntries(workers.value);
      JoinStartsWith(es, '#');
      assert "No workers requested."[0] == 'N';
      if forall k :: 0 <= k < |workers.value| ==> OneLine(WorkerEntry(k + 1, workers.value[k])) {
        SplitJoin(es);
      }
    }
  }

  /** An optional number, or the fallback. */
  function NumOr(x: Option<real>, num: real -> string, fallback: string): string {
    if x.Some? then num(x.value) else fallback
  }

  /** The fields of the customer, each with its fallback. */
  function CustomerFields(user: Option<User>): (r: seq<string>)
    ensures |r| == 3
    ensures user.None? ==> r == ["N/A", "N/A", "N/A"]
    ensures user.Some? ==> r == [user.value.fullname, user.value.email, user.value.phone]
  {
    if user.None? then ["N/A", "N/A", "N/A"]
    else [user.value.fullname, user.value.email, user.value.phone]
  }

  /** The heading that opens every order message. */
  const Heading: string := "\n\U{1F6D2} *New Order Placed!*\n"

  /** The message's last two sections: the tools, then the workers. */
  function Closing(v: OrderView, render: Render): string {
    "\U{1F527} *Tools:*\n" + ToolsBlock(v.tools, render.num) + "\n"
    + "\n"
    + "\U{1F477}\U{200D}\U{2642}\U{FE0F} *Workers:*\n"
    + WorkersBlock(v.workers) + "\n"
  }

  /** The customer, order, location and payment sections between the heading
      and the closing sections. */
  function Details(v: OrderView, render: Render): string {
    var o := v.order;
    var customer := CustomerFields(v.user);
    "\n"
    + "\U{1F464} *Customer:* " + customer[0] + "\n"
    + "\U{1F4E7} *Email:* " + customer[1] + "\n"
    + "\U{1F4DE} *Phone:* " + customer[2] + "\n"
    + "\n"
    + "\U{1F9FE} *Order Details:*\n"
    + "\U{1F194} Order ID: " + Show(v.id) + "\n"
    + "\U{1F4B0} Total Price: $" + render.num(o.overallPrice) + "\n"
    + "\U{1F5D3} Date: " + render.date(o.date) + "\n"
    + "\U{1F4CD} Address: " + o.address.GetOr("Not provided") + "\n"
    + "\U{1F69A} Delivery: " + YesNo(o.withDelivery) + "\n"
    + "\U{1F4DD} Delivery Note: " + o.deliveryComment.GetOr("None") + "\n"
    + "\n"
    + "\U{1F4CD} Location:\n"
    + "Latitude: " + NumOr(o.latitude, render.num, "N/A") + "\n"
    + "Longitude: " + NumOr(o.longitude, render.num, "N/A") + "\n"
    + "\n"
    + "\U{1F4B3} Payment Method: " + (if v.paymentMethod.Some? then v.paymentMethod.value.name else "Unknown") + "\n"
    + "\U{1F4B5} Payment Status: *" + Upper(o.paymentStatus) + "*\n"
    + "\U{1F4E6} Order Status: *" + Upper(o.status) + "*\n"
    + "\n"
  }

  /** The Markdown message for a placed order. */
  function Message(v: OrderView, render: Render): string {
    Heading + Details(v, render) + Closing(v, render)
  }

  /** The message opens with the heading and ends with the tools and workers sections. */
  lemma MessageLayout(v: OrderView, render: Render)
    ensures Heading <= Message(v, render)
    ensures var r, c := Message(v, render), Closing(v, render);
      |c| <= |r| && r[|r| - |c|..] == c
  {
    Ends(Heading, Details(v, render), Closing(v, render));
  }

  /** A concatenation of three parts starts with the first and ends with the last. */
  lemma Ends(a: string, b: string, c: string)
    ensures var r := a + b + c; a <= r && |c| <= |r| && r[|r| - |c|..] == c
  {
    assert (a + b + c)[..|a|] == a;
  }

  /** An order-tool row never carries a name, so every tool of a placed order is
      listed as "Tool". */
  lemma UnnamedToolsListedAsTool(ts: seq<ToolItem>, num: real -> string, k: nat)
    requires k < |ts|
    requires forall j :: 0 <= j < |ts| ==> ts[j].name.None?
    ensures ToolEntries(ts, num)[k] == "#" + Show(k + 1) + " Tool x" + ShowInt(ts[k].count) + " - $" + num(ts[k].price)
  {
  }
}
