/** A loop that checks each line and inserts one row per line, stopping at the
    first line whose check fails: the shape of the order-worker loop and of
    both rating loops of comments. */
module Appending {
  import opened Common

  /** The rows so far, the next id to hand out, and the error that stopped the loop. */
  datatype Appended<R> = Appended(rows: map<Id, R>, nextId: Id, fault: Option<HttpError>)

  /** One line: a failed check stops the loop, otherwise one row is inserted. */
  function Append<L, R>(p: Appended<R>, line: L, check: L -> Option<HttpError>, make: L -> R): (r: Appended<R>)
    ensures r.fault.None? ==> p.fault.None? && r.nextId == p.nextId + 1
    ensures r.fault.Some? ==> r.rows == p.rows && r.nextId == p.nextId
  {
    if p.fault.Some? then p
    else match check(line)
      case Some(e) => p.(fault := Some(e))
      case None => Appended(p.rows[p.nextId := make(line)], p.nextId + 1, None)
  }

  function AppendAll<L, R>(p: Appended<R>, lines: seq<L>, check: L -> Option<HttpError>, make: L -> R): (r: Appended<R>)
    ensures r.fault.None? ==> p.fault.None? && r.nextId == p.nextId + |lines|
    decreases |lines|
  {
    if |lines| == 0 then p
    else Append(AppendAll(p, lines[..|lines| - 1], check, make), lines[|lines| - 1], check, make)
  }

  /** The index of the first line whose check fails, or `|lines|`. */
  function FirstRejected<L>(lines: seq<L>, check: L -> Option<HttpError>): (k: nat)
    ensures k <= |lines|
    ensures forall j :: 0 <= j < k ==> check(lines[j]).None?
    ensures k < |lines| ==> check(lines[k]).Some?
    decreases |lines|
  {
    if |lines| == 0 then 0
    else
      var m := FirstRejected(lines[..|lines| - 1], check);
      if m < |lines| - 1 then m
      else if check(lines[|lines| - 1]).None? then |lines|
      else |lines| - 1
  }

  /** The rows the lines make, from id `first` on. */
  function Made<L, R>(first: Id, lines: seq<L>, make: L -> R): map<Id, R>
    decreases |lines|
  {
    if |lines| == 0 then map[]
    else Made(first, lines[..|lines| - 1], make)[first + |lines| - 1 := make(lines[|lines| - 1])]
  }

  /** The made rows occupy exactly the ids `first .. first + |lines|`, line `j` at `first + j`. */
  lemma {:induction false} MadeShape<L, R>(first: Id, lines: seq<L>, make: L -> R)
    ensures forall id :: id in Made(first, lines, make) <==> first <= id < first + |lines|
    ensures forall j :: 0 <= j < |lines| ==> Made(first, lines, make)[first + j] == make(lines[j])
    decreases |lines|
  {
    if |lines| > 0 {
      var front := lines[..|lines| - 1];
      MadeShape(first, front, make);
      forall j | 0 <= j < |front| ensures front[j] == lines[j] { }
    }
  }

  /** Where the loop ends: the lines before the first rejected one are inserted
      and the rejection, if any, is the error. */
  function Settled<L, R>(rows: map<Id, R>, first: Id, lines: seq<L>, check: L -> Option<HttpError>, make: L -> R): Appended<R> {
    var k := FirstRejected(lines, check);
    Appended(rows + Made(first, lines[..k], make), first + k, if k == |lines| then None else check(lines[k]))
  }

  /** A loop started without a fault ends in `Settled`. */
  lemma {:induction false} AppendAllSettles<L, R>(rows: map<Id, R>, first: Id, lines: seq<L>, check: L -> Option<HttpError>, make: L -> R)
    ensures AppendAll(Appended(rows, first, None), lines, check, make) == Settled(rows, first, lines, check, make)
    decreases |lines|
  {
    if |lines| == 0 {
      assert lines[..0] == lines;
      assert rows + map[] == rows;
    } else {
      var n := |lines| - 1;
      var front := lines[..n];
      AppendAllSettles(rows, first, front, check, make);
      var k := FirstRejected(front, check);
      if k < n {
        assert front[..k] == lines[..k];
        assert front[k] == lines[k];
      } else {
        assert front[..k] == front;
        assert lines[..n + 1] == lines;
        if check(lines[n]).None? {
          assert (rows + Made(first, front, make))[first + n := make(lines[n])]
              == rows + Made(first, lines, make);
        }
      }
    }
  }

  /** Every row the loop keeps is one of the lines, made in order; the rows
      that were there before are kept unless an inserted id lands on them. */
  lemma SettledRows<L, R>(rows: map<Id, R>, first: Id, lines: seq<L>, check: L -> Option<HttpError>, make: L -> R)
    requires forall id :: id in rows ==> id < first
    ensures var S := Settled(rows, first, lines, check, make);
      var k := FirstRejected(lines, check);
      && (forall id :: id in rows ==> id in S.rows && S.rows[id] == rows[id])
      && (forall j :: 0 <= j < k ==> first + j in S.rows && S.rows[first + j] == make(lines[j]))
      && (forall id :: id in S.rows ==> id in rows || first <= id < first + k)
  {
    var k := FirstRejected(lines, check);
    MadeShape(first, lines[..k], make);
  }

  /** Once a line is rejected, later lines change nothing. */
  lemma {:induction false} StopsAtRejection<L, R>(p: Appended<R>, lines: seq<L>, i: nat, check: L -> Option<HttpError>, make: L -> R)
    requires i <= |lines|
    requires AppendAll(p, lines[..i], check, make).fault.Some?
    ensures AppendAll(p, lines, check, make) == AppendAll(p, lines[..i], check, make)
    decreases |lines| - i
  {
    if i < |lines| {
      assert lines[..i + 1][..i] == lines[..i];
      StopsAtRejection(p, lines, i + 1, check, make);
    } else {
      assert lines[..i] == lines;
    }
  }
}
