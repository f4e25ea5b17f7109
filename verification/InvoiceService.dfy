/** The invoice rows (src/services/invoice.service.js, src/workers/invoice.worker.js): generated numbers
    that may collide, a bounded number of tries, the file of an invoice, and the guards in front of them. */
module InvoiceServices {
  import opened Domain
  import opened Store
  import I = Invoicing

  datatype Row = Row(invoiceNumber: string, receiptNumber: string, order: nat, hasFile: bool)

  /** One try: the two numbers generated, and whether the database call fails. */
  datatype Try = Try(invoiceNumber: string, receiptNumber: string, fault: bool)

  /** What the other operations answer. */
  datatype Weather = Weather(look: Outcome, read: Outcome, find: Outcome, render: Outcome, publish: Outcome)

  predicate Clashes(rows: seq<Row>, t: Try) {
    exists i :: 0 <= i < |rows|
                && (rows[i].invoiceNumber == t.invoiceNumber || rows[i].receiptNumber == t.receiptNumber)
  }

  predicate Invoiced(rows: seq<Row>, order: nat) {
    exists i :: 0 <= i < |rows| && rows[i].order == order
  }

  /** The three unique constraints of the table. */
  ghost predicate Unique(rows: seq<Row>) {
    forall i, j :: 0 <= i < j < |rows| ==>
      && rows[i].invoiceNumber != rows[j].invoiceNumber
      && rows[i].receiptNumber != rows[j].receiptNumber
      && rows[i].order != rows[j].order
  }

  /** The tries before `n` all collided on a number. */
  predicate Collided(rows: seq<Row>, tries: seq<Try>, n: nat)
    requires n <= |tries|
  {
    forall k :: 0 <= k < n ==> !tries[k].fault && Clashes(rows, tries[k])
  }

  /** Rows are not removed or changed, but that the row of `order` can get its file. */
  ghost predicate Kept(rows: seq<Row>, rows': seq<Row>, order: nat) {
    && |rows| <= |rows'|
    && forall i :: 0 <= i < |rows| ==>
         rows'[i] == rows[i] || (rows[i].order == order && rows'[i] == rows[i].(hasFile := true))
  }

  function FindByOrderId(rows: seq<Row>, order: nat): (found: Option<nat>)
    ensures found.Some? <==> Invoiced(rows, order)
    ensures found.Some? ==> found.value < |rows| && rows[found.value].order == order
  {
    if rows == [] then None
    else if rows[|rows| - 1].order == order then Some(|rows| - 1)
    else
      var front := rows[..|rows| - 1];
      assert forall i :: 0 <= i < |front| ==> front[i] == rows[i];
      FindByOrderId(front, order)
  }

  // ---------------------------------------------------------------- the rows as the other modules see them

  /** The orders with a row, and those whose row has its file. */
  function View(t: Tables, rows: seq<Row>): Tables {
    t.(invoices := set i | 0 <= i < |rows| :: rows[i].order,
       published := set i | 0 <= i < |rows| && rows[i].hasFile :: rows[i].order)
  }

  lemma ViewAppend(t: Tables, rows: seq<Row>, row: Row)
    requires !row.hasFile
    ensures View(t, rows + [row]) == View(t, rows).(invoices := View(t, rows).invoices + {row.order})
  {
    var longer := rows + [row];
    assert longer[|rows|] == row && forall i :: 0 <= i < |rows| ==> longer[i] == rows[i];
    forall o | o in View(t, rows).invoices + {row.order} ensures o in View(t, longer).invoices {
      if o != row.order {
        var i :| 0 <= i < |rows| && rows[i].order == o;
        assert longer[i].order == o;
      }
    }
    forall o | o in View(t, rows).published ensures o in View(t, longer).published {
      var i :| 0 <= i < |rows| && rows[i].hasFile && rows[i].order == o;
      assert longer[i].hasFile && longer[i].order == o;
    }
    assert View(t, longer).invoices == View(t, rows).invoices + {row.order};
    assert View(t, longer).published == View(t, rows).published;
  }

  lemma NotPublished(t: Tables, rows: seq<Row>, i: nat)
    requires Unique(rows) && i < |rows| && !rows[i].hasFile
    ensures rows[i].order !in View(t, rows).published
  {
  }

  lemma ViewFiled(t: Tables, rows: seq<Row>, i: nat)
    requires i < |rows|
    ensures View(t, rows[i := rows[i].(hasFile := true)])
            == View(t, rows).(published := View(t, rows).published + {rows[i].order})
  {
    var filed := rows[i := rows[i].(hasFile := true)];
    forall o | o in View(t, rows).invoices ensures o in View(t, filed).invoices {
      var k :| 0 <= k < |rows| && rows[k].order == o;
      assert filed[k].order == o;
    }
    forall o | o in View(t, rows).published + {rows[i].order} ensures o in View(t, filed).published {
      if o == rows[i].order {
        assert filed[i].hasFile && filed[i].order == o;
      } else {
        var k :| 0 <= k < |rows| && rows[k].hasFile && rows[k].order == o;
        assert filed[k].hasFile && filed[k].order == o;
      }
    }
    assert View(t, filed).invoices == View(t, rows).invoices;
    assert View(t, filed).published == View(t, rows).published + {rows[i].order};
  }

  /** What a database with these rows answers to the tries, up to the first that does not collide. */
  function Answers(rows: seq<Row>, tries: seq<Try>): seq<Outcome> {
    if tries == [] then []
    else if tries[0].fault then [Fault]
    else if Clashes(rows, tries[0]) then [NumberTaken] + Answers(rows, tries[1..])
    else [Fine(0)]
  }

  /** The outcomes of `createInvoice`, operation by operation. */
  function Plan(rows: seq<Row>, order: nat, w: Weather, tries: seq<Try>): seq<Outcome> {
    [w.read, w.find] + ((if Invoiced(rows, order) then [] else Answers(rows, tries)) + [w.render, w.publish])
  }

  datatype Result = Created(row: Row) | Existing(row: Row) | Error(code: nat)

  function Coded(r: Result): I.Result {
    match r
    case Created(_) => I.Done(true)
    case Existing(_) => I.Done(false)
    case Error(code) => I.Error(code)
  }

  lemma OneStep(t: Tables, k: I.Run, o: Outcome, rest: seq<Outcome>)
    requires I.InRange(t, k)
    ensures I.RunJob(t, k, [o] + rest)
            == match I.Advance(t, k, o).next
               case Stop(r) => I.Ended(I.Advance(t, k, o).tables, Some(r))
               case Go(k') => I.RunJob(I.Advance(t, k, o).tables, k', rest)
  {
  }

  /** Up to the look-up of the row nothing is written. */
  lemma ReadSteps(t: Tables, order: nat, w: Weather, tail: seq<Outcome>)
    requires |t.orders| == |t.payments|
    ensures
      I.RunJob(t, I.Start(order, false), [w.read] + ([w.find] + tail))
      == if w.read.Fault? then I.Ended(t, Some(I.Error(500)))
         else if order >= |t.orders| then I.Ended(t, Some(I.Error(404)))
         else if t.payments[order].status != Success then I.Ended(t, Some(I.Error(400)))
         else if w.find.Fault? then I.Ended(t, Some(I.Error(500)))
         else if order !in t.invoices then I.RunJob(t, I.Run(order, I.Creating(0)), tail)
         else if order in t.published then I.Ended(t, Some(I.Done(false)))
         else I.RunJob(t, I.Run(order, I.Rendering(false)), tail)
  {
    OneStep(t, I.Start(order, false), w.read, [w.find] + tail);
    if order < |t.orders| { OneStep(t, I.Run(order, I.Rechecking), w.find, tail); }
  }

  /** An order with a row: it has its file, or the run goes on to make it. */
  lemma ExistingSteps(t: Tables, rows: seq<Row>, i: nat, w: Weather, tries: seq<Try>)
    requires Unique(rows) && i < |rows| && |t.orders| == |t.payments| && rows[i].order < |t.orders|
    requires !w.read.Fault? && !w.find.Fault? && t.payments[rows[i].order].status == Success
    ensures
      var order := rows[i].order;
      I.RunJob(View(t, rows), I.Start(order, false), Plan(rows, order, w, tries))
      == if rows[i].hasFile then I.Ended(View(t, rows), Some(I.Done(false)))
         else I.RunJob(View(t, rows), I.Run(order, I.Rendering(false)), [w.render, w.publish])
  {
    var order, tail := rows[i].order, [w.render, w.publish];
    assert Plan(rows, order, w, tries) == [w.read] + ([w.find] + tail);
    ReadSteps(View(t, rows), order, w, tail);
    assert order in View(t, rows).invoices;
    if rows[i].hasFile { assert order in View(t, rows).published; } else { NotPublished(t, rows, i); }
  }

  /** An order without one. */
  lemma FreshSteps(t: Tables, rows: seq<Row>, order: nat, w: Weather, tries: seq<Try>)
    requires |t.orders| == |t.payments| && order < |t.orders| && !Invoiced(rows, order)
    requires !w.read.Fault? && !w.find.Fault? && t.payments[order].status == Success
    ensures
      I.RunJob(View(t, rows), I.Start(order, false), Plan(rows, order, w, tries))
      == I.RunJob(View(t, rows), I.Run(order, I.Creating(0)), Answers(rows, tries) + [w.render, w.publish])
  {
    var tail := Answers(rows, tries) + [w.render, w.publish];
    assert Plan(rows, order, w, tries) == [w.read] + ([w.find] + tail);
    ReadSteps(View(t, rows), order, w, tail);
  }

  /** A call that gets no further than its reads. */
  lemma RefusedSteps(t: Tables, rows: seq<Row>, order: nat, w: Weather, tries: seq<Try>)
    requires |t.orders| == |t.payments|
    requires w.read.Fault? || order >= |t.orders| || t.payments[order].status != Success || w.find.Fault?
    ensures
      I.RunJob(View(t, rows), I.Start(order, false), Plan(rows, order, w, tries))
      == I.Ended(View(t, rows), Some(I.Error(
           if w.read.Fault? then 500 else if order >= |t.orders| then 404
           else if t.payments[order].status != Success then 400 else 500)))
  {
    var tail := (if Invoiced(rows, order) then [] else Answers(rows, tries)) + [w.render, w.publish];
    assert Plan(rows, order, w, tries) == [w.read] + ([w.find] + tail);
    ReadSteps(View(t, rows), order, w, tail);
  }

  /** A try that collides moves the run on to the next one. */
  lemma CollisionSteps(t: Tables, rows: seq<Row>, order: nat, tries: seq<Try>, n: nat, rest: seq<Outcome>)
    requires |t.orders| == |t.payments| && order < |t.orders|
    requires n < |tries| == I.MAX_RETRIES && !tries[n].fault && Clashes(rows, tries[n])
    ensures
      var now := I.RunJob(t, I.Run(order, I.Creating(n)), Answers(rows, tries[n..]) + rest);
      now == if n + 1 < |tries| then I.RunJob(t, I.Run(order, I.Creating(n + 1)), Answers(rows, tries[n + 1..]) + rest)
             else I.Ended(t, Some(I.Error(500)))
  {
    var later := Answers(rows, tries[n + 1..]);
    assert tries[n..][0] == tries[n] && tries[n..][1..] == tries[n + 1..];
    assert Answers(rows, tries[n..]) == [NumberTaken] + later;
    assert ([NumberTaken] + later) + rest == [NumberTaken] + (later + rest);
    OneStep(t, I.Run(order, I.Creating(n)), NumberTaken, later + rest);
  }

  /** A try that does not decides. */
  lemma LastTrySteps(t: Tables, rows: seq<Row>, order: nat, tries: seq<Try>, n: nat, rest: seq<Outcome>)
    requires |t.orders| == |t.payments| && order < |t.orders|
    requires n < |tries| == I.MAX_RETRIES && (tries[n].fault || !Clashes(rows, tries[n]))
    ensures
      var now := I.RunJob(t, I.Run(order, I.Creating(n)), Answers(rows, tries[n..]) + rest);
      now == if tries[n].fault || order in t.invoices then I.Ended(t, Some(I.Error(500)))
             else I.RunJob(t.(invoices := t.invoices + {order}), I.Run(order, I.Rendering(true)), rest)
  {
    OneStep(t, I.Run(order, I.Creating(n)), if tries[n].fault then Fault else Fine(0), rest);
  }

  class InvoiceService {
    var rows: seq<Row>

    constructor ()
      ensures rows == []
    {
      rows := [];
    }

    /** At most three tries; only a collision on a number is tried again. */
    method CreateInvoiceRecord(order: nat, tries: seq<Try>, ghost t: Tables, ghost rest: seq<Outcome>)
      returns (r: Option<Row>)
      requires Unique(rows) && |tries| == I.MAX_RETRIES && |t.orders| == |t.payments| && order < |t.orders|
      modifies this
      ensures Unique(rows)
      ensures rows == if r.Some? then old(rows) + [r.value] else old(rows)
      ensures r.Some? <==>
              exists n :: 0 <= n < |tries| && Collided(old(rows), tries, n) && !tries[n].fault
                          && !Clashes(old(rows), tries[n]) && !Invoiced(old(rows), order)
      ensures r.Some? ==>
              exists n :: 0 <= n < |tries| && Collided(old(rows), tries, n)
                          && r.value == Row(tries[n].invoiceNumber, tries[n].receiptNumber, order, false)
      ensures I.RunJob(View(t, old(rows)), I.Run(order, I.Creating(0)), Answers(old(rows), tries) + rest)
              == if r.None? then I.Ended(View(t, rows), Some(I.Error(500)))
                 else I.RunJob(View(t, rows), I.Run(order, I.Rendering(true)), rest)
    {
      var retryCount := 0;
      assert tries[0..] == tries;
      while retryCount < I.MAX_RETRIES
        invariant 0 <= retryCount <= I.MAX_RETRIES
        invariant rows == old(rows) && Collided(rows, tries, retryCount)
        invariant
          I.RunJob(View(t, rows), I.Run(order, I.Creating(0)), Answers(rows, tries) + rest)
          == if retryCount < I.MAX_RETRIES
             then I.RunJob(View(t, rows), I.Run(order, I.Creating(retryCount)),
                 Answers(rows, tries[retryCount..]) + rest)
             else I.Ended(View(t, rows), Some(I.Error(500)))
      {
        var try := tries[retryCount];
        if !try.fault && Clashes(rows, try) {
          CollisionSteps(View(t, rows), rows, order, tries, retryCount, rest);
          retryCount := retryCount + 1;
        } else {
          LastTrySteps(View(t, rows), rows, order, tries, retryCount, rest);
          if try.fault || Invoiced(rows, order) { return None; }
          var row := Row(try.invoiceNumber, try.receiptNumber, order, false);
          ViewAppend(t, rows, row);
          rows := rows + [row];
          return Some(row);
        }
      }
      r := None;
    }

    /** `_generateAndUpdatePdf`: the file of the row at `i`, then its address in the row. */
    method GenerateAndUpdatePdf(i: nat, w: Weather, ghost t: Tables, ghost created: bool) returns (ok: bool)
      requires Unique(rows) && i < |rows| && |t.orders| == |t.payments| && rows[i].order < |t.orders|
      modifies this
      ensures Unique(rows)
      ensures ok <==> !w.render.Fault? && !w.publish.Fault?
      ensures rows == if ok then old(rows)[i := old(rows)[i].(hasFile := true)] else old(rows)
      ensures I.RunJob(View(t, old(rows)), I.Run(old(rows)[i].order, I.Rendering(created)), [w.render, w.publish])
              == I.Ended(View(t, rows), Some(if ok then I.Done(created) else I.Error(500)))
    {
      ghost var rendering := I.Run(rows[i].order, I.Rendering(created));
      assert [w.render, w.publish] == [w.render] + ([w.publish] + []);
      OneStep(View(t, rows), rendering, w.render, [w.publish] + []);
      if w.render.Fault? { return false; }
      OneStep(View(t, rows), rendering.(at := I.Publishing(created)), w.publish, []);
      if w.publish.Fault? { return false; }
      ViewFiled(t, rows, i);
      rows := rows[i := rows[i].(hasFile := true)];
      return true;
    }

    /** The row at `i` is the order's: it is returned, after its file is made if it has none. */
    method CompleteInvoice(ghost t: Tables, i: nat, w: Weather, ghost tries: seq<Try>) returns (r: Result)
      requires Unique(rows) && i < |rows| && |t.orders| == |t.payments| && rows[i].order < |t.orders|
      requires !w.read.Fault? && !w.find.Fault? && t.payments[rows[i].order].status == Success
      modifies this
      ensures Unique(rows)
      ensures
        var order := old(rows)[i].order;
        && I.Ended(View(t, rows), Some(Coded(r)))
           == I.RunJob(View(t, old(rows)), I.Start(order, false), Plan(old(rows), order, w, tries))
        && (!r.Error? ==> r.row in rows && r.row.order == order && r.row.hasFile)
        && Kept(old(rows), rows, order)
    {
      ExistingSteps(t, rows, i, w, tries);
      if rows[i].hasFile { return Existing(rows[i]); }
      var ok := GenerateAndUpdatePdf(i, w, t, false);
      return if ok then Existing(rows[i]) else Error(500);
    }

    /** The order has no row: one is stored, and its file made. */
    method MakeInvoice(ghost t: Tables, order: nat, w: Weather, tries: seq<Try>) returns (r: Result)
      requires Unique(rows) && |tries| == I.MAX_RETRIES && |t.orders| == |t.payments| && order < |t.orders|
      requires !Invoiced(rows, order) && !w.read.Fault? && !w.find.Fault? && t.payments[order].status == Success
      modifies this
      ensures Unique(rows)
      ensures I.Ended(View(t, rows), Some(Coded(r)))
              == I.RunJob(View(t, old(rows)), I.Start(order, false), Plan(old(rows), order, w, tries))
      ensures !r.Error? ==> r.row in rows && r.row.order == order && r.row.hasFile
      ensures Kept(old(rows), rows, order)
    {
      FreshSteps(t, rows, order, w, tries);
      var row := CreateInvoiceRecord(order, tries, t, [w.render, w.publish]);
      if row.None? { return Error(500); }
      var ok := GenerateAndUpdatePdf(|rows| - 1, w, t, true);
      return if ok then Created(rows[|rows| - 1]) else Error(500);
    }

    /** `createInvoice`; `t` holds the order and its payment. The rows and the answer are those of the
        step-by-step run on the orders with a row and with a file, under the same outcomes. */
    method CreateInvoice(t: Tables, order: nat, w: Weather, tries: seq<Try>) returns (r: Result)
      requires Unique(rows) && |tries| == I.MAX_RETRIES && |t.orders| == |t.payments|
      modifies this
      ensures Unique(rows)
      ensures I.Ended(View(t, rows), Some(Coded(r)))
              == I.RunJob(View(t, old(rows)), I.Start(order, false), Plan(old(rows), order, w, tries))
      ensures !r.Error? ==> r.row in rows && r.row.order == order && r.row.hasFile
      ensures Kept(old(rows), rows, order)
    {
      if w.read.Fault? || order >= |t.orders| || t.payments[order].status != Success || w.find.Fault? {
        RefusedSteps(t, rows, order, w, tries);
        if w.read.Fault? { return Error(500); }
        if order >= |t.orders| { return Error(404); }
        if t.payments[order].status != Success { return Error(400); }
        return Error(500);
      }
      var existing := FindByOrderId(rows, order);
      if existing.Some? {
        r := CompleteInvoice(t, existing.value, w, tries);
      } else {
        r := MakeInvoice(t, order, w, tries);
      }
    }

    /** The queue's way in: a look of its own, then the same. */
    method ProcessInvoiceJob(t: Tables, order: nat, w: Weather, tries: seq<Try>) returns (r: Result)
      requires Unique(rows) && |tries| == I.MAX_RETRIES && |t.orders| == |t.payments|
      modifies this
      ensures Unique(rows)
      ensures I.Ended(View(t, rows), Some(Coded(r)))
              == I.RunJob(View(t, old(rows)), I.Start(order, true), [w.look] + Plan(old(rows), order, w, tries))
      ensures Invoiced(old(rows), order) ==> rows == old(rows)
    {
      OneStep(View(t, rows), I.Start(order, true), w.look, Plan(rows, order, w, tries));
      if w.look.Fault? { return Error(500); }
      var existing := FindByOrderId(rows, order);
      if existing.Some? { return Existing(rows[existing.value]); }
      r := CreateInvoice(t, order, w, tries);
    }
  }
}
