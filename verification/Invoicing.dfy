/** `processInvoiceJob` and `createInvoice` (src/workers/invoice.worker.js,
    src/services/invoice.service.js) as a program counter. The mail, which never throws, is left out. */
module Invoicing {
  import opened Domain
  import opened Store

  const MAX_RETRIES := 3

  datatype Point =
    | Checking              // the worker's own look for an invoice
    | Reading               // read the order with its payment
    | Rechecking            // the service's look for an invoice
    | Creating(retries: nat)
    | Rendering(created: bool)   // make the file of the invoice
    | Publishing(created: bool)  // write its address into the row

  datatype Run = Run(order: nat, at: Point)

  /** `Done(true)`: this run inserted the row; `Done(false)`: it was there; or an HTTP status. */
  datatype Result = Done(created: bool) | Error(code: nat)

  datatype Next = Go(run: Run) | Stop(result: Result)

  datatype Turn = Turn(tables: Tables, next: Next)

  predicate InRange(t: Tables, k: Run) {
    && |t.orders| == |t.payments|
    && (!k.at.Checking? && !k.at.Reading? ==> k.order < |t.orders|)
    && (k.at.Creating? ==> k.at.retries < MAX_RETRIES)
  }

  function Advance(t: Tables, k: Run, o: Outcome): (turn: Turn)
    requires InRange(t, k)
    ensures turn.next.Go? ==> InRange(turn.tables, turn.next.run)
    ensures turn.next.Go? ==> turn.next.run.order == k.order
  {
    var failed := Turn(t, Stop(Error(500)));
    match k.at
    case Checking =>
      if o.Fault? then failed
      else if k.order in t.invoices then Turn(t, Stop(Done(false)))
      else Turn(t, Go(k.(at := Reading)))
    case Reading =>
      if o.Fault? then failed
      else if k.order >= |t.orders| then Turn(t, Stop(Error(404)))
      else if t.payments[k.order].status != Success then Turn(t, Stop(Error(400)))
      else Turn(t, Go(k.(at := Rechecking)))
    case Rechecking =>
      if o.Fault? then failed
      else if k.order in t.invoices then
        if k.order in t.published then Turn(t, Stop(Done(false))) else Turn(t, Go(k.(at := Rendering(false))))
      else Turn(t, Go(k.(at := Creating(0))))
    case Creating(retries) =>
      // the order of an invoice is unique too, and a clash on it is not retried
      if o.NumberTaken? && retries + 1 < MAX_RETRIES then Turn(t, Go(k.(at := Creating(retries + 1))))
      else if !o.Fine? || k.order in t.invoices then failed
      else Turn(t.(invoices := t.invoices + {k.order}), Go(k.(at := Rendering(true))))
    case Rendering(created) => if o.Fault? then failed else Turn(t, Go(k.(at := Publishing(created))))
    case Publishing(created) =>
      // a row that cannot be updated leaves the invoice as it was
      if o.Fault? then failed else Turn(t.(published := t.published + {k.order}), Stop(Done(created)))
  }

  function Start(order: nat, queued: bool): Run {
    Run(order, if queued then Checking else Reading)
  }

  datatype Ended = Ended(tables: Tables, result: Option<Result>)

  /** One run, alone, with one scripted outcome per awaited operation. */
  function RunJob(t: Tables, k: Run, script: seq<Outcome>): (e: Ended)
    requires InRange(t, k)
    ensures e.tables == t.(invoices := e.tables.invoices, published := e.tables.published)
    ensures e.tables.invoices == t.invoices || e.tables.invoices == t.invoices + {k.order}
    ensures e.tables.published == t.published || e.tables.published == t.published + {k.order}
    decreases |script|
  {
    if script == [] then Ended(t, None)
    else
      var turn := Advance(t, k, script[0]);
      match turn.next
      case Stop(r) => Ended(turn.tables, Some(r))
      case Go(k') => RunJob(turn.tables, k', script[1..])
  }
}
