/** `processWebhookJob` (src/workers/webhook.worker.js) as a program counter over its awaited
    operations. One `Advance` is one awaited operation. */
module Worker {
  import opened Domain
  import opened StateMachine
  import opened Ledger
  import opened Store
  import B = Backoff

  datatype Verdict = Confirm | Reject | Ignore

  /** What the event asks for. */
  function Classify(e: Event): Verdict {
    match e.gateway
    case Stripe =>
      if e.eventType == "payment_intent.succeeded" then Confirm
      else if e.eventType == "payment_intent.payment_failed" then Reject
      else Ignore
    case Cashfree =>
      if e.paymentStatus == "SUCCESS" then Confirm
      else if e.paymentStatus == "FAILED" || e.paymentStatus == "USER_DROPPED" then Reject
      else Ignore
  }

  function Target(v: Verdict): PaymentStatus
    requires v != Ignore
  {
    if v == Confirm then Success else Failed
  }

  /** The operation a run is about to await. */
  datatype Point =
    | Loading                                      // read the event row
    | Marking                                      // write PROCESSING, count the attempt
    | Looking                                      // find the payment
    | Moving(payment: nat, target: PaymentStatus)  // read and write the payment row
    | Syncing(payment: nat, target: PaymentStatus) // write the order row
    | Seeking(payment: nat)                        // look the credit up
    | Crediting(payment: nat)                      // insert the credit
    | Rereading(payment: nat)                      // the insert clashed: read the stored credit
    | Finishing                                    // write PROCESSED
    | Failing                                      // in the catch block: write RETRYING or DEAD_LETTER

  datatype Run = Run(row: nat, attemptsMade: nat, at: Point)

  datatype JobResult = NotFound | AlreadyProcessed | Completed | Rethrown

  datatype Next = Go(run: Run) | Stop(result: JobResult)

  datatype Turn = Turn(tables: Tables, next: Next)

  function AfterMove(cfg: Config, p: nat, target: PaymentStatus): Point {
    if target == Success && cfg.ledgerEnabled then Seeking(p) else Finishing
  }

  /** The status the catch block records. */
  function FailureStatus(cfg: Config, attemptsMade: nat): EventStatus {
    if attemptsMade + 1 >= cfg.maxAttempts then DeadLetter else Retrying
  }

  /** The time to the next attempt it records: none after the last one. */
  function NextRetry(cfg: Config, attemptsMade: nat): Option<nat> {
    if attemptsMade + 1 >= cfg.maxAttempts then None else Some(B.Delay(cfg.backoffMs, attemptsMade + 1))
  }

  /** The event row after a recorded failure. */
  function WithFailure(cfg: Config, events: seq<Event>, row: nat, attemptsMade: nat): seq<Event>
    requires row < |events|
  {
    events[row := events[row].(status := FailureStatus(cfg, attemptsMade), nextRetry := NextRetry(cfg, attemptsMade))]
  }

  /** The row numbers a run holds are those of existing rows. */
  predicate InRange(t: Tables, k: Run) {
    && |t.orders| == |t.payments|
    && (k.at.Loading? || k.row < |t.events|)
    && ((k.at.Moving? || k.at.Syncing? || k.at.Seeking? || k.at.Crediting? || k.at.Rereading?) ==>
          k.at.payment < |t.payments|)
    && ((k.at.Moving? || k.at.Syncing?) ==> k.at.target == Success || k.at.target == Failed)
  }

  function Advance(cfg: Config, t: Tables, k: Run, o: Outcome): (turn: Turn)
    requires InRange(t, k)
    ensures turn.next.Go? ==> InRange(turn.tables, turn.next.run)
    ensures turn.next.Go? ==> turn.next.run.row == k.row && turn.next.run.attemptsMade == k.attemptsMade
    ensures |turn.tables.events| == |t.events|
    ensures |turn.tables.payments| == |t.payments| && |turn.tables.orders| == |t.orders|
  {
    var thrown := Turn(t, Go(k.(at := Failing)));
    match k.at
    case Loading =>
      if o.Fault? then Turn(t, Stop(Rethrown))
      else if k.row >= |t.events| then Turn(t, Stop(NotFound))
      else if t.events[k.row].status == Processed then Turn(t, Stop(AlreadyProcessed))
      else Turn(t, Go(k.(at := Marking)))
    case Marking =>
      if o.Fault? then Turn(t, Stop(Rethrown))
      else
        var e := t.events[k.row];
        var marked := t.(events := t.events[k.row := e.(status := Processing, attempts := e.attempts + 1)]);
        // an event a Stripe run does not know is not looked up at all
        Turn(marked, Go(k.(at := if e.gateway == Stripe && Classify(e) == Ignore then Finishing else Looking)))
    case Looking =>
      if o.Fault? then thrown
      else
        var e := t.events[k.row];
        var found := Lookup(t, e, if o.Fine? then o.hint else 0);
        if found.None? || Classify(e) == Ignore then Turn(t, Go(k.(at := Finishing)))
        else Turn(t, Go(k.(at := Moving(found.value, Target(Classify(e))))))
    case Moving(p, target) =>
      var status := t.payments[p].status;
      if o.Fault? then thrown
      else if status == target then Turn(t, Go(k.(at := AfterMove(cfg, p, target))))
      else if !CanTransition(status, target) then thrown
      else
        var moved := t.(payments := WithStatus(t.payments, p, target));
        Turn(moved, Go(k.(at := if OrderWrite(target).Some? then Syncing(p, target) else AfterMove(cfg, p, target))))
    case Syncing(p, target) =>
      if o.Fault? then thrown
      else
        var synced := t.(orders := WithOrderStatus(t.orders, p, Image(target)));
        Turn(synced, Go(k.(at := AfterMove(cfg, p, target))))
    case Seeking(p) =>
      if o.Fault? then thrown
      else if Has(t.ledger, CreditRef(t.events[k.row].eventId, t.payments[p])) then Turn(t, Go(k.(at := Finishing)))
      else Turn(t, Go(k.(at := Crediting(p))))
    case Crediting(p) =>
      var e := CreditEntry(t.events[k.row].eventId, t.payments, p);
      if o.Fault? then thrown
      else if Has(t.ledger, e.ref) then Turn(t, Go(k.(at := Rereading(p))))
      else Turn(t.(ledger := t.ledger + [e]), Go(k.(at := Finishing)))
    case Rereading(p) =>
      if o.Fault? then thrown else Turn(t, Go(k.(at := Finishing)))
    case Finishing =>
      if o.Fault? then thrown
      else Turn(t.(events := WithEventStatus(t.events, k.row, Processed)), Stop(Completed))
    case Failing =>
      if o.Fault? then Turn(t, Stop(Rethrown))
      else Turn(t.(events := WithFailure(cfg, t.events, k.row, k.attemptsMade)), Stop(Rethrown))
  }

  function Start(row: nat, attemptsMade: nat): Run {
    Run(row, attemptsMade, Loading)
  }

  /** How a run under a script ended: with a result, or with the death of its process because the
      script ran out. */
  datatype Ended = Ended(tables: Tables, result: Option<JobResult>)

  /** One run of the job, alone, with one scripted outcome per awaited operation. */
  function RunJob(cfg: Config, t: Tables, k: Run, script: seq<Outcome>): (e: Ended)
    requires InRange(t, k)
    ensures |e.tables.orders| == |e.tables.payments| == |t.payments| && |e.tables.events| == |t.events|
    decreases |script|
  {
    if script == [] then Ended(t, None)
    else
      var turn := Advance(cfg, t, k, script[0]);
      match turn.next
      case Stop(r) => Ended(turn.tables, Some(r))
      case Go(k') => RunJob(cfg, turn.tables, k', script[1..])
  }
}
