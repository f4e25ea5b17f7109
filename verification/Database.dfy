/** The services as the backend writes them: methods that change the tables in place, step by step, and
    may be thrown out of or cut off at every awaited operation. Each is proved to do exactly what its
    program-counter form does, so that every theorem about the runs of the system is one about these
    methods.

    `script` holds one outcome per awaited operation; the process dies where it runs out. */
module Databases {
  import opened Domain
  import opened StateMachine
  import opened Ledger
  import opened Store
  import opened Rounding
  import B = Backoff
  import I = Invoicing
  import W = Worker
  import R = Refunds

  // ---------------------------------------------------------------- calls inside runs

  /** A worker's run from its transition on, by the whole transition. */
  lemma RunFromMoving(cfg: Config, t: Tables, k: W.Run, script: seq<Outcome>)
    requires W.InRange(t, k) && k.at.Moving?
    ensures
      var c := Transit(t, k.at.payment, k.at.target, script);
      var after := k.(at := W.AfterMove(cfg, k.at.payment, k.at.target));
      W.RunJob(cfg, t, k, script)
      == match c.ending
         case Died => W.Ended(c.tables, None)
         case Returned => W.RunJob(cfg, c.tables, after, c.left)
         case _ => W.RunJob(cfg, c.tables, k.(at := W.Failing), c.left)
  {
  }

  /** A worker's run from its look-up of the credit on, by the whole recording. */
  lemma RunFromSeeking(cfg: Config, t: Tables, k: W.Run, script: seq<Outcome>)
    requires W.InRange(t, k) && k.at.Seeking?
    ensures
      var c := Record(t, CreditEntry(t.events[k.row].eventId, t.payments, k.at.payment), script);
      W.RunJob(cfg, t, k, script)
      == if c.ending == Died then W.Ended(c.tables, None)
         else W.RunJob(cfg, c.tables, k.(at := if c.ending == Returned then W.Finishing else W.Failing), c.left)
  {
  }

  /** A refund call from its transition on, by the whole transition. */
  lemma CallFromMoving(cfg: Config, t: Tables, k: R.Run, script: seq<Outcome>)
    requires R.InRange(t, k) && k.at.Moving?
    ensures
      var c := Transit(t, k.payment, R.Goal(k.at.isFull), script);
      && R.InRange(c.tables, k.(at := R.Seeking(k.at.refund, k.at.isFull)))
      && R.RunCall(cfg, t, k, script)
         == match c.ending
            case Died => R.Ended(c.tables, None)
            case Threw => R.Ended(c.tables, Some(R.Error(500)))
            case Refused => R.Ended(c.tables, Some(R.Error(400)))
            case Returned =>
              if cfg.ledgerEnabled
              then R.RunCall(cfg, c.tables, k.(at := R.Seeking(k.at.refund, k.at.isFull)), c.left)
              else R.Ended(c.tables, Some(R.Created(k.at.refund)))
  {
  }

  /** A refund call from its look-up of the debit on, by the whole recording. */
  lemma CallFromSeeking(cfg: Config, t: Tables, k: R.Run, script: seq<Outcome>)
    requires R.InRange(t, k) && k.at.Seeking?
    ensures
      var c := Record(t, DebitEntry(t.payments, k.payment, t.refunds[k.at.refund], !k.at.isFull), script);
      R.RunCall(cfg, t, k, script)
      == match c.ending
         case Died => R.Ended(c.tables, None)
         case Returned => R.Ended(c.tables, Some(R.Created(k.at.refund)))
         case _ => R.Ended(c.tables, Some(R.Error(500)))
  {
  }

  /** An appended entry with a reference of its own is the one found under it. */
  lemma {:induction false} FindAppended(ledger: seq<Entry>, e: Entry)
    requires !Has(ledger, e.ref)
    ensures Find(ledger + [e], e.ref) == Some(e)
    decreases |ledger|
  {
    if ledger != [] {
      forall i | 0 <= i < |ledger[1..]| ensures ledger[1..][i].ref != e.ref { assert ledger[1..][i] == ledger[i + 1]; }
      FindAppended(ledger[1..], e);
      assert (ledger + [e])[1..] == ledger[1..] + [e];
    }
  }

  class Database {
    var payments: seq<Payment>
    var orders: seq<Order>
    var events: seq<Event>
    var refunds: seq<Refund>
    var ledger: seq<Entry>
    var invoices: set<nat>
    var published: set<nat>
    var gateway: seq<GatewayRefund>

    function Now(): Tables
      reads this
    {
      Tables(payments, orders, events, refunds, ledger, invoices, published, gateway)
    }

    predicate Valid()
      reads this
    {
      |orders| == |payments|
    }

    /** `transition`. */
    method Transition(p: nat, target: PaymentStatus, script: seq<Outcome>) returns (left: seq<Outcome>, ending: Ending)
      requires Valid() && p < |payments|
      modifies this`payments, this`orders
      ensures Valid()
      ensures Call(Now(), left, ending) == Transit(old(Now()), p, target, script)
    {
      left := script;
      if left == [] {
        return left, Died;
      }
      var o := left[0];
      left := left[1..];
      if o.Fault? {
        return left, Threw;
      }
      var payment := payments[p];
      if payment.status == target {
        return left, Returned;
      }
      if !CanTransition(payment.status, target) {
        return left, Refused;
      }
      payments := payments[p := payment.(status := target)];
      var orderStatus: Option<OrderStatus> := None;
      if target == Success {
        orderStatus := Some(OrderPaid);
      } else if target == Failed {
        orderStatus := Some(OrderFailed);
      } else if target == Refunded {
        orderStatus := Some(OrderCancelled);
      }
      if orderStatus.Some? {
        if left == [] {
          return left, Died;
        }
        o := left[0];
        left := left[1..];
        if o.Fault? {
          return left, Threw;
        }
        orders := orders[p := orders[p].(status := orderStatus.value)];
      }
      return left, Returned;
    }

    /** The repository's `create`: the new entry, or, when the reference is taken, the stored one, which
        takes one more operation. */
    method CreateEntry(entry: Entry, script: seq<Outcome>)
      returns (left: seq<Outcome>, ending: Ending, stored: Option<Entry>)
      modifies this`ledger
      ensures ledger == if ending == Returned && !Has(old(ledger), entry.ref) then old(ledger) + [entry]
                        else old(ledger)
      ensures ending == Returned <==> stored.Some?
      ensures stored.Some? ==> stored == Find(ledger, entry.ref) && (UniqueRefs(old(ledger)) ==> UniqueRefs(ledger))
      ensures
        var operations := if Has(old(ledger), entry.ref) then 2 else 1;
        if |script| < operations && (script == [] || !script[0].Fault?) then ending == Died
        else if script[0].Fault? || (operations == 2 && script[1].Fault?) then ending == Threw
        else ending == Returned && left == script[operations..]
      ensures !Has(old(ledger), entry.ref) && script != [] ==> left == script[1..]
      ensures script == [] ==> left == []
    {
      left := script;
      if left == [] {
        return left, Died, None;
      }
      var o := left[0];
      left := left[1..];
      if o.Fault? {
        return left, Threw, None;
      }
      var clash := Find(ledger, entry.ref);
      if clash.None? {
        ledger := ledger + [entry];
        FindAppended(old(ledger), entry);
        return left, Returned, Some(entry);
      }
      if left == [] {
        return left, Died, None;
      }
      o := left[0];
      left := left[1..];
      if o.Fault? {
        return left, Threw, None;
      }
      return left, Returned, clash;
    }

    /** The look-up and the insert shared by `recordPaymentCredit` and `recordRefundDebit`: an entry that
        is found is returned, else the new one is appended. */
    method RecordEntry(entry: Entry, script: seq<Outcome>) returns (left: seq<Outcome>, ending: Ending)
      modifies this`ledger
      ensures Call(Now(), left, ending) == Record(old(Now()), entry, script)
      ensures old(ledger) <= ledger
      ensures ending == Returned ==> Has(ledger, entry.ref)
    {
      left := script;
      if left == [] {
        return left, Died;
      }
      var o := left[0];
      left := left[1..];
      if o.Fault? {
        return left, Threw;
      }
      var existing := Find(ledger, entry.ref);
      if existing.Some? {
        return left, Returned;
      }
      var stored;
      left, ending, stored := CreateEntry(entry, left);
    }

    /** `recordPaymentCredit`. */
    method RecordPaymentCredit(cfg: Config, p: nat, eventId: string, script: seq<Outcome>)
      returns (left: seq<Outcome>, ending: Ending)
      requires p < |payments|
      modifies this`ledger
      ensures cfg.ledgerEnabled ==>
                Call(Now(), left, ending) == Record(old(Now()), CreditEntry(eventId, payments, p), script)
      ensures !cfg.ledgerEnabled ==> Now() == old(Now()) && left == script && ending == Returned
    {
      if !cfg.ledgerEnabled {
        return script, Returned;
      }
      left, ending := RecordEntry(CreditEntry(eventId, payments, p), script);
    }

    /** `recordRefundDebit`. */
    method RecordRefundDebit(cfg: Config, p: nat, refund: Refund, isPartial: bool, script: seq<Outcome>)
      returns (left: seq<Outcome>, ending: Ending)
      requires p < |payments|
      modifies this`ledger
      ensures cfg.ledgerEnabled ==>
                Call(Now(), left, ending) == Record(old(Now()), DebitEntry(payments, p, refund, isPartial), script)
      ensures !cfg.ledgerEnabled ==> Now() == old(Now()) && left == script && ending == Returned
    {
      if !cfg.ledgerEnabled {
        return script, Returned;
      }
      left, ending := RecordEntry(DebitEntry(payments, p, refund, isPartial), script);
    }

    /** The rest of a run from here, by how this part of it ended. */
    static ghost predicate Continues(
      cfg: Config, t: Tables, k: W.Run, script: seq<Outcome>,
      t': Tables, left: seq<Outcome>, ending: Ending)
    {
      && W.InRange(t, k) && W.InRange(t', k.(at := W.Finishing)) && |left| <= |script|
      && W.RunJob(cfg, t, k, script)
         == match ending
            case Died => W.Ended(t', None)
            case Returned => W.RunJob(cfg, t', k.(at := W.Finishing), left)
            case _ => W.RunJob(cfg, t', k.(at := W.Failing), left)
    }

    /** The branch of a success event: confirm the payment, then credit it. */
    method Confirm(cfg: Config, row: nat, ghost attemptsMade: nat, p: nat, script: seq<Outcome>)
      returns (left: seq<Outcome>, ending: Ending)
      requires Valid() && row < |events| && p < |payments|
      modifies this`payments, this`orders, this`ledger
      ensures Valid() && |payments| == |old(payments)|
      ensures Continues(cfg, old(Now()), W.Run(row, attemptsMade, W.Moving(p, Success)), script, Now(), left, ending)
    {
      ghost var k := W.Run(row, attemptsMade, W.Moving(p, Success));
      RunFromMoving(cfg, Now(), k, script);
      left, ending := Transition(p, Success, script);
      if ending != Returned {
        return;
      }
      if cfg.ledgerEnabled {
        RunFromSeeking(cfg, Now(), k.(at := W.Seeking(p)), left);
      }
      left, ending := RecordPaymentCredit(cfg, p, events[row].eventId, left);
    }

    /** The branch of a failure event. */
    method Reject(cfg: Config, row: nat, ghost attemptsMade: nat, p: nat, script: seq<Outcome>)
      returns (left: seq<Outcome>, ending: Ending)
      requires Valid() && row < |events| && p < |payments|
      modifies this`payments, this`orders
      ensures Valid() && |payments| == |old(payments)|
      ensures Continues(cfg, old(Now()), W.Run(row, attemptsMade, W.Moving(p, Failed)), script, Now(), left, ending)
    {
      RunFromMoving(cfg, Now(), W.Run(row, attemptsMade, W.Moving(p, Failed)), script);
      left, ending := Transition(p, Failed, script);
    }

    /** The part of the try block that handles the event: find its payment and act on it. */
    method HandleEvent(cfg: Config, row: nat, ghost attemptsMade: nat, script: seq<Outcome>)
      returns (left: seq<Outcome>, ending: Ending)
      requires Valid() && row < |events|
      requires !(events[row].gateway == Stripe && W.Classify(events[row]) == W.Ignore)
      modifies this`payments, this`orders, this`ledger
      ensures Valid() && |payments| == |old(payments)|
      ensures Continues(cfg, old(Now()), W.Run(row, attemptsMade, W.Looking), script, Now(), left, ending)
    {
      left := script;
      if left == [] {
        return left, Died;
      }
      var o := left[0];
      left := left[1..];
      if o.Fault? {
        return left, Threw;
      }
      var payment := Lookup(Now(), events[row], if o.Fine? then o.hint else 0);
      var verdict := W.Classify(events[row]);
      if payment.None? || verdict == W.Ignore {
        return left, Returned;
      }
      if verdict == W.Confirm {
        left, ending := Confirm(cfg, row, attemptsMade, payment.value, left);
      } else {
        left, ending := Reject(cfg, row, attemptsMade, payment.value, left);
      }
    }

    /** The catch block: record the failure, then throw again. */
    method RecordFailure(cfg: Config, row: nat, attemptsMade: nat, script: seq<Outcome>)
      returns (result: Option<W.JobResult>)
      requires Valid() && row < |events|
      modifies this`events
      ensures Valid()
      ensures W.Ended(Now(), result) == W.RunJob(cfg, old(Now()), W.Run(row, attemptsMade, W.Failing), script)
    {
      if script == [] {
        return None;
      }
      if script[0].Fault? {
        return Some(W.Rethrown);
      }
      var currentAttempts := attemptsMade + 1;
      var isMaxAttempts := currentAttempts >= cfg.maxAttempts;
      var nextRetry := if isMaxAttempts then None else Some(B.Delay(cfg.backoffMs, currentAttempts));
      events := events[row := events[row].(status := if isMaxAttempts then DeadLetter else Retrying,
                                           nextRetry := nextRetry)];
      return Some(W.Rethrown);
    }

    /** The try block with its catch, from the event marked as PROCESSING on. */
    method Process(cfg: Config, row: nat, attemptsMade: nat, script: seq<Outcome>)
      returns (result: Option<W.JobResult>)
      requires Valid() && row < |events|
      modifies this`payments, this`orders, this`events, this`ledger
      ensures Valid()
      ensures
        var ignored := old(events[row].gateway == Stripe && W.Classify(events[row]) == W.Ignore);
        W.Ended(Now(), result)
        == W.RunJob(cfg, old(Now()), W.Run(row, attemptsMade, if ignored then W.Finishing else W.Looking), script)
    {
      var left, ending := script, Returned;
      if !(events[row].gateway == Stripe && W.Classify(events[row]) == W.Ignore) {
        left, ending := HandleEvent(cfg, row, attemptsMade, left);
      }
      if ending == Died {
        return None;
      }
      if ending != Returned {
        result := RecordFailure(cfg, row, attemptsMade, left);
        return;
      }
      // mark the event PROCESSED
      if left == [] {
        return None;
      }
      if left[0].Fault? {
        result := RecordFailure(cfg, row, attemptsMade, left[1..]);
        return;
      }
      events := events[row := events[row].(status := Processed)];
      return Some(W.Completed);
    }

    /** `processWebhookJob`: the result, or None when the process died. */
    method ProcessWebhookJob(cfg: Config, row: nat, attemptsMade: nat, script: seq<Outcome>)
      returns (result: Option<W.JobResult>)
      requires Valid()
      modifies this`payments, this`orders, this`events, this`ledger
      ensures Valid()
      ensures W.Ended(Now(), result) == W.RunJob(cfg, old(Now()), W.Start(row, attemptsMade), script)
    {
      if script == [] {
        return None;
      }
      if script[0].Fault? {
        return Some(W.Rethrown);
      }
      if row >= |events| {
        return Some(W.NotFound);
      }
      if events[row].status == Processed {
        return Some(W.AlreadyProcessed);
      }
      ghost var marking := W.Run(row, attemptsMade, W.Marking);
      assert W.Advance(cfg, Now(), W.Start(row, attemptsMade), script[0]) == W.Turn(Now(), W.Go(marking));
      var left := script[1..];
      if left == [] {
        return None;
      }
      if left[0].Fault? {
        return Some(W.Rethrown);
      }
      var event := events[row];
      events := events[row := event.(status := Processing, attempts := event.attempts + 1)];
      result := Process(cfg, row, attemptsMade, left[1..]);
    }

    // -------------------------------------------------------------- refunds

    /** The last part of `createRefund`: for a SUCCEEDED refund, the transition and the debit. */
    method SettleRefund(cfg: Config, p: nat, ghost request: R.Request, r: nat, isFull: bool, script: seq<Outcome>)
      returns (result: Option<R.Result>)
      requires Valid() && p < |payments| && r < |refunds|
      modifies this`payments, this`orders, this`ledger
      ensures Valid()
      ensures R.Ended(Now(), result)
              == R.RunCall(cfg, old(Now()), R.Run(p, request, R.Moving(r, isFull)), script)
    {
      ghost var k := R.Run(p, request, R.Moving(r, isFull));
      CallFromMoving(cfg, Now(), k, script);
      var left, ending := Transition(p, if isFull then Refunded else PartiallyRefunded, script);
      if ending != Returned {
        return if ending == Died then None else Some(R.Error(if ending == Refused then 400 else 500));
      }
      if cfg.ledgerEnabled {
        CallFromSeeking(cfg, Now(), k.(at := R.Seeking(r, isFull)), left);
      }
      left, ending := RecordRefundDebit(cfg, p, refunds[r], !isFull, left);
      if ending != Returned {
        return if ending == Died then None else Some(R.Error(500));
      }
      return Some(R.Created(r));
    }

    /** The bounded loop that stores the refund under a fresh number, then settles it. */
    method SaveRefund(cfg: Config, p: nat, ghost request: R.Request, asked: real, total: nat,
                      gatewayRefundId: string, status: RefundStatus, script: seq<Outcome>)
      returns (result: Option<R.Result>)
      requires Valid() && p < |payments| && asked > 0.0
      modifies this`payments, this`orders, this`ledger, this`refunds
      ensures Valid()
      ensures R.Ended(Now(), result)
              == R.RunCall(cfg, old(Now()),
                           R.Run(p, request, R.Saving(asked, total, gatewayRefundId, status, 0)), script)
    {
      ghost var whole :=
        R.RunCall(cfg, Now(), R.Run(p, request, R.Saving(asked, total, gatewayRefundId, status, 0)), script);
      var left := script;
      var retryCount := 0;
      var refund: Option<nat> := None;
      while retryCount < R.MAX_RETRIES
        invariant 0 <= retryCount < R.MAX_RETRIES
        invariant Now() == old(Now())
        invariant whole
                  == R.RunCall(cfg, Now(),
                               R.Run(p, request, R.Saving(asked, total, gatewayRefundId, status, retryCount)), left)
        decreases R.MAX_RETRIES - retryCount
      {
        if left == [] {
          return None;
        }
        var o := left[0];
        left := left[1..];
        if o.Inserted? && R.Fresh(refunds, o.id, gatewayRefundId) {
          refund := Some(|refunds|);
          refunds := refunds + [Refund(o.id, gatewayRefundId, p, HalfUp(asked), status)];
          break;
        }
        if o.NumberTaken? {
          retryCount := retryCount + 1;
          if retryCount >= R.MAX_RETRIES {
            return Some(R.Error(500));
          }
          continue;
        }
        return Some(R.Error(500));
      }
      if status == RefundSucceeded {
        var newTotal := total as real + asked;
        var isFull := newTotal >= payments[p].amount as real;
        result := SettleRefund(cfg, p, request, refund.value, isFull, left);
        return;
      }
      return Some(R.Created(refund.value));
    }

    /** The gateway's half of `createRefund`: check the payment there, ask for the refund, then save it. */
    method PayRefund(cfg: Config, p: nat, request: R.Request, asked: real, total: nat, script: seq<Outcome>)
      returns (result: Option<R.Result>)
      requires Valid() && p < |payments| && asked > 0.0
      modifies this`payments, this`orders, this`ledger, this`refunds, this`gateway
      ensures Valid()
      ensures R.Ended(Now(), result)
              == R.RunCall(cfg, old(Now()), R.Run(p, request, R.Retrieving(asked, total)), script)
    {
      if script == [] {
        return None;
      }
      if !script[0].Issued? {
        return Some(R.Error(500));
      }
      if script[0].gatewayStatus != "succeeded" {
        return Some(R.Error(400));
      }
      ghost var paying := R.Run(p, request, R.Paying(asked, total));
      assert R.Advance(cfg, Now(), R.Run(p, request, R.Retrieving(asked, total)), script[0])
          == R.Turn(Now(), R.Go(paying));
      var left := script[1..];
      if left == [] {
        return None;
      }
      var o := left[0];
      left := left[1..];
      if !o.Issued? {
        return Some(R.Error(500));
      }
      var payload: Option<nat> := None;
      if asked != payments[p].amount as real {
        payload := Some(HalfUp(asked));
      }
      var ask := Ask(R.KeyOf(payments[p], request, asked), p, payload, request.number, request.reason);
      var after := R.Answer(gateway, ask, payments[p].amount, o.gatewayRefundId, R.MapStatus(o.gatewayStatus));
      if after.None? {
        return Some(R.Error(500));
      }
      gateway := after.value;
      result := SaveRefund(cfg, p, request, asked, total, o.gatewayRefundId, R.MapStatus(o.gatewayStatus), left);
    }

    /** `createRefund`: the result, or None when the process died. */
    method CreateRefund(cfg: Config, p: nat, request: R.Request, script: seq<Outcome>)
      returns (result: Option<R.Result>)
      requires Valid()
      modifies this`payments, this`orders, this`ledger, this`refunds, this`gateway
      ensures Valid()
      ensures R.Ended(Now(), result) == R.RunCall(cfg, old(Now()), R.Start(p, request), script)
    {
      if script == [] {
        return None;
      }
      if script[0].Fault? {
        return Some(R.Error(500));
      }
      if p >= |payments| {
        return Some(R.Error(404));
      }
      if !request.mayAccess {
        return Some(R.Error(403));
      }
      if payments[p].status != Success && payments[p].status != PartiallyRefunded {
        return Some(R.Error(400));
      }
      if payments[p].paymentIntentId.None? || payments[p].paymentIntentId.value == "" {
        return Some(R.Error(400));
      }
      if !R.ValidReason(request.reason) {
        return Some(R.Error(400));
      }
      ghost var totalling := R.Run(p, request, R.Totalling);
      assert R.Advance(cfg, Now(), R.Start(p, request), script[0]) == R.Turn(Now(), R.Go(totalling));
      var left := script[1..];
      if left == [] {
        return None;
      }
      if left[0].Fault? {
        return Some(R.Error(500));
      }
      var amount := payments[p].amount as real;
      var total := TotalRefunded(refunds, p);
      var remaining := amount - total as real;
      if remaining <= 0.0 {
        return Some(R.Error(409));
      }
      var refundAmount := remaining;
      if request.asked.Some? {
        refundAmount := request.asked.value;
        if refundAmount <= 0.0 || refundAmount > remaining {
          return Some(R.Error(400));
        }
      }
      result := PayRefund(cfg, p, request, refundAmount, total, left[1..]);
    }

    // -------------------------------------------------------------- invoices

    /** The bounded loop that stores the invoice under fresh numbers. */
    method CreateInvoiceRecord(order: nat, script: seq<Outcome>) returns (result: Option<I.Result>)
      requires Valid() && order < |orders|
      modifies this`invoices, this`published
      ensures Valid()
      ensures I.Ended(Now(), result) == I.RunJob(old(Now()), I.Run(order, I.Creating(0)), script)
    {
      ghost var whole := I.RunJob(Now(), I.Run(order, I.Creating(0)), script);
      var left := script;
      var retryCount := 0;
      while retryCount < I.MAX_RETRIES
        invariant 0 <= retryCount < I.MAX_RETRIES
        invariant Now() == old(Now())
        invariant whole == I.RunJob(Now(), I.Run(order, I.Creating(retryCount)), left)
        decreases I.MAX_RETRIES - retryCount
      {
        if left == [] {
          return None;
        }
        var o := left[0];
        left := left[1..];
        if o.NumberTaken? {
          retryCount := retryCount + 1;
          if retryCount >= I.MAX_RETRIES {
            return Some(I.Error(500));
          }
          continue;
        }
        if !o.Fine? || order in invoices {
          return Some(I.Error(500));
        }
        invoices := invoices + {order};
        result := PublishInvoice(order, true, left);
        return;
      }
      assert false;
    }

    /** `_generateAndUpdatePdf`: the file, then its address in the row. */
    method PublishInvoice(order: nat, created: bool, script: seq<Outcome>) returns (result: Option<I.Result>)
      requires Valid() && order < |orders|
      modifies this`published
      ensures Valid()
      ensures I.Ended(Now(), result) == I.RunJob(old(Now()), I.Run(order, I.Rendering(created)), script)
    {
      if script == [] {
        return None;
      }
      if script[0].Fault? {
        return Some(I.Error(500));
      }
      var left := script[1..];
      if left == [] {
        return None;
      }
      if left[0].Fault? {
        return Some(I.Error(500));
      }
      published := published + {order};
      return Some(I.Done(created));
    }

    /** `createInvoice`. */
    method CreateInvoice(order: nat, script: seq<Outcome>) returns (result: Option<I.Result>)
      requires Valid()
      modifies this`invoices, this`published
      ensures Valid()
      ensures I.Ended(Now(), result) == I.RunJob(old(Now()), I.Start(order, false), script)
    {
      var left := script;
      if left == [] {
        return None;
      }
      if left[0].Fault? {
        return Some(I.Error(500));
      }
      if order >= |orders| {
        return Some(I.Error(404));
      }
      if payments[order].status != Success {
        return Some(I.Error(400));
      }
      assert I.Advance(Now(), I.Start(order, false), left[0]) == I.Turn(Now(), I.Go(I.Run(order, I.Rechecking)));
      left := left[1..];
      if left == [] {
        return None;
      }
      if left[0].Fault? {
        return Some(I.Error(500));
      }
      if order in invoices {
        if order in published {
          return Some(I.Done(false));
        }
        result := PublishInvoice(order, false, left[1..]);
        return;
      }
      result := CreateInvoiceRecord(order, left[1..]);
    }

    /** `processInvoiceJob`: a look of its own, then the same. */
    method ProcessInvoiceJob(order: nat, script: seq<Outcome>) returns (result: Option<I.Result>)
      requires Valid()
      modifies this`invoices, this`published
      ensures Valid()
      ensures I.Ended(Now(), result) == I.RunJob(old(Now()), I.Start(order, true), script)
    {
      if script == [] {
        return None;
      }
      if script[0].Fault? {
        return Some(I.Error(500));
      }
      if order in invoices {
        return Some(I.Done(false));
      }
      result := CreateInvoice(order, script[1..]);
    }
  }
}
