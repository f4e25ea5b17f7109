/** The whole money path: any number of worker runs, refund calls and invoice jobs, each stopped
    between any two of its awaited operations while the others go on, each operation succeeding or
    failing, each process dying anywhere, events delivered again and replayed by hand.

    The one serialisation assumed is of refund calls on the same payment. A payment row is read and
    written by `transition` as one operation; the order row is a second one. */
module System {
  import opened Domain
  import opened StateMachine
  import opened Ledger
  import opened Store
  import W = Worker
  import R = Refunds
  import I = Invoicing

  /** What has happened, kept beside the tables.

      `confirmed`: the events whose credit step has run, each with the payment it ran for.
      `credited`: for each credit reference in the ledger, the payment it was first credited to.
      `unfound`: the events some run of which found no payment.
      `held`: the statuses a payment has had. `changes`: its number of real status changes.
      `unsynced`: payments whose status was written and whose order write is still to come.
      `torn`: payments with two writes of one transition separated, by a failure between them or by
      another transition of the payment. `cut`: payments with a refund call that ended between the
      insert of its row and its last operation. `fractional`: payments with a refund of an amount
      that is not in whole paise. */
  datatype History = History(
    confirmed: set<(nat, nat)>, credited: map<Ref, nat>, unfound: set<nat>,
    held: seq<set<PaymentStatus>>, changes: seq<nat>,
    unsynced: set<nat>, torn: set<nat>, cut: set<nat>, fractional: set<nat>)

  datatype State = State(
    cfg: Config, tables: Tables,
    workers: map<nat, W.Run>, calls: map<nat, R.Run>, jobs: map<nat, I.Run>,
    history: History)

  datatype Action =
    | CreatePayment(created: Payment, orderNumber: string)
    | ReceiveEvent(event: Event)
    | StartWorker(worker: nat, row: nat, attemptsMade: nat)
    | StepWorker(worker: nat, outcome: Outcome)
    | CrashWorker(worker: nat)
    | StartRefund(payment: nat, request: R.Request)
    | StepRefund(payment: nat, outcome: Outcome)
    | CrashRefund(payment: nat)
    | StartInvoice(job: nat, order: nat, queued: bool)
    | StepInvoice(job: nat, outcome: Outcome)
    | CrashInvoice(job: nat)

  function Initial(cfg: Config): State {
    State(cfg, Tables([], [], [], [], [], {}, {}, []), map[], map[], map[],
          History({}, map[], {}, [], [], {}, {}, {}, {}))
  }

  // ---------------------------------------------------------------- history

  /** A transition wrote `status` into payment `p`. */
  function Moved(h: History, p: nat, status: PaymentStatus): History
    requires p < |h.held| == |h.changes|
  {
    h.(held := h.held[p := h.held[p] + {status}],
       changes := h.changes[p := h.changes[p] + 1],
       torn := if p in h.unsynced then h.torn + {p} else h.torn,
       unsynced := if OrderWrite(status).Some? then h.unsynced + {p} else h.unsynced)
  }

  function Synced(h: History, p: nat, fault: bool): History {
    if fault then h.(torn := h.torn + {p}) else h.(unsynced := h.unsynced - {p})
  }

  /** The credit step of event `row` has run for payment `p`. */
  function Credited(h: History, row: nat, ref: Ref, p: nat): History {
    h.(confirmed := h.confirmed + {(row, p)},
       credited := if ref in h.credited then h.credited else h.credited[ref := p])
  }

  function AfterWorker(h: History, t: Tables, k: W.Run, o: Outcome, t': Tables): History
    requires W.InRange(t, k) && |h.held| == |h.changes| == |t.payments| == |t'.payments|
  {
    match k.at
    case Looking =>
      if !o.Fault? && Lookup(t, t.events[k.row], if o.Fine? then o.hint else 0).None?
      then h.(unfound := h.unfound + {k.row}) else h
    case Moving(p, target) =>
      if t'.payments[p].status != t.payments[p].status then Moved(h, p, target) else h
    case Syncing(p, _) => Synced(h, p, o.Fault?)
    case Seeking(p) =>
      var ref := CreditRef(t.events[k.row].eventId, t.payments[p]);
      if !o.Fault? && Has(t.ledger, ref) then Credited(h, k.row, ref, p) else h
    case Crediting(p) =>
      if !o.Fault? then Credited(h, k.row, CreditRef(t.events[k.row].eventId, t.payments[p]), p) else h
    case _ => h
  }

  /** The refund row exists and the call still has operations to await. */
  predicate AfterInsert(k: R.Run) {
    k.at.Moving? || k.at.Syncing? || k.at.Seeking? || k.at.Debiting? || k.at.Rereading?
  }

  function Broken(h: History, k: R.Run): History {
    var h1 := if AfterInsert(k) then h.(cut := h.cut + {k.payment}) else h;
    if k.at.Syncing? then h1.(torn := h1.torn + {k.payment}) else h1
  }

  function AfterRefund(h: History, t: Tables, k: R.Run, turn: R.Turn): History
    requires R.InRange(t, k) && |h.held| == |h.changes| == |t.payments| == |turn.tables.payments|
  {
    if turn.next.Stop? && turn.next.result.Error? then Broken(h, k)
    else
      match k.at
      case Saving(asked, _, _, _, _) =>
        if |turn.tables.refunds| > |t.refunds| && asked.Floor as real != asked
        then h.(fractional := h.fractional + {k.payment}) else h
      case Moving(_, isFull) =>
        if turn.tables.payments[k.payment].status != t.payments[k.payment].status
        then Moved(h, k.payment, R.Goal(isFull)) else h
      case Syncing(_, _) => Synced(h, k.payment, false)
      case _ => h
  }

  // ---------------------------------------------------------------- steps

  predicate Aligned(s: State) {
    |s.history.held| == |s.history.changes| == |s.tables.payments| == |s.tables.orders|
  }

  function WorkerStep(s: State, w: nat, o: Outcome): State
    requires Aligned(s) && w in s.workers && W.InRange(s.tables, s.workers[w])
  {
    var turn := W.Advance(s.cfg, s.tables, s.workers[w], o);
    s.(tables := turn.tables,
       workers := if turn.next.Go? then s.workers[w := turn.next.run] else s.workers - {w},
       history := AfterWorker(s.history, s.tables, s.workers[w], o, turn.tables))
  }

  function RefundStep(s: State, p: nat, o: Outcome): State
    requires Aligned(s) && p in s.calls && R.InRange(s.tables, s.calls[p])
  {
    var turn := R.Advance(s.cfg, s.tables, s.calls[p], o);
    s.(tables := turn.tables,
       calls := if turn.next.Go? then s.calls[p := turn.next.run] else s.calls - {p},
       history := AfterRefund(s.history, s.tables, s.calls[p], turn))
  }

  function InvoiceStep(s: State, j: nat, o: Outcome): State
    requires j in s.jobs && I.InRange(s.tables, s.jobs[j])
  {
    var turn := I.Advance(s.tables, s.jobs[j], o);
    s.(tables := turn.tables,
       jobs := if turn.next.Go? then s.jobs[j := turn.next.run] else s.jobs - {j})
  }

  function WorkerCrash(s: State, w: nat): State
    requires w in s.workers
  {
    var k := s.workers[w];
    s.(workers := s.workers - {w},
       history := if k.at.Syncing? then Synced(s.history, k.at.payment, true) else s.history)
  }

  /** `createPayment`'s transaction: both rows or neither, both pending. */
  function PaymentCreated(s: State, payment: Payment, orderNumber: string): State {
    s.(tables := s.tables.(payments := s.tables.payments + [payment],
                           orders := s.tables.orders + [Order(orderNumber, OrderPending)]),
       history := s.history.(held := s.history.held + [{Pending}], changes := s.history.changes + [0]))
  }

  predicate MayCreate(t: Tables, payment: Payment, orderNumber: string) {
    && payment.status == Pending && payment.amount > 0
    && (forall i :: 0 <= i < |t.payments| && payment.paymentIntentId.Some? ==>
          t.payments[i].paymentIntentId != payment.paymentIntentId)
    && (forall i :: 0 <= i < |t.orders| ==> t.orders[i].number != orderNumber)
  }

  predicate MayReceive(t: Tables, e: Event) {
    && e.status == Received && e.attempts == 0 && e.nextRetry == None
    && (forall i :: 0 <= i < |t.events| ==>
          !(t.events[i].gateway == e.gateway && t.events[i].eventId == e.eventId))
  }

  /** An action that cannot happen in a state leaves it alone, so that every sequence of actions is a
      run of the system. */
  function Apply(s: State, a: Action): State {
    match a
    case CreatePayment(payment, orderNumber) =>
      if MayCreate(s.tables, payment, orderNumber) then PaymentCreated(s, payment, orderNumber) else s
    case ReceiveEvent(e) =>
      if MayReceive(s.tables, e) then s.(tables := s.tables.(events := s.tables.events + [e])) else s
    case StartWorker(w, row, attemptsMade) =>
      if w in s.workers then s else s.(workers := s.workers[w := W.Start(row, attemptsMade)])
    case StepWorker(w, o) =>
      if Aligned(s) && w in s.workers && W.InRange(s.tables, s.workers[w]) then WorkerStep(s, w, o) else s
    case CrashWorker(w) => if w in s.workers then WorkerCrash(s, w) else s
    case StartRefund(p, request) =>
      if p in s.calls then s else s.(calls := s.calls[p := R.Start(p, request)])
    case StepRefund(p, o) =>
      if Aligned(s) && p in s.calls && R.InRange(s.tables, s.calls[p]) then RefundStep(s, p, o) else s
    case CrashRefund(p) =>
      if p in s.calls then s.(calls := s.calls - {p}, history := Broken(s.history, s.calls[p])) else s
    case StartInvoice(j, order, queued) =>
      if j in s.jobs then s
      else s.(jobs := s.jobs[j := I.Run(order, if queued then I.Checking else I.Reading)])
    case StepInvoice(j, o) =>
      if j in s.jobs && I.InRange(s.tables, s.jobs[j]) then InvoiceStep(s, j, o) else s
    case CrashInvoice(j) => s.(jobs := s.jobs - {j})
  }

  function Run(s: State, actions: seq<Action>): State
    decreases |actions|
  {
    if actions == [] then s else Run(Apply(s, actions[0]), actions[1..])
  }

  lemma {:induction false} RunSplit(s: State, first: seq<Action>, second: seq<Action>)
    ensures Run(s, first + second) == Run(Run(s, first), second)
    decreases |first|
  {
    if first == [] {
      assert first + second == second;
    } else {
      assert (first + second)[0] == first[0] && (first + second)[1..] == first[1..] + second;
      RunSplit(Apply(s, first[0]), first[1..], second);
    }
  }
}
