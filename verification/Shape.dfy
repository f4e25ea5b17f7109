/** Every row number in use names an existing row, in every reachable state: no step of the system
    is ever disabled by a dangling reference. */
module Shape {
  import opened Domain
  import opened StateMachine
  import opened Store
  import opened System
  import W = Worker
  import R = Refunds
  import I = Invoicing

  ghost predicate RowsInRange(t: Tables) {
    && (forall i :: 0 <= i < |t.ledger| ==> t.ledger[i].payment < |t.payments|)
    && (forall i :: 0 <= i < |t.refunds| ==> t.refunds[i].payment < |t.payments|)
    && (forall p :: p in t.invoices ==> p < |t.payments|)
  }

  ghost predicate Shaped(s: State) {
    && Aligned(s)
    && RowsInRange(s.tables)
    && (forall w :: w in s.workers ==> W.InRange(s.tables, s.workers[w]))
    && (forall p :: p in s.calls ==> s.calls[p].payment == p && R.InRange(s.tables, s.calls[p]))
    && (forall j :: j in s.jobs ==> I.InRange(s.tables, s.jobs[j]))
    && (forall ref :: ref in s.history.credited ==> s.history.credited[ref] < |s.tables.payments|)
  }

  /** What a worker writes, by its place. */
  lemma WorkerWrites(cfg: Config, t: Tables, k: W.Run, o: Outcome)
    requires W.InRange(t, k)
    ensures
      var t' := W.Advance(cfg, t, k, o).tables;
      && t'.refunds == t.refunds && t'.gateway == t.gateway
      && t'.invoices == t.invoices && t'.published == t.published
      && (t'.ledger == t.ledger
          || (&& k.at.Crediting?
              && t'.ledger == t.ledger + [CreditEntry(t.events[k.row].eventId, t.payments, k.at.payment)]))
      && (t'.payments == t.payments
          || (k.at.Moving? && t'.payments == WithStatus(t.payments, k.at.payment, k.at.target)
              && t.payments[k.at.payment].status != k.at.target
              && CanTransition(t.payments[k.at.payment].status, k.at.target)))
  {
  }

  /** Tables only grow. */
  ghost predicate Grows(t: Tables, t': Tables) {
    && |t.payments| <= |t'.payments| && |t.orders| <= |t'.orders| && |t.events| <= |t'.events|
    && t.refunds <= t'.refunds && t.ledger <= t'.ledger && t.invoices <= t'.invoices
    && t.published <= t'.published && t.gateway <= t'.gateway
    && (forall p :: 0 <= p < |t.payments| ==>
          t'.payments[p] == t.payments[p].(status := t'.payments[p].status))
    && (forall p :: 0 <= p < |t.orders| ==> t'.orders[p].number == t.orders[p].number)
    && (forall r :: 0 <= r < |t.events| ==>
          t'.events[r] == Rebooked(t.events[r], t'.events[r]))
  }

  lemma WorkerGrows(cfg: Config, t: Tables, k: W.Run, o: Outcome)
    requires W.InRange(t, k)
    ensures Grows(t, W.Advance(cfg, t, k, o).tables)
  {
  }

  lemma SavingGrows(cfg: Config, t: Tables, k: R.Run, o: Outcome)
    requires R.InRange(t, k) && !k.at.Moving? && !k.at.Syncing?
    ensures Grows(t, R.Advance(cfg, t, k, o).tables)
  {
  }

  lemma TransitGrows(cfg: Config, t: Tables, k: R.Run, o: Outcome)
    requires R.InRange(t, k) && (k.at.Moving? || k.at.Syncing?)
    ensures Grows(t, R.Advance(cfg, t, k, o).tables)
  {
  }

  lemma RefundGrows(cfg: Config, t: Tables, k: R.Run, o: Outcome)
    requires R.InRange(t, k)
    ensures Grows(t, R.Advance(cfg, t, k, o).tables)
  {
    if k.at.Moving? || k.at.Syncing? { TransitGrows(cfg, t, k, o); } else { SavingGrows(cfg, t, k, o); }
  }

  /** Runs that did not move stay in range. */
  lemma RunsInRange(s: State, t': Tables)
    requires Shaped(s) && Grows(s.tables, t') && |t'.orders| == |t'.payments|
    ensures forall w :: w in s.workers ==> W.InRange(t', s.workers[w])
    ensures forall p :: p in s.calls ==> R.InRange(t', s.calls[p])
    ensures forall j :: j in s.jobs ==> I.InRange(t', s.jobs[j])
  {
  }

  lemma WorkerRows(cfg: Config, t: Tables, k: W.Run, o: Outcome)
    requires W.InRange(t, k) && RowsInRange(t)
    ensures RowsInRange(W.Advance(cfg, t, k, o).tables)
  {
  }

  lemma WorkerAligned(s: State, w: nat, o: Outcome)
    requires Aligned(s) && w in s.workers && W.InRange(s.tables, s.workers[w])
    requires forall ref :: ref in s.history.credited ==> s.history.credited[ref] < |s.tables.payments|
    ensures
      var s' := WorkerStep(s, w, o);
      && Aligned(s')
      && (forall ref :: ref in s'.history.credited ==> s'.history.credited[ref] < |s'.tables.payments|)
  {
  }

  lemma WorkerShaped(s: State, w: nat, o: Outcome)
    requires Shaped(s) && w in s.workers
    ensures Shaped(WorkerStep(s, w, o)) && Grows(s.tables, WorkerStep(s, w, o).tables)
  {
    WorkerGrows(s.cfg, s.tables, s.workers[w], o);
    WorkerRows(s.cfg, s.tables, s.workers[w], o);
    WorkerAligned(s, w, o);
    RunsInRange(s, WorkerStep(s, w, o).tables);
  }

  lemma RefundRows(cfg: Config, t: Tables, k: R.Run, o: Outcome)
    requires R.InRange(t, k) && RowsInRange(t)
    ensures RowsInRange(R.Advance(cfg, t, k, o).tables)
  {
  }

  lemma RefundAligned(s: State, p: nat, o: Outcome)
    requires Aligned(s) && p in s.calls && R.InRange(s.tables, s.calls[p])
    ensures Aligned(RefundStep(s, p, o)) && RefundStep(s, p, o).history.credited == s.history.credited
  {
  }

  lemma RefundShaped(s: State, p: nat, o: Outcome)
    requires Shaped(s) && p in s.calls
    ensures Shaped(RefundStep(s, p, o)) && Grows(s.tables, RefundStep(s, p, o).tables)
  {
    RefundGrows(s.cfg, s.tables, s.calls[p], o);
    RefundRows(s.cfg, s.tables, s.calls[p], o);
    RefundAligned(s, p, o);
    RunsInRange(s, RefundStep(s, p, o).tables);
  }

  lemma CreationShaped(s: State, payment: Payment, orderNumber: string)
    requires Shaped(s)
    ensures Shaped(PaymentCreated(s, payment, orderNumber))
    ensures Grows(s.tables, PaymentCreated(s, payment, orderNumber).tables)
  {
  }

  /** Everything else: deliveries, starts, crashes and invoice jobs. Nothing but events and invoices is
      written; runs are new or as they were, or gone; and a run that is gone has left its mark. */
  ghost predicate Sideline(s: State, s': State) {
    && s'.cfg == s.cfg
    && s'.tables == s.tables.(events := s'.tables.events, invoices := s'.tables.invoices,
                              published := s'.tables.published)
    && s.tables.events <= s'.tables.events
    && s.tables.invoices <= s'.tables.invoices && s.tables.published <= s'.tables.published
    && s'.history == s.history.(torn := s'.history.torn, cut := s'.history.cut)
    && s.history.torn <= s'.history.torn && s.history.cut <= s'.history.cut
    && (forall w :: w in s'.workers ==> s'.workers[w].at.Loading? || (w in s.workers && s'.workers[w] == s.workers[w]))
    && (forall p :: p in s'.calls && p !in s.calls ==> s'.calls[p].at.Opening? && s'.calls[p].payment == p)
    && (forall p :: p in s'.calls && p in s.calls ==> s'.calls[p] == s.calls[p])
    && (forall p :: p in s.calls && p !in s'.calls && AfterInsert(s.calls[p]) ==> s.calls[p].payment in s'.history.cut)
  }

  ghost predicate JobsShaped(s: State) {
    && (forall j :: j in s.jobs ==> I.InRange(s.tables, s.jobs[j]))
    && (forall p :: p in s.tables.invoices ==> p < |s.tables.payments|)
  }

  lemma SidelineShaped(s: State, s': State)
    requires Shaped(s) && Sideline(s, s') && JobsShaped(s')
    ensures Shaped(s') && Grows(s.tables, s'.tables)
  {
  }

  lemma InvoiceSideline(s: State, j: nat, o: Outcome)
    requires Shaped(s) && j in s.jobs
    ensures Sideline(s, InvoiceStep(s, j, o)) && JobsShaped(InvoiceStep(s, j, o))
  {
  }

  /** Jobs of `s'` are new or as they were. */
  ghost predicate JobsKept(s: State, s': State) {
    && s'.tables.invoices == s.tables.invoices && s'.tables.published == s.tables.published
    && forall j :: j in s'.jobs ==>
         s'.jobs[j].at.Checking? || s'.jobs[j].at.Reading? || (j in s.jobs && s'.jobs[j] == s.jobs[j])
  }

  lemma ReceiveSideline(s: State, a: Action)
    requires Shaped(s) && a.ReceiveEvent?
    ensures Sideline(s, Apply(s, a)) && JobsShaped(Apply(s, a)) && JobsKept(s, Apply(s, a))
  {
  }

  lemma StartWorkerSideline(s: State, a: Action)
    requires Shaped(s) && a.StartWorker?
    ensures Sideline(s, Apply(s, a)) && JobsShaped(Apply(s, a)) && JobsKept(s, Apply(s, a))
  {
  }

  lemma StartRefundSideline(s: State, a: Action)
    requires Shaped(s) && a.StartRefund?
    ensures Sideline(s, Apply(s, a)) && JobsShaped(Apply(s, a)) && JobsKept(s, Apply(s, a))
  {
  }

  lemma StartInvoiceSideline(s: State, a: Action)
    requires Shaped(s) && a.StartInvoice?
    ensures Sideline(s, Apply(s, a)) && JobsShaped(Apply(s, a)) && JobsKept(s, Apply(s, a))
  {
  }

  lemma CrashWorkerSideline(s: State, a: Action)
    requires Shaped(s) && a.CrashWorker?
    ensures Sideline(s, Apply(s, a)) && JobsShaped(Apply(s, a)) && JobsKept(s, Apply(s, a))
  {
  }

  lemma CrashRefundSideline(s: State, a: Action)
    requires Shaped(s) && a.CrashRefund?
    ensures Sideline(s, Apply(s, a)) && JobsShaped(Apply(s, a)) && JobsKept(s, Apply(s, a))
  {
  }

  lemma CrashInvoiceSideline(s: State, a: Action)
    requires Shaped(s) && a.CrashInvoice?
    ensures Sideline(s, Apply(s, a)) && JobsShaped(Apply(s, a)) && JobsKept(s, Apply(s, a))
  {
  }

  lemma OtherSideline(s: State, a: Action)
    requires Shaped(s) && !a.CreatePayment? && !a.StepWorker? && !a.StepRefund? && !a.StepInvoice?
    ensures Sideline(s, Apply(s, a)) && JobsShaped(Apply(s, a)) && JobsKept(s, Apply(s, a))
  {
    match a
    case ReceiveEvent(_) => ReceiveSideline(s, a);
    case StartWorker(_, _, _) => StartWorkerSideline(s, a);
    case StartRefund(_, _) => StartRefundSideline(s, a);
    case StartInvoice(_, _, _) => StartInvoiceSideline(s, a);
    case CrashWorker(_) => CrashWorkerSideline(s, a);
    case CrashRefund(_) => CrashRefundSideline(s, a);
    case CrashInvoice(_) => CrashInvoiceSideline(s, a);
  }

  // ---------------------------------------------------------------- steps as actions

  lemma WorkerApplies(s: State, w: nat, o: Outcome)
    requires Shaped(s)
    ensures Apply(s, StepWorker(w, o)) == if w in s.workers then WorkerStep(s, w, o) else s
  {
  }

  lemma RefundApplies(s: State, p: nat, o: Outcome)
    requires Shaped(s)
    ensures Apply(s, StepRefund(p, o)) == if p in s.calls then RefundStep(s, p, o) else s
  {
  }

  lemma InvoiceApplies(s: State, j: nat, o: Outcome)
    requires Shaped(s)
    ensures Apply(s, StepInvoice(j, o)) == if j in s.jobs then InvoiceStep(s, j, o) else s
  {
  }
}
