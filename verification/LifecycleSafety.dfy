/** The lifecycle under full interleaving: who may have money, and how often a status changes. */
module LifecycleSafety {
  import opened Domain
  import opened StateMachine
  import opened Store
  import opened System
  import opened Shape
  import W = Worker
  import R = Refunds
  import I = Invoicing

  /** Only settled payments have a ledger entry, a refund row or an invoice. */
  ghost predicate MoneySettled(t: Tables) {
    && RowsInRange(t) && |t.orders| == |t.payments|
    && (forall i :: 0 <= i < |t.ledger| ==> Settled(t.payments[t.ledger[i].payment].status))
    && (forall i :: 0 <= i < |t.refunds| ==> Settled(t.payments[t.refunds[i].payment].status))
    && (forall p :: p in t.invoices ==> Settled(t.payments[p].status))
    && t.published <= t.invoices
  }

  /** A worker past a confirmation holds a settled payment. */
  ghost predicate WorkerSettled(t: Tables, k: W.Run)
    requires W.InRange(t, k)
  {
    && ((k.at.Seeking? || k.at.Crediting? || k.at.Rereading?) ==> Settled(t.payments[k.at.payment].status))
    && (k.at.Syncing? && k.at.target == Success ==> Settled(t.payments[k.at.payment].status))
  }

  /** Between the status guard and the transition of a refund call the status stays refundable, and
      after it the status is the one the call wrote. */
  ghost predicate CallSettled(t: Tables, k: R.Run)
    requires R.InRange(t, k)
  {
    match k.at
    case Opening => true
    case Syncing(_, isFull) => t.payments[k.payment].status == R.Goal(isFull)
    case Seeking(_, isFull) => t.payments[k.payment].status == R.Goal(isFull)
    case Debiting(_, isFull) => t.payments[k.payment].status == R.Goal(isFull)
    case Rereading(_) => Settled(t.payments[k.payment].status)
    case _ => t.payments[k.payment].status == Success || t.payments[k.payment].status == PartiallyRefunded
  }

  ghost predicate JobSettled(t: Tables, k: I.Run)
    requires I.InRange(t, k)
  {
    && (!k.at.Checking? && !k.at.Reading? ==> Settled(t.payments[k.order].status))
    && (k.at.Rendering? || k.at.Publishing? ==> k.order in t.invoices)
  }

  ghost predicate Lifecycle(s: State)
    requires Shaped(s)
  {
    && MoneySettled(s.tables)
    && (forall w :: w in s.workers ==> WorkerSettled(s.tables, s.workers[w]))
    && (forall p :: p in s.calls ==> CallSettled(s.tables, s.calls[p]))
    && (forall j :: j in s.jobs ==> JobSettled(s.tables, s.jobs[j]))
    && (forall p :: 0 <= p < |s.tables.payments| ==>
          s.history.changes[p] <= Rank(s.tables.payments[p].status))
  }

  /** What one step may do to statuses: settled payments stay settled. */
  ghost predicate Flows(t: Tables, t': Tables) {
    && |t'.payments| >= |t.payments|
    && forall p :: 0 <= p < |t.payments| && Settled(t.payments[p].status) ==> Settled(t'.payments[p].status)
  }

  /** Rows added for settled payments only. */
  ghost predicate AddsSettled(t: Tables, t': Tables) {
    && RowsInRange(t')
    && t.ledger <= t'.ledger && t.refunds <= t'.refunds
    && (forall i :: |t.ledger| <= i < |t'.ledger| ==> Settled(t'.payments[t'.ledger[i].payment].status))
    && (forall i :: |t.refunds| <= i < |t'.refunds| ==> Settled(t'.payments[t'.refunds[i].payment].status))
    && (forall p :: p in t'.invoices && p !in t.invoices ==> Settled(t'.payments[p].status))
    && t.invoices <= t'.invoices && t'.published == t.published
  }

  lemma MoneyFlows(t: Tables, t': Tables)
    requires MoneySettled(t) && Flows(t, t') && AddsSettled(t, t') && |t'.orders| == |t'.payments|
    ensures MoneySettled(t')
  {
  }

  lemma WorkerStaysSettled(cfg: Config, t: Tables, k: W.Run, o: Outcome)
    requires W.InRange(t, k) && WorkerSettled(t, k)
    ensures var turn := W.Advance(cfg, t, k, o); turn.next.Go? ==> WorkerSettled(turn.tables, turn.next.run)
  {
  }

  /** What a worker does: at most one fresh payment leaves PENDING, and a credit is added only for the
      payment it holds. */
  lemma WorkerMoves(cfg: Config, t: Tables, k: W.Run, o: Outcome)
    requires W.InRange(t, k) && WorkerSettled(t, k)
    ensures
      var turn := W.Advance(cfg, t, k, o);
      && Flows(t, turn.tables)
      && (forall p :: 0 <= p < |t.payments| && turn.tables.payments[p].status != t.payments[p].status ==>
            t.payments[p].status == Pending && k.at == W.Moving(p, turn.tables.payments[p].status))
      && (turn.next.Go? ==> WorkerSettled(turn.tables, turn.next.run))
  {
    WorkerWrites(cfg, t, k, o);
    WorkerStaysSettled(cfg, t, k, o);
  }

  lemma WorkerAdds(cfg: Config, t: Tables, k: W.Run, o: Outcome)
    requires W.InRange(t, k) && WorkerSettled(t, k) && RowsInRange(t)
    ensures AddsSettled(t, W.Advance(cfg, t, k, o).tables)
  {
  }

  /** Where statuses flow, the runs that did not move are settled as before. */
  lemma RunsFlow(s: State, t': Tables)
    requires Shaped(s) && Lifecycle(s) && Flows(s.tables, t') && s.tables.invoices <= t'.invoices
    ensures forall w :: w in s.workers && W.InRange(t', s.workers[w]) ==> WorkerSettled(t', s.workers[w])
    ensures forall j :: j in s.jobs && I.InRange(t', s.jobs[j]) ==> JobSettled(t', s.jobs[j])
  {
    forall w | w in s.workers && W.InRange(t', s.workers[w]) ensures WorkerSettled(t', s.workers[w]) {
      assert WorkerSettled(s.tables, s.workers[w]);
    }
    forall j | j in s.jobs && I.InRange(t', s.jobs[j]) ensures JobSettled(t', s.jobs[j]) {
      assert JobSettled(s.tables, s.jobs[j]);
    }
  }

  ghost predicate ChangesCounted(s: State)
    requires Aligned(s)
  {
    forall p :: 0 <= p < |s.tables.payments| ==> s.history.changes[p] <= Rank(s.tables.payments[p].status)
  }

  lemma WorkerChanges(s: State, w: nat, o: Outcome)
    requires Aligned(s) && w in s.workers && W.InRange(s.tables, s.workers[w]) && ChangesCounted(s)
    requires Aligned(WorkerStep(s, w, o)) && WorkerSettled(s.tables, s.workers[w])
    ensures ChangesCounted(WorkerStep(s, w, o))
  {
    WorkerMoves(s.cfg, s.tables, s.workers[w], o);
  }

  lemma WorkerLifecycle(s: State, w: nat, o: Outcome)
    requires Shaped(s) && Lifecycle(s) && w in s.workers && Shaped(WorkerStep(s, w, o))
    ensures Lifecycle(WorkerStep(s, w, o))
  {
    var k, t, s' := s.workers[w], s.tables, WorkerStep(s, w, o);
    assert WorkerSettled(t, k);
    WorkerMoves(s.cfg, t, k, o);
    WorkerAdds(s.cfg, t, k, o);
    WorkerChanges(s, w, o);
    MoneyFlows(t, s'.tables);
    RunsFlow(s, s'.tables);
    forall p | p in s'.calls ensures CallSettled(s'.tables, s'.calls[p]) {
      assert CallSettled(t, s.calls[p]);
    }
  }

  /** What a refund call does: only its own payment changes, between settled statuses, and at most
      once, in its transition. */
  lemma RefundMoves(cfg: Config, t: Tables, k: R.Run, o: Outcome)
    requires R.InRange(t, k) && CallSettled(t, k)
    ensures
      var turn := R.Advance(cfg, t, k, o);
      && Flows(t, turn.tables)
      && (forall p :: 0 <= p < |t.payments| && turn.tables.payments[p].status != t.payments[p].status ==>
            && p == k.payment && k.at.Moving? && turn.tables.payments[p].status == R.Goal(k.at.isFull)
            && CanTransition(t.payments[p].status, turn.tables.payments[p].status))
      && (turn.next.Go? ==> CallSettled(turn.tables, turn.next.run))
  {
  }

  lemma RefundAdds(cfg: Config, t: Tables, k: R.Run, o: Outcome)
    requires R.InRange(t, k) && CallSettled(t, k) && RowsInRange(t)
    ensures AddsSettled(t, R.Advance(cfg, t, k, o).tables)
  {
  }

  lemma RefundChanges(s: State, p: nat, o: Outcome)
    requires Aligned(s) && p in s.calls && R.InRange(s.tables, s.calls[p]) && ChangesCounted(s)
    requires Aligned(RefundStep(s, p, o)) && CallSettled(s.tables, s.calls[p])
    ensures ChangesCounted(RefundStep(s, p, o))
  {
    RefundMoves(s.cfg, s.tables, s.calls[p], o);
  }

  lemma RefundLifecycle(s: State, p: nat, o: Outcome)
    requires Shaped(s) && Lifecycle(s) && p in s.calls && Shaped(RefundStep(s, p, o))
    ensures Lifecycle(RefundStep(s, p, o))
  {
    var k, t, s' := s.calls[p], s.tables, RefundStep(s, p, o);
    assert CallSettled(t, k);
    RefundMoves(s.cfg, t, k, o);
    RefundAdds(s.cfg, t, k, o);
    RefundChanges(s, p, o);
    MoneyFlows(t, s'.tables);
    RunsFlow(s, s'.tables);
    forall q | q in s'.calls ensures CallSettled(s'.tables, s'.calls[q]) {
      if q != p { assert CallSettled(t, s.calls[q]); }
    }
  }

  lemma CreationLifecycle(s: State, payment: Payment, orderNumber: string)
    requires Shaped(s) && Lifecycle(s) && Shaped(PaymentCreated(s, payment, orderNumber))
    ensures Lifecycle(PaymentCreated(s, payment, orderNumber))
  {
  }

  ghost predicate JobsSettled(s: State)
    requires Shaped(s)
  {
    && (forall j :: j in s.jobs ==> JobSettled(s.tables, s.jobs[j]))
    && (forall p :: p in s.tables.invoices ==> Settled(s.tables.payments[p].status))
    && s.tables.published <= s.tables.invoices
  }

  lemma SidelineLifecycle(s: State, s': State)
    requires Shaped(s) && Lifecycle(s) && Shaped(s') && Sideline(s, s') && JobsSettled(s')
    ensures Lifecycle(s')
  {
  }

  lemma InvoiceSettled(s: State, j: nat, o: Outcome)
    requires Shaped(s) && Lifecycle(s) && j in s.jobs && Shaped(InvoiceStep(s, j, o))
    ensures JobsSettled(InvoiceStep(s, j, o))
  {
  }

  lemma OtherSettled(s: State, s': State)
    requires Shaped(s) && Lifecycle(s) && Shaped(s') && Sideline(s, s') && JobsKept(s, s')
    ensures JobsSettled(s')
  {
  }

  /** The transition a refund call asks for is never refused. */
  lemma RefundTransitionLegal(s: State, p: nat)
    requires Shaped(s) && Lifecycle(s) && p in s.calls && s.calls[p].at.Moving?
    ensures CanTransition(s.tables.payments[p].status, R.Goal(s.calls[p].at.isFull))
  {
  }
}
