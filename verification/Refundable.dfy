/** The payments `createRefund` can never refund. */
module Refundable {
  import opened Domain
  import opened Ledger
  import opened Store
  import opened System
  import opened RefundSafety
  import opened Shape
  import opened Conservation
  import R = Refunds

  // ---------------------------------------------------------------- payments without a payment intent

  predicate HasIntent(t: Tables, p: nat) {
    p < |t.payments| && t.payments[p].paymentIntentId.Some? && t.payments[p].paymentIntentId.value != ""
  }

  predicate InRefund(status: PaymentStatus) {
    status == PartiallyRefunded || status == Refunded
  }

  /** Only payments with a payment intent have refunds, refunded statuses, and calls past the first check. */
  ghost predicate IntentsOnly(s: State) {
    && (forall p :: 0 <= p < |s.tables.payments| && InRefund(s.tables.payments[p].status) ==> HasIntent(s.tables, p))
    && (forall i :: 0 <= i < |s.tables.refunds| ==> HasIntent(s.tables, s.tables.refunds[i].payment))
    && (forall p :: p in s.calls && !s.calls[p].at.Opening? ==> HasIntent(s.tables, s.calls[p].payment))
  }

  lemma IntentStays(t: Tables, t': Tables)
    requires Grows(t, t')
    ensures forall p: nat :: HasIntent(t, p) ==> HasIntent(t', p)
  {
  }

  lemma AdvanceIntents(cfg: Config, t: Tables, k: R.Run, o: Outcome)
    requires R.InRange(t, k) && (!k.at.Opening? ==> HasIntent(t, k.payment))
    ensures
      var turn := R.Advance(cfg, t, k, o);
      && (turn.next.Go? ==> HasIntent(t, k.payment))
      && (forall p :: 0 <= p < |t.payments| && turn.tables.payments[p].status != t.payments[p].status ==>
            p == k.payment && HasIntent(t, p))
      && (turn.tables.refunds == t.refunds
          || (HasIntent(t, k.payment) && |turn.tables.refunds| == |t.refunds| + 1
              && turn.tables.refunds[..|t.refunds|] == t.refunds
              && turn.tables.refunds[|t.refunds|].payment == k.payment))
  {
  }

  lemma OwnIntents(s: State, p: nat, o: Outcome)
    requires Shaped(s) && IntentsOnly(s) && p in s.calls
    ensures
      var s' := RefundStep(s, p, o);
      && |s'.tables.payments| == |s.tables.payments|
      && (forall q :: q in s'.calls && !s'.calls[q].at.Opening? ==> HasIntent(s.tables, s'.calls[q].payment))
  {
    AdvanceIntents(s.cfg, s.tables, s.calls[p], o);
  }

  /** One refund more of a payment with an intent, or one changed status. */
  lemma RowsIntents(t: Tables, t': Tables, p: nat)
    requires Grows(t, t') && |t'.payments| == |t.payments|
    requires forall q :: 0 <= q < |t.payments| && InRefund(t.payments[q].status) ==> HasIntent(t, q)
    requires forall i :: 0 <= i < |t.refunds| ==> HasIntent(t, t.refunds[i].payment)
    requires forall q :: 0 <= q < |t.payments| && t'.payments[q].status != t.payments[q].status ==> HasIntent(t, q)
    requires t'.refunds == t.refunds
             || (HasIntent(t, p) && |t'.refunds| == |t.refunds| + 1 && t'.refunds[|t.refunds|].payment == p)
    ensures forall q :: 0 <= q < |t'.payments| && InRefund(t'.payments[q].status) ==> HasIntent(t', q)
    ensures forall i :: 0 <= i < |t'.refunds| ==> HasIntent(t', t'.refunds[i].payment)
  {
    IntentStays(t, t');
    forall i | 0 <= i < |t'.refunds| ensures HasIntent(t', t'.refunds[i].payment) {
      if i < |t.refunds| { assert t'.refunds[i] == t.refunds[i]; }
    }
    forall q | 0 <= q < |t'.payments| && InRefund(t'.payments[q].status) ensures HasIntent(t', q) {
      if t'.payments[q].status == t.payments[q].status { assert HasIntent(t, q); }
    }
  }

  lemma RefundStepIntents(s: State, p: nat, o: Outcome)
    requires Shaped(s) && IntentsOnly(s) && p in s.calls
    ensures IntentsOnly(RefundStep(s, p, o))
  {
    RefundGrows(s.cfg, s.tables, s.calls[p], o);
    AdvanceIntents(s.cfg, s.tables, s.calls[p], o);
    OwnIntents(s, p, o);
    RowsIntents(s.tables, RefundStep(s, p, o).tables, p);
    IntentStays(s.tables, RefundStep(s, p, o).tables);
  }

  /** No refund is added, no payment enters a refunded status, no call moves. */
  ghost predicate OthersKept(s: State, s': State) {
    && s'.tables.refunds == s.tables.refunds
    && (forall p :: 0 <= p < |s'.tables.payments| && InRefund(s'.tables.payments[p].status) ==>
          p < |s.tables.payments| && s'.tables.payments[p] == s.tables.payments[p])
    && forall p :: p in s'.calls ==> s'.calls[p].at.Opening? || (p in s.calls && s'.calls[p] == s.calls[p])
  }

  lemma WorkerCalls(s: State, w: nat, o: Outcome)
    requires Shaped(s) && w in s.workers
    ensures OthersKept(s, WorkerStep(s, w, o))
  {
    WorkerWrites(s.cfg, s.tables, s.workers[w], o);
  }

  lemma SidelineCalls(s: State, s': State)
    requires Shaped(s) && Sideline(s, s')
    ensures OthersKept(s, s')
  {
  }

  lemma CreationCalls(s: State, payment: Payment, number: string)
    requires Shaped(s) && payment.status == Pending
    ensures OthersKept(s, PaymentCreated(s, payment, number))
  {
  }

  lemma OtherCalls(s: State, a: Action)
    requires Shaped(s) && !a.StepRefund?
    ensures OthersKept(s, Apply(s, a))
  {
    match a
    case CreatePayment(payment, number) =>
      if MayCreate(s.tables, payment, number) { CreationCalls(s, payment, number); }
    case StepWorker(w, o) => if w in s.workers { WorkerCalls(s, w, o); }
    case StepInvoice(j, o) =>
      if j in s.jobs {
        InvoiceSideline(s, j, o);
        SidelineCalls(s, InvoiceStep(s, j, o));
      }
    case _ =>
      OtherSideline(s, a);
      SidelineCalls(s, Apply(s, a));
  }

  lemma OtherIntents(s: State, a: Action)
    requires Shaped(s) && IntentsOnly(s) && !a.StepRefund?
    ensures IntentsOnly(Apply(s, a))
  {
    var s' := Apply(s, a);
    ApplyGrows(s, a);
    IntentStays(s.tables, s'.tables);
    OtherCalls(s, a);
  }

  lemma RefundActionIntents(s: State, p: nat, o: Outcome)
    requires Shaped(s) && IntentsOnly(s)
    ensures IntentsOnly(Apply(s, StepRefund(p, o)))
  {
    RefundApplies(s, p, o);
    if p in s.calls { RefundStepIntents(s, p, o); }
  }

  lemma {:induction false} RunIntents(s: State, actions: seq<Action>)
    requires Shaped(s) && IntentsOnly(s)
    ensures IntentsOnly(Run(s, actions))
    decreases |actions|
  {
    if actions != [] {
      var a := actions[0];
      ApplyGrows(s, a);
      if a.StepRefund? { RefundActionIntents(s, a.payment, a.outcome); } else { OtherIntents(s, a); }
      RunIntents(Apply(s, a), actions[1..]);
    }
  }

  lemma ReachedIntents(cfg: Config, actions: seq<Action>)
    ensures IntentsOnly(Reached(cfg, actions))
  {
    RunIntents(Initial(cfg), actions);
  }

  /** A payment stored without a payment intent, as every Cashfree payment is, can never be refunded: over
      every run it has no refund row, nothing refunded, no debit, and is never in a refunded status. */
  lemma WithoutIntentNeverRefunded(cfg: Config, actions: seq<Action>, p: nat)
    requires p < |Reached(cfg, actions).tables.payments| && !HasIntent(Reached(cfg, actions).tables, p)
    ensures
      var t := Reached(cfg, actions).tables;
      && (forall i :: 0 <= i < |t.refunds| ==> t.refunds[i].payment != p)
      && TotalRefunded(t.refunds, p) == 0 && Sum(t.ledger, p, Debit) == 0
      && !InRefund(t.payments[p].status)
  {
    ReachedIntents(cfg, actions);
    RefundConservation(cfg, actions, p);
    NoRefunds(Reached(cfg, actions).tables.refunds, p);
  }
}
