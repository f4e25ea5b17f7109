/** No credit without an event: every credit entry is backed by a stored success event that names the
    payment, and after a refund no further credit appears. */
module CreditBacking {
  import opened Domain
  import opened Ledger
  import opened Store
  import opened System
  import opened Shape
  import opened LifecycleSafety
  import W = Worker
  import R = Refunds

  /** Event `row` asks for a confirmation of payment `p` under the reference `ref`. */
  ghost predicate Supports(t: Tables, row: nat, p: nat, ref: Ref) {
    && row < |t.events| && p < |t.payments|
    && W.Classify(t.events[row]) == W.Confirm && Matches(t, t.events[row], p)
    && ref == CreditRef(t.events[row].eventId, t.payments[p])
  }

  ghost predicate BackedCredits(t: Tables) {
    forall i :: 0 <= i < |t.ledger| && t.ledger[i].direction == Credit ==>
      exists row :: Supports(t, row, t.ledger[i].payment, t.ledger[i].ref)
  }

  /** A worker holds the payment its event names, and the target its event asks for. */
  ghost predicate HoldsNamed(t: Tables, k: W.Run)
    requires W.InRange(t, k)
  {
    && ((k.at.Moving? || k.at.Syncing?) ==>
          && Matches(t, t.events[k.row], k.at.payment) && W.Classify(t.events[k.row]) != W.Ignore
          && k.at.target == W.Target(W.Classify(t.events[k.row])))
    && ((k.at.Seeking? || k.at.Crediting? || k.at.Rereading?) ==>
          Matches(t, t.events[k.row], k.at.payment) && W.Classify(t.events[k.row]) == W.Confirm)
  }

  ghost predicate Backing(s: State)
    requires Shaped(s)
  {
    BackedCredits(s.tables) && forall w :: w in s.workers ==> HoldsNamed(s.tables, s.workers[w])
  }

  lemma HoldsGrows(t: Tables, t': Tables, k: W.Run)
    requires W.InRange(t, k) && W.InRange(t', k) && Grows(t, t') && HoldsNamed(t, k)
    ensures HoldsNamed(t', k)
  {
  }

  lemma CreditsGrow(t: Tables, t': Tables)
    requires Grows(t, t') && BackedCredits(t)
    requires forall i :: |t.ledger| <= i < |t'.ledger| && t'.ledger[i].direction == Credit ==>
               exists row :: Supports(t', row, t'.ledger[i].payment, t'.ledger[i].ref)
    ensures BackedCredits(t')
  {
    forall i | 0 <= i < |t'.ledger| && t'.ledger[i].direction == Credit
      ensures exists row :: Supports(t', row, t'.ledger[i].payment, t'.ledger[i].ref)
    {
      if i < |t.ledger| {
        assert t'.ledger[i] == t.ledger[i];
        var row :| Supports(t, row, t.ledger[i].payment, t.ledger[i].ref);
        assert Supports(t', row, t'.ledger[i].payment, t'.ledger[i].ref);
      }
    }
  }

  /** A worker gets its payment from the look-up. */
  lemma LookingHolds(cfg: Config, t: Tables, k: W.Run, o: Outcome)
    requires W.InRange(t, k) && k.at.Looking?
    ensures var turn := W.Advance(cfg, t, k, o); turn.next.Go? ==> HoldsNamed(t, turn.next.run) && turn.tables == t
  {
  }

  /** After that it only keeps it. */
  lemma HoldingHolds(cfg: Config, t: Tables, k: W.Run, o: Outcome)
    requires W.InRange(t, k) && HoldsNamed(t, k) && !k.at.Looking?
    ensures var turn := W.Advance(cfg, t, k, o); turn.next.Go? ==> HoldsNamed(t, turn.next.run)
  {
  }

  lemma WorkerHolds(cfg: Config, t: Tables, k: W.Run, o: Outcome)
    requires W.InRange(t, k) && HoldsNamed(t, k)
    ensures var turn := W.Advance(cfg, t, k, o); turn.next.Go? ==> HoldsNamed(turn.tables, turn.next.run)
  {
    var turn := W.Advance(cfg, t, k, o);
    WorkerGrows(cfg, t, k, o);
    if k.at.Looking? { LookingHolds(cfg, t, k, o); } else { HoldingHolds(cfg, t, k, o); }
    if turn.next.Go? { HoldsGrows(t, turn.tables, turn.next.run); }
  }

  lemma WorkerBacks(cfg: Config, t: Tables, k: W.Run, o: Outcome)
    requires W.InRange(t, k) && HoldsNamed(t, k) && BackedCredits(t)
    ensures BackedCredits(W.Advance(cfg, t, k, o).tables)
  {
    var t' := W.Advance(cfg, t, k, o).tables;
    WorkerGrows(cfg, t, k, o);
    if t'.ledger != t.ledger {
      assert Supports(t', k.row, k.at.payment, t'.ledger[|t.ledger|].ref);
    }
    CreditsGrow(t, t');
  }

  lemma WorkerBacking(s: State, w: nat, o: Outcome)
    requires Shaped(s) && Backing(s) && w in s.workers && Shaped(WorkerStep(s, w, o))
    ensures Backing(WorkerStep(s, w, o))
  {
    var s' := WorkerStep(s, w, o);
    WorkerGrows(s.cfg, s.tables, s.workers[w], o);
    WorkerBacks(s.cfg, s.tables, s.workers[w], o);
    WorkerHolds(s.cfg, s.tables, s.workers[w], o);
    forall v | v in s'.workers ensures HoldsNamed(s'.tables, s'.workers[v]) {
      if v != w { HoldsGrows(s.tables, s'.tables, s.workers[v]); }
    }
  }

  /** Steps of anyone but a worker: no credit is added and no worker moves. */
  lemma OtherBacking(s: State, s': State)
    requires Shaped(s) && Backing(s) && Shaped(s') && Grows(s.tables, s'.tables)
    requires forall i :: |s.tables.ledger| <= i < |s'.tables.ledger| ==> s'.tables.ledger[i].direction == Debit
    requires forall w :: w in s'.workers ==>
               s'.workers[w].at.Loading? || (w in s.workers && s'.workers[w] == s.workers[w])
    ensures Backing(s')
  {
    CreditsGrow(s.tables, s'.tables);
    forall v | v in s'.workers ensures HoldsNamed(s'.tables, s'.workers[v]) {
      if !s'.workers[v].at.Loading? { HoldsGrows(s.tables, s'.tables, s.workers[v]); }
    }
  }

  lemma RefundBacking(s: State, p: nat, o: Outcome)
    requires Shaped(s) && Backing(s) && p in s.calls && Shaped(RefundStep(s, p, o))
    requires Grows(s.tables, RefundStep(s, p, o).tables)
    ensures Backing(RefundStep(s, p, o))
  {
    RefundLedger(s.cfg, s.tables, s.calls[p], o);
    OtherBacking(s, RefundStep(s, p, o));
  }

  lemma RefundLedger(cfg: Config, t: Tables, k: R.Run, o: Outcome)
    requires R.InRange(t, k)
    ensures
      var t' := R.Advance(cfg, t, k, o).tables;
      t'.ledger == t.ledger
      || (|t'.ledger| == |t.ledger| + 1 && t'.ledger == t.ledger + [t'.ledger[|t.ledger|]]
          && t'.ledger[|t.ledger|].direction == Debit)
  {
  }

  // ---------------------------------------------------------------- a credit can be lost

  /** A refund has been recorded for `p` and no worker is past its transition on `p`. */
  ghost predicate TooLate(s: State, p: nat)
    requires Shaped(s)
  {
    && p < |s.tables.payments|
    && (s.tables.payments[p].status == PartiallyRefunded || s.tables.payments[p].status == Refunded)
    && (forall w :: w in s.workers
                    && (s.workers[w].at.Syncing? || s.workers[w].at.Seeking? || s.workers[w].at.Crediting?) ==>
          s.workers[w].at.payment != p)
  }

  /** A worker that holds `p` after its transition held it before, or has just confirmed it. */
  lemma WorkerReaches(cfg: Config, t: Tables, k: W.Run, o: Outcome, p: nat)
    requires W.InRange(t, k) && p < |t.payments|
    requires t.payments[p].status == PartiallyRefunded || t.payments[p].status == Refunded
    ensures
      var next := W.Advance(cfg, t, k, o).next;
      next.Go? && (next.run.at.Syncing? || next.run.at.Seeking? || next.run.at.Crediting?)
      && next.run.at.payment == p ==>
        (k.at.Syncing? || k.at.Seeking? || k.at.Crediting?) && k.at.payment == p
  {
  }

  lemma WorkerTooLate(s: State, w: nat, o: Outcome, p: nat)
    requires Shaped(s) && TooLate(s, p) && w in s.workers && Shaped(WorkerStep(s, w, o))
    ensures TooLate(WorkerStep(s, w, o), p)
    ensures Sum(WorkerStep(s, w, o).tables.ledger, p, Credit) == Sum(s.tables.ledger, p, Credit)
  {
    var k, t := s.workers[w], s.tables;
    WorkerWrites(s.cfg, t, k, o);
    WorkerReaches(s.cfg, t, k, o, p);
    if k.at.Crediting? {
      SumAppend(t.ledger, CreditEntry(t.events[k.row].eventId, t.payments, k.at.payment), p, Credit);
    }
  }

  lemma RefundTooLate(s: State, q: nat, o: Outcome, p: nat)
    requires Shaped(s) && Lifecycle(s) && TooLate(s, p) && q in s.calls && Shaped(RefundStep(s, q, o))
    ensures TooLate(RefundStep(s, q, o), p)
    ensures Sum(RefundStep(s, q, o).tables.ledger, p, Credit) == Sum(s.tables.ledger, p, Credit)
  {
    var k, t := s.calls[q], s.tables;
    assert CallSettled(t, k);
    RefundMoves(s.cfg, t, k, o);
    RefundLedger(s.cfg, t, k, o);
    var ledger := R.Advance(s.cfg, t, k, o).tables.ledger;
    if ledger != t.ledger {
      SumAppend(t.ledger, ledger[|t.ledger|], p, Credit);
    }
  }

  lemma SidelineTooLate(s: State, s': State, p: nat)
    requires Shaped(s) && TooLate(s, p) && Shaped(s') && Sideline(s, s')
    ensures TooLate(s', p) && s'.tables.ledger == s.tables.ledger
  {
  }

  lemma CreationTooLate(s: State, payment: Payment, number: string, p: nat)
    requires Shaped(s) && TooLate(s, p)
    ensures Shaped(PaymentCreated(s, payment, number)) && TooLate(PaymentCreated(s, payment, number), p)
  {
    CreationShaped(s, payment, number);
  }

  lemma OtherTooLate(s: State, a: Action, p: nat)
    requires Shaped(s) && TooLate(s, p)
    requires !a.CreatePayment? && !a.StepWorker? && !a.StepRefund? && !a.StepInvoice?
    ensures Shaped(Apply(s, a)) && TooLate(Apply(s, a), p) && Apply(s, a).tables.ledger == s.tables.ledger
  {
    OtherSideline(s, a);
    SidelineShaped(s, Apply(s, a));
    SidelineTooLate(s, Apply(s, a), p);
  }

  lemma CreationActionTooLate(s: State, payment: Payment, number: string, p: nat)
    requires Shaped(s) && TooLate(s, p)
    ensures
      var u := Apply(s, CreatePayment(payment, number));
      Shaped(u) && TooLate(u, p) && u.tables.ledger == s.tables.ledger
  {
    if MayCreate(s.tables, payment, number) { CreationTooLate(s, payment, number, p); }
  }

  lemma WorkerActionTooLate(s: State, w: nat, o: Outcome, p: nat)
    requires Shaped(s) && TooLate(s, p)
    ensures
      var u := Apply(s, StepWorker(w, o));
      Shaped(u) && TooLate(u, p) && Sum(u.tables.ledger, p, Credit) == Sum(s.tables.ledger, p, Credit)
  {
    WorkerApplies(s, w, o);
    if w in s.workers {
      WorkerShaped(s, w, o);
      WorkerTooLate(s, w, o, p);
    }
  }

  lemma RefundActionTooLate(s: State, q: nat, o: Outcome, p: nat)
    requires Shaped(s) && Lifecycle(s) && TooLate(s, p)
    ensures
      var u := Apply(s, StepRefund(q, o));
      Shaped(u) && TooLate(u, p) && Sum(u.tables.ledger, p, Credit) == Sum(s.tables.ledger, p, Credit)
  {
    RefundApplies(s, q, o);
    if q in s.calls {
      RefundShaped(s, q, o);
      RefundTooLate(s, q, o, p);
    }
  }

  lemma InvoiceActionTooLate(s: State, j: nat, o: Outcome, p: nat)
    requires Shaped(s) && TooLate(s, p)
    ensures
      var u := Apply(s, StepInvoice(j, o));
      Shaped(u) && TooLate(u, p) && u.tables.ledger == s.tables.ledger
  {
    InvoiceApplies(s, j, o);
    if j in s.jobs {
      InvoiceSideline(s, j, o);
      SidelineShaped(s, InvoiceStep(s, j, o));
      SidelineTooLate(s, InvoiceStep(s, j, o), p);
    }
  }

  lemma ApplyTooLate(s: State, a: Action, p: nat)
    requires Shaped(s) && Lifecycle(s) && TooLate(s, p)
    ensures Shaped(Apply(s, a)) && TooLate(Apply(s, a), p)
    ensures Sum(Apply(s, a).tables.ledger, p, Credit) == Sum(s.tables.ledger, p, Credit)
  {
    match a
    case CreatePayment(payment, number) => CreationActionTooLate(s, payment, number, p);
    case StepWorker(w, o) => WorkerActionTooLate(s, w, o, p);
    case StepRefund(q, o) => RefundActionTooLate(s, q, o, p);
    case StepInvoice(j, o) => InvoiceActionTooLate(s, j, o, p);
    case _ => OtherTooLate(s, a, p);
  }
}
