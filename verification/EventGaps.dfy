/** Success events that leave no credit of their own: one that comes before its payment is stored, and one
    that shares its reference with another. */
module EventGaps {
  import opened Domain
  import opened StateMachine
  import opened Ledger
  import opened Store
  import opened System
  import opened Shape
  import opened CreditSafety
  import opened LifecycleSafety
  import opened CreditBacking
  import opened CreditEvents
  import opened Conservation
  import opened Simulation
  import opened ExactlyOnce
  import W = Worker

  /** Eight operations that succeed, enough for any run. */
  function Clean8(): seq<Outcome> {
    [Fine(0), Fine(0), Fine(0), Fine(0), Fine(0), Fine(0), Fine(0), Fine(0)]
  }

  lemma OneDelivery(cfg: Config, t: Tables, row: nat, d: Delivery)
    requires Paired(t)
    ensures RunAll(cfg, t, row, [d]) == W.RunJob(cfg, t, W.Start(row, d.attemptsMade), d.script).tables
  {
    var t1 := W.RunJob(cfg, t, W.Start(row, d.attemptsMade), d.script).tables;
    assert [d][1..] == [] && RunAll(cfg, t1, row, []) == t1;
  }

  lemma CleanIsLast(cfg: Config, t: Tables, row: nat)
    requires Paired(t) && row < |t.events| && t.events[row].status != Processed
    requires UniqueMatch(t, t.events[row]) && Permitted(t, row)
    ensures RunAll(cfg, t, row, [Delivery(0, Clean8())]).events[row].status == Processed
  {
    var delivery := Delivery(0, Clean8());
    assert [] + [delivery] == [delivery];
    CleanDeliveryRecovers(cfg, t, row, [], delivery);
  }

  /** One clean delivery of an event that asks for something permitted. */
  lemma CleanJob(cfg: Config, t: Tables, row: nat)
    requires Paired(t) && row < |t.events| && t.events[row].status != Processed
    requires UniqueMatch(t, t.events[row]) && Permitted(t, row)
    ensures
      var u, d := W.RunJob(cfg, t, W.Start(row, 0), Clean8()).tables, Intended(cfg, t, row);
      && u.events[row].status == Processed
      && (u.payments == t.payments || u.payments == d.payments)
      && (u.ledger == t.ledger || u.ledger == d.ledger)
      && u.events == t.events[row := Rebooked(t.events[row], u.events[row])]
  {
    OneDelivery(cfg, t, row, Delivery(0, Clean8()));
    CleanIsLast(cfg, t, row);
    AtMostOnceEffect(cfg, t, row, [Delivery(0, Clean8())]);
  }

  /** On orders that show their payments' statuses it has the intended effect. */
  lemma CleanJobExactly(cfg: Config, t: Tables, row: nat)
    requires Paired(t) && row < |t.events| && t.events[row].status != Processed
    requires UniqueMatch(t, t.events[row]) && Permitted(t, row)
    requires forall p :: 0 <= p < |t.payments| ==> t.orders[p].status == Image(t.payments[p].status)
    ensures
      var u, d := W.RunJob(cfg, t, W.Start(row, 0), Clean8()).tables, Intended(cfg, t, row);
      row < |d.events| && SameButOrders(u, d, row)
  {
    OneDelivery(cfg, t, row, Delivery(0, Clean8()));
    CleanIsLast(cfg, t, row);
    ExactlyOnceEffect(cfg, t, row, [Delivery(0, Clean8())]);
  }

  function Deliver(w: nat, row: nat): seq<Action> {
    [StartWorker(w, row, 0)] + WorkerActions(w, Clean8())
  }

  lemma DeliverReached(cfg: Config, prior: seq<Action>, w: nat, row: nat)
    requires w !in Reached(cfg, prior).workers
    ensures
      var s, u := Reached(cfg, prior), Reached(cfg, prior + Deliver(w, row));
      && |s.tables.orders| == |s.tables.payments|
      && u.tables == W.RunJob(cfg, s.tables, W.Start(row, 0), Clean8()).tables
      && u.workers == s.workers && u.calls == s.calls && u.jobs == s.jobs
  {
    ReachedInv(cfg, prior);
    RunSplit(Initial(cfg), prior, Deliver(w, row));
    JobIsARun(Reached(cfg, prior), w, row, 0, Clean8());
  }

  lemma OneMore(cfg: Config, prior: seq<Action>, a: Action)
    ensures Reached(cfg, prior + [a]) == Apply(Reached(cfg, prior), a)
  {
    RunSplit(Initial(cfg), prior, [a]);
    assert [a][1..] == [];
  }

  lemma {:induction false} KeepsOrders(cfg: Config, t: Tables, k: W.Run, script: seq<Outcome>)
    requires W.InRange(t, k)
    ensures
      var u := W.RunJob(cfg, t, k, script).tables;
      |u.orders| == |t.orders| && forall p :: 0 <= p < |t.orders| ==> u.orders[p].number == t.orders[p].number
    decreases |script|
  {
    if script != [] {
      var turn := W.Advance(cfg, t, k, script[0]);
      if turn.next.Go? { KeepsOrders(cfg, turn.tables, turn.next.run, script[1..]); }
    }
  }

  // ---------------------------------------------------------------- too early

  /** The credit step of event `n` has run for no payment. */
  ghost predicate NeverConfirmed(h: History, n: nat) {
    forall p: nat :: (n, p) !in h.confirmed
  }

  /** Event `n` is PROCESSED, has confirmed nothing, and nobody works on it. */
  ghost predicate Spent(s: State, n: nat) {
    && n < |s.tables.events| && s.tables.events[n].status == Processed && NeverConfirmed(s.history, n)
    && (forall w :: w in s.workers && s.workers[w].row == n ==> s.workers[w].at.Loading?)
  }

  lemma SpentWorker(s: State, w: nat, o: Outcome, n: nat)
    requires Shaped(s) && Spent(s, n) && w in s.workers
    ensures Spent(WorkerStep(s, w, o), n)
  {
    ConfirmEffect(s.cfg, s.tables, s.workers[w], o, s.history);
    RowOf(s.cfg, s.tables, s.workers[w], o, n);
  }

  /** A run of another event leaves this one alone; a run of a PROCESSED event ends at once. */
  lemma RowOf(cfg: Config, t: Tables, k: W.Run, o: Outcome, n: nat)
    requires W.InRange(t, k) && n < |t.events| && t.events[n].status == Processed
    requires k.row == n ==> k.at.Loading?
    ensures
      var turn := W.Advance(cfg, t, k, o);
      && turn.tables.events[n] == t.events[n] && (turn.next.Go? ==> k.row != n)
  {
  }

  lemma SpentOther(s: State, a: Action, n: nat)
    requires Shaped(s) && Spent(s, n) && !a.StepWorker? && !a.StepRefund?
    ensures Spent(Apply(s, a), n)
  {
    assert Apply(s, a).history.confirmed == s.history.confirmed;
  }

  lemma SpentRefund(s: State, p: nat, o: Outcome, n: nat)
    requires Shaped(s) && Spent(s, n) && p in s.calls
    ensures Spent(RefundStep(s, p, o), n)
  {
    var s' := RefundStep(s, p, o);
    RefundEventsAlone(s.cfg, s.tables, s.calls[p], o);
    assert s'.history.confirmed == s.history.confirmed && s'.workers == s.workers;
  }

  lemma SpentStep(s: State, a: Action, n: nat)
    requires Shaped(s) && Spent(s, n)
    ensures Spent(Apply(s, a), n)
  {
    match a
    case StepWorker(w, o) => if w in s.workers { SpentWorker(s, w, o, n); }
    case StepRefund(p, o) => if p in s.calls { SpentRefund(s, p, o, n); }
    case _ => SpentOther(s, a, n);
  }

  /** A payment that is not there yet, or PENDING still. */
  predicate Unmoved(t: Tables, p: nat) {
    p < |t.payments| ==> t.payments[p].status == Pending
  }

  /** No event but `n` names the payment. */
  predicate OnlyNamedBy(t: Tables, n: nat, p: nat) {
    forall row :: 0 <= row < |t.events| && row != n ==> !Matches(t, t.events[row], p)
  }

  lemma NamedBefore(t: Tables, t': Tables, n: nat, p: nat)
    requires Grows(t, t') && OnlyNamedBy(t', n, p) && |t'.orders| == |t'.payments|
    ensures OnlyNamedBy(t, n, p)
  {
    forall row | 0 <= row < |t.events| && row != n ensures !Matches(t, t.events[row], p) {
      assert t'.events[row] == Rebooked(t.events[row], t'.events[row]);
      if p < |t.payments| && p < |t.orders| {
        assert t'.payments[p] == t.payments[p].(status := t'.payments[p].status);
        assert t'.orders[p].number == t.orders[p].number;
      }
    }
  }

  /** Only a worker moves a PENDING payment, and it holds one its event names. */
  lemma UnmovedWorker(s: State, w: nat, o: Outcome, n: nat, p: nat)
    requires Shaped(s) && Backing(s) && Spent(s, n) && OnlyNamedBy(s.tables, n, p) && Unmoved(s.tables, p)
    requires w in s.workers
    ensures Unmoved(WorkerStep(s, w, o).tables, p)
  {
    WorkerWrites(s.cfg, s.tables, s.workers[w], o);
    assert HoldsNamed(s.tables, s.workers[w]);
  }

  lemma UnmovedRefund(s: State, q: nat, o: Outcome, p: nat)
    requires Shaped(s) && Lifecycle(s) && Unmoved(s.tables, p) && q in s.calls
    ensures Unmoved(RefundStep(s, q, o).tables, p)
  {
    assert CallSettled(s.tables, s.calls[q]);
    RefundMoves(s.cfg, s.tables, s.calls[q], o);
  }

  lemma UnmovedOther(s: State, a: Action, p: nat)
    requires Shaped(s) && Unmoved(s.tables, p) && !a.StepWorker? && !a.StepRefund?
    ensures Unmoved(Apply(s, a).tables, p)
  {
  }

  lemma ReachedNext(cfg: Config, prior: seq<Action>, a: Action)
    ensures
      var s := Reached(cfg, prior);
      && Reached(cfg, prior + [a]) == Apply(s, a)
      && Shaped(s) && Backing(s) && Lifecycle(s) && EventsCredited(s)
  {
    OneMore(cfg, prior, a);
    ReachedInv(cfg, prior);
  }

  /** Whatever follows, a spent event stays spent, and a payment that only it names stays PENDING. */
  lemma {:induction false} SpentForever(cfg: Config, prior: seq<Action>, more: seq<Action>, n: nat, p: nat)
    requires Spent(Reached(cfg, prior), n) && Unmoved(Reached(cfg, prior).tables, p)
    requires OnlyNamedBy(Run(Reached(cfg, prior), more).tables, n, p)
    ensures
      var u := Run(Reached(cfg, prior), more);
      Spent(u, n) && Unmoved(u.tables, p)
    decreases |more|
  {
    if more != [] {
      var s, a := Reached(cfg, prior), more[0];
      ReachedNext(cfg, prior, a);
      NamedAtLast(cfg, prior, more, n, p);
      SpentStep(s, a, n);
      match a {
        case StepWorker(w, o) => if w in s.workers { UnmovedWorker(s, w, o, n, p); }
        case StepRefund(q, o) => if q in s.calls { UnmovedRefund(s, q, o, p); }
        case _ => UnmovedOther(s, a, p);
      }
      SpentForever(cfg, prior + [a], more[1..], n, p);
    }
  }

  lemma NamedAtLast(cfg: Config, prior: seq<Action>, more: seq<Action>, n: nat, p: nat)
    requires OnlyNamedBy(Run(Reached(cfg, prior), more).tables, n, p)
    ensures OnlyNamedBy(Reached(cfg, prior).tables, n, p)
  {
    ReachedInv(cfg, prior);
    ReachedInv(cfg, prior + more);
    RunSplit(Initial(cfg), prior, more);
    RunGrows(Reached(cfg, prior), more);
    NamedBefore(Reached(cfg, prior).tables, Run(Reached(cfg, prior), more).tables, n, p);
  }

  /** The event arrives, and its job runs with every operation succeeding. */
  function EarlyRun(w: nat, n: nat, e: Event): seq<Action> {
    [ReceiveEvent(e)] + Deliver(w, n)
  }

  /** No stored payment is the event's. */
  predicate NoneNamed(t: Tables, e: Event) {
    forall p :: 0 <= p < |t.payments| ==> !Matches(t, e, p)
  }

  lemma NamedAlike(t: Tables, t': Tables, e: Event, e': Event)
    requires NoneNamed(t, e) && t'.payments == t.payments && e' == Rebooked(e, e') && |t'.orders| == |t.orders|
    requires forall p :: 0 <= p < |t.orders| ==> t'.orders[p].number == t.orders[p].number
    ensures NoneNamed(t', e')
  {
    forall p | 0 <= p < |t'.payments| ensures !Matches(t', e', p) {
      assert !Matches(t, e, p);
    }
  }

  lemma EarlyReceived(cfg: Config, prior: seq<Action>, e: Event)
    requires MayReceive(Reached(cfg, prior).tables, e) && NoneNamed(Reached(cfg, prior).tables, e)
    ensures
      var s, u := Reached(cfg, prior), Reached(cfg, prior + [ReceiveEvent(e)]);
      && u == s.(tables := s.tables.(events := s.tables.events + [e]))
      && NoneNamed(u.tables, e)
  {
    OneMore(cfg, prior, ReceiveEvent(e));
    NamedAlike(Reached(cfg, prior).tables, Reached(cfg, prior + [ReceiveEvent(e)]).tables, e, e);
  }

  /** The run finds nothing and marks the event PROCESSED. */
  lemma EarlyDelivered(cfg: Config, prior: seq<Action>, w: nat, e: Event)
    requires
      var s := Reached(cfg, prior);
      && w !in s.workers && |s.tables.events| > 0 && s.tables.events[|s.tables.events| - 1] == e
      && e.status != Processed && NoneNamed(s.tables, e)
    ensures
      var s := Reached(cfg, prior);
      var n := |s.tables.events| - 1;
      var u := Reached(cfg, prior + Deliver(w, n));
      && u.tables.payments == s.tables.payments && |u.tables.events| == n + 1
      && u.tables.events[n] == Rebooked(e, u.tables.events[n]) && u.tables.events[n].status == Processed
      && u.workers == s.workers && NoneNamed(u.tables, u.tables.events[n])
  {
    var t := Reached(cfg, prior).tables;
    var n := |t.events| - 1;
    DeliverReached(cfg, prior, w, n);
    assert About(t, e) == None;
    CleanJob(cfg, t, n);
    KeepsOrders(cfg, t, W.Start(n, 0), Clean8());
    var u := Reached(cfg, prior + Deliver(w, n)).tables;
    NamedAlike(t, u, e, u.events[n]);
  }

  /** Nothing has been confirmed by an event that names nothing. */
  lemma NothingConfirmed(cfg: Config, prior: seq<Action>, n: nat)
    requires n < |Reached(cfg, prior).tables.events|
    requires NoneNamed(Reached(cfg, prior).tables, Reached(cfg, prior).tables.events[n])
    ensures NeverConfirmed(Reached(cfg, prior).history, n)
  {
    ReachedInv(cfg, prior);
    NothingRan(Reached(cfg, prior), n);
  }

  lemma NothingRan(s: State, n: nat)
    requires EventsCredited(s) && n < |s.tables.events| && NoneNamed(s.tables, s.tables.events[n])
    ensures NeverConfirmed(s.history, n)
  {
    forall p: nat ensures (n, p) !in s.history.confirmed {
      assert (n, p) in s.history.confirmed ==> Ran(s.tables, s.history.credited, n, p);
    }
  }

  /** Runs of an event that is not stored yet have not read it. */
  lemma NobodyAhead(cfg: Config, prior: seq<Action>)
    ensures
      var s := Reached(cfg, prior);
      forall w :: w in s.workers && s.workers[w].row >= |s.tables.events| ==> s.workers[w].at.Loading?
  {
    ReachedInv(cfg, prior);
  }

  lemma EarlySpent(cfg: Config, prior: seq<Action>, w: nat, e: Event)
    requires
      var s := Reached(cfg, prior);
      w !in s.workers && MayReceive(s.tables, e) && NoneNamed(s.tables, e)
    ensures
      var s, n := Reached(cfg, prior), |Reached(cfg, prior).tables.events|;
      var u := Reached(cfg, prior + EarlyRun(w, n, e));
      Spent(u, n) && u.tables.payments == s.tables.payments && u.tables.events[n] == Rebooked(e, u.tables.events[n])
  {
    var s, n := Reached(cfg, prior), |Reached(cfg, prior).tables.events|;
    assert prior + EarlyRun(w, n, e) == (prior + [ReceiveEvent(e)]) + Deliver(w, n);
    EarlyReceived(cfg, prior, e);
    EarlyDelivered(cfg, prior + [ReceiveEvent(e)], w, e);
    NobodyAhead(cfg, prior);
    NothingConfirmed(cfg, prior + EarlyRun(w, n, e), n);
  }

  /** A PENDING payment has no entries. */
  lemma PendingIsEmpty(cfg: Config, actions: seq<Action>, p: nat)
    requires
      var t := Reached(cfg, actions).tables;
      p < |t.payments| && t.payments[p].status == Pending
    ensures
      var ledger := Reached(cfg, actions).tables.ledger;
      Sum(ledger, p, Credit) == 0 && Sum(ledger, p, Debit) == 0
  {
    LifecycleHolds(cfg, actions);
    var ledger := Reached(cfg, actions).tables.ledger;
    NoEntries(ledger, p, Credit);
    NoEntries(ledger, p, Debit);
  }

  lemma SpentAfter(cfg: Config, prior: seq<Action>, more: seq<Action>, n: nat)
    requires Spent(Reached(cfg, prior), n)
    ensures
      var s, u := Reached(cfg, prior), Run(Reached(cfg, prior), more);
      && Spent(u, n) && n < |s.tables.events|
      && u.tables.events[n] == Rebooked(s.tables.events[n], u.tables.events[n])
  {
    var s, u := Reached(cfg, prior), Run(Reached(cfg, prior), more);
    ReachedInv(cfg, prior);
    RunGrows(s, more);
    SpentForever(cfg, prior, more, n, |u.tables.payments|);
  }

  /** From every reachable state: an event none of whose payments is stored yet arrives, its job runs and
      finds nothing, and the event is PROCESSED. Then, whatever the event asks for and whatever follows,
      redeliveries, replays and the creation of its payment included, its credit step never runs; and a
      payment created afterwards that no other event names stays PENDING, without any entry. */
  lemma EarlyEventLost(cfg: Config, prior: seq<Action>, w: nat, e: Event, more: seq<Action>, p: nat)
    requires
      var s := Reached(cfg, prior);
      w !in s.workers && MayReceive(s.tables, e) && NoneNamed(s.tables, e)
    ensures
      var s, n := Reached(cfg, prior), |Reached(cfg, prior).tables.events|;
      var u := Reached(cfg, (prior + EarlyRun(w, n, e)) + more);
      && n < |u.tables.events| && u.tables.events[n] == Rebooked(e, u.tables.events[n])
      && u.tables.events[n].status == Processed && NeverConfirmed(u.history, n)
      && (|s.tables.payments| <= p < |u.tables.payments| && OnlyNamedBy(u.tables, n, p) ==>
            && u.tables.payments[p].status == Pending
            && Sum(u.tables.ledger, p, Credit) == 0 && Sum(u.tables.ledger, p, Debit) == 0)
  {
    var s, n := Reached(cfg, prior), |Reached(cfg, prior).tables.events|;
    var early := prior + EarlyRun(w, n, e);
    EarlySpent(cfg, prior, w, e);
    RunSplit(Initial(cfg), early, more);
    SpentAfter(cfg, early, more, n);
    var u := Reached(cfg, early + more);
    if |s.tables.payments| <= p < |u.tables.payments| && OnlyNamedBy(u.tables, n, p) {
      SpentForever(cfg, early, more, n, p);
      PendingIsEmpty(cfg, early + more, p);
    }
  }

  // ---------------------------------------------------------------- a shared reference

  function ThePayment(amount: nat): Payment {
    Payment("pay", Stripe, Some("pi"), None, Some("pi"), amount, Pending)
  }

  /** Two success events of different gateways under one identifier; the second names the order, and the
      look-up for it does not ask for the payment's gateway. */
  function StripeEvent(id: string): Event {
    Event(Stripe, id, "payment_intent.succeeded", "pi", "", Received, 0, None)
  }

  function CashfreeEvent(id: string): Event {
    Event(Cashfree, id, "PAYMENT_SUCCESS_WEBHOOK", "ORD", "SUCCESS", Received, 0, None)
  }

  function TwoEvents(amount: nat, id: string): seq<Action> {
    ([CreatePayment(ThePayment(amount), "ORD")] + [ReceiveEvent(StripeEvent(id))]) + [ReceiveEvent(CashfreeEvent(id))]
  }

  function SharedRun(amount: nat, id: string): seq<Action> {
    (TwoEvents(amount, id) + Deliver(0, 0)) + Deliver(0, 1)
  }

  function TwoPending(amount: nat, id: string): Tables {
    Tables([ThePayment(amount)], [Order("ORD", OrderPending)], [StripeEvent(id), CashfreeEvent(id)],
           [], [], {}, {}, [])
  }

  lemma TwoEventsReached(cfg: Config, amount: nat, id: string)
    requires amount > 0
    ensures
      var s := Reached(cfg, TwoEvents(amount, id));
      && s.tables == TwoPending(amount, id)
      && s.workers == map[]
  {
    var create, receive := CreatePayment(ThePayment(amount), "ORD"), ReceiveEvent(StripeEvent(id));
    assert [] + [create] == [create];
    OneMore(cfg, [], create);
    OneMore(cfg, [create], receive);
    OneMore(cfg, [create] + [receive], ReceiveEvent(CashfreeEvent(id)));
    assert Reached(cfg, [create]).tables.payments == [ThePayment(amount)];
    assert Reached(cfg, [create]).tables.orders == [Order("ORD", OrderPending)];
  }

  /** What the first event intends. */
  lemma FirstIntends(cfg: Config, amount: nat, id: string)
    requires cfg.ledgerEnabled
    ensures
      var t := TwoPending(amount, id);
      var d := Intended(cfg, t, 0);
      && UniqueMatch(t, t.events[0]) && Permitted(t, 0)
      && d.payments == [ThePayment(amount).(status := Success)] && d.ledger == [CreditEntry(id, t.payments, 0)]
      && |d.events| == 2 && d.events[1] == CashfreeEvent(id)
  {
    var t := TwoPending(amount, id);
    assert Matches(t, t.events[0], 0);
    assert About(t, t.events[0]) == Some(0);
  }

  lemma FirstDelivered(cfg: Config, amount: nat, id: string)
    requires amount > 0 && cfg.ledgerEnabled && id != ""
    ensures
      var s := Reached(cfg, TwoEvents(amount, id) + Deliver(0, 0));
      var paid := [ThePayment(amount).(status := Success)];
      && s.workers == map[] && Paired(s.tables) && s.tables.payments == paid
      && s.tables.ledger == [CreditEntry(id, paid, 0)]
      && |s.tables.events| == 2 && s.tables.events[0] == Rebooked(StripeEvent(id), s.tables.events[0])
      && s.tables.events[0].status == Processed && s.tables.events[1] == CashfreeEvent(id)
      && |s.tables.orders| == 1 && s.tables.orders[0].number == "ORD"
  {
    TwoEventsReached(cfg, amount, id);
    DeliverReached(cfg, TwoEvents(amount, id), 0, 0);
    FirstIntends(cfg, amount, id);
    CleanJob(cfg, TwoPending(amount, id), 0);
    CleanJobExactly(cfg, TwoPending(amount, id), 0);
    KeepsOrders(cfg, TwoPending(amount, id), W.Start(0, 0), Clean8());
  }

  /** The second delivery finds the payment confirmed and the reference taken. */
  lemma SecondDelivered(cfg: Config, t: Tables, amount: nat, id: string)
    requires cfg.ledgerEnabled && id != "" && Paired(t)
    requires t.payments == [ThePayment(amount).(status := Success)] && t.ledger == [CreditEntry(id, t.payments, 0)]
    requires |t.events| == 2 && t.events[1] == CashfreeEvent(id) && t.orders[0].number == "ORD"
    ensures
      var u := W.RunJob(cfg, t, W.Start(1, 0), Clean8()).tables;
      && u.payments == t.payments && u.ledger == t.ledger && |u.events| == 2 && u.events[0] == t.events[0]
      && u.events[1] == Rebooked(CashfreeEvent(id), u.events[1]) && u.events[1].status == Processed
      && |u.orders| == 1 && u.orders[0].number == "ORD"
  {
    assert Matches(t, t.events[1], 0) && About(t, t.events[1]) == Some(0);
    assert t.ledger[0].ref == CreditRef(id, t.payments[0]);
    var d := Intended(cfg, t, 1);
    assert d.ledger == t.ledger && d.payments == t.payments;
    CleanJob(cfg, t, 1);
    KeepsOrders(cfg, t, W.Start(1, 0), Clean8());
  }

  lemma BothDelivered(cfg: Config, amount: nat, id: string)
    requires amount > 0 && cfg.ledgerEnabled && id != ""
    ensures
      var t := Reached(cfg, SharedRun(amount, id)).tables;
      var paid := [ThePayment(amount).(status := Success)];
      && t.payments == paid && t.ledger == [CreditEntry(id, paid, 0)]
      && |t.events| == 2 && t.events[0].status == Processed && t.events[1].status == Processed
      && t.events[0] == Rebooked(StripeEvent(id), t.events[0])
      && t.events[1] == Rebooked(CashfreeEvent(id), t.events[1])
      && |t.orders| == 1 && t.orders[0].number == "ORD"
  {
    FirstDelivered(cfg, amount, id);
    var prior := TwoEvents(amount, id) + Deliver(0, 0);
    DeliverReached(cfg, prior, 0, 1);
    SecondDelivered(cfg, Reached(cfg, prior).tables, amount, id);
  }

  /** So the number of credits is not always the number of events: for every amount and every identifier
      there is a run in which two success events of one payment, of different gateways, are both
      PROCESSED, and the ledger has one credit for the two. */
  lemma OneCreditForTwoEvents(cfg: Config, amount: nat, id: string)
    requires amount > 0 && cfg.ledgerEnabled && id != ""
    ensures
      var t := Reached(cfg, SharedRun(amount, id)).tables;
      && |t.events| == 2 && |t.payments| == 1 && |t.orders| == 1
      && (forall row :: 0 <= row < 2 ==>
            t.events[row].status == Processed && W.Classify(t.events[row]) == W.Confirm && Matches(t, t.events[row], 0))
      && t.events[0].gateway == Stripe && t.events[1].gateway == Cashfree
      && Sum(t.ledger, 0, Credit) == amount == t.payments[0].amount
  {
    BothDelivered(cfg, amount, id);
    var t := Reached(cfg, SharedRun(amount, id)).tables;
    SumAppend([], t.ledger[0], 0, Credit);
    assert [] + [t.ledger[0]] == t.ledger;
  }
}
