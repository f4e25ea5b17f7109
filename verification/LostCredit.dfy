/** A run in which money is confirmed and refunded and the ledger never shows the confirmation: the
    worker dies after its transition and before its credit, the payment is refunded, and every later
    delivery of the event is refused. */
module LostCredit {
  import opened Domain
  import opened Ledger
  import opened Store
  import opened Rounding
  import opened System
  import opened Shape
  import opened CreditBacking
  import opened Conservation
  import opened Simulation
  import W = Worker
  import R = Refunds
  import RefundRecovery

  function ThePayment(amount: nat): Payment {
    Payment("pay", Stripe, Some("pi"), None, Some("pi"), amount, Pending)
  }

  function TheEvent(): Event {
    Event(Stripe, "evt", "payment_intent.succeeded", "pi", "", Received, 0, None)
  }

  /** Load, mark, find the payment, write it, write its order; and then nothing more. */
  function CutOff(): seq<Outcome> {
    [Fine(0), Fine(0), Fine(0), Fine(0), Fine(0)]
  }

  /** A refund of the whole amount in which every operation succeeds. */
  function Smooth(): seq<Outcome> {
    [Fine(0), Fine(0), Issued("", "succeeded"), Issued("re", "succeeded"), Inserted("ref"),
     Fine(0), Fine(0), Fine(0), Fine(0)]
  }

  function Whole(): R.Request {
    R.Request(None, None, None, true, "REF")
  }

  /** After the cut-off delivery: confirmed, the order paid, nothing in the ledger. */
  function Confirmed(amount: nat): Tables {
    Tables([ThePayment(amount).(status := Success)], [Order("ORD", OrderPaid)],
           [TheEvent().(status := Processing, attempts := 1)], [], [], {}, {}, [])
  }

  lemma AfterCutOff(cfg: Config, t: Tables, amount: nat)
    requires t == Tables([ThePayment(amount)], [Order("ORD", OrderPending)], [TheEvent()], [], [], {}, {}, [])
    ensures W.RunJob(cfg, t, W.Start(0, 0), CutOff()).tables == Confirmed(amount)
  {
  }

  /** After the refund: all of it gone, one debit, no credit. */
  function Emptied(amount: nat): Tables
    requires amount > 0
  {
    var payments := [ThePayment(amount).(status := Refunded)];
    Saved(amount).(payments := payments, orders := [Order("ORD", OrderCancelled)],
                   ledger := [DebitEntry(payments, 0, TheRow(amount), false)])
  }

  function TheRow(amount: nat): Refund {
    Refund("ref", "re", 0, amount, RefundSucceeded)
  }

  /** What the gateway keeps of it: asked without an amount, it has set aside the whole payment. */
  function TheRecord(amount: nat): GatewayRefund {
    GatewayRefund(Ask(Derived("pi", amount as real, None), 0, None, "REF", None), "re", RefundSucceeded, amount)
  }

  /** The row is saved, nothing else is done about it. */
  function Saved(amount: nat): Tables {
    Confirmed(amount).(refunds := [TheRow(amount)],
                       gateway := [TheRecord(amount)])
  }

  /** Three steps in which the payment, its refunds and the gateway's record of it are read. */
  lemma UntilPaying(cfg: Config, amount: nat, rest: seq<Outcome>)
    requires amount > 0
    ensures
      R.RunCall(cfg, Confirmed(amount), R.Start(0, Whole()),
                [Fine(0)] + ([Fine(0)] + ([Issued("", "succeeded")] + rest)))
      == R.RunCall(cfg, Confirmed(amount), R.Run(0, Whole(), R.Paying(amount as real, 0)), rest)
  {
    var t, req, asked := Confirmed(amount), Whole(), amount as real;
    var s2 := [Issued("", "succeeded")] + rest;
    assert TotalRefunded(t.refunds, 0) == 0;
    assert R.Guard(amount, 0, None) == Some(asked);
    RefundRecovery.OneStep(cfg, t, R.Start(0, req), Fine(0), [Fine(0)] + s2);
    RefundRecovery.OneStep(cfg, t, R.Run(0, req, R.Totalling), Fine(0), s2);
    RefundRecovery.OneStep(cfg, t, R.Run(0, req, R.Retrieving(asked, 0)), Issued("", "succeeded"), rest);
  }

  lemma UntilSaved(cfg: Config, amount: nat, rest: seq<Outcome>)
    requires amount > 0
    ensures
      R.RunCall(cfg, Confirmed(amount), R.Run(0, Whole(), R.Paying(amount as real, 0)),
                [Issued("re", "succeeded")] + ([Inserted("ref")] + rest))
      == R.RunCall(cfg, Saved(amount), R.Run(0, Whole(), R.Moving(0, true)), rest)
  {
    var t, asked := Confirmed(amount), amount as real;
    var record := TheRecord(amount);
    var paying := R.Run(0, Whole(), R.Paying(asked, 0));
    var saving := R.Run(0, Whole(), R.Saving(asked, 0, "re", RefundSucceeded, 0));
    var paid := t.(gateway := [record]);
    assert R.Advance(cfg, t, paying, Issued("re", "succeeded")) == R.Turn(paid, R.Go(saving)) by {
      assert Lower("succeeded") == "succeeded";
      assert R.RecordAt(t.gateway, record.ask.key) == None && t.gateway + [record] == [record];
    }
    RefundRecovery.OneStep(cfg, t, paying, Issued("re", "succeeded"), [Inserted("ref")] + rest);
    var moving := R.Run(0, Whole(), R.Moving(0, true));
    assert R.Advance(cfg, paid, saving, Inserted("ref")) == R.Turn(Saved(amount), R.Go(moving)) by {
      HalfUpOfInt(amount);
    }
    RefundRecovery.OneStep(cfg, paid, saving, Inserted("ref"), rest);
  }

  lemma FromSaved(cfg: Config, amount: nat)
    requires amount > 0 && cfg.ledgerEnabled
    ensures
      var script := [Fine(0)] + ([Fine(0)] + ([Fine(0)] + ([Fine(0)] + [])));
      R.RunCall(cfg, Saved(amount), R.Run(0, Whole(), R.Moving(0, true)), script).tables == Emptied(amount)
  {
    var saved, req, o := Saved(amount), Whole(), Fine(0);
    var payments := [ThePayment(amount).(status := Refunded)];
    var moved := saved.(payments := payments);
    var synced := moved.(orders := [Order("ORD", OrderCancelled)]);
    var seeking, debiting := R.Run(0, req, R.Seeking(0, true)), R.Run(0, req, R.Debiting(0, true));
    assert WithStatus(saved.payments, 0, Refunded) == payments;
    RefundRecovery.OneStep(cfg, saved, R.Run(0, req, R.Moving(0, true)), o, [o] + ([o] + ([o] + [])));
    assert WithOrderStatus(moved.orders, 0, OrderCancelled) == synced.orders;
    RefundRecovery.OneStep(cfg, moved, R.Run(0, req, R.Syncing(0, true)), o, [o] + ([o] + []));
    RefundRecovery.OneStep(cfg, synced, seeking, o, [o] + []);
    var debit := DebitEntry(payments, 0, TheRow(amount), false);
    assert [] + [debit] == [debit] && synced.refunds[0] == TheRow(amount);
    assert R.Advance(cfg, synced, debiting, o) == R.Turn(Emptied(amount), R.Stop(R.Created(0)));
    RefundRecovery.OneStep(cfg, synced, debiting, o, []);
  }

  lemma AfterRefund(cfg: Config, amount: nat)
    requires amount > 0 && cfg.ledgerEnabled
    ensures R.RunCall(cfg, Confirmed(amount), R.Start(0, Whole()), Smooth()).tables == Emptied(amount)
  {
    var o := Fine(0);
    var rest := [o] + ([o] + ([o] + ([o] + [])));
    assert Smooth()
        == [o] + ([o] + ([Issued("", "succeeded")] + ([Issued("re", "succeeded")] + ([Inserted("ref")] + rest))));
    UntilPaying(cfg, amount, [Issued("re", "succeeded")] + ([Inserted("ref")] + rest));
    UntilSaved(cfg, amount, rest);
    FromSaved(cfg, amount);
  }

  function Delivery(): seq<Action> {
    [StartWorker(0, 0, 0)] + WorkerActions(0, CutOff())
  }

  function Repayment(): seq<Action> {
    [StartRefund(0, Whole())] + RefundActions(0, Smooth())
  }

  function TheRun(amount: nat): seq<Action> {
    Prepared(amount) + (Delivery() + Repayment())
  }

  lemma RunCons(s: State, a: Action, rest: seq<Action>)
    ensures Run(s, [a] + rest) == Run(Apply(s, a), rest)
  {
  }

  function Prepared(amount: nat): seq<Action> {
    [CreatePayment(ThePayment(amount), "ORD")] + ([ReceiveEvent(TheEvent())] + [])
  }

  lemma Setup(cfg: Config, amount: nat)
    requires amount > 0
    ensures
      var s := Reached(cfg, Prepared(amount));
      && s.tables == Tables([ThePayment(amount)], [Order("ORD", OrderPending)], [TheEvent()], [], [], {}, {}, [])
      && s.workers == map[] && s.calls == map[]
  {
    var s0 := Initial(cfg);
    var s1 := Apply(s0, CreatePayment(ThePayment(amount), "ORD"));
    RunCons(s0, CreatePayment(ThePayment(amount), "ORD"), [ReceiveEvent(TheEvent())] + []);
    RunCons(s1, ReceiveEvent(TheEvent()), []);
    assert s1.tables.payments == [ThePayment(amount)] && s1.tables.orders == [Order("ORD", OrderPending)];
  }

  lemma TheRunEnds(cfg: Config, amount: nat)
    requires amount > 0 && cfg.ledgerEnabled
    ensures
      var s := Reached(cfg, TheRun(amount));
      s.tables == Emptied(amount) && s.workers == map[] && s.calls == map[]
  {
    var s2 := Reached(cfg, Prepared(amount));
    Setup(cfg, amount);
    ReachedInv(cfg, Prepared(amount));
    RunSplit(Initial(cfg), Prepared(amount), Delivery() + Repayment());
    RunSplit(s2, Delivery(), Repayment());
    JobIsARun(s2, 0, 0, 0, CutOff());
    AfterCutOff(cfg, s2.tables, amount);
    var s3 := Run(s2, Delivery());
    RunInv(s2, Delivery());
    CallIsARun(s3, 0, Whole(), Smooth());
    AfterRefund(cfg, amount);
  }

  lemma EmptiedSums(amount: nat)
    requires amount > 0
    ensures
      var t := Emptied(amount);
      Sum(t.ledger, 0, Credit) == 0 && Sum(t.ledger, 0, Debit) == amount && TotalRefunded(t.refunds, 0) == amount
  {
  }

  lemma {:induction false} SumGrows(ledger: seq<Entry>, more: seq<Entry>, p: nat, d: Direction)
    requires ledger <= more
    ensures Sum(ledger, p, d) <= Sum(more, p, d)
    decreases |more|
  {
    if ledger != more {
      SumGrows(ledger, more[..|more| - 1], p, d);
    }
  }

  lemma {:induction false} TotalGrows(refunds: seq<Refund>, more: seq<Refund>, p: nat)
    requires refunds <= more
    ensures TotalRefunded(refunds, p) <= TotalRefunded(more, p)
    decreases |more|
  {
    if refunds != more {
      TotalGrows(refunds, more[..|more| - 1], p);
    }
  }

  lemma TooLateHere(cfg: Config, amount: nat)
    requires amount > 0 && cfg.ledgerEnabled
    ensures Shaped(Reached(cfg, TheRun(amount))) && TooLate(Reached(cfg, TheRun(amount)), 0)
  {
    TheRunEnds(cfg, amount);
    ReachedInv(cfg, TheRun(amount));
  }

  /** For every amount there is a run after which, whatever happens next, the ledger shows the whole amount
      going out and nothing ever coming in: its balance for the payment is minus the amount, while the
      refund guard's is nought. */
  lemma MoneyOutNeverIn(cfg: Config, amount: nat, more: seq<Action>)
    requires amount > 0 && cfg.ledgerEnabled
    ensures
      var t := Reached(cfg, TheRun(amount) + more).tables;
      && |t.payments| > 0 && t.payments[0].amount == amount
      && Sum(t.ledger, 0, Credit) == 0 && Sum(t.ledger, 0, Debit) == amount
      && TotalRefunded(t.refunds, 0) == amount
  {
    var t, u := Reached(cfg, TheRun(amount)).tables, Reached(cfg, TheRun(amount) + more).tables;
    TheRunEnds(cfg, amount);
    TooLateHere(cfg, amount);
    EmptiedSums(amount);
    CreditLostForGood(cfg, TheRun(amount), more, 0);
    LedgerIsSound(cfg, TheRun(amount), more);
    assert u.payments[0] == t.payments[0].(status := u.payments[0].status);
    SumGrows(t.ledger, u.ledger, 0, Debit);
    TotalGrows(t.refunds, u.refunds, 0);
    RefundConservation(cfg, TheRun(amount) + more, 0);
  }
}
