/** The main theorems about the money path: what holds in every state the whole system can reach,
    from empty tables, under every sequence of actions. */
module Conservation {
  import opened Domain
  import opened StateMachine
  import opened Ledger
  import opened Store
  import opened System
  import opened Shape
  import opened CreditSafety
  import opened LifecycleSafety
  import opened OrderSafety
  import opened RefundSafety
  import opened GatewaySafety
  import opened CreditBacking
  import opened CreditEvents
  import opened ProcessedEvents
  import W = Worker
  import R = Refunds

  ghost predicate PositiveAmounts(t: Tables) {
    forall p :: 0 <= p < |t.payments| ==> t.payments[p].amount > 0
  }

  lemma GrowsPositive(t: Tables, t': Tables)
    requires PositiveAmounts(t) && Grows(t, t') && |t'.payments| == |t.payments|
    ensures PositiveAmounts(t')
  {
  }

  ghost predicate Inv(s: State) {
    && PositiveAmounts(s.tables) && Shaped(s)
    && Credits(s) && Lifecycle(s) && Orders(s) && RefundMoney(s) && GatewayAgrees(s) && Backing(s)
    && EventsCredited(s) && ProcessedCredited(s)
  }

  lemma WorkerInv(s: State, w: nat, o: Outcome)
    requires Inv(s) && w in s.workers
    ensures Inv(WorkerStep(s, w, o))
  {
    var s' := WorkerStep(s, w, o);
    WorkerShaped(s, w, o);
    GrowsPositive(s.tables, s'.tables);
    WorkerCredits(s, w, o);
    WorkerLifecycle(s, w, o);
    WorkerOrders(s, w, o);
    WorkerMoney(s, w, o);
    WorkerBacking(s, w, o);
    WorkerAgrees(s, w, o);
    WorkerEvents(s, w, o);
    WorkerProcessed(s, w, o);
  }

  lemma PayingWithin(s: State, p: nat)
    requires Shaped(s) && RefundMoney(s) && p in s.calls && s.calls[p].at.Paying?
    ensures s.calls[p].at.asked <= s.tables.payments[p].amount as real
  {
    assert MoneyAt(s.cfg, s.tables, CallOf(s, p), s.history, p);
  }

  lemma RefundProcessed(s: State, p: nat, o: Outcome)
    requires Shaped(s) && ProcessedCredited(s) && p in s.calls && Shaped(RefundStep(s, p, o))
    ensures ProcessedCredited(RefundStep(s, p, o))
  {
    var s' := RefundStep(s, p, o);
    RefundGrows(s.cfg, s.tables, s.calls[p], o);
    RefundEventsAlone(s.cfg, s.tables, s.calls[p], o);
    OtherProcessed(s, s');
  }

  lemma RefundEventsAlone(cfg: Config, t: Tables, k: R.Run, o: Outcome)
    requires R.InRange(t, k)
    ensures R.Advance(cfg, t, k, o).tables.events == t.events
  {
  }

  lemma RefundInv(s: State, p: nat, o: Outcome)
    requires Inv(s) && p in s.calls
    ensures Inv(RefundStep(s, p, o))
  {
    var s' := RefundStep(s, p, o);
    RefundShaped(s, p, o);
    GrowsPositive(s.tables, s'.tables);
    RefundCredits(s, p, o);
    RefundLifecycle(s, p, o);
    RefundOrders(s, p, o);
    RefundCallMoney(s, p, o);
    RefundBacking(s, p, o);
    if s.calls[p].at.Paying? { PayingWithin(s, p); }
    RefundAgrees(s, p, o);
    RefundEvents(s, p, o);
    RefundProcessed(s, p, o);
  }

  lemma CreationOthers(s: State, payment: Payment, orderNumber: string)
    requires Shaped(s) && Backing(s) && GatewayAgrees(s) && EventsCredited(s) && ProcessedCredited(s)
    requires Shaped(PaymentCreated(s, payment, orderNumber))
    requires Grows(s.tables, PaymentCreated(s, payment, orderNumber).tables)
    ensures
      var s' := PaymentCreated(s, payment, orderNumber);
      Backing(s') && GatewayAgrees(s') && EventsCredited(s') && ProcessedCredited(s')
  {
    var s' := PaymentCreated(s, payment, orderNumber);
    OtherBacking(s, s');
    OthersAgree(s, s');
    EventsFrame(s, s');
    OtherProcessed(s, s');
  }

  lemma CreationPositive(s: State, payment: Payment, orderNumber: string)
    requires PositiveAmounts(s.tables) && payment.amount > 0
    ensures PositiveAmounts(PaymentCreated(s, payment, orderNumber).tables)
  {
  }

  lemma CreationRows(s: State, payment: Payment, orderNumber: string)
    requires Shaped(s) && Credits(s) && Lifecycle(s) && Orders(s) && RefundMoney(s) && payment.status == Pending
    requires Shaped(PaymentCreated(s, payment, orderNumber))
    ensures
      var s' := PaymentCreated(s, payment, orderNumber);
      Credits(s') && Lifecycle(s') && Orders(s') && RefundMoney(s')
  {
    CreationCredits(s, payment, orderNumber);
    CreationLifecycle(s, payment, orderNumber);
    CreationOrders(s, payment, orderNumber);
    CreationMoney(s, payment, orderNumber);
  }

  lemma CreationInv(s: State, payment: Payment, orderNumber: string)
    requires Inv(s) && MayCreate(s.tables, payment, orderNumber)
    ensures Inv(PaymentCreated(s, payment, orderNumber))
  {
    CreationShaped(s, payment, orderNumber);
    CreationPositive(s, payment, orderNumber);
    CreationRows(s, payment, orderNumber);
    CreationOthers(s, payment, orderNumber);
  }

  lemma SidelineInv(s: State, s': State)
    requires Inv(s) && Shaped(s') && Grows(s.tables, s'.tables) && Sideline(s, s') && JobsSettled(s')
    requires forall row :: |s.tables.events| <= row < |s'.tables.events| ==> s'.tables.events[row].status != Processed
    ensures Inv(s')
  {
    SidelineCredits(s, s');
    SidelineLifecycle(s, s');
    SidelineOrders(s, s');
    SidelineMoney(s, s');
    OtherBacking(s, s');
    OthersAgree(s, s');
    EventsFrame(s, s');
    OtherProcessed(s, s');
  }

  lemma InvoiceIsSideline(s: State, j: nat, o: Outcome)
    requires Shaped(s) && Lifecycle(s) && j in s.jobs
    ensures
      var s' := InvoiceStep(s, j, o);
      && Shaped(s') && Grows(s.tables, s'.tables) && Sideline(s, s') && JobsSettled(s')
      && s'.tables.events == s.tables.events
  {
    InvoiceSideline(s, j, o);
    SidelineShaped(s, InvoiceStep(s, j, o));
    InvoiceSettled(s, j, o);
  }

  lemma InvoiceInv(s: State, j: nat, o: Outcome)
    requires Inv(s) && j in s.jobs
    ensures Inv(InvoiceStep(s, j, o))
  {
    InvoiceIsSideline(s, j, o);
    SidelineInv(s, InvoiceStep(s, j, o));
  }

  lemma OtherIsSideline(s: State, a: Action)
    requires Shaped(s) && Lifecycle(s)
    requires !a.CreatePayment? && !a.StepWorker? && !a.StepRefund? && !a.StepInvoice?
    ensures
      var s' := Apply(s, a);
      && Shaped(s') && Grows(s.tables, s'.tables) && Sideline(s, s') && JobsSettled(s')
      && forall row :: |s.tables.events| <= row < |s'.tables.events| ==> s'.tables.events[row].status != Processed
  {
    OtherSideline(s, a);
    SidelineShaped(s, Apply(s, a));
    OtherSettled(s, Apply(s, a));
  }

  lemma OtherInv(s: State, a: Action)
    requires Inv(s) && !a.CreatePayment? && !a.StepWorker? && !a.StepRefund? && !a.StepInvoice?
    ensures Inv(Apply(s, a))
  {
    OtherIsSideline(s, a);
    SidelineInv(s, Apply(s, a));
  }

  lemma InvShaped(s: State)
    requires Inv(s)
    ensures Shaped(s)
  {
  }

  lemma WorkerActionInv(s: State, w: nat, o: Outcome)
    requires Inv(s)
    ensures Inv(Apply(s, StepWorker(w, o)))
  {
    InvShaped(s);
    WorkerApplies(s, w, o);
    if w in s.workers { WorkerInv(s, w, o); }
  }

  lemma RefundActionInv(s: State, p: nat, o: Outcome)
    requires Inv(s)
    ensures Inv(Apply(s, StepRefund(p, o)))
  {
    InvShaped(s);
    RefundApplies(s, p, o);
    if p in s.calls { RefundInv(s, p, o); }
  }

  lemma InvoiceActionInv(s: State, j: nat, o: Outcome)
    requires Inv(s)
    ensures Inv(Apply(s, StepInvoice(j, o)))
  {
    InvShaped(s);
    InvoiceApplies(s, j, o);
    if j in s.jobs { InvoiceInv(s, j, o); }
  }

  lemma CreationActionInv(s: State, payment: Payment, number: string)
    requires Inv(s)
    ensures Inv(Apply(s, CreatePayment(payment, number)))
  {
    if MayCreate(s.tables, payment, number) { CreationInv(s, payment, number); }
  }

  lemma CfgStays(s: State, a: Action)
    ensures Apply(s, a).cfg == s.cfg
  {
  }

  /** Every action keeps everything. */
  lemma ApplyInv(s: State, a: Action)
    requires Inv(s)
    ensures Inv(Apply(s, a)) && Apply(s, a).cfg == s.cfg
  {
    CfgStays(s, a);
    match a
    case CreatePayment(payment, number) => CreationActionInv(s, payment, number);
    case StepWorker(w, o) => WorkerActionInv(s, w, o);
    case StepRefund(p, o) => RefundActionInv(s, p, o);
    case StepInvoice(j, o) => InvoiceActionInv(s, j, o);
    case _ => OtherInv(s, a);
  }

  lemma {:induction false} RunInv(s: State, actions: seq<Action>)
    requires Inv(s)
    ensures Inv(Run(s, actions)) && Run(s, actions).cfg == s.cfg
    decreases |actions|
  {
    if actions != [] {
      ApplyInv(s, actions[0]);
      RunInv(Apply(s, actions[0]), actions[1..]);
    }
  }

  lemma InitialInv(cfg: Config)
    ensures Inv(Initial(cfg))
  {
  }

  /** A state the system can reach. */
  function Reached(cfg: Config, actions: seq<Action>): State {
    Run(Initial(cfg), actions)
  }

  lemma ReachedInv(cfg: Config, actions: seq<Action>)
    ensures Inv(Reached(cfg, actions)) && Reached(cfg, actions).cfg == cfg
  {
    InitialInv(cfg);
    RunInv(Initial(cfg), actions);
  }

  // ---------------------------------------------------------------- credits

  /** Credit conservation: the CREDIT entries of a payment add up to its amount times the number of
      success events whose credit step has run for it, exactly when no two of those events share a
      reference and none of their references was first credited to another payment; and to less otherwise.
      The events counted are stored, distinct, and ask for this payment's confirmation. */
  lemma CreditConservation(cfg: Config, actions: seq<Action>, p: nat)
    requires p < |Reached(cfg, actions).tables.payments|
    ensures
      var s := Reached(cfg, actions);
      var sum, amount := Sum(s.tables.ledger, p, Credit), s.tables.payments[p].amount;
      var events := EventsOf(s.history.confirmed, p);
      && EventsCredited(s)
      && (forall row :: row in events ==>
            row < |s.tables.events| && W.Classify(s.tables.events[row]) == W.Confirm
            && Matches(s.tables, s.tables.events[row], p))
      && (sum == amount * |events| <==> NoneShared(s, p) && NoneTaken(s, p))
      && sum <= amount * |events|
  {
    ReachedInv(cfg, actions);
    var s := Reached(cfg, actions);
    CreditCount(cfg, actions, p);
    CreditsPerEvent(s, p);
    Product(s.tables.payments[p].amount, |CreditsOf(s.history.credited, p)|, |EventsOf(s.history.confirmed, p)|);
    forall row | row in EventsOf(s.history.confirmed, p)
      ensures row < |s.tables.events| && W.Classify(s.tables.events[row]) == W.Confirm
              && Matches(s.tables, s.tables.events[row], p)
    {
      assert Ran(s.tables, s.history.credited, row, p);
    }
  }

  lemma Product(amount: nat, m: nat, n: nat)
    requires amount > 0 && m <= n
    ensures amount * m <= amount * n
    ensures amount * m == amount * n <==> m == n
  {
    assert amount * n == amount * m + amount * (n - m);
    if m < n { assert amount * (n - m) > 0; }
  }

  /** In terms of the ledger's own references: the amount times the number of references credited to it. */
  lemma CreditCount(cfg: Config, actions: seq<Action>, p: nat)
    requires p < |Reached(cfg, actions).tables.payments|
    ensures
      var s := Reached(cfg, actions);
      Sum(s.tables.ledger, p, Credit) == s.tables.payments[p].amount * |CreditsOf(s.history.credited, p)|
  {
    ReachedInv(cfg, actions);
    var s := Reached(cfg, actions);
    TimesIsProduct(s.tables.payments[p].amount, |CreditsOf(s.history.credited, p)|);
  }

  /** The credit step of some event has run with this reference. */
  ghost predicate RanWith(s: State, ref: Ref) {
    exists row: nat, q: nat :: (row, q) in s.history.confirmed && row < |s.tables.events|
                               && q < |s.tables.payments| && RefOf(s.tables, row, q) == ref
  }

  /** The ledger has a credit exactly under the references some event's credit step has run with. */
  lemma CreditedByEvent(s: State, ref: Ref)
    requires Credits(s) && EventsCredited(s) && ref.kind == PaymentKind
    ensures Has(s.tables.ledger, ref) <==> RanWith(s, ref)
  {
    if Has(s.tables.ledger, ref) {
      FormsMissNone(s.tables.payments, s.tables.ledger, s.history.credited);
      assert FromEvent(s.tables, s.history.confirmed, ref, s.history.credited[ref]);
    }
    if RanWith(s, ref) {
      var row: nat, q: nat :| (row, q) in s.history.confirmed && row < |s.tables.events|
                              && q < |s.tables.payments| && RefOf(s.tables, row, q) == ref;
      assert Ran(s.tables, s.history.credited, row, q);
    }
  }

  /** Event `row` has its credit: the ledger has an entry under its reference for a payment it names. */
  ghost predicate HasCredit(t: Tables, row: nat)
    requires row < |t.events|
  {
    exists p: nat :: p < |t.payments| && Matches(t, t.events[row], p) && Has(t.ledger, RefOf(t, row, p))
  }

  /** Some event's credit step, its own or another's, has run under the reference of event `row` for a
      payment it names. */
  ghost predicate StepRan(s: State, row: nat)
    requires row < |s.tables.events|
  {
    exists p: nat :: p < |s.tables.payments| && Matches(s.tables, s.tables.events[row], p)
                     && RanWith(s, RefOf(s.tables, row, p))
  }

  lemma CreditExactly(s: State, row: nat)
    requires Credits(s) && EventsCredited(s) && row < |s.tables.events|
    ensures HasCredit(s.tables, row) <==> StepRan(s, row)
  {
    forall p: nat | p < |s.tables.payments|
      ensures Has(s.tables.ledger, RefOf(s.tables, row, p)) <==> RanWith(s, RefOf(s.tables, row, p))
    {
      CreditedByEvent(s, RefOf(s.tables, row, p));
    }
  }

  lemma ConfirmedRan(s: State, row: nat)
    requires EventsCredited(s) && row < |s.tables.events| && Confirmed(s.history, row)
    ensures StepRan(s, row)
  {
    var p: nat :| (row, p) in s.history.confirmed;
    assert Ran(s.tables, s.history.credited, row, p);
    assert RanWith(s, RefOf(s.tables, row, p));
  }

  /** Over every interleaving, a PROCESSED success event has its credit in the ledger, under its own
      reference for a payment it names, exactly when some credit step has run under such a reference: its
      own, or that of an event it shares the reference with. Its own has run whenever no look-up of its runs
      came up empty; one that did may still be followed by another that did not. */
  lemma ProcessedIsCredited(cfg: Config, actions: seq<Action>, row: nat)
    requires cfg.ledgerEnabled
    requires
      var s := Reached(cfg, actions);
      && row < |s.tables.events| && s.tables.events[row].status == Processed
      && W.Classify(s.tables.events[row]) == W.Confirm
    ensures
      var s := Reached(cfg, actions);
      && (HasCredit(s.tables, row) <==> StepRan(s, row))
      && (row !in s.history.unfound ==> Confirmed(s.history, row) && HasCredit(s.tables, row))
  {
    ReachedInv(cfg, actions);
    var s := Reached(cfg, actions);
    CreditExactly(s, row);
    if row !in s.history.unfound {
      assert Expected(cfg, s.tables, s.history, row);
      ConfirmedRan(s, row);
    }
  }

  /** Every credit entry carries its payment's amount and is backed by a stored event that asks for the
      confirmation of that payment; no reference is used twice; entries stay where they are. */
  lemma LedgerIsSound(cfg: Config, actions: seq<Action>, more: seq<Action>)
    ensures
      var s, u := Reached(cfg, actions), Reached(cfg, actions + more);
      && UniqueRefs(s.tables.ledger)
      && s.tables.ledger <= u.tables.ledger && Grows(s.tables, u.tables)
      && (forall i :: 0 <= i < |s.tables.ledger| && s.tables.ledger[i].direction == Credit ==>
            var e := s.tables.ledger[i];
            && e.payment < |s.tables.payments| && e.amount == s.tables.payments[e.payment].amount
            && exists row :: Supports(s.tables, row, e.payment, e.ref))
  {
    ReachedInv(cfg, actions);
    RunSplit(Initial(cfg), actions, more);
    RunGrows(Reached(cfg, actions), more);
  }

  lemma GrowsOn(t: Tables, u: Tables, v: Tables)
    requires Grows(t, u) && Grows(u, v)
    ensures Grows(t, v)
  {
  }

  lemma {:induction false} RunGrows(s: State, actions: seq<Action>)
    requires Shaped(s)
    ensures Grows(s.tables, Run(s, actions).tables)
    decreases |actions|
  {
    if actions != [] {
      ApplyGrows(s, actions[0]);
      RunGrows(Apply(s, actions[0]), actions[1..]);
      GrowsOn(s.tables, Apply(s, actions[0]).tables, Run(s, actions).tables);
    }
  }

  lemma CreationGrows(s: State, payment: Payment, number: string)
    requires Shaped(s)
    ensures Shaped(Apply(s, CreatePayment(payment, number)))
    ensures Grows(s.tables, Apply(s, CreatePayment(payment, number)).tables)
  {
    CreationShaped(s, payment, number);
  }

  lemma WorkerActionGrows(s: State, w: nat, o: Outcome)
    requires Shaped(s)
    ensures Shaped(Apply(s, StepWorker(w, o))) && Grows(s.tables, Apply(s, StepWorker(w, o)).tables)
  {
    WorkerApplies(s, w, o);
    if w in s.workers { WorkerShaped(s, w, o); }
  }

  lemma RefundActionGrows(s: State, p: nat, o: Outcome)
    requires Shaped(s)
    ensures Shaped(Apply(s, StepRefund(p, o))) && Grows(s.tables, Apply(s, StepRefund(p, o)).tables)
  {
    RefundApplies(s, p, o);
    if p in s.calls { RefundShaped(s, p, o); }
  }

  lemma InvoiceActionGrows(s: State, j: nat, o: Outcome)
    requires Shaped(s)
    ensures Shaped(Apply(s, StepInvoice(j, o))) && Grows(s.tables, Apply(s, StepInvoice(j, o)).tables)
  {
    InvoiceApplies(s, j, o);
    if j in s.jobs {
      InvoiceSideline(s, j, o);
      SidelineShaped(s, InvoiceStep(s, j, o));
    }
  }

  lemma OtherGrows(s: State, a: Action)
    requires Shaped(s) && !a.CreatePayment? && !a.StepWorker? && !a.StepRefund? && !a.StepInvoice?
    ensures Shaped(Apply(s, a)) && Grows(s.tables, Apply(s, a).tables)
  {
    OtherSideline(s, a);
    SidelineShaped(s, Apply(s, a));
  }

  /** Rows are never removed, the ledger and the refund table are only appended to, and of a stored
      payment or event nothing but its status (and an event's attempt count) ever changes. */
  lemma ApplyGrows(s: State, a: Action)
    requires Shaped(s)
    ensures Shaped(Apply(s, a)) && Grows(s.tables, Apply(s, a).tables)
  {
    match a
    case CreatePayment(payment, number) => CreationGrows(s, payment, number);
    case StepWorker(w, o) => WorkerActionGrows(s, w, o);
    case StepRefund(p, o) => RefundActionGrows(s, p, o);
    case StepInvoice(j, o) => InvoiceActionGrows(s, j, o);
    case _ => OtherGrows(s, a);
  }

  // ---------------------------------------------------------------- lifecycle

  /** A payment with a ledger entry, a refund or an invoice is neither PENDING nor FAILED, so a failed
      payment is never credited; and no payment changes status more than three times. */
  lemma LifecycleHolds(cfg: Config, actions: seq<Action>)
    ensures
      var s := Reached(cfg, actions);
      && (forall i :: 0 <= i < |s.tables.ledger| ==>
            var p := s.tables.ledger[i].payment; p < |s.tables.payments| && Settled(s.tables.payments[p].status))
      && (forall i :: 0 <= i < |s.tables.refunds| ==>
            var p := s.tables.refunds[i].payment; p < |s.tables.payments| && Settled(s.tables.payments[p].status))
      && (forall p :: p in s.tables.invoices ==> p < |s.tables.payments| && Settled(s.tables.payments[p].status))
      && s.tables.published <= s.tables.invoices
      && |s.history.changes| == |s.tables.payments|
      && (forall p :: 0 <= p < |s.tables.payments| ==>
            s.history.changes[p] <= Rank(s.tables.payments[p].status) <= 3)
  {
    ReachedInv(cfg, actions);
  }

  /** The order follows the payment: it shows the image of some status the payment has had, and of the
      present one unless a transition's two writes were separated or the second is still to come. */
  lemma OrderFollowsPayment(cfg: Config, actions: seq<Action>, p: nat)
    requires p < |Reached(cfg, actions).tables.payments|
    ensures
      var s := Reached(cfg, actions);
      && |s.tables.orders| == |s.history.held| == |s.tables.payments|
      && s.tables.payments[p].status in s.history.held[p]
      && (exists status :: status in s.history.held[p] && s.tables.orders[p].status == Image(status))
      && (p !in s.history.torn && p !in s.history.unsynced ==>
            s.tables.orders[p].status == Image(s.tables.payments[p].status))
  {
    ReachedInv(cfg, actions);
    assert FollowsAt(Reached(cfg, actions).tables, Reached(cfg, actions).history, p);
  }

  // ---------------------------------------------------------------- refunds

  /** Refund conservation under failures and crashes anywhere: debits within SUCCEEDED refunds within the
      payment amount; REFUNDED means all of it; the gateway never sets aside more than the payment; and
      the refunds are within what it set aside if every record is for what its row states. */
  lemma RefundConservation(cfg: Config, actions: seq<Action>, p: nat)
    requires p < |Reached(cfg, actions).tables.payments|
    ensures
      var t := Reached(cfg, actions).tables;
      var amount := t.payments[p].amount;
      && Sum(t.ledger, p, Debit) <= TotalRefunded(t.refunds, p) <= amount
      && (t.payments[p].status == Refunded ==> TotalRefunded(t.refunds, p) == amount)
      && R.Held(t.gateway, p) <= amount
      && (AllExact(t.gateway, p, amount) ==>
            TotalRefunded(t.refunds, p) <= RowsSum(t.refunds, p) <= R.Held(t.gateway, p))
  {
    ReachedInv(cfg, actions);
    var s := Reached(cfg, actions);
    var t := s.tables;
    assert MoneyAt(cfg, t, CallOf(s, p), s.history, p);
    if AllExact(t.gateway, p, t.payments[p].amount) {
      SucceededWithinRows(t.refunds, p);
      forall i | 0 <= i < |t.refunds| ensures BackedIn(t.gateway, t.payments, t.refunds[i]) {
        assert RowBacked(t, t.refunds[i]);
      }
      RowsWithinGateway(t.refunds, t.gateway, t.payments, p);
    }
  }

  /** With no refund call of the payment cut off and none in progress, debits equal the SUCCEEDED
      refunds; with whole-paise amounts as well, the payment's status says exactly how much was
      refunded: nothing, a part, or all. */
  lemma RefundsExactly(cfg: Config, actions: seq<Action>, p: nat)
    requires cfg.ledgerEnabled
    requires var s := Reached(cfg, actions);
             p < |s.tables.payments| && p !in s.history.cut && p !in s.calls
    ensures
      var s := Reached(cfg, actions);
      var total := TotalRefunded(s.tables.refunds, p);
      var amount, status := s.tables.payments[p].amount, s.tables.payments[p].status;
      && Sum(s.tables.ledger, p, Debit) == total
      && (p !in s.history.fractional ==>
            && (status == Refunded <==> total == amount)
            && (status == PartiallyRefunded <==> 0 < total < amount)
            && (status in {Pending, Success, Failed} <==> total == 0))
  {
    ReachedInv(cfg, actions);
    var s := Reached(cfg, actions);
    assert MoneyAt(cfg, s.tables, CallOf(s, p), s.history, p);
  }

  /** A refund call that reaches its transition is never refused there, even after cut-off calls. */
  lemma RefundTransitionNeverRefused(cfg: Config, actions: seq<Action>, p: nat, hint: nat)
    requires p in Reached(cfg, actions).calls && Reached(cfg, actions).calls[p].at.Moving?
    ensures
      var s := Reached(cfg, actions);
      && R.InRange(s.tables, s.calls[p]) && s.calls[p].payment == p
      && R.Advance(cfg, s.tables, s.calls[p], Fine(hint)).tables.payments[p].status == R.Goal(s.calls[p].at.isFull)
      && (var next := R.Advance(cfg, s.tables, s.calls[p], Fine(hint)).next; next.Stop? ==> next.result.Created?)
  {
    ReachedInv(cfg, actions);
    var s := Reached(cfg, actions);
    RefundTransitionLegal(s, p);
  }

  lemma ExtraCredits(amount: nat, n: nat)
    requires amount > 0
    ensures amount * n - amount == amount * (n - 1)
    ensures amount * (n - 1) == 0 <==> n == 1
  {
  }

  /** The two notions of what remains: the ledger's balance, and the amount less the SUCCEEDED refunds
      that the refund guard uses. They differ by one payment amount per missing or extra credit, so they
      agree exactly when the payment has one credit, and then neither is negative. */
  lemma RemainingAgrees(cfg: Config, actions: seq<Action>, p: nat)
    requires cfg.ledgerEnabled
    requires var s := Reached(cfg, actions);
             p < |s.tables.payments| && p !in s.history.cut && p !in s.calls
    ensures
      var s := Reached(cfg, actions);
      var amount := s.tables.payments[p].amount;
      var inLedger := Sum(s.tables.ledger, p, Credit) - Sum(s.tables.ledger, p, Debit);
      var inGuard := amount - TotalRefunded(s.tables.refunds, p);
      && inLedger - inGuard == amount * (|CreditsOf(s.history.credited, p)| - 1)
      && (inLedger == inGuard <==> |CreditsOf(s.history.credited, p)| == 1)
      && inGuard >= 0
  {
    CreditCount(cfg, actions, p);
    RefundsExactly(cfg, actions, p);
    RefundConservation(cfg, actions, p);
    var s := Reached(cfg, actions);
    var amount, n := s.tables.payments[p].amount, |CreditsOf(s.history.credited, p)|;
    ReachedInv(cfg, actions);
    assert amount > 0;
    ExtraCredits(amount, n);
  }

  // ---------------------------------------------------------------- a credit can be lost

  lemma {:induction false} TooLateForever(s: State, more: seq<Action>, p: nat)
    requires Inv(s) && TooLate(s, p)
    ensures Sum(Run(s, more).tables.ledger, p, Credit) == Sum(s.tables.ledger, p, Credit)
    decreases |more|
  {
    if more != [] {
      ApplyTooLate(s, more[0], p);
      ApplyInv(s, more[0]);
      TooLateForever(Apply(s, more[0]), more[1..], p);
    }
  }

  /** A worker that dies between its transition and its credit leaves the credit to a later run; but a
      refund accepted in between moves the payment on, the later runs' transition to SUCCESS is then
      refused, and over every further run of the whole system no credit is ever added. */
  lemma CreditLostForGood(cfg: Config, actions: seq<Action>, more: seq<Action>, p: nat)
    requires Shaped(Reached(cfg, actions)) && TooLate(Reached(cfg, actions), p)
    ensures Sum(Reached(cfg, actions + more).tables.ledger, p, Credit)
            == Sum(Reached(cfg, actions).tables.ledger, p, Credit)
  {
    ReachedInv(cfg, actions);
    RunSplit(Initial(cfg), actions, more);
    TooLateForever(Reached(cfg, actions), more, p);
  }
}
