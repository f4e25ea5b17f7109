/** Conservation of refunds: debits, SUCCEEDED refunds, the payment amount and the payment status,
    with failures and crashes anywhere and everything else interleaved. */
module RefundSafety {
  import opened Domain
  import opened Ledger
  import opened Store
  import opened Rounding
  import opened System
  import opened Shape
  import opened LifecycleSafety
  import W = Worker
  import R = Refunds

  /** The status the sum of the SUCCEEDED refunds determines, for a payment that was confirmed. */
  predicate StatusSays(status: PaymentStatus, total: nat, amount: nat) {
    match status
    case PartiallyRefunded => 0 < total < amount
    case Refunded => total == amount
    case _ => total == 0
  }

  function CallOf(s: State, p: nat): Option<R.Run> {
    if p in s.calls then Some(s.calls[p]) else None
  }

  /** The row a call has inserted and not yet debited. */
  predicate HasRow(t: Tables, k: R.Run) {
    AfterInsert(k) && k.at.refund < |t.refunds|
  }

  function Due(t: Tables, call: Option<R.Run>): nat {
    if call.Some? && HasRow(t, call.value) then t.refunds[call.value.at.refund].amount else 0
  }

  ghost predicate CallMoney(t: Tables, k: R.Run, h: History)
    requires k.payment < |t.payments| && R.InRange(t, k)
  {
    var amount, now := t.payments[k.payment].amount, TotalRefunded(t.refunds, k.payment);
    && (match k.at
        case Opening => true
        case Totalling => true
        case Retrieving(asked, total) => total == now && asked <= amount as real - total as real
        case Paying(asked, total) => total == now && asked <= amount as real - total as real
        case Saving(asked, total, _, _, _) => total == now && asked <= amount as real - total as real
        case Moving(r, isFull) =>
          && (isFull ==> now == amount)
          && (!isFull && k.payment !in h.fractional ==> 0 < now < amount)
        case Rereading(_) => false
        case _ => true)
    && (HasRow(t, k) ==>
          && t.refunds[k.at.refund].payment == k.payment
          && !Has(t.ledger, DebitRef(t.payments[k.payment], t.refunds[k.at.refund])))
  }

  ghost predicate MoneyAt(cfg: Config, t: Tables, call: Option<R.Run>, h: History, p: nat)
    requires p < |t.payments|
    requires call.Some? ==> call.value.payment == p && R.InRange(t, call.value)
  {
    var amount, total, status := t.payments[p].amount, TotalRefunded(t.refunds, p), t.payments[p].status;
    && total <= amount
    && Sum(t.ledger, p, Debit) + Due(t, call) <= total
    && (p !in h.cut && cfg.ledgerEnabled ==> Sum(t.ledger, p, Debit) + Due(t, call) == total)
    && (status == Refunded ==> total == amount)
    && (p !in h.cut && p !in h.fractional && !(call.Some? && call.value.at.Moving?) ==>
          StatusSays(status, total, amount))
    && (call.Some? ==> CallMoney(t, call.value, h))
  }

  /** Refund rows have distinct identifiers, on both sides, and debits belong to rows. */
  ghost predicate RefundIds(t: Tables) {
    && (forall i, j :: 0 <= i < j < |t.refunds| ==>
          t.refunds[i].id != t.refunds[j].id && t.refunds[i].gatewayRefundId != t.refunds[j].gatewayRefundId)
    && (forall i :: 0 <= i < |t.ledger| ==> (t.ledger[i].direction == Debit <==> t.ledger[i].ref.kind == RefundKind))
    && (forall i :: 0 <= i < |t.ledger| && t.ledger[i].direction == Debit ==>
          exists r :: 0 <= r < |t.refunds| && t.refunds[r].id == t.ledger[i].ref.identifier)
  }

  ghost predicate RefundMoney(s: State)
    requires Shaped(s)
  {
    && RefundIds(s.tables)
    && (forall p :: 0 <= p < |s.tables.payments| ==> MoneyAt(s.cfg, s.tables, CallOf(s, p), s.history, p))
  }

  // ---------------------------------------------------------------- what leaves a payment's money alone

  /** At most one refund of another payment more. */
  predicate RefundsElsewhere(refunds: seq<Refund>, refunds': seq<Refund>, p: nat) {
    refunds' == refunds
    || (|refunds'| > 0 && refunds' == refunds + [refunds'[|refunds'| - 1]] && refunds'[|refunds'| - 1].payment != p)
  }

  /** At most one entry more, of another payment or a credit, and not under `due`. */
  predicate EntriesElsewhere(ledger: seq<Entry>, ledger': seq<Entry>, p: nat, due: Option<Ref>) {
    ledger' == ledger
    || (|ledger'| > 0 && ledger' == ledger + [ledger'[|ledger'| - 1]]
        && (ledger'[|ledger'| - 1].payment != p || ledger'[|ledger'| - 1].direction == Credit)
        && due != Some(ledger'[|ledger'| - 1].ref))
  }

  /** The reference of the debit a call still owes. */
  function DueRef(t: Tables, call: Option<R.Run>): Option<Ref>
    requires call.Some? ==> call.value.payment < |t.payments|
  {
    if call.Some? && HasRow(t, call.value)
    then Some(DebitRef(t.payments[call.value.payment], t.refunds[call.value.at.refund])) else None
  }

  lemma SameTotals(t: Tables, t': Tables, call: Option<R.Run>, p: nat)
    requires RefundsElsewhere(t.refunds, t'.refunds, p)
    requires call.Some? ==> R.InRange(t, call.value)
    ensures TotalRefunded(t'.refunds, p) == TotalRefunded(t.refunds, p)
    ensures Due(t', call) == Due(t, call)
    ensures call.Some? && HasRow(t', call.value) ==>
              HasRow(t, call.value) && t'.refunds[call.value.at.refund] == t.refunds[call.value.at.refund]
  {
    if t'.refunds != t.refunds { TotalRefundedAppend(t.refunds, t'.refunds[|t'.refunds| - 1], p); }
  }

  lemma SameDebits(ledger: seq<Entry>, ledger': seq<Entry>, p: nat, due: Option<Ref>)
    requires EntriesElsewhere(ledger, ledger', p, due)
    ensures Sum(ledger', p, Debit) == Sum(ledger, p, Debit)
    ensures due.Some? && !Has(ledger, due.value) ==> !Has(ledger', due.value)
  {
    if ledger' != ledger { SumAppend(ledger, ledger'[|ledger'| - 1], p, Debit); }
  }

  lemma FrameMoney(cfg: Config, t: Tables, t': Tables, call: Option<R.Run>, h: History, h': History, p: nat)
    requires p < |t.payments| && p < |t'.payments|
    requires call.Some? ==> call.value.payment == p && R.InRange(t, call.value) && R.InRange(t', call.value)
    requires MoneyAt(cfg, t, call, h, p)
    requires t'.payments[p] == t.payments[p].(status := t'.payments[p].status)
    requires t'.payments[p].status == t.payments[p].status
             || (t.payments[p].status == Pending && t'.payments[p].status in {Success, Failed})
    requires RefundsElsewhere(t.refunds, t'.refunds, p)
    requires EntriesElsewhere(t.ledger, t'.ledger, p, DueRef(t, call))
    requires (p in h.cut ==> p in h'.cut) && (p in h.fractional ==> p in h'.fractional)
    ensures MoneyAt(cfg, t', call, h', p)
  {
    SameTotals(t, t', call, p);
    SameDebits(t.ledger, t'.ledger, p, DueRef(t, call));
  }

  // ---------------------------------------------------------------- worker steps

  lemma WorkerMoneyAt(cfg: Config, t: Tables, k: W.Run, o: Outcome, call: Option<R.Run>, h: History, h': History,
                      p: nat)
    requires W.InRange(t, k) && p < |t.payments|
    requires call.Some? ==> call.value.payment == p && R.InRange(t, call.value)
    requires call.Some? ==> R.InRange(W.Advance(cfg, t, k, o).tables, call.value)
    requires MoneyAt(cfg, t, call, h, p) && h'.cut == h.cut && h'.fractional == h.fractional
    ensures MoneyAt(cfg, W.Advance(cfg, t, k, o).tables, call, h', p)
  {
    WorkerWrites(cfg, t, k, o);
    FrameMoney(cfg, t, W.Advance(cfg, t, k, o).tables, call, h, h', p);
  }

  /** A credit more, or nothing. */
  lemma CreditAddsNoDebit(t: Tables, t': Tables)
    requires RefundIds(t) && t'.refunds == t.refunds
    requires t'.ledger == t.ledger
             || (|t'.ledger| == |t.ledger| + 1 && t'.ledger[..|t.ledger|] == t.ledger
                 && t'.ledger[|t.ledger|].direction == Credit && t'.ledger[|t.ledger|].ref.kind == PaymentKind)
    ensures RefundIds(t')
  {
    forall i | 0 <= i < |t'.ledger| && t'.ledger[i].direction == Debit
      ensures exists r :: 0 <= r < |t'.refunds| && t'.refunds[r].id == t'.ledger[i].ref.identifier
    {
      assert t'.ledger[i] == t.ledger[i];
    }
  }

  lemma WorkerMoneyOf(s: State, w: nat, o: Outcome, p: nat)
    requires Shaped(s) && RefundMoney(s) && w in s.workers && Shaped(WorkerStep(s, w, o)) && p < |s.tables.payments|
    ensures var s' := WorkerStep(s, w, o); MoneyAt(s'.cfg, s'.tables, CallOf(s', p), s'.history, p)
  {
    assert MoneyAt(s.cfg, s.tables, CallOf(s, p), s.history, p);
    WorkerMoneyAt(s.cfg, s.tables, s.workers[w], o, CallOf(s, p), s.history, WorkerStep(s, w, o).history, p);
  }

  lemma WorkerMoney(s: State, w: nat, o: Outcome)
    requires Shaped(s) && RefundMoney(s) && w in s.workers && Shaped(WorkerStep(s, w, o))
    ensures RefundMoney(WorkerStep(s, w, o))
  {
    var s' := WorkerStep(s, w, o);
    WorkerWrites(s.cfg, s.tables, s.workers[w], o);
    CreditAddsNoDebit(s.tables, s'.tables);
    forall p | 0 <= p < |s'.tables.payments| ensures MoneyAt(s'.cfg, s'.tables, CallOf(s', p), s'.history, p) {
      WorkerMoneyOf(s, w, o, p);
    }
  }

  // ---------------------------------------------------------------- a refund call's own steps

  /** Up to the insert nothing is written but the gateway's record. */
  lemma BeforeInsert(cfg: Config, t: Tables, k: R.Run, o: Outcome, h: History)
    requires R.InRange(t, k) && k.payment < |t.payments| && MoneyAt(cfg, t, Some(k), h, k.payment)
    requires !k.at.Saving? && !AfterInsert(k)
    ensures
      var turn := R.Advance(cfg, t, k, o);
      && turn.tables == t.(gateway := turn.tables.gateway)
      && MoneyAt(cfg, turn.tables, if turn.next.Go? then Some(turn.next.run) else None, h, k.payment)
  {
  }

  /** The identifier of a new row is in no debit yet. */
  lemma NewRowUndebited(t: Tables, payment: Payment, row: Refund)
    requires RefundIds(t) && R.Fresh(t.refunds, row.id, row.gatewayRefundId)
    ensures !Has(t.ledger, DebitRef(payment, row))
  {
  }

  lemma InsertArithmetic(asked: real, total: nat, amount: nat)
    requires 0.0 < asked <= amount as real - total as real
    ensures 0 <= HalfUp(asked) && total + HalfUp(asked) <= amount
    ensures total as real + asked >= amount as real ==> total + HalfUp(asked) == amount
    ensures total as real + asked < amount as real && Whole(asked) ==> 0 < total + HalfUp(asked) < amount
  {
  }

  lemma NotInserting(cfg: Config, t: Tables, k: R.Run, o: Outcome, h: History)
    requires R.InRange(t, k) && k.payment < |t.payments| && |h.held| == |h.changes| == |t.payments|
    requires MoneyAt(cfg, t, Some(k), h, k.payment) && k.at.Saving?
    requires !o.Inserted? || !R.Fresh(t.refunds, o.id, k.at.gatewayRefundId)
    ensures
      var turn := R.Advance(cfg, t, k, o);
      && turn.tables == t && AfterRefund(h, t, k, turn) == h
      && MoneyAt(cfg, t, if turn.next.Go? then Some(turn.next.run) else None, h, k.payment)
  {
  }

  /** What the insert leaves to the call. */
  function Inserted(t: Tables, k: R.Run): Option<R.Run>
    requires k.at.Saving? && k.payment < |t.payments|
  {
    if k.at.status != RefundSucceeded then None
    else Some(k.(at := R.Moving(|t.refunds|, k.at.total as real + k.at.asked >= t.payments[k.payment].amount as real)))
  }

  lemma InsertStep(cfg: Config, t: Tables, k: R.Run, o: Outcome, h: History)
    requires R.InRange(t, k) && k.payment < |t.payments| && |h.held| == |h.changes| == |t.payments|
    requires k.at.Saving? && o.Inserted? && R.Fresh(t.refunds, o.id, k.at.gatewayRefundId)
    ensures
      var turn := R.Advance(cfg, t, k, o);
      var row := Refund(o.id, k.at.gatewayRefundId, k.payment, HalfUp(k.at.asked), k.at.status);
      var h' := AfterRefund(h, t, k, turn);
      && turn.tables == t.(refunds := t.refunds + [row])
      && (if turn.next.Go? then Some(turn.next.run) else None) == Inserted(t, k)
      && h'.cut == h.cut && (k.payment in h'.fractional <==> k.payment in h.fractional || !Whole(k.at.asked))
  {
  }

  lemma InsertMoney(cfg: Config, t: Tables, k: R.Run, row: Refund, h: History, h': History)
    requires R.InRange(t, k) && k.payment < |t.payments| && k.at.Saving? && RefundIds(t)
    requires MoneyAt(cfg, t, Some(k), h, k.payment)
    requires R.Fresh(t.refunds, row.id, row.gatewayRefundId)
    requires row == Refund(row.id, k.at.gatewayRefundId, k.payment, HalfUp(k.at.asked), k.at.status)
    requires h'.cut == h.cut && (k.payment in h'.fractional <==> k.payment in h.fractional || !Whole(k.at.asked))
    ensures MoneyAt(cfg, t.(refunds := t.refunds + [row]), Inserted(t, k), h', k.payment)
  {
    InsertArithmetic(k.at.asked, k.at.total, t.payments[k.payment].amount);
    TotalRefundedAppend(t.refunds, row, k.payment);
    NewRowUndebited(t, t.payments[k.payment], row);
    var t' := t.(refunds := t.refunds + [row]);
    assert t'.refunds[|t.refunds|] == row;
    assert Due(t', Inserted(t, k)) == if k.at.status == RefundSucceeded then row.amount else 0;
    assert Due(t, Some(k)) == 0;
  }

  lemma Inserting(cfg: Config, t: Tables, k: R.Run, o: Outcome, h: History, h': History)
    requires R.InRange(t, k) && k.payment < |t.payments| && |h.held| == |h.changes| == |t.payments|
    requires MoneyAt(cfg, t, Some(k), h, k.payment) && k.at.Saving? && RefundIds(t)
    requires h' == AfterRefund(h, t, k, R.Advance(cfg, t, k, o))
    ensures
      var turn := R.Advance(cfg, t, k, o);
      MoneyAt(cfg, turn.tables, if turn.next.Go? then Some(turn.next.run) else None, h', k.payment)
  {
    if o.Inserted? && R.Fresh(t.refunds, o.id, k.at.gatewayRefundId) {
      var row := Refund(o.id, k.at.gatewayRefundId, k.payment, HalfUp(k.at.asked), k.at.status);
      InsertStep(cfg, t, k, o, h);
      InsertMoney(cfg, t, k, row, h, h');
    } else {
      NotInserting(cfg, t, k, o, h);
    }
  }

  /** The transition: cut off by a failure, and otherwise the goal is the status and the debit is next. */
  lemma MoveStep(cfg: Config, t: Tables, k: R.Run, o: Outcome, h: History)
    requires R.InRange(t, k) && k.payment < |t.payments| && |h.held| == |h.changes| == |t.payments|
    requires CallSettled(t, k) && k.at.Moving?
    ensures
      var turn := R.Advance(cfg, t, k, o);
      var h', goal, u := AfterRefund(h, t, k, turn), R.Goal(k.at.isFull), turn.tables;
      && |u.payments| == |t.payments| && u == t.(payments := u.payments)
      && u.payments[k.payment] == t.payments[k.payment].(status := u.payments[k.payment].status)
      && h'.fractional == h.fractional
      && (if o.Fault? then u == t && turn.next.Stop? && h'.cut == h.cut + {k.payment}
          else
            && h'.cut == h.cut && u.payments[k.payment].status == goal
            && (turn.next.Stop? ==> !cfg.ledgerEnabled)
            && (turn.next.Go? ==>
                  && turn.next.run.payment == k.payment && turn.next.run.at.refund == k.at.refund
                  && (turn.next.run.at.Syncing? || turn.next.run.at.Seeking?)))
  {
  }

  /** The status catches up with the sum. */
  lemma MovingMoney(cfg: Config, t: Tables, k: R.Run, o: Outcome, h: History, h': History)
    requires R.InRange(t, k) && k.payment < |t.payments| && |h.held| == |h.changes| == |t.payments|
    requires MoneyAt(cfg, t, Some(k), h, k.payment) && CallSettled(t, k) && k.at.Moving?
    requires h' == AfterRefund(h, t, k, R.Advance(cfg, t, k, o))
    ensures
      var turn := R.Advance(cfg, t, k, o);
      MoneyAt(cfg, turn.tables, if turn.next.Go? then Some(turn.next.run) else None, h', k.payment)
  {
    MoveStep(cfg, t, k, o, h);
  }

  lemma SyncingMoney(cfg: Config, t: Tables, k: R.Run, o: Outcome, h: History, h': History)
    requires R.InRange(t, k) && k.payment < |t.payments| && |h.held| == |h.changes| == |t.payments|
    requires MoneyAt(cfg, t, Some(k), h, k.payment) && k.at.Syncing?
    requires h' == AfterRefund(h, t, k, R.Advance(cfg, t, k, o))
    ensures
      var turn := R.Advance(cfg, t, k, o);
      MoneyAt(cfg, turn.tables, if turn.next.Go? then Some(turn.next.run) else None, h', k.payment)
  {
  }

  lemma SeekingMoney(cfg: Config, t: Tables, k: R.Run, o: Outcome, h: History, h': History)
    requires R.InRange(t, k) && k.payment < |t.payments| && |h.held| == |h.changes| == |t.payments|
    requires MoneyAt(cfg, t, Some(k), h, k.payment) && k.at.Seeking?
    requires h' == AfterRefund(h, t, k, R.Advance(cfg, t, k, o))
    ensures
      var turn := R.Advance(cfg, t, k, o);
      MoneyAt(cfg, turn.tables, if turn.next.Go? then Some(turn.next.run) else None, h', k.payment)
  {
  }

  /** The debit: nothing on a failure, and otherwise appended, since it is not in the ledger yet. */
  lemma DebitStep(cfg: Config, t: Tables, k: R.Run, o: Outcome, h: History)
    requires R.InRange(t, k) && k.payment < |t.payments| && |h.held| == |h.changes| == |t.payments|
    requires k.at.Debiting? && !Has(t.ledger, DebitRef(t.payments[k.payment], t.refunds[k.at.refund]))
    ensures
      var turn := R.Advance(cfg, t, k, o);
      var h' := AfterRefund(h, t, k, turn);
      var e := DebitEntry(t.payments, k.payment, t.refunds[k.at.refund], !k.at.isFull);
      && turn.next.Stop?
      && (if o.Fault? then turn.tables == t && h' == h.(cut := h.cut + {k.payment})
          else turn.tables == t.(ledger := t.ledger + [e]) && h' == h)
  {
  }

  /** It catches up with the sum. */
  lemma DebitMoney(cfg: Config, t: Tables, k: R.Run, h: History, e: Entry)
    requires R.InRange(t, k) && k.payment < |t.payments| && k.at.Debiting?
    requires MoneyAt(cfg, t, Some(k), h, k.payment)
    requires e.payment == k.payment && e.direction == Debit && e.amount == t.refunds[k.at.refund].amount
    ensures MoneyAt(cfg, t.(ledger := t.ledger + [e]), None, h, k.payment)
  {
    SumAppend(t.ledger, e, k.payment, Debit);
  }

  lemma DebitingMoney(cfg: Config, t: Tables, k: R.Run, o: Outcome, h: History, h': History)
    requires R.InRange(t, k) && k.payment < |t.payments| && |h.held| == |h.changes| == |t.payments|
    requires MoneyAt(cfg, t, Some(k), h, k.payment) && k.at.Debiting?
    requires h' == AfterRefund(h, t, k, R.Advance(cfg, t, k, o))
    ensures
      var turn := R.Advance(cfg, t, k, o);
      MoneyAt(cfg, turn.tables, if turn.next.Go? then Some(turn.next.run) else None, h', k.payment)
  {
    DebitStep(cfg, t, k, o, h);
    DebitMoney(cfg, t, k, h, DebitEntry(t.payments, k.payment, t.refunds[k.at.refund], !k.at.isFull));
  }

  lemma RefundIdsKept(cfg: Config, t: Tables, k: R.Run, o: Outcome)
    requires R.InRange(t, k) && RefundIds(t)
    ensures RefundIds(R.Advance(cfg, t, k, o).tables)
  {
    var t' := R.Advance(cfg, t, k, o).tables;
    assert |t'.refunds| >= |t.refunds| && forall r :: 0 <= r < |t.refunds| ==> t'.refunds[r] == t.refunds[r];
    forall i | 0 <= i < |t'.ledger| && t'.ledger[i].direction == Debit
      ensures exists r :: 0 <= r < |t'.refunds| && t'.refunds[r].id == t'.ledger[i].ref.identifier
    {
      if i < |t.ledger| {
        assert t'.ledger[i] == t.ledger[i];
        var r :| 0 <= r < |t.refunds| && t.refunds[r].id == t.ledger[i].ref.identifier;
        assert t'.refunds[r].id == t'.ledger[i].ref.identifier;
      } else {
        assert t'.refunds[k.at.refund].id == t'.ledger[i].ref.identifier;
      }
    }
  }

  lemma OwnMoney(s: State, p: nat, o: Outcome)
    requires Shaped(s) && Lifecycle(s) && RefundMoney(s) && p in s.calls && Shaped(RefundStep(s, p, o))
    requires p < |s.tables.payments|
    ensures var s' := RefundStep(s, p, o); MoneyAt(s'.cfg, s'.tables, CallOf(s', p), s'.history, p)
  {
    var k, t, s' := s.calls[p], s.tables, RefundStep(s, p, o);
    assert MoneyAt(s.cfg, t, CallOf(s, p), s.history, p);
    assert CallSettled(t, k);
    if k.at.Saving? {
      Inserting(s.cfg, t, k, o, s.history, s'.history);
    } else if k.at.Moving? {
      MovingMoney(s.cfg, t, k, o, s.history, s'.history);
    } else if k.at.Syncing? {
      SyncingMoney(s.cfg, t, k, o, s.history, s'.history);
    } else if k.at.Seeking? {
      SeekingMoney(s.cfg, t, k, o, s.history, s'.history);
    } else if k.at.Debiting? {
      DebitingMoney(s.cfg, t, k, o, s.history, s'.history);
    } else {
      BeforeInsert(s.cfg, t, k, o, s.history);
      assert s'.history == s.history;
    }
  }

  /** What a call on `p` writes, seen from another payment. */
  lemma RefundWritesOwn(cfg: Config, t: Tables, k: R.Run, o: Outcome)
    requires R.InRange(t, k)
    ensures
      var t' := R.Advance(cfg, t, k, o).tables;
      && (t'.refunds == t.refunds
          || (k.payment < |t.payments| && |t'.refunds| == |t.refunds| + 1 && t'.refunds[..|t.refunds|] == t.refunds
              && t'.refunds[|t.refunds|].payment == k.payment))
      && (t'.ledger == t.ledger
          || (AfterInsert(k) && |t'.ledger| == |t.ledger| + 1 && t'.ledger[..|t.ledger|] == t.ledger
              && t'.ledger[|t.ledger|].payment == k.payment
              && t'.ledger[|t.ledger|].ref == DebitRef(t.payments[k.payment], t.refunds[k.at.refund])))
  {
  }

  /** A call writes nothing that another payment's money depends on. */
  lemma OthersFramed(cfg: Config, t: Tables, k: R.Run, o: Outcome, call: Option<R.Run>, h: History, h': History, q: nat)
    requires R.InRange(t, k) && CallSettled(t, k) && RefundIds(t)
    requires q < |t.payments| && q != k.payment
    requires AfterInsert(k) ==> t.refunds[k.at.refund].payment == k.payment
    requires call.Some? ==> call.value.payment == q && R.InRange(t, call.value)
    requires call.Some? ==> R.InRange(R.Advance(cfg, t, k, o).tables, call.value)
    requires MoneyAt(cfg, t, call, h, q)
    requires (q in h.cut ==> q in h'.cut) && (q in h.fractional ==> q in h'.fractional)
    ensures MoneyAt(cfg, R.Advance(cfg, t, k, o).tables, call, h', q)
  {
    var t' := R.Advance(cfg, t, k, o).tables;
    RefundMoves(cfg, t, k, o);
    RefundGrows(cfg, t, k, o);
    RefundWritesOwn(cfg, t, k, o);
    if t'.refunds != t.refunds {
      assert t'.refunds == t.refunds + [t'.refunds[|t.refunds|]];
    }
    if t'.ledger != t.ledger {
      assert t'.ledger == t.ledger + [t'.ledger[|t.ledger|]];
      if call.Some? && HasRow(t, call.value) {
        assert k.at.refund != call.value.at.refund;
        assert t.refunds[k.at.refund].id != t.refunds[call.value.at.refund].id;
      }
    }
    FrameMoney(cfg, t, t', call, h, h', q);
  }

  /** A step of the call on `p`, seen by the history and by the calls on other payments. */
  lemma OthersUntouched(s: State, p: nat, o: Outcome, q: nat)
    requires Aligned(s) && p in s.calls && R.InRange(s.tables, s.calls[p]) && q != p
    ensures
      var s' := RefundStep(s, p, o);
      && CallOf(s', q) == CallOf(s, q) && s'.cfg == s.cfg
      && s.history.cut <= s'.history.cut && s.history.fractional <= s'.history.fractional
      && s'.tables == R.Advance(s.cfg, s.tables, s.calls[p], o).tables
  {
  }

  /** What other payments need of a call. */
  lemma CallSound(s: State, p: nat)
    requires Shaped(s) && Lifecycle(s) && RefundMoney(s) && p in s.calls
    ensures CallSettled(s.tables, s.calls[p]) && RefundIds(s.tables)
    ensures AfterInsert(s.calls[p]) ==> s.tables.refunds[s.calls[p].at.refund].payment == p
  {
    if AfterInsert(s.calls[p]) { assert MoneyAt(s.cfg, s.tables, CallOf(s, p), s.history, p); }
  }

  lemma OtherPaymentsMoney(s: State, p: nat, o: Outcome, q: nat)
    requires Shaped(s) && Lifecycle(s) && RefundMoney(s) && p in s.calls && Shaped(RefundStep(s, p, o))
    requires q < |s.tables.payments| && q != p
    ensures var s' := RefundStep(s, p, o); MoneyAt(s'.cfg, s'.tables, CallOf(s', q), s'.history, q)
  {
    var k, s' := s.calls[p], RefundStep(s, p, o);
    CallSound(s, p);
    assert MoneyAt(s.cfg, s.tables, CallOf(s, q), s.history, q);
    OthersUntouched(s, p, o, q);
    OthersFramed(s.cfg, s.tables, k, o, CallOf(s, q), s.history, s'.history, q);
  }

  lemma RefundCallMoney(s: State, p: nat, o: Outcome)
    requires Shaped(s) && Lifecycle(s) && RefundMoney(s) && p in s.calls && Shaped(RefundStep(s, p, o))
    ensures RefundMoney(RefundStep(s, p, o))
  {
    var s' := RefundStep(s, p, o);
    RefundIdsKept(s.cfg, s.tables, s.calls[p], o);
    forall q | 0 <= q < |s'.tables.payments| ensures MoneyAt(s'.cfg, s'.tables, CallOf(s', q), s'.history, q) {
      if q == p { OwnMoney(s, p, o); } else { OtherPaymentsMoney(s, p, o, q); }
    }
  }

  // ---------------------------------------------------------------- the rest

  lemma {:induction false} NoRefunds(refunds: seq<Refund>, p: nat)
    requires forall i :: 0 <= i < |refunds| ==> refunds[i].payment != p
    ensures TotalRefunded(refunds, p) == 0
    decreases |refunds|
  {
    if refunds != [] { NoRefunds(refunds[..|refunds| - 1], p); }
  }

  lemma {:induction false} NoDebits(ledger: seq<Entry>, p: nat)
    requires forall i :: 0 <= i < |ledger| ==> ledger[i].payment != p
    ensures Sum(ledger, p, Debit) == 0
    decreases |ledger|
  {
    if ledger != [] { NoDebits(ledger[..|ledger| - 1], p); }
  }

  lemma CreationMoney(s: State, payment: Payment, orderNumber: string)
    requires Shaped(s) && RefundMoney(s) && payment.status == Pending
    requires Shaped(PaymentCreated(s, payment, orderNumber))
    requires forall q :: q in s.calls && q >= |s.tables.payments| ==> s.calls[q].at.Opening?
    ensures RefundMoney(PaymentCreated(s, payment, orderNumber))
  {
    var s' := PaymentCreated(s, payment, orderNumber);
    forall q | 0 <= q < |s'.tables.payments| ensures MoneyAt(s'.cfg, s'.tables, CallOf(s', q), s'.history, q) {
      if q < |s.tables.payments| {
        assert MoneyAt(s.cfg, s.tables, CallOf(s, q), s.history, q);
        FrameMoney(s.cfg, s.tables, s'.tables, CallOf(s, q), s.history, s'.history, q);
      } else {
        NoRefunds(s.tables.refunds, q);
        NoDebits(s.tables.ledger, q);
      }
    }
  }

  lemma SidelineMoney(s: State, s': State)
    requires Shaped(s) && RefundMoney(s) && Shaped(s') && Sideline(s, s')
    ensures RefundMoney(s')
  {
    forall q | 0 <= q < |s'.tables.payments| ensures MoneyAt(s'.cfg, s'.tables, CallOf(s', q), s'.history, q) {
      assert MoneyAt(s.cfg, s.tables, CallOf(s, q), s.history, q);
      if CallOf(s', q) == CallOf(s, q) {
        FrameMoney(s.cfg, s.tables, s'.tables, CallOf(s, q), s.history, s'.history, q);
      }
    }
  }
}
