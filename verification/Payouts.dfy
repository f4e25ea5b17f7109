/** What a refund row states against what the gateway set aside for it. */
module Payouts {
  import opened Domain
  import opened Store
  import opened Rounding
  import opened RefundSafety
  import opened System
  import opened GatewaySafety
  import opened Conservation
  import opened RefundRecovery
  import opened Simulation
  import opened LostCredit
  import R = Refunds

  // ---------------------------------------------------------------- one refund

  /** No refund of the payment is PENDING in the table. */
  predicate NonePending(t: Tables, p: nat) {
    forall i :: 0 <= i < |t.refunds| ==> !(t.refunds[i].payment == p && t.refunds[i].status == RefundPending)
  }

  /** Every refund the gateway holds money for has its row. */
  predicate NoneRowless(t: Tables, p: nat) {
    forall i :: 0 <= i < |t.gateway| && t.gateway[i].ask.payment == p && R.Counts(t.gateway[i].status) ==>
      RowExists(t.refunds, t.gateway[i].id)
  }

  lemma {:induction false} RowCounts(refunds: seq<Refund>, i: nat, p: nat)
    requires i < |refunds| && refunds[i].payment == p && refunds[i].status == RefundSucceeded
    ensures TotalRefunded(refunds, p) >= refunds[i].amount
    decreases |refunds|
  {
    if i < |refunds| - 1 { RowCounts(refunds[..|refunds| - 1], i, p); }
  }

  /** The two sides of a state, as far as they are needed here. */
  ghost predicate Sides(t: Tables) {
    DistinctRecords(t.gateway) && Within(t) && AllBacked(t)
  }

  /** A counted record with a row, when nothing SUCCEEDED, has a PENDING one. */
  lemma RowOfRecord(t: Tables, p: nat, i: nat)
    requires Sides(t) && p < |t.payments| && TotalRefunded(t.refunds, p) == 0
    requires i < |t.gateway| && t.gateway[i].ask.payment == p && R.Counts(t.gateway[i].status)
    requires RowExists(t.refunds, t.gateway[i].id)
    ensures !NonePending(t, p)
  {
    var g := t.gateway[i];
    var r :| 0 <= r < |t.refunds| && t.refunds[r].gatewayRefundId == g.id;
    var row := t.refunds[r];
    assert RowBacked(t, row);
    var j :| 0 <= j < |t.gateway|
             && Backs(t.gateway[j], t.payments, row.gatewayRefundId, row.payment, row.amount, row.status);
    OneRecord(t.gateway, i, j);
    assert Fits(g, t.payments);
    if row.status == RefundSucceeded { RowCounts(t.refunds, r, p); }
  }

  lemma OneRecord(gateway: seq<GatewayRefund>, i: nat, j: nat)
    requires DistinctRecords(gateway) && i < |gateway| && j < |gateway| && gateway[i].id == gateway[j].id
    ensures i == j
  {
  }

  lemma CountedHolds(t: Tables, p: nat, i: nat)
    requires Within(t) && i < |t.gateway| && t.gateway[i].ask.payment == p && R.Counts(t.gateway[i].status)
    ensures R.Held(t.gateway, p) > 0
  {
    HeldSomething(t.gateway, p, i);
    assert Fits(t.gateway[i], t.payments);
  }

  /** With nothing SUCCEEDED, the gateway holds nothing exactly when no refund is PENDING and none is
      without its row. */
  lemma HeldExactly(t: Tables, p: nat)
    requires Sides(t) && p < |t.payments| && TotalRefunded(t.refunds, p) == 0
    ensures R.Held(t.gateway, p) == 0 <==> NonePending(t, p) && NoneRowless(t, p)
  {
    if NonePending(t, p) && NoneRowless(t, p) {
      forall i | 0 <= i < |t.gateway| ensures t.gateway[i].ask.payment != p || !R.Counts(t.gateway[i].status) {
        if t.gateway[i].ask.payment == p && R.Counts(t.gateway[i].status) { RowOfRecord(t, p, i); }
      }
      HeldNothing(t.gateway, p);
    }
    if R.Held(t.gateway, p) == 0 {
      forall i | 0 <= i < |t.gateway| ensures !(t.gateway[i].ask.payment == p && R.Counts(t.gateway[i].status)) {
        if t.gateway[i].ask.payment == p && R.Counts(t.gateway[i].status) {
          CountedHolds(t, p, i);
        }
      }
      forall r | 0 <= r < |t.refunds|
        ensures !(t.refunds[r].payment == p && t.refunds[r].status == RefundPending)
      {
        assert RowBacked(t, t.refunds[r]);
      }
    }
  }

  lemma ReachedSides(cfg: Config, prior: seq<Action>, p: nat)
    requires p in Reached(cfg, prior).calls && Reached(cfg, prior).calls[p].at.Paying?
    ensures
      var s := Reached(cfg, prior);
      var k := s.calls[p];
      && s.cfg == cfg && p < |s.tables.payments| && k.payment == p && R.InRange(s.tables, k) && Sides(s.tables)
      && k.at.asked <= s.tables.payments[p].amount as real - TotalRefunded(s.tables.refunds, p) as real
  {
    ReachedInv(cfg, prior);
    var s := Reached(cfg, prior);
    assert MoneyAt(cfg, s.tables, CallOf(s, p), s.history, p);
  }

  /** When the gateway accepts a new refund of a call, in any run: what it sets aside is never more than the
      row will state, and equal to it exactly when the amount was sent, or, for a refund of the whole
      payment, which is sent without one, when no refund of the payment is PENDING and the gateway has
      none without its row. */
  lemma PayoutAgreesExactly(cfg: Config, prior: seq<Action>, p: nat, o: Outcome)
    requires
      var s := Reached(cfg, prior);
      && p in s.calls && s.calls[p].at.Paying? && R.InRange(s.tables, s.calls[p])
      && |R.Advance(cfg, s.tables, s.calls[p], o).tables.gateway| > |s.tables.gateway|
    ensures
      var s := Reached(cfg, prior);
      var t, asked := s.tables, s.calls[p].at.asked;
      var g := R.Advance(cfg, t, s.calls[p], o).tables.gateway[|t.gateway|];
      && p < |t.payments| && g.ask.payment == p && 0 < g.paid <= HalfUp(asked)
      && (g.paid == HalfUp(asked) <==>
            asked != t.payments[p].amount as real || (NonePending(t, p) && NoneRowless(t, p)))
  {
    ReachedSides(cfg, prior, p);
    var s := Reached(cfg, prior);
    var t, asked := s.tables, s.calls[p].at.asked;
    RefundRounding(asked, t.payments[p].amount, TotalRefunded(t.refunds, p));
    if asked == t.payments[p].amount as real { HeldExactly(t, p); }
  }

  // ---------------------------------------------------------------- where they differ

  /** After the insert a call leaves refunds and gateway alone. */
  lemma {:induction false} AfterwardsKept(cfg: Config, t: Tables, k: R.Run, script: seq<Outcome>)
    requires R.InRange(t, k) && AfterInsert(k)
    ensures
      var u := R.RunCall(cfg, t, k, script).tables;
      u.refunds == t.refunds && u.gateway == t.gateway
    decreases |script|
  {
    if script != [] {
      var turn := R.Advance(cfg, t, k, script[0]);
      if turn.next.Go? { AfterwardsKept(cfg, turn.tables, turn.next.run, script[1..]); }
    }
  }

  function PartRequest(part: nat): R.Request {
    R.Request(Some(part as real), None, None, true, "REF1")
  }

  function WholeRequest(): R.Request {
    R.Request(None, None, None, true, "REF2")
  }

  function PartRecord(part: nat): GatewayRefund {
    GatewayRefund(Ask(Derived("pi", part as real, None), 0, Some(part), "REF1", None), "re1", RefundPending, part)
  }

  function RestRecord(amount: nat, part: nat): GatewayRefund
    requires part <= amount
  {
    GatewayRefund(Ask(Derived("pi", amount as real, None), 0, None, "REF2", None), "re2", RefundSucceeded,
        amount - part)
  }

  function PartScript(): seq<Outcome> {
    [Fine(0)] + ([Fine(0)] + ([Issued("", "succeeded")] + ([Issued("re1", "pending")] + ([Inserted("ref1")] + []))))
  }

  function WholeScript(rest: seq<Outcome>): seq<Outcome> {
    [Fine(0)] + ([Fine(0)] + ([Issued("", "succeeded")] + ([Issued("re2", "succeeded")] + ([Inserted("ref2")] + rest))))
  }

  /** A part is being refunded: the gateway has set it aside, the row is PENDING. */
  function PartPending(amount: nat, part: nat): Tables {
    Confirmed(amount).(refunds := [Refund("ref1", "re1", 0, part, RefundPending)], gateway := [PartRecord(part)])
  }

  lemma AfterPart(cfg: Config, amount: nat, part: nat)
    requires 0 < part < amount
    ensures R.RunCall(cfg, Confirmed(amount), R.Start(0, PartRequest(part)), PartScript()).tables
        == PartPending(amount, part)
  {
    var t, req, asked := Confirmed(amount), PartRequest(part), part as real;
    assert TotalRefunded(t.refunds, 0) == 0;
    ReachesGateway(cfg, t, 0, req, [Issued("re1", "pending")] + ([Inserted("ref1")] + []));
    assert Lower("pending") == "pending";
    HalfUpOfInt(part);
    assert t.gateway + [PartRecord(part)] == [PartRecord(part)];
    OneStep(cfg, t, R.Run(0, req, R.Paying(asked, 0)), Issued("re1", "pending"), [Inserted("ref1")] + []);
    OneStep(cfg, t.(gateway := [PartRecord(part)]), R.Run(0, req, R.Saving(asked, 0, "re1", RefundPending, 0)),
            Inserted("ref1"), []);
  }

  /** The whole payment is refunded on top of that. */
  function WholeSaved(amount: nat, part: nat): Tables
    requires part <= amount
  {
    var t := PartPending(amount, part);
    t.(refunds := t.refunds + [Refund("ref2", "re2", 0, amount, RefundSucceeded)],
       gateway := t.gateway + [RestRecord(amount, part)])
  }

  lemma NothingSucceeded(amount: nat, part: nat)
    requires part < amount
    ensures TotalRefunded(PartPending(amount, part).refunds, 0) == 0
    ensures R.Held(PartPending(amount, part).gateway, 0) == part
  {
    var t := PartPending(amount, part);
    TotalRefundedAppend([], t.refunds[0], 0);
    HeldAppend([], t.gateway[0], 0);
    assert [] + [t.refunds[0]] == t.refunds && [] + [t.gateway[0]] == t.gateway;
  }

  lemma RestGranted(amount: nat, part: nat)
    requires 0 < part < amount
    ensures R.Answer(PartPending(amount, part).gateway, RestRecord(amount, part).ask, amount, "re2", RefundSucceeded)
            == Some(WholeSaved(amount, part).gateway)
  {
    NothingSucceeded(amount, part);
    var gateway, g := PartPending(amount, part).gateway, RestRecord(amount, part);
    assert amount as real != part as real;
    assert R.RecordAt(gateway, g.ask.key) == None by { assert gateway[1..] == []; }
    assert R.Grant(gateway, g.ask, amount) == Some(amount - part);
    assert gateway[0].id != "re2";
  }

  lemma WholePaid(cfg: Config, amount: nat, part: nat, rest: seq<Outcome>)
    requires 0 < part < amount
    ensures
      var t, req := PartPending(amount, part), WholeRequest();
      R.RunCall(cfg, t, R.Start(0, req), WholeScript(rest))
      == R.RunCall(cfg, t.(gateway := WholeSaved(amount, part).gateway),
                   R.Run(0, req, R.Saving(amount as real, 0, "re2", RefundSucceeded, 0)), [Inserted("ref2")] + rest)
  {
    var t, req, asked := PartPending(amount, part), WholeRequest(), amount as real;
    NothingSucceeded(amount, part);
    ReachesGateway(cfg, t, 0, req, [Issued("re2", "succeeded")] + ([Inserted("ref2")] + rest));
    assert Lower("succeeded") == "succeeded";
    RestGranted(amount, part);
    OneStep(cfg, t, R.Run(0, req, R.Paying(asked, 0)), Issued("re2", "succeeded"), [Inserted("ref2")] + rest);
  }

  lemma AfterWhole(cfg: Config, amount: nat, part: nat, rest: seq<Outcome>)
    requires 0 < part < amount
    ensures
      var u := R.RunCall(cfg, PartPending(amount, part), R.Start(0, WholeRequest()), WholeScript(rest)).tables;
      u.refunds == WholeSaved(amount, part).refunds && u.gateway == WholeSaved(amount, part).gateway
  {
    WholePaid(cfg, amount, part, rest);
    HalfUpOfInt(amount);
    var paid := PartPending(amount, part).(gateway := WholeSaved(amount, part).gateway);
    OneStep(cfg, paid, R.Run(0, WholeRequest(), R.Saving(amount as real, 0, "re2", RefundSucceeded, 0)),
            Inserted("ref2"), rest);
    AfterwardsKept(cfg, WholeSaved(amount, part), R.Run(0, WholeRequest(), R.Moving(1, true)), rest);
  }

  function OneRefund(amount: nat, part: nat): seq<Action> {
    (Prepared(amount) + Delivery()) + ([StartRefund(0, PartRequest(part))] + RefundActions(0, PartScript()))
  }

  function TwoRefunds(amount: nat, part: nat, rest: seq<Outcome>): seq<Action> {
    OneRefund(amount, part) + ([StartRefund(0, WholeRequest())] + RefundActions(0, WholeScript(rest)))
  }

  /** A confirmed payment in the system. */
  lemma ConfirmedReached(cfg: Config, amount: nat)
    requires amount > 0
    ensures
      var s := Reached(cfg, Prepared(amount) + Delivery());
      s.tables == Confirmed(amount) && s.calls == map[]
  {
    var s := Reached(cfg, Prepared(amount));
    Setup(cfg, amount);
    ReachedInv(cfg, Prepared(amount));
    RunSplit(Initial(cfg), Prepared(amount), Delivery());
    JobIsARun(s, 0, 0, 0, CutOff());
    AfterCutOff(cfg, s.tables, amount);
  }

  lemma CallReached(cfg: Config, prior: seq<Action>, request: R.Request, script: seq<Outcome>)
    requires 0 !in Reached(cfg, prior).calls
    requires |Reached(cfg, prior).tables.orders| == |Reached(cfg, prior).tables.payments|
    ensures
      var s := Reached(cfg, prior);
      var u := Reached(cfg, prior + ([StartRefund(0, request)] + RefundActions(0, script)));
      u.tables == R.RunCall(cfg, s.tables, R.Start(0, request), script).tables && u.calls == s.calls
  {
    ReachedInv(cfg, prior);
    RunSplit(Initial(cfg), prior, [StartRefund(0, request)] + RefundActions(0, script));
    CallIsARun(Reached(cfg, prior), 0, request, script);
  }

  lemma FirstRefundReached(cfg: Config, amount: nat, part: nat)
    requires 0 < part < amount
    ensures
      var s := Reached(cfg, OneRefund(amount, part));
      s.tables == PartPending(amount, part) && s.calls == map[]
  {
    ConfirmedReached(cfg, amount);
    CallReached(cfg, Prepared(amount) + Delivery(), PartRequest(part), PartScript());
    AfterPart(cfg, amount, part);
  }

  lemma TwoRefundsReached(cfg: Config, amount: nat, part: nat, rest: seq<Outcome>)
    requires 0 < part < amount
    ensures
      var t := Reached(cfg, TwoRefunds(amount, part, rest)).tables;
      t.refunds == WholeSaved(amount, part).refunds && t.gateway == WholeSaved(amount, part).gateway
  {
    FirstRefundReached(cfg, amount, part);
    CallReached(cfg, OneRefund(amount, part), WholeRequest(), WholeScript(rest));
    AfterWhole(cfg, amount, part, rest);
  }

  /** For every payment and every part of it there is a run in which the row of a refund states more than
      the gateway set aside: while the part is PENDING, a request without an amount refunds "the whole
      payment"; the row is SUCCEEDED with all of it, the gateway has paid the rest. The table then says
      that the whole payment and the part were refunded, together more than there ever was. */
  lemma RowStatesMore(cfg: Config, amount: nat, part: nat, rest: seq<Outcome>)
    requires 0 < part < amount
    ensures
      var t := Reached(cfg, TwoRefunds(amount, part, rest)).tables;
      && t.refunds == [Refund("ref1", "re1", 0, part, RefundPending), Refund("ref2", "re2", 0, amount, RefundSucceeded)]
      && t.gateway == [PartRecord(part), RestRecord(amount, part)]
      && t.gateway[1].id == t.refunds[1].gatewayRefundId && t.gateway[1].paid < t.refunds[1].amount
      && R.Held(t.gateway, 0) == amount < RowsSum(t.refunds, 0)
  {
    TwoRefundsReached(cfg, amount, part, rest);
    SumsOfTwo(amount, part);
  }

  lemma SumsOfTwo(amount: nat, part: nat)
    requires 0 < part < amount
    ensures R.Held(WholeSaved(amount, part).gateway, 0) == amount
    ensures RowsSum(WholeSaved(amount, part).refunds, 0) == amount + part
  {
    var t, u := PartPending(amount, part), WholeSaved(amount, part);
    NothingSucceeded(amount, part);
    HeldAppend(t.gateway, RestRecord(amount, part), 0);
    assert u.refunds[..1] == t.refunds;
    assert RowsSum(u.refunds, 0) == RowsSum(u.refunds[..1], 0) + amount;
    assert t.refunds[..0] == [];
    assert RowsSum(t.refunds, 0) == RowsSum(t.refunds[..0], 0) + part;
  }
}
