/** The local refund rows against the gateway's own record. */
module GatewaySafety {
  import opened Domain
  import opened Store
  import opened Rounding
  import opened System
  import opened Shape
  import R = Refunds

  ghost predicate DistinctRecords(gateway: seq<GatewayRefund>) {
    forall i, j :: 0 <= i < j < |gateway| ==> gateway[i].ask.key != gateway[j].ask.key && gateway[i].id != gateway[j].id
  }

  /** What the row of a request states as its amount: the amount sent, or, when none is, the whole payment. */
  function Stated(payload: Option<nat>, paymentAmount: nat): nat {
    match payload case None => paymentAmount case Some(a) => a
  }

  /** A gateway record in its own right: of a stored payment, of something, and of what was asked for. */
  predicate Fits(g: GatewayRefund, payments: seq<Payment>) {
    && g.ask.payment < |payments| && 0 < g.paid <= payments[g.ask.payment].amount
    && (g.ask.payload.Some? ==> g.ask.payload.value == g.paid)
  }

  /** A gateway record that stands behind a refund row. */
  predicate Backs(g: GatewayRefund, payments: seq<Payment>, id: string, p: nat, amount: int, status: RefundStatus) {
    g.id == id && g.ask.payment == p < |payments| && g.status == status
    && Stated(g.ask.payload, payments[p].amount) == amount
  }

  ghost predicate Backed(t: Tables, id: string, p: nat, amount: int, status: RefundStatus) {
    exists i :: 0 <= i < |t.gateway| && Backs(t.gateway[i], t.payments, id, p, amount, status)
  }

  ghost predicate DistinctRows(refunds: seq<Refund>) {
    forall i, j :: 0 <= i < j < |refunds| ==> refunds[i].gatewayRefundId != refunds[j].gatewayRefundId
  }

  ghost predicate RowBacked(t: Tables, r: Refund) {
    Backed(t, r.gatewayRefundId, r.payment, r.amount, r.status)
  }

  ghost predicate AllBacked(t: Tables) {
    forall i :: 0 <= i < |t.refunds| ==> RowBacked(t, t.refunds[i])
  }

  /** The gateway never sets aside more than a payment. */
  ghost predicate Within(t: Tables) {
    && (forall i :: 0 <= i < |t.gateway| ==> Fits(t.gateway[i], t.payments))
    && (forall p :: 0 <= p < |t.payments| ==> R.Held(t.gateway, p) <= t.payments[p].amount)
  }

  ghost predicate SavingBacked(t: Tables, k: R.Run) {
    k.at.Saving? ==> Backed(t, k.at.gatewayRefundId, k.payment, HalfUp(k.at.asked), k.at.status)
  }

  ghost predicate GatewayAgrees(s: State)
    requires Shaped(s)
  {
    && DistinctRecords(s.tables.gateway) && Within(s.tables)
    && DistinctRows(s.tables.refunds) && AllBacked(s.tables)
    && (forall p :: p in s.calls ==> SavingBacked(s.tables, s.calls[p]))
  }

  // ---------------------------------------------------------------- growth

  lemma BackedGrows(t: Tables, t': Tables, id: string, p: nat, amount: int, status: RefundStatus)
    requires Grows(t, t') && Backed(t, id, p, amount, status)
    ensures Backed(t', id, p, amount, status)
  {
    var i :| 0 <= i < |t.gateway| && Backs(t.gateway[i], t.payments, id, p, amount, status);
    assert t'.gateway[i] == t.gateway[i] && t'.payments[p].amount == t.payments[p].amount;
    assert Backs(t'.gateway[i], t'.payments, id, p, amount, status);
  }

  lemma HeldAppend(gateway: seq<GatewayRefund>, g: GatewayRefund, p: nat)
    ensures R.Held(gateway + [g], p)
            == R.Held(gateway, p) + (if g.ask.payment == p && R.Counts(g.status) then g.paid else 0)
  {
    assert (gateway + [g])[..|gateway|] == gateway;
  }

  lemma {:induction false} HeldNothing(gateway: seq<GatewayRefund>, p: nat)
    requires forall i :: 0 <= i < |gateway| ==> gateway[i].ask.payment != p || !R.Counts(gateway[i].status)
    ensures R.Held(gateway, p) == 0
    decreases |gateway|
  {
    if gateway != [] { HeldNothing(gateway[..|gateway| - 1], p); }
  }

  lemma {:induction false} HeldSomething(gateway: seq<GatewayRefund>, p: nat, i: nat)
    requires i < |gateway| && gateway[i].ask.payment == p && R.Counts(gateway[i].status)
    ensures R.Held(gateway, p) >= gateway[i].paid
    decreases |gateway|
  {
    if i < |gateway| - 1 { HeldSomething(gateway[..|gateway| - 1], p, i); }
  }

  lemma WithinGrows(t: Tables, t': Tables)
    requires Grows(t, t') && Within(t) && t'.gateway == t.gateway
    ensures Within(t')
  {
    forall p | 0 <= p < |t'.payments| ensures R.Held(t'.gateway, p) <= t'.payments[p].amount {
      if p >= |t.payments| {
        HeldNothing(t.gateway, p);
      } else {
        assert t'.payments[p].amount == t.payments[p].amount;
      }
    }
    forall i | 0 <= i < |t'.gateway| ensures Fits(t'.gateway[i], t'.payments) {
      var p := t.gateway[i].ask.payment;
      assert Fits(t.gateway[i], t.payments) && t'.payments[p].amount == t.payments[p].amount;
    }
  }

  // ---------------------------------------------------------------- the gateway's step

  lemma NewRecordWithin(t: Tables, g: GatewayRefund)
    requires Within(t) && Fits(g, t.payments)
    requires g.paid <= t.payments[g.ask.payment].amount - R.Held(t.gateway, g.ask.payment)
    ensures Within(t.(gateway := t.gateway + [g]))
  {
    forall p | 0 <= p < |t.payments| ensures R.Held(t.gateway + [g], p) <= t.payments[p].amount {
      HeldAppend(t.gateway, g, p);
    }
  }

  /** The request has its record. */
  ghost predicate Answered(gateway: seq<GatewayRefund>, ask: Ask, id: string, status: RefundStatus) {
    exists i :: 0 <= i < |gateway| && gateway[i].ask == ask && gateway[i].id == id && gateway[i].status == status
  }

  /** A known key: the record is the one there is. */
  lemma KnownAnswered(gateway: seq<GatewayRefund>, ask: Ask, amount: nat, id: string, status: RefundStatus)
    requires R.RecordAt(gateway, ask.key).Some? && R.Answer(gateway, ask, amount, id, status).Some?
    ensures R.Answer(gateway, ask, amount, id, status).value == gateway && Answered(gateway, ask, id, status)
  {
    var g := R.RecordAt(gateway, ask.key).value;
    assert g.ask == ask && g.id == id && g.status == status;
    var i :| 0 <= i < |gateway| && gateway[i] == g;
    assert gateway[i].ask == ask && gateway[i].id == id && gateway[i].status == status;
  }

  /** A new key: one record more, for what is granted, under an identifier not used before. */
  lemma NewAnswered(gateway: seq<GatewayRefund>, ask: Ask, amount: nat, id: string, status: RefundStatus)
    requires R.RecordAt(gateway, ask.key).None? && R.Answer(gateway, ask, amount, id, status).Some?
    ensures
      var paid := R.Grant(gateway, ask, amount);
      && paid.Some?
      && R.Answer(gateway, ask, amount, id, status).value == gateway + [GatewayRefund(ask, id, status, paid.value)]
      && (forall i :: 0 <= i < |gateway| ==> gateway[i].ask.key != ask.key && gateway[i].id != id)
  {
  }

  lemma OneRecordMore(gateway: seq<GatewayRefund>, g: GatewayRefund)
    requires DistinctRecords(gateway)
    requires forall i :: 0 <= i < |gateway| ==> gateway[i].ask.key != g.ask.key && gateway[i].id != g.id
    ensures DistinctRecords(gateway + [g]) && Answered(gateway + [g], g.ask, g.id, g.status)
  {
    var after := gateway + [g];
    assert after[|gateway|] == g;
  }

  /** An accepted request leaves its record among the others, known key or new. */
  lemma AnswerKeeps(t: Tables, ask: Ask, id: string, status: RefundStatus)
    requires DistinctRecords(t.gateway) && Within(t) && ask.payment < |t.payments|
    requires R.Answer(t.gateway, ask, t.payments[ask.payment].amount, id, status).Some?
    ensures
      var after := R.Answer(t.gateway, ask, t.payments[ask.payment].amount, id, status).value;
      DistinctRecords(after) && Within(t.(gateway := after)) && Answered(after, ask, id, status)
  {
    var amount := t.payments[ask.payment].amount;
    if R.RecordAt(t.gateway, ask.key).Some? {
      KnownAnswered(t.gateway, ask, amount, id, status);
      assert t.(gateway := t.gateway) == t;
    } else {
      NewAnswered(t.gateway, ask, amount, id, status);
      var g := GatewayRefund(ask, id, status, R.Grant(t.gateway, ask, amount).value);
      OneRecordMore(t.gateway, g);
      NewRecordWithin(t, g);
    }
  }

  lemma PayingAgrees(cfg: Config, t: Tables, k: R.Run, o: Outcome)
    requires R.InRange(t, k) && k.at.Paying? && DistinctRecords(t.gateway) && Within(t)
    requires k.at.asked <= t.payments[k.payment].amount as real
    ensures
      var turn := R.Advance(cfg, t, k, o);
      && DistinctRecords(turn.tables.gateway) && Within(turn.tables)
      && (turn.next.Go? ==> SavingBacked(turn.tables, turn.next.run))
  {
    if o.Issued? {
      var payment, status := t.payments[k.payment], R.MapStatus(o.gatewayStatus);
      var ask := R.AskOf(payment, k.payment, k.request, k.at.asked);
      var after := R.Answer(t.gateway, ask, payment.amount, o.gatewayRefundId, status);
      RefundRounding(k.at.asked, payment.amount, 0);
      if after.Some? {
        AnswerKeeps(t, ask, o.gatewayRefundId, status);
        var i :| 0 <= i < |after.value| && after.value[i].ask == ask && after.value[i].id == o.gatewayRefundId
                 && after.value[i].status == status;
        assert Backs(after.value[i], t.payments, o.gatewayRefundId, k.payment, HalfUp(k.at.asked), status);
      }
    }
  }

  // ---------------------------------------------------------------- the steps of the system

  /** What a refund step does to the two sides. */
  lemma RefundSides(cfg: Config, t: Tables, k: R.Run, o: Outcome)
    requires R.InRange(t, k)
    ensures
      var turn := R.Advance(cfg, t, k, o);
      && (!k.at.Paying? ==> turn.tables.gateway == t.gateway)
      && (turn.tables.refunds == t.refunds
          || (&& k.at.Saving? && |turn.tables.refunds| == |t.refunds| + 1
              && turn.tables.refunds[..|t.refunds|] == t.refunds
              && (var r := turn.tables.refunds[|t.refunds|];
                  && r.gatewayRefundId == k.at.gatewayRefundId && r.payment == k.payment && r.status == k.at.status
                  && r.amount == HalfUp(k.at.asked) && R.Fresh(t.refunds, r.id, r.gatewayRefundId))))
      && (turn.next.Go? && turn.next.run.at.Saving? ==>
            || k.at.Paying?
            || (k.at.Saving? && turn.next.run.at == k.at.(retries := turn.next.run.at.retries)))
  {
  }

  lemma RowsAgree(cfg: Config, t: Tables, k: R.Run, o: Outcome)
    requires R.InRange(t, k) && DistinctRows(t.refunds) && AllBacked(t) && SavingBacked(t, k)
    ensures DistinctRows(R.Advance(cfg, t, k, o).tables.refunds) && AllBacked(R.Advance(cfg, t, k, o).tables)
  {
    var t' := R.Advance(cfg, t, k, o).tables;
    RefundGrows(cfg, t, k, o);
    RefundSides(cfg, t, k, o);
    forall i | 0 <= i < |t'.refunds| ensures RowBacked(t', t'.refunds[i]) {
      var r := t'.refunds[i];
      if i < |t.refunds| { assert r == t.refunds[i] && RowBacked(t, r); }
      BackedGrows(t, t', r.gatewayRefundId, r.payment, r.amount, r.status);
    }
  }

  lemma OwnSaving(cfg: Config, t: Tables, k: R.Run, o: Outcome)
    requires R.InRange(t, k) && !k.at.Paying? && SavingBacked(t, k)
    ensures var turn := R.Advance(cfg, t, k, o); turn.next.Go? ==> SavingBacked(turn.tables, turn.next.run)
  {
    RefundGrows(cfg, t, k, o);
    RefundSides(cfg, t, k, o);
  }

  lemma SavingStays(t: Tables, t': Tables, k: R.Run)
    requires Grows(t, t') && SavingBacked(t, k)
    ensures SavingBacked(t', k)
  {
    if k.at.Saving? {
      BackedGrows(t, t', k.at.gatewayRefundId, k.payment, HalfUp(k.at.asked), k.at.status);
    }
  }

  lemma RefundAgrees(s: State, p: nat, o: Outcome)
    requires Shaped(s) && GatewayAgrees(s) && p in s.calls && Shaped(RefundStep(s, p, o))
    requires s.calls[p].at.Paying? ==> s.calls[p].at.asked <= s.tables.payments[p].amount as real
    ensures GatewayAgrees(RefundStep(s, p, o))
  {
    var k, t, s' := s.calls[p], s.tables, RefundStep(s, p, o);
    RefundGrows(s.cfg, t, k, o);
    RowsAgree(s.cfg, t, k, o);
    RefundSides(s.cfg, t, k, o);
    if k.at.Paying? {
      PayingAgrees(s.cfg, t, k, o);
    } else {
      OwnSaving(s.cfg, t, k, o);
      WithinGrows(t, s'.tables);
    }
    forall q | q in s'.calls ensures SavingBacked(s'.tables, s'.calls[q]) {
      if q != p { SavingStays(t, s'.tables, s.calls[q]); }
    }
  }

  /** Steps other than a refund call's own. */
  lemma OthersAgree(s: State, s': State)
    requires Shaped(s) && GatewayAgrees(s) && Shaped(s') && Grows(s.tables, s'.tables)
    requires s'.tables.refunds == s.tables.refunds && s'.tables.gateway == s.tables.gateway
    requires forall p :: p in s'.calls && s'.calls[p].at.Saving? ==> p in s.calls && s'.calls[p] == s.calls[p]
    ensures GatewayAgrees(s')
  {
    WithinGrows(s.tables, s'.tables);
    forall i | 0 <= i < |s'.tables.refunds| ensures RowBacked(s'.tables, s'.tables.refunds[i]) {
      var r := s.tables.refunds[i];
      assert RowBacked(s.tables, r);
      BackedGrows(s.tables, s'.tables, r.gatewayRefundId, r.payment, r.amount, r.status);
    }
    forall q | q in s'.calls ensures SavingBacked(s'.tables, s'.calls[q]) {
      if s'.calls[q].at.Saving? { SavingStays(s.tables, s'.tables, s.calls[q]); }
    }
  }

  lemma WorkerAgrees(s: State, w: nat, o: Outcome)
    requires Shaped(s) && GatewayAgrees(s) && w in s.workers && Shaped(WorkerStep(s, w, o))
    requires Grows(s.tables, WorkerStep(s, w, o).tables)
    ensures GatewayAgrees(WorkerStep(s, w, o))
  {
    WorkerWrites(s.cfg, s.tables, s.workers[w], o);
    OthersAgree(s, WorkerStep(s, w, o));
  }

  // ---------------------------------------------------------------- the sums

  /** The rows of a payment the gateway still holds money for: SUCCEEDED and PENDING ones. */
  function RowsSum(refunds: seq<Refund>, p: nat): nat {
    if refunds == [] then 0
    else
      var last := refunds[|refunds| - 1];
      RowsSum(refunds[..|refunds| - 1], p) + (if last.payment == p && R.Counts(last.status) then last.amount else 0)
  }

  lemma {:induction false} SucceededWithinRows(refunds: seq<Refund>, p: nat)
    ensures TotalRefunded(refunds, p) <= RowsSum(refunds, p)
  {
    if refunds != [] { SucceededWithinRows(refunds[..|refunds| - 1], p); }
  }

  /** The gateway set aside what the row of the request states. */
  predicate Exact(g: GatewayRefund, paymentAmount: nat) {
    g.ask.payload.Some? || g.paid == paymentAmount
  }

  /** The amount a record contributes to what is held for `p`. */
  function Share(g: GatewayRefund, p: nat): nat {
    if g.ask.payment == p && R.Counts(g.status) then g.paid else 0
  }

  function Without<T>(s: seq<T>, i: nat): (rest: seq<T>)
    requires i < |s|
    ensures |rest| == |s| - 1
    ensures forall k :: 0 <= k < |rest| ==> rest[k] == s[if k < i then k else k + 1]
  {
    s[..i] + s[i + 1..]
  }

  lemma WithoutFront<T>(s: seq<T>, i: nat)
    requires i < |s| - 1
    ensures Without(s, i) == Without(s[..|s| - 1], i) + [s[|s| - 1]]
  {
  }

  lemma {:induction false} HeldWithout(gateway: seq<GatewayRefund>, i: nat, p: nat)
    requires i < |gateway|
    ensures R.Held(gateway, p) == R.Held(Without(gateway, i), p) + Share(gateway[i], p)
    decreases |gateway|
  {
    var n := |gateway| - 1;
    var front, last := gateway[..n], gateway[n];
    assert gateway == front + [last];
    HeldAppend(front, last, p);
    if i == n {
      assert Without(gateway, i) == front;
    } else {
      HeldWithout(front, i, p);
      WithoutFront(gateway, i);
      HeldAppend(Without(front, i), last, p);
    }
  }

  /** Every record of `p` that counts is exact. */
  ghost predicate AllExact(gateway: seq<GatewayRefund>, p: nat, paymentAmount: nat) {
    forall i :: 0 <= i < |gateway| && gateway[i].ask.payment == p && R.Counts(gateway[i].status) ==>
      Exact(gateway[i], paymentAmount)
  }

  ghost predicate BackedIn(gateway: seq<GatewayRefund>, payments: seq<Payment>, r: Refund) {
    exists i :: 0 <= i < |gateway| && Backs(gateway[i], payments, r.gatewayRefundId, r.payment, r.amount, r.status)
  }

  lemma BackedWithout(gateway: seq<GatewayRefund>, g: nat, payments: seq<Payment>, r: Refund)
    requires g < |gateway| && gateway[g].id != r.gatewayRefundId && BackedIn(gateway, payments, r)
    ensures BackedIn(Without(gateway, g), payments, r)
  {
    var j :| 0 <= j < |gateway| && Backs(gateway[j], payments, r.gatewayRefundId, r.payment, r.amount, r.status);
    assert Without(gateway, g)[if j < g then j else j - 1] == gateway[j];
  }

  lemma DistinctWithout(gateway: seq<GatewayRefund>, g: nat)
    requires DistinctRecords(gateway) && g < |gateway|
    ensures DistinctRecords(Without(gateway, g))
  {
    var rest := Without(gateway, g);
    forall i, j | 0 <= i < j < |rest| ensures rest[i].ask.key != rest[j].ask.key && rest[i].id != rest[j].id {
      var i', j' := if i < g then i else i + 1, if j < g then j else j + 1;
      assert gateway[i'].ask.key != gateway[j'].ask.key && gateway[i'].id != gateway[j'].id;
    }
  }

  /** Rows with different gateway identifiers, each backed by a record, the records that count exact. */
  ghost predicate Matched(refunds: seq<Refund>, gateway: seq<GatewayRefund>, payments: seq<Payment>, p: nat)
    requires p < |payments|
  {
    && DistinctRecords(gateway) && DistinctRows(refunds)
    && AllExact(gateway, p, payments[p].amount)
    && (forall i :: 0 <= i < |gateway| ==> Fits(gateway[i], payments))
    && (forall i :: 0 <= i < |refunds| ==> BackedIn(gateway, payments, refunds[i]))
  }

  lemma MatchedWithout(refunds: seq<Refund>, gateway: seq<GatewayRefund>, payments: seq<Payment>, p: nat, g: nat)
    requires p < |payments| && Matched(refunds, gateway, payments, p) && refunds != [] && g < |gateway|
    requires gateway[g].id == refunds[|refunds| - 1].gatewayRefundId
    ensures Matched(refunds[..|refunds| - 1], Without(gateway, g), payments, p)
  {
    var n, rest := |refunds| - 1, Without(gateway, g);
    DistinctWithout(gateway, g);
    forall i | 0 <= i < n ensures BackedIn(rest, payments, refunds[..n][i]) {
      assert refunds[i].gatewayRefundId != refunds[n].gatewayRefundId;
      BackedWithout(gateway, g, payments, refunds[i]);
    }
  }

  /** Such rows add up to no more than the gateway holds. */
  lemma {:induction false} RowsWithinGateway(
    refunds: seq<Refund>, gateway: seq<GatewayRefund>, payments: seq<Payment>, p: nat)
    requires p < |payments| && Matched(refunds, gateway, payments, p)
    ensures RowsSum(refunds, p) <= R.Held(gateway, p)
    decreases |refunds|
  {
    if refunds != [] {
      var last := refunds[|refunds| - 1];
      assert BackedIn(gateway, payments, last);
      var g :| 0 <= g < |gateway|
               && Backs(gateway[g], payments, last.gatewayRefundId, last.payment, last.amount, last.status);
      MatchedWithout(refunds, gateway, payments, p, g);
      RowsWithinGateway(refunds[..|refunds| - 1], Without(gateway, g), payments, p);
      HeldWithout(gateway, g, p);
      LastShare(gateway, g, payments, p, last);
    }
  }

  lemma LastShare(gateway: seq<GatewayRefund>, g: nat, payments: seq<Payment>, p: nat, r: Refund)
    requires p < |payments| && g < |gateway| && Fits(gateway[g], payments) && AllExact(gateway, p, payments[p].amount)
    requires Backs(gateway[g], payments, r.gatewayRefundId, r.payment, r.amount, r.status)
    ensures r.payment == p && R.Counts(r.status) ==> r.amount == Share(gateway[g], p)
  {
  }
}
