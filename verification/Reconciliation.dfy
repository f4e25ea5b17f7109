/** Reconciliation (src/services/reconciliation.service.js): stored payments against what their gateway
    says, one at a time, with the two gateways' status tables. Amounts are paise; the gateway's may have
    decimals. */
module Reconciliation {
  import opened Domain
  import Saga

  datatype Payment = Payment(gateway: Gateway, gatewayPaymentId: Option<string>, paymentIntentId: Option<string>,
                             gatewayOrderId: Option<string>, status: PaymentStatus, amount: nat, currency: string)

  datatype GatewayData = GatewayData(status: string, amount: real, currency: string)

  /** What the calls made for one payment meet: the gateway's data or a failed query, and whether the
      insert of the comparison's record, and that of the other kinds of record, fail. */
  datatype Env = Env(data: Option<GatewayData>, comparisonFault: bool, insertFault: bool)

  datatype Difference = MissingGatewayPayment | AmountMismatch | CurrencyMismatch | StatusMismatch

  datatype Handling = Mismatch | ManualReview

  datatype Seen = NothingSeen | Status(status: PaymentStatus) | QueryFailed

  /** `payment` is the position of the payment in the run. */
  datatype Record = Record(payment: nat, reference: Option<string>, internalStatus: PaymentStatus, gatewayStatus: Seen,
                           internalAmount: nat, gatewayAmount: Option<real>, difference: Difference, handling: Handling)

  datatype Outcome = Matched | Reported(record: Record) | Aborted

  // ---------------------------------------------------------------- status tables

  function StripeStatus(s: string): PaymentStatus {
    var l := Lower(s);
    if l == "succeeded" then Success
    else if l == "canceled" then Failed
    else Pending  // processing, the requires_ statuses, and anything unknown
  }

  function CashfreeStatus(s: string): PaymentStatus {
    var u := Upper(s);
    if u == "PAID" then Success
    else if u == "EXPIRED" || u == "TERMINATED" then Failed
    else Pending  // ACTIVE and anything unknown
  }

  function MapStatus(g: Gateway, s: string): PaymentStatus {
    match g case Stripe => StripeStatus(s) case Cashfree => CashfreeStatus(s)
  }

  // ---------------------------------------------------------------- one payment

  predicate Given(s: Option<string>) {
    s.Some? && s.value != ""
  }

  function Reference(p: Payment): Option<string> {
    if Given(p.gatewayPaymentId) then p.gatewayPaymentId
    else if Given(p.paymentIntentId) then p.paymentIntentId
    else if Given(p.gatewayOrderId) then p.gatewayOrderId
    else None
  }

  function CurrencyText(s: string): string {
    Upper(if s == "" then "INR" else s)
  }

  predicate AmountAgrees(p: Payment, d: GatewayData) {
    -1.0 < p.amount as real - d.amount < 1.0
  }

  predicate CurrencyAgrees(p: Payment, d: GatewayData) {
    CurrencyText(p.currency) == CurrencyText(d.currency)
  }

  function DifferenceOf(p: Payment, d: GatewayData): Difference {
    if !AmountAgrees(p, d) then AmountMismatch
    else if !CurrencyAgrees(p, d) then CurrencyMismatch
    else StatusMismatch
  }

  function ReviewOf(i: nat, p: Payment): Record {
    Record(i, Reference(p), p.status, QueryFailed, p.amount, None, MissingGatewayPayment, ManualReview)
  }

  /** A failed insert of the comparison's record is taken for a failed query. */
  function Examine(i: nat, p: Payment, env: Env): Outcome {
    if Reference(p).None? then
      if env.insertFault then Aborted
      else Reported(Record(i, None, p.status, NothingSeen, p.amount, None, MissingGatewayPayment, Mismatch))
    else
      var failed := if env.insertFault then Aborted else Reported(ReviewOf(i, p));
      match env.data
      case None => failed
      case Some(d) =>
        var status := MapStatus(p.gateway, d.status);
        if p.status == status && AmountAgrees(p, d) && CurrencyAgrees(p, d) then Matched
        else if env.comparisonFault then failed
        else
          Reported(Record(i, Reference(p), p.status, Status(status), p.amount, Some(d.amount), DifferenceOf(p, d),
              Mismatch))
  }

  // ---------------------------------------------------------------- a run

  function Outcomes(payments: seq<Payment>, envs: seq<Env>): (outcomes: seq<Outcome>)
    requires |payments| == |envs|
    ensures |outcomes| == |payments|
    ensures forall i :: 0 <= i < |payments| ==> outcomes[i] == Examine(i, payments[i], envs[i])
  {
    seq(|payments|, i requires 0 <= i < |payments| => Examine(i, payments[i], envs[i]))
  }

  /** The records of some outcomes, in order. */
  function Records(outcomes: seq<Outcome>): seq<Record> {
    if outcomes == [] then []
    else
      var last := outcomes[|outcomes| - 1];
      Records(outcomes[..|outcomes| - 1]) + if last.Reported? then [last.record] else []
  }

  predicate Completes(outcomes: seq<Outcome>) {
    forall i :: 0 <= i < |outcomes| ==> !outcomes[i].Aborted?
  }

  /** One outcome more. */
  lemma RecordsNext(outcomes: seq<Outcome>, i: nat)
    requires i < |outcomes|
    ensures Records(outcomes[..i + 1])
            == Records(outcomes[..i]) + if outcomes[i].Reported? then [outcomes[i].record] else []
    ensures Completes(outcomes[..i + 1]) <==> Completes(outcomes[..i]) && !outcomes[i].Aborted?
  {
    var longer := outcomes[..i + 1];
    assert longer[..i] == outcomes[..i] && longer[i] == outcomes[i];
    forall k | 0 <= k < i ensures longer[k] == outcomes[..i][k] {}
  }

  /** The run ends at payment `n`. */
  ghost predicate EndsAt(outcomes: seq<Outcome>, n: nat, written: seq<Record>) {
    && n < |outcomes| && Completes(outcomes[..n]) && outcomes[n].Aborted? && written == Records(outcomes[..n])
  }

  lemma EndedIncomplete(outcomes: seq<Outcome>, n: nat, written: seq<Record>)
    requires EndsAt(outcomes, n, written)
    ensures !Completes(outcomes)
  {
  }

  datatype Report = Report(totalChecked: nat, matchedCount: nat, mismatches: seq<Record>)

  /** The run: every payment in order; `written` are the records inserted. An insert that fails where it is
      not caught ends the run with an error. */
  method RunReconciliation(payments: seq<Payment>, envs: seq<Env>)
    returns (report: Option<Report>, written: seq<Record>)
    requires |payments| == |envs|
    ensures report.Some? <==> Completes(Outcomes(payments, envs))
    ensures report.Some? ==>
              && report.value.totalChecked == |payments|
              && report.value.matchedCount + |report.value.mismatches| == |payments|
              && report.value.mismatches == written == Records(Outcomes(payments, envs))
    ensures report.None? ==> exists n: nat :: EndsAt(Outcomes(payments, envs), n, written)
  {
    var totalChecked, matchedCount := 0, 0;
    var mismatches := [];
    ghost var outcomes := Outcomes(payments, envs);
    for i := 0 to |payments|
      invariant totalChecked == i && matchedCount + |mismatches| == i
      invariant Completes(outcomes[..i])
      invariant mismatches == Records(outcomes[..i])
    {
      RecordsNext(outcomes, i);
      var payment, env := payments[i], envs[i];
      assert outcomes[i] == Examine(i, payment, env);
      totalChecked := totalChecked + 1;
      var reference := Reference(payment);
      if reference.None? {
        if env.insertFault {
          assert EndsAt(outcomes, i, mismatches);
          EndedIncomplete(outcomes, i, mismatches);
          return None, mismatches;
        }
        var record := Record(i, None, payment.status, NothingSeen, payment.amount, None, MissingGatewayPayment,
            Mismatch);
        mismatches := mismatches + [record];
        continue;
      }
      var thrown := env.data.None?;
      if env.data.Some? {
        var data := env.data.value;
        var gatewayStatus := MapStatus(payment.gateway, data.status);
        var statusMatches := payment.status == gatewayStatus;
        var amountMatches := AmountAgrees(payment, data);
        var currencyMatches := CurrencyAgrees(payment, data);
        if statusMatches && amountMatches && currencyMatches {
          matchedCount := matchedCount + 1;
        } else {
          var difference := StatusMismatch;
          if !amountMatches { difference := AmountMismatch; }
          else if !currencyMatches { difference := CurrencyMismatch; }
          if env.comparisonFault {
            thrown := true;
          } else {
            var record := Record(i, reference, payment.status, Status(gatewayStatus), payment.amount, Some(data.amount),
                                 difference, Mismatch);
            mismatches := mismatches + [record];
          }
        }
      }
      if thrown {
        if env.insertFault {
          assert EndsAt(outcomes, i, mismatches);
          EndedIncomplete(outcomes, i, mismatches);
          return None, mismatches;
        }
        mismatches := mismatches + [ReviewOf(i, payment)];
      }
    }
    assert outcomes[..|payments|] == outcomes;
    report, written := Some(Report(totalChecked, matchedCount, mismatches)), mismatches;
  }

  // ---------------------------------------------------------------- what a report says

  predicate Reports(records: seq<Record>, i: nat) {
    exists k :: 0 <= k < |records| && records[k].payment == i
  }

  lemma ReportsAppend(records: seq<Record>, record: Record, i: nat)
    ensures Reports(records + [record], i) <==> Reports(records, i) || record.payment == i
  {
    var all := records + [record];
    assert all[|records|] == record;
    if Reports(records, i) {
      var k :| 0 <= k < |records| && records[k].payment == i;
      assert all[k].payment == i;
    }
  }

  /** Every outcome that is reported is about its own payment. */
  predicate Placed(outcomes: seq<Outcome>) {
    forall i :: 0 <= i < |outcomes| && outcomes[i].Reported? ==> outcomes[i].record.payment == i
  }

  /** The records are in the order of the payments, each is what was found about its payment, and a
      payment has none exactly when it was matched. */
  ghost predicate Faithful(records: seq<Record>, outcomes: seq<Outcome>) {
    && (forall j, k :: 0 <= j < k < |records| ==> records[j].payment < records[k].payment)
    && (forall k :: 0 <= k < |records| ==>
          records[k].payment < |outcomes| && outcomes[records[k].payment] == Reported(records[k]))
    && (forall i :: 0 <= i < |outcomes| ==> (outcomes[i].Matched? <==> !Reports(records, i)))
  }

  lemma FaithfulNext(front: seq<Record>, outcomes: seq<Outcome>, last: Outcome)
    requires Faithful(front, outcomes) && !last.Aborted?
    requires last.Reported? ==> last.record.payment == |outcomes|
    ensures Faithful(front + if last.Reported? then [last.record] else [], outcomes + [last])
  {
    var n, all := |outcomes|, outcomes + [last];
    if last.Reported? {
      var records := front + [last.record];
      forall i | 0 <= i < n + 1 ensures all[i].Matched? <==> !Reports(records, i) {
        ReportsAppend(front, last.record, i);
      }
    } else {
      assert front + [] == front;
    }
  }

  lemma {:induction false} RecordsFaithful(outcomes: seq<Outcome>)
    requires Completes(outcomes) && Placed(outcomes)
    ensures Faithful(Records(outcomes), outcomes)
    decreases |outcomes|
  {
    if outcomes != [] {
      var n := |outcomes| - 1;
      RecordsFaithful(outcomes[..n]);
      FaithfulNext(Records(outcomes[..n]), outcomes[..n], outcomes[n]);
      assert outcomes[..n] + [outcomes[n]] == outcomes;
    }
  }

  /** Every run that completes gives every payment exactly one outcome. */
  lemma OneOutcomeEach(payments: seq<Payment>, envs: seq<Env>)
    requires |payments| == |envs| && Completes(Outcomes(payments, envs))
    ensures Faithful(Records(Outcomes(payments, envs)), Outcomes(payments, envs))
  {
    RecordsFaithful(Outcomes(payments, envs));
  }

  /** A payment counts as matched exactly when it has a reference, its query succeeded, and status, amount
      and currency agree; two whole numbers of paise agree only if they are equal. */
  lemma MatchedExactly(i: nat, p: Payment, env: Env)
    ensures Examine(i, p, env).Matched? <==>
            && (Given(p.gatewayPaymentId) || Given(p.paymentIntentId) || Given(p.gatewayOrderId)) && env.data.Some?
            && p.status == MapStatus(p.gateway, env.data.value.status)
            && AmountAgrees(p, env.data.value) && CurrencyAgrees(p, env.data.value)
    ensures env.data.Some? && env.data.value.amount == env.data.value.amount.Floor as real ==>
              (AmountAgrees(p, env.data.value) <==> p.amount as real == env.data.value.amount)
  {
    if env.data.Some? {
      var paise := env.data.value.amount.Floor;
      assert p.amount as real - paise as real == (p.amount - paise) as real;
    }
  }

  /** The difference reported: the amount's first, then the currency's, then the status's; a payment
      without a reference is a mismatch, a failed query or comparison a case for review. */
  lemma LabelExactly(i: nat, p: Payment, env: Env)
    requires Examine(i, p, env).Reported?
    ensures
      var r := Examine(i, p, env).record;
      && (r.handling == ManualReview <==> r.gatewayStatus == QueryFailed)
      && (r.difference == MissingGatewayPayment <==> Reference(p).None? || r.handling == ManualReview)
      && (r.gatewayStatus.Status? ==>
            && env.data.Some?
            && (r.difference == AmountMismatch <==> !AmountAgrees(p, env.data.value))
            && (r.difference == CurrencyMismatch <==>
                  AmountAgrees(p, env.data.value) && !CurrencyAgrees(p, env.data.value))
            && (r.difference == StatusMismatch <==>
                  AmountAgrees(p, env.data.value) && CurrencyAgrees(p, env.data.value)
                  && p.status != MapStatus(p.gateway, env.data.value.status)))
  {
  }

  lemma RefundedDiffers(i: nat, p: Payment, env: Env)
    requires p.status == PartiallyRefunded || p.status == Refunded
    ensures !Examine(i, p, env).Matched?
  {
  }

  /** No run ever matches a payment that money was refunded from: neither gateway's table knows a refunded
      status, so every run reports it, whatever the gateway answers. */
  lemma RefundedAlwaysReported(payments: seq<Payment>, envs: seq<Env>, i: nat)
    requires i < |payments| == |envs| && Completes(Outcomes(payments, envs))
    requires payments[i].status == PartiallyRefunded || payments[i].status == Refunded
    ensures Reports(Records(Outcomes(payments, envs)), i)
  {
    RefundedDiffers(i, payments[i], envs[i]);
    OneOutcomeEach(payments, envs);
  }

  // ---------------------------------------------------------------- what reaches the gateway

  /** A stored payment as reconciliation reads it. */
  function FromRow(row: Saga.PaymentRow, status: PaymentStatus): Payment {
    Payment(row.gateway, row.answer.gatewayPaymentId, row.answer.paymentIntentId, row.answer.gatewayOrderId, status,
            row.amount, row.currency)
  }

  /** The gateway's record under an identifier. */
  predicate Knows(remotes: seq<Saga.Remote>, g: Gateway, id: string) {
    exists r :: 0 <= r < |remotes| && remotes[r].gateway == g && remotes[r].endpoint == id
  }

  /** The reference a query is made with is one its gateway knows for every Stripe payment ever created;
      for Cashfree payments it is the payment session, which Cashfree's order endpoint knows nothing of, so
      each of them is reported for review in every run. */
  lemma QueriesFindExactly(calls: seq<Saga.Call>, numbers: set<string>, p: nat, status: PaymentStatus)
    requires Saga.Sessioned(calls, numbers)
    requires p < |Saga.RunCalls(Saga.Start(), calls).payments|
    ensures
      var w := Saga.RunCalls(Saga.Start(), calls);
      var payment := FromRow(w.payments[p], status);
      && Reference(payment).Some?
      && (Knows(w.remotes, payment.gateway, Reference(payment).value) <==> payment.gateway == Stripe)
  {
    var w := Saga.RunCalls(Saga.Start(), calls);
    Saga.RunSound(Saga.Start(), calls);
    Saga.SessionsKeptRun(Saga.Start(), calls, numbers);
    AnswersRun(Saga.Start(), calls);
    assert Saga.Owned(w, p);
    var r :| 0 <= r < |w.deeds| && w.deeds[r].saved == Some(p);
    assert Saga.Pairs(w, p, w.remotes[r]);
  }

  /** A Stripe payment is known to Stripe by the identifier it answered with. */
  ghost predicate StripeAnswers(w: Saga.World) {
    forall r :: 0 <= r < |w.remotes| && w.remotes[r].gateway == Stripe ==>
      w.remotes[r].endpoint != "" && w.remotes[r].answer == Saga.AnswerOf(Stripe, w.remotes[r].endpoint, "", "")
  }

  /** Stripe gives every payment an identifier. */
  lemma StripeIdentifies(w: Saga.World, req: Saga.Request, env: Saga.Env)
    requires |w.remotes| == |w.deeds|
    ensures
      var w', n := Saga.Create(w, req, env).0, |w.remotes|;
      |w'.remotes| > n && w'.remotes[n].gateway == Stripe ==> w'.remotes[n].endpoint != ""
  {
  }

  lemma AnswersAdded(w: Saga.World, w': Saga.World, env: Saga.Env)
    requires |w.remotes| == |w.deeds| && StripeAnswers(w) && Saga.Adds(w, w', env)
    requires
      var n := |w.remotes|;
      |w'.remotes| > n && w'.remotes[n].gateway == Stripe ==> w'.remotes[n].endpoint != ""
    ensures StripeAnswers(w')
  {
    forall r | 0 <= r < |w'.remotes| && w'.remotes[r].gateway == Stripe
      ensures w'.remotes[r].endpoint != ""
              && w'.remotes[r].answer == Saga.AnswerOf(Stripe, w'.remotes[r].endpoint, "", "")
    {
      if r < |w.remotes| { assert w'.remotes[r] == w.remotes[r].(live := w'.remotes[r].live); }
    }
  }

  lemma AnswersStep(w: Saga.World, req: Saga.Request, env: Saga.Env)
    requires |w.remotes| == |w.deeds| && StripeAnswers(w)
    ensures StripeAnswers(Saga.Create(w, req, env).0)
  {
    Saga.CreateAdds(w, req, env);
    StripeIdentifies(w, req, env);
    AnswersAdded(w, Saga.Create(w, req, env).0, env);
  }

  lemma {:induction false} AnswersRun(w: Saga.World, calls: seq<Saga.Call>)
    requires |w.remotes| == |w.deeds| && StripeAnswers(w)
    ensures StripeAnswers(Saga.RunCalls(w, calls))
    decreases |calls|
  {
    if calls != [] {
      Saga.CreateAdds(w, calls[0].request, calls[0].env);
      AnswersStep(w, calls[0].request, calls[0].env);
      AnswersRun(Saga.Create(w, calls[0].request, calls[0].env).0, calls[1..]);
    }
  }
}
