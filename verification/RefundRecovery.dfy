/** A refund request repeated with a key the gateway knows, after a call that was cut off or that went
    through: the gateway is not made to pay twice, and answers only the very same request, of which the
    drawn refund number is a part. */
module RefundRecovery {
  import opened Domain
  import opened Store
  import opened Rounding
  import opened Refunds

  /** The amount a request comes to, alone, in a state. */
  function Decided(t: Tables, p: nat, request: Request): (decided: Option<real>)
    requires p < |t.payments|
    ensures decided.Some? ==> decided.value > 0.0
  {
    Guard(t.payments[p].amount, TotalRefunded(t.refunds, p), request.asked)
  }

  /** What the gateway will be asked. */
  function Asks(t: Tables, p: nat, request: Request): Ask
    requires p < |t.payments| && Decided(t, p, request).Some?
  {
    AskOf(t.payments[p], p, request, Decided(t, p, request).value)
  }

  /** The gateway has a record under the key the request will carry. */
  predicate Known(t: Tables, p: nat, request: Request)
    requires p < |t.payments|
  {
    Decided(t, p, request).Some? && RecordAt(t.gateway, Asks(t, p, request).key).Some?
  }

  /** The record the gateway keeps under the request's key. */
  function Recorded(t: Tables, p: nat, request: Request): GatewayRefund
    requires p < |t.payments| && Known(t, p, request)
  {
    RecordAt(t.gateway, Asks(t, p, request).key).value
  }

  lemma OneStep(cfg: Config, t: Tables, k: Run, o: Outcome, rest: seq<Outcome>)
    requires InRange(t, k)
    ensures
      var turn := Advance(cfg, t, k, o);
      RunCall(cfg, t, k, [o] + rest)
      == match turn.next
         case Stop(r) => Ended(turn.tables, Some(r))
         case Go(k') => RunCall(cfg, turn.tables, k', rest)
  {
  }

  // ---------------------------------------------------------------- nothing more is paid

  /** A call on its way to the gateway carries the decided amount. */
  ghost predicate OnTrack(t: Tables, k: Run) {
    && InRange(t, k) && k.payment < |t.payments|
    && match k.at
       case Opening => Known(t, k.payment, k.request)
       case Totalling => Known(t, k.payment, k.request)
       case Retrieving(asked, _) => Known(t, k.payment, k.request) && Decided(t, k.payment, k.request) == Some(asked)
       case Paying(asked, _) => Known(t, k.payment, k.request) && Decided(t, k.payment, k.request) == Some(asked)
       case _ => true
  }

  lemma PayingTrack(cfg: Config, t: Tables, k: Run, o: Outcome)
    requires OnTrack(t, k) && k.at.Paying?
    ensures
      var turn := Advance(cfg, t, k, o);
      turn.tables.gateway == t.gateway && (turn.next.Go? ==> OnTrack(turn.tables, turn.next.run))
  {
    assert AskOf(t.payments[k.payment], k.payment, k.request, k.at.asked) == Asks(t, k.payment, k.request);
  }

  lemma ReadingTrack(cfg: Config, t: Tables, k: Run, o: Outcome)
    requires OnTrack(t, k) && (k.at.Opening? || k.at.Totalling? || k.at.Retrieving?)
    ensures
      var turn := Advance(cfg, t, k, o);
      turn.tables == t && (turn.next.Go? ==> OnTrack(t, turn.next.run))
  {
  }

  lemma TrackStep(cfg: Config, t: Tables, k: Run, o: Outcome)
    requires OnTrack(t, k)
    ensures
      var turn := Advance(cfg, t, k, o);
      turn.tables.gateway == t.gateway && (turn.next.Go? ==> OnTrack(turn.tables, turn.next.run))
  {
    if k.at.Paying? {
      PayingTrack(cfg, t, k, o);
    } else if k.at.Opening? || k.at.Totalling? || k.at.Retrieving? {
      ReadingTrack(cfg, t, k, o);
    }
  }

  /** A call with a key the gateway knows never adds to what the gateway has set aside, wherever it ends. */
  lemma {:induction false} RepeatPaysNothingMore(cfg: Config, t: Tables, k: Run, script: seq<Outcome>)
    requires OnTrack(t, k)
    ensures RunCall(cfg, t, k, script).tables.gateway == t.gateway
    decreases |script|
  {
    if script != [] {
      TrackStep(cfg, t, k, script[0]);
      var turn := Advance(cfg, t, k, script[0]);
      if turn.next.Go? {
        RepeatPaysNothingMore(cfg, turn.tables, turn.next.run, script[1..]);
      }
    }
  }

  // ---------------------------------------------------------------- a key that is used up

  predicate RowExists(refunds: seq<Refund>, gatewayRefundId: string) {
    exists i :: 0 <= i < |refunds| && refunds[i].gatewayRefundId == gatewayRefundId
  }

  /** The gateway knows the key from another request, or its refund already has its row. */
  predicate Spent(t: Tables, p: nat, request: Request) {
    && p < |t.payments| && Known(t, p, request)
    && (Asks(t, p, request) != Recorded(t, p, request).ask || RowExists(t.refunds, Recorded(t, p, request).id))
  }

  /** A call with a spent key, before its insert. */
  ghost predicate Blocked(t: Tables, k: Run) {
    && InRange(t, k) && Spent(t, k.payment, k.request)
    && match k.at
       case Opening => true
       case Totalling => true
       case Retrieving(asked, _) => Decided(t, k.payment, k.request) == Some(asked)
       case Paying(asked, _) => Decided(t, k.payment, k.request) == Some(asked)
       case Saving(_, _, gatewayRefundId, _, _) => RowExists(t.refunds, gatewayRefundId)
       case _ => false
  }

  lemma BlockedStep(cfg: Config, t: Tables, k: Run, o: Outcome)
    requires Blocked(t, k)
    ensures
      var turn := Advance(cfg, t, k, o);
      && turn.tables == t
      && (if turn.next.Go? then Blocked(t, turn.next.run) else turn.next.result.Error?)
  {
  }

  /** The derived key names payment intent, amount and reason only, while the request also carries the
      number drawn for it. So a second refund of the same amount for the same reason, though the balance
      allows it, is never made without a key of its own: the gateway refuses it under the key of the
      first, or answers the first refund if the numbers happen to be equal, whose row is there; under
      every outcome of every operation the call ends in an error, or dies, with nothing changed. */
  lemma {:induction false} SecondEqualRefundRefused(cfg: Config, t: Tables, k: Run, script: seq<Outcome>)
    requires Blocked(t, k)
    ensures
      var end := RunCall(cfg, t, k, script);
      end.tables == t && (end.result.Some? ==> end.result.value.Error?)
    decreases |script|
  {
    if script != [] {
      BlockedStep(cfg, t, k, script[0]);
      var turn := Advance(cfg, t, k, script[0]);
      if turn.next.Go? {
        SecondEqualRefundRefused(cfg, t, turn.next.run, script[1..]);
      }
    }
  }

  // ---------------------------------------------------------------- the missing row, by one call

  /** Everything the code demands of a request before the gateway is asked. */
  predicate MayRepeat(t: Tables, p: nat, request: Request)
    requires p < |t.payments|
  {
    && (t.payments[p].status == Success || t.payments[p].status == PartiallyRefunded)
    && t.payments[p].paymentIntentId.Some? && t.payments[p].paymentIntentId.value != ""
    && request.mayAccess && ValidReason(request.reason) && Decided(t, p, request).Some?
  }

  function StatusText(status: RefundStatus): (text: string)
    ensures MapStatus(text) == status
  {
    match status
    case RefundSucceeded => assert Lower("succeeded") == "succeeded"; "succeeded"
    case RefundFailed => assert Lower("failed") == "failed"; "failed"
    case RefundCanceled => assert Lower("canceled") == "canceled"; "canceled"
    case RefundPending => assert Lower("pending") == "pending"; "pending"
  }

  /** A row identifier not used yet. */
  function NewId(refunds: seq<Refund>): string {
    if refunds == [] then "r" else refunds[|refunds| - 1].id + NewId(refunds[..|refunds| - 1])
  }

  lemma {:induction false} NewIdIsNew(refunds: seq<Refund>)
    ensures |NewId(refunds)| > 0 && forall i :: 0 <= i < |refunds| ==> |refunds[i].id| < |NewId(refunds)|
    decreases |refunds|
  {
    if refunds != [] {
      var front := refunds[..|refunds| - 1];
      NewIdIsNew(front);
      forall i | 0 <= i < |refunds| ensures |refunds[i].id| < |NewId(refunds)| {
        if i < |front| { assert refunds[i] == front[i]; }
      }
    }
  }

  /** The script of a repeated call in which everything up to the insert succeeds. */
  function Smooth(record: GatewayRefund, id: string): seq<Outcome> {
    [Fine(0)] + ([Fine(0)] + ([Issued("", "succeeded")]
      + ([Issued(record.id, StatusText(record.status))] + ([Inserted(id)] + []))))
  }

  /** Up to the gateway, the call only reads. */
  lemma ReachesGateway(cfg: Config, t: Tables, p: nat, request: Request, rest: seq<Outcome>)
    requires p < |t.payments| == |t.orders| && MayRepeat(t, p, request)
    ensures
      var paying := Run(p, request, Paying(Decided(t, p, request).value, TotalRefunded(t.refunds, p)));
      && InRange(t, paying)
      && RunCall(cfg, t, Start(p, request), [Fine(0)] + ([Fine(0)] + ([Issued("", "succeeded")] + rest)))
         == RunCall(cfg, t, paying, rest)
  {
    var asked, total := Decided(t, p, request).value, TotalRefunded(t.refunds, p);
    var s2 := [Issued("", "succeeded")] + rest;
    OneStep(cfg, t, Start(p, request), Fine(0), [Fine(0)] + s2);
    OneStep(cfg, t, Run(p, request, Totalling), Fine(0), s2);
    OneStep(cfg, t, Run(p, request, Retrieving(asked, total)), Issued("", "succeeded"), rest);
  }

  /** The same request again, number and all: the gateway answers its record, and the row is saved. */
  lemma SameRequestSaves(cfg: Config, t: Tables, p: nat, request: Request)
    requires p < |t.payments| == |t.orders| && MayRepeat(t, p, request) && Known(t, p, request)
    requires Asks(t, p, request) == Recorded(t, p, request).ask
    requires !RowExists(t.refunds, Recorded(t, p, request).id)
    ensures
      var record := Recorded(t, p, request);
      var u := RunCall(cfg, t, Start(p, request), Smooth(record, NewId(t.refunds))).tables;
      u.refunds == t.refunds + [Refund(NewId(t.refunds), record.id, p, HalfUp(Decided(t, p, request).value),
          record.status)]
  {
    var asked, total, record := Decided(t, p, request).value, TotalRefunded(t.refunds, p), Recorded(t, p, request);
    var id, text := NewId(t.refunds), StatusText(record.status);
    NewIdIsNew(t.refunds);
    RefundRounding(asked, t.payments[p].amount, total);
    ReachesGateway(cfg, t, p, request, [Issued(record.id, text)] + ([Inserted(id)] + []));
    OneStep(cfg, t, Run(p, request, Paying(asked, total)), Issued(record.id, text), [Inserted(id)] + []);
    OneStep(cfg, t, Run(p, request, Saving(asked, total, record.id, record.status, 0)), Inserted(id), []);
  }

  ghost predicate CanSave(cfg: Config, t: Tables, p: nat, request: Request, gatewayRefundId: string)
    requires InRange(t, Start(p, request))
  {
    exists script :: RowExists(RunCall(cfg, t, Start(p, request), script).tables.refunds, gatewayRefundId)
  }

  /** A call that is let through to the gateway under the key of a refund without a row can save that row
      exactly when it is the very same request: amount, reason and drawn number. */
  lemma RepeatSavesExactly(cfg: Config, t: Tables, p: nat, request: Request)
    requires p < |t.payments| == |t.orders| && MayRepeat(t, p, request) && Known(t, p, request)
    requires !RowExists(t.refunds, Recorded(t, p, request).id)
    ensures CanSave(cfg, t, p, request, Recorded(t, p, request).id)
            <==> Asks(t, p, request) == Recorded(t, p, request).ask
  {
    var record := Recorded(t, p, request);
    if Asks(t, p, request) == record.ask {
      SameRequestSaves(cfg, t, p, request);
      var script := Smooth(record, NewId(t.refunds));
      var u := RunCall(cfg, t, Start(p, request), script).tables;
      assert u.refunds[|t.refunds|].gatewayRefundId == record.id;
      assert RowExists(u.refunds, record.id);
    } else {
      forall script ensures !RowExists(RunCall(cfg, t, Start(p, request), script).tables.refunds, record.id) {
        SecondEqualRefundRefused(cfg, t, Start(p, request), script);
      }
    }
  }
}
