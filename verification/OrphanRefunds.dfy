/** A refund the gateway has made and no row records, because the call was cut off between the two: whether
    any later call, in any run of the whole system, ever saves the row. */
module OrphanRefunds {
  import opened Domain
  import opened Store
  import opened Rounding
  import opened System
  import opened Shape
  import opened GatewaySafety
  import opened Conservation
  import opened RefundRecovery
  import opened Simulation
  import R = Refunds

  /** The gateway has the refund, no row does, and no call in progress is about to insert one or has drawn
      its number. */
  ghost predicate Abandoned(s: State, g: GatewayRefund) {
    && g in s.tables.gateway && !RowExists(s.tables.refunds, g.id)
    && (forall p :: p in s.calls ==> s.calls[p].request.number != g.ask.number)
    && (forall p :: p in s.calls && s.calls[p].at.Saving? ==> s.calls[p].at.gatewayRefundId != g.id)
  }

  /** Every refund call the actions start draws one of these numbers. */
  predicate Draws(actions: seq<Action>, numbers: set<string>) {
    forall i :: 0 <= i < |actions| && actions[i].StartRefund? ==> actions[i].request.number in numbers
  }

  // ---------------------------------------------------------------- other numbers never save it

  lemma OtherNumberStep(cfg: Config, t: Tables, k: R.Run, o: Outcome, g: GatewayRefund)
    requires R.InRange(t, k) && DistinctRecords(t.gateway) && g in t.gateway && !RowExists(t.refunds, g.id)
    requires k.request.number != g.ask.number && (k.at.Saving? ==> k.at.gatewayRefundId != g.id)
    ensures
      var turn := R.Advance(cfg, t, k, o);
      && g in turn.tables.gateway && !RowExists(turn.tables.refunds, g.id)
      && (turn.next.Go? && turn.next.run.at.Saving? ==> turn.next.run.at.gatewayRefundId != g.id)
  {
    if k.at.Paying? && o.Issued? {
      OtherNumberAnswer(t, R.AskOf(t.payments[k.payment], k.payment, k.request, k.at.asked),
                        t.payments[k.payment].amount, o.gatewayRefundId, R.MapStatus(o.gatewayStatus), g);
    } else if k.at.Saving? {
      var turn := R.Advance(cfg, t, k, o);
      RefundSides(cfg, t, k, o);
      if turn.tables.refunds != t.refunds {
        assert turn.tables.refunds == t.refunds + [turn.tables.refunds[|t.refunds|]];
      }
    }
  }

  /** The gateway answers a request with another number by another refund, or not at all. */
  lemma OtherNumberAnswer(t: Tables, ask: Ask, amount: nat, id: string, status: RefundStatus, g: GatewayRefund)
    requires DistinctRecords(t.gateway) && g in t.gateway && ask.number != g.ask.number
    ensures
      var after := R.Answer(t.gateway, ask, amount, id, status);
      after.Some? ==> g in after.value && id != g.id
  {
    var known := R.RecordAt(t.gateway, ask.key);
    var j :| 0 <= j < |t.gateway| && t.gateway[j] == g;
    if known.Some? {
      var i :| 0 <= i < |t.gateway| && t.gateway[i] == known.value;
      if i != j { assert t.gateway[i].id != t.gateway[j].id; }
    }
  }

  lemma StepAbandoned(s: State, p: nat, o: Outcome, g: GatewayRefund)
    requires Shaped(s) && DistinctRecords(s.tables.gateway) && Abandoned(s, g) && p in s.calls
    ensures Abandoned(RefundStep(s, p, o), g)
  {
    OtherNumberStep(s.cfg, s.tables, s.calls[p], o, g);
  }

  /** Steps of anyone but a refund call. */
  lemma FrameAbandoned(s: State, s': State, g: GatewayRefund)
    requires Abandoned(s, g)
    requires s'.tables.refunds == s.tables.refunds && s'.tables.gateway == s.tables.gateway
    requires forall p :: p in s'.calls ==>
               (p in s.calls && s'.calls[p] == s.calls[p])
               || (s'.calls[p].at.Opening? && s'.calls[p].request.number != g.ask.number)
    ensures Abandoned(s', g)
  {
  }

  /** What the other actions leave alone. */
  lemma OtherActions(s: State, a: Action)
    requires Shaped(s) && !a.StepRefund?
    ensures
      var s' := Apply(s, a);
      && s'.tables.refunds == s.tables.refunds && s'.tables.gateway == s.tables.gateway
      && forall p :: p in s'.calls ==>
           (p in s.calls && s'.calls[p] == s.calls[p])
           || (a.StartRefund? && s'.calls[p].at.Opening? && s'.calls[p].request == a.request)
  {
    match a
    case StepWorker(w, o) => if w in s.workers { WorkerWrites(s.cfg, s.tables, s.workers[w], o); }
    case _ =>
  }

  lemma ActionAbandoned(s: State, a: Action, g: GatewayRefund)
    requires Shaped(s) && DistinctRecords(s.tables.gateway) && Abandoned(s, g)
    requires a.StartRefund? ==> a.request.number != g.ask.number
    ensures Abandoned(Apply(s, a), g)
  {
    if !a.StepRefund? {
      OtherActions(s, a);
      FrameAbandoned(s, Apply(s, a), g);
    } else if a.payment in s.calls {
      StepAbandoned(s, a.payment, a.outcome, g);
    }
  }

  /** What is needed of a reachable state. */
  lemma ReachedParts(cfg: Config, prior: seq<Action>)
    ensures
      var s := Reached(cfg, prior);
      s.cfg == cfg && Shaped(s) && GatewayAgrees(s)
  {
    ReachedInv(cfg, prior);
  }

  lemma OneMore(cfg: Config, prior: seq<Action>, a: Action)
    ensures Reached(cfg, prior + [a]) == Apply(Reached(cfg, prior), a)
  {
    RunSplit(Initial(cfg), prior, [a]);
    assert [a][1..] == [];
  }

  lemma {:induction false} RunAbandoned(
    cfg: Config, prior: seq<Action>, actions: seq<Action>, numbers: set<string>, g: GatewayRefund)
    requires Abandoned(Reached(cfg, prior), g) && Draws(actions, numbers) && g.ask.number !in numbers
    ensures Abandoned(Run(Reached(cfg, prior), actions), g)
    decreases |actions|
  {
    if actions != [] {
      var a := actions[0];
      ReachedParts(cfg, prior);
      ActionAbandoned(Reached(cfg, prior), a, g);
      OneMore(cfg, prior, a);
      assert forall i :: 0 <= i < |actions[1..]| ==> actions[1..][i] == actions[i + 1];
      RunAbandoned(cfg, prior + [a], actions[1..], numbers, g);
    }
  }

  // ---------------------------------------------------------------- how a refund is abandoned

  /** The call on `p` ends without its row: it dies, or its operation ends it and inserts nothing. */
  predicate EndsWithoutRow(s: State, a: Action, p: nat) {
    && (a == CrashRefund(p) || (a.StepRefund? && a.payment == p))
    && p !in Apply(s, a).calls && |Apply(s, a).tables.refunds| == |s.tables.refunds|
  }

  /** Which operations end a call that way: any answer but a stored row and a collision with a try left. */
  lemma EndsWithoutRowExactly(s: State, p: nat, o: Outcome)
    requires Shaped(s) && p in s.calls && s.calls[p].at.Saving?
    ensures
      var at := s.calls[p].at;
      EndsWithoutRow(s, StepRefund(p, o), p) <==>
      && !(o.NumberTaken? && at.retries + 1 < R.MAX_RETRIES)
      && !(o.Inserted? && R.Fresh(s.tables.refunds, o.id, at.gatewayRefundId))
  {
  }

  /** Such an end writes nothing and leaves the other calls alone. */
  lemma EndLeaves(s: State, a: Action, p: nat)
    requires Shaped(s) && p in s.calls && s.calls[p].at.Saving? && EndsWithoutRow(s, a, p)
    ensures
      var s' := Apply(s, a);
      s'.tables.refunds == s.tables.refunds && s'.tables.gateway == s.tables.gateway && s'.calls == s.calls - {p}
  {
    if a.StepRefund? { RefundSides(s.cfg, s.tables, s.calls[p], a.outcome); }
  }

  /** No other call is about to save the same refund. */
  lemma SavesAnother(s: State, p: nat, q: nat, i: nat)
    requires Shaped(s) && GatewayAgrees(s) && q in s.calls && q != p && s.calls[q].at.Saving?
    requires i < |s.tables.gateway| && s.tables.gateway[i].ask.payment == p
    ensures s.calls[q].at.gatewayRefundId != s.tables.gateway[i].id
  {
    var k := s.calls[q];
    assert SavingBacked(s.tables, k);
    var j :| 0 <= j < |s.tables.gateway|
             && Backs(s.tables.gateway[j], s.tables.payments, k.at.gatewayRefundId, k.payment, HalfUp(k.at.asked),
                      k.at.status);
    assert i != j ==> s.tables.gateway[i].id != s.tables.gateway[j].id;
  }

  /** A call that ends between the gateway's answer and its row, by its death, a failed insert or one
      collision too many, leaves its refund abandoned, if nobody else has drawn its number. */
  lemma CutOffAbandons(s: State, a: Action, p: nat)
    requires Shaped(s) && GatewayAgrees(s) && p in s.calls && s.calls[p].at.Saving? && EndsWithoutRow(s, a, p)
    requires !RowExists(s.tables.refunds, s.calls[p].at.gatewayRefundId)
    requires forall q, g :: q in s.calls && q != p && g in s.tables.gateway && g.id == s.calls[p].at.gatewayRefundId ==>
               s.calls[q].request.number != g.ask.number
    ensures exists g :: g in s.tables.gateway && g.id == s.calls[p].at.gatewayRefundId && g.ask.payment == p
                        && Abandoned(Apply(s, a), g)
  {
    var k, s' := s.calls[p], Apply(s, a);
    EndLeaves(s, a, p);
    assert SavingBacked(s.tables, k);
    var i :| 0 <= i < |s.tables.gateway|
             && Backs(s.tables.gateway[i], s.tables.payments, k.at.gatewayRefundId, k.payment, HalfUp(k.at.asked),
                      k.at.status);
    var g := s.tables.gateway[i];
    forall q | q in s'.calls && s'.calls[q].at.Saving? ensures s'.calls[q].at.gatewayRefundId != g.id {
      SavesAnother(s, p, q, i);
    }
    assert Abandoned(s', g);
  }

  // ---------------------------------------------------------------- the theorem

  ghost predicate Saves(s: State, actions: seq<Action>, g: GatewayRefund) {
    RowExists(Run(s, actions).tables.refunds, g.id)
  }

  /** The same request, started again and carried through, saves the row. */
  lemma SavedByItsNumber(cfg: Config, prior: seq<Action>, g: GatewayRefund, request: R.Request)
    returns (actions: seq<Action>)
    requires
      var s := Reached(cfg, prior);
      && Abandoned(s, g) && g.ask.payment < |s.tables.payments| && g.ask.payment !in s.calls
      && MayRepeat(s.tables, g.ask.payment, request) && Asks(s.tables, g.ask.payment, request) == g.ask
    ensures Saves(Reached(cfg, prior), actions, g) && Draws(actions, {g.ask.number})
  {
    var s := Reached(cfg, prior);
    var p, t := g.ask.payment, s.tables;
    var script := Smooth(g, NewId(t.refunds));
    actions := [StartRefund(p, request)] + RefundActions(p, script);
    NoOtherStarts(p, script);
    assert Saves(s, actions, g) by {
      ReachedParts(cfg, prior);
      RecordedIs(t.gateway, g);
      SameRequestSaves(cfg, t, p, request);
      ReachedCall(cfg, prior, p, request, script);
      var u := Run(s, actions).tables;
      assert u.refunds[|t.refunds|].gatewayRefundId == g.id;
    }
  }

  lemma ReachedCall(cfg: Config, prior: seq<Action>, p: nat, request: R.Request, script: seq<Outcome>)
    requires p !in Reached(cfg, prior).calls
    requires |Reached(cfg, prior).tables.orders| == |Reached(cfg, prior).tables.payments|
    ensures
      var s := Reached(cfg, prior);
      Run(s, [StartRefund(p, request)] + RefundActions(p, script)).tables
      == R.RunCall(cfg, s.tables, R.Start(p, request), script).tables
  {
    ReachedInv(cfg, prior);
    CallIsARun(Reached(cfg, prior), p, request, script);
  }

  /** An abandoned refund of a payment without a call in progress, which some request the guards let
      through would repeat: with the numbers the later calls may draw, some run saves its row if and only
      if the number drawn for it is among them. The numbers are drawn at random for every call, so in
      practice the row is never saved, and the gateway's refund stays unknown to the tables. */
  lemma SavedOnlyWithItsNumber(
    cfg: Config, prior: seq<Action>, g: GatewayRefund, request: R.Request, numbers: set<string>)
    requires
      var s := Reached(cfg, prior);
      && Abandoned(s, g) && g.ask.payment < |s.tables.payments| && g.ask.payment !in s.calls
      && MayRepeat(s.tables, g.ask.payment, request) && Asks(s.tables, g.ask.payment, request) == g.ask
    ensures (exists actions :: Draws(actions, numbers) && Saves(Reached(cfg, prior), actions, g))
            <==> g.ask.number in numbers
  {
    if g.ask.number in numbers {
      var actions := SavedByItsNumber(cfg, prior, g, request);
      assert Draws(actions, numbers);
    } else {
      forall actions | Draws(actions, numbers) ensures !Saves(Reached(cfg, prior), actions, g) {
        RunAbandoned(cfg, prior, actions, numbers, g);
      }
    }
  }

  lemma RecordedIs(gateway: seq<GatewayRefund>, g: GatewayRefund)
    requires DistinctRecords(gateway) && g in gateway
    ensures R.RecordAt(gateway, g.ask.key) == Some(g)
  {
    var j :| 0 <= j < |gateway| && gateway[j] == g;
    var found := R.RecordAt(gateway, g.ask.key).value;
    var i :| 0 <= i < |gateway| && gateway[i] == found;
    assert i != j ==> gateway[i].ask.key != gateway[j].ask.key;
  }

  lemma {:induction false} NoOtherStarts(p: nat, script: seq<Outcome>)
    ensures forall i :: 0 <= i < |RefundActions(p, script)| ==> !RefundActions(p, script)[i].StartRefund?
    decreases |script|
  {
    if script != [] { NoOtherStarts(p, script[1..]); }
  }
}
