/** Two calls of `createRefund` on one payment at the same time: in every interleaving of their operations,
    with every outcome and death, and whatever anybody else does meanwhile that refunds nothing of this
    payment. */
module RefundRace {
  import opened Domain
  import opened Store
  import opened Rounding
  import opened System
  import opened Shape
  import opened GatewaySafety
  import opened Conservation
  import opened LostCredit
  import opened Payouts
  import R = Refunds

  /** One of the two calls: its run while it has one, the total its guard was given, whether the other
      call had its SUCCEEDED row by then, and the amount of its own SUCCEEDED row. */
  datatype Side = Side(run: Option<R.Run>, read: Option<nat>, late: bool, saved: Option<int>)

  datatype Duo = Duo(tables: Tables, sides: seq<Side>)

  datatype Move = Step(side: nat, outcome: Outcome) | Crash(side: nat) | Others(tables: Tables)

  function Opened(p: nat, request: R.Request): Side {
    Side(Some(R.Start(p, request)), None, false, None)
  }

  function Begin(t: Tables, p: nat, a: R.Request, b: R.Request): Duo {
    Duo(t, [Opened(p, a), Opened(p, b)])
  }

  function AfterStep(cfg: Config, t: Tables, side: Side, other: Side, o: Outcome): Side
    requires side.run.Some? && R.InRange(t, side.run.value)
  {
    var k := side.run.value;
    var turn := R.Advance(cfg, t, k, o);
    var run := if turn.next.Go? then Some(turn.next.run) else None;
    if k.at.Totalling? && turn.next.Go?
    then Side(run, Some(TotalRefunded(t.refunds, k.payment)), other.saved.Some?, None)
    else if k.at.Saving? && k.at.status == RefundSucceeded && |turn.tables.refunds| > |t.refunds|
    then side.(run := run, saved := Some(HalfUp(k.at.asked)))
    else side.(run := run)
  }

  /** The tables and the gateway agree as they do in every state the system reaches. */
  ghost predicate Agreed(t: Tables) {
    DistinctRecords(t.gateway) && Within(t) && DistinctRows(t.refunds) && AllBacked(t)
  }

  /** What others can do between two operations of the calls. */
  ghost predicate Interferes(t: Tables, t': Tables, p: nat) {
    && Grows(t, t') && |t'.orders| == |t'.payments|
    && TotalRefunded(t'.refunds, p) == TotalRefunded(t.refunds, p)
    && (Agreed(t) ==> Agreed(t'))
  }

  /** A move that cannot be made leaves everything alone. */
  ghost function Apply(cfg: Config, d: Duo, p: nat, m: Move): Duo
    requires |d.sides| == 2
    ensures |Apply(cfg, d, p, m).sides| == 2
  {
    match m
    case Step(i, o) =>
      if i < 2 && d.sides[i].run.Some? && R.InRange(d.tables, d.sides[i].run.value) then
        Duo(R.Advance(cfg, d.tables, d.sides[i].run.value, o).tables,
            d.sides[i := AfterStep(cfg, d.tables, d.sides[i], d.sides[1 - i], o)])
      else d
    case Crash(i) => if i < 2 then d.(sides := d.sides[i := d.sides[i].(run := None)]) else d
    case Others(t') => if Interferes(d.tables, t', p) then d.(tables := t') else d
  }

  ghost function Run(cfg: Config, d: Duo, p: nat, moves: seq<Move>): Duo
    requires |d.sides| == 2
    ensures |Run(cfg, d, p, moves).sides| == 2
    decreases |moves|
  {
    if moves == [] then d else Run(cfg, Apply(cfg, d, p, moves[0]), p, moves[1..])
  }

  // ---------------------------------------------------------------- what holds throughout

  /** The amount and the total a run was let through with. */
  predicate LetThrough(k: R.Run, asked: real, total: nat) {
    match k.at
    case Retrieving(a, n) => a == asked && n == total
    case Paying(a, n) => a == asked && n == total
    case Saving(a, n, _, _, _) => a == asked && n == total
    case _ => false
  }

  predicate Between(k: R.Run) {
    k.at.Retrieving? || k.at.Paying? || k.at.Saving?
  }

  /** A call on its own; `amount` is the payment's. */
  predicate SideOk(side: Side, p: nat, amount: nat) {
    && (side.read.None? ==> side.saved.None? && !side.late)
    && (side.saved.Some? ==> side.saved.value + side.read.value <= amount)
    && (side.run.Some? ==>
          var k := side.run.value;
          && k.payment == p
          && (k.at.Opening? || k.at.Totalling? ==> side.read.None?)
          && (Between(k) ==>
                && side.saved.None? && side.read == Some(k.at.total) && LetThrough(k, k.at.asked, k.at.total)
                && 0.0 < k.at.asked <= amount as real - k.at.total as real)
          && (AfterInsert(k) ==> side.read.Some?))
  }

  function Saved(side: Side): int {
    match side.saved case None => 0 case Some(a) => a
  }

  /** What the call read is what had been refunded before both, with the other's row if it was there. */
  predicate ReadOk(side: Side, other: Side, before: nat) {
    && (side.late ==> other.saved.Some?)
    && (side.read.Some? ==> side.read.value == before + (if side.late then Saved(other) else 0))
  }

  ghost predicate Inv(d: Duo, p: nat, before: nat, amount: nat) {
    && |d.sides| == 2 && |d.tables.orders| == |d.tables.payments|
    && p < |d.tables.payments| && d.tables.payments[p].amount == amount
    && (forall i :: 0 <= i < 2 && d.sides[i].run.Some? ==> R.InRange(d.tables, d.sides[i].run.value))
    && SideOk(d.sides[0], p, amount) && SideOk(d.sides[1], p, amount)
    && ReadOk(d.sides[0], d.sides[1], before) && ReadOk(d.sides[1], d.sides[0], before)
    && !(d.sides[0].late && d.sides[1].late)
    && TotalRefunded(d.tables.refunds, p) == before + Saved(d.sides[0]) + Saved(d.sides[1])
  }

  /** One operation, as far as amounts are concerned. */
  lemma StepAmounts(cfg: Config, t: Tables, k: R.Run, o: Outcome)
    requires R.InRange(t, k)
    ensures
      var turn := R.Advance(cfg, t, k, o);
      turn.next.Go? ==>
        var k' := turn.next.run;
        && !k'.at.Opening?
        && (k.at.Totalling? ==> Between(k') && k'.at.total == TotalRefunded(t.refunds, k.payment)
                                && 0.0 < k'.at.asked <= t.payments[k.payment].amount as real - k'.at.total as real)
        && (k'.at.Totalling? ==> k.at.Opening?)
        && (Between(k') && !k.at.Totalling? ==> Between(k) && k'.at.asked == k.at.asked && k'.at.total == k.at.total
                                                && turn.tables.refunds == t.refunds)
        && (AfterInsert(k') ==> AfterInsert(k) || k.at.Saving?)
  {
  }

  /** One operation, as far as the refunds are concerned. */
  lemma StepTotal(cfg: Config, t: Tables, k: R.Run, o: Outcome)
    requires R.InRange(t, k)
    ensures
      var t' := R.Advance(cfg, t, k, o).tables;
      TotalRefunded(t'.refunds, k.payment) == TotalRefunded(t.refunds, k.payment)
        + (if k.at.Saving? && k.at.status == RefundSucceeded && |t'.refunds| > |t.refunds| then HalfUp(k.at.asked)
           else 0)
  {
    var t' := R.Advance(cfg, t, k, o).tables;
    RefundSides(cfg, t, k, o);
    if |t'.refunds| > |t.refunds| {
      assert t'.refunds == t.refunds + [t'.refunds[|t.refunds|]];
      TotalRefundedAppend(t.refunds, t'.refunds[|t.refunds|], k.payment);
    }
  }

  lemma InRangeStays(t: Tables, t': Tables, k: R.Run)
    requires R.InRange(t, k) && Grows(t, t') && |t'.orders| == |t'.payments|
    ensures R.InRange(t', k)
  {
  }

  lemma SideStep(cfg: Config, t: Tables, side: Side, other: Side, o: Outcome, p: nat, amount: nat)
    requires side.run.Some? && R.InRange(t, side.run.value) && SideOk(side, p, amount)
    requires p < |t.payments| && t.payments[p].amount == amount
    ensures SideOk(AfterStep(cfg, t, side, other, o), p, amount)
  {
    var k := side.run.value;
    StepAmounts(cfg, t, k, o);
    if Between(k) { RefundRounding(k.at.asked, amount, k.at.total); }
  }

  lemma ReadStep(cfg: Config, t: Tables, side: Side, other: Side, o: Outcome, p: nat, amount: nat, before: nat)
    requires side.run.Some? && R.InRange(t, side.run.value) && SideOk(side, p, amount)
    requires ReadOk(side, other, before) && ReadOk(other, side, before) && !(side.late && other.late)
    requires TotalRefunded(t.refunds, p) == before + Saved(side) + Saved(other)
    ensures
      var side' := AfterStep(cfg, t, side, other, o);
      && ReadOk(side', other, before) && ReadOk(other, side', before) && !(side'.late && other.late)
      && Saved(side') == Saved(side) + TotalRefunded(R.Advance(cfg, t, side.run.value, o).tables.refunds, p)
                         - TotalRefunded(t.refunds, p)
  {
    StepTotal(cfg, t, side.run.value, o);
  }

  /** One side replaced, the other as it was. */
  lemma Replaced(d: Duo, i: nat, t': Tables, side': Side, p: nat, before: nat, amount: nat)
    requires Inv(d, p, before, amount) && i < 2 && Grows(d.tables, t') && |t'.orders| == |t'.payments|
    requires SideOk(side', p, amount) && (side'.run.Some? ==> R.InRange(t', side'.run.value))
    requires ReadOk(side', d.sides[1 - i], before) && ReadOk(d.sides[1 - i], side', before)
    requires !(side'.late && d.sides[1 - i].late)
    requires TotalRefunded(t'.refunds, p) == before + Saved(side') + Saved(d.sides[1 - i])
    ensures Inv(Duo(t', d.sides[i := side']), p, before, amount)
  {
    var other := d.sides[1 - i];
    if other.run.Some? { InRangeStays(d.tables, t', other.run.value); }
    assert d.sides[i := side'][1 - i] == other;
  }

  lemma StepInv(cfg: Config, d: Duo, i: nat, o: Outcome, p: nat, before: nat, amount: nat)
    requires Inv(d, p, before, amount) && i < 2 && d.sides[i].run.Some?
    ensures Inv(Apply(cfg, d, p, Step(i, o)), p, before, amount)
  {
    var side, other := d.sides[i], d.sides[1 - i];
    RefundGrows(cfg, d.tables, side.run.value, o);
    SideStep(cfg, d.tables, side, other, o, p, amount);
    ReadStep(cfg, d.tables, side, other, o, p, amount, before);
    Replaced(d, i, R.Advance(cfg, d.tables, side.run.value, o).tables, AfterStep(cfg, d.tables, side, other, o), p,
             before, amount);
  }

  lemma OthersInv(cfg: Config, d: Duo, t': Tables, p: nat, before: nat, amount: nat)
    requires Inv(d, p, before, amount)
    ensures Inv(Apply(cfg, d, p, Others(t')), p, before, amount)
  {
    if Interferes(d.tables, t', p) {
      if d.sides[0].run.Some? { InRangeStays(d.tables, t', d.sides[0].run.value); }
      if d.sides[1].run.Some? { InRangeStays(d.tables, t', d.sides[1].run.value); }
    }
  }

  lemma MoveInv(cfg: Config, d: Duo, m: Move, p: nat, before: nat, amount: nat)
    requires Inv(d, p, before, amount)
    ensures Inv(Apply(cfg, d, p, m), p, before, amount)
  {
    match m
    case Step(i, o) => if i < 2 && d.sides[i].run.Some? { StepInv(cfg, d, i, o, p, before, amount); }
    case Crash(i) =>
    case Others(t') => OthersInv(cfg, d, t', p, before, amount);
  }

  lemma {:induction false} RunInv(cfg: Config, d: Duo, moves: seq<Move>, p: nat, before: nat, amount: nat)
    requires Inv(d, p, before, amount)
    ensures Inv(Run(cfg, d, p, moves), p, before, amount)
    decreases |moves|
  {
    if moves != [] {
      MoveInv(cfg, d, moves[0], p, before, amount);
      RunInv(cfg, Apply(cfg, d, p, moves[0]), moves[1..], p, before, amount);
    }
  }

  lemma BeginInv(t: Tables, p: nat, a: R.Request, b: R.Request)
    requires p < |t.payments| == |t.orders|
    ensures Inv(Begin(t, p, a, b), p, TotalRefunded(t.refunds, p), t.payments[p].amount)
  {
  }

  /** Two refund calls on one payment, from the first operation of each, in every interleaving, with every
      outcome, death and interference: more than the payment is refunded in the table exactly when both
      calls saved a SUCCEEDED row, each read the total before the other's row was there, and the two
      amounts together exceed what was left. Taken one after the other they never do. */
  lemma OverRefundExactly(cfg: Config, t: Tables, p: nat, a: R.Request, b: R.Request, moves: seq<Move>)
    requires p < |t.payments| == |t.orders| && TotalRefunded(t.refunds, p) <= t.payments[p].amount
    ensures
      var u := Run(cfg, Begin(t, p, a, b), p, moves);
      var before, amount := TotalRefunded(t.refunds, p), t.payments[p].amount;
      && TotalRefunded(u.tables.refunds, p) == before + Saved(u.sides[0]) + Saved(u.sides[1])
      && (TotalRefunded(u.tables.refunds, p) > amount <==>
            && u.sides[0].saved.Some? && u.sides[1].saved.Some? && !u.sides[0].late && !u.sides[1].late
            && u.sides[0].saved.value + u.sides[1].saved.value > amount - before)
  {
    BeginInv(t, p, a, b);
    RunInv(cfg, Begin(t, p, a, b), moves, p, TotalRefunded(t.refunds, p), t.payments[p].amount);
  }

  // ---------------------------------------------------------------- the gateway's side

  ghost predicate SideBacked(t: Tables, side: Side) {
    side.run.Some? ==> SavingBacked(t, side.run.value)
  }

  ghost predicate DuoAgrees(d: Duo, p: nat, amount: nat) {
    && |d.sides| == 2 && Agreed(d.tables) && p < |d.tables.payments| && d.tables.payments[p].amount == amount
    && SideBacked(d.tables, d.sides[0]) && SideBacked(d.tables, d.sides[1])
  }

  lemma BackedStays(t: Tables, t': Tables, side: Side)
    requires Grows(t, t') && SideBacked(t, side)
    ensures SideBacked(t', side)
  {
    if side.run.Some? { SavingStays(t, t', side.run.value); }
  }

  lemma StepAgrees(cfg: Config, t: Tables, k: R.Run, o: Outcome)
    requires R.InRange(t, k) && Agreed(t) && SavingBacked(t, k)
    requires Between(k) ==> k.at.asked <= t.payments[k.payment].amount as real
    ensures var turn := R.Advance(cfg, t, k, o);
            Agreed(turn.tables) && (turn.next.Go? ==> SavingBacked(turn.tables, turn.next.run))
  {
    RowsAgree(cfg, t, k, o);
    if k.at.Paying? {
      PayingAgrees(cfg, t, k, o);
    } else {
      RefundGrows(cfg, t, k, o);
      RefundSides(cfg, t, k, o);
      OwnSaving(cfg, t, k, o);
      WithinGrows(t, R.Advance(cfg, t, k, o).tables);
    }
  }

  lemma OwnMoveAgrees(cfg: Config, d: Duo, i: nat, o: Outcome, p: nat, amount: nat)
    requires DuoAgrees(d, p, amount) && i < 2 && d.sides[i].run.Some? && R.InRange(d.tables, d.sides[i].run.value)
    requires d.sides[i].run.value.payment == p && SideOk(d.sides[i], p, amount)
    ensures DuoAgrees(Apply(cfg, d, p, Step(i, o)), p, amount)
  {
    var d', k := Apply(cfg, d, p, Step(i, o)), d.sides[i].run.value;
    StepAgrees(cfg, d.tables, k, o);
    RefundGrows(cfg, d.tables, k, o);
    assert d'.sides[1 - i] == d.sides[1 - i];
    BackedStays(d.tables, d'.tables, d.sides[1 - i]);
  }

  lemma OthersAgreed(cfg: Config, d: Duo, t': Tables, p: nat, amount: nat)
    requires DuoAgrees(d, p, amount)
    ensures DuoAgrees(Apply(cfg, d, p, Others(t')), p, amount)
  {
    if Interferes(d.tables, t', p) {
      BackedStays(d.tables, t', d.sides[0]);
      BackedStays(d.tables, t', d.sides[1]);
    }
  }

  lemma MoveAgrees(cfg: Config, d: Duo, m: Move, p: nat, before: nat, amount: nat)
    requires Inv(d, p, before, amount) && DuoAgrees(d, p, amount)
    ensures DuoAgrees(Apply(cfg, d, p, m), p, amount)
  {
    match m
    case Step(i, o) => if i < 2 && d.sides[i].run.Some? { OwnMoveAgrees(cfg, d, i, o, p, amount); }
    case Crash(i) =>
    case Others(t') => OthersAgreed(cfg, d, t', p, amount);
  }

  lemma {:induction false} RunAgrees(cfg: Config, d: Duo, moves: seq<Move>, p: nat, before: nat, amount: nat)
    requires Inv(d, p, before, amount) && DuoAgrees(d, p, amount)
    ensures DuoAgrees(Run(cfg, d, p, moves), p, amount)
    decreases |moves|
  {
    if moves != [] {
      MoveInv(cfg, d, moves[0], p, before, amount);
      MoveAgrees(cfg, d, moves[0], p, before, amount);
      RunAgrees(cfg, Apply(cfg, d, p, moves[0]), moves[1..], p, before, amount);
    }
  }

  /** A refund sent without an amount, for which the gateway set aside less than the whole payment. */
  ghost predicate PaidShort(t: Tables, p: nat, amount: nat) {
    exists i :: 0 <= i < |t.gateway| && t.gateway[i].ask.payment == p && R.Counts(t.gateway[i].status)
                && t.gateway[i].ask.payload.None? && t.gateway[i].paid < amount
  }

  /** The rows of agreeing tables exceed the payment only if the gateway set aside less than one of them says. */
  lemma ExcessIsStated(t: Tables, p: nat)
    requires Agreed(t) && p < |t.payments| && TotalRefunded(t.refunds, p) > t.payments[p].amount
    ensures PaidShort(t, p, t.payments[p].amount)
  {
    SucceededWithinRows(t.refunds, p);
    if AllExact(t.gateway, p, t.payments[p].amount) {
      forall i | 0 <= i < |t.refunds| ensures BackedIn(t.gateway, t.payments, t.refunds[i]) {
        assert RowBacked(t, t.refunds[i]);
      }
      RowsWithinGateway(t.refunds, t.gateway, t.payments, p);
    } else {
      var i :| 0 <= i < |t.gateway| && t.gateway[i].ask.payment == p && R.Counts(t.gateway[i].status)
               && !Exact(t.gateway[i], t.payments[p].amount);
      assert Fits(t.gateway[i], t.payments);
    }
  }

  lemma ReachedAgreed(cfg: Config, prior: seq<System.Action>)
    ensures var t := Reached(cfg, prior).tables; |t.orders| == |t.payments| && Agreed(t)
  {
    ReachedInv(cfg, prior);
  }

  lemma FromAgreed(cfg: Config, t: Tables, p: nat, a: R.Request, b: R.Request, moves: seq<Move>)
    requires p < |t.payments| == |t.orders| && Agreed(t)
    ensures
      var u, amount := Run(cfg, Begin(t, p, a, b), p, moves).tables, t.payments[p].amount;
      && R.Held(u.gateway, p) <= amount
      && (TotalRefunded(u.refunds, p) > amount ==> PaidShort(u, p, amount))
  {
    var d, before, amount := Begin(t, p, a, b), TotalRefunded(t.refunds, p), t.payments[p].amount;
    BeginInv(t, p, a, b);
    RunAgrees(cfg, d, moves, p, before, amount);
    var u := Run(cfg, d, p, moves).tables;
    if TotalRefunded(u.refunds, p) > amount { ExcessIsStated(u, p); }
  }

  /** From every state the system reaches, the gateway never sets aside more than the payment, however two
      calls overlap; so when the table says that more was refunded, one of the refunds was sent without an
      amount and the gateway paid less than the whole payment for it. */
  lemma OverRefundIsUnpaid(cfg: Config, prior: seq<System.Action>, p: nat, a: R.Request, b: R.Request, moves: seq<Move>)
    requires p < |Reached(cfg, prior).tables.payments|
    ensures
      var t := Reached(cfg, prior).tables;
      && |t.orders| == |t.payments|
      && (var u, amount := Run(cfg, Begin(t, p, a, b), p, moves).tables, t.payments[p].amount;
          && R.Held(u.gateway, p) <= amount
          && (TotalRefunded(u.refunds, p) > amount ==> PaidShort(u, p, amount)))
  {
    ReachedAgreed(cfg, prior);
    FromAgreed(cfg, Reached(cfg, prior).tables, p, a, b, moves);
  }

  // ---------------------------------------------------------------- a run in which it happens

  /** One operation of one call. */
  lemma StepTo(cfg: Config, t: Tables, sides: seq<Side>, i: nat, o: Outcome, turn: R.Turn, side: Side, rest: seq<Move>)
    requires |sides| == 2 && i < 2 && sides[i].run.Some? && R.InRange(t, sides[i].run.value)
    requires R.Advance(cfg, t, sides[i].run.value, o) == turn
    requires AfterStep(cfg, t, sides[i], sides[1 - i], o) == side
    ensures Run(cfg, Duo(t, sides), 0, [Step(i, o)] + rest) == Run(cfg, Duo(turn.tables, sides[i := side]), 0, rest)
  {
  }

  function ReadMoves(i: nat, rest: seq<Move>): seq<Move> {
    [Step(i, Fine(0))] + ([Step(i, Fine(0))] + ([Step(i, Issued("", "succeeded"))] + rest))
  }

  /** Both calls read and are let through; the part is paid and saved, and then the whole. */
  function BothRead(): seq<Move> {
    ReadMoves(0, ReadMoves(1,
      [Step(0, Issued("re1", "succeeded"))] + ([Step(0, Inserted("ref1"))]
      + ([Step(1, Issued("re2", "succeeded"))] + ([Step(1, Inserted("ref2"))] + [])))))
  }

  function Through(request: R.Request, asked: real): Side {
    Side(Some(R.Run(0, request, R.Paying(asked, 0))), Some(0), false, None)
  }

  lemma ReadTurns(cfg: Config, amount: nat, request: R.Request, asked: real)
    requires request.mayAccess && request.reason.None? && R.Guard(amount, 0, request.asked) == Some(asked)
    ensures
      var t := Confirmed(amount);
      && R.Advance(cfg, t, R.Start(0, request), Fine(0)) == R.Turn(t, R.Go(R.Run(0, request, R.Totalling)))
      && R.Advance(cfg, t, R.Run(0, request, R.Totalling), Fine(0))
         == R.Turn(t, R.Go(R.Run(0, request, R.Retrieving(asked, 0))))
      && R.Advance(cfg, t, R.Run(0, request, R.Retrieving(asked, 0)), Issued("", "succeeded"))
         == R.Turn(t, R.Go(R.Run(0, request, R.Paying(asked, 0))))
  {
  }

  lemma Reads(cfg: Config, amount: nat, sides: seq<Side>, i: nat, request: R.Request, asked: real, rest: seq<Move>)
    requires |sides| == 2 && i < 2 && sides[i] == Opened(0, request) && sides[1 - i].saved.None?
    requires request.mayAccess && request.reason.None? && R.Guard(amount, 0, request.asked) == Some(asked)
    ensures Run(cfg, Duo(Confirmed(amount), sides), 0, ReadMoves(i, rest))
            == Run(cfg, Duo(Confirmed(amount), sides[i := Through(request, asked)]), 0, rest)
  {
    var t, last := Confirmed(amount), [Step(i, Issued("", "succeeded"))] + rest;
    ReadTurns(cfg, amount, request, asked);
    var k1, k2 := R.Run(0, request, R.Totalling), R.Run(0, request, R.Retrieving(asked, 0));
    var s1, s2 := Side(Some(k1), None, false, None), Side(Some(k2), Some(0), false, None);
    StepTo(cfg, t, sides, i, Fine(0), R.Turn(t, R.Go(k1)), s1, [Step(i, Fine(0))] + last);
    assert sides[i := s1][1 - i] == sides[1 - i] && sides[i := s1][i := s2] == sides[i := s2];
    StepTo(cfg, t, sides[i := s1], i, Fine(0), R.Turn(t, R.Go(k2)), s2, last);
    assert sides[i := s2][1 - i] == sides[1 - i];
    StepTo(cfg, t, sides[i := s2], i, Issued("", "succeeded"), R.Turn(t, R.Go(R.Run(0, request, R.Paying(asked, 0)))),
           Through(request, asked), rest);
    assert sides[i := s2][i := Through(request, asked)] == sides[i := Through(request, asked)];
  }

  function PartPaid(part: nat): GatewayRefund {
    PartRecord(part).(status := RefundSucceeded)
  }

  function PartSaved(amount: nat, part: nat): Tables {
    Confirmed(amount).(refunds := [Refund("ref1", "re1", 0, part, RefundSucceeded)], gateway := [PartPaid(part)])
  }

  function PartSaver(part: nat): R.Run {
    R.Run(0, PartRequest(part), R.Saving(part as real, 0, "re1", RefundSucceeded, 0))
  }

  function WholeSaver(amount: nat): R.Run {
    R.Run(0, WholeRequest(), R.Saving(amount as real, 0, "re2", RefundSucceeded, 0))
  }

  function PartMover(part: nat): R.Run {
    R.Run(0, PartRequest(part), R.Moving(0, false))
  }

  lemma PartTurns(cfg: Config, amount: nat, part: nat)
    requires 0 < part < amount
    ensures
      var t := Confirmed(amount);
      var paid := t.(gateway := [PartPaid(part)]);
      && R.Advance(cfg, t, R.Run(0, PartRequest(part), R.Paying(part as real, 0)), Issued("re1", "succeeded"))
         == R.Turn(paid, R.Go(PartSaver(part)))
      && R.Advance(cfg, paid, PartSaver(part), Inserted("ref1"))
         == R.Turn(PartSaved(amount, part), R.Go(PartMover(part)))
  {
    assert Lower("succeeded") == "succeeded";
    HalfUpOfInt(part);
    assert part as real != amount as real;
    assert Confirmed(amount).gateway + [PartPaid(part)] == [PartPaid(part)];
  }

  lemma PartIsSaved(cfg: Config, amount: nat, part: nat, rest: seq<Move>)
    requires 0 < part < amount
    ensures
      Run(cfg, Duo(Confirmed(amount), [Through(PartRequest(part), part as real),
                                       Through(WholeRequest(), amount as real)]), 0,
          [Step(0, Issued("re1", "succeeded"))] + ([Step(0, Inserted("ref1"))] + rest))
      == Run(cfg, Duo(PartSaved(amount, part), [Side(Some(PartMover(part)), Some(0), false, Some(part)),
                                                Through(WholeRequest(), amount as real)]), 0, rest)
  {
    var t, whole := Confirmed(amount), Through(WholeRequest(), amount as real);
    PartTurns(cfg, amount, part);
    HalfUpOfInt(part);
    var saving, saved := Side(Some(PartSaver(part)), Some(0), false, None),
        Side(Some(PartMover(part)), Some(0), false, Some(part));
    var paid := R.Turn(t.(gateway := [PartPaid(part)]), R.Go(PartSaver(part)));
    var sides := [Through(PartRequest(part), part as real), whole];
    StepTo(cfg, t, sides, 0, Issued("re1", "succeeded"), paid, saving, [Step(0, Inserted("ref1"))] + rest);
    assert sides[0 := saving] == [saving, whole] && [saving, whole][0 := saved] == [saved, whole];
    StepTo(cfg, paid.tables, [saving, whole], 0, Inserted("ref1"),
           R.Turn(PartSaved(amount, part), R.Go(PartMover(part))), saved, rest);
  }

  lemma WholeTurns(cfg: Config, amount: nat, part: nat)
    requires 0 < part < amount
    ensures
      var t := PartSaved(amount, part);
      var paid := t.(gateway := t.gateway + [RestRecord(amount, part)]);
      && R.Advance(cfg, t, R.Run(0, WholeRequest(), R.Paying(amount as real, 0)), Issued("re2", "succeeded"))
         == R.Turn(paid, R.Go(WholeSaver(amount)))
      && (var turn := R.Advance(cfg, paid, WholeSaver(amount), Inserted("ref2"));
          |turn.tables.refunds| == 2 && turn.next == R.Go(R.Run(0, WholeRequest(), R.Moving(1, true))))
  {
    assert Lower("succeeded") == "succeeded";
    HalfUpOfInt(amount);
    WholeAnswered(amount, part);
  }

  lemma WholeIsSaved(cfg: Config, amount: nat, part: nat, first: Side)
    requires 0 < part < amount
    ensures
      var u := Run(cfg, Duo(PartSaved(amount, part), [first, Through(WholeRequest(), amount as real)]), 0,
                   [Step(1, Issued("re2", "succeeded"))] + ([Step(1, Inserted("ref2"))] + []));
      u.sides[0] == first && u.sides[1].saved == Some(amount as int) && !u.sides[1].late
  {
    var t, through := PartSaved(amount, part), Through(WholeRequest(), amount as real);
    WholeTurns(cfg, amount, part);
    HalfUpOfInt(amount);
    var saving := Side(Some(WholeSaver(amount)), Some(0), false, None);
    var paid := R.Turn(t.(gateway := t.gateway + [RestRecord(amount, part)]), R.Go(WholeSaver(amount)));
    StepTo(cfg, t, [first, through], 1, Issued("re2", "succeeded"), paid, saving, [Step(1, Inserted("ref2"))] + []);
    assert [first, through][1 := saving] == [first, saving];
    StepTo(cfg, paid.tables, [first, saving], 1, Inserted("ref2"),
           R.Advance(cfg, paid.tables, WholeSaver(amount), Inserted("ref2")),
           Side(Some(R.Run(0, WholeRequest(), R.Moving(1, true))), Some(0), false, Some(amount as int)), []);
  }

  lemma WholeAnswered(amount: nat, part: nat)
    requires 0 < part < amount
    ensures R.Answer(PartSaved(amount, part).gateway, RestRecord(amount, part).ask, amount, "re2", RefundSucceeded)
            == Some(PartSaved(amount, part).gateway + [RestRecord(amount, part)])
  {
    var gateway, g := PartSaved(amount, part).gateway, RestRecord(amount, part);
    HeldAppend([], gateway[0], 0);
    assert [] + [gateway[0]] == gateway;
    assert amount as real != part as real;
    assert R.RecordAt(gateway, g.ask.key) == None by { assert gateway[1..] == []; }
    assert R.Grant(gateway, g.ask, amount) == Some(amount - part);
    assert gateway[0].id != "re2";
  }

  lemma BothSaved(cfg: Config, amount: nat, part: nat)
    requires 0 < part < amount
    ensures
      var u := Run(cfg, Begin(Confirmed(amount), 0, PartRequest(part), WholeRequest()), 0, BothRead());
      u.sides[0].saved == Some(part as int) && u.sides[1].saved == Some(amount as int)
  {
    var part', whole := PartRequest(part), WholeRequest();
    var sides := [Opened(0, part'), Opened(0, whole)];
    var half := sides[0 := Through(part', part as real)];
    var rest := [Step(1, Issued("re2", "succeeded"))] + ([Step(1, Inserted("ref2"))] + []);
    var paySave := [Step(0, Issued("re1", "succeeded"))] + ([Step(0, Inserted("ref1"))] + rest);
    Reads(cfg, amount, sides, 0, part', part as real, ReadMoves(1, paySave));
    Reads(cfg, amount, half, 1, whole, amount as real, paySave);
    assert half[1 := Through(whole, amount as real)] == [Through(part', part as real), Through(whole, amount as real)];
    PartIsSaved(cfg, amount, part, rest);
    WholeIsSaved(cfg, amount, part, Side(Some(PartMover(part)), Some(0), false, Some(part)));
  }

  /** It happens, for every payment and every part of it: the part and "the whole payment", overlapped, are
      both refunded in the table of a state the system reaches. */
  lemma OverRefundHappens(cfg: Config, amount: nat, part: nat)
    requires 0 < part < amount
    ensures
      var t := Reached(cfg, Prepared(amount) + Delivery()).tables;
      && |t.orders| == |t.payments| == 1 && t.payments[0].amount == amount && TotalRefunded(t.refunds, 0) == 0
      && TotalRefunded(Run(cfg, Begin(t, 0, PartRequest(part), WholeRequest()), 0, BothRead()).tables.refunds, 0)
         == amount + part
  {
    ConfirmedReached(cfg, amount);
    BothSaved(cfg, amount, part);
    OverRefundExactly(cfg, Confirmed(amount), 0, PartRequest(part), WholeRequest(), BothRead());
  }
}
