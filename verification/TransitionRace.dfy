/** `transition` as it is written, without a lock: any number of calls on one payment, each reading the
    row, checking, and writing it and then the order in operations of their own, in every interleaving,
    with failures and deaths anywhere. */
module TransitionRace {
  import opened Domain
  import opened StateMachine

  datatype Caller =
    | Reading(target: PaymentStatus)
    | Writing(target: PaymentStatus, seen: PaymentStatus)  // the check against `seen` has passed
    | Syncing(target: PaymentStatus)
    | Ended

  /** One write of the payment row: the status the caller had read, the one it wrote over, and its own. */
  datatype Write = Write(seen: PaymentStatus, over: PaymentStatus, target: PaymentStatus)

  /** `held` lists the statuses the payment has had, in order. */
  datatype State = State(status: PaymentStatus, order: OrderStatus, callers: seq<Caller>,
                         held: seq<PaymentStatus>, writes: seq<Write>)

  datatype Action = Arrive(target: PaymentStatus) | Step(caller: nat, fault: bool)

  function Place(s: State, i: nat, c: Caller): State
    requires i < |s.callers|
  {
    s.(callers := s.callers[i := c])
  }

  /** A failed operation and a death end the call alike. */
  function StepCaller(s: State, i: nat): State
    requires i < |s.callers|
  {
    match s.callers[i]
    case Reading(target) =>
      if s.status == target || !CanTransition(s.status, target) then Place(s, i, Ended)
      else Place(s, i, Writing(target, s.status))
    case Writing(target, seen) =>
      var after := if OrderWrite(target).Some? then Syncing(target) else Ended;
      Place(s, i, after).(status := target,
                          held := if s.status == target then s.held else s.held + [target],
                          writes := s.writes + [Write(seen, s.status, target)])
    case Syncing(target) => Place(s, i, Ended).(order := Image(target))
    case Ended => s
  }

  function Apply(s: State, a: Action): State {
    match a
    case Arrive(target) => s.(callers := s.callers + [Reading(target)])
    case Step(i, fault) =>
      if i >= |s.callers| then s else if fault then Place(s, i, Ended) else StepCaller(s, i)
  }

  function Run(s: State, actions: seq<Action>): State
    decreases |actions|
  {
    if actions == [] then s else Run(Apply(s, actions[0]), actions[1..])
  }

  function Start(from: PaymentStatus, callers: seq<Caller>): State {
    State(from, Image(from), callers, [from], [])
  }

  // ---------------------------------------------------------------- any number of calls

  /** A write that lands on the status its caller has read. */
  predicate Undisturbed(w: Write) {
    w.seen == w.over
  }

  ghost predicate Sound(s: State) {
    && |s.held| > 0 && s.held[|s.held| - 1] == s.status
    && (forall i :: 0 <= i < |s.callers| && s.callers[i].Writing? ==>
          s.callers[i].seen != s.callers[i].target && CanTransition(s.callers[i].seen, s.callers[i].target))
    && (forall k :: 0 <= k < |s.writes| ==>
          s.writes[k].seen != s.writes[k].target && CanTransition(s.writes[k].seen, s.writes[k].target))
    && ((forall k :: 0 <= k < |s.writes| ==> Undisturbed(s.writes[k])) ==> History(s.held))
  }

  lemma HistoryGrows(h: seq<PaymentStatus>, status: PaymentStatus)
    requires History(h) && |h| > 0 && h[|h| - 1] != status && CanTransition(h[|h| - 1], status)
    ensures History(h + [status])
  {
  }

  lemma SoundWrite(s: State, i: nat)
    requires Sound(s) && i < |s.callers| && s.callers[i].Writing?
    ensures Sound(StepCaller(s, i))
  {
    var s', c := StepCaller(s, i), s.callers[i];
    assert s'.writes[|s.writes|] == Write(c.seen, s.status, c.target);
    assert forall k :: 0 <= k < |s.writes| ==> s'.writes[k] == s.writes[k];
    if History(s.held) && c.seen == s.status { HistoryGrows(s.held, c.target); }
  }

  lemma SoundStep(s: State, a: Action)
    requires Sound(s)
    ensures Sound(Apply(s, a))
  {
    if a.Step? && !a.fault && a.caller < |s.callers| && s.callers[a.caller].Writing? { SoundWrite(s, a.caller); }
  }

  lemma {:induction false} RunSound(s: State, actions: seq<Action>)
    requires Sound(s)
    ensures Sound(Run(s, actions))
    decreases |actions|
  {
    if actions != [] {
      SoundStep(s, actions[0]);
      RunSound(Apply(s, actions[0]), actions[1..]);
    }
  }

  /** Over every interleaving of any number of calls: as long as every write lands on the status its
      caller read, the statuses of the payment form a permitted history, and so at most four. */
  lemma LegalWhileUndisturbed(from: PaymentStatus, actions: seq<Action>)
    ensures
      var u := Run(Start(from, []), actions);
      && |u.held| > 0 && u.held[|u.held| - 1] == u.status
      && ((forall k :: 0 <= k < |u.writes| ==> Undisturbed(u.writes[k])) ==> History(u.held) && |u.held| <= 4)
  {
    RunSound(Start(from, []), actions);
    var u := Run(Start(from, []), actions);
    if forall k :: 0 <= k < |u.writes| ==> Undisturbed(u.writes[k]) { HistoryIsShort(u.held); }
  }

  // ---------------------------------------------------------------- two calls, exactly

  /** A caller of two, before or after the first write. */
  predicate CallerOk(c: Caller, from: PaymentStatus, first: Option<PaymentStatus>) {
    c.Writing? ==>
      && c.seen != c.target && CanTransition(c.seen, c.target)
      && (c.seen == from || (first.Some? && c.seen == first.value))
  }

  function Open(c: Caller): nat {
    if c.Reading? || c.Writing? then 1 else 0
  }

  /** What two calls can have done. */
  ghost predicate OfTwo(s: State, from: PaymentStatus) {
    && |s.callers| == 2 && |s.writes| + Open(s.callers[0]) + Open(s.callers[1]) <= 2
    && (forall k :: 0 <= k < |s.writes| ==>
          s.writes[k].seen != s.writes[k].target && CanTransition(s.writes[k].seen, s.writes[k].target))
    && (var first := if |s.writes| > 0 then Some(s.writes[0].target) else None;
        CallerOk(s.callers[0], from, first) && CallerOk(s.callers[1], from, first))
    && (|s.writes| == 0 ==> s.status == from && s.held == [from])
    && (|s.writes| > 0 ==> s.writes[0].seen == from)
    && (|s.writes| == 1 ==> s.status == s.writes[0].target && s.held == [from, s.status])
    && (|s.writes| == 2 ==>
          var first, second := s.writes[0].target, s.writes[1];
          && (second.seen == from || second.seen == first)
          && s.held == if second.target == first then [from, first] else [from, first, second.target])
  }

  /** A step that writes nothing, and moves its caller only forwards. */
  lemma QuietStep(s: State, i: nat, c: Caller, from: PaymentStatus)
    requires OfTwo(s, from) && i < 2
    requires Open(c) <= Open(s.callers[i])
    requires CallerOk(c, from, if |s.writes| > 0 then Some(s.writes[0].target) else None)
    ensures OfTwo(Place(s, i, c), from)
  {
    var s' := Place(s, i, c);
    assert s'.callers[1 - i] == s.callers[1 - i];
  }

  lemma ReadStep(s: State, i: nat, from: PaymentStatus)
    requires OfTwo(s, from) && i < 2 && s.callers[i].Reading?
    ensures OfTwo(StepCaller(s, i), from)
  {
    var target := s.callers[i].target;
    if s.status == target || !CanTransition(s.status, target) {
      QuietStep(s, i, Ended, from);
    } else {
      assert |s.writes| <= 1;
      QuietStep(s, i, Writing(target, s.status), from);
    }
  }

  lemma WriteStep(s: State, i: nat, from: PaymentStatus)
    requires OfTwo(s, from) && i < 2 && s.callers[i].Writing?
    ensures OfTwo(StepCaller(s, i), from)
  {
    var s' := StepCaller(s, i);
    var c := s.callers[i];
    assert s'.callers[1 - i] == s.callers[1 - i] && |s.writes| <= 1;
    assert s'.writes[|s.writes|] == Write(c.seen, s.status, c.target);
    if |s.writes| == 0 {
      assert c.seen == from && c.target != from;
    } else {
      assert s'.writes[0] == s.writes[0];
    }
  }

  lemma OfTwoStep(s: State, a: Action, from: PaymentStatus)
    requires OfTwo(s, from) && a.Step?
    ensures OfTwo(Apply(s, a), from)
  {
    if a.caller < 2 {
      if a.fault {
        QuietStep(s, a.caller, Ended, from);
      } else {
        match s.callers[a.caller]
        case Reading(_) => ReadStep(s, a.caller, from);
        case Writing(_, _) => WriteStep(s, a.caller, from);
        case Syncing(target) =>
          QuietStep(s, a.caller, Ended, from);
          assert Apply(s, a) == Place(s, a.caller, Ended).(order := Image(target));
        case Ended =>
      }
    }
  }

  lemma {:induction false} OfTwoRun(s: State, actions: seq<Action>, from: PaymentStatus)
    requires OfTwo(s, from) && forall i :: 0 <= i < |actions| ==> actions[i].Step?
    ensures OfTwo(Run(s, actions), from)
    decreases |actions|
  {
    if actions != [] {
      OfTwoStep(s, actions[0], from);
      OfTwoRun(Apply(s, actions[0]), actions[1..], from);
    }
  }

  /** Two calls on a payment, in every interleaving of their reads, writes and order writes, with failures
      anywhere: the payment's history is illegal exactly when both read before either wrote, both wrote,
      and the second write does not follow the first: a confirmation and a failure notice for a fresh
      payment, or a partial refund written over a full one. */
  lemma TwoTransitionsExactly(from: PaymentStatus, a: PaymentStatus, b: PaymentStatus, actions: seq<Action>)
    requires forall i :: 0 <= i < |actions| ==> actions[i].Step?
    ensures
      var u := Run(Start(from, [Reading(a), Reading(b)]), actions);
      !History(u.held) <==>
      && |u.writes| == 2 && u.writes[0].seen == from && u.writes[1].seen == from
      && ((from == Pending && u.writes[0].target != u.writes[1].target)
          || (from == Success && u.writes[0].target == Refunded && u.writes[1].target == PartiallyRefunded))
  {
    OfTwoRun(Start(from, [Reading(a), Reading(b)]), actions, from);
    var u := Run(Start(from, [Reading(a), Reading(b)]), actions);
    assert OfTwo(u, from);
    if |u.writes| == 2 && u.writes[0].target != u.writes[1].target {
      var first, second := u.writes[0].target, u.writes[1];
      ThreeStatuses(from, first, second.target);
      OverlappedWritesExactly(from, first, if second.seen == from then second.target else first);
    }
  }

  lemma ThreeStatuses(a: PaymentStatus, b: PaymentStatus, c: PaymentStatus)
    requires a != b && b != c && CanTransition(a, b)
    ensures History([a, b, c]) <==> CanTransition(b, c)
  {
    var h := [a, b, c];
    assert h[1] == b && h[2] == c;
    if History(h) { assert CanTransition(h[2 - 1], h[2]); }
  }
}
