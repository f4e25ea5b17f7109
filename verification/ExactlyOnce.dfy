/** Exactly-once financial effect: any number of runs of one event, each ended anywhere by a thrown
    error or by the death of its process. */
module ExactlyOnce {
  import opened Domain
  import opened StateMachine
  import opened Ledger
  import opened Store
  import opened Worker

  /** One delivery of the job: the attempts the queue counts, and how its awaited operations go. */
  datatype Delivery = Delivery(attemptsMade: nat, script: seq<Outcome>)

  predicate Paired(t: Tables) {
    |t.orders| == |t.payments|
  }

  function RunAll(cfg: Config, t: Tables, row: nat, deliveries: seq<Delivery>): (t': Tables)
    requires Paired(t)
    ensures Paired(t') && |t'.payments| == |t.payments| && |t'.events| == |t.events|
    decreases |deliveries|
  {
    if deliveries == [] then t
    else
      var d := deliveries[0];
      RunAll(cfg, RunJob(cfg, t, Start(row, d.attemptsMade), d.script).tables, row, deliveries[1..])
  }

  /** The run ends between the two writes of a transition. */
  predicate Tears(cfg: Config, t: Tables, k: Run, script: seq<Outcome>)
    requires InRange(t, k)
    decreases |script|
  {
    if script == [] then k.at.Syncing?
    else if k.at.Syncing? && script[0].Fault? then true
    else
      var turn := Advance(cfg, t, k, script[0]);
      turn.next.Go? && Tears(cfg, turn.tables, turn.next.run, script[1..])
  }

  predicate AnyTears(cfg: Config, t: Tables, row: nat, deliveries: seq<Delivery>)
    requires Paired(t)
    decreases |deliveries|
  {
    deliveries != []
    && (var d := deliveries[0];
        || Tears(cfg, t, Start(row, d.attemptsMade), d.script)
        || AnyTears(cfg, RunJob(cfg, t, Start(row, d.attemptsMade), d.script).tables, row, deliveries[1..]))
  }

  // ---------------------------------------------------------------- the reference

  /** The payment an event is about: none for an event that asks for nothing. */
  function About(t: Tables, e: Event): Option<nat> {
    if Classify(e) == Ignore then None else FirstMatch(t, e, 0)
  }

  predicate UniqueMatch(t: Tables, e: Event) {
    forall p, q :: 0 <= p < |t.payments| && 0 <= q < |t.payments| && Matches(t, e, p) && Matches(t, e, q) ==> p == q
  }

  /** What an event is meant to do, said without any worker: the payment has the status it asks for, the
      order the image of it if the status is new, the ledger one credit under the event's reference if
      the event is a confirmation, and the event is PROCESSED. */
  function Intended(cfg: Config, t: Tables, row: nat): Tables
    requires Paired(t) && row < |t.events|
  {
    var e := t.events[row];
    var done := t.(events := WithEventStatus(t.events, row, Processed));
    match About(t, e)
    case None => done
    case Some(p) =>
      var target := Target(Classify(e));
      var credit := CreditEntry(e.eventId, t.payments, p);
      done.(payments := WithStatus(t.payments, p, target),
            orders := if t.payments[p].status == target then t.orders else WithOrderStatus(t.orders, p, Image(target)),
            ledger := if target == Success && cfg.ledgerEnabled && !Has(t.ledger, credit.ref) then t.ledger + [credit]
                      else t.ledger)
  }

  /** Equal but for orders and for the attempts and the retry time kept on the event. */
  predicate SameButOrders(u: Tables, d: Tables, row: nat)
    requires row < |u.events| && row < |d.events|
  {
    u == d.(orders := u.orders,
            events := d.events[row := d.events[row].(attempts := u.events[row].attempts,
                nextRetry := u.events[row].nextRetry)])
  }

  /** The state machine allows what the event asks for. */
  predicate Permitted(t: Tables, row: nat)
    requires Paired(t) && row < |t.events|
  {
    match About(t, t.events[row])
    case None => true
    case Some(p) => CanTransition(t.payments[p].status, Target(Classify(t.events[row])))
  }

  // ---------------------------------------------------------------- how far the runs have come

  /** `t` lies between the start `t0` and the intended outcome `d`. */
  ghost predicate Between(t0: Tables, d: Tables, t: Tables, row: nat)
    requires row < |t0.events| && row < |t.events|
  {
    && (t.payments == t0.payments || t.payments == d.payments)
    && (t.ledger == t0.ledger || t.ledger == d.ledger)
    && (t.ledger != t0.ledger ==> t.payments == d.payments)
    && t.refunds == t0.refunds && t.gateway == t0.gateway
    && t.invoices == t0.invoices && t.published == t0.published
    && t.events == t0.events[row := Rebooked(t0.events[row], t.events[row])]
    && (t.events[row].status == Processed ==> t.payments == d.payments && t.ledger == d.ledger)
  }

  /** Where the order row is: written when the payment row is, unless a run was torn in between. */
  ghost predicate OrderAt(t0: Tables, d: Tables, t: Tables, torn: bool, syncing: bool) {
    if t.payments == d.payments && d.payments != t0.payments then
      if syncing then t.orders == t0.orders && !torn
      else t.orders == (if torn then t0.orders else d.orders)
    else
      t.orders == t0.orders && !torn && !syncing
  }

  ghost predicate PointOk(cfg: Config, t0: Tables, d: Tables, t: Tables, k: Run)
    requires Paired(t0) && k.row < |t0.events|
  {
    var e := t0.events[k.row];
    match k.at
    case Moving(p, target) => About(t0, e) == Some(p) && target == Target(Classify(e))
    case Syncing(p, target) => About(t0, e) == Some(p) && target == Target(Classify(e)) && t.payments == d.payments
    case Seeking(p) =>
      About(t0, e) == Some(p) && Classify(e) == Confirm && cfg.ledgerEnabled && t.payments == d.payments
    case Crediting(p) =>
      && About(t0, e) == Some(p) && Classify(e) == Confirm && cfg.ledgerEnabled && t.payments == d.payments
      && !Has(t.ledger, CreditRef(e.eventId, t0.payments[p]))
    case Rereading(_) => false
    case Finishing => t.payments == d.payments && t.ledger == d.ledger
    case _ => true
  }

  ghost predicate Ok(cfg: Config, t0: Tables, t: Tables, k: Run, torn: bool) {
    && Paired(t0) && k.row < |t0.events| == |t.events|
    && InRange(t, k)
    && t0.events[k.row].status != Processed
    && UniqueMatch(t0, t0.events[k.row])
    && (var d := Intended(cfg, t0, k.row);
        && Between(t0, d, t, k.row)
        && OrderAt(t0, d, t, torn, k.at.Syncing?)
        && (!k.at.Loading? ==> t.events[k.row].status != Processed)
        && PointOk(cfg, t0, d, t, k))
  }

  /** The look-up finds the same payment in every state between start and outcome. */
  lemma LookupStable(cfg: Config, t0: Tables, t: Tables, k: Run, torn: bool, hint: nat)
    requires Ok(cfg, t0, t, k, torn)
    ensures var e := t0.events[k.row];
            && Classify(t.events[k.row]) == Classify(e) && t.events[k.row].eventId == e.eventId
            && (Classify(e) != Ignore ==> Lookup(t, t.events[k.row], hint) == About(t0, e))
  {
    var e, e' := t0.events[k.row], t.events[k.row];
    assert e' == Rebooked(e, e');
    assert forall p :: Matches(t, e', p) <==> Matches(t0, e, p);
    if Classify(e) != Ignore {
      var found := Lookup(t, e', hint);
      if found.Some? { assert Matches(t0, e, found.value); }
    }
  }

  /** Whatever one operation does, the run goes on, or another begins, between start and outcome. */
  ghost predicate StaysOk(cfg: Config, t0: Tables, t: Tables, k: Run, torn: bool, o: Outcome)
    requires InRange(t, k)
  {
    var turn := Advance(cfg, t, k, o);
    var torn' := torn || (k.at.Syncing? && o.Fault?);
    if turn.next.Go? then Ok(cfg, t0, turn.tables, turn.next.run, torn')
    else Ok(cfg, t0, turn.tables, Start(k.row, 0), torn')
  }

  lemma CreditStepOk(cfg: Config, t0: Tables, t: Tables, k: Run, torn: bool, o: Outcome)
    requires Ok(cfg, t0, t, k, torn) && (k.at.Seeking? || k.at.Crediting?)
    ensures StaysOk(cfg, t0, t, k, torn, o)
  {
    CreditStable(cfg, t0, t, k, torn);
  }

  lemma MoveStepOk(cfg: Config, t0: Tables, t: Tables, k: Run, torn: bool, o: Outcome)
    requires Ok(cfg, t0, t, k, torn) && k.at.Moving?
    ensures StaysOk(cfg, t0, t, k, torn, o)
  {
  }

  lemma SyncStepOk(cfg: Config, t0: Tables, t: Tables, k: Run, torn: bool, o: Outcome)
    requires Ok(cfg, t0, t, k, torn) && k.at.Syncing?
    ensures StaysOk(cfg, t0, t, k, torn, o)
  {
  }

  lemma LookStepOk(cfg: Config, t0: Tables, t: Tables, k: Run, torn: bool, o: Outcome)
    requires Ok(cfg, t0, t, k, torn) && k.at.Looking?
    ensures StaysOk(cfg, t0, t, k, torn, o)
  {
    LookupStable(cfg, t0, t, k, torn, if o.Fine? then o.hint else 0);
  }

  lemma BookStepOk(cfg: Config, t0: Tables, t: Tables, k: Run, torn: bool, o: Outcome)
    requires Ok(cfg, t0, t, k, torn) && (k.at.Loading? || k.at.Finishing? || k.at.Failing?)
    ensures StaysOk(cfg, t0, t, k, torn, o)
  {
  }

  lemma MarkStepOk(cfg: Config, t0: Tables, t: Tables, k: Run, torn: bool, o: Outcome)
    requires Ok(cfg, t0, t, k, torn) && k.at.Marking?
    ensures StaysOk(cfg, t0, t, k, torn, o)
  {
    var e := t0.events[k.row];
    assert t.events[k.row] == Rebooked(e, t.events[k.row]) && Classify(t.events[k.row]) == Classify(e);
  }

  lemma StepOk(cfg: Config, t0: Tables, t: Tables, k: Run, torn: bool, o: Outcome)
    requires Ok(cfg, t0, t, k, torn)
    ensures StaysOk(cfg, t0, t, k, torn, o)
  {
    if k.at.Seeking? || k.at.Crediting? {
      CreditStepOk(cfg, t0, t, k, torn, o);
    } else if k.at.Moving? {
      MoveStepOk(cfg, t0, t, k, torn, o);
    } else if k.at.Syncing? {
      SyncStepOk(cfg, t0, t, k, torn, o);
    } else if k.at.Looking? {
      LookStepOk(cfg, t0, t, k, torn, o);
    } else if k.at.Marking? {
      MarkStepOk(cfg, t0, t, k, torn, o);
    } else if !k.at.Rereading? {
      BookStepOk(cfg, t0, t, k, torn, o);
    }
  }

  /** The credit a worker would insert is the intended one, and it is in the ledger exactly when the
      ledger is the intended one. */
  lemma CreditStable(cfg: Config, t0: Tables, t: Tables, k: Run, torn: bool)
    requires Ok(cfg, t0, t, k, torn) && (k.at.Seeking? || k.at.Crediting?)
    ensures
      var p, id := k.at.payment, t.events[k.row].eventId;
      var credit := CreditEntry(id, t.payments, p);
      && credit == CreditEntry(t0.events[k.row].eventId, t0.payments, p)
      && credit.ref == CreditRef(id, t.payments[p]) == CreditRef(id, t0.payments[p])
      && (Has(t.ledger, credit.ref) <==> t.ledger == Intended(cfg, t0, k.row).ledger)
      && (!Has(t.ledger, credit.ref) ==>
            t.ledger == t0.ledger && Intended(cfg, t0, k.row).ledger == t.ledger + [credit])
  {
    var e := t0.events[k.row];
    var d, p := Intended(cfg, t0, k.row), k.at.payment;
    var credit := CreditEntry(e.eventId, t0.payments, p);
    assert t.payments[p] == t0.payments[p].(status := t.payments[p].status);
    assert t.events[k.row].eventId == e.eventId;
    if !Has(t0.ledger, credit.ref) {
      assert d.ledger == t0.ledger + [credit];
      assert d.ledger[|t0.ledger|].ref == credit.ref;
    }
  }

  /** A whole run, however it ends. */
  lemma {:induction false} RunOk(cfg: Config, t0: Tables, t: Tables, k: Run, torn: bool, script: seq<Outcome>)
    requires Ok(cfg, t0, t, k, torn)
    ensures Ok(cfg, t0, RunJob(cfg, t, k, script).tables, Start(k.row, 0), torn || Tears(cfg, t, k, script))
    decreases |script|
  {
    if script != [] {
      StepOk(cfg, t0, t, k, torn, script[0]);
      var turn := Advance(cfg, t, k, script[0]);
      if turn.next.Go? {
        RunOk(cfg, t0, turn.tables, turn.next.run, torn || (k.at.Syncing? && script[0].Fault?), script[1..]);
      }
    }
  }

  lemma {:induction false} AllOk(cfg: Config, t0: Tables, t: Tables, row: nat, torn: bool, deliveries: seq<Delivery>)
    requires Ok(cfg, t0, t, Start(row, 0), torn)
    ensures Ok(cfg, t0, RunAll(cfg, t, row, deliveries), Start(row, 0), torn || AnyTears(cfg, t, row, deliveries))
    decreases |deliveries|
  {
    if deliveries != [] {
      var d := deliveries[0];
      RunOk(cfg, t0, t, Start(row, d.attemptsMade), torn, d.script);
      AllOk(cfg, t0, RunJob(cfg, t, Start(row, d.attemptsMade), d.script).tables, row,
            torn || Tears(cfg, t, Start(row, d.attemptsMade), d.script), deliveries[1..]);
    }
  }

  // ---------------------------------------------------------------- refused transitions

  /** While the transition is refused nothing but the event row changes. */
  ghost predicate Refused(t0: Tables, t: Tables, k: Run) {
    && Paired(t0) && k.row < |t0.events| == |t.events|
    && t == t0.(events := t.events)
    && t.events == t0.events[k.row := Rebooked(t0.events[k.row], t.events[k.row])]
    && t.events[k.row].status != Processed
    && (k.at.Loading? || k.at.Marking? || k.at.Looking? || k.at.Failing?
        || (k.at.Moving? && About(t0, t0.events[k.row]) == Some(k.at.payment)
            && Classify(t0.events[k.row]) != Ignore && k.at.target == Target(Classify(t0.events[k.row]))))
  }

  lemma RefusedStep(cfg: Config, t0: Tables, t: Tables, k: Run, o: Outcome)
    requires Refused(t0, t, k) && InRange(t, k) && !Permitted(t0, k.row) && UniqueMatch(t0, t0.events[k.row])
    ensures
      var turn := Advance(cfg, t, k, o);
      if turn.next.Go? then Refused(t0, turn.tables, turn.next.run)
      else Refused(t0, turn.tables, Start(k.row, 0)) && turn.next.result != Completed
  {
    var e, e' := t0.events[k.row], t.events[k.row];
    assert forall p :: Matches(t, e', p) <==> Matches(t0, e, p);
    if k.at.Looking? && !o.Fault? {
      var found := Lookup(t, e', if o.Fine? then o.hint else 0);
      assert found.Some? ==> Matches(t0, e, found.value);
    }
  }

  lemma {:induction false} RefusedRun(cfg: Config, t0: Tables, t: Tables, k: Run, script: seq<Outcome>)
    requires Refused(t0, t, k) && InRange(t, k) && !Permitted(t0, k.row) && UniqueMatch(t0, t0.events[k.row])
    ensures Refused(t0, RunJob(cfg, t, k, script).tables, Start(k.row, 0))
    decreases |script|
  {
    if script != [] {
      RefusedStep(cfg, t0, t, k, script[0]);
      var turn := Advance(cfg, t, k, script[0]);
      if turn.next.Go? { RefusedRun(cfg, t0, turn.tables, turn.next.run, script[1..]); }
    }
  }

  lemma {:induction false} RefusedAll(cfg: Config, t0: Tables, t: Tables, row: nat, deliveries: seq<Delivery>)
    requires Refused(t0, t, Start(row, 0)) && !Permitted(t0, row) && UniqueMatch(t0, t0.events[row])
    ensures Refused(t0, RunAll(cfg, t, row, deliveries), Start(row, 0))
    decreases |deliveries|
  {
    if deliveries != [] {
      var d := deliveries[0];
      RefusedRun(cfg, t0, t, Start(row, d.attemptsMade), d.script);
      RefusedAll(cfg, t0, RunJob(cfg, t, Start(row, d.attemptsMade), d.script).tables, row, deliveries[1..]);
    }
  }

  /** An event the state machine refuses is never PROCESSED, by any number of deliveries, and never
      touches a payment, an order or the ledger. */
  lemma RefusedForever(cfg: Config, t: Tables, row: nat, deliveries: seq<Delivery>)
    requires Paired(t) && row < |t.events| && t.events[row].status != Processed
    requires UniqueMatch(t, t.events[row]) && !Permitted(t, row)
    ensures
      var u := RunAll(cfg, t, row, deliveries);
      u.events[row].status != Processed && u == t.(events := u.events)
  {
    RefusedAll(cfg, t, t, row, deliveries);
  }

  // ---------------------------------------------------------------- the theorems

  /** What is intended changes nothing but payments, orders, ledger and the event's status. */
  lemma SameOrders(cfg: Config, t: Tables, row: nat)
    requires Paired(t) && row < |t.events|
    ensures
      var d := Intended(cfg, t, row);
      && d == t.(payments := d.payments, orders := d.orders, ledger := d.ledger,
                 events := t.events[row := t.events[row].(status := Processed)])
      && (d.payments == t.payments ==> d.orders == t.orders)
  {
  }

  /** A state between start and outcome whose event is PROCESSED is the outcome, but for the orders of a
      torn run. */
  lemma ProcessedIsIntended(t: Tables, d: Tables, u: Tables, row: nat, torn: bool)
    requires row < |t.events| && row < |u.events| && row < |d.events| && u.events[row].status == Processed
    requires Between(t, d, u, row) && OrderAt(t, d, u, torn, false)
    requires d == t.(payments := d.payments, orders := d.orders, ledger := d.ledger,
                     events := t.events[row := t.events[row].(status := Processed)])
    requires d.payments == t.payments <==> d.orders == t.orders
    ensures SameButOrders(u, d, row) && (u.orders == d.orders <==> !torn)
  {
    assert d.events[row := u.events[row]] == u.events;
  }

  /** An intended change of a payment shows in its order. */
  lemma IntendedOrders(cfg: Config, t: Tables, row: nat)
    requires Paired(t) && row < |t.events| && Permitted(t, row)
    requires forall p :: 0 <= p < |t.payments| ==> t.orders[p].status == Image(t.payments[p].status)
    requires Intended(cfg, t, row).payments != t.payments
    ensures Intended(cfg, t, row).orders != t.orders
  {
    var p := About(t, t.events[row]).value;
    var target, d := Target(Classify(t.events[row])), Intended(cfg, t, row);
    assert t.payments[p].status != target;
    assert d.orders[p].status == Image(target) && t.orders[p].status == Image(t.payments[p].status);
  }

  /** Exactly once: after any number of deliveries of an event, each run of which may throw or die
      anywhere, if the event is PROCESSED then payments, ledger and events are exactly as intended, once;
      and the orders are too if and only if no run was torn between the two writes of its transition. */
  lemma ExactlyOnceEffect(cfg: Config, t: Tables, row: nat, deliveries: seq<Delivery>)
    requires Paired(t) && row < |t.events| && t.events[row].status != Processed
    requires UniqueMatch(t, t.events[row])
    requires forall p :: 0 <= p < |t.payments| ==> t.orders[p].status == Image(t.payments[p].status)
    requires RunAll(cfg, t, row, deliveries).events[row].status == Processed
    ensures
      var u, d := RunAll(cfg, t, row, deliveries), Intended(cfg, t, row);
      && SameButOrders(u, d, row)
      && (u.orders == d.orders <==> !AnyTears(cfg, t, row, deliveries))
  {
    AllOk(cfg, t, t, row, false, deliveries);
    var u, d := RunAll(cfg, t, row, deliveries), Intended(cfg, t, row);
    assert Between(t, d, u, row) && OrderAt(t, d, u, AnyTears(cfg, t, row, deliveries), false);
    if !Permitted(t, row) { RefusedForever(cfg, t, row, deliveries); }
    if d.payments != t.payments { IntendedOrders(cfg, t, row); }
    SameOrders(cfg, t, row);
    ProcessedIsIntended(t, d, u, row, AnyTears(cfg, t, row, deliveries));
  }

  /** Before that, the effect is a part of the intended one: whatever the runs did, the ledger gained
      either nothing or the one intended credit, the status either stayed or is the one asked for, and
      nothing else changed but the event's own bookkeeping. */
  lemma AtMostOnceEffect(cfg: Config, t: Tables, row: nat, deliveries: seq<Delivery>)
    requires Paired(t) && row < |t.events| && t.events[row].status != Processed
    requires UniqueMatch(t, t.events[row])
    ensures
      var u, d := RunAll(cfg, t, row, deliveries), Intended(cfg, t, row);
      && (u.payments == t.payments || u.payments == d.payments)
      && (u.ledger == t.ledger || (u.ledger == d.ledger && u.payments == d.payments))
      && (u.orders == t.orders || (u.orders == d.orders && u.payments == d.payments))
      && u.events == t.events[row := Rebooked(t.events[row], u.events[row])]
      && u.refunds == t.refunds && u.invoices == t.invoices && u.gateway == t.gateway
  {
    AllOk(cfg, t, t, row, false, deliveries);
  }

  // ---------------------------------------------------------------- recovery

  predicate Clean(script: seq<Outcome>) {
    forall i :: 0 <= i < |script| ==> script[i].Fine?
  }

  /** The operations a run still awaits, at most. */
  function Left(at: Point): nat {
    match at
    case Loading => 8
    case Marking => 7
    case Looking => 6
    case Moving(_, _) => 5
    case Syncing(_, _) => 4
    case Seeking(_) => 3
    case Crediting(_) => 2
    case _ => 1
  }

  /** A successful operation of a run whose event the state machine permits does not throw. */
  ghost predicate GoesOn(cfg: Config, t: Tables, k: Run, o: Outcome)
    requires InRange(t, k) && k.row < |t.events|
  {
    var turn := Advance(cfg, t, k, o);
    if turn.next.Go? then
      && !turn.next.run.at.Failing? && Left(turn.next.run.at) < Left(k.at)
      && turn.tables.events[k.row].status != Processed
    else turn.next.result == Completed && turn.tables.events[k.row].status == Processed
  }

  lemma MovingGoesOn(cfg: Config, t0: Tables, t: Tables, k: Run, torn: bool, o: Outcome)
    requires Ok(cfg, t0, t, k, torn) && Permitted(t0, k.row) && k.at.Moving? && o.Fine?
    ensures GoesOn(cfg, t, k, o)
  {
    var p := k.at.payment;
    assert t.payments[p].status == t0.payments[p].status || t.payments[p].status == k.at.target;
  }

  lemma OtherGoesOn(cfg: Config, t0: Tables, t: Tables, k: Run, torn: bool, o: Outcome)
    requires Ok(cfg, t0, t, k, torn) && !k.at.Moving? && !k.at.Failing? && o.Fine?
    requires t.events[k.row].status != Processed
    ensures GoesOn(cfg, t, k, o)
  {
  }

  lemma {:induction false} CleanRun(cfg: Config, t0: Tables, t: Tables, k: Run, torn: bool, script: seq<Outcome>)
    requires Ok(cfg, t0, t, k, torn) && Permitted(t0, k.row) && !k.at.Failing?
    requires t.events[k.row].status != Processed
    requires Clean(script) && |script| >= Left(k.at)
    ensures
      var end := RunJob(cfg, t, k, script);
      end.result == Some(Completed) && end.tables.events[k.row].status == Processed
    decreases |script|
  {
    var o, turn := script[0], Advance(cfg, t, k, script[0]);
    if k.at.Moving? { MovingGoesOn(cfg, t0, t, k, torn, o); } else { OtherGoesOn(cfg, t0, t, k, torn, o); }
    StepOk(cfg, t0, t, k, torn, o);
    if turn.next.Go? {
      assert script[1..] == [] || script[1..][0] == script[1];
      CleanRun(cfg, t0, turn.tables, turn.next.run, torn, script[1..]);
    }
  }

  /** Recovery: after any number of deliveries that threw or died anywhere, one delivery all of whose
      operations succeed brings the event to PROCESSED, provided the state machine permits what it asks
      for; so the effect is then the intended one, exactly once. */
  lemma CleanDeliveryRecovers(cfg: Config, t: Tables, row: nat, deliveries: seq<Delivery>, last: Delivery)
    requires Paired(t) && row < |t.events| && t.events[row].status != Processed
    requires UniqueMatch(t, t.events[row])
    requires Clean(last.script) && |last.script| >= 8
    ensures RunAll(cfg, t, row, deliveries + [last]).events[row].status == Processed
            <==> Permitted(t, row) || RunAll(cfg, t, row, deliveries).events[row].status == Processed
  {
    var u := RunAll(cfg, t, row, deliveries);
    RunAllSplit(cfg, t, row, deliveries, [last]);
    AllOk(cfg, t, t, row, false, deliveries);
    if !Permitted(t, row) {
      RefusedForever(cfg, t, row, deliveries + [last]);
      RefusedForever(cfg, t, row, deliveries);
    } else if u.events[row].status == Processed {
      assert RunJob(cfg, u, Start(row, last.attemptsMade), last.script).tables == u;
    } else {
      var torn := AnyTears(cfg, t, row, deliveries);
      assert Ok(cfg, t, u, Start(row, last.attemptsMade), torn);
      CleanRun(cfg, t, u, Start(row, last.attemptsMade), torn, last.script);
    }
  }

  lemma {:induction false} RunAllSplit(cfg: Config, t: Tables, row: nat, first: seq<Delivery>, second: seq<Delivery>)
    requires Paired(t)
    ensures RunAll(cfg, t, row, first + second) == RunAll(cfg, RunAll(cfg, t, row, first), row, second)
    decreases |first|
  {
    if first == [] {
      assert first + second == second;
    } else {
      assert (first + second)[0] == first[0] && (first + second)[1..] == first[1..] + second;
      RunAllSplit(cfg, RunJob(cfg, t, Start(row, first[0].attemptsMade), first[0].script).tables, row, first[1..],
          second);
    }
  }
}
