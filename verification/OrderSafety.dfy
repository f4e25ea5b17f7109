/** The order row follows the payment row, under full interleaving and with failures between the two
    writes of a transition. */
module OrderSafety {
  import opened Domain
  import opened StateMachine
  import opened Store
  import opened System
  import opened Shape
  import opened LifecycleSafety
  import R = Refunds

  /** One payment and its order: the order shows some status the payment has had, and shows the
      present one unless a transition's two writes were separated or one is still to come. */
  ghost predicate FollowsAt(t: Tables, h: History, p: nat)
    requires p < |t.payments| == |t.orders| && |h.held| == |t.payments|
  {
    && t.payments[p].status in h.held[p]
    && (exists status :: status in h.held[p] && t.orders[p].status == Image(status))
    && (p !in h.torn && p !in h.unsynced ==> t.orders[p].status == Image(t.payments[p].status))
  }

  /** An actor about to write the order of `p` for the status `target`. */
  ghost predicate SyncOk(t: Tables, h: History, p: nat, target: PaymentStatus)
    requires p < |t.payments| && |h.held| == |t.payments|
  {
    target in h.held[p] && (p !in h.torn ==> p in h.unsynced && t.payments[p].status == target)
  }

  ghost predicate AllFollow(t: Tables, h: History)
    requires |t.payments| == |t.orders| == |h.held|
  {
    forall p :: 0 <= p < |t.payments| ==> FollowsAt(t, h, p)
  }

  /** Who is between the two writes of a transition: a worker or a refund call, the payment and the
      status written. */
  datatype Syncer = ByWorker(worker: nat) | ByCall(call: nat)

  predicate Syncs(s: State, who: Syncer) {
    match who
    case ByWorker(w) => w in s.workers && s.workers[w].at.Syncing?
    case ByCall(p) => p in s.calls && s.calls[p].at.Syncing?
  }

  function Row(s: State, who: Syncer): nat
    requires Syncs(s, who)
  {
    match who case ByWorker(w) => s.workers[w].at.payment case ByCall(p) => p
  }

  function Written(s: State, who: Syncer): PaymentStatus
    requires Syncs(s, who)
  {
    match who case ByWorker(w) => s.workers[w].at.target case ByCall(p) => R.Goal(s.calls[p].at.isFull)
  }

  ghost predicate SyncersOk(s: State)
    requires Shaped(s)
  {
    && (forall who :: Syncs(s, who) ==> SyncOk(s.tables, s.history, Row(s, who), Written(s, who)))
    && (forall x, y :: Syncs(s, x) && Syncs(s, y) && x != y && Row(s, x) == Row(s, y) ==> Row(s, x) in s.history.torn)
  }

  ghost predicate Orders(s: State)
    requires Shaped(s)
  {
    AllFollow(s.tables, s.history) && SyncersOk(s)
  }

  // ---------------------------------------------------------------- the three kinds of step

  /** Nothing is written but possibly a tear, and nobody starts syncing. */
  ghost predicate Quiet(s: State, s': State)
    requires Shaped(s) && Shaped(s')
  {
    && |s'.tables.payments| == |s.tables.payments|
    && s'.tables.payments == s.tables.payments && s'.tables.orders == s.tables.orders
    && s'.history.held == s.history.held && s'.history.unsynced == s.history.unsynced
    && s.history.torn <= s'.history.torn
    && (forall who :: Syncs(s', who) ==>
          Syncs(s, who) && Row(s', who) == Row(s, who) && Written(s', who) == Written(s, who))
  }

  lemma QuietOrders(s: State, s': State)
    requires Shaped(s) && Shaped(s') && Orders(s) && Quiet(s, s')
    ensures Orders(s')
  {
    forall p | 0 <= p < |s'.tables.payments| ensures FollowsAt(s'.tables, s'.history, p) {
      assert FollowsAt(s.tables, s.history, p);
    }
  }

  /** `who` wrote `target` into payment `p`, and is now about to write the order if there is one to write. */
  ghost predicate Moves(s: State, s': State, who: Syncer, p: nat, target: PaymentStatus)
    requires Shaped(s) && Shaped(s')
  {
    && p < |s.tables.payments|
    && s'.tables.payments == WithStatus(s.tables.payments, p, target) && s'.tables.orders == s.tables.orders
    && s'.history == Moved(s.history, p, target)
    && !Syncs(s, who)
    && (OrderWrite(target).Some? <==> Syncs(s', who))
    && (Syncs(s', who) ==> Row(s', who) == p && Written(s', who) == target)
    && (forall x :: x != who && Syncs(s', x) ==>
          Syncs(s, x) && Row(s', x) == Row(s, x) && Written(s', x) == Written(s, x))
    && (OrderWrite(target).None? ==> Image(target) == Image(s.tables.payments[p].status))
  }

  lemma MovesFollow(s: State, s': State, who: Syncer, p: nat, target: PaymentStatus)
    requires Shaped(s) && Shaped(s') && AllFollow(s.tables, s.history) && Moves(s, s', who, p, target)
    ensures AllFollow(s'.tables, s'.history)
  {
    forall q | 0 <= q < |s'.tables.payments| ensures FollowsAt(s'.tables, s'.history, q) {
      assert FollowsAt(s.tables, s.history, q);
      var status :| status in s.history.held[q] && s.tables.orders[q].status == Image(status);
      assert status in s'.history.held[q];
    }
  }

  /** Another actor's write of the order of `p` is now separated from its first one. */
  lemma OthersTorn(s: State, s': State, who: Syncer, x: Syncer, p: nat, target: PaymentStatus)
    requires Shaped(s) && Shaped(s') && SyncersOk(s) && Moves(s, s', who, p, target) && x != who && Syncs(s', x)
    ensures SyncOk(s'.tables, s'.history, Row(s', x), Written(s', x))
    ensures Row(s', x) == p ==> p in s'.history.torn
  {
    assert SyncOk(s.tables, s.history, Row(s, x), Written(s, x));
  }

  lemma MovesOrders(s: State, s': State, who: Syncer, p: nat, target: PaymentStatus)
    requires Shaped(s) && Shaped(s') && Orders(s) && Moves(s, s', who, p, target)
    ensures Orders(s')
  {
    MovesFollow(s, s', who, p, target);
    forall x | Syncs(s', x) ensures SyncOk(s'.tables, s'.history, Row(s', x), Written(s', x)) {
      if x != who { OthersTorn(s, s', who, x, p, target); }
    }
    forall x, y | Syncs(s', x) && Syncs(s', y) && x != y && Row(s', x) == Row(s', y)
      ensures Row(s', x) in s'.history.torn
    {
      if x == who {
        OthersTorn(s, s', who, y, p, target);
      } else if y == who {
        OthersTorn(s, s', who, x, p, target);
      }
    }
  }

  /** `who` wrote the order. */
  ghost predicate Finishes(s: State, s': State, who: Syncer)
    requires Shaped(s) && Shaped(s')
  {
    && Syncs(s, who) && !Syncs(s', who) && Row(s, who) < |s.tables.orders|
    && s'.tables.payments == s.tables.payments
    && s'.tables.orders == WithOrderStatus(s.tables.orders, Row(s, who), Image(Written(s, who)))
    && s'.history == Synced(s.history, Row(s, who), false)
    && (forall x :: x != who && Syncs(s', x) ==>
          Syncs(s, x) && Row(s', x) == Row(s, x) && Written(s', x) == Written(s, x))
  }

  lemma FinishesOrders(s: State, s': State, who: Syncer)
    requires Shaped(s) && Shaped(s') && Orders(s) && Finishes(s, s', who)
    ensures Orders(s')
  {
    var p := Row(s, who);
    assert SyncOk(s.tables, s.history, p, Written(s, who));
    forall q | 0 <= q < |s'.tables.payments| ensures FollowsAt(s'.tables, s'.history, q) {
      assert FollowsAt(s.tables, s.history, q);
      if q == p { assert Written(s, who) in s'.history.held[q]; }
    }
    forall x | Syncs(s', x) ensures SyncOk(s'.tables, s'.history, Row(s', x), Written(s', x)) {
      assert SyncOk(s.tables, s.history, Row(s, x), Written(s, x));
    }
  }

  // ---------------------------------------------------------------- every step is of one kind

  lemma WorkerMoves(s: State, w: nat, o: Outcome)
    requires Shaped(s) && w in s.workers && Shaped(WorkerStep(s, w, o)) && s.workers[w].at.Moving?
    requires WorkerStep(s, w, o).tables.payments != s.tables.payments
    ensures Moves(s, WorkerStep(s, w, o), ByWorker(w), s.workers[w].at.payment, s.workers[w].at.target)
  {
  }

  lemma WorkerFinishes(s: State, w: nat, o: Outcome)
    requires Shaped(s) && w in s.workers && Shaped(WorkerStep(s, w, o)) && s.workers[w].at.Syncing? && !o.Fault?
    ensures Finishes(s, WorkerStep(s, w, o), ByWorker(w))
  {
  }

  lemma WorkerQuiet(s: State, w: nat, o: Outcome)
    requires Shaped(s) && w in s.workers && Shaped(WorkerStep(s, w, o))
    requires WorkerStep(s, w, o).tables.payments == s.tables.payments && !(s.workers[w].at.Syncing? && !o.Fault?)
    ensures Quiet(s, WorkerStep(s, w, o))
  {
  }

  lemma WorkerOrders(s: State, w: nat, o: Outcome)
    requires Shaped(s) && Orders(s) && w in s.workers && Shaped(WorkerStep(s, w, o))
    ensures Orders(WorkerStep(s, w, o))
  {
    var k, t, s' := s.workers[w], s.tables, WorkerStep(s, w, o);
    WorkerWrites(s.cfg, t, k, o);
    if s'.tables.payments != t.payments {
      WorkerMoves(s, w, o);
      MovesOrders(s, s', ByWorker(w), k.at.payment, k.at.target);
    } else if k.at.Syncing? && !o.Fault? {
      WorkerFinishes(s, w, o);
      FinishesOrders(s, s', ByWorker(w));
    } else {
      WorkerQuiet(s, w, o);
      QuietOrders(s, s');
    }
  }

  /** What a refund step writes, by the place of the call. */
  lemma RefundWrites(cfg: Config, t: Tables, k: R.Run, o: Outcome)
    requires R.InRange(t, k)
    ensures
      var turn := R.Advance(cfg, t, k, o);
      && (turn.next.Stop? && turn.next.result.Error? ==>
            turn.tables.payments == t.payments && turn.tables.orders == t.orders)
      && (!k.at.Moving? ==> turn.tables.payments == t.payments)
      && (!k.at.Syncing? ==> turn.tables.orders == t.orders)
      && (k.at.Syncing? ==>
            !(turn.next.Go? && turn.next.run.at.Syncing?)
            && (!o.Fault? ==> !(turn.next.Stop? && turn.next.result.Error?))
            && (!o.Fault? ==>
                  turn.tables.orders == WithOrderStatus(t.orders, k.payment, Image(R.Goal(k.at.isFull))))
            && (o.Fault? ==> turn.next == R.Stop(R.Error(500))))
      && (turn.next.Go? && turn.next.run.at.Syncing? ==>
            k.at.Moving? && turn.next.run.at.isFull == k.at.isFull && turn.tables.payments != t.payments)
  {
  }

  lemma RefundMoves(s: State, p: nat, o: Outcome)
    requires Shaped(s) && p in s.calls && CallSettled(s.tables, s.calls[p]) && Shaped(RefundStep(s, p, o))
    requires s.calls[p].at.Moving? && RefundStep(s, p, o).tables.payments != s.tables.payments
    ensures Moves(s, RefundStep(s, p, o), ByCall(p), p, R.Goal(s.calls[p].at.isFull))
  {
  }

  lemma RefundMovingOrders(s: State, p: nat, o: Outcome)
    requires Shaped(s) && Lifecycle(s) && Orders(s) && p in s.calls && Shaped(RefundStep(s, p, o))
    requires s.calls[p].at.Moving? && RefundStep(s, p, o).tables.payments != s.tables.payments
    ensures Orders(RefundStep(s, p, o))
  {
    RefundMoves(s, p, o);
    MovesOrders(s, RefundStep(s, p, o), ByCall(p), p, R.Goal(s.calls[p].at.isFull));
  }

  lemma RefundSyncingOrders(s: State, p: nat, o: Outcome)
    requires Shaped(s) && Orders(s) && p in s.calls && Shaped(RefundStep(s, p, o))
    requires s.calls[p].at.Syncing? && !o.Fault?
    ensures Orders(RefundStep(s, p, o))
  {
    RefundWrites(s.cfg, s.tables, s.calls[p], o);
    assert Finishes(s, RefundStep(s, p, o), ByCall(p));
    FinishesOrders(s, RefundStep(s, p, o), ByCall(p));
  }

  lemma RefundQuietOrders(s: State, p: nat, o: Outcome)
    requires Shaped(s) && Orders(s) && p in s.calls && Shaped(RefundStep(s, p, o))
    requires RefundStep(s, p, o).tables.payments == s.tables.payments
    requires !(s.calls[p].at.Syncing? && !o.Fault?)
    ensures Orders(RefundStep(s, p, o))
  {
    RefundWrites(s.cfg, s.tables, s.calls[p], o);
    assert Quiet(s, RefundStep(s, p, o));
    QuietOrders(s, RefundStep(s, p, o));
  }

  lemma RefundOrders(s: State, p: nat, o: Outcome)
    requires Shaped(s) && Lifecycle(s) && Orders(s) && p in s.calls && Shaped(RefundStep(s, p, o))
    ensures Orders(RefundStep(s, p, o))
  {
    RefundWrites(s.cfg, s.tables, s.calls[p], o);
    if RefundStep(s, p, o).tables.payments != s.tables.payments {
      RefundMovingOrders(s, p, o);
    } else if s.calls[p].at.Syncing? && !o.Fault? {
      RefundSyncingOrders(s, p, o);
    } else {
      RefundQuietOrders(s, p, o);
    }
  }

  lemma CreationOrders(s: State, payment: Payment, orderNumber: string)
    requires Shaped(s) && Orders(s) && payment.status == Pending
    requires Shaped(PaymentCreated(s, payment, orderNumber))
    ensures Orders(PaymentCreated(s, payment, orderNumber))
  {
    var s' := PaymentCreated(s, payment, orderNumber);
    forall q | 0 <= q < |s'.tables.payments| ensures FollowsAt(s'.tables, s'.history, q) {
      if q < |s.tables.payments| {
        assert FollowsAt(s.tables, s.history, q);
      } else {
        assert Pending in s'.history.held[q];
      }
    }
    forall x | Syncs(s', x) ensures SyncOk(s'.tables, s'.history, Row(s', x), Written(s', x)) {
      assert Syncs(s, x) && SyncOk(s.tables, s.history, Row(s, x), Written(s, x));
    }
    forall x, y | Syncs(s', x) && Syncs(s', y) && x != y && Row(s', x) == Row(s', y)
      ensures Row(s', x) in s'.history.torn
    {
      assert Syncs(s, x) && Syncs(s, y) && Row(s, x) == Row(s, y);
    }
  }

  lemma SidelineOrders(s: State, s': State)
    requires Shaped(s) && Orders(s) && Shaped(s') && Sideline(s, s')
    ensures Orders(s')
  {
    assert Quiet(s, s');
    QuietOrders(s, s');
  }
}
