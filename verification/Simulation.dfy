/** A call made alone is one particular run of the system: start it, let it take its operations one by
    one, and let its process die if the script ends before it does. What the methods of `Database` do is
    therefore covered by the theorems over all runs. */
module Simulation {
  import opened Domain
  import opened System
  import opened Conservation
  import W = Worker
  import R = Refunds
  import I = Invoicing

  function WorkerActions(w: nat, script: seq<Outcome>): (actions: seq<Action>)
    ensures |actions| == |script| + 1
  {
    if script == [] then [CrashWorker(w)] else [StepWorker(w, script[0])] + WorkerActions(w, script[1..])
  }

  function RefundActions(p: nat, script: seq<Outcome>): (actions: seq<Action>)
    ensures |actions| == |script| + 1
  {
    if script == [] then [CrashRefund(p)] else [StepRefund(p, script[0])] + RefundActions(p, script[1..])
  }

  function InvoiceActions(j: nat, script: seq<Outcome>): (actions: seq<Action>)
    ensures |actions| == |script| + 1
  {
    if script == [] then [CrashInvoice(j)] else [StepInvoice(j, script[0])] + InvoiceActions(j, script[1..])
  }

  lemma {:induction false} GoneWorker(s: State, w: nat, script: seq<Outcome>)
    requires w !in s.workers
    ensures Run(s, WorkerActions(w, script)) == s
    decreases |script|
  {
    if script != [] {
      GoneWorker(s, w, script[1..]);
    }
  }

  lemma {:induction false} GoneRefund(s: State, p: nat, script: seq<Outcome>)
    requires p !in s.calls
    ensures Run(s, RefundActions(p, script)) == s
    decreases |script|
  {
    if script != [] {
      GoneRefund(s, p, script[1..]);
    }
  }

  lemma {:induction false} GoneInvoice(s: State, j: nat, script: seq<Outcome>)
    requires j !in s.jobs
    ensures Run(s, InvoiceActions(j, script)) == s
    decreases |script|
  {
    if script == [] {
      assert s.jobs - {j} == s.jobs;
      assert Run(Apply(s, CrashInvoice(j)), []) == s;
    } else {
      GoneInvoice(s, j, script[1..]);
    }
  }

  lemma WorkerAction(s: State, w: nat, o: Outcome)
    requires Aligned(s) && w in s.workers && W.InRange(s.tables, s.workers[w])
    ensures
      var s', turn := Apply(s, StepWorker(w, o)), W.Advance(s.cfg, s.tables, s.workers[w], o);
      && Aligned(s') && s'.cfg == s.cfg && s'.tables == turn.tables && s'.calls == s.calls && s'.jobs == s.jobs
      && s'.workers == if turn.next.Go? then s.workers[w := turn.next.run] else s.workers - {w}
  {
  }

  lemma {:induction false} WorkerSimulated(s: State, w: nat, script: seq<Outcome>)
    requires Aligned(s) && w in s.workers && W.InRange(s.tables, s.workers[w])
    ensures
      var s' := Run(s, WorkerActions(w, script));
      && s'.tables == W.RunJob(s.cfg, s.tables, s.workers[w], script).tables
      && s'.workers == s.workers - {w} && s'.calls == s.calls && s'.jobs == s.jobs
    decreases |script|
  {
    if script == [] {
      assert Run(Apply(s, CrashWorker(w)), []) == Apply(s, CrashWorker(w));
    } else {
      WorkerAction(s, w, script[0]);
      var s1 := Apply(s, StepWorker(w, script[0]));
      assert WorkerActions(w, script)[1..] == WorkerActions(w, script[1..]);
      if w in s1.workers {
        WorkerSimulated(s1, w, script[1..]);
        assert s1.workers - {w} == s.workers - {w};
      } else {
        GoneWorker(s1, w, script[1..]);
      }
    }
  }

  lemma RefundAction(s: State, p: nat, o: Outcome)
    requires Aligned(s) && p in s.calls && R.InRange(s.tables, s.calls[p])
    ensures
      var s', turn := Apply(s, StepRefund(p, o)), R.Advance(s.cfg, s.tables, s.calls[p], o);
      && Aligned(s') && s'.cfg == s.cfg && s'.tables == turn.tables && s'.workers == s.workers
      && s'.calls == if turn.next.Go? then s.calls[p := turn.next.run] else s.calls - {p}
  {
  }

  lemma {:induction false} RefundSimulated(s: State, p: nat, script: seq<Outcome>)
    requires Aligned(s) && p in s.calls && R.InRange(s.tables, s.calls[p])
    ensures
      var s' := Run(s, RefundActions(p, script));
      && s'.tables == R.RunCall(s.cfg, s.tables, s.calls[p], script).tables
      && s'.calls == s.calls - {p} && s'.workers == s.workers
    decreases |script|
  {
    if script == [] {
      assert Run(Apply(s, CrashRefund(p)), []) == Apply(s, CrashRefund(p));
    } else {
      RefundAction(s, p, script[0]);
      var s1 := Apply(s, StepRefund(p, script[0]));
      assert RefundActions(p, script)[1..] == RefundActions(p, script[1..]);
      if p in s1.calls {
        RefundSimulated(s1, p, script[1..]);
        assert s1.calls - {p} == s.calls - {p};
      } else {
        GoneRefund(s1, p, script[1..]);
      }
    }
  }

  lemma {:induction false} InvoiceSimulated(s: State, j: nat, script: seq<Outcome>)
    requires j in s.jobs && I.InRange(s.tables, s.jobs[j])
    ensures
      var s' := Run(s, InvoiceActions(j, script));
      && s'.tables == I.RunJob(s.tables, s.jobs[j], script).tables
      && s'.jobs == s.jobs - {j} && s'.calls == s.calls && s'.workers == s.workers
    decreases |script|
  {
    if script == [] {
      assert Run(Apply(s, CrashInvoice(j)), []) == Apply(s, CrashInvoice(j));
    } else {
      var s1 := Apply(s, StepInvoice(j, script[0]));
      assert InvoiceActions(j, script)[1..] == InvoiceActions(j, script[1..]);
      if j in s1.jobs {
        InvoiceSimulated(s1, j, script[1..]);
        assert s1.jobs - {j} == s.jobs - {j};
      } else {
        GoneInvoice(s1, j, script[1..]);
      }
    }
  }

  lemma JobRuns(s: State, w: nat, row: nat, attemptsMade: nat, script: seq<Outcome>)
    requires Aligned(s) && w !in s.workers
    ensures
      var s' := Run(s, [StartWorker(w, row, attemptsMade)] + WorkerActions(w, script));
      && s'.tables == W.RunJob(s.cfg, s.tables, W.Start(row, attemptsMade), script).tables
      && s'.workers == s.workers && s'.calls == s.calls && s'.jobs == s.jobs
  {
    var start := StartWorker(w, row, attemptsMade);
    var actions := [start] + WorkerActions(w, script);
    assert actions[0] == start && actions[1..] == WorkerActions(w, script);
    WorkerSimulated(Apply(s, start), w, script);
    assert s.workers[w := W.Start(row, attemptsMade)] - {w} == s.workers;
  }

  /** A whole job run is a run of the system that touches nobody else. */
  lemma JobIsARun(s: State, w: nat, row: nat, attemptsMade: nat, script: seq<Outcome>)
    requires Inv(s) && w !in s.workers
    ensures
      var s' := Run(s, [StartWorker(w, row, attemptsMade)] + WorkerActions(w, script));
      && s'.tables == W.RunJob(s.cfg, s.tables, W.Start(row, attemptsMade), script).tables
      && s'.workers == s.workers && s'.calls == s.calls && s'.jobs == s.jobs && Inv(s')
  {
    JobRuns(s, w, row, attemptsMade, script);
    RunInv(s, [StartWorker(w, row, attemptsMade)] + WorkerActions(w, script));
  }

  lemma CallRuns(s: State, p: nat, request: R.Request, script: seq<Outcome>)
    requires Aligned(s) && p !in s.calls
    ensures
      var s' := Run(s, [StartRefund(p, request)] + RefundActions(p, script));
      && s'.tables == R.RunCall(s.cfg, s.tables, R.Start(p, request), script).tables
      && s'.workers == s.workers && s'.calls == s.calls
  {
    var start := StartRefund(p, request);
    var actions := [start] + RefundActions(p, script);
    assert actions[0] == start && actions[1..] == RefundActions(p, script);
    RefundSimulated(Apply(s, start), p, script);
    assert s.calls[p := R.Start(p, request)] - {p} == s.calls;
  }

  /** A whole refund call likewise. */
  lemma CallIsARun(s: State, p: nat, request: R.Request, script: seq<Outcome>)
    requires Inv(s) && p !in s.calls
    ensures
      var s' := Run(s, [StartRefund(p, request)] + RefundActions(p, script));
      && s'.tables == R.RunCall(s.cfg, s.tables, R.Start(p, request), script).tables
      && s'.workers == s.workers && s'.calls == s.calls && Inv(s')
  {
    CallRuns(s, p, request, script);
    RunInv(s, [StartRefund(p, request)] + RefundActions(p, script));
  }

  lemma InvoiceRuns(s: State, j: nat, order: nat, queued: bool, script: seq<Outcome>)
    requires Aligned(s) && j !in s.jobs
    ensures
      var s' := Run(s, [StartInvoice(j, order, queued)] + InvoiceActions(j, script));
      && s'.tables == I.RunJob(s.tables, I.Start(order, queued), script).tables
      && s'.jobs == s.jobs && s'.workers == s.workers && s'.calls == s.calls
  {
    var start := StartInvoice(j, order, queued);
    var actions := [start] + InvoiceActions(j, script);
    assert actions[0] == start && actions[1..] == InvoiceActions(j, script);
    InvoiceSimulated(Apply(s, start), j, script);
    assert s.jobs[j := I.Start(order, queued)] - {j} == s.jobs;
  }

  /** And a whole invoice job. */
  lemma InvoiceIsARun(s: State, j: nat, order: nat, queued: bool, script: seq<Outcome>)
    requires Inv(s) && j !in s.jobs
    ensures
      var s' := Run(s, [StartInvoice(j, order, queued)] + InvoiceActions(j, script));
      && s'.tables == I.RunJob(s.tables, I.Start(order, queued), script).tables
      && s'.jobs == s.jobs && s'.workers == s.workers && s'.calls == s.calls && Inv(s')
  {
    InvoiceRuns(s, j, order, queued, script);
    RunInv(s, [StartInvoice(j, order, queued)] + InvoiceActions(j, script));
  }
}
