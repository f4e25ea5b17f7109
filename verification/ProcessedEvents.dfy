/** What PROCESSED means: a success event that found its payment has been credited, and an event that is
    PROCESSED will never do anything more. */
module ProcessedEvents {
  import opened Domain
  import opened Store
  import opened System
  import opened Shape
  import opened CreditBacking
  import W = Worker

  ghost predicate Confirmed(h: History, row: nat) {
    exists p: nat :: (row, p) in h.confirmed
  }

  /** Event `row` asks for a confirmation, and every run that looked for its payment found one. */
  predicate Expected(cfg: Config, t: Tables, h: History, row: nat) {
    cfg.ledgerEnabled && row < |t.events| && W.Classify(t.events[row]) == W.Confirm && row !in h.unfound
  }

  ghost predicate RunCredited(cfg: Config, t: Tables, h: History, k: W.Run)
    requires W.InRange(t, k)
  {
    && (k.at.Finishing? && Expected(cfg, t, h, k.row) ==> Confirmed(h, k.row))
    && (k.at.Rereading? ==> Confirmed(h, k.row))
  }

  ghost predicate RowsCredited(s: State) {
    forall row :: 0 <= row < |s.tables.events| && s.tables.events[row].status == Processed ==>
      Expected(s.cfg, s.tables, s.history, row) ==> Confirmed(s.history, row)
  }

  ghost predicate ProcessedCredited(s: State)
    requires Shaped(s)
  {
    RowsCredited(s) && forall w :: w in s.workers ==> RunCredited(s.cfg, s.tables, s.history, s.workers[w])
  }

  // ---------------------------------------------------------------- one worker step

  /** Later states: events keep what they ask for, and both kinds of history only grow. */
  ghost predicate Later(s: State, s': State) {
    && s'.cfg == s.cfg && Grows(s.tables, s'.tables)
    && s.history.confirmed <= s'.history.confirmed && s.history.unfound <= s'.history.unfound
  }

  lemma ConfirmedStays(h: History, h': History, row: nat)
    requires Confirmed(h, row) && h.confirmed <= h'.confirmed
    ensures Confirmed(h', row)
  {
    var p: nat :| (row, p) in h.confirmed;
    assert (row, p) in h'.confirmed;
  }

  lemma ExpectedBefore(s: State, s': State, row: nat)
    requires Later(s, s') && row < |s.tables.events| && Expected(s'.cfg, s'.tables, s'.history, row)
    ensures Expected(s.cfg, s.tables, s.history, row)
  {
    assert s'.tables.events[row] == Rebooked(s.tables.events[row], s'.tables.events[row]);
  }

  lemma RunStays(s: State, s': State, k: W.Run)
    requires Later(s, s') && W.InRange(s.tables, k) && W.InRange(s'.tables, k)
    requires RunCredited(s.cfg, s.tables, s.history, k)
    ensures RunCredited(s'.cfg, s'.tables, s'.history, k)
  {
    if k.at.Finishing? && Expected(s'.cfg, s'.tables, s'.history, k.row) {
      ExpectedBefore(s, s', k.row);
      ConfirmedStays(s.history, s'.history, k.row);
    }
    if k.at.Rereading? { ConfirmedStays(s.history, s'.history, k.row); }
  }

  lemma WorkerLater(s: State, w: nat, o: Outcome)
    requires Shaped(s) && w in s.workers
    ensures Later(s, WorkerStep(s, w, o))
  {
    WorkerGrows(s.cfg, s.tables, s.workers[w], o);
  }

  /** A run reaches its end credited. */
  lemma StepCredited(s: State, w: nat, o: Outcome)
    requires Shaped(s) && w in s.workers && HoldsNamed(s.tables, s.workers[w])
    requires RunCredited(s.cfg, s.tables, s.history, s.workers[w])
    ensures
      var s', turn := WorkerStep(s, w, o), W.Advance(s.cfg, s.tables, s.workers[w], o);
      turn.next.Go? ==> RunCredited(s.cfg, s'.tables, s'.history, turn.next.run)
  {
    var k, s' := s.workers[w], WorkerStep(s, w, o);
    if (k.at.Seeking? || k.at.Crediting?) && !o.Fault? {
      assert s'.history.confirmed == s.history.confirmed
          || (k.row, k.at.payment) in s'.history.confirmed;
    }
    if k.at.Rereading? { ConfirmedStays(s.history, s'.history, k.row); }
  }

  /** A row becomes PROCESSED only by the last step of a run. */
  lemma ProcessedBy(cfg: Config, t: Tables, k: W.Run, o: Outcome)
    requires W.InRange(t, k)
    ensures
      var t' := W.Advance(cfg, t, k, o).tables;
      forall row :: 0 <= row < |t.events| && t'.events[row].status == Processed ==>
        t.events[row].status == Processed || (row == k.row && k.at.Finishing?)
  {
  }

  lemma WorkerProcessed(s: State, w: nat, o: Outcome)
    requires Shaped(s) && ProcessedCredited(s) && Backing(s) && w in s.workers && Shaped(WorkerStep(s, w, o))
    ensures ProcessedCredited(WorkerStep(s, w, o))
  {
    var s' := WorkerStep(s, w, o);
    WorkerLater(s, w, o);
    assert HoldsNamed(s.tables, s.workers[w]) && RunCredited(s.cfg, s.tables, s.history, s.workers[w]);
    StepCredited(s, w, o);
    forall v | v in s'.workers ensures RunCredited(s'.cfg, s'.tables, s'.history, s'.workers[v]) {
      if v != w { RunStays(s, s', s.workers[v]); }
    }
    ProcessedBy(s.cfg, s.tables, s.workers[w], o);
    forall row | 0 <= row < |s'.tables.events| && s'.tables.events[row].status == Processed
                 && Expected(s'.cfg, s'.tables, s'.history, row)
      ensures Confirmed(s'.history, row)
    {
      ExpectedBefore(s, s', row);
      assert Confirmed(s.history, row);
      ConfirmedStays(s.history, s'.history, row);
    }
  }

  /** Steps of anyone but a worker. */
  lemma OtherProcessed(s: State, s': State)
    requires Shaped(s) && ProcessedCredited(s) && Shaped(s') && Later(s, s')
    requires forall row :: 0 <= row < |s'.tables.events| && s'.tables.events[row].status == Processed ==>
               row < |s.tables.events| && s.tables.events[row].status == Processed
    requires forall w :: w in s'.workers ==>
               s'.workers[w].at.Loading? || (w in s.workers && s'.workers[w] == s.workers[w])
    ensures ProcessedCredited(s')
  {
    forall w | w in s'.workers ensures RunCredited(s'.cfg, s'.tables, s'.history, s'.workers[w]) {
      if !s'.workers[w].at.Loading? { RunStays(s, s', s.workers[w]); }
    }
    forall row | 0 <= row < |s'.tables.events| && s'.tables.events[row].status == Processed
                 && Expected(s'.cfg, s'.tables, s'.history, row)
      ensures Confirmed(s'.history, row)
    {
      ExpectedBefore(s, s', row);
      ConfirmedStays(s.history, s'.history, row);
    }
  }
}
