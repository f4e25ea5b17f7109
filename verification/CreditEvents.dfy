/** Credits counted by events: which success events have had their credit step run, and how many credits
    that makes. */
module CreditEvents {
  import opened Domain
  import opened Ledger
  import opened Store
  import opened System
  import opened Shape
  import opened CreditSafety
  import opened CreditBacking
  import W = Worker

  /** The reference of event `row` for payment `p`. */
  function RefOf(t: Tables, row: nat, p: nat): Ref
    requires row < |t.events| && p < |t.payments|
  {
    CreditRef(t.events[row].eventId, t.payments[p])
  }

  /** The events whose credit step has run for `p`. */
  ghost function EventsOf(confirmed: set<(nat, nat)>, p: nat): set<nat> {
    set x | x in confirmed && x.1 == p :: x.0
  }

  /** Event `row` confirms payment `p`, and their reference is in the ledger. */
  ghost predicate Ran(t: Tables, credited: map<Ref, nat>, row: nat, p: nat) {
    && row < |t.events| && p < |t.payments|
    && W.Classify(t.events[row]) == W.Confirm && Matches(t, t.events[row], p)
    && RefOf(t, row, p) in credited
  }

  /** Some event's step put the reference there. */
  ghost predicate FromEvent(t: Tables, confirmed: set<(nat, nat)>, ref: Ref, p: nat) {
    exists row: nat :: (row, p) in confirmed && row < |t.events| && p < |t.payments| && RefOf(t, row, p) == ref
  }

  ghost predicate EventsCredited(s: State) {
    && (forall row: nat, p: nat :: (row, p) in s.history.confirmed ==> Ran(s.tables, s.history.credited, row, p))
    && (forall ref :: ref in s.history.credited ==>
          FromEvent(s.tables, s.history.confirmed, ref, s.history.credited[ref]))
  }

  // ---------------------------------------------------------------- every step keeps it

  lemma RanGrows(t: Tables, t': Tables, credited: map<Ref, nat>, credited': map<Ref, nat>, row: nat, p: nat)
    requires Ran(t, credited, row, p) && Grows(t, t')
    requires forall ref :: ref in credited ==> ref in credited'
    ensures Ran(t', credited', row, p)
  {
    assert t'.payments[p] == t.payments[p].(status := t'.payments[p].status);
    assert t'.events[row] == Rebooked(t.events[row], t'.events[row]);
  }

  lemma FromEventGrows(t: Tables, t': Tables, confirmed: set<(nat, nat)>, confirmed': set<(nat, nat)>, ref: Ref, p: nat)
    requires FromEvent(t, confirmed, ref, p) && Grows(t, t') && confirmed <= confirmed'
    ensures FromEvent(t', confirmed', ref, p)
  {
    var row: nat :| (row, p) in confirmed && row < |t.events| && p < |t.payments| && RefOf(t, row, p) == ref;
    assert t'.payments[p] == t.payments[p].(status := t'.payments[p].status);
    assert t'.events[row] == Rebooked(t.events[row], t'.events[row]);
    assert (row, p) in confirmed' && RefOf(t', row, p) == ref;
  }

  /** Nothing is confirmed. */
  lemma EventsFrame(s: State, s': State)
    requires EventsCredited(s) && Grows(s.tables, s'.tables)
    requires s'.history.confirmed == s.history.confirmed && s'.history.credited == s.history.credited
    ensures EventsCredited(s')
  {
    forall row: nat, p: nat | (row, p) in s'.history.confirmed
      ensures Ran(s'.tables, s'.history.credited, row, p)
    {
      RanGrows(s.tables, s'.tables, s.history.credited, s'.history.credited, row, p);
    }
    forall ref | ref in s'.history.credited
      ensures FromEvent(s'.tables, s'.history.confirmed, ref, s'.history.credited[ref])
    {
      FromEventGrows(s.tables, s'.tables, s.history.confirmed, s'.history.confirmed, ref, s.history.credited[ref]);
    }
  }

  /** One credit step runs. */
  lemma EventConfirmed(s: State, s': State, row: nat, p: nat)
    requires EventsCredited(s) && Grows(s.tables, s'.tables)
    requires row < |s.tables.events| && p < |s.tables.payments|
    requires W.Classify(s.tables.events[row]) == W.Confirm && Matches(s.tables, s.tables.events[row], p)
    requires s'.history == Credited(s.history, row, RefOf(s.tables, row, p), p)
    ensures EventsCredited(s')
  {
    var h, h' := s.history, s'.history;
    forall r: nat, q: nat | (r, q) in h'.confirmed ensures Ran(s'.tables, h'.credited, r, q) {
      if (r, q) in h.confirmed {
        assert Ran(s.tables, h.credited, r, q);
        RanGrows(s.tables, s'.tables, h.credited, h'.credited, r, q);
      } else {
        assert Ran(s.tables, h'.credited, row, p);
        RanGrows(s.tables, s'.tables, h'.credited, h'.credited, row, p);
      }
    }
    NewRefConfirmed(s, s', row, p);
  }

  lemma NewRefConfirmed(s: State, s': State, row: nat, p: nat)
    requires EventsCredited(s) && Grows(s.tables, s'.tables)
    requires row < |s.tables.events| && p < |s.tables.payments|
    requires W.Classify(s.tables.events[row]) == W.Confirm && Matches(s.tables, s.tables.events[row], p)
    requires s'.history == Credited(s.history, row, RefOf(s.tables, row, p), p)
    ensures forall ref :: ref in s'.history.credited ==>
              FromEvent(s'.tables, s'.history.confirmed, ref, s'.history.credited[ref])
  {
    var h, h' := s.history, s'.history;
    assert (row, p) in h'.confirmed;
    forall ref | ref in h'.credited ensures FromEvent(s'.tables, h'.confirmed, ref, h'.credited[ref]) {
      if ref in h.credited {
        FromEventGrows(s.tables, s'.tables, h.confirmed, h'.confirmed, ref, h.credited[ref]);
      } else {
        assert FromEvent(s.tables, h'.confirmed, ref, p);
        FromEventGrows(s.tables, s'.tables, h'.confirmed, h'.confirmed, ref, p);
      }
    }
  }

  /** What a worker's step does to the two histories. */
  lemma ConfirmEffect(cfg: Config, t: Tables, k: W.Run, o: Outcome, h: History)
    requires W.InRange(t, k) && |h.held| == |h.changes| == |t.payments|
    ensures
      var h' := AfterWorker(h, t, k, o, W.Advance(cfg, t, k, o).tables);
      (h'.confirmed == h.confirmed && h'.credited == h.credited)
      || (&& (k.at.Seeking? || k.at.Crediting?)
          && h' == Credited(h, k.row, RefOf(t, k.row, k.at.payment), k.at.payment))
  {
  }

  lemma WorkerEvents(s: State, w: nat, o: Outcome)
    requires Shaped(s) && EventsCredited(s) && Backing(s) && w in s.workers
    ensures EventsCredited(WorkerStep(s, w, o))
  {
    var k, s' := s.workers[w], WorkerStep(s, w, o);
    WorkerGrows(s.cfg, s.tables, k, o);
    ConfirmEffect(s.cfg, s.tables, k, o, s.history);
    if s'.history.confirmed == s.history.confirmed && s'.history.credited == s.history.credited {
      EventsFrame(s, s');
    } else {
      assert HoldsNamed(s.tables, k);
      EventConfirmed(s, s', k.row, k.at.payment);
    }
  }

  lemma RefundEvents(s: State, p: nat, o: Outcome)
    requires Shaped(s) && EventsCredited(s) && p in s.calls
    ensures EventsCredited(RefundStep(s, p, o))
  {
    RefundGrows(s.cfg, s.tables, s.calls[p], o);
    EventsFrame(s, RefundStep(s, p, o));
  }

  // ---------------------------------------------------------------- counting

  /** The references of some events: no more than the events, and as many exactly when no two events share
      one and each of them is among those counted. */
  lemma {:induction false} CountImages(refs: map<nat, Ref>, counted: set<Ref>)
    requires forall ref :: ref in counted ==> exists row :: row in refs && refs[row] == ref
    ensures |counted| <= |refs|
    ensures |counted| == |refs| <==>
            && (forall row :: row in refs ==> refs[row] in counted)
            && (forall q, r :: q in refs && r in refs && q != r ==> refs[q] != refs[r])
    decreases |counted|
  {
    if counted == {} {
      if refs != map[] {
        var row :| row in refs;
        assert refs[row] !in counted;
      }
    } else {
      var ref :| ref in counted;
      var row :| row in refs && refs[row] == ref;
      var counted', refs' := counted - {ref}, refs - {row};
      forall x | x in counted' ensures exists r :: r in refs' && refs'[r] == x {
        var r :| r in refs && refs[r] == x;
        assert r in refs' && refs'[r] == x;
      }
      CountImages(refs', counted');
      assert refs.Keys == refs'.Keys + {row} && |refs| == |refs'| + 1;
      OneMore(refs, counted, row);
    }
  }

  /** The two conditions of the count, with and without one event. */
  lemma OneMore(refs: map<nat, Ref>, counted: set<Ref>, row: nat)
    requires row in refs && refs[row] in counted
    ensures
      && (forall r :: r in refs ==> refs[r] in counted)
      && (forall q, r :: q in refs && r in refs && q != r ==> refs[q] != refs[r])
      <==>
      var refs', counted' := refs - {row}, counted - {refs[row]};
      && (forall r :: r in refs' ==> refs'[r] in counted')
      && (forall q, r :: q in refs' && r in refs' && q != r ==> refs'[q] != refs'[r])
  {
    var refs', counted' := refs - {row}, counted - {refs[row]};
    assert forall r :: r in refs <==> r in refs' || r == row;
    assert forall r :: r in refs' ==> refs'[r] == refs[r];
    if && (forall r :: r in refs' ==> refs'[r] in counted')
       && (forall q, r :: q in refs' && r in refs' && q != r ==> refs'[q] != refs'[r])
    {
      forall q, r | q in refs && r in refs && q != r ensures refs[q] != refs[r] {
        if q == row { assert refs'[r] in counted'; }
        if r == row { assert refs'[q] in counted'; }
      }
      forall r | r in refs ensures refs[r] in counted {
        if r != row { assert refs'[r] in counted'; }
      }
    }
  }

  /** The references of the events confirmed for `p`. */
  ghost function RefsOf(s: State, p: nat): map<nat, Ref>
    requires EventsCredited(s) && p < |s.tables.payments|
  {
    map row | row in EventsOf(s.history.confirmed, p) :: RefOf(s.tables, row, p)
  }

  /** No two of them share a reference. */
  ghost predicate NoneShared(s: State, p: nat)
    requires EventsCredited(s) && p < |s.tables.payments|
  {
    forall q, r :: q in EventsOf(s.history.confirmed, p) && r in EventsOf(s.history.confirmed, p) && q != r ==>
      RefOf(s.tables, q, p) != RefOf(s.tables, r, p)
  }

  /** None of them was first credited to another payment. */
  ghost predicate NoneTaken(s: State, p: nat)
    requires EventsCredited(s) && p < |s.tables.payments|
  {
    forall r :: r in EventsOf(s.history.confirmed, p) ==> s.history.credited[RefOf(s.tables, r, p)] == p
  }

  lemma CountedHasEvent(s: State, p: nat, ref: Ref)
    requires EventsCredited(s) && p < |s.tables.payments| && ref in CreditsOf(s.history.credited, p)
    ensures exists row :: row in RefsOf(s, p) && RefsOf(s, p)[row] == ref
  {
    assert FromEvent(s.tables, s.history.confirmed, ref, p);
    var row: nat :| (row, p) in s.history.confirmed && row < |s.tables.events| && RefOf(s.tables, row, p) == ref;
    assert row in EventsOf(s.history.confirmed, p);
    assert row in RefsOf(s, p);
  }

  lemma CountedOrTaken(s: State, p: nat, row: nat)
    requires EventsCredited(s) && p < |s.tables.payments| && row in EventsOf(s.history.confirmed, p)
    ensures row < |s.tables.events| && RefOf(s.tables, row, p) in s.history.credited
    ensures RefOf(s.tables, row, p) in CreditsOf(s.history.credited, p)
            <==> s.history.credited[RefOf(s.tables, row, p)] == p
  {
    assert (row, p) in s.history.confirmed;
    assert Ran(s.tables, s.history.credited, row, p);
  }

  lemma OnePerEvent(s: State, p: nat)
    requires EventsCredited(s) && p < |s.tables.payments|
    ensures |RefsOf(s, p)| == |EventsOf(s.history.confirmed, p)|
  {
    assert RefsOf(s, p).Keys == EventsOf(s.history.confirmed, p);
  }

  lemma CreditsPerEvent(s: State, p: nat)
    requires EventsCredited(s) && p < |s.tables.payments|
    ensures |CreditsOf(s.history.credited, p)| <= |EventsOf(s.history.confirmed, p)|
    ensures |CreditsOf(s.history.credited, p)| == |EventsOf(s.history.confirmed, p)|
            <==> NoneShared(s, p) && NoneTaken(s, p)
  {
    var refs, counted := RefsOf(s, p), CreditsOf(s.history.credited, p);
    forall ref | ref in counted ensures exists row :: row in refs && refs[row] == ref { CountedHasEvent(s, p, ref); }
    CountImages(refs, counted);
    OnePerEvent(s, p);
    ConditionsMatch(s, p);
  }

  /** The two conditions, about references and about events. */
  lemma ConditionsMatch(s: State, p: nat)
    requires EventsCredited(s) && p < |s.tables.payments|
    ensures
      var refs, counted := RefsOf(s, p), CreditsOf(s.history.credited, p);
      && ((forall row :: row in refs ==> refs[row] in counted) <==> NoneTaken(s, p))
      && ((forall q, r :: q in refs && r in refs && q != r ==> refs[q] != refs[r]) <==> NoneShared(s, p))
  {
    var refs, counted := RefsOf(s, p), CreditsOf(s.history.credited, p);
    forall row | row in EventsOf(s.history.confirmed, p)
      ensures row in refs && refs[row] == RefOf(s.tables, row, p)
      ensures refs[row] in counted <==> s.history.credited[RefOf(s.tables, row, p)] == p
    {
      CountedOrTaken(s, p, row);
    }
  }

  /** Two events with identifiers of their own share a reference exactly when the identifiers are equal. */
  lemma SharedExactly(t: Tables, q: nat, r: nat, p: nat)
    requires q < |t.events| && r < |t.events| && p < |t.payments|
    requires t.events[q].eventId != "" && t.events[r].eventId != ""
    ensures RefOf(t, q, p) == RefOf(t, r, p) <==> t.events[q].eventId == t.events[r].eventId
  {
  }
}
