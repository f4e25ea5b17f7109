/** Any number of callers of `recordPaymentCredit` / `recordRefundDebit` at once, each look-up,
    insert and re-read one atomic operation on the table, in every interleaving. */
module AppendProtocol {
  import opened Domain
  import opened Ledger

  /** A caller carries the entry it wants stored. */
  datatype Caller =
    | Looking(wanted: Entry)
    | Inserting(wanted: Entry)
    | Rereading(wanted: Entry)
    | Returned(wanted: Entry, entry: Entry)
    | GaveUp(wanted: Entry)

  datatype Table = Table(rows: seq<Entry>, callers: seq<Caller>)

  datatype Action = Arrive(wanted: Entry) | Step(caller: nat, fault: bool)

  /** The unique constraint compares reference texts. */
  predicate Taken(rows: seq<Entry>, text: string) {
    exists i :: 0 <= i < |rows| && RefText(rows[i].ref) == text
  }

  function Lookup(rows: seq<Entry>, text: string): (found: Option<Entry>)
    ensures found.Some? <==> Taken(rows, text)
    ensures found.Some? ==> found.value in rows && RefText(found.value.ref) == text
  {
    if rows == [] then None
    else if RefText(rows[0].ref) == text then Some(rows[0])
    else
      assert forall i :: 1 <= i < |rows| ==> rows[1..][i - 1] == rows[i];
      Lookup(rows[1..], text)
  }

  function StepCaller(t: Table, c: Caller, fault: bool): (Table, Caller) {
    var text := RefText(c.wanted.ref);
    match c
    case Looking(e) =>
      if fault then (t, GaveUp(e))
      else
        var found := Lookup(t.rows, text);
        (t, if found.Some? then Returned(e, found.value) else Inserting(e))
    case Inserting(e) =>
      if fault then (t, GaveUp(e))
      else if Taken(t.rows, text) then (t, Rereading(e))
      else (t.(rows := t.rows + [e]), Returned(e, e))
    case Rereading(e) =>
      if fault then (t, GaveUp(e))
      else
        var found := Lookup(t.rows, text);
        (t, if found.Some? then Returned(e, found.value) else GaveUp(e))
    case Returned(_, _) => (t, c)
    case GaveUp(_) => (t, c)
  }

  function Apply(t: Table, a: Action): Table {
    match a
    case Arrive(e) => t.(callers := t.callers + [Looking(e)])
    case Step(i, fault) =>
      if i < |t.callers| then
        var (t', c) := StepCaller(t, t.callers[i], fault);
        t'.(callers := t'.callers[i := c])
      else t
  }

  function Run(t: Table, actions: seq<Action>): Table
    decreases |actions|
  {
    if actions == [] then t else Run(Apply(t, actions[0]), actions[1..])
  }

  ghost predicate Inv(t: Table) {
    && (forall i, j :: 0 <= i < j < |t.rows| ==> RefText(t.rows[i].ref) != RefText(t.rows[j].ref))
    && (forall k :: 0 <= k < |t.callers| && t.callers[k].Returned? ==>
          t.callers[k].entry in t.rows && t.callers[k].entry.ref == t.callers[k].wanted.ref)
    && (forall k :: 0 <= k < |t.callers| && t.callers[k].Rereading? ==>
          Taken(t.rows, RefText(t.callers[k].wanted.ref)))
  }

  lemma TakenStays(rows: seq<Entry>, rows': seq<Entry>, text: string)
    requires rows <= rows' && Taken(rows, text)
    ensures Taken(rows', text)
  {
  }

  /** What one operation of one caller does to the rows and to the caller. */
  lemma StepKeeps(t: Table, c: Caller, fault: bool)
    requires Inv(t) && c in t.callers
    ensures
      var (t', c') := StepCaller(t, c, fault);
      && t'.callers == t.callers && t.rows <= t'.rows
      && (forall i, j :: 0 <= i < j < |t'.rows| ==> RefText(t'.rows[i].ref) != RefText(t'.rows[j].ref))
      && (c'.Returned? ==> c'.entry in t'.rows && c'.entry.ref == c'.wanted.ref)
      && (c'.Rereading? ==> Taken(t'.rows, RefText(c'.wanted.ref)))
  {
    var (t', c') := StepCaller(t, c, fault);
    if c'.Returned? && c' != c {
      RefTextInjective(c'.entry.ref, c.wanted.ref);
      if t' != t { assert t'.rows[|t.rows|] == c.wanted; }
    }
  }

  lemma ApplyKeeps(t: Table, a: Action)
    requires Inv(t)
    ensures Inv(Apply(t, a)) && t.rows <= Apply(t, a).rows
  {
    if a.Step? && a.caller < |t.callers| {
      var c := t.callers[a.caller];
      StepKeeps(t, c, a.fault);
      var (t', c') := StepCaller(t, c, a.fault);
      forall k | 0 <= k < |t.callers| && t.callers[k].Rereading?
        ensures Taken(t'.rows, RefText(t.callers[k].wanted.ref))
      {
        TakenStays(t.rows, t'.rows, RefText(t.callers[k].wanted.ref));
      }
    }
  }

  lemma {:induction false} RunKeeps(t: Table, actions: seq<Action>)
    requires Inv(t)
    ensures Inv(Run(t, actions)) && t.rows <= Run(t, actions).rows
    decreases |actions|
  {
    if actions != [] {
      ApplyKeeps(t, actions[0]);
      RunKeeps(Apply(t, actions[0]), actions[1..]);
    }
  }

  lemma {:induction false} RunSplit(t: Table, first: seq<Action>, second: seq<Action>)
    ensures Run(t, first + second) == Run(Run(t, first), second)
    decreases |first|
  {
    if first == [] {
      assert first + second == second;
    } else {
      assert (first + second)[0] == first[0] && (first + second)[1..] == first[1..] + second;
      RunSplit(Apply(t, first[0]), first[1..], second);
    }
  }

  /** The append protocol, in every interleaving and with faults anywhere: there is one row per
      reference; every two callers that return for the same reference return the same row, and it
      is in the table; and rows once stored are never changed, moved or removed. */
  lemma OneEntryPerReference(before: seq<Action>, after: seq<Action>)
    ensures
      var t := Run(Table([], []), before);
      var u := Run(Table([], []), before + after);
      && UniqueRefs(u.rows)
      && t.rows <= u.rows
      && (forall i, j ::
            0 <= i < |u.callers| && 0 <= j < |u.callers| && u.callers[i].Returned? && u.callers[j].Returned?
            && u.callers[i].wanted.ref == u.callers[j].wanted.ref
            ==> u.callers[i].entry == u.callers[j].entry)
      && (forall i :: 0 <= i < |u.callers| && u.callers[i].Returned? ==>
            Find(u.rows, u.callers[i].wanted.ref) == Some(u.callers[i].entry))
  {
    var t := Run(Table([], []), before);
    var u := Run(Table([], []), before + after);
    RunKeeps(Table([], []), before);
    RunSplit(Table([], []), before, after);
    RunKeeps(t, after);
    forall i, j | 0 <= i < j < |u.rows| ensures u.rows[i].ref != u.rows[j].ref {
      assert RefText(u.rows[i].ref) != RefText(u.rows[j].ref);
    }
    forall i | 0 <= i < |u.callers| && u.callers[i].Returned?
      ensures Find(u.rows, u.callers[i].wanted.ref) == Some(u.callers[i].entry)
    {
      FindUnique(u.rows, u.callers[i].entry);
    }
  }

  /** How far a caller is from returning. */
  function Distance(c: Caller): nat {
    match c
    case Looking(_) => 3
    case Inserting(_) => 2
    case Rereading(_) => 1
    case _ => 0
  }

  /** A caller's own successful operation brings it nearer to returning, and it never gives up. */
  lemma OwnStepProgresses(t: Table, k: nat)
    requires Inv(t) && k < |t.callers| && !t.callers[k].GaveUp?
    ensures
      var t' := Apply(t, Step(k, false));
      && Inv(t') && |t'.callers| == |t.callers| && !t'.callers[k].GaveUp?
      && (t.callers[k].Returned? || Distance(t'.callers[k]) < Distance(t.callers[k]))
  {
    ApplyKeeps(t, Step(k, false));
  }

  lemma {:induction false} OthersLeaveAlone(t: Table, k: nat, actions: seq<Action>)
    requires k < |t.callers|
    requires forall x :: x in actions && x.Step? ==> x.caller != k
    ensures k < |Run(t, actions).callers| && Run(t, actions).callers[k] == t.callers[k]
    decreases |actions|
  {
    if actions != [] {
      assert actions[0] in actions;
      assert forall x :: x in actions[1..] ==> x in actions;
      OthersLeaveAlone(Apply(t, actions[0]), k, actions[1..]);
    }
  }

  predicate ByOthers(actions: seq<Action>, k: nat) {
    forall x :: x in actions && x.Step? ==> x.caller != k
  }

  lemma OthersKeep(t: Table, k: nat, actions: seq<Action>)
    requires Inv(t) && k < |t.callers| && ByOthers(actions, k)
    ensures
      var u := Run(t, actions);
      Inv(u) && k < |u.callers| && u.callers[k] == t.callers[k]
  {
    OthersLeaveAlone(t, k, actions);
    RunKeeps(t, actions);
  }

  /** A caller whose own operations all succeed returns after at most three of its own steps,
      whatever the others do in between: it never fails and never waits for another caller. */
  lemma ReturnsInThreeSteps(t: Table, k: nat, a: seq<Action>, b: seq<Action>)
    requires Inv(t) && k < |t.callers| && t.callers[k].Looking? && ByOthers(a, k) && ByOthers(b, k)
    ensures
      var t1 := Apply(t, Step(k, false));
      var t2 := Apply(Run(t1, a), Step(k, false));
      var t3 := Apply(Run(t2, b), Step(k, false));
      k < |t3.callers| && t3.callers[k].Returned?
  {
    var t1 := Apply(t, Step(k, false));
    OwnStepProgresses(t, k);
    OthersKeep(t1, k, a);
    OwnStepProgresses(Run(t1, a), k);
    var t2 := Apply(Run(t1, a), Step(k, false));
    OthersKeep(t2, k, b);
    OwnStepProgresses(Run(t2, b), k);
  }
}
