/** The retry run of a queued event, manual replays, and the recorded back-off delays. */
module Retry {
  import opened Domain
  import opened Store
  import opened Worker
  import opened Backoff

  // ---------------------------------------------------------------- one run without a crash

  /** No fault in the run's own bookkeeping: reading and marking the event row, and the write in the
      catch block. Everything inside the try block may fail. */
  predicate Booked(cfg: Config, t: Tables, k: Run, script: seq<Outcome>)
    requires InRange(t, k)
    decreases |script|
  {
    script == []
    || ((k.at.Loading? || k.at.Marking? || k.at.Failing? ==> !script[0].Fault?)
        && (var turn := Advance(cfg, t, k, script[0]);
            turn.next.Go? ==> Booked(cfg, turn.tables, turn.next.run, script[1..])))
  }

  function Left(at: Point): nat {
    match at
    case Loading => 10
    case Marking => 9
    case Looking => 8
    case Moving(_, _) => 7
    case Syncing(_, _) => 6
    case Seeking(_) => 5
    case Crediting(_) => 4
    case Rereading(_) => 3
    case Finishing => 2
    case Failing => 1
  }

  /** The run counts its attempt: the write of PROCESSING is reached and succeeds. */
  predicate Marks(cfg: Config, t: Tables, k: Run, script: seq<Outcome>)
    requires InRange(t, k)
    decreases |script|
  {
    script != []
    && ((k.at.Marking? && !script[0].Fault?)
        || (var turn := Advance(cfg, t, k, script[0]);
            turn.next.Go? && Marks(cfg, turn.tables, turn.next.run, script[1..])))
  }

  /** The run records its failure: the write in the catch block is reached and succeeds. */
  predicate Records(cfg: Config, t: Tables, k: Run, script: seq<Outcome>)
    requires InRange(t, k)
    decreases |script|
  {
    script != []
    && ((k.at.Failing? && !script[0].Fault?)
        || (var turn := Advance(cfg, t, k, script[0]);
            turn.next.Go? && Records(cfg, turn.tables, turn.next.run, script[1..])))
  }

  /** One operation, as far as the event row is concerned. */
  lemma AdvanceBooks(cfg: Config, t: Tables, k: Run, o: Outcome)
    requires InRange(t, k) && k.row < |t.events| && t.events[k.row].status != Processed
    ensures
      var turn := Advance(cfg, t, k, o);
      var before, after := t.events[k.row], turn.tables.events[k.row];
      && after == (if o.Fault? then before
                   else if k.at.Marking? then before.(status := Processing, attempts := before.attempts + 1)
                   else if k.at.Failing? then before.(status := FailureStatus(cfg, k.attemptsMade),
                                                      nextRetry := NextRetry(cfg, k.attemptsMade))
                   else if k.at.Finishing? then before.(status := Processed)
                   else before)
      && (turn.next.Go? ==>
            && Left(turn.next.run.at) < Left(k.at) && !turn.next.run.at.Loading?
            && (turn.next.run.at.Marking? <==> k.at.Loading?) && !(k.at.Finishing? && !o.Fault?))
      && (turn.next.Stop? ==>
            turn.next.result == if k.at.Finishing? && !o.Fault? then Completed else Rethrown)
  {
  }

  /** Ten outcomes are enough for any run to end, with the event PROCESSED exactly when it completed; one
      attempt more exactly when it was marked; and after a throw the status and the delay of the failure
      if it was recorded, PROCESSING if the run was only marked, and what there was if neither. */
  lemma {:induction false} RunExactly(cfg: Config, t: Tables, k: Run, script: seq<Outcome>)
    requires InRange(t, k) && k.row < |t.events| && t.events[k.row].status != Processed
    requires |script| >= Left(k.at)
    ensures
      var end := RunJob(cfg, t, k, script);
      var before, after := t.events[k.row], end.tables.events[k.row];
      && (end.result == Some(Completed) || end.result == Some(Rethrown))
      && (end.result == Some(Completed) <==> after.status == Processed)
      && (Marks(cfg, t, k, script) ==> k.at.Loading? || k.at.Marking?)
      && after.attempts == before.attempts + (if Marks(cfg, t, k, script) then 1 else 0)
      && (end.result == Some(Rethrown) ==>
            && after.status == (if Records(cfg, t, k, script) then FailureStatus(cfg, k.attemptsMade)
                                else if Marks(cfg, t, k, script) then Processing else before.status)
            && after.nextRetry == (if Records(cfg, t, k, script) then NextRetry(cfg, k.attemptsMade)
                                   else before.nextRetry))
    decreases |script|
  {
    AdvanceBooks(cfg, t, k, script[0]);
    var turn := Advance(cfg, t, k, script[0]);
    if turn.next.Go? {
      RunExactly(cfg, turn.tables, turn.next.run, script[1..]);
    }
  }

  lemma {:induction false} BookedWrites(cfg: Config, t: Tables, k: Run, script: seq<Outcome>)
    requires InRange(t, k) && k.row < |t.events| && t.events[k.row].status != Processed
    requires |script| >= Left(k.at) && Booked(cfg, t, k, script)
    ensures k.at.Loading? || k.at.Marking? ==> Marks(cfg, t, k, script)
    ensures RunJob(cfg, t, k, script).result == Some(Rethrown) ==> Records(cfg, t, k, script)
    decreases |script|
  {
    AdvanceBooks(cfg, t, k, script[0]);
    var turn := Advance(cfg, t, k, script[0]);
    if turn.next.Go? {
      BookedWrites(cfg, turn.tables, turn.next.run, script[1..]);
    }
  }

  /** With the bookkeeping intact: exactly one more attempt counted and a thrown run recorded. */
  lemma RunSummary(cfg: Config, t: Tables, k: Run, script: seq<Outcome>)
    requires InRange(t, k) && k.row < |t.events| && t.events[k.row].status != Processed
    requires |script| >= Left(k.at)
    ensures
      var end := RunJob(cfg, t, k, script);
      var before, after := t.events[k.row], end.tables.events[k.row];
      && (end.result == Some(Completed) || end.result == Some(Rethrown))
      && (end.result == Some(Completed) <==> after.status == Processed)
      && (Booked(cfg, t, k, script) ==>
            && after.attempts == before.attempts + (if k.at.Loading? || k.at.Marking? then 1 else 0)
            && (end.result == Some(Rethrown) ==>
                  && after.status == FailureStatus(cfg, k.attemptsMade)
                  && after.nextRetry == NextRetry(cfg, k.attemptsMade)))
  {
    RunExactly(cfg, t, k, script);
    if Booked(cfg, t, k, script) { BookedWrites(cfg, t, k, script); }
  }

  /** A PROCESSED event is left alone by every run. */
  lemma ProcessedStays(cfg: Config, t: Tables, row: nat, attemptsMade: nat, script: seq<Outcome>)
    requires |t.orders| == |t.payments| && row < |t.events| && t.events[row].status == Processed
    ensures RunJob(cfg, t, Start(row, attemptsMade), script).tables == t
  {
  }

  // ---------------------------------------------------------------- the queue's retries

  /** How the queue's series of attempts ended: after `executed` runs, all of them thrown or the last
      one not. */
  datatype Series = Series(tables: Tables, executed: nat, allThrew: bool)

  /** The queue runs the job again after a throw, up to the attempt limit; `scripts[n]` is attempt n. */
  function QueueRun(cfg: Config, t: Tables, row: nat, scripts: seq<seq<Outcome>>, n: nat): (s: Series)
    requires |t.orders| == |t.payments|
    ensures |s.tables.events| == |t.events|
    decreases |scripts| - n
  {
    if n >= cfg.maxAttempts || n >= |scripts| then Series(t, n, true)
    else
      var end := RunJob(cfg, t, Start(row, n), scripts[n]);
      if end.result == Some(Rethrown) then QueueRun(cfg, end.tables, row, scripts, n + 1)
      else Series(end.tables, n + 1, false)
  }

  predicate AllBooked(cfg: Config, t: Tables, row: nat, scripts: seq<seq<Outcome>>, n: nat)
    requires |t.orders| == |t.payments|
    decreases |scripts| - n
  {
    if n >= cfg.maxAttempts || n >= |scripts| then true
    else
      && Booked(cfg, t, Start(row, n), scripts[n])
      && (var end := RunJob(cfg, t, Start(row, n), scripts[n]);
          end.result == Some(Rethrown) ==> AllBooked(cfg, end.tables, row, scripts, n + 1))
  }

  lemma {:induction false} SeriesEnds(cfg: Config, t: Tables, row: nat, scripts: seq<seq<Outcome>>, n: nat)
    requires |t.orders| == |t.payments| && row < |t.events| && t.events[row].status != Processed
    requires |scripts| == cfg.maxAttempts && n <= cfg.maxAttempts
    requires forall i :: 0 <= i < |scripts| ==> |scripts[i]| >= 10
    ensures
      var s := QueueRun(cfg, t, row, scripts, n);
      && n <= s.executed <= cfg.maxAttempts
      && (s.tables.events[row].status == Processed <==> !s.allThrew)
      && (s.allThrew ==> s.executed == cfg.maxAttempts)
      && (AllBooked(cfg, t, row, scripts, n) ==>
            && s.tables.events[row].attempts == t.events[row].attempts + (s.executed - n)
            && (s.allThrew && n < cfg.maxAttempts ==> s.tables.events[row].status == DeadLetter))
    decreases |scripts| - n
  {
    if n < cfg.maxAttempts {
      RunSummary(cfg, t, Start(row, n), scripts[n]);
      var end := RunJob(cfg, t, Start(row, n), scripts[n]);
      if end.result == Some(Rethrown) {
        SeriesEnds(cfg, end.tables, row, scripts, n + 1);
      }
    }
  }

  /** The attempts of the series whose marking succeeded. */
  function MarkedRuns(cfg: Config, t: Tables, row: nat, scripts: seq<seq<Outcome>>, n: nat): nat
    requires |t.orders| == |t.payments|
    decreases |scripts| - n
  {
    if n >= cfg.maxAttempts || n >= |scripts| then 0
    else
      var end := RunJob(cfg, t, Start(row, n), scripts[n]);
      (if Marks(cfg, t, Start(row, n), scripts[n]) then 1 else 0)
      + (if end.result == Some(Rethrown) then MarkedRuns(cfg, end.tables, row, scripts, n + 1) else 0)
  }

  /** The last attempt the queue allows is made, and records its failure. */
  predicate LastRecords(cfg: Config, t: Tables, row: nat, scripts: seq<seq<Outcome>>, n: nat)
    requires |t.orders| == |t.payments|
    decreases |scripts| - n
  {
    n < cfg.maxAttempts && n < |scripts|
    && (if n + 1 == cfg.maxAttempts then Records(cfg, t, Start(row, n), scripts[n])
        else
          var end := RunJob(cfg, t, Start(row, n), scripts[n]);
          end.result == Some(Rethrown) && LastRecords(cfg, end.tables, row, scripts, n + 1))
  }

  lemma {:induction false} SeriesExactly(cfg: Config, t: Tables, row: nat, scripts: seq<seq<Outcome>>, n: nat)
    requires |t.orders| == |t.payments| && row < |t.events|
    requires t.events[row].status != Processed && t.events[row].status != DeadLetter
    requires |scripts| == cfg.maxAttempts && n < cfg.maxAttempts
    requires forall i :: 0 <= i < |scripts| ==> |scripts[i]| >= 10
    ensures
      var s := QueueRun(cfg, t, row, scripts, n);
      && s.tables.events[row].attempts == t.events[row].attempts + MarkedRuns(cfg, t, row, scripts, n)
      && (s.allThrew ==> (s.tables.events[row].status == DeadLetter <==> LastRecords(cfg, t, row, scripts, n)))
    decreases |scripts| - n
  {
    RunExactly(cfg, t, Start(row, n), scripts[n]);
    var end := RunJob(cfg, t, Start(row, n), scripts[n]);
    if end.result == Some(Rethrown) {
      if n + 1 < cfg.maxAttempts {
        SeriesExactly(cfg, end.tables, row, scripts, n + 1);
      } else {
        assert QueueRun(cfg, end.tables, row, scripts, n + 1) == Series(end.tables, n + 1, true);
      }
    }
  }

  /** A queued event is executed at most `maxAttempts` times. Whatever fails, it ends PROCESSED exactly
      when some attempt did not throw, DEAD_LETTER exactly when every attempt threw and the last one
      recorded its failure, and the stored attempts are those whose marking succeeded. With the
      bookkeeping intact those are all of them, and DEAD_LETTER means that every attempt threw. */
  lemma RetryRun(cfg: Config, t: Tables, row: nat, scripts: seq<seq<Outcome>>)
    requires |t.orders| == |t.payments| && row < |t.events|
    requires t.events[row].status == Received && t.events[row].attempts == 0
    requires cfg.maxAttempts > 0 && |scripts| == cfg.maxAttempts
    requires forall i :: 0 <= i < |scripts| ==> |scripts[i]| >= 10
    ensures
      var s := QueueRun(cfg, t, row, scripts, 0);
      var e := s.tables.events[row];
      && 1 <= s.executed <= cfg.maxAttempts
      && (e.status == Processed <==> !s.allThrew)
      && (e.status == DeadLetter <==> s.allThrew && LastRecords(cfg, t, row, scripts, 0))
      && e.attempts == MarkedRuns(cfg, t, row, scripts, 0)
      && (AllBooked(cfg, t, row, scripts, 0) ==>
            e.attempts == s.executed && (e.status == DeadLetter <==> s.allThrew))
  {
    SeriesEnds(cfg, t, row, scripts, 0);
    SeriesExactly(cfg, t, row, scripts, 0);
    RunSummary(cfg, t, Start(row, 0), scripts[0]);
    var end := RunJob(cfg, t, Start(row, 0), scripts[0]);
    if end.result == Some(Rethrown) {
      SeriesEnds(cfg, end.tables, row, scripts, 1);
    }
  }

  // ---------------------------------------------------------------- the recorded delays

  /** The times to the next attempt found on the event row after each thrown attempt of the series. */
  function Delays(cfg: Config, t: Tables, row: nat, scripts: seq<seq<Outcome>>, n: nat): (delays: seq<Option<nat>>)
    requires |t.orders| == |t.payments| && row < |t.events|
    decreases |scripts| - n
  {
    if n >= cfg.maxAttempts || n >= |scripts| then []
    else
      var end := RunJob(cfg, t, Start(row, n), scripts[n]);
      if end.result == Some(Rethrown)
      then [end.tables.events[row].nextRetry] + Delays(cfg, end.tables, row, scripts, n + 1)
      else []
  }

  function TotalOf(delays: seq<Option<nat>>): nat {
    if delays == [] then 0
    else TotalOf(delays[..|delays| - 1]) + (match delays[|delays| - 1] case None => 0 case Some(d) => d)
  }

  /** Row for row, what is recorded is the formula's. */
  lemma {:induction false} DelaysAre(cfg: Config, t: Tables, row: nat, scripts: seq<seq<Outcome>>, n: nat)
    requires |t.orders| == |t.payments| && row < |t.events| && t.events[row].status != Processed
    requires |scripts| == cfg.maxAttempts && n <= cfg.maxAttempts
    requires forall i :: 0 <= i < |scripts| ==> |scripts[i]| >= 10
    requires AllBooked(cfg, t, row, scripts, n)
    ensures
      var delays, s := Delays(cfg, t, row, scripts, n), QueueRun(cfg, t, row, scripts, n);
      && |delays| == s.executed - n - (if s.allThrew then 0 else 1)
      && forall i :: 0 <= i < |delays| ==> delays[i] == NextRetry(cfg, n + i)
    decreases |scripts| - n
  {
    if n < cfg.maxAttempts {
      RunSummary(cfg, t, Start(row, n), scripts[n]);
      var end := RunJob(cfg, t, Start(row, n), scripts[n]);
      if end.result == Some(Rethrown) {
        DelaysAre(cfg, end.tables, row, scripts, n + 1);
      }
    }
  }

  lemma {:induction false} TotalIsGeometric(cfg: Config, delays: seq<Option<nat>>)
    requires |delays| <= cfg.maxAttempts && forall i :: 0 <= i < |delays| ==> delays[i] == NextRetry(cfg, i)
    ensures
      var waits := if |delays| == cfg.maxAttempts > 0 then |delays| - 1 else |delays|;
      TotalOf(delays) <= Geometric(cfg.backoffMs, waits) && TotalOf(delays) <= waits * CAP
    decreases |delays|
  {
    if delays != [] {
      TotalIsGeometric(cfg, delays[..|delays| - 1]);
    }
  }

  lemma {:induction false} GeometricMonotone(base: nat, m: nat, n: nat)
    requires m <= n
    ensures Geometric(base, m) <= Geometric(base, n)
    decreases n
  {
    if m < n { GeometricMonotone(base, m, n - 1); }
  }

  /** Each recorded time is double the one before, up to the cap. */
  predicate Doubles(delays: seq<Option<nat>>) {
    forall i :: 0 < i < |delays| && delays[i].Some? ==>
      && delays[i - 1].Some?
      && delays[i].value == if 2 * delays[i - 1].value < CAP then 2 * delays[i - 1].value else CAP
  }

  lemma FormulaDoubles(cfg: Config, delays: seq<Option<nat>>)
    requires forall i :: 0 <= i < |delays| ==> delays[i] == NextRetry(cfg, i)
    ensures Doubles(delays)
  {
    forall i | 0 < i < |delays| && delays[i].Some?
      ensures delays[i - 1].Some?
              && delays[i].value == if 2 * delays[i - 1].value < CAP then 2 * delays[i - 1].value else CAP
    {
      assert delays[i - 1] == NextRetry(cfg, i - 1) && delays[i] == NextRetry(cfg, i);
      DelayDoubles(cfg.backoffMs, i);
    }
  }

  lemma FormulaTotal(cfg: Config, delays: seq<Option<nat>>)
    requires cfg.maxAttempts > 0 && |delays| <= cfg.maxAttempts
    requires forall i :: 0 <= i < |delays| ==> delays[i] == NextRetry(cfg, i)
    ensures TotalOf(delays) <= cfg.backoffMs * (Pow2(cfg.maxAttempts - 1) - 1)
    ensures TotalOf(delays) <= (cfg.maxAttempts - 1) * CAP
  {
    var max := cfg.maxAttempts;
    TotalIsGeometric(cfg, delays);
    var waits := if |delays| == max then max - 1 else |delays|;
    GeometricMonotone(cfg.backoffMs, waits, max - 1);
    GeometricSum(cfg.backoffMs, max - 1);
    assert waits * CAP <= (max - 1) * CAP;
  }

  /** Over a whole series of attempts with the bookkeeping intact: the row records one time after each
      thrown attempt, each double the one before up to the cap, and none after the last attempt of a
      series that ends DEAD_LETTER; together they are within the uncapped geometric sum and within the
      capped one. */
  lemma RecordedDelays(cfg: Config, t: Tables, row: nat, scripts: seq<seq<Outcome>>)
    requires |t.orders| == |t.payments| && row < |t.events| && t.events[row].status != Processed
    requires cfg.maxAttempts > 0 && |scripts| == cfg.maxAttempts
    requires forall i :: 0 <= i < |scripts| ==> |scripts[i]| >= 10
    requires AllBooked(cfg, t, row, scripts, 0)
    ensures
      var delays, s := Delays(cfg, t, row, scripts, 0), QueueRun(cfg, t, row, scripts, 0);
      && |delays| == (if s.allThrew then s.executed else s.executed - 1)
      && (forall i :: 0 <= i < |delays| ==> (delays[i].None? <==> s.allThrew && i == |delays| - 1))
      && Doubles(delays)
      && TotalOf(delays) <= cfg.backoffMs * (Pow2(cfg.maxAttempts - 1) - 1)
      && TotalOf(delays) <= (cfg.maxAttempts - 1) * CAP
  {
    var delays := Delays(cfg, t, row, scripts, 0);
    DelaysAre(cfg, t, row, scripts, 0);
    SeriesEnds(cfg, t, row, scripts, 0);
    FormulaDoubles(cfg, delays);
    FormulaTotal(cfg, delays);
  }

  // ---------------------------------------------------------------- with manual replays

  /** A run by the queue, or by hand: a manual replay passes the attempts stored on the event. */
  datatype Launch = Queued(attemptsMade: nat, script: seq<Outcome>) | Manual(script: seq<Outcome>)

  function AttemptsOf(t: Tables, row: nat, l: Launch): nat
    requires row < |t.events|
  {
    match l case Queued(n, _) => n case Manual(_) => t.events[row].attempts
  }

  function Launched(cfg: Config, t: Tables, row: nat, l: Launch): (t': Tables)
    requires |t.orders| == |t.payments| && row < |t.events|
    ensures |t'.orders| == |t'.payments| && |t'.events| == |t.events|
  {
    RunJob(cfg, t, Start(row, AttemptsOf(t, row, l)), l.script).tables
  }

  function LaunchAll(cfg: Config, t: Tables, row: nat, launches: seq<Launch>): (t': Tables)
    requires |t.orders| == |t.payments| && row < |t.events|
    ensures |t'.orders| == |t'.payments| && |t'.events| == |t.events|
    decreases |launches|
  {
    if launches == [] then t else LaunchAll(cfg, Launched(cfg, t, row, launches[0]), row, launches[1..])
  }

  /** Every run's script is long enough to end it, and its bookkeeping succeeds. */
  predicate AllEnd(cfg: Config, t: Tables, row: nat, launches: seq<Launch>)
    requires |t.orders| == |t.payments| && row < |t.events|
    decreases |launches|
  {
    launches == []
    || (var l := launches[0];
        && |l.script| >= 10
        && Booked(cfg, t, Start(row, AttemptsOf(t, row, l)), l.script)
        && AllEnd(cfg, Launched(cfg, t, row, l), row, launches[1..]))
  }

  /** The n-th launch is the one that completes the event. */
  predicate CompletesAt(cfg: Config, t: Tables, row: nat, launches: seq<Launch>, n: nat)
    requires |t.orders| == |t.payments| && row < |t.events| && n < |launches|
  {
    var before := LaunchAll(cfg, t, row, launches[..n]);
    RunJob(cfg, before, Start(row, AttemptsOf(before, row, launches[n])), launches[n].script).result == Some(Completed)
  }

  lemma OneLater(cfg: Config, t: Tables, row: nat, launches: seq<Launch>, i: nat)
    requires |t.orders| == |t.payments| && row < |t.events| && i + 1 < |launches|
    ensures CompletesAt(cfg, Launched(cfg, t, row, launches[0]), row, launches[1..], i)
            <==> CompletesAt(cfg, t, row, launches, i + 1)
  {
    assert launches[..i + 1][0] == launches[0] && launches[..i + 1][1..] == launches[1..][..i];
  }

  /** The number of runs that count: up to and including the first that completes the event. */
  function Counted(cfg: Config, t: Tables, row: nat, launches: seq<Launch>): (n: nat)
    requires |t.orders| == |t.payments| && row < |t.events|
    ensures n <= |launches|
    decreases |launches|
  {
    if launches == [] then 0
    else if CompletesAt(cfg, t, row, launches, 0) then 1
    else 1 + Counted(cfg, Launched(cfg, t, row, launches[0]), row, launches[1..])
  }

  /** That number, said of the launches: nobody before it completes, and it is followed by one that does,
      or is all of them. */
  lemma {:induction false} CountedExactly(cfg: Config, t: Tables, row: nat, launches: seq<Launch>)
    requires |t.orders| == |t.payments| && row < |t.events|
    ensures
      var n := Counted(cfg, t, row, launches);
      && (forall i :: 0 <= i < n - 1 ==> !CompletesAt(cfg, t, row, launches, i))
      && (n < |launches| ==> n > 0 && CompletesAt(cfg, t, row, launches, n - 1))
    decreases |launches|
  {
    if launches != [] && !CompletesAt(cfg, t, row, launches, 0) {
      var t1, rest := Launched(cfg, t, row, launches[0]), launches[1..];
      CountedExactly(cfg, t1, row, rest);
      forall i | 0 <= i < Counted(cfg, t, row, launches) - 1 ensures !CompletesAt(cfg, t, row, launches, i) {
        if i > 0 { OneLater(cfg, t, row, launches, i - 1); }
      }
      if Counted(cfg, t, row, launches) < |launches| {
        OneLater(cfg, t, row, launches, Counted(cfg, t1, row, rest) - 1);
      }
    }
  }

  /** Queue runs and manual replays, one at a time in any order: the stored attempts are those before and
      one for each run up to and including the first that completes, whoever launched it; the event is
      PROCESSED exactly when one did; an event with as many attempts stored as the limit, such as a dead
      letter, is never put back to RETRYING by a replay; and PROCESSED is never left. */
  lemma {:induction false} ReplaysCounted(cfg: Config, t: Tables, row: nat, launches: seq<Launch>)
    requires |t.orders| == |t.payments| && row < |t.events|
    requires AllEnd(cfg, t, row, launches)
    ensures
      var before, after := t.events[row], LaunchAll(cfg, t, row, launches).events[row];
      && (before.status != Processed ==> after.attempts == before.attempts + Counted(cfg, t, row, launches))
      && (before.status != Processed ==>
            (after.status == Processed <==> exists n :: 0 <= n < |launches| && CompletesAt(cfg, t, row, launches, n)))
      && (before.status == Processed ==> LaunchAll(cfg, t, row, launches) == t)
      && (before.status == DeadLetter && before.attempts >= cfg.maxAttempts
          && (forall i :: 0 <= i < |launches| ==> launches[i].Manual?)
          ==> after.status == DeadLetter || after.status == Processed)
    decreases |launches|
  {
    if launches != [] {
      var l, rest := launches[0], launches[1..];
      var t1 := Launched(cfg, t, row, l);
      assert launches[..0] == [];
      if t.events[row].status == Processed {
        ProcessedStays(cfg, t, row, AttemptsOf(t, row, l), l.script);
      } else {
        RunSummary(cfg, t, Start(row, AttemptsOf(t, row, l)), l.script);
      }
      ReplaysCounted(cfg, t1, row, rest);
      SomeCompletes(cfg, t, row, launches);
    }
  }

  lemma SomeCompletes(cfg: Config, t: Tables, row: nat, launches: seq<Launch>)
    requires |t.orders| == |t.payments| && row < |t.events| && launches != []
    ensures
      var t1, rest := Launched(cfg, t, row, launches[0]), launches[1..];
      (exists n :: 0 <= n < |launches| && CompletesAt(cfg, t, row, launches, n))
      <==> CompletesAt(cfg, t, row, launches, 0) || exists n :: 0 <= n < |rest| && CompletesAt(cfg, t1, row, rest, n)
  {
    var t1, rest := Launched(cfg, t, row, launches[0]), launches[1..];
    forall i | 0 <= i < |rest|
      ensures CompletesAt(cfg, t1, row, rest, i) <==> CompletesAt(cfg, t, row, launches, i + 1)
    {
      OneLater(cfg, t, row, launches, i);
    }
    if n :| 0 <= n < |launches| && CompletesAt(cfg, t, row, launches, n) {
      if n > 0 { assert CompletesAt(cfg, t1, row, rest, n - 1); }
    }
  }
}
