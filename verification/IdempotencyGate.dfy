/** The reservation protocol over one `(userId, key)` row (src/middlewares/idempotency.middleware.js,
    src/repositories/idempotency.repository.js): any number of requests, each repository call one
    operation on the row, handlers that answer, fail or die, and a clock. */
module IdempotencyGate {
  import opened Domain

  /** Twenty-four hours in milliseconds. */
  const TTL: nat := 86_400_000

  datatype KeyStatus = InProgress | Completed | FailedOnce

  datatype Response = Response(status: nat, body: string)

  datatype Row = Row(hash: string, status: KeyStatus, response: Option<Response>, expiresAt: nat)

  datatype Verdict = Rejected(code: nat) | Replayed(response: Response) | Errored | Answered | Died

  datatype Point =
    | Inserting(expiresAt: nat)      // insert the row
    | Colliding                      // the insert clashed: read the row and decide
    | Resetting                      // write PROCESSING and the new fingerprint
    | Handling                       // let through: the handler runs
    | Storing(response: Response)    // answered: the row is still to be written
    | Over(verdict: Verdict)

  datatype Request = Request(hash: string, at: Point)

  datatype Answer = Answer(request: nat, response: Response)

  /** `passes` lists the requests let through, `answers` what their handlers answered. */
  datatype State = State(now: nat, row: Option<Row>, requests: seq<Request>, passes: seq<nat>, answers: seq<Answer>)

  /** Which of the repository calls of one pass through the gate fail. */
  datatype Faults = Faults(insert: bool, find: bool, reset: bool)

  datatype Action =
    | Arrive(hash: string)
    | Gate(request: nat, fault: bool)
    | Pass(request: nat, faults: Faults)
    | Reply(request: nat, response: Response)
    | Store(request: nat, fault: bool)
    | Crash(request: nat)
    | Tick(passed: nat)

  predicate Good(r: Response) {
    200 <= r.status < 300
  }

  /** What a request with fingerprint `hash` does about a row that is already there. */
  function Decide(row: Row, hash: string, now: nat): Point {
    if now > row.expiresAt then Resetting
    else
      match row.status
      case Completed =>
        if row.hash != hash then Over(Rejected(409))
        else if row.response.Some? then Over(Replayed(Response(
          if row.response.value.status == 0 then 200 else row.response.value.status, row.response.value.body)))
        else Over(Replayed(Response(200, "null")))
      case InProgress => Over(Rejected(409))
      case FailedOnce => Resetting
  }

  function Reset(row: Row, hash: string): Row {
    row.(status := InProgress, hash := hash, response := None)
  }

  /** One repository call of a request that is in the gate. */
  function GateStep(now: nat, row: Option<Row>, q: Request, fault: bool): (Option<Row>, Request) {
    match q.at
    case Inserting(expiresAt) =>
      if fault then (row, q.(at := Over(Errored)))
      else if row.None? then (Some(Row(q.hash, InProgress, None, expiresAt)), q.(at := Handling))
      else (row, q.(at := Colliding))
    case Colliding =>
      if fault then (row, q.(at := Over(Errored)))
      else if row.None? then (row, q.(at := Handling))
      else (row, q.(at := Decide(row.value, q.hash, now)))
    case Resetting =>
      if fault || row.None? then (row, q.(at := Over(Errored)))
      else (Some(Reset(row.value, q.hash)), q.(at := Handling))
    case _ => (row, q)
  }

  /** The whole gate, nobody else in between. */
  function PassGate(now: nat, row: Option<Row>, q: Request, faults: Faults): (Option<Row>, Request) {
    var (row1, q1) := GateStep(now, row, q, faults.insert);
    if !q1.at.Colliding? then (row1, q1)
    else
      var (row2, q2) := GateStep(now, row1, q1, faults.find);
      if !q2.at.Resetting? then (row2, q2) else GateStep(now, row2, q2, faults.reset)
  }

  /** The write that follows an answer: COMPLETED with the response, or FAILED. */
  function Recorded(row: Option<Row>, r: Response): Option<Row> {
    if row.None? then None
    else if Good(r) then Some(row.value.(status := Completed, response := Some(r)))
    else Some(row.value.(status := FailedOnce))
  }

  function Placed(s: State, i: nat, outcome: (Option<Row>, Request)): State
    requires i < |s.requests|
  {
    s.(row := outcome.0, requests := s.requests[i := outcome.1],
       passes := if outcome.1.at.Handling? then s.passes + [i] else s.passes)
  }

  predicate AtGate(q: Request) {
    q.at.Inserting? || q.at.Colliding? || q.at.Resetting?
  }

  function Apply(s: State, a: Action): State {
    match a
    case Arrive(hash) => s.(requests := s.requests + [Request(hash, Inserting(s.now + TTL))])
    case Gate(i, fault) =>
      if i < |s.requests| && AtGate(s.requests[i])
      then Placed(s, i, GateStep(s.now, s.row, s.requests[i], fault)) else s
    case Pass(i, faults) =>
      if i < |s.requests| && s.requests[i].at.Inserting?
      then Placed(s, i, PassGate(s.now, s.row, s.requests[i], faults)) else s
    case Reply(i, r) =>
      if i < |s.requests| && s.requests[i].at.Handling?
      then s.(requests := s.requests[i := s.requests[i].(at := Storing(r))],
              answers := s.answers + [Answer(i, r)]) else s
    case Store(i, fault) =>
      if i < |s.requests| && s.requests[i].at.Storing?
      then s.(requests := s.requests[i := s.requests[i].(at := Over(Answered))],
              row := if fault then s.row else Recorded(s.row, s.requests[i].at.response)) else s
    case Crash(i) =>
      if i < |s.requests| && !s.requests[i].at.Over?
      then s.(requests := s.requests[i := s.requests[i].(at := Over(Died))]) else s
    case Tick(d) => s.(now := s.now + d)
  }

  function Run(s: State, actions: seq<Action>): State
    decreases |actions|
  {
    if actions == [] then s else Run(Apply(s, actions[0]), actions[1..])
  }

  function Initial(now: nat): State {
    State(now, None, [], [], [])
  }

  predicate Unexpired(s: State) {
    s.row.Some? ==> s.now <= s.row.value.expiresAt
  }

  /** No handler has answered with a failure, and the key has not expired. */
  predicate Calm(s: State) {
    Unexpired(s) && forall k :: 0 <= k < |s.answers| ==> Good(s.answers[k].response)
  }

  /** A replayed response was answered, by a request with the same fingerprint. */
  predicate Echo(s: State, i: nat)
    requires i < |s.requests| && s.requests[i].at.Over? && s.requests[i].at.verdict.Replayed?
  {
    exists k :: 0 <= k < |s.answers| && s.answers[k].response == s.requests[i].at.verdict.response
                && Good(s.answers[k].response)
                && s.answers[k].request < |s.requests| && s.requests[s.answers[k].request].hash == s.requests[i].hash
  }

  ghost predicate AllEcho(s: State) {
    forall i :: 0 <= i < |s.requests| && s.requests[i].at.Over? && s.requests[i].at.verdict.Replayed? ==> Echo(s, i)
  }

  /** Requests that have left the gate keep their verdict, and answers stay. */
  lemma VerdictStays(s: State, a: Action, i: nat)
    requires i < |s.requests|
    ensures
      var s' := Apply(s, a);
      && |s'.requests| >= |s.requests| && s'.requests[i].hash == s.requests[i].hash
      && s.answers <= s'.answers
      && (s'.requests[i].at.Over? && s'.requests[i].at.verdict.Replayed? ==>
            s'.requests[i] == s.requests[i] || AtGate(s.requests[i]))
  {
  }

  lemma EchoStays(s: State, a: Action, i: nat)
    requires i < |s.requests| && s.requests[i].at.Over? && s.requests[i].at.verdict.Replayed? && Echo(s, i)
    requires i < |Apply(s, a).requests| && Apply(s, a).requests[i] == s.requests[i]
    ensures Echo(Apply(s, a), i)
  {
    var s' := Apply(s, a);
    var k :| 0 <= k < |s.answers| && s.answers[k].response == s.requests[i].at.verdict.response
             && Good(s.answers[k].response)
             && s.answers[k].request < |s.requests| && s.requests[s.answers[k].request].hash == s.requests[i].hash;
    VerdictStays(s, a, s.answers[k].request);
    assert s'.answers[k] == s.answers[k];
  }

  lemma EchoesStay(s: State, a: Action)
    requires AllEcho(s)
    requires forall i :: 0 <= i < |s.requests| && AtGate(s.requests[i]) && i < |Apply(s, a).requests| ==>
               var q := Apply(s, a).requests[i]; q.at.Over? && q.at.verdict.Replayed? ==> Echo(Apply(s, a), i)
    ensures AllEcho(Apply(s, a))
  {
    var s' := Apply(s, a);
    forall i | 0 <= i < |s'.requests| && s'.requests[i].at.Over? && s'.requests[i].at.verdict.Replayed?
      ensures Echo(s', i)
    {
      if i < |s.requests| {
        VerdictStays(s, a, i);
        if !AtGate(s.requests[i]) { EchoStays(s, a, i); }
      }
    }
  }

  // ---------------------------------------------------------------- every interleaving, until a failure or the expiry

  /** Before any failure and before the expiry: the one request that inserted the row is the only one
      ever let through. */
  ghost predicate Sole(s: State) {
    && (s.row.None? ==> s.passes == [] && s.answers == [])
    && (forall i :: 0 <= i < |s.requests| && s.row.None? ==> !s.requests[i].at.Colliding?)
    && (s.row.Some? ==>
          && |s.passes| == 1 && s.passes[0] < |s.requests|
          && s.row.value.hash == s.requests[s.passes[0]].hash && s.row.value.status != FailedOnce)
    && |s.answers| <= 1
    && (forall k :: 0 <= k < |s.answers| ==> s.answers[k].request == s.passes[0])
    && (forall i :: 0 <= i < |s.requests| ==>
          && !s.requests[i].at.Resetting?
          && (s.requests[i].at.Handling? ==> s.passes == [i] && s.answers == [])
          && (s.requests[i].at.Storing? ==> s.passes == [i] && s.answers == [Answer(i, s.requests[i].at.response)]))
    && (s.row.Some? && s.row.value.status == Completed ==>
          |s.answers| == 1 && s.row.value.response == Some(s.answers[0].response))
    && AllEcho(s)
  }

  lemma CalmBefore(s: State, a: Action)
    requires Calm(Apply(s, a))
    ensures Calm(s)
  {
    var s' := Apply(s, a);
    forall k | 0 <= k < |s.answers| ensures Good(s.answers[k].response) {
      assert s'.answers[k] == s.answers[k];
    }
  }

  lemma SoleInserting(s: State, i: nat, fault: bool)
    requires Sole(s) && Calm(s) && i < |s.requests| && s.requests[i].at.Inserting?
    ensures Sole(Apply(s, Gate(i, fault)))
  {
    EchoesStay(s, Gate(i, fault));
  }

  /** What is read is in progress, and turned away, or done, and echoed. */
  lemma SoleColliding(s: State, i: nat, fault: bool)
    requires Sole(s) && Calm(s) && i < |s.requests| && s.requests[i].at.Colliding?
    ensures Sole(Apply(s, Gate(i, fault)))
  {
    var u := Apply(s, Gate(i, fault));
    if u.requests[i].at.Over? && u.requests[i].at.verdict.Replayed? {
      assert s.answers[0].response == u.requests[i].at.verdict.response;
      assert Echo(u, i);
    }
    EchoesStay(s, Gate(i, fault));
  }

  lemma SoleGate(s: State, i: nat, fault: bool)
    requires Sole(s) && Calm(s) && Calm(Apply(s, Gate(i, fault)))
    ensures Sole(Apply(s, Gate(i, fault)))
  {
    if i < |s.requests| {
      if s.requests[i].at.Inserting? {
        SoleInserting(s, i, fault);
      } else if s.requests[i].at.Colliding? {
        SoleColliding(s, i, fault);
      }
    }
  }

  /** One undisturbed pass is up to three steps of the gate. */
  lemma PassIsGates(s: State, i: nat, faults: Faults)
    requires i < |s.requests| && s.requests[i].at.Inserting?
    ensures
      var s1 := Apply(s, Gate(i, faults.insert));
      var s2 := Apply(s1, Gate(i, faults.find));
      var s3 := Apply(s2, Gate(i, faults.reset));
      Apply(s, Pass(i, faults))
      == if !s1.requests[i].at.Colliding? then s1 else if !s2.requests[i].at.Resetting? then s2 else s3
  {
  }

  lemma SolePass(s: State, i: nat, faults: Faults)
    requires Sole(s) && Calm(s) && Calm(Apply(s, Pass(i, faults)))
    ensures Sole(Apply(s, Pass(i, faults)))
  {
    if i < |s.requests| && s.requests[i].at.Inserting? {
      PassIsGates(s, i, faults);
      var s1 := Apply(s, Gate(i, faults.insert));
      SoleGate(s, i, faults.insert);
      if s1.requests[i].at.Colliding? {
        SoleGate(s1, i, faults.find);
        assert !Apply(s1, Gate(i, faults.find)).requests[i].at.Resetting?;
      }
    }
  }

  lemma SoleReply(s: State, i: nat, r: Response)
    requires Sole(s) && Calm(Apply(s, Reply(i, r)))
    ensures Sole(Apply(s, Reply(i, r)))
  {
    EchoesStay(s, Reply(i, r));
  }

  lemma SoleStore(s: State, i: nat, fault: bool)
    requires Sole(s) && Calm(s)
    ensures Sole(Apply(s, Store(i, fault)))
  {
    EchoesStay(s, Store(i, fault));
    if i < |s.requests| && s.requests[i].at.Storing? { assert Good(s.answers[0].response); }
  }

  lemma SoleOther(s: State, a: Action)
    requires Sole(s) && (a.Arrive? || a.Crash? || a.Tick?)
    ensures Sole(Apply(s, a))
  {
    EchoesStay(s, a);
  }

  lemma SoleStep(s: State, a: Action)
    requires (Calm(s) ==> Sole(s)) && Calm(Apply(s, a))
    ensures Sole(Apply(s, a))
  {
    CalmBefore(s, a);
    match a
    case Gate(i, fault) => SoleGate(s, i, fault);
    case Pass(i, faults) => SolePass(s, i, faults);
    case Reply(i, r) => SoleReply(s, i, r);
    case Store(i, fault) => SoleStore(s, i, fault);
    case _ => SoleOther(s, a);
  }

  lemma {:induction false} SoleRun(s: State, actions: seq<Action>)
    requires Calm(s) ==> Sole(s)
    ensures Calm(Run(s, actions)) ==> Sole(Run(s, actions))
    decreases |actions|
  {
    if actions != [] {
      var s1 := Apply(s, actions[0]);
      if Calm(s1) { SoleStep(s, actions[0]); }
      SoleRun(s1, actions[1..]);
    }
  }

  /** Fully interleaved, requests stepping at every repository call: until the first failed response or
      the expiry of the key, the handler is let through at most once, answers at most once, and every
      replay gives its answer to a request with the fingerprint of the executed one. */
  lemma OnePassUntilFailure(now: nat, actions: seq<Action>)
    requires Calm(Run(Initial(now), actions))
    ensures
      var s := Run(Initial(now), actions);
      && |s.passes| <= 1 && |s.answers| <= 1
      && (forall i :: 0 <= i < |s.requests| && s.requests[i].at.Over? && s.requests[i].at.verdict.Replayed? ==>
            && |s.passes| == |s.answers| == 1 && s.requests[i].at.verdict.response == s.answers[0].response
            && s.answers[0].request == s.passes[0] < |s.requests|
            && s.requests[s.passes[0]].hash == s.requests[i].hash)
  {
    SoleRun(Initial(now), actions);
    var s := Run(Initial(now), actions);
    forall i | 0 <= i < |s.requests| && s.requests[i].at.Over? && s.requests[i].at.verdict.Replayed?
      ensures |s.answers| == 1 && s.requests[i].at.verdict.response == s.answers[0].response
              && s.requests[s.passes[0]].hash == s.requests[i].hash
    {
      assert Echo(s, i);
    }
  }

  // ---------------------------------------------------------------- while resets land, until the expiry

  predicate Active(q: Request) {
    q.at.Handling? || q.at.Storing?
  }

  /** A reset that is carried out finds the row still FAILED. */
  predicate Lands(s: State, a: Action) {
    a.Gate? && a.request < |s.requests| && s.requests[a.request].at.Resetting? && !a.fault ==>
      s.row.Some? && s.row.value.status == FailedOnce
  }

  predicate ResetsLand(s: State, actions: seq<Action>)
    decreases |actions|
  {
    actions == [] || (Lands(s, actions[0]) && ResetsLand(Apply(s, actions[0]), actions[1..]))
  }

  /** Nobody is stopped inside the gate. */
  predicate Serial(actions: seq<Action>) {
    forall k :: 0 <= k < |actions| ==> !actions[k].Gate?
  }

  ghost predicate OneGood(s: State) {
    forall j, k :: 0 <= j < k < |s.answers| ==> !(Good(s.answers[j].response) && Good(s.answers[k].response))
  }

  ghost predicate NoGood(s: State) {
    forall k :: 0 <= k < |s.answers| ==> !Good(s.answers[k].response)
  }

  ghost predicate Gated(s: State) {
    && (forall i :: 0 <= i < |s.requests| && s.row.None? ==>
          !s.requests[i].at.Colliding? && !s.requests[i].at.Resetting?)
    && (forall i, j :: 0 <= i < j < |s.requests| ==> !(Active(s.requests[i]) && Active(s.requests[j])))
    && (forall i :: 0 <= i < |s.requests| && Active(s.requests[i]) ==>
          && s.row.Some? && s.row.value.status == InProgress && s.row.value.hash == s.requests[i].hash
          && (s.requests[i].at.Handling? ==> NoGood(s))
          && (s.requests[i].at.Storing? ==>
                var r := s.requests[i].at.response;
                if Good(r) then exists k :: 0 <= k < |s.answers| && s.answers[k] == Answer(i, r) else NoGood(s)))
    && (s.row.None? ==> s.answers == [])
    && (s.row.Some? && s.row.value.status == FailedOnce ==> NoGood(s))
    && (s.row.Some? && s.row.value.status == Completed ==>
          exists k :: 0 <= k < |s.answers| && s.row.value.response == Some(s.answers[k].response)
                      && Good(s.answers[k].response)
                      && s.answers[k].request < |s.requests|
                      && s.requests[s.answers[k].request].hash == s.row.value.hash)
    && OneGood(s)
    && AllEcho(s)
  }

  /** Before the expiry: a request is let through by a missing or a failed row only, and leaves its
      fingerprint in a row in progress; otherwise the row is as before, and a replay is of that row. */
  ghost predicate Admits(row: Option<Row>, q: Request, row': Option<Row>, q': Request) {
    && q'.hash == q.hash && !q'.at.Storing? && !q'.at.Inserting?
    && (q'.at.Handling? ==>
          && (row.None? || row.value.status == FailedOnce)
          && row'.Some? && row'.value.status == InProgress && row'.value.hash == q.hash)
    && (!q'.at.Handling? ==> row' == row)
    && (q'.at.Colliding? || q'.at.Resetting? ==> row.Some?)
    && (q'.at.Over? && q'.at.verdict.Replayed? ==>
          && row.Some? && row.value.status == Completed && row.value.hash == q.hash
          && (row.value.response.Some? && Good(row.value.response.value) ==>
                q'.at.verdict.response == row.value.response.value))
  }

  lemma PassAdmits(now: nat, row: Option<Row>, q: Request, faults: Faults)
    requires q.at.Inserting? && (row.Some? ==> now <= row.value.expiresAt)
    ensures var (row', q') := PassGate(now, row, q, faults); Admits(row, q, row', q')
  {
  }

  lemma GatedPlaced(s: State, i: nat, row': Option<Row>, q': Request)
    requires Gated(s) && i < |s.requests| && AtGate(s.requests[i])
    requires Admits(s.row, s.requests[i], row', q')
    ensures Gated(Placed(s, i, (row', q')))
  {
    var s' := Placed(s, i, (row', q'));
    forall j | 0 <= j < |s'.requests| && s'.requests[j].at.Over? && s'.requests[j].at.verdict.Replayed?
      ensures Echo(s', j)
    {
      if j == i {
        var k :| 0 <= k < |s.answers| && s.row.value.response == Some(s.answers[k].response)
                 && Good(s.answers[k].response)
                 && s.answers[k].request < |s.requests| && s.requests[s.answers[k].request].hash == s.row.value.hash;
        assert s'.answers[k].response == q'.at.verdict.response;
      } else {
        assert Echo(s, j);
        var k :| 0 <= k < |s.answers| && s.answers[k].response == s.requests[j].at.verdict.response
                 && Good(s.answers[k].response)
                 && s.answers[k].request < |s.requests| && s.requests[s.answers[k].request].hash == s.requests[j].hash;
        assert s'.answers[k] == s.answers[k];
      }
    }
  }

  lemma GateAdmits(now: nat, row: Option<Row>, q: Request, fault: bool)
    requires AtGate(q) && (row.Some? ==> now <= row.value.expiresAt) && (row.None? ==> q.at.Inserting?)
    requires q.at.Resetting? && !fault ==> row.value.status == FailedOnce
    ensures var (row', q') := GateStep(now, row, q, fault); Admits(row, q, row', q')
  {
  }

  lemma GatedGate(s: State, i: nat, fault: bool)
    requires Gated(s) && Unexpired(s) && Lands(s, Gate(i, fault))
    ensures Gated(Apply(s, Gate(i, fault)))
  {
    if i < |s.requests| && AtGate(s.requests[i]) {
      GateAdmits(s.now, s.row, s.requests[i], fault);
      var (row', q') := GateStep(s.now, s.row, s.requests[i], fault);
      GatedPlaced(s, i, row', q');
    }
  }

  lemma GatedPass(s: State, i: nat, faults: Faults)
    requires Gated(s) && Unexpired(s)
    ensures Gated(Apply(s, Pass(i, faults)))
  {
    if i < |s.requests| && s.requests[i].at.Inserting? {
      PassAdmits(s.now, s.row, s.requests[i], faults);
      var (row', q') := PassGate(s.now, s.row, s.requests[i], faults);
      GatedPlaced(s, i, row', q');
    }
  }

  lemma GatedReply(s: State, i: nat, r: Response)
    requires Gated(s)
    ensures Gated(Apply(s, Reply(i, r)))
  {
    var s' := Apply(s, Reply(i, r));
    EchoesStay(s, Reply(i, r));
    if i < |s.requests| && s.requests[i].at.Handling? {
      assert s'.answers[|s.answers|] == Answer(i, r);
    }
  }

  lemma GatedStore(s: State, i: nat, fault: bool)
    requires Gated(s)
    ensures Gated(Apply(s, Store(i, fault)))
  {
  }

  lemma GatedArrive(s: State, a: Action)
    requires Gated(s) && a.Arrive?
    ensures Gated(Apply(s, a))
  {
  }

  lemma GatedOther(s: State, a: Action)
    requires Gated(s) && (a.Crash? || a.Tick?)
    ensures Gated(Apply(s, a))
  {
    EchoesStay(s, a);
  }

  lemma GatedStep(s: State, a: Action)
    requires (Unexpired(s) ==> Gated(s)) && Unexpired(Apply(s, a)) && Lands(s, a)
    ensures Gated(Apply(s, a))
  {
    match a
    case Gate(i, fault) => GatedGate(s, i, fault);
    case Pass(i, faults) => GatedPass(s, i, faults);
    case Reply(i, r) => GatedReply(s, i, r);
    case Store(i, fault) => GatedStore(s, i, fault);
    case Arrive(_) => GatedArrive(s, a);
    case _ => GatedOther(s, a);
  }

  lemma {:induction false} GatedRun(s: State, actions: seq<Action>)
    requires (Unexpired(s) ==> Gated(s)) && ResetsLand(s, actions)
    ensures Unexpired(Run(s, actions)) ==> Gated(Run(s, actions))
    decreases |actions|
  {
    if actions != [] {
      var s1 := Apply(s, actions[0]);
      if Unexpired(s1) { GatedStep(s, actions[0]); }
      GatedRun(s1, actions[1..]);
    }
  }

  /** In every interleaving of repository calls, over any sequence of arrivals, answers, failures, lost
      writes and crashes, before the expiry: as long as every reset lands on a row that is still FAILED, at
      most one handler is in flight, at most one success is ever answered, and every replay gives that
      success to a request with the fingerprint of the executed one. */
  lemma OneSuccessWhileResetsLand(now: nat, actions: seq<Action>)
    requires ResetsLand(Initial(now), actions) && Unexpired(Run(Initial(now), actions))
    ensures
      var s := Run(Initial(now), actions);
      && (forall i, j :: 0 <= i < j < |s.requests| ==> !(Active(s.requests[i]) && Active(s.requests[j])))
      && OneGood(s)
      && (forall i :: 0 <= i < |s.requests| && s.requests[i].at.Over? && s.requests[i].at.verdict.Replayed? ==>
          Echo(s, i))
  {
    GatedRun(Initial(now), actions);
  }

  lemma {:induction false} SerialLands(s: State, actions: seq<Action>)
    requires Serial(actions)
    ensures ResetsLand(s, actions)
    decreases |actions|
  {
    if actions != [] { SerialLands(Apply(s, actions[0]), actions[1..]); }
  }

  /** With each pass through the gate taken as one step, before the expiry, over any sequence of
      arrivals, answers, failures, lost writes and crashes: at most one handler is in flight, at most one
      success is ever answered, and every replay gives that success to a request with the fingerprint of
      the executed one. */
  lemma OneSuccessWhenSerial(now: nat, actions: seq<Action>)
    requires Serial(actions) && Unexpired(Run(Initial(now), actions))
    ensures
      var s := Run(Initial(now), actions);
      && (forall i, j :: 0 <= i < j < |s.requests| ==> !(Active(s.requests[i]) && Active(s.requests[j])))
      && OneGood(s)
      && (forall i :: 0 <= i < |s.requests| && s.requests[i].at.Over? && s.requests[i].at.verdict.Replayed? ==>
          Echo(s, i))
  {
    SerialLands(Initial(now), actions);
    OneSuccessWhileResetsLand(now, actions);
  }

  /** A success is recorded and no request is on its way to a reset or past the gate. */
  ghost predicate Concluded(s: State) {
    && s.row.Some? && s.row.value.status == Completed && s.row.value.response.Some?
    && Good(s.row.value.response.value)
    && forall i :: 0 <= i < |s.requests| ==> !s.requests[i].at.Resetting? && !Active(s.requests[i])
  }

  /** Then the record is final until it expires, in every interleaving: nobody is let through any more,
      and a request whose pass meets no fault is given the recorded response if its fingerprint is the
      recorded one, and refused otherwise. */
  lemma {:induction false} RecordIsFinal(s: State, actions: seq<Action>, i: nat)
    requires Concluded(s) && Unexpired(Run(s, actions))
    ensures
      var u := Run(s, actions);
      && Concluded(u) && u.row == s.row && u.passes == s.passes
      && (i < |u.requests| && u.requests[i].at.Inserting? ==>
            Apply(u, Pass(i, Faults(false, false, false))).requests[i].at
            == Over(if u.requests[i].hash == s.row.value.hash then Replayed(s.row.value.response.value)
                    else Rejected(409)))
    decreases |actions|
  {
    if actions != [] {
      UnexpiredBefore(Apply(s, actions[0]), actions[1..]);
      FinalStep(s, actions[0]);
      RecordIsFinal(Apply(s, actions[0]), actions[1..], i);
    }
  }

  lemma {:induction false} UnexpiredBefore(s: State, actions: seq<Action>)
    requires Unexpired(Run(s, actions))
    ensures Unexpired(s)
    decreases |actions|
  {
    if actions != [] { UnexpiredBefore(Apply(s, actions[0]), actions[1..]); }
  }

  lemma FinalStep(s: State, a: Action)
    requires Concluded(s) && Unexpired(Apply(s, a))
    ensures Concluded(Apply(s, a)) && Apply(s, a).row == s.row && Apply(s, a).passes == s.passes
  {
  }

  // ---------------------------------------------------------------- where the gate fails

  lemma RunCons(s: State, a: Action, rest: seq<Action>)
    ensures Run(s, [a] + rest) == Run(Apply(s, a), rest)
  {
  }

  /** A retry of a key that is failed or in progress: what its read and its reset do. */
  lemma RetryStep(s: State, i: nat)
    requires i < |s.requests| && (s.requests[i].at.Colliding? || s.requests[i].at.Resetting?)
    requires s.row.Some? && s.row.value.status != Completed && Unexpired(s)
    ensures
      var u, failed := Apply(s, Gate(i, false)), s.row.value.status == FailedOnce;
      && Unexpired(u) && u.row.Some? && |u.requests| == |s.requests|
      && (forall k :: 0 <= k < |s.requests| && k != i ==> u.requests[k] == s.requests[k])
      && (s.requests[i].at.Colliding? ==>
            u.row == s.row && u.requests[i].at == if failed then Resetting else Over(Rejected(409)))
      && (s.requests[i].at.Resetting? ==> u.row.value.status == InProgress && u.requests[i].at == Handling)
  {
  }

  /** Nothing answers, and no answer is written. */
  predicate Unanswered(actions: seq<Action>) {
    forall k :: 0 <= k < |actions| ==> !actions[k].Reply? && !actions[k].Store?
  }

  /** The row is in progress under the fingerprint of the last request let through. */
  predicate LastKept(s: State) {
    && s.row.Some? && s.row.value.status == InProgress
    && |s.passes| > 0 && s.passes[|s.passes| - 1] < |s.requests|
    && s.row.value.hash == s.requests[s.passes[|s.passes| - 1]].hash
  }

  /** One action on a row in progress: only a reset that does not land lets anyone through. */
  lemma BusyStep(s: State, a: Action)
    requires LastKept(s) && Unexpired(s) && !a.Reply? && !a.Store?
    ensures
      var u := Apply(s, a);
      LastKept(u) && (if Lands(s, a) then u.passes == s.passes else |u.passes| == |s.passes| + 1)
  {
    var u := Apply(s, a);
    if a.Gate? && u.passes != s.passes { assert u.passes[|s.passes|] == a.request; }
    assert s.passes[|s.passes| - 1] < |u.requests|
           && u.requests[s.passes[|s.passes| - 1]].hash == s.requests[s.passes[|s.passes| - 1]].hash;
  }

  lemma {:induction false} PassesGrow(s: State, actions: seq<Action>)
    ensures |Run(s, actions).passes| >= |s.passes|
    decreases |actions|
  {
    if actions != [] { PassesGrow(Apply(s, actions[0]), actions[1..]); }
  }

  lemma {:induction false} BusyRun(s: State, actions: seq<Action>)
    requires LastKept(s) && Unanswered(actions) && Unexpired(Run(s, actions))
    ensures
      var u := Run(s, actions);
      LastKept(u) && (|u.passes| > |s.passes| <==> !ResetsLand(s, actions))
    decreases |actions|
  {
    if actions != [] {
      UnexpiredBefore(s, actions);
      BusyStep(s, actions[0]);
      var s1 := Apply(s, actions[0]);
      BusyRun(s1, actions[1..]);
      PassesGrow(s1, actions[1..]);
    }
  }

  /** One action on a failed row: it lands, and whoever it lets through has the row. */
  lemma FailedStep(s: State, a: Action)
    requires s.row.Some? && s.row.value.status == FailedOnce && Unexpired(s) && !a.Reply? && !a.Store?
    ensures
      var u := Apply(s, a);
      && Lands(s, a)
      && (if u.passes == s.passes then u.row == s.row else LastKept(u) && |u.passes| == |s.passes| + 1)
  {
    var u := Apply(s, a);
    if u.passes != s.passes { assert u.passes[|s.passes|] == a.request; }
  }

  /** Any number of retries of a failed key, in every interleaving of their repository calls with failures
      and deaths, before anyone answers and before the expiry: two or more of them are let through exactly
      when some reset lands on a row that is no longer FAILED, that is, when a request that has read the
      failed row resets it after another one has; and the fingerprint kept is that of the last one let
      through. */
  lemma {:induction false} RetriesExactly(s: State, actions: seq<Action>)
    requires s.row.Some? && s.row.value.status == FailedOnce
    requires Unanswered(actions) && Unexpired(Run(s, actions))
    ensures
      var u := Run(s, actions);
      && (|u.passes| >= |s.passes| + 2 <==> !ResetsLand(s, actions))
      && (|u.passes| > |s.passes| ==> LastKept(u))
    decreases |actions|
  {
    if actions != [] {
      UnexpiredBefore(s, actions);
      FailedStep(s, actions[0]);
      var s1 := Apply(s, actions[0]);
      if s1.passes == s.passes {
        RetriesExactly(s1, actions[1..]);
      } else {
        BusyRun(s1, actions[1..]);
      }
    }
  }

  /** Two retries of a failed key, each to read the row and then reset it, `i` reading first. The others
      of the six orders are these with the names exchanged. */
  datatype Order = Apart | Crossed | Nested

  function Race(i: nat, j: nat, order: Order): seq<Action> {
    var a, b := Gate(i, false), Gate(j, false);
    match order
    case Apart => [a] + ([a] + ([b] + [b]))
    case Crossed => [a] + ([b] + ([a] + [b]))
    case Nested => [a] + ([b] + ([b] + [a]))
  }

  lemma RunFour(s: State, a: Action, b: Action, c: Action, d: Action)
    ensures Run(s, [a] + ([b] + ([c] + [d]))) == Apply(Apply(Apply(Apply(s, a), b), c), d)
  {
    RunCons(s, a, [b] + ([c] + [d]));
    RunCons(Apply(s, a), b, [c] + [d]);
    RunCons(Apply(Apply(s, a), b), c, [d]);
    assert [d] == [d] + [];
    RunCons(Apply(Apply(Apply(s, a), b), c), d, []);
  }

  /** The read and the reset are two operations, and the reset checks nothing: of two retries of a
      failed key both are let through exactly when the second one reads the row before the first one
      resets it, and the fingerprint kept is that of the later reset. Otherwise the second one is turned
      away. */
  lemma RacedRetriesExactly(s: State, i: nat, j: nat, order: Order)
    requires i < |s.requests| && j < |s.requests| && i != j
    requires s.requests[i].at.Colliding? && s.requests[j].at.Colliding?
    requires s.row.Some? && s.row.value.status == FailedOnce && Unexpired(s)
    ensures
      var u := Run(s, Race(i, j, order));
      && |u.requests| == |s.requests| && u.row.Some? && u.requests[i].at == Handling
      && u.requests[j].at == (if order == Apart then Over(Rejected(409)) else Handling)
      && u.row.value.hash == s.requests[if order == Crossed then j else i].hash
  {
    var first, second := Gate(i, false), Gate(j, false);
    var s1 := Apply(s, first);
    RetryStep(s, i);
    match order
    case Apart =>
      RunFour(s, first, first, second, second);
      RetryStep(s1, i);
      RetryStep(Apply(s1, first), j);
    case Crossed =>
      RunFour(s, first, second, first, second);
      RetryStep(s1, j);
      RetryStep(Apply(s1, second), i);
      RetryStep(Apply(Apply(s1, second), first), j);
    case Nested =>
      RunFour(s, first, second, second, first);
      RetryStep(s1, j);
      RetryStep(Apply(s1, second), j);
      RetryStep(Apply(Apply(s1, second), second), i);
  }

  /** What the race can cost: `first` (already through the gate beside `second`) answers a success; a
      later request with the fingerprint of `second` is given that answer as its own. */
  lemma ReplayOfAnotherRequest(s: State, first: nat, second: nat, r: Response)
    requires first < |s.requests| && second < |s.requests| && first != second
    requires s.requests[first].at.Handling? && s.requests[second].at.Handling? && Good(r) && Unexpired(s)
    requires s.row.Some? && s.row.value.hash == s.requests[second].hash
    ensures
      var i := |s.requests|;
      var u := Run(s, [Reply(first, r)] + ([Store(first, false)]
                      + ([Arrive(s.requests[second].hash)] + [Pass(i, Faults(false, false, false))])));
      && |u.requests| == i + 1 && u.requests[i].at == Over(Replayed(r))
      && u.requests[i].hash == s.requests[second].hash && u.requests[first].hash == s.requests[first].hash
  {
    RunFour(s, Reply(first, r), Store(first, false), Arrive(s.requests[second].hash),
            Pass(|s.requests|, Faults(false, false, false)));
  }

  /** A key that failed once, with two retries that have both found the row. */
  function TwoRetries(h1: string, h2: string): seq<Action> {
    [Arrive(h1)] + ([Pass(0, Faults(false, false, false))] + ([Reply(0, Response(500, ""))] + [Store(0, false)]))
    + ([Arrive(h1)] + ([Arrive(h2)] + ([Gate(1, false)] + [Gate(2, false)])))
  }

  lemma {:induction false} RunSplit(s: State, first: seq<Action>, second: seq<Action>)
    ensures Run(s, first + second) == Run(Run(s, first), second)
    decreases |first|
  {
    if first == [] {
      assert first + second == second;
    } else {
      assert (first + second)[0] == first[0] && (first + second)[1..] == first[1..] + second;
      RunSplit(Apply(s, first[0]), first[1..], second);
    }
  }

  lemma TwoRetriesReached(now: nat, h1: string, h2: string)
    ensures
      Run(Initial(now), TwoRetries(h1, h2))
      == State(now, Some(Row(h1, FailedOnce, None, now + TTL)),
               [Request(h1, Over(Answered)), Request(h1, Colliding), Request(h2, Colliding)],
               [0], [Answer(0, Response(500, ""))])
  {
    var pass, reply := Pass(0, Faults(false, false, false)), Reply(0, Response(500, ""));
    var first := [Arrive(h1)] + ([pass] + ([reply] + [Store(0, false)]));
    var second := [Arrive(h1)] + ([Arrive(h2)] + ([Gate(1, false)] + [Gate(2, false)]));
    RunSplit(Initial(now), first, second);
    RunFour(Initial(now), Arrive(h1), pass, reply, Store(0, false));
    var s := State(now, Some(Row(h1, FailedOnce, None, now + TTL)), [Request(h1, Over(Answered))],
                   [0], [Answer(0, Response(500, ""))]);
    assert Run(Initial(now), first) == s;
    RunFour(s, Arrive(h1), Arrive(h2), Gate(1, false), Gate(2, false));
  }

  /** So the serial gate's guarantee does not survive interleaving: for every two fingerprints and every
      two successful answers there is a run, before the expiry, in which both are answered. */
  lemma TwoSuccessesWhenInterleaved(now: nat, h1: string, h2: string, r1: Response, r2: Response)
    requires Good(r1) && Good(r2)
    ensures
      var u := Run(Initial(now), TwoRetries(h1, h2) + (Race(1, 2, Crossed) + ([Reply(1, r1)] + [Reply(2, r2)])));
      && Unexpired(u) && |u.answers| >= 2
      && u.answers[|u.answers| - 2] == Answer(1, r1) && u.answers[|u.answers| - 1] == Answer(2, r2)
      && !OneGood(u)
  {
    var replies := [Reply(1, r1)] + [Reply(2, r2)];
    TwoRetriesReached(now, h1, h2);
    var s := Run(Initial(now), TwoRetries(h1, h2));
    RunSplit(Initial(now), TwoRetries(h1, h2), Race(1, 2, Crossed) + replies);
    RunSplit(s, Race(1, 2, Crossed), replies);
    RacedRetriesExactly(s, 1, 2, Crossed);
    KeepsExpiry(s, Race(1, 2, Crossed));
    var t := Run(s, Race(1, 2, Crossed));
    RunCons(t, Reply(1, r1), [Reply(2, r2)]);
    assert [Reply(2, r2)] == [Reply(2, r2)] + [];
    RunCons(Apply(t, Reply(1, r1)), Reply(2, r2), []);
  }

  /** Without time passing a key does not expire. */
  lemma {:induction false} KeepsExpiry(s: State, actions: seq<Action>)
    requires s.row.Some? && forall k :: 0 <= k < |actions| ==> !actions[k].Tick?
    ensures
      var u := Run(s, actions);
      u.row.Some? && u.row.value.expiresAt == s.row.value.expiresAt && u.now == s.now
    decreases |actions|
  {
    if actions != [] { KeepsExpiry(Apply(s, actions[0]), actions[1..]); }
  }

  /** The reset does not renew the expiry, so an expired key never closes again: whatever else happens,
      every request that is let finish its pass reaches the handler, even while another is in it. */
  lemma {:induction false} ExpiredStaysOpen(s: State, actions: seq<Action>)
    requires s.row.Some? && s.now > s.row.value.expiresAt
    ensures
      var u := Run(s, actions);
      && u.row.Some? && u.row.value.expiresAt == s.row.value.expiresAt && u.now >= s.now
      && (forall i :: 0 <= i < |u.requests| && u.requests[i].at.Inserting? ==>
            Apply(u, Pass(i, Faults(false, false, false))).requests[i].at == Handling)
    decreases |actions|
  {
    if actions != [] {
      ExpiredStaysOpen(Apply(s, actions[0]), actions[1..]);
    }
  }
}
