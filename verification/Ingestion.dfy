/** Ingestion of gateway events (src/services/webhook.service.js, src/repositories/webhook.repository.js,
    src/queues/webhook.queue.js): any number of deliveries through both entry points, each database and
    queue call one operation, in every interleaving. */
module Ingestion {
  import opened Domain
  import L = Ledger

  datatype Row = Row(gateway: Gateway, eventId: string, eventType: string)

  /** `row` is the stored event the job is for. */
  datatype Job = Job(id: string, row: nat, gateway: Gateway, eventId: string)

  datatype Entry = AnyGateway(gateway: Gateway) | StripeOnly

  datatype Reply = Queued | Duplicate | Failure(code: nat)

  datatype Point =
    | Looking                 // is the event stored?
    | Inserting               // insert it
    | Rereading               // the insert clashed: read the stored row
    | Enqueueing(row: nat)    // add the job
    | Over(reply: Reply)

  /** `faulted`: a database call of the delivery has failed. */
  datatype Delivery = Delivery(entry: Entry, eventId: string, eventType: string, at: Point, faulted: bool)

  datatype Tables = Tables(rows: seq<Row>, jobs: seq<Job>)

  datatype State = State(tables: Tables, deliveries: seq<Delivery>)

  /** A process that dies answers nothing, which the gateway takes for a failure. The queue may drop a
      finished job at any time. */
  datatype Action =
    | Deliver(entry: Entry, eventId: string, eventType: string)
    | Step(delivery: nat, fault: bool)
    | Crash(delivery: nat)
    | Evict(id: string)

  function GatewayOf(entry: Entry): Gateway {
    match entry case AnyGateway(g) => g case StripeOnly => Stripe
  }

  function JobId(g: Gateway, eventId: string): string {
    "webhook:" + (L.GatewayName(g) + (":" + eventId))
  }

  /** Different events never share a job id. */
  lemma JobIdInjective(g: Gateway, a: string, h: Gateway, b: string)
    ensures JobId(g, a) == JobId(h, b) <==> g == h && a == b
  {
    if JobId(g, a) == JobId(h, b) {
      assert JobId(g, a)[8..] == L.GatewayName(g) + (":" + a);
      assert JobId(h, b)[8..] == L.GatewayName(h) + (":" + b);
      assert JobId(g, a)[8] == L.GatewayName(g)[0] && JobId(h, b)[8] == L.GatewayName(h)[0];
      assert g == h;
      var n := |L.GatewayName(g)|;
      assert JobId(g, a)[8 + n + 1..] == a && JobId(h, b)[8 + n + 1..] == b;
    }
  }

  function Find(rows: seq<Row>, g: Gateway, eventId: string): (found: Option<nat>)
    ensures found.Some? ==>
              found.value < |rows| && rows[found.value].gateway == g && rows[found.value].eventId == eventId
    ensures found.None? ==> forall r :: 0 <= r < |rows| ==> !(rows[r].gateway == g && rows[r].eventId == eventId)
  {
    if rows == [] then None
    else
      var last := |rows| - 1;
      if rows[last].gateway == g && rows[last].eventId == eventId then Some(last) else Find(rows[..last], g, eventId)
  }

  predicate HasJob(jobs: seq<Job>, id: string) {
    exists j :: 0 <= j < |jobs| && jobs[j].id == id
  }

  /** The queue ignores a job whose id it already holds. */
  function Enqueue(jobs: seq<Job>, job: Job): seq<Job> {
    if HasJob(jobs, job.id) then jobs else jobs + [job]
  }

  function Without(jobs: seq<Job>, id: string): (left: seq<Job>)
    ensures forall j :: j in left ==> j in jobs && j.id != id
    ensures forall j :: j in jobs && j.id != id ==> j in left
    ensures |left| <= |jobs|
  {
    if jobs == [] then []
    else
      var front, last := jobs[..|jobs| - 1], jobs[|jobs| - 1];
      assert forall j :: j in jobs <==> j in front || j == last;
      if last.id == id then Without(front, id) else Without(front, id) + [last]
  }

  /** What a failed database call becomes: the Stripe entry point hides the error behind a 500 of its
      own, the other lets it through to the error handler, which answers 500 as well. */
  function Broken(d: Delivery): Delivery {
    d.(at := Over(Failure(500)), faulted := true)
  }

  function Advance(t: Tables, d: Delivery, fault: bool): (Tables, Delivery) {
    var g := GatewayOf(d.entry);
    match d.at
    case Looking =>
      if fault then (t, Broken(d))
      else if Find(t.rows, g, d.eventId).Some? then (t, d.(at := Over(Duplicate)))
      else (t, d.(at := Inserting))
    case Inserting =>
      if fault then (t, Broken(d))
      else if Find(t.rows, g, d.eventId).Some? then (t, d.(at := Rereading))
      else (t.(rows := t.rows + [Row(g, d.eventId, d.eventType)]), d.(at := Enqueueing(|t.rows|)))
    case Rereading =>
      var found := Find(t.rows, g, d.eventId);
      if fault || found.None? then (t, Broken(d)) else (t, d.(at := Enqueueing(found.value)))
    case Enqueueing(row) =>
      // a queue that is down or refuses the job changes nothing, and the event is acknowledged all the same
      var job := Job(JobId(g, d.eventId), row, g, d.eventId);
      (if fault then t else t.(jobs := Enqueue(t.jobs, job)), d.(at := Over(Queued)))
    case Over(_) => (t, d)
  }

  function Apply(s: State, a: Action): State {
    match a
    case Deliver(entry, eventId, eventType) =>
      s.(deliveries := s.deliveries + [Delivery(entry, eventId, eventType, Looking, false)])
    case Step(i, fault) =>
      if i < |s.deliveries| then
        var (t, d) := Advance(s.tables, s.deliveries[i], fault);
        State(t, s.deliveries[i := d])
      else s
    case Crash(i) =>
      if i < |s.deliveries| && !s.deliveries[i].at.Over?
      then s.(deliveries := s.deliveries[i := Broken(s.deliveries[i])]) else s
    case Evict(id) => s.(tables := s.tables.(jobs := Without(s.tables.jobs, id)))
  }

  function Run(s: State, actions: seq<Action>): State
    decreases |actions|
  {
    if actions == [] then s else Run(Apply(s, actions[0]), actions[1..])
  }

  function Initial(): State {
    State(Tables([], []), [])
  }

  // ---------------------------------------------------------------- what holds in every run

  predicate Stored(rows: seq<Row>, g: Gateway, eventId: string) {
    Find(rows, g, eventId).Some?
  }

  ghost predicate UniqueRows(rows: seq<Row>) {
    forall i, j :: 0 <= i < j < |rows| ==> !(rows[i].gateway == rows[j].gateway && rows[i].eventId == rows[j].eventId)
  }

  predicate Names(rows: seq<Row>, job: Job) {
    && job.row < |rows| && rows[job.row].gateway == job.gateway && rows[job.row].eventId == job.eventId
    && job.id == JobId(job.gateway, job.eventId)
  }

  predicate UniqueIds(jobs: seq<Job>) {
    forall i, j :: 0 <= i < j < |jobs| ==> jobs[i].id != jobs[j].id
  }

  ghost predicate JobsOk(t: Tables) {
    (forall j :: 0 <= j < |t.jobs| ==> Names(t.rows, t.jobs[j])) && UniqueIds(t.jobs)
  }

  ghost predicate DeliveryOk(t: Tables, d: Delivery) {
    var g := GatewayOf(d.entry);
    match d.at
    case Looking => !d.faulted
    case Inserting => !d.faulted
    case Rereading => !d.faulted && Stored(t.rows, g, d.eventId)
    case Enqueueing(row) => !d.faulted && row < |t.rows| && t.rows[row].gateway == g && t.rows[row].eventId == d.eventId
    case Over(Failure(_)) => d.faulted
    case Over(_) => !d.faulted && Stored(t.rows, g, d.eventId)
  }

  ghost predicate Inv(s: State) {
    && UniqueRows(s.tables.rows) && JobsOk(s.tables)
    && forall i :: 0 <= i < |s.deliveries| ==> DeliveryOk(s.tables, s.deliveries[i])
  }

  lemma StoredStays(rows: seq<Row>, rows': seq<Row>, g: Gateway, eventId: string)
    requires rows <= rows' && Stored(rows, g, eventId)
    ensures Stored(rows', g, eventId)
  {
  }

  lemma OkStays(t: Tables, t': Tables, d: Delivery)
    requires DeliveryOk(t, d) && t.rows <= t'.rows
    ensures DeliveryOk(t', d)
  {
  }

  lemma AdvanceOk(t: Tables, d: Delivery, fault: bool)
    requires UniqueRows(t.rows) && JobsOk(t) && DeliveryOk(t, d)
    ensures
      var (t', d') := Advance(t, d, fault);
      UniqueRows(t'.rows) && JobsOk(t') && DeliveryOk(t', d') && t.rows <= t'.rows
  {
  }

  lemma {:induction false} WithoutKeepsOrder(jobs: seq<Job>, id: string)
    requires UniqueIds(jobs)
    ensures UniqueIds(Without(jobs, id))
    decreases |jobs|
  {
    if jobs != [] {
      var front, last := jobs[..|jobs| - 1], jobs[|jobs| - 1];
      WithoutKeepsOrder(front, id);
      forall k | 0 <= k < |Without(front, id)| ensures Without(front, id)[k].id != last.id {
        assert Without(front, id)[k] in front;
      }
    }
  }

  lemma StepKeeps(s: State, k: nat, fault: bool)
    requires Inv(s)
    ensures Inv(Apply(s, Step(k, fault))) && s.tables.rows <= Apply(s, Step(k, fault)).tables.rows
  {
    var s' := Apply(s, Step(k, fault));
    if k < |s.deliveries| {
      AdvanceOk(s.tables, s.deliveries[k], fault);
      forall i | 0 <= i < |s.deliveries| && i != k ensures DeliveryOk(s'.tables, s'.deliveries[i]) {
        OkStays(s.tables, s'.tables, s.deliveries[i]);
      }
    }
  }

  lemma EvictKeeps(s: State, id: string)
    requires Inv(s)
    ensures Inv(Apply(s, Evict(id)))
  {
    var s' := Apply(s, Evict(id));
    WithoutKeepsOrder(s.tables.jobs, id);
    forall j | 0 <= j < |s'.tables.jobs| ensures Names(s.tables.rows, s'.tables.jobs[j]) {
      assert s'.tables.jobs[j] in s.tables.jobs;
    }
    forall i | 0 <= i < |s.deliveries| ensures DeliveryOk(s'.tables, s'.deliveries[i]) {
      OkStays(s.tables, s'.tables, s.deliveries[i]);
    }
  }

  lemma ApplyKeeps(s: State, a: Action)
    requires Inv(s)
    ensures Inv(Apply(s, a)) && s.tables.rows <= Apply(s, a).tables.rows
  {
    match a
    case Step(k, fault) => StepKeeps(s, k, fault);
    case Evict(id) => EvictKeeps(s, id);
    case _ =>
  }

  lemma {:induction false} RunKeeps(s: State, actions: seq<Action>)
    requires Inv(s)
    ensures Inv(Run(s, actions)) && s.tables.rows <= Run(s, actions).tables.rows
    decreases |actions|
  {
    if actions != [] {
      ApplyKeeps(s, actions[0]);
      RunKeeps(Apply(s, actions[0]), actions[1..]);
    }
  }

  /** For every interleaving of deliveries through both entry points: one stored row per event; a finished
      delivery was acknowledged, with its event stored, unless its process died or a database call of its
      own failed; at most one queued job bears an id; every queued job names the stored row of its event. */
  lemma IngestionIsSound(actions: seq<Action>)
    ensures
      var s := Run(Initial(), actions);
      && UniqueRows(s.tables.rows)
      && (forall i :: 0 <= i < |s.deliveries| && s.deliveries[i].at.Over? ==>
            var d := s.deliveries[i];
            && (d.at.reply.Failure? <==> d.faulted)
            && (!d.faulted ==> Stored(s.tables.rows, GatewayOf(d.entry), d.eventId)))
      && (forall j :: 0 <= j < |s.tables.jobs| ==> Names(s.tables.rows, s.tables.jobs[j]))
      && UniqueIds(s.tables.jobs)
  {
    RunKeeps(Initial(), actions);
    var s := Run(Initial(), actions);
    forall i | 0 <= i < |s.deliveries| && s.deliveries[i].at.Over?
      ensures var d := s.deliveries[i];
              && (d.at.reply.Failure? <==> d.faulted)
              && (!d.faulted ==> Stored(s.tables.rows, GatewayOf(d.entry), d.eventId))
    {
      assert DeliveryOk(s.tables, s.deliveries[i]);
    }
  }

  /** A delivery is over after four of its own operations, whatever the others do. */
  function Left(d: Delivery): nat {
    match d.at case Looking => 4 case Inserting => 3 case Rereading => 2 case Enqueueing(_) => 1 case Over(_) => 0
  }

  lemma DeliveryProgresses(s: State, i: nat, fault: bool)
    requires i < |s.deliveries|
    ensures
      var d, d' := s.deliveries[i], Apply(s, Step(i, fault)).deliveries[i];
      && (Left(d) > 0 ==> Left(d') < Left(d)) && (Left(d) == 0 ==> d' == d)
      && d'.entry == d.entry && d'.eventId == d.eventId
      && (!fault && !d.faulted && Inv(s) ==> !d'.faulted)
  {
  }

  // ---------------------------------------------------------------- a stored event whose job was never added

  predicate About(d: Delivery, g: Gateway, eventId: string) {
    GatewayOf(d.entry) == g && d.eventId == eventId
  }

  /** A delivery of the event is past its look-up and has not ended. */
  predicate InFlight(s: State, g: Gateway, eventId: string) {
    exists i :: 0 <= i < |s.deliveries| && About(s.deliveries[i], g, eventId)
                && (s.deliveries[i].at.Inserting? || s.deliveries[i].at.Rereading? || s.deliveries[i].at.Enqueueing?)
  }

  predicate Queueable(s: State, g: Gateway, eventId: string) {
    HasJob(s.tables.jobs, JobId(g, eventId)) || InFlight(s, g, eventId)
  }

  lemma EvictAddsNothing(jobs: seq<Job>, evicted: string, id: string)
    ensures HasJob(Without(jobs, evicted), id) ==> HasJob(jobs, id)
  {
  }

  lemma StrandedStep(s: State, a: Action, g: Gateway, eventId: string)
    requires Stored(s.tables.rows, g, eventId) && !Queueable(s, g, eventId)
    ensures var s' := Apply(s, a); Stored(s'.tables.rows, g, eventId) && !Queueable(s', g, eventId)
  {
    var s' := Apply(s, a);
    if a.Step? && a.delivery < |s.deliveries| {
      var d := s.deliveries[a.delivery];
      if s'.tables.rows != s.tables.rows { StoredStays(s.tables.rows, s'.tables.rows, g, eventId); }
      JobIdInjective(g, eventId, GatewayOf(d.entry), d.eventId);
    }
    if a.Evict? { EvictAddsNothing(s.tables.jobs, a.id, JobId(g, eventId)); }
  }

  lemma {:induction false} StrandedForever(s: State, actions: seq<Action>, g: Gateway, eventId: string)
    requires Stored(s.tables.rows, g, eventId) && !Queueable(s, g, eventId)
    ensures !HasJob(Run(s, actions).tables.jobs, JobId(g, eventId))
    decreases |actions|
  {
    if actions != [] {
      StrandedStep(s, actions[0], g, eventId);
      StrandedForever(Apply(s, actions[0]), actions[1..], g, eventId);
    }
  }

  lemma RunCons(s: State, a: Action, rest: seq<Action>)
    ensures Run(s, [a] + rest) == Run(Apply(s, a), rest)
  {
  }

  /** A delivery past its look-up queues the event if its own operations succeed. */
  lemma {:induction false} Rescue(s: State, i: nat) returns (actions: seq<Action>)
    requires Inv(s) && i < |s.deliveries|
    requires s.deliveries[i].at.Inserting? || s.deliveries[i].at.Rereading? || s.deliveries[i].at.Enqueueing?
    ensures HasJob(Run(s, actions).tables.jobs, JobId(GatewayOf(s.deliveries[i].entry), s.deliveries[i].eventId))
    decreases Left(s.deliveries[i])
  {
    var d, step := s.deliveries[i], Step(i, false);
    var s' := Apply(s, step);
    assert DeliveryOk(s.tables, d);
    DeliveryProgresses(s, i, false);
    ApplyKeeps(s, step);
    if d.at.Enqueueing? {
      actions := [step] + [];
      RunCons(s, step, []);
      var jobs, id := s.tables.jobs, JobId(GatewayOf(d.entry), d.eventId);
      if !HasJob(jobs, id) { assert s'.tables.jobs[|jobs|].id == id; }
    } else {
      var rest := Rescue(s', i);
      actions := [step] + rest;
      RunCons(s, step, rest);
    }
  }

  predicate Queues(s: State, actions: seq<Action>, g: Gateway, eventId: string) {
    HasJob(Run(s, actions).tables.jobs, JobId(g, eventId))
  }

  /** Exactly when a stored event that has no job can still get one: when a delivery of it is past its
      look-up. Otherwise every later delivery is told "duplicate", and no run of deliveries, however
      many, ever queues the event: it waits for an administrator. */
  lemma QueuedLaterExactly(s: State, g: Gateway, eventId: string)
    requires Inv(s) && Stored(s.tables.rows, g, eventId)
    ensures (exists actions :: Queues(s, actions, g, eventId)) <==> Queueable(s, g, eventId)
  {
    if HasJob(s.tables.jobs, JobId(g, eventId)) {
      assert Queues(s, [], g, eventId);
    } else if InFlight(s, g, eventId) {
      var i :| 0 <= i < |s.deliveries| && About(s.deliveries[i], g, eventId)
               && (s.deliveries[i].at.Inserting? || s.deliveries[i].at.Rereading? || s.deliveries[i].at.Enqueueing?);
      var actions := Rescue(s, i);
      assert Queues(s, actions, g, eventId);
    } else {
      forall actions ensures !Queues(s, actions, g, eventId) {
        StrandedForever(s, actions, g, eventId);
      }
    }
  }

  /** How an event gets there: one delivery, every database call of which succeeds, and a queue that is
      down. The event is stored and acknowledged, and will never be queued. */
  lemma AcknowledgedAndStranded(entry: Entry, eventId: string, eventType: string, more: seq<Action>)
    ensures
      var first := [Deliver(entry, eventId, eventType)] + ([Step(0, false)] + ([Step(0, false)] + [Step(0, true)]));
      var s := Run(Initial(), first);
      && |s.deliveries| == 1 && s.deliveries[0].at == Over(Queued)
      && Stored(s.tables.rows, GatewayOf(entry), eventId)
      && !HasJob(Run(s, more).tables.jobs, JobId(GatewayOf(entry), eventId))
  {
    var deliver, step, drop := Deliver(entry, eventId, eventType), Step(0, false), Step(0, true);
    var s1 := Apply(Initial(), deliver);
    var s2 := Apply(s1, step);
    var s3 := Apply(s2, step);
    RunCons(Initial(), deliver, [step] + ([step] + [drop]));
    RunCons(s1, step, [step] + [drop]);
    RunCons(s2, step, [drop]);
    assert [drop] == [drop] + [];
    RunCons(s3, drop, []);
    var s := Apply(s3, drop);
    assert s.tables.rows[0] == Row(GatewayOf(entry), eventId, eventType);
    StrandedForever(s, more, GatewayOf(entry), eventId);
  }
}
