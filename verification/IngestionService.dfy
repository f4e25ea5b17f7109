/** The webhook service, its repository and its queue as the program runs one delivery, proved against the
    steps of `Ingestion`. */
module IngestionService {
  import opened Domain
  import opened Ingestion

  /** Which of the calls of one delivery fail. */
  datatype Faults = Faults(find: bool, insert: bool, reread: bool, enqueue: bool)

  function FaultAt(faults: Faults, at: Point): bool {
    match at
    case Looking => faults.find
    case Inserting => faults.insert
    case Rereading => faults.reread
    case Enqueueing(_) => faults.enqueue
    case Over(_) => false
  }

  /** A delivery carried through, nobody else in between. */
  function Alone(t: Tables, d: Delivery, faults: Faults): (Tables, Delivery)
    decreases Left(d)
  {
    if d.at.Over? then (t, d)
    else
      var (t', d') := Advance(t, d, FaultAt(faults, d.at));
      Alone(t', d', faults)
  }

  /** What one undisturbed delivery amounts to. */
  lemma AloneAmountsTo(t: Tables, entry: Entry, eventId: string, eventType: string, faults: Faults)
    ensures
      var d := Delivery(entry, eventId, eventType, Looking, false);
      var g := GatewayOf(entry);
      Alone(t, d, faults)
      == if faults.find then (t, Broken(d))
         else if Find(t.rows, g, eventId).Some? then (t, d.(at := Over(Duplicate)))
         else if faults.insert then (t, Broken(d))
         else
           (Tables(t.rows + [Row(g, eventId, eventType)],
                   if faults.enqueue then t.jobs else Enqueue(t.jobs, Job(JobId(g, eventId), |t.rows|, g, eventId))),
            d.(at := Over(Queued)))
  {
    var d := Delivery(entry, eventId, eventType, Looking, false);
    var (t1, d1) := Advance(t, d, faults.find);
    var (t2, d2) := Advance(t1, d1, FaultAt(faults, d1.at));
    var (t3, d3) := Advance(t2, d2, FaultAt(faults, d2.at));
    assert Alone(t, d, faults) == Alone(t1, d1, faults);
    if d1.at.Inserting? {
      assert Alone(t1, d1, faults) == Alone(t2, d2, faults);
      if d2.at.Enqueueing? {
        assert Alone(t2, d2, faults) == Alone(t3, d3, faults);
      }
    }
  }

  class WebhookService {
    var rows: seq<Row>
    var jobs: seq<Job>

    constructor ()
      ensures Contents() == Initial().tables
    {
      rows, jobs := [], [];
    }

    function Contents(): Tables
      reads this
    {
      Tables(rows, jobs)
    }

    /** `create`: the new row, or on a clash the stored one; None when a call failed. */
    method Create(g: Gateway, eventId: string, eventType: string, faults: Faults) returns (row: Option<nat>)
      modifies this`rows
      ensures
        var found := Find(old(rows), g, eventId);
        if faults.insert || (found.Some? && faults.reread) then row.None? && rows == old(rows)
        else if found.Some? then row == found && rows == old(rows)
        else row == Some(|old(rows)|) && rows == old(rows) + [Row(g, eventId, eventType)]
    {
      if faults.insert { return None; }
      var clash := Find(rows, g, eventId);
      if clash.None? {
        rows := rows + [Row(g, eventId, eventType)];
        return Some(|rows| - 1);
      }
      row := if faults.reread then None else clash;
    }

    /** `addWebhookJob`: whatever happens, it does not throw. */
    method AddWebhookJob(row: nat, g: Gateway, eventId: string, fault: bool)
      modifies this`jobs
      ensures jobs == if fault then old(jobs) else Enqueue(old(jobs), Job(JobId(g, eventId), row, g, eventId))
    {
      if !fault && !HasJob(jobs, JobId(g, eventId)) {
        jobs := jobs + [Job(JobId(g, eventId), row, g, eventId)];
      }
    }

    method HandleGatewayWebhook(g: Gateway, eventId: string, eventType: string, faults: Faults) returns (reply: Reply)
      modifies this
      ensures
        var (t, d) := Alone(old(Contents()), Delivery(AnyGateway(g), eventId, eventType, Looking, false), faults);
        Contents() == t && d.at == Over(reply)
    {
      AloneAmountsTo(Contents(), AnyGateway(g), eventId, eventType, faults);
      if faults.find { return Failure(500); }
      var existing := Find(rows, g, eventId);
      if existing.Some? { return Duplicate; }
      var row := Create(g, eventId, eventType, faults);
      if row.None? { return Failure(500); }
      AddWebhookJob(row.value, g, eventId, faults.enqueue);
      reply := Queued;
    }

    method HandleStripeWebhook(eventId: string, eventType: string, faults: Faults) returns (reply: Reply)
      modifies this
      ensures
        var (t, d) := Alone(old(Contents()), Delivery(StripeOnly, eventId, eventType, Looking, false), faults);
        Contents() == t && d.at == Over(reply)
    {
      AloneAmountsTo(Contents(), StripeOnly, eventId, eventType, faults);
      if faults.find { return Failure(500); }
      var existing := Find(rows, Stripe, eventId);
      if existing.Some? { return Duplicate; }
      var row := Create(Stripe, eventId, eventType, faults);
      if row.None? { return Failure(500); }
      AddWebhookJob(row.value, Stripe, eventId, faults.enqueue);
      reply := Queued;
    }
  }

  /** A delivery carried through is one run of the interleaved system, so everything proved about the runs
      covers it: `steps` are its own operations. */
  lemma {:induction false} AloneIsARun(s: State, i: nat, faults: Faults) returns (steps: seq<Action>)
    requires i < |s.deliveries|
    ensures
      var (t, d) := Alone(s.tables, s.deliveries[i], faults);
      Run(s, steps) == State(t, s.deliveries[i := d]) && |steps| <= 4
    ensures |steps| <= Left(s.deliveries[i])
    decreases Left(s.deliveries[i])
  {
    var d := s.deliveries[i];
    if d.at.Over? {
      steps := [];
      assert s.deliveries[i := d] == s.deliveries;
    } else {
      var step := Step(i, FaultAt(faults, d.at));
      DeliveryProgresses(s, i, FaultAt(faults, d.at));
      var s' := Apply(s, step);
      var rest := AloneIsARun(s', i, faults);
      steps := [step] + rest;
      RunCons(s, step, rest);
      var (t, d') := Alone(s.tables, d, faults);
      assert s'.deliveries[i := d'] == s.deliveries[i := d'];
    }
  }
}
