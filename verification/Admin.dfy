/** Manual replay of an event (src/controllers/admin.controller.js): an audit row, then the worker on the
    stored attempts. */
module Admin {
  import opened Domain
  import opened Store
  import opened Databases
  import Retry
  import W = Worker

  datatype Audit = Audit(row: nat, previousStatus: EventStatus, attempts: nat)

  /** The stored events an administrator's identifier can mean: `ids` are the rows' own identifiers. */
  predicate Named(events: seq<Event>, ids: seq<string>, name: string, row: nat) {
    row < |events| == |ids| && (ids[row] == name || events[row].eventId == name)
  }

  function FirstNamed(events: seq<Event>, ids: seq<string>, name: string, from: nat): (found: Option<nat>)
    ensures found.Some? ==> Named(events, ids, name, found.value)
    ensures found.None? ==> forall r :: from <= r ==> !Named(events, ids, name, r)
    decreases |events| - from
  {
    if from >= |events| then None
    else if Named(events, ids, name, from) then Some(from)
    else FirstNamed(events, ids, name, from + 1)
  }

  datatype Reprocessed = NotFound | Died | Done(result: W.JobResult)

  class AdminController {
    const db: Database
    var audits: seq<Audit>

    constructor (db: Database)
      ensures this.db == db && audits == []
    {
      this.db := db;
      audits := [];
    }

    /** One more manual run: it counts as the run after the stored attempts, whatever the queue
        thinks. An audit row that cannot be written stops nothing. */
    method ReprocessWebhook(cfg: Config, ids: seq<string>, name: string, auditFault: bool, script: seq<Outcome>)
      returns (r: Reprocessed)
      requires db.Valid() && |ids| == |db.events|
      modifies this`audits, db`payments, db`orders, db`events, db`ledger
      ensures db.Valid()
      ensures r.NotFound? <==> forall row: nat :: !Named(old(db.events), ids, name, row)
      ensures r.NotFound? ==> db.Now() == old(db.Now()) && audits == old(audits)
      ensures !r.NotFound? ==>
                exists row: nat :: Named(old(db.events), ids, name, row)
                  && audits == old(audits) + (if auditFault then []
                                              else [Audit(row, old(db.events)[row].status,
                                                  old(db.events)[row].attempts)])
                  && db.Now() == Retry.Launched(cfg, old(db.Now()), row, Retry.Manual(script))
    {
      var found := FirstNamed(db.events, ids, name, 0);
      if found.None? { return NotFound; }
      var row := found.value;
      var event := db.events[row];
      if !auditFault { audits := audits + [Audit(row, event.status, event.attempts)]; }
      var result := db.ProcessWebhookJob(cfg, row, event.attempts, script);
      assert Named(old(db.events), ids, name, row);
      r := match result case None => Reprocessed.Died case Some(w) => Done(w);
    }
  }
}
