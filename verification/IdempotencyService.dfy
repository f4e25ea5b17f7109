/** The idempotency table and its middleware as the program runs them: one request at a time, every key
    of every user in one table. The methods are proved against the steps of `IdempotencyGate`. */
module IdempotencyService {
  import opened Domain
  import opened IdempotencyGate
  import opened Text

  datatype Checked = Refused(code: nat, reason: string) | Accepted(user: string, key: string)

  function Chosen(primary: Option<string>, alternate: Option<string>): string {
    if primary.Some? && primary.value != "" then primary.value
    else if alternate.Some? then alternate.value else ""
  }

  /** The checks before the table is asked, in their order. */
  function Check(primary: Option<string>, alternate: Option<string>, user: Option<string>): (c: Checked)
    ensures c.Accepted? ==> 4 <= |c.key| <= 255 && c.user != ""
  {
    var given := Chosen(primary, alternate);
    var key := Trim(given);
    if given == "" then Refused(400, "IDEMPOTENCY_KEY_REQUIRED")
    else if |key| < 4 || |key| > 255 then Refused(400, "INVALID_IDEMPOTENCY_KEY")
    else if user.None? || user.value == "" then Refused(401, "AUTHENTICATION_ERROR")
    else Accepted(user.value, key)
  }

  /** What the caller of the middleware sees. `reserved`: the handler runs, and its answer will be
      recorded if a row is known. */
  datatype Admission =
    | Turned(code: nat, reason: string)
    | Replay(response: Response)
    | Broken
    | Admitted(reserved: bool)

  datatype Reservation = Failure | Reservation(isNew: bool, record: Option<Row>)

  /** The admission a request's place in the gate amounts to. */
  function AdmissionAt(row: Option<Row>, at: Point, hash: string): Admission {
    match at
    case Handling => Admitted(row.Some?)
    case Over(Replayed(r)) => Replay(r)
    case Over(Rejected(code)) =>
      Turned(code, if row.Some? && row.value.status == Completed then "IDEMPOTENCY_KEY_REUSED"
                   else "CONCURRENT_REQUEST_IN_PROGRESS")
    case _ => Broken
  }

  type Id = (string, string)

  function RowAt(rows: map<Id, Row>, id: Id): Option<Row> {
    if id in rows then Some(rows[id]) else None
  }

  class IdempotencyRepository {
    var rows: map<Id, Row>

    constructor ()
      ensures rows == map[]
    {
      rows := map[];
    }

    /** Insert the row, or read the one that is there. */
    method Reserve(id: Id, hash: string, expiresAt: nat, faults: Faults) returns (r: Reservation)
      modifies this
      ensures
        if faults.insert then r == Failure && rows == old(rows)
        else if id !in old(rows) then
          var row := Row(hash, InProgress, None, expiresAt);
          r == Reservation(true, Some(row)) && rows == old(rows)[id := row]
        else
          rows == old(rows) && r == if faults.find then Failure else Reservation(false, Some(old(rows)[id]))
    {
      if faults.insert { return Failure; }
      if id !in rows {
        var row := Row(hash, InProgress, None, expiresAt);
        rows := rows[id := row];
        return Reservation(true, Some(row));
      }
      if faults.find { return Failure; }
      r := Reservation(false, Some(rows[id]));
    }

    method ResetForRetry(id: Id, hash: string, fault: bool) returns (ok: bool)
      modifies this
      ensures ok <==> !fault && id in old(rows)
      ensures rows == if ok then old(rows)[id := Reset(old(rows)[id], hash)] else old(rows)
    {
      ok := !fault && id in rows;
      if ok {
        rows := rows[id := rows[id].(status := InProgress, hash := hash, response := None)];
      }
    }

    method Complete(id: Id, response: Response, fault: bool) returns (ok: bool)
      requires Good(response)
      modifies this
      ensures ok <==> !fault && id in old(rows)
      ensures rows == if ok then old(rows)[id := Recorded(Some(old(rows)[id]), response).value] else old(rows)
    {
      ok := !fault && id in rows;
      if ok {
        rows := rows[id := rows[id].(status := Completed, response := Some(response))];
      }
    }

    method Fail(id: Id, fault: bool) returns (ok: bool)
      modifies this
      ensures ok <==> !fault && id in old(rows)
      ensures rows == if ok then old(rows)[id := old(rows)[id].(status := FailedOnce)] else old(rows)
    {
      ok := !fault && id in rows;
      if ok {
        rows := rows[id := rows[id].(status := FailedOnce)];
      }
    }

    /** The middleware up to the handler. Only the row of this user and key is touched, and it changes
        as one undisturbed pass through the gate says. */
    method Admit(primary: Option<string>, alternate: Option<string>, user: Option<string>, hash: string,
                 now: nat, faults: Faults)
      returns (a: Admission)
      modifies this
      ensures
        match Check(primary, alternate, user)
        case Refused(code, reason) => a == Turned(code, reason) && rows == old(rows)
        case Accepted(u, key) =>
          var (row, q) := PassGate(now, RowAt(old(rows), (u, key)), Request(hash, Inserting(now + TTL)), faults);
          && a == AdmissionAt(row, q.at, hash)
          && RowAt(rows, (u, key)) == row
          && rows - {(u, key)} == old(rows) - {(u, key)}
    {
      var checked := Check(primary, alternate, user);
      if checked.Refused? { return Turned(checked.code, checked.reason); }
      var id := (checked.user, checked.key);
      var reservation := Reserve(id, hash, now + TTL, faults);
      if reservation.Failure? { return Broken; }
      if !reservation.isNew && reservation.record.Some? {
        var record := reservation.record.value;
        if now > record.expiresAt {
          var ok := ResetForRetry(id, hash, faults.reset);
          if !ok { return Broken; }
        } else if record.status == Completed {
          if record.hash != hash { return Turned(409, "IDEMPOTENCY_KEY_REUSED"); }
          var response := if record.response.Some? then record.response.value else Response(0, "null");
          return Replay(Response(if response.status == 0 then 200 else response.status, response.body));
        } else if record.status == InProgress {
          return Turned(409, "CONCURRENT_REQUEST_IN_PROGRESS");
        } else {
          var ok := ResetForRetry(id, hash, faults.reset);
          if !ok { return Broken; }
        }
      }
      a := Admitted(reservation.record.Some?);
    }

    /** The wrapped `res.json`: what the handler answers is recorded, and only under its own key. */
    method Finish(id: Id, reserved: bool, response: Response, fault: bool)
      modifies this
      ensures RowAt(rows, id)
              == if reserved && !fault then Recorded(RowAt(old(rows), id), response) else RowAt(old(rows), id)
      ensures rows - {id} == old(rows) - {id}
    {
      if reserved {
        if 200 <= response.status < 300 {
          var _ := Complete(id, response, fault);
        } else {
          var _ := Fail(id, fault);
        }
      }
    }
  }
}
