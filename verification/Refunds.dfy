/** `createRefund` (src/services/refund.service.js) as a program counter over its awaited operations. */
module Refunds {
  import opened Domain
  import opened StateMachine
  import opened Ledger
  import opened Store
  import opened Rounding

  const MAX_RETRIES := 3

  /** The gateway's status text as a refund status; anything unknown is pending. */
  function MapStatus(gatewayStatus: string): RefundStatus {
    var s := Lower(gatewayStatus);
    if s == "succeeded" then RefundSucceeded
    else if s == "failed" then RefundFailed
    else if s == "canceled" then RefundCanceled
    else RefundPending
  }

  predicate ValidReason(reason: Option<string>) {
    match reason
    case None => true
    case Some(r) => r == "duplicate" || r == "fraudulent" || r == "requested_by_customer"
  }

  /** A request; `asked` is the amount in paise, with any number of decimals, or none for the whole
      remaining balance, `mayAccess` is the outcome of the ownership check, and `number` is the refund
      number the call draws before it asks the gateway. */
  datatype Request = Request(asked: Option<real>, reason: Option<string>, key: Option<string>, mayAccess: bool,
                             number: string)

  datatype Point =
    | Opening                                        // read the payment row
    | Totalling                                      // read the payment's refunds
    | Retrieving(asked: real, total: nat)            // ask the gateway about the payment
    | Paying(asked: real, total: nat)                // ask the gateway to refund
    | Saving(asked: real, total: nat, gatewayRefundId: string, status: RefundStatus, retries: nat)
    | Moving(refund: nat, isFull: bool)              // read and write the payment row
    | Syncing(refund: nat, isFull: bool)             // write the order row
    | Seeking(refund: nat, isFull: bool)             // look the debit up
    | Debiting(refund: nat, isFull: bool)            // insert the debit
    | Rereading(refund: nat)                         // the insert clashed: read the stored debit

  datatype Run = Run(payment: nat, request: Request, at: Point)

  /** `Created` names the refund row; an error carries the HTTP status the caller gets. */
  datatype Result = Created(refund: nat) | Error(code: nat)

  datatype Next = Go(run: Run) | Stop(result: Result)

  datatype Turn = Turn(tables: Tables, next: Next)

  function Goal(isFull: bool): PaymentStatus {
    if isFull then Refunded else PartiallyRefunded
  }

  function KeyOf(payment: Payment, request: Request, asked: real): Key {
    match request.key
    case Some(text) => Given(text)
    case None => Derived(if payment.paymentIntentId.Some? then payment.paymentIntentId.value else "",
                         asked, request.reason)
  }

  /** What a call asks the gateway for. */
  function AskOf(payment: Payment, p: nat, request: Request, asked: real): Ask
    requires asked > 0.0
  {
    Ask(KeyOf(payment, request, asked), p, Payload(asked, payment.amount), request.number, request.reason)
  }

  function RecordAt(gateway: seq<GatewayRefund>, key: Key): (found: Option<GatewayRefund>)
    ensures found.Some? ==> found.value in gateway && found.value.ask.key == key
    ensures found.None? ==> forall g :: g in gateway ==> g.ask.key != key
  {
    if gateway == [] then None
    else if gateway[0].ask.key == key then Some(gateway[0])
    else RecordAt(gateway[1..], key)
  }

  /** A refund that failed or was canceled takes nothing. */
  predicate Counts(status: RefundStatus) {
    status == RefundSucceeded || status == RefundPending
  }

  /** What the gateway has set aside for refunds of a payment. */
  function Held(gateway: seq<GatewayRefund>, p: nat): nat {
    if gateway == [] then 0
    else
      var last := gateway[|gateway| - 1];
      Held(gateway[..|gateway| - 1], p) + (if last.ask.payment == p && Counts(last.status) then last.paid else 0)
  }

  /** What the gateway sets aside for a request on a payment of `amount`: the amount given, or, when none
      is, all it has left; nothing at all if it has too little left. */
  function Grant(gateway: seq<GatewayRefund>, ask: Ask, amount: nat): (paid: Option<nat>)
    ensures paid.Some? ==> 0 < paid.value <= amount - Held(gateway, ask.payment)
    ensures paid.Some? && ask.payload.Some? ==> paid == ask.payload
  {
    var left := amount - Held(gateway, ask.payment);
    var wanted := match ask.payload case None => left case Some(a) => a;
    if 0 < wanted <= left then Some(wanted) else None
  }

  /** The gateway's side of a refund request. A key it has seen answers with the recorded refund, and
      only to the same request, its metadata and reason included; a new key gets a new record under an
      identifier never used before. None: the gateway refused or could not be reached. */
  function Answer(gateway: seq<GatewayRefund>, ask: Ask, amount: nat, id: string, status: RefundStatus)
    : (after: Option<seq<GatewayRefund>>)
  {
    match RecordAt(gateway, ask.key)
    case Some(g) => if g.ask == ask && g.id == id && g.status == status then Some(gateway) else None
    case None =>
      var paid := Grant(gateway, ask, amount);
      if paid.None? || exists i :: 0 <= i < |gateway| && gateway[i].id == id then None
      else Some(gateway + [GatewayRefund(ask, id, status, paid.value)])
  }

  /** The unique constraints of the refund table, apart from the generated number. */
  predicate Fresh(refunds: seq<Refund>, id: string, gatewayRefundId: string) {
    forall i :: 0 <= i < |refunds| ==> refunds[i].id != id && refunds[i].gatewayRefundId != gatewayRefundId
  }

  predicate InRange(t: Tables, k: Run) {
    && |t.orders| == |t.payments|
    && (!k.at.Opening? ==> k.payment < |t.payments|)
    && ((k.at.Retrieving? || k.at.Paying? || k.at.Saving?) ==> k.at.asked > 0.0)
    && (k.at.Saving? ==> k.at.retries < MAX_RETRIES)
    && ((k.at.Moving? || k.at.Syncing? || k.at.Seeking? || k.at.Debiting? || k.at.Rereading?) ==>
          k.at.refund < |t.refunds|)
  }

  function Open(t: Tables, k: Run): Turn {
    if k.payment >= |t.payments| then Turn(t, Stop(Error(404)))
    else
      var payment := t.payments[k.payment];
      if !k.request.mayAccess then Turn(t, Stop(Error(403)))
      else if payment.status != Success && payment.status != PartiallyRefunded then Turn(t, Stop(Error(400)))
      else if payment.paymentIntentId.None? || payment.paymentIntentId.value == "" then Turn(t, Stop(Error(400)))
      else if !ValidReason(k.request.reason) then Turn(t, Stop(Error(400)))
      else Turn(t, Go(k.(at := Totalling)))
  }

  /** The balance guard: nothing remaining is a conflict; an amount must be positive and within the
      remaining balance; no amount means all of it. */
  function Guard(amount: nat, total: nat, asked: Option<real>): (decided: Option<real>)
    ensures decided.Some? <==>
            total < amount && (asked.Some? ==> 0.0 < asked.value <= amount as real - total as real)
    ensures decided.Some? ==> 0.0 < decided.value <= amount as real - total as real
    ensures decided.Some? ==> decided.value == if asked.Some? then asked.value else amount as real - total as real
  {
    var remaining := amount as real - total as real;
    if remaining <= 0.0 then None
    else
      match asked
      case None => Some(remaining)
      case Some(a) => if a <= 0.0 || a > remaining then None else Some(a)
  }

  function Advance(cfg: Config, t: Tables, k: Run, o: Outcome): (turn: Turn)
    requires InRange(t, k)
    ensures turn.next.Go? ==> InRange(turn.tables, turn.next.run)
    ensures turn.next.Go? ==> turn.next.run.payment == k.payment && turn.next.run.request == k.request
    ensures |turn.tables.payments| == |t.payments| && |turn.tables.orders| == |t.orders|
  {
    var failed := Turn(t, Stop(Error(500)));
    match k.at
    case Opening => if o.Fault? then failed else Open(t, k)
    case Totalling =>
      if o.Fault? then failed
      else
        var amount, total := t.payments[k.payment].amount, TotalRefunded(t.refunds, k.payment);
        var decided := Guard(amount, total, k.request.asked);
        if decided.None? then Turn(t, Stop(Error(if total >= amount then 409 else 400)))
        else Turn(t, Go(k.(at := Retrieving(decided.value, total))))
    case Retrieving(asked, total) =>
      // the gateway answers with its payment's status
      if !o.Issued? then failed
      else if o.gatewayStatus != "succeeded" then Turn(t, Stop(Error(400)))
      else Turn(t, Go(k.(at := Paying(asked, total))))
    case Paying(asked, total) =>
      if !o.Issued? then failed
      else
        var payment := t.payments[k.payment];
        var status := MapStatus(o.gatewayStatus);
        var ask := AskOf(payment, k.payment, k.request, asked);
        var after := Answer(t.gateway, ask, payment.amount, o.gatewayRefundId, status);
        if after.None? then failed
        else
          Turn(t.(gateway := after.value),
               Go(k.(at := Saving(asked, total, o.gatewayRefundId, status, 0))))
    case Saving(asked, total, gatewayRefundId, status, retries) =>
      if o.NumberTaken? && retries + 1 < MAX_RETRIES
      then Turn(t, Go(k.(at := Saving(asked, total, gatewayRefundId, status, retries + 1))))
      else if !o.Inserted? || !Fresh(t.refunds, o.id, gatewayRefundId) then failed
      else
        var row := Refund(o.id, gatewayRefundId, k.payment, HalfUp(asked), status);
        var saved := t.(refunds := t.refunds + [row]);
        if status != RefundSucceeded then Turn(saved, Stop(Created(|t.refunds|)))
        else
          var isFull := total as real + asked >= t.payments[k.payment].amount as real;
          Turn(saved, Go(k.(at := Moving(|t.refunds|, isFull))))
    case Moving(r, isFull) =>
      var status, target := t.payments[k.payment].status, Goal(isFull);
      if o.Fault? then failed
      else if status == target then Turn(t, AfterMove(cfg, k, r, isFull))
      else if !CanTransition(status, target) then Turn(t, Stop(Error(400)))
      else
        var moved := t.(payments := WithStatus(t.payments, k.payment, target));
        Turn(moved, if OrderWrite(target).Some? then Go(k.(at := Syncing(r, isFull))) else AfterMove(cfg, k, r, isFull))
    case Syncing(r, isFull) =>
      if o.Fault? then failed
      else Turn(t.(orders := WithOrderStatus(t.orders, k.payment, Image(Goal(isFull)))), AfterMove(cfg, k, r, isFull))
    case Seeking(r, isFull) =>
      if o.Fault? then failed
      else if Has(t.ledger, DebitRef(t.payments[k.payment], t.refunds[r])) then Turn(t, Stop(Created(r)))
      else Turn(t, Go(k.(at := Debiting(r, isFull))))
    case Debiting(r, isFull) =>
      var e := DebitEntry(t.payments, k.payment, t.refunds[r], !isFull);
      if o.Fault? then failed
      else if Has(t.ledger, e.ref) then Turn(t, Go(k.(at := Rereading(r))))
      else Turn(t.(ledger := t.ledger + [e]), Stop(Created(r)))
    case Rereading(r) => if o.Fault? then failed else Turn(t, Stop(Created(r)))
  }

  function AfterMove(cfg: Config, k: Run, r: nat, isFull: bool): Next {
    if cfg.ledgerEnabled then Go(k.(at := Seeking(r, isFull))) else Stop(Created(r))
  }

  function Start(payment: nat, request: Request): Run {
    Run(payment, request, Opening)
  }

  datatype Ended = Ended(tables: Tables, result: Option<Result>)

  /** One call, alone, with one scripted outcome per awaited operation. */
  function RunCall(cfg: Config, t: Tables, k: Run, script: seq<Outcome>): (e: Ended)
    requires InRange(t, k)
    ensures |e.tables.orders| == |e.tables.payments| == |t.payments|
    decreases |script|
  {
    if script == [] then Ended(t, None)
    else
      var turn := Advance(cfg, t, k, script[0]);
      match turn.next
      case Stop(r) => Ended(turn.tables, Some(r))
      case Go(k') => RunCall(cfg, turn.tables, k', script[1..])
  }
}
