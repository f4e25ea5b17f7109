/** The tables of the money path, and the operations several actors share. Rows are named by their
    position; `orders[p]` is the order created together with `payments[p]`. */
module Store {
  import opened Domain
  import opened StateMachine
  import opened Ledger

  datatype Payment = Payment(
    id: string, gateway: Gateway, paymentIntentId: Option<string>, gatewayOrderId: Option<string>,
    gatewayPaymentId: Option<string>, amount: nat, status: PaymentStatus)

  datatype Order = Order(number: string, status: OrderStatus)

  datatype Refund = Refund(id: string, gatewayRefundId: string, payment: nat, amount: nat, status: RefundStatus)

  /** A stored gateway event; `reference` and `paymentStatus` are what the worker reads in the payload,
      `nextRetry` the milliseconds from the last recorded failure to the next attempt. */
  datatype Event = Event(
    gateway: Gateway, eventId: string, eventType: string, reference: string, paymentStatus: string,
    status: EventStatus, attempts: nat, nextRetry: Option<nat>)

  /** The key a refund request carries to the gateway: the client's own, or one derived from the
      payment intent, the decimal amount and the reason. */
  datatype Key = Given(text: string) | Derived(paymentIntentId: string, amount: real, reason: Option<string>)

  /** A refund request as the gateway sees it: the key, the amount if one is given, the number drawn for
      the refund, which travels as metadata, and the reason. */
  datatype Ask = Ask(key: Key, payment: nat, payload: Option<nat>, number: string, reason: Option<string>)

  /** The gateway's own record of a refund: the request, the identifier and status it answered, and the
      amount it set aside for it. */
  datatype GatewayRefund = GatewayRefund(ask: Ask, id: string, status: RefundStatus, paid: nat)

  /** `invoices` holds the orders that have an invoice row, `published` those whose row has its file;
      `gateway` is the gateway's side. */
  datatype Tables = Tables(
    payments: seq<Payment>, orders: seq<Order>, events: seq<Event>, refunds: seq<Refund>,
    ledger: seq<Entry>, invoices: set<nat>, published: set<nat>, gateway: seq<GatewayRefund>)

  // ---------------------------------------------------------------- single-row writes

  function WithStatus(payments: seq<Payment>, p: nat, status: PaymentStatus): seq<Payment>
    requires p < |payments|
  {
    payments[p := payments[p].(status := status)]
  }

  function WithOrderStatus(orders: seq<Order>, p: nat, status: OrderStatus): seq<Order>
    requires p < |orders|
  {
    orders[p := orders[p].(status := status)]
  }

  function WithEventStatus(events: seq<Event>, row: nat, status: EventStatus): seq<Event>
    requires row < |events|
  {
    events[row := events[row].(status := status)]
  }

  /** An event with the bookkeeping of another: status, attempts and next retry. */
  function Rebooked(e: Event, books: Event): Event {
    e.(status := books.status, attempts := books.attempts, nextRetry := books.nextRetry)
  }

  // ---------------------------------------------------------------- ledger entries

  /** The identifier in a credit's reference: the event, or failing that the gateway's payment id, or
      the payment's own id. */
  function CreditKey(eventId: string, payment: Payment): string {
    if eventId != "" then eventId
    else if payment.gatewayPaymentId.Some? && payment.gatewayPaymentId.value != ""
    then payment.gatewayPaymentId.value
    else payment.id
  }

  function CreditRef(eventId: string, payment: Payment): Ref {
    Ref(payment.gateway, CreditKey(eventId, payment), PaymentKind)
  }

  function CreditEntry(eventId: string, payments: seq<Payment>, p: nat): Entry
    requires p < |payments|
  {
    Entry(CreditRef(eventId, payments[p]), p, None, PaymentEntry, Credit, payments[p].amount)
  }

  function DebitRef(payment: Payment, refund: Refund): Ref {
    Ref(payment.gateway, refund.id, RefundKind)
  }

  function DebitEntry(payments: seq<Payment>, p: nat, refund: Refund, isPartial: bool): Entry
    requires p < |payments|
  {
    Entry(DebitRef(payments[p], refund), p, Some(refund.id),
          if isPartial then PartialRefundEntry else RefundEntry, Debit, refund.amount)
  }

  // ---------------------------------------------------------------- refund totals

  /** The SUCCEEDED refunds of a payment, added up. */
  function TotalRefunded(refunds: seq<Refund>, p: nat): nat {
    if refunds == [] then 0
    else
      var last := refunds[|refunds| - 1];
      TotalRefunded(refunds[..|refunds| - 1], p)
      + (if last.payment == p && last.status == RefundSucceeded then last.amount else 0)
  }

  lemma TotalRefundedAppend(refunds: seq<Refund>, r: Refund, p: nat)
    ensures TotalRefunded(refunds + [r], p)
            == TotalRefunded(refunds, p)
               + (if r.payment == p && r.status == RefundSucceeded then r.amount else 0)
  {
  }

  // ---------------------------------------------------------------- finding an event's payment

  predicate Matches(t: Tables, e: Event, p: nat) {
    && p < |t.payments| && p < |t.orders|
    && match e.gateway
       case Stripe => t.payments[p].paymentIntentId == Some(e.reference)
       case Cashfree => t.payments[p].gatewayOrderId == Some(e.reference) || t.orders[p].number == e.reference
  }

  function FirstMatch(t: Tables, e: Event, from: nat): (found: Option<nat>)
    ensures found.Some? ==> Matches(t, e, found.value)
    ensures found.None? ==> forall p :: from <= p ==> !Matches(t, e, p)
    decreases |t.payments| - from
  {
    if from >= |t.payments| then None
    else if Matches(t, e, from) then Some(from)
    else FirstMatch(t, e, from + 1)
  }

  /** A row that matches, any of them when there are several, and none only when there is none. */
  function Lookup(t: Tables, e: Event, hint: nat): (found: Option<nat>)
    ensures found.Some? ==> Matches(t, e, found.value)
    ensures found.None? ==> forall p :: !Matches(t, e, p)
    ensures Matches(t, e, hint) ==> found == Some(hint)
  {
    if Matches(t, e, hint) then Some(hint) else FirstMatch(t, e, 0)
  }

  // ---------------------------------------------------------------- scripted calls

  /** How a call that awaits several operations ended under a script: its process died because the
      script ran out, an operation threw, the transition was refused, or it returned. `left` is the
      unused part of the script. */
  datatype Ending = Died | Threw | Refused | Returned

  datatype Call = Call(tables: Tables, left: seq<Outcome>, ending: Ending)

  /** `transition`: read and write the payment row as one operation, then write the order row. */
  function Transit(t: Tables, p: nat, target: PaymentStatus, script: seq<Outcome>): (c: Call)
    requires p < |t.payments| == |t.orders|
    ensures |c.left| <= |script|
    ensures |c.tables.payments| == |t.payments| == |c.tables.orders|
  {
    if script == [] then Call(t, [], Died)
    else
      var left := script[1..];
      var status := t.payments[p].status;
      if script[0].Fault? then Call(t, left, Threw)
      else if status == target then Call(t, left, Returned)
      else if !CanTransition(status, target) then Call(t, left, Refused)
      else
        var t1 := t.(payments := WithStatus(t.payments, p, target));
        if OrderWrite(target).None? then Call(t1, left, Returned)
        else if left == [] then Call(t1, [], Died)
        else if left[0].Fault? then Call(t1, left[1..], Threw)
        else
          Call(t1.(orders := WithOrderStatus(t1.orders, p, OrderWrite(target).value)), left[1..], Returned)
  }

  /** The find-then-insert of `recordPaymentCredit` and `recordRefundDebit`. In a single call the
      insert never clashes, because nobody else writes between the two operations. */
  function Record(t: Tables, e: Entry, script: seq<Outcome>): (c: Call)
    ensures |c.left| <= |script|
  {
    if script == [] then Call(t, [], Died)
    else
      var left := script[1..];
      if script[0].Fault? then Call(t, left, Threw)
      else if Has(t.ledger, e.ref) then Call(t, left, Returned)
      else if left == [] then Call(t, [], Died)
      else if left[0].Fault? then Call(t, left[1..], Threw)
      else Call(t.(ledger := t.ledger + [e]), left[1..], Returned)
  }
}
