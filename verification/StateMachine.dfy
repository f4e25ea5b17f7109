/** The payment lifecycle table (src/services/paymentStateMachine.js) and what it implies for
    every possible history of a payment. */
module StateMachine {
  import opened Domain

  function AllowedTransitions(status: PaymentStatus): seq<PaymentStatus> {
    match status
    case Pending => [Success, Failed]
    case Success => [PartiallyRefunded, Refunded]
    case PartiallyRefunded => [PartiallyRefunded, Refunded]
    case Failed => []
    case Refunded => []
  }

  predicate CanTransition(current: PaymentStatus, target: PaymentStatus) {
    current == target || target in AllowedTransitions(current)
  }

  /** The order status a transition writes; a partial refund writes none. */
  function OrderWrite(target: PaymentStatus): Option<OrderStatus> {
    match target
    case Success => Some(OrderPaid)
    case Failed => Some(OrderFailed)
    case Refunded => Some(OrderCancelled)
    case _ => None
  }

  /** The order status that belongs to a payment status. */
  function Image(status: PaymentStatus): OrderStatus {
    match status
    case Pending => OrderPending
    case Success => OrderPaid
    case PartiallyRefunded => OrderPaid
    case Failed => OrderFailed
    case Refunded => OrderCancelled
  }

  /** Money was received: the payment was confirmed at some time. */
  predicate Settled(status: PaymentStatus) {
    status == Success || status == PartiallyRefunded || status == Refunded
  }

  function Rank(status: PaymentStatus): nat {
    match status
    case Pending => 0
    case Success => 1
    case PartiallyRefunded => 2
    case Failed => 3
    case Refunded => 3
  }

  /** A history: every status is reached from the one before it by a real, permitted change. */
  predicate History(h: seq<PaymentStatus>) {
    forall i :: 0 < i < |h| ==> h[i - 1] != h[i] && CanTransition(h[i - 1], h[i])
  }

  /** Each real change raises the rank, so a payment changes status at most three times,
      a settled payment stays settled, and nothing follows a terminal status. */
  lemma {:induction false} HistoryIsShort(h: seq<PaymentStatus>)
    requires History(h) && |h| > 0
    ensures |h| - 1 <= Rank(h[|h| - 1]) - Rank(h[0])
    ensures |h| <= 4
    ensures Settled(h[0]) ==> forall i :: 0 <= i < |h| ==> Settled(h[i])
    ensures forall i :: 0 <= i < |h| - 1 ==> h[i] != Failed && h[i] != Refunded
    decreases |h|
  {
    if |h| > 1 {
      var front := h[..|h| - 1];
      HistoryIsShort(front);
      assert h[|h| - 2] != h[|h| - 1] && CanTransition(h[|h| - 2], h[|h| - 1]);
      forall i | 0 <= i < |h| - 1 ensures h[i] == front[i] {}
    }
  }

  /** One of two statuses can be reached from the other by permitted changes. */
  ghost predicate Reachable(from: PaymentStatus, to: PaymentStatus) {
    exists h: seq<PaymentStatus> :: History(h) && |h| > 0 && h[0] == from && h[|h| - 1] == to
  }

  lemma ShowReachable(h: seq<PaymentStatus>)
    requires History(h) && |h| > 0
    ensures Reachable(h[0], h[|h| - 1])
  {
  }

  /** Reachability, decided exactly: everything is reachable from a fresh payment, a settled payment
      only climbs among the settled statuses, and a failed payment is final. */
  lemma ReachableExactly(from: PaymentStatus, to: PaymentStatus)
    ensures Reachable(from, to) <==>
            (from == to || from == Pending || (Settled(from) && Settled(to) && Rank(from) < Rank(to)))
  {
    if Reachable(from, to) {
      var h: seq<PaymentStatus> :| History(h) && |h| > 0 && h[0] == from && h[|h| - 1] == to;
      HistoryIsShort(h);
    }
    if from == to {
      ShowReachable([from]);
    } else if CanTransition(from, to) {
      ShowReachable([from, to]);
    } else if from == Pending {
      ShowReachable([Pending, Success, to]);
    }
  }

  /** `transition` reads the status and writes it later, without a lock. When two calls both read
      `from` before either writes, both pass the check against `from` and the second write lands on
      the first one's result. Exactly when that leaves an illegal history: a confirmation and a
      failure notice for a fresh payment, or a partial refund written over a full one. */
  lemma OverlappedWritesExactly(from: PaymentStatus, first: PaymentStatus, second: PaymentStatus)
    requires first != from && CanTransition(from, first)
    requires second != from && CanTransition(from, second)
    ensures !CanTransition(first, second) <==>
            || (from == Pending && first != second)
            || (from == Success && first == Refunded && second == PartiallyRefunded)
    ensures History([from, first, second]) <==>
            from == Success && first == PartiallyRefunded && second == Refunded
  {
    var h := [from, first, second];
    assert h[0] == from && h[1] == first && h[2] == second;
    if History(h) {
      assert h[2 - 1] != h[2] && CanTransition(h[2 - 1], h[2]);
    }
  }
}
