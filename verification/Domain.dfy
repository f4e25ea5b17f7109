/** The vocabulary shared by every part of the payment backend model. */
module Domain {

  datatype Option<+T> = None | Some(value: T)

  datatype Gateway = Stripe | Cashfree

  datatype PaymentStatus = Pending | Success | Failed | PartiallyRefunded | Refunded

  datatype OrderStatus = OrderPending | OrderPaid | OrderFailed | OrderCancelled

  datatype RefundStatus = RefundPending | RefundSucceeded | RefundFailed | RefundCanceled

  datatype EventStatus = Received | Processing | Processed | Retrying | DeadLetter

  /** The part of the environment the money path reads. */
  datatype Config = Config(maxAttempts: nat, backoffMs: nat, ledgerEnabled: bool)

  /** What one awaited operation answers.

      `Fine(hint)` is success; a query without an ordering that several rows satisfy may return
      any of them, and `hint` is the row the database happens to return first.
      `Issued` is the gateway's answer to a refund request, `Inserted` the identifier the
      database gives a new row, `NumberTaken` a clash on a generated number. */
  datatype Outcome =
    | Fault
    | Fine(hint: nat)
    | Issued(gatewayRefundId: string, gatewayStatus: string)
    | Inserted(id: string)
    | NumberTaken

  function LowerChar(c: char): char {
    if 'A' <= c <= 'Z' then (c as int - 'A' as int + 'a' as int) as char else c
  }

  function Lower(s: string): string {
    seq(|s|, i requires 0 <= i < |s| => LowerChar(s[i]))
  }

  function UpperChar(c: char): char {
    if 'a' <= c <= 'z' then (c as int - 'a' as int + 'A' as int) as char else c
  }

  function Upper(s: string): string {
    seq(|s|, i requires 0 <= i < |s| => UpperChar(s[i]))
  }
}
