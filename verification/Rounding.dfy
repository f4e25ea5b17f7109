/** Decimal amounts in paise. A request may carry more than two decimals; the gateway is sent, and the
    refund row stores, the nearest whole paise, halves upward. */
module Rounding {
  import opened Domain

  function HalfUp(x: real): int {
    (x + 0.5).Floor
  }

  predicate Whole(x: real) {
    x.Floor as real == x
  }

  /** The rounded value is the one whole number nearest from the half-up side. */
  lemma HalfUpExactly(x: real, n: int)
    ensures HalfUp(x) == n <==> n as real - 0.5 <= x < n as real + 0.5
  {
  }

  lemma HalfUpMonotone(x: real, y: real)
    requires x <= y
    ensures HalfUp(x) <= HalfUp(y)
  {
  }

  lemma HalfUpOfInt(n: int)
    ensures HalfUp(n as real) == n
  {
  }

  lemma HalfUpWhole(x: real)
    ensures HalfUp(x) as real == x <==> Whole(x)
  {
    if Whole(x) {
      HalfUpOfInt(x.Floor);
    }
  }

  /** The amount in the gateway request: none at all when the whole payment is refunded. */
  function Payload(asked: real, paymentAmount: nat): Option<nat>
    requires asked > 0.0
  {
    if asked == paymentAmount as real then None else Some(HalfUp(asked))
  }

  /** For every positive amount within the remaining balance, less what SUCCEEDED before: the whole-paise
      amount does not exceed the balance; an amount sent to the gateway is the one the row stores; the
      amount is left out exactly when the whole payment is asked for, and then nothing SUCCEEDED before
      and the row stores all of it; and rounding moves the amount by at most half a paisa and not at all
      when it is whole. */
  lemma RefundRounding(asked: real, paymentAmount: nat, refunded: nat)
    requires 0.0 < asked <= paymentAmount as real - refunded as real
    ensures HalfUp(asked) <= paymentAmount - refunded
    ensures Payload(asked, paymentAmount).Some? ==> Payload(asked, paymentAmount).value == HalfUp(asked)
    ensures Payload(asked, paymentAmount).None? <==> asked == paymentAmount as real
    ensures Payload(asked, paymentAmount).None? ==> refunded == 0 && HalfUp(asked) == paymentAmount
    ensures asked - 0.5 < HalfUp(asked) as real <= asked + 0.5
    ensures HalfUp(asked) as real == asked <==> Whole(asked)
  {
    HalfUpMonotone(asked, (paymentAmount - refunded) as real);
    HalfUpOfInt(paymentAmount - refunded);
    HalfUpOfInt(paymentAmount);
    HalfUpWhole(asked);
    HalfUpExactly(asked, HalfUp(asked));
  }

  /** Rounding can swallow a request, and can complete a payment the exact sum says is not complete.
      Exactly when: below half a paisa, and within half a paisa of the balance. */
  lemma RoundingEdges(asked: real, remaining: nat)
    requires 0.0 < asked <= remaining as real
    ensures HalfUp(asked) == 0 <==> asked < 0.5
    ensures HalfUp(asked) == remaining <==> asked >= remaining as real - 0.5
  {
  }
}
