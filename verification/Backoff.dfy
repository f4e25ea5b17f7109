/** The delay before the next attempt (src/workers/webhook.worker.js). */
module Backoff {

  /** Half an hour in milliseconds. */
  const CAP: nat := 1_800_000

  function Pow2(n: nat): nat {
    if n == 0 then 1 else 2 * Pow2(n - 1)
  }

  /** The delay recorded after the n-th attempt failed, n from 1. */
  function Delay(base: nat, n: nat): nat
    requires n > 0
  {
    var grown := base * Pow2(n - 1);
    if grown < CAP then grown else CAP
  }

  lemma {:induction false} Pow2Positive(n: nat)
    ensures Pow2(n) >= 1
  {
    if n > 0 { Pow2Positive(n - 1); }
  }

  lemma Doubling(base: nat, p: nat)
    ensures base * (2 * p) == 2 * (base * p)
  {
  }

  /** Each delay is double the one before or the cap, and stays at the cap once there. */
  lemma DelayDoubles(base: nat, n: nat)
    requires n > 0
    ensures Delay(base, n + 1) == (if 2 * Delay(base, n) < CAP then 2 * Delay(base, n) else CAP)
    ensures Delay(base, n) <= Delay(base, n + 1) <= CAP
    ensures base > 0 ==> 0 < Delay(base, n)
  {
    Doubling(base, Pow2(n - 1));
    Pow2Positive(n - 1);
    if base > 0 { Positive(base, Pow2(n - 1)); }
  }

  lemma Positive(a: nat, b: nat)
    requires a > 0 && b > 0
    ensures a * b > 0
  {
  }

  /** `base * (2^n - 1)`. */
  function Geometric(base: nat, n: nat): nat {
    if n == 0 then 0 else Geometric(base, n - 1) + base * Pow2(n - 1)
  }

  lemma {:induction false} GeometricSum(base: nat, n: nat)
    ensures Geometric(base, n) == base * (Pow2(n) - 1)
  {
    if n > 0 {
      GeometricSum(base, n - 1);
      Spread(base, Pow2(n - 1));
    }
  }

  lemma Spread(base: nat, p: nat)
    ensures base * (p - 1) + base * p == base * (2 * p - 1)
  {
  }
}
