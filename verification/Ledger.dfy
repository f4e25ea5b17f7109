/** The append-only ledger (src/services/ledger.service.js, src/repositories/ledger.repository.js):
    references, entries, and the balance of a payment. */
module Ledger {
  import opened Domain

  datatype RefKind = PaymentKind | RefundKind

  /** The three parts of an idempotency reference. */
  datatype Ref = Ref(gateway: Gateway, identifier: string, kind: RefKind)

  datatype EntryType = PaymentEntry | RefundEntry | PartialRefundEntry

  datatype Direction = Credit | Debit

  /** A ledger row; `payment` is the row of the payment it belongs to, amounts are whole paise. */
  datatype Entry = Entry(ref: Ref, payment: nat, refund: Option<string>, entryType: EntryType,
                         direction: Direction, amount: nat)

  // ---------------------------------------------------------------- reference text

  function GatewayName(g: Gateway): string {
    match g case Stripe => "STRIPE" case Cashfree => "CASHFREE"
  }

  function KindName(k: RefKind): string {
    match k case PaymentKind => "PAYMENT" case RefundKind => "REFUND"
  }

  /** The text under the unique constraint. */
  function RefText(r: Ref): string {
    GatewayName(r.gateway) + ":" + r.identifier + ":" + KindName(r.kind)
  }

  /** Different references never share a text, even when an identifier itself contains colons:
      the unique constraint on the text is a unique constraint on (gateway, identifier, kind). */
  lemma RefTextInjective(a: Ref, b: Ref)
    ensures RefText(a) == RefText(b) <==> a == b
  {
    if RefText(a) == RefText(b) {
      var s, t := RefText(a), RefText(b);
      assert s[0] == GatewayName(a.gateway)[0] && t[0] == GatewayName(b.gateway)[0];
      assert a.gateway == b.gateway;
      assert s[|s| - 1] == (if a.kind == PaymentKind then 'T' else 'D');
      assert t[|t| - 1] == (if b.kind == PaymentKind then 'T' else 'D');
      assert a.kind == b.kind;
      var from, to := |GatewayName(a.gateway)| + 1, |s| - |KindName(a.kind)| - 1;
      assert a.identifier == s[from..to] && b.identifier == t[from..to];
    }
  }

  // ---------------------------------------------------------------- contents

  /** The entry stored under a reference, if there is one. */
  function Find(ledger: seq<Entry>, ref: Ref): (found: Option<Entry>)
    ensures found.Some? <==> exists i :: 0 <= i < |ledger| && ledger[i].ref == ref
    ensures found.Some? ==> found.value in ledger && found.value.ref == ref
  {
    if ledger == [] then None
    else if ledger[0].ref == ref then Some(ledger[0])
    else
      assert forall i :: 1 <= i < |ledger| ==> ledger[1..][i - 1] == ledger[i];
      Find(ledger[1..], ref)
  }

  predicate Has(ledger: seq<Entry>, ref: Ref) {
    exists i :: 0 <= i < |ledger| && ledger[i].ref == ref
  }

  /** No reference is used twice. */
  predicate UniqueRefs(ledger: seq<Entry>) {
    forall i, j :: 0 <= i < j < |ledger| ==> ledger[i].ref != ledger[j].ref
  }

  /** The sum of one payment's entries in one direction. */
  function Sum(ledger: seq<Entry>, payment: nat, direction: Direction): nat {
    if ledger == [] then 0
    else
      var last := ledger[|ledger| - 1];
      Sum(ledger[..|ledger| - 1], payment, direction)
      + (if last.payment == payment && last.direction == direction then last.amount else 0)
  }

  lemma SumAppend(ledger: seq<Entry>, e: Entry, payment: nat, direction: Direction)
    ensures Sum(ledger + [e], payment, direction)
            == Sum(ledger, payment, direction)
               + (if e.payment == payment && e.direction == direction then e.amount else 0)
  {
  }

  lemma UniqueAppend(ledger: seq<Entry>, e: Entry)
    requires UniqueRefs(ledger) && !Has(ledger, e.ref)
    ensures UniqueRefs(ledger + [e])
  {
  }

  /** With unique references the stored entry of a reference is the only one. */
  lemma FindUnique(ledger: seq<Entry>, e: Entry)
    requires UniqueRefs(ledger) && e in ledger
    ensures Find(ledger, e.ref) == Some(e)
  {
  }

  // ---------------------------------------------------------------- balance

  /** The rows a payment's query returns, oldest first. */
  function EntriesOf(ledger: seq<Entry>, payment: nat): (rows: seq<Entry>) {
    if ledger == [] then []
    else
      var last := ledger[|ledger| - 1];
      EntriesOf(ledger[..|ledger| - 1], payment) + (if last.payment == payment then [last] else [])
  }

  lemma {:induction false} EntriesKeepSums(ledger: seq<Entry>, payment: nat, direction: Direction)
    ensures Sum(EntriesOf(ledger, payment), payment, direction) == Sum(ledger, payment, direction)
  {
    if ledger != [] {
      var last := ledger[|ledger| - 1];
      var front := EntriesOf(ledger[..|ledger| - 1], payment);
      EntriesKeepSums(ledger[..|ledger| - 1], payment, direction);
      SumAppend(front, last, payment, direction);
      assert front + [] == front;
    }
  }

  lemma {:induction false} EntriesBelong(ledger: seq<Entry>, payment: nat)
    ensures forall e :: e in EntriesOf(ledger, payment) <==> e in ledger && e.payment == payment
  {
    if ledger != [] {
      EntriesBelong(ledger[..|ledger| - 1], payment);
      assert ledger == ledger[..|ledger| - 1] + [ledger[|ledger| - 1]];
    }
  }

  datatype Balance = Balance(totalCredits: int, totalDebits: int, netSettled: int,
                             remainingRefundable: int, entries: seq<Entry>)

  /** `getPaymentBalance`: one pass over the payment's rows. */
  method GetPaymentBalance(ledger: seq<Entry>, payment: nat) returns (b: Balance)
    ensures b.totalCredits == Sum(ledger, payment, Credit)
    ensures b.totalDebits == Sum(ledger, payment, Debit)
    ensures b.netSettled == b.remainingRefundable == b.totalCredits - b.totalDebits
    ensures forall e :: e in b.entries <==> e in ledger && e.payment == payment
    ensures Sum(b.entries, payment, Credit) - Sum(b.entries, payment, Debit) == b.netSettled
  {
    var entries := EntriesOf(ledger, payment);
    EntriesBelong(ledger, payment);
    var credits, debits := 0, 0;
    for i := 0 to |entries|
      invariant credits == Sum(entries[..i], payment, Credit)
      invariant debits == Sum(entries[..i], payment, Debit)
    {
      assert entries[..i + 1] == entries[..i] + [entries[i]];
      SumAppend(entries[..i], entries[i], payment, Credit);
      SumAppend(entries[..i], entries[i], payment, Debit);
      assert entries[i].payment == payment by { assert entries[i] in entries; }
      if entries[i].direction == Credit {
        credits := credits + entries[i].amount;
      } else if entries[i].direction == Debit {
        debits := debits + entries[i].amount;
      }
    }
    assert entries[..|entries|] == entries;
    EntriesKeepSums(ledger, payment, Credit);
    EntriesKeepSums(ledger, payment, Debit);
    b := Balance(credits, debits, credits - debits, credits - debits, entries);
  }
}
