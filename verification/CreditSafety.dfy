/** Conservation of credits over every interleaving of workers, crashes, redeliveries and replays. */
module CreditSafety {
  import opened Domain
  import opened Ledger
  import opened Store
  import opened System
  import opened Shape
  import R = Refunds
  import W = Worker

  /** The credit references in the ledger that were credited to payment `p`. */
  ghost function CreditsOf(credited: map<Ref, nat>, p: nat): set<Ref> {
    set ref | ref in credited && credited[ref] == p
  }

  /** `amount` added `n` times. */
  function Times(amount: nat, n: nat): nat {
    if n == 0 then 0 else amount + Times(amount, n - 1)
  }

  lemma TimesIsProduct(amount: nat, n: nat)
    ensures Times(amount, n) == amount * n
  {
  }

  ghost predicate CreditLaw(payments: seq<Payment>, ledger: seq<Entry>, credited: map<Ref, nat>) {
    forall p :: 0 <= p < |payments| ==>
      Sum(ledger, p, Credit) == Times(payments[p].amount, |CreditsOf(credited, p)|)
  }

  ghost predicate EntryForms(payments: seq<Payment>, ledger: seq<Entry>, credited: map<Ref, nat>) {
    && UniqueRefs(ledger)
    && (forall i :: 0 <= i < |ledger| ==> (ledger[i].direction == Credit <==> ledger[i].ref.kind == PaymentKind))
    && (forall i :: 0 <= i < |ledger| && ledger[i].direction == Credit ==>
          && ledger[i].payment < |payments| && ledger[i].amount == payments[ledger[i].payment].amount
          && ledger[i].ref in credited && credited[ledger[i].ref] == ledger[i].payment)
    && (forall ref :: ref in credited ==> Has(ledger, ref) && ref.kind == PaymentKind)
  }

  ghost predicate Credits(s: State) {
    && EntryForms(s.tables.payments, s.tables.ledger, s.history.credited)
    && CreditLaw(s.tables.payments, s.tables.ledger, s.history.credited)
  }

  lemma CountCredit(credited: map<Ref, nat>, ref: Ref, p: nat, q: nat)
    requires ref !in credited
    ensures |CreditsOf(credited[ref := p], q)| == |CreditsOf(credited, q)| + (if p == q then 1 else 0)
  {
    var after := credited[ref := p];
    if p == q {
      assert CreditsOf(after, q) == CreditsOf(credited, q) + {ref};
    } else {
      assert CreditsOf(after, q) == CreditsOf(credited, q);
    }
  }

  lemma CreditAppended(payments: seq<Payment>, ledger: seq<Entry>, credited: map<Ref, nat>, e: Entry)
    requires EntryForms(payments, ledger, credited) && CreditLaw(payments, ledger, credited)
    requires e.payment < |payments| && e.direction == Credit && e.ref.kind == PaymentKind
    requires e.amount == payments[e.payment].amount && !Has(ledger, e.ref)
    ensures e.ref !in credited
    ensures EntryForms(payments, ledger + [e], credited[e.ref := e.payment])
    ensures CreditLaw(payments, ledger + [e], credited[e.ref := e.payment])
  {
    var credited', ledger' := credited[e.ref := e.payment], ledger + [e];
    UniqueAppend(ledger, e);
    forall ref | ref in credited' ensures Has(ledger', ref) {
      if ref == e.ref {
        assert ledger'[|ledger|].ref == ref;
      } else {
        var i :| 0 <= i < |ledger| && ledger[i].ref == ref;
        assert ledger'[i].ref == ref;
      }
    }
    forall p | 0 <= p < |payments|
      ensures Sum(ledger', p, Credit) == Times(payments[p].amount, |CreditsOf(credited', p)|)
    {
      SumAppend(ledger, e, p, Credit);
      CountCredit(credited, e.ref, e.payment, p);
    }
  }

  lemma DebitAppended(payments: seq<Payment>, ledger: seq<Entry>, credited: map<Ref, nat>, e: Entry)
    requires EntryForms(payments, ledger, credited) && CreditLaw(payments, ledger, credited)
    requires e.direction == Debit && e.ref.kind == RefundKind && !Has(ledger, e.ref)
    ensures EntryForms(payments, ledger + [e], credited) && CreditLaw(payments, ledger + [e], credited)
  {
    var ledger' := ledger + [e];
    UniqueAppend(ledger, e);
    forall ref | ref in credited ensures Has(ledger', ref) {
      var i :| 0 <= i < |ledger| && ledger[i].ref == ref;
      assert ledger'[i].ref == ref;
    }
    forall p | 0 <= p < |payments|
      ensures Sum(ledger', p, Credit) == Times(payments[p].amount, |CreditsOf(credited, p)|)
    {
      SumAppend(ledger, e, p, Credit);
    }
  }

  /** The law looks at nothing in a payment but its amount. */
  lemma SameAmounts(payments: seq<Payment>, payments': seq<Payment>, ledger: seq<Entry>, credited: map<Ref, nat>)
    requires EntryForms(payments, ledger, credited) && CreditLaw(payments, ledger, credited)
    requires |payments'| == |payments|
    requires forall p :: 0 <= p < |payments| ==> payments'[p].amount == payments[p].amount
    ensures EntryForms(payments', ledger, credited) && CreditLaw(payments', ledger, credited)
  {
  }

  /** Every reference of a credit in the ledger has been credited. */
  ghost predicate NoneMissing(ledger: seq<Entry>, credited: map<Ref, nat>) {
    forall ref :: Has(ledger, ref) && ref.kind == PaymentKind ==> ref in credited
  }

  /** A worker's step leaves ledger and history as they are, as far as credits are concerned, but for the
      insert that does not clash. */
  ghost predicate CreditEffect(t: Tables, k: W.Run, o: Outcome, h: History, t': Tables, h': History)
    requires W.InRange(t, k)
  {
    if k.at.Crediting? && !o.Fault? && !Has(t.ledger, CreditRef(t.events[k.row].eventId, t.payments[k.at.payment])) then
      var e := CreditEntry(t.events[k.row].eventId, t.payments, k.at.payment);
      && t'.payments == t.payments && t'.ledger == t.ledger + [e]
      && (e.ref !in h.credited ==> h'.credited == h.credited[e.ref := e.payment])
    else
      t'.ledger == t.ledger && (NoneMissing(t.ledger, h.credited) ==> h'.credited == h.credited)
  }

  lemma CreditingEffect(cfg: Config, t: Tables, k: W.Run, o: Outcome, h: History)
    requires W.InRange(t, k) && |h.held| == |h.changes| == |t.payments| && (k.at.Seeking? || k.at.Crediting?)
    ensures
      var t' := W.Advance(cfg, t, k, o).tables;
      CreditEffect(t, k, o, h, t', AfterWorker(h, t, k, o, t'))
  {
    assert CreditRef(t.events[k.row].eventId, t.payments[k.at.payment]).kind == PaymentKind;
  }

  lemma OtherEffect(cfg: Config, t: Tables, k: W.Run, o: Outcome, h: History)
    requires W.InRange(t, k) && |h.held| == |h.changes| == |t.payments| && !k.at.Seeking? && !k.at.Crediting?
    ensures
      var t' := W.Advance(cfg, t, k, o).tables;
      CreditEffect(t, k, o, h, t', AfterWorker(h, t, k, o, t'))
  {
  }

  lemma FormsMissNone(payments: seq<Payment>, ledger: seq<Entry>, credited: map<Ref, nat>)
    requires EntryForms(payments, ledger, credited)
    ensures NoneMissing(ledger, credited)
  {
    forall ref | Has(ledger, ref) && ref.kind == PaymentKind ensures ref in credited {
      var i :| 0 <= i < |ledger| && ledger[i].ref == ref;
      assert ledger[i].direction == Credit;
    }
  }

  lemma EffectKeeps(t: Tables, k: W.Run, o: Outcome, h: History, t': Tables, h': History)
    requires W.InRange(t, k)
    requires EntryForms(t.payments, t.ledger, h.credited) && CreditLaw(t.payments, t.ledger, h.credited)
    requires CreditEffect(t, k, o, h, t', h')
    requires |t'.payments| == |t.payments|
    requires forall p :: 0 <= p < |t.payments| ==> t'.payments[p].amount == t.payments[p].amount
    ensures EntryForms(t'.payments, t'.ledger, h'.credited) && CreditLaw(t'.payments, t'.ledger, h'.credited)
  {
    if t'.ledger != t.ledger {
      CreditAppended(t.payments, t.ledger, h.credited, CreditEntry(t.events[k.row].eventId, t.payments, k.at.payment));
    } else {
      FormsMissNone(t.payments, t.ledger, h.credited);
      SameAmounts(t.payments, t'.payments, t.ledger, h.credited);
    }
  }

  lemma WorkerCredits(s: State, w: nat, o: Outcome)
    requires Shaped(s) && Credits(s) && w in s.workers
    ensures Credits(WorkerStep(s, w, o))
  {
    var k, t, s' := s.workers[w], s.tables, WorkerStep(s, w, o);
    WorkerGrows(s.cfg, t, k, o);
    if k.at.Seeking? || k.at.Crediting? {
      CreditingEffect(s.cfg, t, k, o, s.history);
    } else {
      OtherEffect(s.cfg, t, k, o, s.history);
    }
    EffectKeeps(t, k, o, s.history, s'.tables, s'.history);
  }

  /** What a refund call appends, if anything. */
  lemma RefundEntry(cfg: Config, t: Tables, k: R.Run, o: Outcome)
    requires R.InRange(t, k)
    ensures
      var t' := R.Advance(cfg, t, k, o).tables;
      t'.ledger == t.ledger
      || (&& k.at.Debiting? && t'.payments == t.payments
          && (var e := DebitEntry(t.payments, k.payment, t.refunds[k.at.refund], !k.at.isFull);
              t'.ledger == t.ledger + [e] && !Has(t.ledger, e.ref)))
  {
  }

  lemma RefundCredited(s: State, p: nat, o: Outcome)
    requires Aligned(s) && p in s.calls && R.InRange(s.tables, s.calls[p])
    ensures RefundStep(s, p, o).history.credited == s.history.credited
  {
  }

  lemma RefundCredits(s: State, p: nat, o: Outcome)
    requires Shaped(s) && Credits(s) && p in s.calls
    ensures Credits(RefundStep(s, p, o))
  {
    var k, t, t' := s.calls[p], s.tables, RefundStep(s, p, o).tables;
    RefundCredited(s, p, o);
    RefundEntry(s.cfg, t, k, o);
    if t'.ledger != t.ledger {
      var e := DebitEntry(t.payments, k.payment, t.refunds[k.at.refund], !k.at.isFull);
      DebitAppended(t.payments, t.ledger, s.history.credited, e);
    } else {
      RefundGrows(s.cfg, t, k, o);
      SameAmounts(t.payments, t'.payments, t.ledger, s.history.credited);
    }
  }

  lemma {:induction false} NoEntries(ledger: seq<Entry>, p: nat, d: Direction)
    requires forall i :: 0 <= i < |ledger| ==> ledger[i].payment != p
    ensures Sum(ledger, p, d) == 0
    decreases |ledger|
  {
    if ledger != [] { NoEntries(ledger[..|ledger| - 1], p, d); }
  }

  lemma CreationCredits(s: State, payment: Payment, orderNumber: string)
    requires Shaped(s) && Credits(s)
    ensures Credits(PaymentCreated(s, payment, orderNumber))
  {
    var n := |s.tables.payments|;
    NoEntries(s.tables.ledger, n, Credit);
    assert CreditsOf(s.history.credited, n) == {};
  }

  lemma SidelineCredits(s: State, s': State)
    requires Credits(s) && Sideline(s, s')
    ensures Credits(s')
  {
  }
}
