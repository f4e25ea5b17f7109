/** Payment creation (src/services/payment.service.js): the gateway is asked first, then order and payment
    are inserted in one transaction, and if that fails the gateway's payment is cancelled. */
module Saga {
  import opened Domain
  import opened Rounding
  import opened Text

  /** An amount in rupees and the number of digits its text shows after the point. */
  datatype Amount = Amount(value: real, places: nat)

  datatype Request = Request(user: string, amount: Option<Amount>, currency: Option<string>, gateway: Option<string>)

  /** The identifiers of a gateway's answer, as the mapper hands them on. */
  datatype Answer = Answer(paymentIntentId: Option<string>, gatewayOrderId: Option<string>,
                           gatewayPaymentId: Option<string>)

  /** The gateway's own record. Its endpoints know the payment as `endpoint`. */
  datatype Remote = Remote(gateway: Gateway, endpoint: string, answer: Answer, amount: nat, currency: string,
                           user: string, live: bool)

  datatype OrderRow = OrderRow(orderNumber: string, amount: nat, currency: string, user: string)

  datatype PaymentRow = PaymentRow(gateway: Gateway, answer: Answer, amount: nat, currency: string, user: string,
                                   order: nat)

  /** What the call behind a gateway payment did: the payment row it saved, the identifier it sent to be
      cancelled, and whether it was cut off, its process dying or the gateway's answer being lost. */
  datatype Deed = Deed(saved: Option<nat>, cancelled: Option<string>, cut: bool)

  datatype World = World(orders: seq<OrderRow>, payments: seq<PaymentRow>, remotes: seq<Remote>, deeds: seq<Deed>)

  /** What the environment does to one call. A lost answer or an unheard commit took effect all the same. */
  datatype Reply = Refuses | Accepts(id: string, sessionId: string, lost: bool)

  datatype Commit = Commits | CommitsUnheard | RollsBack

  datatype Env = Env(userExists: bool, orderNumber: string, reply: Reply, diesBeforeSaving: bool, commit: Commit,
                     diesBeforeCancel: bool, cancelReached: bool)

  datatype Result = Created(payment: nat) | Error(code: nat) | NoAnswer

  const CURRENCY := "INR"

  /** Paise that no longer fit the column. */
  const TOO_MUCH := 1_000_000_000_000

  // ---------------------------------------------------------------- the checks

  datatype Checked = Bad(code: nat) | Fit(amount: real, gateway: Gateway)

  function CurrencyOf(given: Option<string>): string {
    Upper(Trim(if given.None? || given.value == "" then CURRENCY else given.value))
  }

  function GatewayNamed(given: Option<string>): Option<Gateway> {
    var name := Upper(Trim(if given.None? then "STRIPE" else given.value));
    if name == "STRIPE" then Some(Stripe) else if name == "CASHFREE" then Some(Cashfree) else None
  }

  function Check(req: Request, userExists: bool): (c: Checked)
    ensures c.Fit? ==> c.amount > 0.0 && req.amount.Some? && c.amount == req.amount.value.value
  {
    if req.amount.None? || req.amount.value.value <= 0.0 then Bad(400)
    else if req.amount.value.places > 2 then Bad(400)
    else if CurrencyOf(req.currency) != CURRENCY then Bad(400)
    else if !userExists then Bad(404)
    else
      match GatewayNamed(req.gateway)
      case None => Bad(400)
      case Some(g) => Fit(req.amount.value.value, g)
  }

  // ---------------------------------------------------------------- the gateways

  function Paise(amount: real): nat
    requires amount > 0.0
  {
    HalfUp(amount * 100.0)
  }

  function AnswerOf(g: Gateway, id: string, sessionId: string, orderNumber: string): Answer {
    match g
    case Stripe => Answer(Some(id), None, Some(id))
    case Cashfree =>
      Answer(None, Some(if id != "" then id else orderNumber), if sessionId != "" then Some(sessionId) else None)
  }

  /** Stripe knows its payments by the identifier it gave; Cashfree knows orders by our order number. */
  function EndpointOf(g: Gateway, id: string, orderNumber: string): string {
    match g case Stripe => id case Cashfree => orderNumber
  }

  /** Stripe is sent amount times a hundred as it is and takes only whole paise; Cashfree is sent the
      amount rounded to two decimals. Neither uses an identifier twice. */
  function Opened(w: World, req: Request, g: Gateway, amount: real, env: Env): (r: Option<Remote>)
    requires amount > 0.0
    ensures r.Some? ==> r.value.live && r.value.amount == Paise(amount) && r.value.gateway == g
    ensures r.Some? ==> r.value.answer.gatewayPaymentId.Some? || r.value.answer.gatewayOrderId.Some?
    ensures r.Some? ==> forall i :: 0 <= i < |w.remotes| ==>
              !(w.remotes[i].gateway == g && w.remotes[i].endpoint == r.value.endpoint)
  {
    if env.reply.Refuses? then None
    else
      var endpoint := EndpointOf(g, env.reply.id, env.orderNumber);
      if endpoint == "" || Paise(amount) == 0 || (g == Stripe && !Whole(amount * 100.0))
         || exists i :: 0 <= i < |w.remotes| && w.remotes[i].gateway == g && w.remotes[i].endpoint == endpoint
      then None
      else
        Some(Remote(g, endpoint, AnswerOf(g, env.reply.id, env.reply.sessionId, env.orderNumber), Paise(amount),
                    CURRENCY, req.user, true))
  }

  /** The identifier the compensation sends. */
  function CleanupId(a: Answer): Option<string> {
    if a.gatewayPaymentId.Some? && a.gatewayPaymentId.value != "" then a.gatewayPaymentId
    else if a.gatewayOrderId.Some? && a.gatewayOrderId.value != "" then a.gatewayOrderId
    else None
  }

  /** A cancellation ends the payment its gateway knows under the identifier, if there is one. */
  function Cancelled(remotes: seq<Remote>, g: Gateway, id: string): (after: seq<Remote>)
    ensures |after| == |remotes|
    ensures forall i :: 0 <= i < |remotes| ==>
              after[i] == if remotes[i].gateway == g && remotes[i].endpoint == id
                          then remotes[i].(live := false) else remotes[i]
  {
    seq(|remotes|, i requires 0 <= i < |remotes| =>
      if remotes[i].gateway == g && remotes[i].endpoint == id then remotes[i].(live := false) else remotes[i])
  }

  // ---------------------------------------------------------------- the transaction

  /** The constraints of the two tables. */
  predicate Fits(w: World, orderNumber: string, remote: Remote) {
    && remote.amount < TOO_MUCH
    && (forall i :: 0 <= i < |w.orders| ==> w.orders[i].orderNumber != orderNumber)
    && (remote.answer.paymentIntentId.Some? ==>
          forall i :: 0 <= i < |w.payments| ==> w.payments[i].answer.paymentIntentId != remote.answer.paymentIntentId)
  }

  /** Both rows. */
  function Saved(w: World, orderNumber: string, amount: real, user: string, g: Gateway, answer: Answer): World
    requires amount > 0.0
  {
    w.(orders := w.orders + [OrderRow(orderNumber, Paise(amount), CURRENCY, user)],
       payments := w.payments + [PaymentRow(g, answer, Paise(amount), CURRENCY, user, |w.orders|)])
  }

  function WithDeed(w: World, deed: Deed): World
    requires |w.deeds| > 0
  {
    w.(deeds := w.deeds[|w.deeds| - 1 := deed])
  }

  /** The compensation, after the transaction failed or seemed to. */
  function Compensate(w: World, g: Gateway, answer: Answer, saved: Option<nat>, env: Env): (World, Result)
    requires |w.deeds| > 0
  {
    if env.diesBeforeCancel then (WithDeed(w, Deed(saved, None, true)), NoAnswer)
    else
      match CleanupId(answer)
      case None => (WithDeed(w, Deed(saved, None, false)), Error(500))
      case Some(id) =>
        var after := if env.cancelReached then w.(remotes := Cancelled(w.remotes, g, id)) else w;
        (WithDeed(after, Deed(saved, Some(id), false)), Error(500))
  }

  /** One call. */
  function Create(w: World, req: Request, env: Env): (World, Result) {
    match Check(req, env.userExists)
    case Bad(code) => (w, Error(code))
    case Fit(amount, g) =>
      match Opened(w, req, g, amount, env)
      case None => (w, Error(502))
      case Some(remote) =>
        var w1 := w.(remotes := w.remotes + [remote], deeds := w.deeds + [Deed(None, None, true)]);
        if env.reply.lost then (w1, Error(502))
        else if env.diesBeforeSaving then (w1, NoAnswer)
        else if env.commit.RollsBack? || !Fits(w, env.orderNumber, remote)
        then Compensate(w1, g, remote.answer, None, env)
        else
          var w2 := Saved(w1, env.orderNumber, amount, req.user, g, remote.answer);
          if env.commit.Commits? then (WithDeed(w2, Deed(Some(|w.payments|), None, false)), Created(|w.payments|))
          else Compensate(w2, g, remote.answer, Some(|w.payments|), env)
  }

  datatype Call = Call(request: Request, env: Env)

  function RunCalls(w: World, calls: seq<Call>): World
    decreases |calls|
  {
    if calls == [] then w else RunCalls(Create(w, calls[0].request, calls[0].env).0, calls[1..])
  }

  function Start(): World {
    World([], [], [], [])
  }

  // ---------------------------------------------------------------- what every sequence of calls keeps

  /** Payment row `p` and its order hold what the gateway was told. */
  predicate Pairs(w: World, p: nat, remote: Remote) {
    && p < |w.payments| == |w.orders|
    && var row, order := w.payments[p], w.orders[p];
    && row.order == p
    && row.gateway == remote.gateway && row.answer == remote.answer
    && row.amount == order.amount == remote.amount
    && row.currency == order.currency == remote.currency
    && row.user == order.user == remote.user
  }

  /** A gateway payment's call saved the payment row `p`. */
  predicate Owned(w: World, p: nat) {
    exists r :: 0 <= r < |w.deeds| && w.deeds[r].saved == Some(p)
  }

  lemma OwnedStays(w: World, w': World)
    requires |w.deeds| <= |w'.deeds|
    requires forall r :: 0 <= r < |w.deeds| && w.deeds[r].saved.Some? ==> w'.deeds[r].saved == w.deeds[r].saved
    ensures forall p: nat :: Owned(w, p) ==> Owned(w', p)
  {
  }

  /** The rows: each pair belongs to one gateway payment, and a saved payment has its pair. */
  ghost predicate RowsSound(w: World) {
    && |w.orders| == |w.payments| && |w.remotes| == |w.deeds|
    && (forall r :: 0 <= r < |w.deeds| ==> w.deeds[r].saved.Some? ==> Pairs(w, w.deeds[r].saved.value, w.remotes[r]))
    && (forall p :: 0 <= p < |w.payments| ==> Owned(w, p))
    && (forall q, r :: 0 <= q < r < |w.deeds| && w.deeds[q].saved.Some? ==> w.deeds[q].saved != w.deeds[r].saved)
  }

  /** The gateways: no identifier twice, every payment saved, cancelled or cut off, none ended unasked. */
  ghost predicate DeedsSound(w: World) {
    && |w.remotes| == |w.deeds|
    && (forall q, r :: 0 <= q < r < |w.remotes| ==>
          !(w.remotes[q].gateway == w.remotes[r].gateway && w.remotes[q].endpoint == w.remotes[r].endpoint))
    && (forall r :: 0 <= r < |w.deeds| ==> w.deeds[r].saved.Some? || w.deeds[r].cancelled.Some? || w.deeds[r].cut)
    && (forall r :: 0 <= r < |w.deeds| ==> !(w.deeds[r].saved.None? && w.deeds[r].cancelled.Some? && w.deeds[r].cut))
    && (forall r :: 0 <= r < |w.remotes| && !w.remotes[r].live ==> Asked(w, r))
  }

  ghost predicate Sound(w: World) {
    RowsSound(w) && DeedsSound(w)
  }

  /** Some call asked for the cancellation of this gateway payment. */
  predicate Asked(w: World, r: nat)
    requires r < |w.remotes| == |w.deeds|
  {
    exists q :: 0 <= q < |w.deeds| && w.deeds[q].cancelled == Some(w.remotes[r].endpoint)
                && w.remotes[q].gateway == w.remotes[r].gateway
  }

  /** The gateway has opened a payment and nothing else has happened yet. */
  ghost predicate JustOpened(w: World) {
    Sound(w) && |w.deeds| > 0 && w.deeds[|w.deeds| - 1] == Deed(None, None, true)
  }

  lemma OpenedSound(w: World, remote: Remote)
    requires Sound(w) && remote.live
    requires forall i :: 0 <= i < |w.remotes| ==>
               !(w.remotes[i].gateway == remote.gateway && w.remotes[i].endpoint == remote.endpoint)
    ensures JustOpened(w.(remotes := w.remotes + [remote], deeds := w.deeds + [Deed(None, None, true)]))
  {
    var w' := w.(remotes := w.remotes + [remote], deeds := w.deeds + [Deed(None, None, true)]);
    OwnedStays(w, w');
    forall r | 0 <= r < |w'.remotes| && !w'.remotes[r].live ensures Asked(w', r) {
      assert Asked(w, r);
      var q :| 0 <= q < |w.deeds| && w.deeds[q].cancelled == Some(w.remotes[r].endpoint)
               && w.remotes[q].gateway == w.remotes[r].gateway;
      assert w'.deeds[q].cancelled == Some(w'.remotes[r].endpoint);
    }
  }

  lemma DeedSound(w: World, deed: Deed)
    requires JustOpened(w)
    requires deed.saved.None? && (deed.cancelled.None? <==> deed.cut)
    ensures Sound(WithDeed(w, deed))
  {
    var w' := WithDeed(w, deed);
    OwnedStays(w, w');
    AskedStays(w, w');
  }

  lemma AskedStays(w: World, w': World)
    requires |w.remotes| == |w.deeds| == |w'.deeds| && w'.remotes == w.remotes
    requires forall r :: 0 <= r < |w.deeds| && w.deeds[r].cancelled.Some? ==>
               w'.deeds[r].cancelled == w.deeds[r].cancelled
    ensures forall r :: 0 <= r < |w.remotes| && Asked(w, r) ==> Asked(w', r)
  {
  }

  lemma PairStays(w: World, w': World, p: nat, remote: Remote)
    requires Pairs(w, p, remote) && w.orders <= w'.orders && w.payments <= w'.payments && |w'.orders| == |w'.payments|
    ensures Pairs(w', p, remote) && p < |w.payments|
  {
  }

  lemma SavedRows(w: World, orderNumber: string, amount: real, deed: Deed)
    requires RowsSound(w) && |w.deeds| > 0 && w.deeds[|w.deeds| - 1].saved.None? && amount > 0.0
    requires
      var remote := w.remotes[|w.remotes| - 1];
      remote.amount == Paise(amount) && remote.currency == CURRENCY
    requires deed.saved == Some(|w.payments|)
    ensures
      var remote := w.remotes[|w.remotes| - 1];
      RowsSound(WithDeed(Saved(w, orderNumber, amount, remote.user, remote.gateway, remote.answer), deed))
  {
    var remote, last := w.remotes[|w.remotes| - 1], |w.deeds| - 1;
    var w' := WithDeed(Saved(w, orderNumber, amount, remote.user, remote.gateway, remote.answer), deed);
    forall r | 0 <= r < last && w'.deeds[r].saved.Some?
      ensures Pairs(w', w'.deeds[r].saved.value, w'.remotes[r]) && w'.deeds[r].saved.value < |w.payments|
    {
      PairStays(w, w', w.deeds[r].saved.value, w.remotes[r]);
    }
    OwnedStays(w, w');
    assert w'.deeds[last].saved == Some(|w.payments|);
  }

  lemma SavedSound(w: World, orderNumber: string, amount: real, deed: Deed)
    requires JustOpened(w) && amount > 0.0
    requires
      var remote := w.remotes[|w.remotes| - 1];
      remote.amount == Paise(amount) && remote.currency == CURRENCY
    requires deed.saved == Some(|w.payments|)
    ensures
      var remote := w.remotes[|w.remotes| - 1];
      Sound(WithDeed(Saved(w, orderNumber, amount, remote.user, remote.gateway, remote.answer), deed))
  {
    var remote := w.remotes[|w.remotes| - 1];
    var w' := WithDeed(Saved(w, orderNumber, amount, remote.user, remote.gateway, remote.answer), deed);
    SavedRows(w, orderNumber, amount, deed);
    AskedStays(w, w');
  }

  lemma CancelledSound(w: World, g: Gateway, id: string, q: nat)
    requires Sound(w) && q < |w.deeds| && w.deeds[q].cancelled == Some(id) && w.remotes[q].gateway == g
    ensures Sound(w.(remotes := Cancelled(w.remotes, g, id)))
  {
    var w' := w.(remotes := Cancelled(w.remotes, g, id));
    OwnedStays(w, w');
    forall r | 0 <= r < |w'.deeds| && w'.deeds[r].saved.Some?
      ensures Pairs(w', w'.deeds[r].saved.value, w'.remotes[r])
    {
      assert Pairs(w, w.deeds[r].saved.value, w.remotes[r]);
    }
    forall r | 0 <= r < |w'.remotes| && !w'.remotes[r].live ensures Asked(w', r) {
      if w.remotes[r].live {
        assert w'.deeds[q].cancelled == Some(w'.remotes[r].endpoint);
      } else {
        assert Asked(w, r);
        var q' :| 0 <= q' < |w.deeds| && w.deeds[q'].cancelled == Some(w.remotes[r].endpoint)
                  && w.remotes[q'].gateway == w.remotes[r].gateway;
        assert w'.deeds[q'].cancelled == Some(w'.remotes[r].endpoint);
      }
    }
  }

  /** A compensation is a deed and, if it goes that far, a cancellation. */
  lemma CompensatedIs(w: World, g: Gateway, answer: Answer, saved: Option<nat>, env: Env)
    requires |w.deeds| > 0
    ensures
      var id := CleanupId(answer);
      var w' := WithDeed(w, if env.diesBeforeCancel then Deed(saved, None, true) else Deed(saved, id, false));
      Compensate(w, g, answer, saved, env).0
      == if !env.diesBeforeCancel && id.Some? && env.cancelReached
         then w'.(remotes := Cancelled(w'.remotes, g, id.value)) else w'
  {
  }

  /** The compensation after nothing was saved. */
  lemma CompensateSound(w: World, env: Env)
    requires JustOpened(w)
    requires var a := w.remotes[|w.remotes| - 1].answer; CleanupId(a).Some?
    ensures
      var remote := w.remotes[|w.remotes| - 1];
      Sound(Compensate(w, remote.gateway, remote.answer, None, env).0)
  {
    var remote := w.remotes[|w.remotes| - 1];
    var id := CleanupId(remote.answer);
    var deed := if env.diesBeforeCancel then Deed(None, None, true) else Deed(None, id, false);
    DeedSound(w, deed);
    CompensatedIs(w, remote.gateway, remote.answer, None, env);
    if !env.diesBeforeCancel && env.cancelReached {
      CancelledSound(WithDeed(w, deed), remote.gateway, id.value, |w.deeds| - 1);
    }
  }

  lemma CompensateSavedSound(w: World, orderNumber: string, amount: real, env: Env)
    requires JustOpened(w) && amount > 0.0
    requires
      var remote := w.remotes[|w.remotes| - 1];
      remote.amount == Paise(amount) && remote.currency == CURRENCY
    ensures
      var remote := w.remotes[|w.remotes| - 1];
      var w2 := Saved(w, orderNumber, amount, remote.user, remote.gateway, remote.answer);
      Sound(Compensate(w2, remote.gateway, remote.answer, Some(|w.payments|), env).0)
  {
    var remote := w.remotes[|w.remotes| - 1];
    var w2 := Saved(w, orderNumber, amount, remote.user, remote.gateway, remote.answer);
    var id, saved := CleanupId(remote.answer), Some(|w.payments|);
    var deed := if env.diesBeforeCancel then Deed(saved, None, true) else Deed(saved, id, false);
    SavedSound(w, orderNumber, amount, deed);
    CompensatedIs(w2, remote.gateway, remote.answer, saved, env);
    if !env.diesBeforeCancel && id.Some? && env.cancelReached {
      CancelledSound(WithDeed(w2, deed), remote.gateway, id.value, |w.deeds| - 1);
    }
  }

  lemma HasCleanupId(w: World, req: Request, g: Gateway, amount: real, env: Env)
    requires amount > 0.0 && Opened(w, req, g, amount, env).Some?
    ensures CleanupId(Opened(w, req, g, amount, env).value.answer).Some?
  {
  }

  lemma CreateSound(w: World, req: Request, env: Env)
    requires Sound(w)
    ensures Sound(Create(w, req, env).0)
  {
    var checked := Check(req, env.userExists);
    if checked.Fit? && Opened(w, req, checked.gateway, checked.amount, env).Some? {
      var amount := checked.amount;
      var remote := Opened(w, req, checked.gateway, amount, env).value;
      HasCleanupId(w, req, checked.gateway, amount, env);
      OpenedSound(w, remote);
      var w1 := w.(remotes := w.remotes + [remote], deeds := w.deeds + [Deed(None, None, true)]);
      assert w1.remotes[|w.remotes|] == remote;
      if !env.reply.lost && !env.diesBeforeSaving {
        if env.commit.RollsBack? || !Fits(w, env.orderNumber, remote) {
          CompensateSound(w1, env);
        } else if env.commit.Commits? {
          SavedSound(w1, env.orderNumber, amount, Deed(Some(|w.payments|), None, false));
        } else {
          CompensateSavedSound(w1, env.orderNumber, amount, env);
        }
      }
    }
  }

  lemma {:induction false} RunSound(w: World, calls: seq<Call>)
    requires Sound(w)
    ensures Sound(RunCalls(w, calls))
    decreases |calls|
  {
    if calls != [] {
      CreateSound(w, calls[0].request, calls[0].env);
      RunSound(Create(w, calls[0].request, calls[0].env).0, calls[1..]);
    }
  }

  /** Over any sequence of calls, with failures and deaths anywhere: no order is without its payment, nor
      a payment without its order; every pair belongs to one gateway payment, which no other pair belongs
      to, of the same gateway, identifiers, amount, currency and user; and a gateway payment that is still
      live has such a pair, or its cancellation was sent and did not succeed, or its call was cut off
      after the gateway had acted. A payment is never cancelled unless some call asked for it. */
  lemma EveryPaymentAccountedFor(calls: seq<Call>)
    ensures
      var w := RunCalls(Start(), calls);
      && |w.orders| == |w.payments| && |w.remotes| == |w.deeds|
      && (forall p :: 0 <= p < |w.payments| ==>
            w.payments[p].order == p && Owned(w, p))
      && (forall q, r :: 0 <= q < r < |w.deeds| && w.deeds[q].saved.Some? ==> w.deeds[q].saved != w.deeds[r].saved)
      && (forall r :: 0 <= r < |w.remotes| && w.remotes[r].live ==>
            if w.deeds[r].saved.Some? then Pairs(w, w.deeds[r].saved.value, w.remotes[r])
            else w.deeds[r].cancelled.None? <==> w.deeds[r].cut)
      && (forall r :: 0 <= r < |w.remotes| && !w.remotes[r].live ==> Asked(w, r))
  {
    RunSound(Start(), calls);
    var w := RunCalls(Start(), calls);
    forall p | 0 <= p < |w.payments|
      ensures w.payments[p].order == p && Owned(w, p)
    {
      assert Owned(w, p);
      var r :| 0 <= r < |w.deeds| && w.deeds[r].saved == Some(p);
      assert Pairs(w, p, w.remotes[r]);
    }
  }

  // ---------------------------------------------------------------- when the compensation works

  /** The call opens a payment at the gateway, hears of it, saves nothing and lives to send the
      cancellation, and the gateway carries it out. */
  predicate Compensates(w: World, req: Request, env: Env) {
    var checked := Check(req, env.userExists);
    && checked.Fit?
    && var remote := Opened(w, req, checked.gateway, checked.amount, env);
    && remote.Some? && !env.reply.lost && !env.diesBeforeSaving
    && (env.commit.RollsBack? || !Fits(w, env.orderNumber, remote.value))
    && !env.diesBeforeCancel && env.cancelReached
  }

  /** A compensation that is carried out cancels the payment it is for exactly when the identifier it sends
      is the one the gateway knows the payment by. At Stripe that is always so. At Cashfree it sends the
      payment session, when there is one, to an endpoint that takes our order number, or else the number
      Cashfree gave: the order stays live unless the two happen to be equal. */
  lemma CompensationWorksExactly(w: World, req: Request, env: Env)
    requires |w.remotes| == |w.deeds| && Compensates(w, req, env)
    ensures
      var w' := Create(w, req, env).0;
      && |w'.remotes| == |w.remotes| + 1 && w'.orders == w.orders && w'.payments == w.payments
      && var g := w'.remotes[|w.remotes|].gateway;
      && (g == Stripe ==> !w'.remotes[|w.remotes|].live)
      && (g == Cashfree ==>
            (!w'.remotes[|w.remotes|].live <==>
              env.orderNumber == (if env.reply.sessionId != "" then env.reply.sessionId
                                  else if env.reply.id != "" then env.reply.id else env.orderNumber)))
  {
  }

  /** Every Cashfree answer of these calls carries a session, and no session reads like an order number. */
  predicate Sessioned(calls: seq<Call>, numbers: set<string>) {
    forall k :: 0 <= k < |calls| ==>
      && calls[k].env.orderNumber in numbers
      && (calls[k].env.reply.Accepts? ==>
            calls[k].env.reply.sessionId != "" && calls[k].env.reply.sessionId !in numbers)
  }

  ghost predicate SessionsKept(w: World, numbers: set<string>) {
    && |w.remotes| == |w.deeds|
    && (forall r :: 0 <= r < |w.remotes| && w.remotes[r].gateway == Cashfree ==>
          && w.remotes[r].endpoint in numbers
          && w.remotes[r].answer.gatewayPaymentId.Some? && w.remotes[r].answer.gatewayPaymentId.value != ""
          && w.remotes[r].answer.gatewayPaymentId.value !in numbers)
    && (forall r :: 0 <= r < |w.deeds| && w.deeds[r].cancelled.Some? ==>
          w.deeds[r].cancelled == CleanupId(w.remotes[r].answer))
  }

  lemma CompensateAdds(w: World, g: Gateway, answer: Answer, saved: Option<nat>, env: Env)
    requires |w.remotes| == |w.deeds| > 0
    ensures
      var w', n := Compensate(w, g, answer, saved, env).0, |w.deeds| - 1;
      && |w'.remotes| == |w'.deeds| == n + 1
      && (forall r :: 0 <= r < n + 1 ==> w'.remotes[r] == w.remotes[r].(live := w'.remotes[r].live))
      && (forall r :: 0 <= r < n ==> w'.deeds[r] == w.deeds[r])
      && (w'.deeds[n].cancelled.Some? ==> w'.deeds[n].cancelled == CleanupId(answer))
  {
  }

  /** What one call adds to the gateway payments and to the deeds. */
  ghost predicate Adds(w: World, w': World, env: Env)
    requires |w.remotes| == |w.deeds|
  {
    var n := |w.remotes|;
    && n <= |w'.remotes| == |w'.deeds| <= n + 1
    && (forall r :: 0 <= r < n ==>
          w'.deeds[r] == w.deeds[r] && w'.remotes[r] == w.remotes[r].(live := w'.remotes[r].live))
    && (|w'.remotes| == n + 1 ==>
          var last, deed := w'.remotes[n], w'.deeds[n];
          && env.reply.Accepts?
          && last.endpoint == EndpointOf(last.gateway, env.reply.id, env.orderNumber)
          && last.answer == AnswerOf(last.gateway, env.reply.id, env.reply.sessionId, env.orderNumber)
          && (deed.cancelled.Some? ==> deed.cancelled == CleanupId(last.answer)))
  }

  /** Whatever follows the opening of a payment, as long as it only saves and compensates. */
  lemma OpenedAdds(w: World, remote: Remote, w1: World, w': World, env: Env)
    requires |w.remotes| == |w.deeds| && env.reply.Accepts?
    requires remote.endpoint == EndpointOf(remote.gateway, env.reply.id, env.orderNumber)
    requires remote.answer == AnswerOf(remote.gateway, env.reply.id, env.reply.sessionId, env.orderNumber)
    requires w1.remotes == w.remotes + [remote] && |w1.deeds| == |w1.remotes| && w1.deeds[..|w.deeds|] == w.deeds
    requires |w'.remotes| == |w'.deeds| == |w1.remotes|
    requires forall r :: 0 <= r < |w1.remotes| ==> w'.remotes[r] == w1.remotes[r].(live := w'.remotes[r].live)
    requires forall r :: 0 <= r < |w.remotes| ==> w'.deeds[r] == w1.deeds[r]
    requires var deed := w'.deeds[|w.deeds|]; deed.cancelled.Some? ==> deed.cancelled == CleanupId(remote.answer)
    ensures Adds(w, w', env)
  {
    assert forall r :: 0 <= r < |w.remotes| ==> w1.remotes[r] == w.remotes[r] && w1.deeds[r] == w.deeds[r];
    assert w1.remotes[|w.remotes|] == remote;
  }

  lemma CreateAdds(w: World, req: Request, env: Env)
    requires |w.remotes| == |w.deeds|
    ensures Adds(w, Create(w, req, env).0, env)
  {
    var checked := Check(req, env.userExists);
    if checked.Fit? && Opened(w, req, checked.gateway, checked.amount, env).Some? {
      var amount, g := checked.amount, checked.gateway;
      var remote := Opened(w, req, g, amount, env).value;
      var w1 := w.(remotes := w.remotes + [remote], deeds := w.deeds + [Deed(None, None, true)]);
      assert w1.deeds[..|w.deeds|] == w.deeds;
      CompensateAdds(w1, g, remote.answer, None, env);
      var w2 := Saved(w1, env.orderNumber, amount, req.user, g, remote.answer);
      CompensateAdds(w2, g, remote.answer, Some(|w.payments|), env);
      OpenedAdds(w, remote, w1, Create(w, req, env).0, env);
    }
  }

  /** One more gateway payment, or none, the others as before but for being live. */
  lemma SessionsCarry(w: World, w': World, env: Env, numbers: set<string>)
    requires SessionsKept(w, numbers) && env.orderNumber in numbers
    requires env.reply.Accepts? ==> env.reply.sessionId != "" && env.reply.sessionId !in numbers
    requires |w.remotes| <= |w'.remotes| == |w'.deeds| <= |w.remotes| + 1
    requires forall r :: 0 <= r < |w.remotes| ==>
               w'.deeds[r] == w.deeds[r] && w'.remotes[r].gateway == w.remotes[r].gateway
               && w'.remotes[r].endpoint == w.remotes[r].endpoint && w'.remotes[r].answer == w.remotes[r].answer
    requires |w'.remotes| == |w.remotes| + 1 ==>
               var last, deed := w'.remotes[|w.remotes|], w'.deeds[|w.remotes|];
               && env.reply.Accepts?
               && last.endpoint == EndpointOf(last.gateway, env.reply.id, env.orderNumber)
               && last.answer == AnswerOf(last.gateway, env.reply.id, env.reply.sessionId, env.orderNumber)
               && (deed.cancelled.Some? ==> deed.cancelled == CleanupId(last.answer))
    ensures SessionsKept(w', numbers)
  {
  }

  lemma SessionsKeptStep(w: World, req: Request, env: Env, numbers: set<string>)
    requires SessionsKept(w, numbers) && Sessioned([Call(req, env)], numbers)
    ensures SessionsKept(Create(w, req, env).0, numbers)
  {
    assert [Call(req, env)][0].env == env;
    CreateAdds(w, req, env);
    SessionsCarry(w, Create(w, req, env).0, env, numbers);
  }

  lemma {:induction false} SessionsKeptRun(w: World, calls: seq<Call>, numbers: set<string>)
    requires SessionsKept(w, numbers) && Sessioned(calls, numbers)
    ensures SessionsKept(RunCalls(w, calls), numbers)
    decreases |calls|
  {
    if calls != [] {
      assert Sessioned([calls[0]], numbers);
      SessionsKeptStep(w, calls[0].request, calls[0].env, numbers);
      SessionsKeptRun(Create(w, calls[0].request, calls[0].env).0, calls[1..], numbers);
    }
  }

  /** So over any sequence of calls in which Cashfree answers with sessions, as it does, no Cashfree order
      is ever cancelled by a compensation, however many are sent and reach it. */
  lemma CashfreeNeverCancelled(calls: seq<Call>, numbers: set<string>)
    requires Sessioned(calls, numbers)
    ensures
      var w := RunCalls(Start(), calls);
      forall r :: 0 <= r < |w.remotes| && w.remotes[r].gateway == Cashfree ==> w.remotes[r].live
  {
    RunSound(Start(), calls);
    SessionsKeptRun(Start(), calls, numbers);
    var w := RunCalls(Start(), calls);
    forall r | 0 <= r < |w.remotes| && w.remotes[r].gateway == Cashfree ensures w.remotes[r].live {
      assert !w.remotes[r].live ==> Asked(w, r);
    }
  }

  // ---------------------------------------------------------------- refused calls

  /** The checks made before the gateway is asked. */
  predicate Refused(c: Call) {
    var req := c.request;
    || req.amount.None? || req.amount.value.value <= 0.0 || req.amount.value.places > 2
    || CurrencyOf(req.currency) != CURRENCY || !c.env.userExists || GatewayNamed(req.gateway).None?
  }

  function Admitted(calls: seq<Call>): seq<Call> {
    if calls == [] then []
    else (if Refused(calls[0]) then [] else [calls[0]]) + Admitted(calls[1..])
  }

  /** Refused calls leave no trace: any sequence of calls does to the gateways and the tables what it does
      with the refused ones left out. */
  lemma {:induction false} RefusalsInvisible(w: World, calls: seq<Call>)
    ensures RunCalls(w, calls) == RunCalls(w, Admitted(calls))
    decreases |calls|
  {
    if calls != [] {
      var c, w' := calls[0], Create(w, calls[0].request, calls[0].env).0;
      RefusalsInvisible(w', calls[1..]);
      if Refused(c) {
        assert w' == w && Admitted(calls) == Admitted(calls[1..]);
      } else {
        assert Admitted(calls) == [c] + Admitted(calls[1..]);
        assert Admitted(calls)[1..] == Admitted(calls[1..]);
      }
    }
  }
}
