/** Payment creation as the program runs it: the two tables and the gateways' records are changed step by
    step, proved against `Saga.Create`. */
module PaymentServices {
  import opened Domain
  import opened Saga

  class PaymentService {
    var orders: seq<OrderRow>
    var payments: seq<PaymentRow>
    var remotes: seq<Remote>
    ghost var deeds: seq<Deed>

    constructor ()
      ensures Contents() == Start()
    {
      orders, payments, remotes, deeds := [], [], [], [];
    }

    ghost function Contents(): World
      reads this
    {
      World(orders, payments, remotes, deeds)
    }

    /** The gateway opens a payment or refuses. */
    method OpenRemote(req: Request, g: Gateway, amount: real, env: Env) returns (remote: Option<Remote>)
      requires amount > 0.0
      modifies this`remotes, this`deeds
      ensures remote == Opened(old(Contents()), req, g, amount, env)
      ensures remotes == if remote.Some? then old(remotes) + [remote.value] else old(remotes)
      ensures deeds == if remote.Some? then old(deeds) + [Deed(None, None, true)] else old(deeds)
    {
      remote := Opened(World(orders, payments, remotes, []), req, g, amount, env);
      if remote.Some? {
        remotes := remotes + [remote.value];
        deeds := deeds + [Deed(None, None, true)];
      }
    }

    /** The transaction: both rows or neither. */
    method SaveBoth(orderNumber: string, amount: real, user: string, remote: Remote, commit: Commit)
      returns (saved: Option<nat>)
      requires amount > 0.0
      modifies this`orders, this`payments
      ensures saved.Some? <==> !commit.RollsBack? && Fits(old(Contents()), orderNumber, remote)
      ensures saved.Some? ==> saved.value == old(|payments|)
      ensures
        var was := old(Contents());
        Contents() == if saved.Some? then Saved(was, orderNumber, amount, user, remote.gateway, remote.answer) else was
    {
      if commit.RollsBack? || !Fits(World(orders, payments, [], []), orderNumber, remote) { return None; }
      orders := orders + [OrderRow(orderNumber, Paise(amount), CURRENCY, user)];
      payments := payments + [PaymentRow(remote.gateway, remote.answer, Paise(amount), CURRENCY, user, |orders| - 1)];
      saved := Some(|payments| - 1);
    }

    method CancelPayment(g: Gateway, id: string, reached: bool)
      modifies this`remotes
      ensures remotes == if reached then Cancelled(old(remotes), g, id) else old(remotes)
    {
      if reached {
        remotes := Cancelled(remotes, g, id);
      }
    }

    /** The catch block: the cancellation, if the gateway's answer has an identifier for it. */
    method CompensatePayment(g: Gateway, answer: Answer, saved: Option<nat>, env: Env) returns (result: Result)
      requires |deeds| > 0
      modifies this`remotes, this`deeds
      ensures (Contents(), result) == Compensate(old(Contents()), g, answer, saved, env)
    {
      if env.diesBeforeCancel {
        deeds := deeds[|deeds| - 1 := Deed(saved, None, true)];
        return NoAnswer;
      }
      var cleanupId := CleanupId(answer);
      if cleanupId.Some? {
        CancelPayment(g, cleanupId.value, env.cancelReached);
      }
      deeds := deeds[|deeds| - 1 := Deed(saved, cleanupId, false)];
      result := Error(500);
    }

    method CreatePayment(req: Request, env: Env) returns (result: Result)
      modifies this
      ensures (Contents(), result) == Create(old(Contents()), req, env)
    {
      var checked := Check(req, env.userExists);
      if checked.Bad? { return Error(checked.code); }
      var remote := OpenRemote(req, checked.gateway, checked.amount, env);
      if remote.None? || env.reply.lost { return Error(502); }
      if env.diesBeforeSaving { return NoAnswer; }
      var saved := SaveBoth(env.orderNumber, checked.amount, req.user, remote.value, env.commit);
      if saved.Some? && env.commit.Commits? {
        deeds := deeds[|deeds| - 1 := Deed(saved, None, false)];
        return Created(saved.value);
      }
      result := CompensatePayment(checked.gateway, remote.value.answer, saved, env);
    }
  }
}
