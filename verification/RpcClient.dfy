/**
  A sender's RPC client. The life of every call is split at its suspension
  points; the class changes its fields step by step and each method is proved
  against a function of the client's state.
 */
module RpcClient {
  import opened Wrappers
  import opened Messages

  datatype Outcome =
    | QueueOverloaded
    | TimedOut
    | Answered(reply: Reply)
    | Raised(leaked: bool) // publishing failed; `leaked`: the future is still registered

  /**
    Publishing: the future is registered and the publish is under way; `atBroker`
      once the broker has taken the message, `early` if a reply overtook the confirmation.
    Waiting: suspended on the future.
    Cancelled: the wait timed out and cancelled the future, but the coroutine has not
      resumed; `popped` if a reply has removed the future meanwhile.
    Resolved: the future has its result, but the coroutine has not resumed.
   */
  datatype CallStatus =
    | Publishing(envelope: Envelope, queue: QueueName, atBroker: bool, early: Option<Reply>)
    | Waiting
    | Cancelled(popped: bool)
    | Resolved(reply: Reply)
    | Finished(outcome: Outcome)

  datatype Client = Client(futures: set<Id>, calls: map<Id, CallStatus>)

  const NEW_CLIENT := Client({}, map[])

  /** The future of a call in this status is in the table. */
  predicate Registered(status: CallStatus) {
    match status
    case Publishing(_, _, _, early) => early.None?
    case Waiting => true
    case Cancelled(popped) => !popped
    case Resolved(_) => false
    case Finished(outcome) => outcome.Raised? && outcome.leaked
  }

  /** The call has not returned and nobody has settled its future. */
  predicate Unsettled(status: CallStatus) {
    Registered(status) && !status.Finished?
  }

  /** The reply a status holds, if any. */
  function HeldReply(status: CallStatus): Option<Reply> {
    match status
    case Publishing(_, _, _, early) => early
    case Resolved(reply) => Some(reply)
    case Finished(Answered(reply)) => Some(reply)
    case _ => None
  }

  /** The table holds exactly the registered calls, and replies reach their own call. */
  ghost predicate ClientOk(c: Client) {
    && (forall id :: id in c.futures <==> id in c.calls && Registered(c.calls[id]))
    && (forall id :: id in c.calls && HeldReply(c.calls[id]).Some? ==> HeldReply(c.calls[id]).value.id == id)
    && (forall id :: id in c.calls && c.calls[id].Publishing? ==> c.calls[id].envelope.id == id)
  }

  // ---- the steps, as functions of the client's state ----

  function StartCall(c: Client, e: Envelope, queue: QueueName, overloaded: bool): Client {
    if overloaded then c.(calls := c.calls[e.id := Finished(QueueOverloaded)])
    else Client(c.futures + {e.id}, c.calls[e.id := Publishing(e, queue, false, None)])
  }

  function ReachBroker(c: Client, id: Id): Client
    requires id in c.calls && c.calls[id].Publishing?
  {
    c.(calls := c.calls[id := c.calls[id].(atBroker := true)])
  }

  function Confirm(c: Client, id: Id): Client
    requires id in c.calls && c.calls[id].Publishing?
  {
    var early := c.calls[id].early;
    c.(calls := c.calls[id := if early.Some? then Resolved(early.value) else Waiting])
  }

  function PublishRaises(c: Client, id: Id): Client
    requires id in c.calls && c.calls[id].Publishing?
  {
    c.(calls := c.calls[id := Finished(Raised(c.calls[id].early.None?))])
  }

  /** A reply for an id that is not in the table raises a KeyError and changes nothing. */
  function Respond(c: Client, r: Reply): Client {
    if r.id !in c.futures then c
    else
      var futures := c.futures - {r.id};
      if r.id !in c.calls then c.(futures := futures)
      else
        var status := match c.calls[r.id]
          case Publishing(e, q, atBroker, _) => Publishing(e, q, atBroker, Some(r))
          case Waiting => Resolved(r)
          case Cancelled(_) => Cancelled(true)
          case Finished(Raised(_)) => Finished(Raised(false))
          case other => other;
        Client(futures, c.calls[r.id := status])
  }

  function TimeoutFires(c: Client, id: Id): Client
    requires id in c.calls && c.calls[id].Waiting?
  {
    c.(calls := c.calls[id := Cancelled(false)])
  }

  /** `call` resumes and returns; a resolved future may still lose to the timeout. */
  function CallReturns(c: Client, id: Id, timedOut: bool): Client
    requires id in c.calls
    requires c.calls[id].Cancelled? ==> timedOut
    requires c.calls[id].Cancelled? || c.calls[id].Resolved?
  {
    if timedOut then Client(c.futures - {id}, c.calls[id := Finished(TimedOut)])
    else c.(calls := c.calls[id := Finished(Answered(c.calls[id].reply))])
  }

  // ---- what the steps keep ----

  lemma StartKeepsOk(c: Client, e: Envelope, queue: QueueName, overloaded: bool)
    requires ClientOk(c) && e.id !in c.calls
    ensures ClientOk(StartCall(c, e, queue, overloaded))
  {
  }

  lemma RespondKeepsOk(c: Client, r: Reply)
    requires ClientOk(c)
    ensures ClientOk(Respond(c, r))
    // a reply touches no call but its own, and the call's future only once
    ensures forall id :: id in c.calls && id != r.id ==>
              id in Respond(c, r).calls && Respond(c, r).calls[id] == c.calls[id]
    ensures r.id !in Respond(c, r).futures
    ensures forall again: Reply :: again.id == r.id ==> Respond(Respond(c, r), again) == Respond(c, r)
  {
  }

  lemma PublishKeepsOk(c: Client, id: Id)
    requires ClientOk(c) && id in c.calls && c.calls[id].Publishing?
    ensures ClientOk(ReachBroker(c, id))
    ensures ClientOk(Confirm(c, id))
    ensures ClientOk(PublishRaises(c, id))
  {
    var early := c.calls[id].early;
    assert early.Some? ==> early.value.id == id by { assert HeldReply(c.calls[id]) == early; }
    assert id in c.futures <==> early.None?;
  }

  lemma ReturnKeepsOk(c: Client, id: Id, timedOut: bool)
    requires ClientOk(c) && id in c.calls
    requires c.calls[id].Cancelled? ==> timedOut
    requires c.calls[id].Cancelled? || c.calls[id].Resolved?
    ensures ClientOk(CallReturns(c, id, timedOut))
  {
  }

  /** A reply resolves the call that waits for it; one that came early is handed over by the confirmation. */
  lemma ReplyIsHandedOver(c: Client, r: Reply)
    requires ClientOk(c) && r.id in c.futures
    ensures r.id in c.calls && r.id in Respond(c, r).calls
    ensures c.calls[r.id].Waiting? ==> Respond(c, r).calls[r.id] == Resolved(r)
    ensures c.calls[r.id].Publishing? ==>
              && Respond(c, r).calls[r.id].Publishing?
              && Confirm(Respond(c, r), r.id).calls[r.id] == Resolved(r)
  {
  }

  /**
    The table holds exactly the calls still waiting if and only if no publish has
    raised and left its future behind: nothing ever removes such a future but a reply.
   */
  lemma TableIsTheWaitingCallsIffNoLeak(c: Client)
    requires ClientOk(c)
    ensures (forall id :: id in c.futures <==> id in c.calls && Unsettled(c.calls[id]))
            <==> (forall id :: id in c.calls ==> c.calls[id] != Finished(Raised(true)))
  {
    if forall id :: id in c.futures <==> id in c.calls && Unsettled(c.calls[id]) {
      forall id | id in c.calls
        ensures c.calls[id] != Finished(Raised(true))
      {
        assert Registered(c.calls[id]) ==> id in c.futures;
      }
    }
  }

  // ---- the client object ----

  /** What `on_response` may raise: KeyError or InvalidStateError. */
  datatype ResponseError = NoSuchFuture | FutureCancelled

  class RPCClient {
    const name: SenderName
    var futures: set<Id>
    var calls: map<Id, CallStatus>

    function View(): Client
      reads this
    {
      Client(futures, calls)
    }

    ghost predicate Valid()
      reads this
    {
      ClientOk(View())
    }

    constructor (name: SenderName)
      ensures Valid() && View() == NEW_CLIENT && this.name == name
    {
      this.name := name;
      futures := {};
      calls := map[];
    }

    /** `call` up to its publish; `ready` is the length of the model's queue. */
    method Call(id: Id, ready: nat, threshold: int, priority: int, mode: RoutingMode, organization: string)
      returns (overloaded: bool)
      requires Valid() && id !in calls
      modifies this
      ensures Valid()
      ensures overloaded <==> ready > threshold
      ensures overloaded ==> futures == old(futures) && calls == old(calls)[id := Finished(QueueOverloaded)]
      ensures !overloaded ==>
                && id in futures && id in calls && calls[id].Publishing?
                && AsAsked(calls[id].envelope, id, name, priority, mode, organization)
                && calls[id].queue == (if mode == Any then Shared else PrivateOf(organization))
      ensures View() == StartCall(old(View()), NewEnvelope(id, name, priority, mode, organization),
                                  FirstQueue(mode, organization), overloaded)
    {
      StartKeepsOk(View(), NewEnvelope(id, name, priority, mode, organization), FirstQueue(mode, organization),
            ready > threshold);
      if ready > threshold {
        calls := calls[id := Finished(QueueOverloaded)];
        return true;
      }
      futures := futures + {id};
      var e;
      var queue;
      if mode == Any {
        e := Envelope(id, name, Some(priority), AvailableQuery, map[REQUEUE_HEADER := 0]);
        queue := Shared;
      } else {
        e := Envelope(id, name, Some(priority), Routed(mode, organization), map[REQUEUE_HEADER := 0]);
        queue := PrivateOf(organization);
      }
      calls := calls[id := Publishing(e, queue, false, None)];
      return false;
    }

    /** A cancelled future is popped all the same; setting its result then raises. */
    method OnResponse(r: Reply) returns (error: Option<ResponseError>)
      requires Valid()
      modifies this
      ensures Valid()
      ensures error == Some(NoSuchFuture) <==> r.id !in old(futures)
      ensures error == Some(FutureCancelled) <==> r.id in old(futures) && old(calls)[r.id].Cancelled?
      ensures r.id in old(futures) && old(calls)[r.id].Waiting? ==>
                r.id in calls && calls[r.id] == Resolved(r)
      ensures r.id in old(futures) && old(calls)[r.id].Publishing? ==>
                r.id in calls && calls[r.id] == old(calls)[r.id].(early := Some(r))
      ensures View() == Respond(old(View()), r)
    {
      RespondKeepsOk(View(), r);
      if r.id !in futures {
        return Some(NoSuchFuture);
      }
      futures := futures - {r.id};
      match calls[r.id] {
        case Publishing(e, q, atBroker, _) => calls := calls[r.id := Publishing(e, q, atBroker, Some(r))];
        case Waiting => calls := calls[r.id := Resolved(r)];
        case Cancelled(_) =>
          calls := calls[r.id := Cancelled(true)];
          return Some(FutureCancelled);
        case Finished(Raised(_)) => calls := calls[r.id := Finished(Raised(false))];
        case _ =>
      }
      return None;
    }

    /** The end of `call`: the reply, or the clean-up after a timeout. */
    method Return(id: Id, timedOut: bool) returns (outcome: Outcome)
      requires Valid() && id in calls
      requires calls[id].Cancelled? ==> timedOut
      requires calls[id].Cancelled? || calls[id].Resolved?
      modifies this
      ensures Valid()
      ensures View() == CallReturns(old(View()), id, timedOut)
      ensures outcome.TimedOut? <==> timedOut
      ensures !timedOut ==> old(calls)[id].Resolved? && outcome == Answered(old(calls)[id].reply)
      ensures outcome.Answered? ==> outcome.reply.id == id
      ensures calls == old(calls)[id := Finished(outcome)] && id !in futures
    {
      ReturnKeepsOk(View(), id, timedOut);
      if timedOut {
        futures := futures - {id};
        outcome := TimedOut;
      } else {
        outcome := Answered(calls[id].reply);
      }
      calls := calls[id := Finished(outcome)];
    }
  }
}
