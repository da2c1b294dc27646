/**
  Where requests may sit and who may answer them, over whole runs: envelope
  invariance, queue confinement, and the shape of the consumer's memory.
 */
module Placement {
  import opened Wrappers
  import opened Messages
  import opened RpcServer
  import opened Dispatch
  import opened Calls

  predicate KnownPhase(t: Tracked, phase: Phase) {
    && (phase.Admitted? ==> phase.server in t)
    && (phase.Replied? && phase.to.Some? ==> phase.to.value in t)
  }

  /** The consumer only ever handles configured servers and registrations. */
  ghost predicate Shaped(c: Config, s: State) {
    && s.clients.Keys == c.senders
    && s.tracked.Keys == Pool(c)
    && s.healthy <= s.tracked.Keys
    && (forall tag :: tag in s.held ==> tag in c.consumers && KnownPhase(s.tracked, s.held[tag].phase))
    && (forall k :: k in s.timers ==> s.timers[k].server in s.tracked)
    && (forall r :: r in s.answers && r.server.Some? ==> r.server.value in s.tracked)
  }

  /** This copy of a request is the one first published but for its headers, and sits where it may. */
  ghost predicate Faithful(sent: map<Id, Envelope>, e: Envelope, queue: QueueName) {
    && e.id in sent
    && SameRequest(e, sent[e.id])
    && RequeueCount(e.headers) >= 0
    && queue == HomeQueue(e)
  }

  /** A private-only request is answered with a server, and one of its own organization. */
  predicate ServedAtHome(body: Body, server: Option<Server>) {
    body.Routed? && body.mode.PrivateOnly? ==> server.Some? && server.value.organization == body.organization
  }

  function ServerOf(phase: Phase): Option<Server> {
    match phase
    case Admitted(server, _) => Some(server)
    case Replied(to) => to
    case _ => None
  }

  ghost predicate GoodHold(queue: QueueName, h: Hold, sent: map<Id, Envelope>) {
    && Faithful(sent, h.envelope, queue)
    && (queue.PrivateOf? && ServerOf(h.phase).Some? ==> ServerOf(h.phase).value.organization == queue.organization)
    && (queue.PrivateOf? ==> !h.phase.Unserved? && h.phase != Replied(None))
    && (h.phase.Deferring? ==> h.phase.target == HomeQueue(Requeued(h.envelope)))
  }

  ghost predicate GoodAnswer(r: Reply, sent: map<Id, Envelope>) {
    r.id in sent && r.replyTo == sent[r.id].replyTo && ServedAtHome(sent[r.id].body, r.server)
  }

  ghost predicate ReadyPlaced(ready: map<nat, Ready>, sent: map<Id, Envelope>) {
    forall k :: k in ready ==> Faithful(sent, ready[k].envelope, ready[k].queue)
  }

  ghost predicate HeldPlaced(consumers: map<nat, QueueName>, held: map<nat, Hold>, sent: map<Id, Envelope>) {
    forall tag :: tag in held ==> tag in consumers && GoodHold(consumers[tag], held[tag], sent)
  }

  ghost predicate AsleepPlaced(asleep: map<nat, Sleeper>, sent: map<Id, Envelope>) {
    forall j :: j in asleep ==> Faithful(sent, asleep[j].envelope, asleep[j].target)
  }

  ghost predicate AnswersPlaced(answers: seq<Reply>, sent: map<Id, Envelope>) {
    forall r :: r in answers ==> GoodAnswer(r, sent)
  }

  ghost predicate Placed(c: Config, s: State) {
    && ReadyPlaced(s.ready, s.sent)
    && HeldPlaced(c.consumers, s.held, s.sent)
    && AsleepPlaced(s.asleep, s.sent)
    && AnswersPlaced(s.answers, s.sent)
  }

  lemma InitPlaced(c: Config)
    ensures Shaped(c, Init(c)) && Placed(c, Init(c))
  {
  }

  lemma SendKeepsShape(c: Config, s: State, n: SenderName, id: Id, a: SenderStep)
    requires Shaped(c, s) && CanSend(s, n, id, a)
    ensures Shaped(c, DoSend(s, n, id, a))
  {
  }

  lemma MoveKeepsShape(c: Config, s: State, a: MessageStep)
    requires Shaped(c, s) && CanMove(c, s, a)
    ensures Shaped(c, DoMove(c, s, a))
  {
  }

  lemma ChangeKeepsShape(c: Config, s: State, a: MemoryStep)
    requires Shaped(c, s) && CanChange(c, s, a)
    ensures Shaped(c, DoChange(c, s, a))
  {
  }

  lemma MoreSent(c: Config, s: State, id: Id, e: Envelope)
    requires Placed(c, s) && id !in s.sent
    ensures ReadyPlaced(s.ready, s.sent[id := e])
    ensures HeldPlaced(c.consumers, s.held, s.sent[id := e])
    ensures AsleepPlaced(s.asleep, s.sent[id := e])
    ensures AnswersPlaced(s.answers, s.sent[id := e])
  {
    assert forall r :: r in s.answers ==> GoodAnswer(r, s.sent) && GoodAnswer(r, s.sent[id := e]);
  }

  lemma PublishKeepsPlaced(c: Config, s: State, n: SenderName, id: Id, k: nat)
    requires Placed(c, s) && CallsOk(s) && CanSend(s, n, id, Publish(k))
    ensures Placed(c, DoSend(s, n, id, Publish(k)))
  {
    var call := s.clients[n].calls[id];
    assert id !in s.sent && call.envelope.id == id && RequeueCount(call.envelope.headers) == 0 &&
          call.queue == HomeQueue(call.envelope) by {
      assert GoodClient(n, s.clients[n], s.sent, s.answers);
      assert GoodPublishing(n, id, call, s.sent);
    }
    MoreSent(c, s, id, call.envelope);
    assert Faithful(s.sent[id := call.envelope], call.envelope, call.queue);
  }

  lemma SendKeepsPlaced(c: Config, s: State, n: SenderName, id: Id, a: SenderStep)
    requires Placed(c, s) && CallsOk(s) && CanSend(s, n, id, a)
    ensures Placed(c, DoSend(s, n, id, a))
  {
    if a.Publish? {
      PublishKeepsPlaced(c, s, n, id, a.k);
    }
  }

  lemma DeliverKeepsPlaced(c: Config, s: State, tag: nat, k: nat, choice: Choice)
    requires Placed(c, s) && CanDeliver(c, s, tag, k, choice)
    ensures Placed(c, DoDeliver(c, s, tag, k, choice))
  {
    DecisionMeaning(s.tracked, c.best, s.ready[k].envelope, s.ready[k].queue, choice);
  }

  lemma ReplyKeepsPlaced(c: Config, s: State, tag: nat, k: nat)
    requires Placed(c, s) && AwaitsReply(s, tag)
    ensures Placed(c, DoPublishReply(s, tag, k))
  {
    assert GoodHold(c.consumers[tag], s.held[tag], s.sent);
  }

  lemma ReplyFailsKeepsPlaced(c: Config, s: State, tag: nat)
    requires Placed(c, s) && AwaitsReply(s, tag)
    ensures Placed(c, DoReplyFails(s, tag))
  {
    assert GoodHold(c.consumers[tag], s.held[tag], s.sent);
  }

  lemma DeferredKeepsPlaced(c: Config, s: State, tag: nat, k: nat)
    requires Placed(c, s) && CanAckDeferred(s, tag, k)
    ensures Placed(c, DoAckDeferred(c, s, tag, k))
  {
    assert GoodHold(c.consumers[tag], s.held[tag], s.sent);
  }

  lemma RedeliverKeepsPlaced(c: Config, s: State, tag: nat, k: nat)
    requires Placed(c, s) && CanRedeliver(c, s, tag, k)
    ensures Placed(c, DoRedeliver(c, s, tag, k))
  {
    assert GoodHold(c.consumers[tag], s.held[tag], s.sent);
  }

  lemma MoveKeepsPlaced(c: Config, s: State, a: MessageStep)
    requires Placed(c, s) && CanMove(c, s, a)
    ensures Placed(c, DoMove(c, s, a))
  {
    match a
    case Deliver(tag, k, choice) => DeliverKeepsPlaced(c, s, tag, k, choice);
    case PublishReply(tag, k) => ReplyKeepsPlaced(c, s, tag, k);
    case AckDeferred(tag, k) => DeferredKeepsPlaced(c, s, tag, k);
    case Redeliver(tag, k) => RedeliverKeepsPlaced(c, s, tag, k);
    case ReplyFails(tag) => ReplyFailsKeepsPlaced(c, s, tag);
    case _ =>
  }

  lemma ChangeKeepsPlaced(c: Config, s: State, a: MemoryStep)
    requires Placed(c, s) && CanChange(c, s, a)
    ensures Placed(c, DoChange(c, s, a))
  {
  }
}
