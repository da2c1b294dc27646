/**
  The dispatch protocol as a step system: any number of senders, an abstract
  broker and one consumer, interleaving at every suspension point of the code.

  A delivery runs the callback up to its first suspension, so it includes the
  admission check. The acknowledgement of a served request, the addition to the
  in-flight set and the creation of the expiry timer are one step.
 */
module Dispatch {
  import opened Messages
  import opened RpcClient
  import opened RpcServer

  /** `consumers` maps every registration at the broker to its queue. */
  datatype Config = Config(
    senders: set<SenderName>,
    servers: seq<Server>,
    best: int,
    timeout: nat, // VLLM_TREATMENT_TIMEOUT_SECONDS
    delay: nat,   // METRICS_REFRESH_RATE
    consumers: map<nat, QueueName>)

  function Pool(c: Config): set<Server> {
    set v | v in c.servers
  }

  predicate ValidConfig(c: Config) {
    DistinctUrls(c.servers) && c.delay >= 1
  }

  datatype Ready = Ready(queue: QueueName, envelope: Envelope)
  datatype Hold = Hold(envelope: Envelope, phase: Phase)
  datatype Sleeper = Sleeper(envelope: Envelope, target: QueueName, wakeAt: nat)
  datatype Timer = Timer(server: Server, id: Id, due: nat)

  datatype Event =
    | Admit(server: Server, id: Id, at: nat)
    | Complete(server: Server, id: Id)
    | Expire(server: Server, id: Id)
    | Requeue(id: Id)
    | Restart

  datatype State = State(
    now: nat,
    // senders
    clients: map<SenderName, Client>,
    // broker: messages ready for delivery, at most one unacknowledged message
    // per registration (prefetch 1), callback queues, completion queue
    ready: map<nat, Ready>,
    held: map<nat, Hold>,
    inbox: map<nat, Reply>,
    completions: map<nat, Completion>,
    // the consumer: whether it is connected; in-flight sets, requeue tasks past their acknowledgement,
    // expiry timers, servers the strategy may choose
    up: bool,
    tracked: Tracked,
    asleep: map<nat, Sleeper>,
    timers: map<nat, Timer>,
    healthy: set<Server>,
    // history: requests as first published, replies published, what happened to
    // the in-flight sets, requests dropped by the broker or with a requeue task,
    // requests whose message came back after its reply
    sent: map<Id, Envelope>,
    answers: seq<Reply>,
    log: seq<Event>,
    lost: set<Id>,
    doubtful: set<Id>)

  /** The steps of one sender's coroutines, and of its callback-queue consumer. */
  datatype SenderStep =
    | Call(threshold: int, priority: int, mode: RoutingMode, organization: string)
    | Publish(k: nat)
    | Confirmed
    | PublishFails
    | Response(k: nat)
    | Timeout
    | Return(timedOut: bool)
    | SendCompletion(k: nat)

  /** The steps that carry a request through the broker and the consumer's callbacks. */
  datatype MessageStep =
    | Deliver(tag: nat, k: nat, choice: Choice)
    | PublishReply(tag: nat, k: nat)
    | ReplyFails(tag: nat)
    | AckReply(tag: nat, k: nat)
    | AckDeferred(tag: nat, k: nat)
    | Republish(j: nat, k: nat)
    | RepublishFails(j: nat)
    | Redeliver(tag: nat, k: nat)
    | DropExpired(k: nat)

  /** The steps that change the consumer's memory, and time. */
  datatype MemoryStep =
    | CompletionArrives(k: nat, acked: bool)
    | FireTimer(k: nat)
    | Health(up: set<Server>)
    | Crash
    | Recover
    | QueueExpires(queue: QueueName)
    | CompletionQueueExpires
    | Tick

  datatype Step =
    | OfSender(n: SenderName, id: Id, sender: SenderStep)
    | OfMessage(message: MessageStep)
    | OfMemory(memory: MemoryStep)

  function Init(c: Config): State {
    State(0, map n | n in c.senders :: NEW_CLIENT,
          map[], map[], map[], map[],
          true, map v | v in Pool(c) :: {}, map[], map[], Pool(c),
          map[], [], [], {}, {})
  }

  // ---- sender steps ----

  predicate HasCall(clients: map<SenderName, Client>, n: SenderName, id: Id) {
    n in clients && id in clients[n].calls
  }

  predicate Fresh(s: State, id: Id) {
    forall n :: n in s.clients ==> id !in s.clients[n].calls
  }

  function SharedLength(s: State): nat {
    |set k | k in s.ready && s.ready[k].queue.Shared?|
  }

  predicate CanSend(s: State, n: SenderName, id: Id, a: SenderStep) {
    if a.Call? then n in s.clients && Fresh(s, id)
    else
      HasCall(s.clients, n, id) &&
      var status := s.clients[n].calls[id];
      match a
      case Publish(k) => status.Publishing? && !status.atBroker && k !in s.ready
      case Confirmed => status.Publishing? && status.atBroker
      case PublishFails => status.Publishing?
      case Response(k) => k in s.inbox && s.inbox[k].replyTo == n && s.inbox[k].id == id
      case Timeout => status.Waiting?
      case Return(timedOut) => status.Resolved? || (status.Cancelled? && timedOut)
      case SendCompletion(k) =>
        && k !in s.completions
        && status.Finished? && status.outcome.Answered? && status.outcome.reply.server.Some?
      case _ => false
  }

  /** What the step does to the client's own state. */
  function ClientAfter(s: State, n: SenderName, id: Id, a: SenderStep): Client
    requires CanSend(s, n, id, a)
  {
    var client := s.clients[n];
    match a
    case Call(threshold, priority, mode, organization) =>
      StartCall(client, NewEnvelope(id, n, priority, mode, organization),
                FirstQueue(mode, organization), SharedLength(s) > threshold)
    case Publish(_) => ReachBroker(client, id)
    case Confirmed => Confirm(client, id)
    case PublishFails => PublishRaises(client, id)
    case Response(k) => Respond(client, s.inbox[k])
    case Timeout => TimeoutFires(client, id)
    case Return(timedOut) => CallReturns(client, id, timedOut)
    case SendCompletion(_) => client
  }

  /** The completion payload the proxy builds from the reply it used. */
  function CompletionOf(r: Reply): Completion
    requires r.server.Some?
  {
    Completion(r.server.value.url, r.id)
  }

  function DoSend(s: State, n: SenderName, id: Id, a: SenderStep): State
    requires CanSend(s, n, id, a)
  {
    var status := if a.Call? then Waiting else s.clients[n].calls[id];
    s.(clients := s.clients[n := ClientAfter(s, n, id, a)],
       ready := if a.Publish? then s.ready[a.k := Ready(status.queue, status.envelope)] else s.ready,
       sent := if a.Publish? then s.sent[id := status.envelope] else s.sent,
       inbox := if a.Response? then s.inbox - {a.k} else s.inbox,
       completions := if a.SendCompletion? then s.completions[a.k := CompletionOf(status.outcome.reply)]
                      else s.completions)
  }

  // ---- message steps ----

  /**
    Unless it raises, the strategy finds a server exactly when one is healthy; a private
    queue draws from its organization.
   */
  predicate MayChoose(c: Config, s: State, queue: QueueName, e: Envelope, choice: Choice) {
    var pool := if queue.Shared? then s.healthy
                else if e.body.Routed? then Matching(c.servers, e.body.organization) else {};
    match choice
    case Chosen(server) => server in pool && server in s.tracked
    case NoServer => pool == {}
    case ChoiceRaised => true
  }

  function Decide(c: Config, s: State, queue: QueueName, e: Envelope, choice: Choice): Phase
    requires Knows(s.tracked, choice)
  {
    if queue.Shared? then DecideShared(s.tracked, c.best, e, choice)
    else DecidePrivate(s.tracked, c.best, e, queue, choice)
  }

  predicate CanDeliver(c: Config, s: State, tag: nat, k: nat, choice: Choice) {
    && s.up && tag in c.consumers && tag !in s.held
    && k in s.ready && s.ready[k].queue == c.consumers[tag]
    && MayChoose(c, s, s.ready[k].queue, s.ready[k].envelope, choice)
  }

  function DoDeliver(c: Config, s: State, tag: nat, k: nat, choice: Choice): State
    requires CanDeliver(c, s, tag, k, choice)
  {
    var e := s.ready[k].envelope;
    var phase := Decide(c, s, s.ready[k].queue, e, choice);
    s.(ready := s.ready - {k},
       held := s.held[tag := Hold(e, phase)])
  }

  /** What a delivery changes, and what it does not. */
  ghost predicate Delivered(s: State, s': State, tag: nat, k: nat, phase: Phase) {
    && k in s.ready
    && s'.ready == s.ready - {k}
    && s'.held == s.held[tag := Hold(s.ready[k].envelope, phase)]
    && s'.asleep == s.asleep && s'.log == s.log && s'.now == s.now && s'.sent == s.sent && s'.up == s.up
    && s'.clients == s.clients && s'.healthy == s.healthy && s'.tracked == s.tracked
    && s'.inbox == s.inbox && s'.timers == s.timers
  }

  lemma DeliverMeans(c: Config, s: State, tag: nat, k: nat, choice: Choice)
    requires CanDeliver(c, s, tag, k, choice)
    ensures Delivered(s, DoDeliver(c, s, tag, k, choice), tag, k,
              Decide(c, s, s.ready[k].queue, s.ready[k].envelope, choice))
  {
  }

  predicate AwaitsReply(s: State, tag: nat) {
    tag in s.held && (s.held[tag].phase.Admitted? || s.held[tag].phase.Unserved?)
  }

  function DoPublishReply(s: State, tag: nat, k: nat): State
    requires AwaitsReply(s, tag)
  {
    var h := s.held[tag];
    var r := ReplyTo(h.envelope, h.phase);
    s.(held := s.held[tag := Hold(h.envelope, Replied(r.server))],
       inbox := s.inbox[k := r],
       answers := s.answers + [r])
  }

  function DoReplyFails(s: State, tag: nat): State
    requires AwaitsReply(s, tag)
  {
    s.(held := s.held[tag := Hold(s.held[tag].envelope, Stuck)])
  }

  predicate CanAckReply(s: State, tag: nat, k: nat) {
    && tag in s.held && s.held[tag].phase.Replied? && k !in s.timers
    && (s.held[tag].phase.to.Some? ==> s.held[tag].phase.to.value in s.tracked)
  }

  function DoAckReply(c: Config, s: State, tag: nat, k: nat): State
    requires CanAckReply(s, tag, k)
  {
    var h := s.held[tag];
    var to := h.phase.to;
    s.(held := s.held - {tag},
       tracked := if to.None? then s.tracked else Record(s.tracked, to.value, h.envelope.id),
       timers := if to.None? then s.timers else s.timers[k := Timer(to.value, h.envelope.id, s.now + c.timeout)],
       log := if to.None? then s.log else s.log + [Admit(to.value, h.envelope.id, s.now)])
  }

  predicate CanAckDeferred(s: State, tag: nat, k: nat) {
    tag in s.held && s.held[tag].phase.Deferring? && k !in s.asleep
  }

  function DoAckDeferred(c: Config, s: State, tag: nat, k: nat): State
    requires CanAckDeferred(s, tag, k)
  {
    var h := s.held[tag];
    s.(held := s.held - {tag},
       asleep := s.asleep[k := Sleeper(Requeued(h.envelope), h.phase.target, s.now + c.delay)],
       log := s.log + [Requeue(h.envelope.id)])
  }

  predicate CanRepublish(s: State, j: nat, k: nat) {
    j in s.asleep && s.asleep[j].wakeAt <= s.now && k !in s.ready
  }

  function DoRepublish(s: State, j: nat, k: nat): State
    requires CanRepublish(s, j, k)
  {
    s.(asleep := s.asleep - {j}, ready := s.ready[k := Ready(s.asleep[j].target, s.asleep[j].envelope)])
  }

  function DoRepublishFails(s: State, j: nat): State
    requires j in s.asleep
  {
    s.(asleep := s.asleep - {j}, lost := s.lost + {s.asleep[j].envelope.id})
  }

  predicate CanRedeliver(c: Config, s: State, tag: nat, k: nat) {
    tag in s.held && tag in c.consumers && k !in s.ready
  }

  /** The broker takes an unacknowledged message back; the callback's next await raises. */
  function DoRedeliver(c: Config, s: State, tag: nat, k: nat): State
    requires CanRedeliver(c, s, tag, k)
  {
    var h := s.held[tag];
    s.(held := s.held - {tag},
       ready := s.ready[k := Ready(c.consumers[tag], h.envelope)],
       doubtful := if h.phase.Replied? then s.doubtful + {h.envelope.id} else s.doubtful)
  }

  /** Only the shared queue has a message TTL. */
  predicate CanDrop(s: State, k: nat) {
    k in s.ready && s.ready[k].queue.Shared?
  }

  function DoDrop(s: State, k: nat): State
    requires CanDrop(s, k)
  {
    s.(ready := s.ready - {k}, lost := s.lost + {s.ready[k].envelope.id})
  }

  predicate CanMove(c: Config, s: State, a: MessageStep) {
    match a
    case Deliver(tag, k, choice) => CanDeliver(c, s, tag, k, choice)
    case PublishReply(tag, k) => AwaitsReply(s, tag) && k !in s.inbox
    case ReplyFails(tag) => AwaitsReply(s, tag)
    case AckReply(tag, k) => CanAckReply(s, tag, k)
    case AckDeferred(tag, k) => CanAckDeferred(s, tag, k)
    case Republish(j, k) => CanRepublish(s, j, k)
    case RepublishFails(j) => j in s.asleep
    case Redeliver(tag, k) => CanRedeliver(c, s, tag, k)
    case DropExpired(k) => CanDrop(s, k)
  }

  function DoMove(c: Config, s: State, a: MessageStep): State
    requires CanMove(c, s, a)
  {
    match a
    case Deliver(tag, k, choice) => DoDeliver(c, s, tag, k, choice)
    case PublishReply(tag, k) => DoPublishReply(s, tag, k)
    case ReplyFails(tag) => DoReplyFails(s, tag)
    case AckReply(tag, k) => DoAckReply(c, s, tag, k)
    case AckDeferred(tag, k) => DoAckDeferred(c, s, tag, k)
    case Republish(j, k) => DoRepublish(s, j, k)
    case RepublishFails(j) => DoRepublishFails(s, j)
    case Redeliver(tag, k) => DoRedeliver(c, s, tag, k)
    case DropExpired(k) => DoDrop(s, k)
  }

  // ---- memory steps ----

  predicate CanComplete(c: Config, s: State, k: nat) {
    s.up && k in s.completions &&
    var used := FindByUrl(c.servers, s.completions[k].url);
    used.Some? ==> used.value in s.tracked
  }

  function DoComplete(c: Config, s: State, k: nat, acked: bool): State
    requires CanComplete(c, s, k)
  {
    var done := s.completions[k];
    var used := FindByUrl(c.servers, done.url);
    s.(tracked := Completed(s.tracked, c.servers, done),
       completions := if used.Some? && acked then s.completions - {k} else s.completions,
       log := if used.Some? then s.log + [Complete(used.value, done.id)] else s.log)
  }

  predicate CanFire(s: State, k: nat) {
    k in s.timers && s.timers[k].due <= s.now && s.timers[k].server in s.tracked
  }

  function DoFire(s: State, k: nat): State
    requires CanFire(s, k)
  {
    var t := s.timers[k];
    s.(timers := s.timers - {k},
       tracked := Discard(s.tracked, t.server, t.id),
       log := s.log + [Expire(t.server, t.id)])
  }

  /** The consumer process dies: its memory is gone, its unacknowledged messages wait for redelivery. */
  function DoCrash(s: State): State {
    s.(held := map tag | tag in s.held :: Hold(s.held[tag].envelope, Stuck),
       up := false,
       tracked := map v | v in s.tracked :: {},
       asleep := map[],
       timers := map[],
       lost := s.lost + (set j | j in s.asleep :: s.asleep[j].envelope.id),
       doubtful := s.doubtful + (set tag | tag in s.held && s.held[tag].phase.Replied? :: s.held[tag].envelope.id),
       log := s.log + [Restart])
  }

  /** Without consumers the broker deletes a queue in time, once it has taken back its messages. */
  predicate CanExpire(c: Config, s: State, queue: QueueName) {
    !s.up && forall tag :: tag in s.held && tag in c.consumers ==> c.consumers[tag] != queue
  }

  function DoExpireQueue(s: State, queue: QueueName): State {
    s.(ready := map k | k in s.ready && s.ready[k].queue != queue :: s.ready[k],
       lost := s.lost + (set k | k in s.ready && s.ready[k].queue == queue :: s.ready[k].envelope.id))
  }

  /** Due timers run before time moves on. */
  predicate NothingDue(s: State) {
    forall k :: k in s.timers ==> s.timers[k].due > s.now
  }

  predicate CanChange(c: Config, s: State, a: MemoryStep) {
    match a
    case CompletionArrives(k, _) => CanComplete(c, s, k)
    case FireTimer(k) => CanFire(s, k)
    case Health(up) => up <= Pool(c)
    case Crash => true
    case Recover => !s.up
    case QueueExpires(queue) => CanExpire(c, s, queue)
    case CompletionQueueExpires => !s.up
    case Tick => NothingDue(s)
  }

  function DoChange(c: Config, s: State, a: MemoryStep): State
    requires CanChange(c, s, a)
  {
    match a
    case CompletionArrives(k, acked) => DoComplete(c, s, k, acked)
    case FireTimer(k) => DoFire(s, k)
    case Health(up) => s.(healthy := up)
    case Crash => DoCrash(s)
    case Recover => s.(up := true)
    case QueueExpires(queue) => DoExpireQueue(s, queue)
    case CompletionQueueExpires => s.(completions := map[])
    case Tick => s.(now := s.now + 1)
  }

  // ---- runs ----

  predicate Enabled(c: Config, s: State, a: Step) {
    match a
    case OfSender(n, id, b) => CanSend(s, n, id, b)
    case OfMessage(b) => CanMove(c, s, b)
    case OfMemory(b) => CanChange(c, s, b)
  }

  function Apply(c: Config, s: State, a: Step): State
    requires Enabled(c, s, a)
  {
    match a
    case OfSender(n, id, b) => DoSend(s, n, id, b)
    case OfMessage(b) => DoMove(c, s, b)
    case OfMemory(b) => DoChange(c, s, b)
  }

  ghost predicate Next(c: Config, s: State, a: Step, s': State) {
    Enabled(c, s, a) && s' == Apply(c, s, a)
  }

  /** Step `i` leads from state `i` to the next one. */
  ghost predicate StepAt(c: Config, states: seq<State>, steps: seq<Step>, i: nat)
    requires |states| == |steps| + 1
  {
    i < |steps| && Next(c, states[i], steps[i], states[i + 1])
  }

  /** `states` is a run driven by `steps`. */
  ghost predicate IsRun(c: Config, states: seq<State>, steps: seq<Step>) {
    && |states| == |steps| + 1
    && states[0] == Init(c)
    && forall i :: 0 <= i < |steps| ==> StepAt(c, states, steps, i)
  }

  ghost predicate Reachable(c: Config, s: State) {
    exists states: seq<State>, steps: seq<Step> :: IsRun(c, states, steps) && s == states[|steps|]
  }

  lemma PrefixIsRun(c: Config, states: seq<State>, steps: seq<Step>, n: nat)
    requires IsRun(c, states, steps) && n <= |steps|
    ensures IsRun(c, states[..n + 1], steps[..n])
    ensures Reachable(c, states[n])
  {
    var prefix, before := states[..n + 1], steps[..n];
    forall i | 0 <= i < |before|
      ensures StepAt(c, prefix, before, i)
    {
      assert StepAt(c, states, steps, i);
    }
    assert prefix[n] == states[n];
    assert IsRun(c, states[..n + 1], steps[..n]);
  }

  lemma LongerRun(c: Config, states: seq<State>, steps: seq<Step>, a: Step, s': State)
    requires IsRun(c, states, steps) && Next(c, states[|steps|], a, s')
    ensures IsRun(c, states + [s'], steps + [a])
  {
    var states', steps' := states + [s'], steps + [a];
    forall i | 0 <= i < |steps'|
      ensures StepAt(c, states', steps', i)
    {
      assert i < |steps| ==> StepAt(c, states, steps, i);
    }
  }

  lemma ReachStep(c: Config, s: State, a: Step) returns (s': State)
    requires Reachable(c, s) && Enabled(c, s, a)
    ensures s' == Apply(c, s, a) && Reachable(c, s')
  {
    s' := Apply(c, s, a);
    var states: seq<State>, steps: seq<Step> :| IsRun(c, states, steps) && s == states[|steps|];
    LongerRun(c, states, steps, a, s');
    assert s' == (states + [s'])[|steps + [a]|];
  }

  lemma ReachStart(c: Config)
    ensures Reachable(c, Init(c))
  {
    assert IsRun(c, [Init(c)], []);
  }
}
