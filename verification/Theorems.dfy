/** The main results about the dispatch protocol, each over every state of every run. */
module Theorems {
  import opened Wrappers
  import opened Messages
  import opened RpcClient
  import opened RpcServer
  import opened Dispatch
  import opened Calls
  import opened Placement
  import opened Conservation
  import opened History
  import opened Runs

  // ---- conservation ----

  /**
    A published request that was not dropped and did not come back after its reply
    has exactly one owner; a dropped one has none and is never answered; only one
    that came back can be answered twice.
   */
  lemma ExactlyOneOwner(c: Config, s: State, id: Id)
    requires Reachable(c, s) && id in s.sent
    ensures id !in s.lost && id !in s.doubtful ==> exists p :: Owns(s, p, id) && forall q :: Owns(s, q, id) ==> q == p
    ensures id in s.lost && id !in s.doubtful ==> !HasAnswer(s.answers, id) && forall p :: !Owns(s, p, id)
    ensures id in s.doubtful ==> HasAnswer(s.answers, id)
    ensures forall m, n :: 0 <= m < n < |s.answers| && s.answers[m].id == id && s.answers[n].id == id ==>
              id in s.doubtful
  {
    ReachableInv(c, s);
    OwnersOf(s, id);
  }

  lemma OwnersOf(s: State, id: Id)
    requires Conserved(s) && id in s.sent
    ensures id !in s.lost && id !in s.doubtful ==> exists p :: Owns(s, p, id) && forall q :: Owns(s, q, id) ==> q == p
    ensures id in s.lost && id !in s.doubtful ==> !HasAnswer(s.answers, id) && forall p :: !Owns(s, p, id)
    ensures id in s.doubtful ==> HasAnswer(s.answers, id)
    ensures forall m, n :: 0 <= m < n < |s.answers| && s.answers[m].id == id && s.answers[n].id == id ==>
              id in s.doubtful
  {
    assert forall m :: 0 <= m < |s.answers| && s.answers[m].id == id ==> Owns(s, InAnswers(m), id);
    if id !in s.lost && id !in s.doubtful {
      var p :| Owns(s, p, id);
    }
  }

  ghost predicate Owned(s: State, id: Id) {
    exists p :: Owns(s, p, id)
  }

  ghost predicate OwnedTwice(s: State, id: Id) {
    exists p, q :: p != q && Owns(s, p, id) && Owns(s, q, id)
  }

  ghost predicate RepliedUnacked(s: State, id: Id) {
    exists tag :: tag in s.held && s.held[tag].envelope.id == id && s.held[tag].phase.Replied?
  }

  /** A requeue task dies asleep with the request. */
  ghost predicate DiesAsleep(s: State, a: Step, id: Id) {
    (a == OfMemory(Crash) || (a.OfMessage? && a.message.RepublishFails?)) && exists j :: Owns(s, InAsleep(j), id)
  }

  /** The TTL of the shared queue strikes; never a private-only request. */
  ghost predicate TimesOut(s: State, a: Step, id: Id)
    requires id in s.sent
  {
    && a.OfMessage? && a.message.DropExpired? && Owns(s, InReady(a.message.k), id)
    && s.ready[a.message.k].queue.Shared?
    && !(s.sent[id].body.Routed? && s.sent[id].body.mode.PrivateOnly?)
  }

  /** The request's queue is deleted while the consumer is away. */
  ghost predicate QueueDies(s: State, a: Step, id: Id) {
    && !s.up && a.OfMemory? && a.memory.QueueExpires?
    && exists k :: Owns(s, InReady(k), id) && s.ready[k].queue == a.memory.queue
  }

  /**
    The only ways to lose a request, so that nobody owes it an answer or has given one:
    a requeue task that dies asleep, the TTL of the shared queue, or its queue deleted
    while the consumer is away. The only way to make a second answer possible: its
    message is taken back, or its callback dies, between reply and acknowledgement.
   */
  lemma WhatLosesRequests(c: Config, s: State, a: Step, s': State, id: Id)
    requires Inv(c, s) && Next(c, s, a, s')
    ensures Owned(s, id) ==> id in s.sent
    ensures Owned(s, id) && !Owned(s', id) ==> DiesAsleep(s, a, id) || TimesOut(s, a, id) || QueueDies(s, a, id)
    ensures !OwnedTwice(s, id) && OwnedTwice(s', id) ==>
              RepliedUnacked(s, id) && (a == OfMemory(Crash) || (a.OfMessage? && a.message.Redeliver?))
  {
    OwnedRequestIsSent(c, s, id);
    StepKeepsInv(c, s, a, s');
    if Owned(s, id) && !Owned(s', id) {
      UnownedIsNewlyLost(c, s, a, s', id);
      NewlyLost(c, s, a, s', id);
    }
    if !OwnedTwice(s, id) && OwnedTwice(s', id) {
      SecondOwner(c, s, a, s', id);
    }
  }

  lemma OwnedRequestIsSent(c: Config, s: State, id: Id)
    requires Placed(c, s)
    ensures Owned(s, id) ==> id in s.sent
  {
    if p :| Owns(s, p, id) {
      OwnedIsSent(c, s, p, id);
    }
  }

  /** An answered request is owned by its answer, so one without owner is lost, and was not before. */
  lemma UnownedIsNewlyLost(c: Config, s: State, a: Step, s': State, id: Id)
    requires Inv(c, s) && Next(c, s, a, s') && Conserved(s') && Owned(s, id) && !Owned(s', id)
    ensures id in s'.lost && id !in s.lost
  {
    OwnedRequestIsSent(c, s, id);
    StepExtends(c, s, a, s');
    AnsweredIsOwned(s', id);
    AnswersStay(s, s', id);
  }

  lemma AnsweredIsOwned(s: State, id: Id)
    ensures HasAnswer(s.answers, id) ==> Owned(s, id)
  {
    if m :| 0 <= m < |s.answers| && s.answers[m].id == id {
      assert Owns(s, InAnswers(m), id);
    }
  }

  lemma AnswersStay(s: State, s': State, id: Id)
    requires Extends(s, s')
    ensures HasAnswer(s.answers, id) ==> HasAnswer(s'.answers, id)
  {
    if m :| 0 <= m < |s.answers| && s.answers[m].id == id {
      assert s'.answers[m] == s'.answers[..|s.answers|][m];
    }
  }

  lemma NewlyLost(c: Config, s: State, a: Step, s': State, id: Id)
    requires Inv(c, s) && Next(c, s, a, s') && id in s.sent && id in s'.lost && id !in s.lost
    ensures DiesAsleep(s, a, id) || TimesOut(s, a, id) || QueueDies(s, a, id)
  {
    match a
    case OfSender(n, x, b) => SendFrame(s, n, x, b);
    case OfMessage(b) => MoveLoses(c, s, b, id);
    case OfMemory(b) => ChangeLoses(c, s, b, id);
  }

  lemma SecondOwner(c: Config, s: State, a: Step, s': State, id: Id)
    requires Inv(c, s) && Next(c, s, a, s') && !OwnedTwice(s, id) && OwnedTwice(s', id)
    ensures RepliedUnacked(s, id) && (a == OfMemory(Crash) || (a.OfMessage? && a.message.Redeliver?))
  {
    var p, q :| p != q && Owns(s', p, id) && Owns(s', q, id);
    match a
    case OfSender(n, x, b) => SendMakesNoSecond(c, s, n, x, b, p, q, id);
    case OfMessage(b) =>
      OwnerCameFrom(c, s, b, p, id);
      OwnerCameFrom(c, s, b, q, id);
    case OfMemory(b) =>
      ChangeOwners(c, s, b, p, id);
      ChangeOwners(c, s, b, q, id);
  }

  lemma SendMakesNoSecond(c: Config, s: State, n: SenderName, x: Id, b: SenderStep, p: Place, q: Place, id: Id)
    requires Placed(c, s) && CallsOk(s) && CanSend(s, n, x, b) && p != q
    requires Owns(DoSend(s, n, x, b), p, id) && Owns(DoSend(s, n, x, b), q, id)
    ensures OwnedTwice(s, id)
  {
    if b.Publish? {
      PublishAddsOneOwner(c, s, n, x, b.k);
    } else {
      QuietSendKeepsOwner(s, n, x, b, p, id);
      QuietSendKeepsOwner(s, n, x, b, q, id);
    }
  }

  lemma QuietSendKeepsOwner(s: State, n: SenderName, x: Id, b: SenderStep, p: Place, id: Id)
    requires CanSend(s, n, x, b) && !b.Publish? && Owns(DoSend(s, n, x, b), p, id)
    ensures Owns(s, p, id)
  {
    SendFrame(s, n, x, b);
  }

  lemma ChangeOwners(c: Config, s: State, a: MemoryStep, p: Place, id: Id)
    requires CanChange(c, s, a) && Owns(DoChange(c, s, a), p, id)
    ensures Owns(s, p, id) || (a.Crash? && RepliedUnacked(s, id))
  {
  }

  lemma MoveLoses(c: Config, s: State, a: MessageStep, id: Id)
    requires Inv(c, s) && CanMove(c, s, a)
    ensures id in DoMove(c, s, a).lost && id !in s.lost ==>
            || (a.RepublishFails? && Owns(s, InAsleep(a.j), id))
            || (a.DropExpired? && Owns(s, InReady(a.k), id) && s.ready[a.k].queue.Shared?
                && !(s.sent[id].body.Routed? && s.sent[id].body.mode.PrivateOnly?))
    ensures id in DoMove(c, s, a).doubtful && id !in s.doubtful ==>
            a.Redeliver? && a.tag in s.held && s.held[a.tag].envelope.id == id && s.held[a.tag].phase.Replied?
  {
    RevivedIsDoubtful(c, s, a, id);
    if id in DoMove(c, s, a).lost && id !in s.lost {
      var p := NewlyLostWasDropped(c, s, a, id);
      if a.DropExpired? {
        DroppedIsNotPrivate(c, s, a.k);
      }
    }
  }

  lemma DroppedIsNotPrivate(c: Config, s: State, k: nat)
    requires Placed(c, s) && CanDrop(s, k)
    ensures s.ready[k].envelope.id in s.sent
    ensures var body := s.sent[s.ready[k].envelope.id].body; !(body.Routed? && body.mode.PrivateOnly?)
  {
    assert Faithful(s.sent, s.ready[k].envelope, s.ready[k].queue);
  }

  lemma ChangeLoses(c: Config, s: State, a: MemoryStep, id: Id)
    requires CanChange(c, s, a)
    ensures id in DoChange(c, s, a).lost && id !in s.lost ==>
            || (a.Crash? && exists j :: Owns(s, InAsleep(j), id))
            || (!s.up && a.QueueExpires? && exists k :: Owns(s, InReady(k), id) && s.ready[k].queue == a.queue)
    ensures id in DoChange(c, s, a).doubtful && id !in s.doubtful ==>
            a.Crash? && exists tag :: tag in s.held && s.held[tag].envelope.id == id && s.held[tag].phase.Replied?
  {
    if a.Crash? && id in DoCrash(s).lost && id !in s.lost {
      var j :| j in s.asleep && s.asleep[j].envelope.id == id;
      assert Owns(s, InAsleep(j), id);
    }
    if a.QueueExpires? && id in DoExpireQueue(s, a.queue).lost && id !in s.lost {
      var k :| k in s.ready && s.ready[k].queue == a.queue && s.ready[k].envelope.id == id;
      assert Owns(s, InReady(k), id);
    }
  }

  /** A step without a crash, a deleted queue, a failed republish, a TTL drop or a redelivery. */
  predicate Calm(a: Step) {
    match a
    case OfSender(_, _, _) => true
    case OfMessage(b) => !b.RepublishFails? && !b.DropExpired? && !b.Redeliver?
    case OfMemory(b) => !b.Crash? && !b.QueueExpires?
  }

  /** Without such steps nothing is lost, so every published request always has its one owner. */
  lemma {:induction false} CalmRunsConserve(c: Config, states: seq<State>, steps: seq<Step>, i: nat)
    requires IsRun(c, states, steps) && i <= |steps|
    requires forall j :: 0 <= j < |steps| ==> Calm(steps[j])
    ensures states[i].lost == {} && states[i].doubtful == {}
    ensures forall id :: id in states[i].sent ==>
              exists p :: Owns(states[i], p, id) && forall q :: Owns(states[i], q, id) ==> q == p
  {
    if i > 0 {
      CalmRunsConserve(c, states, steps, i - 1);
      assert StepAt(c, states, steps, i - 1);
      CalmStep(c, states[i - 1], steps[i - 1], states[i]);
    }
    forall id | id in states[i].sent
      ensures exists p :: Owns(states[i], p, id) && forall q :: Owns(states[i], q, id) ==> q == p
    {
      PrefixIsRun(c, states, steps, i);
      ExactlyOneOwner(c, states[i], id);
    }
  }

  lemma CalmMove(c: Config, s: State, a: MessageStep)
    requires CanMove(c, s, a) && Calm(OfMessage(a))
    ensures DoMove(c, s, a).lost == s.lost && DoMove(c, s, a).doubtful == s.doubtful
  {
  }

  lemma CalmChange(c: Config, s: State, a: MemoryStep)
    requires CanChange(c, s, a) && Calm(OfMemory(a))
    ensures DoChange(c, s, a).lost == s.lost && DoChange(c, s, a).doubtful == s.doubtful
  {
  }

  lemma CalmStep(c: Config, s: State, a: Step, s': State)
    requires Next(c, s, a, s') && Calm(a)
    ensures s'.lost == s.lost && s'.doubtful == s.doubtful
  {
    match a
    case OfSender(n, id, b) => SendFrame(s, n, id, b);
    case OfMessage(b) => CalmMove(c, s, b);
    case OfMemory(b) => CalmChange(c, s, b);
  }

  // ---- stuck registrations ----

  ghost predicate IsStuck(s: State, tag: nat, e: Envelope) {
    tag in s.held && s.held[tag] == Hold(e, Stuck)
  }

  lemma MoveKeepsStuck(c: Config, s: State, a: MessageStep, tag: nat, e: Envelope)
    requires CanMove(c, s, a) && IsStuck(s, tag, e) && !(a.Redeliver? && a.tag == tag)
    ensures !(a.Deliver? && a.tag == tag) && IsStuck(DoMove(c, s, a), tag, e)
  {
  }

  lemma ChangeKeepsStuck(c: Config, s: State, a: MemoryStep, tag: nat, e: Envelope)
    requires CanChange(c, s, a) && IsStuck(s, tag, e)
    ensures IsStuck(DoChange(c, s, a), tag, e)
  {
  }

  lemma StepKeepsStuck(c: Config, s: State, a: Step, s': State, tag: nat, e: Envelope)
    requires Next(c, s, a, s') && IsStuck(s, tag, e)
    requires !(a.OfMessage? && a.message.Redeliver? && a.message.tag == tag)
    ensures IsStuck(s', tag, e) && !(a.OfMessage? && a.message.Deliver? && a.message.tag == tag)
  {
    match a
    case OfSender(n, id, b) => SendFrame(s, n, id, b);
    case OfMessage(b) => MoveKeepsStuck(c, s, b, tag, e);
    case OfMemory(b) => ChangeKeepsStuck(c, s, b, tag, e);
  }

  /**
    A callback that raised stops its registration: until the broker takes the message
    back it gets no other, whatever else happens.
   */
  lemma {:induction false} StuckStopsConsumption(
    c: Config, states: seq<State>, steps: seq<Step>, i: nat, j: nat, tag: nat, e: Envelope
  )
    requires IsRun(c, states, steps) && i <= j <= |steps| && IsStuck(states[i], tag, e)
    requires forall k :: i <= k < j && steps[k].OfMessage? && steps[k].message.Redeliver? ==>
              steps[k].message.tag != tag
    ensures IsStuck(states[j], tag, e)
    ensures forall k :: i <= k < j && steps[k].OfMessage? && steps[k].message.Deliver? ==> steps[k].message.tag != tag
    decreases j
  {
    if i < j {
      StuckStopsConsumption(c, states, steps, i, j - 1, tag, e);
      assert StepAt(c, states, steps, j - 1);
      StepKeepsStuck(c, states[j - 1], steps[j - 1], states[j], tag, e);
    }
  }

  // ---- envelopes and queues ----

  /** The message of an owner that still carries one. */
  function MessageAt(s: State, p: Place): Option<Envelope> {
    match p
    case InReady(k) => if k in s.ready then Some(s.ready[k].envelope) else None
    case InHeld(tag) => if tag in s.held then Some(s.held[tag].envelope) else None
    case InAsleep(j) => if j in s.asleep then Some(s.asleep[j].envelope) else None
    case InAnswers(_) => None
  }

  /** The queue that owner's message is in, was taken from, or is bound for. */
  function QueueAt(c: Config, s: State, p: Place): Option<QueueName> {
    match p
    case InReady(k) => if k in s.ready then Some(s.ready[k].queue) else None
    case InHeld(tag) => if tag in s.held && tag in c.consumers then Some(c.consumers[tag]) else None
    case InAsleep(j) => if j in s.asleep then Some(s.asleep[j].target) else None
    case InAnswers(_) => None
  }

  /**
    However often a request is requeued, and even if it came back after its reply, it
    has one message, whose id, reply address, priority and body are those first
    published and whose counter is the number of requeues the request underwent.
   */
  lemma EnvelopeNeverChanges(c: Config, s: State, p: Place, q: Place, id: Id)
    requires Reachable(c, s) && Carries(s, p, id)
    ensures Carries(s, q, id) ==> q == p
    ensures id in s.sent && s.sent[id].id == id
    ensures MessageAt(s, p).Some? && SameRequest(MessageAt(s, p).value, s.sent[id])
    ensures CountAt(s, p, id) == Requeues(s.log, id)
  {
    ReachableInv(c, s);
    CarriedIsSent(c, s, p, id);
    CarriedIsFaithful(c, s, p, id);
  }

  lemma CarriedIsFaithful(c: Config, s: State, p: Place, id: Id)
    requires Placed(c, s) && Carries(s, p, id)
    ensures MessageAt(s, p).Some? && MessageAt(s, p).value.id == id && QueueAt(c, s, p).Some?
    ensures RequeueCount(MessageAt(s, p).value.headers) == CountAt(s, p, id)
    ensures Faithful(s.sent, MessageAt(s, p).value, QueueAt(c, s, p).value)
  {
    match p
    case InReady(k) => assert Faithful(s.sent, s.ready[k].envelope, s.ready[k].queue);
    case InHeld(tag) => assert GoodHold(c.consumers[tag], s.held[tag], s.sent);
    case InAsleep(j) => assert Faithful(s.sent, s.asleep[j].envelope, s.asleep[j].target);
  }

  /** A reply goes where its request asked, and reports its requeues unless the request has come back since. */
  lemma RepliesMatchRequests(c: Config, s: State, m: nat)
    requires Reachable(c, s) && m < |s.answers|
    ensures var r := s.answers[m];
            r.id in s.sent && r.replyTo == s.sent[r.id].replyTo &&
                  (r.id !in s.doubtful ==> r.requeueCount == Requeues(s.log, r.id))
  {
    ReachableInv(c, s);
    assert s.answers[m] in s.answers && GoodAnswer(s.answers[m], s.sent);
  }

  /** Step `j` published reply `m`. */
  ghost predicate RepliedAt(states: seq<State>, j: nat, m: nat) {
    j + 1 < |states| && |states[j].answers| == m && |states[j + 1].answers| == m + 1
  }

  /** The count in any reply is the number of requeues its request had undergone when it was published. */
  lemma {:induction false} ReplyReportsRequeues(c: Config, states: seq<State>, steps: seq<Step>, i: nat, m: nat)
    requires IsRun(c, states, steps) && i <= |steps| && m < |states[i].answers|
    ensures exists j :: 0 <= j < i && RepliedAt(states, j, m)
                        && states[i].answers[m].requeueCount == Requeues(states[j].log, states[i].answers[m].id)
  {
    if i > 0 {
      RunKeepsInv(c, states, steps, i - 1);
      assert StepAt(c, states, steps, i - 1);
      ReplyStep(c, states[i - 1], steps[i - 1], states[i]);
      if m < |states[i - 1].answers| {
        ReplyReportsRequeues(c, states, steps, i - 1, m);
      } else {
        assert RepliedAt(states, i - 1, m);
      }
    }
  }

  lemma ReplyStep(c: Config, s: State, a: Step, s': State)
    requires Inv(c, s) && Next(c, s, a, s')
    ensures |s.answers| <= |s'.answers| <= |s.answers| + 1
    ensures forall m :: 0 <= m < |s.answers| ==> s'.answers[m] == s.answers[m]
    ensures |s'.answers| > |s.answers| ==>
              s'.answers[|s.answers|].requeueCount == Requeues(s.log, s'.answers[|s.answers|].id)
  {
    match a
    case OfSender(n, id, b) => SendFrame(s, n, id, b);
    case OfMessage(b) => MoveReplies(c, s, b);
    case OfMemory(b) => ChangeKeepsAnswers(c, s, b);
  }

  lemma MoveReplies(c: Config, s: State, a: MessageStep)
    requires MessagesCounted(s) && CanMove(c, s, a)
    ensures var after := DoMove(c, s, a).answers;
            if !a.PublishReply? then after == s.answers
            else |after| == |s.answers| + 1 && after[..|s.answers|] == s.answers
                 && after[|s.answers|].requeueCount == Requeues(s.log, after[|s.answers|].id)
  {
    if a.PublishReply? {
      assert Carries(s, InHeld(a.tag), s.held[a.tag].envelope.id);
    }
  }

  /** A private-only request only ever sits in its organization's queue and is only served by that organization. */
  lemma PrivateOnlyAsSent(c: Config, s: State, id: Id)
    requires Reachable(c, s) && id in s.sent && s.sent[id].body.Routed? && s.sent[id].body.mode.PrivateOnly?
    ensures forall p :: Carries(s, p, id) ==> QueueAt(c, s, p) == Some(PrivateOf(s.sent[id].body.organization))
    ensures forall r :: r in s.answers && r.id == id ==>
              r.server.Some? && r.server.value.organization == s.sent[id].body.organization
  {
    ReachableInv(c, s);
    forall p | Carries(s, p, id)
      ensures QueueAt(c, s, p) == Some(PrivateOf(s.sent[id].body.organization))
    {
      CarriedIsFaithful(c, s, p, id);
    }
    forall r | r in s.answers && r.id == id
      ensures r.server.Some? && r.server.value.organization == s.sent[id].body.organization
    {
      assert GoodAnswer(r, s.sent);
    }
  }

  // ---- what later states keep ----

  /** Requests as published, and the log, are only ever added to. */
  ghost predicate Extends(s: State, s': State) {
    && s.now <= s'.now
    && (forall id :: id in s.sent ==> id in s'.sent && s'.sent[id] == s.sent[id])
    && |s.log| <= |s'.log| && s'.log[..|s.log|] == s.log
    && |s.answers| <= |s'.answers| && s'.answers[..|s.answers|] == s.answers
  }

  lemma StepExtends(c: Config, s: State, a: Step, s': State)
    requires CallsOk(s) && Next(c, s, a, s')
    ensures Extends(s, s')
  {
    match a
    case OfSender(n, id, b) =>
      SendFrame(s, n, id, b);
      if b.Publish? {
        PublishedIsNew(s, n, id, b.k);
      }
    case OfMessage(b) => MoveExtends(c, s, b);
    case OfMemory(b) => ChangeExtends(c, s, b);
  }

  lemma MoveExtends(c: Config, s: State, a: MessageStep)
    requires CanMove(c, s, a)
    ensures Extends(s, DoMove(c, s, a))
  {
  }

  lemma ChangeExtends(c: Config, s: State, a: MemoryStep)
    requires CanChange(c, s, a)
    ensures Extends(s, DoChange(c, s, a))
  {
  }

  lemma {:induction false} RunExtends(c: Config, states: seq<State>, steps: seq<Step>, i: nat, j: nat)
    requires IsRun(c, states, steps) && i <= j <= |steps|
    ensures Extends(states[i], states[j])
    decreases j
  {
    if i < j {
      RunExtends(c, states, steps, i, j - 1);
      RunKeepsInv(c, states, steps, j - 1);
      assert StepAt(c, states, steps, j - 1);
      StepExtends(c, states[j - 1], steps[j - 1], states[j]);
      ExtendsIsTransitive(states[i], states[j - 1], states[j]);
    }
  }

  lemma ExtendsIsTransitive(s: State, t: State, u: State)
    requires Extends(s, t) && Extends(t, u)
    ensures Extends(s, u)
  {
    assert u.log[..|s.log|] == u.log[..|t.log|][..|s.log|];
    assert u.answers[..|s.answers|] == u.answers[..|t.answers|][..|s.answers|];
  }

  lemma {:induction false} RequeuesMonotone(log: seq<Event>, n: nat, id: Id)
    requires n <= |log|
    ensures Requeues(log[..n], id) <= Requeues(log, id)
  {
    if n < |log| {
      RequeuesMonotone(log[..|log| - 1], n, id);
      assert log[..|log| - 1][..n] == log[..n];
    } else {
      assert log[..n] == log;
    }
  }

  // ---- in-flight sets ----

  /** A server's in-flight set is exactly what the history says: the still open admissions. */
  lemma TrackedIsHistory(c: Config, s: State, server: Server, id: Id)
    requires Reachable(c, s) && server in s.tracked
    ensures id in s.tracked[server] <==> exists e :: StillOpen(s.log, server, id, e)
  {
    ReachableInv(c, s);
    ReplayMeaning(s.log, server, id);
  }

  /** No id is ever left behind: it has a pending timer, and the set is no larger than the recent admissions. */
  lemma NoPermanentLeak(c: Config, s: State, server: Server)
    requires Reachable(c, s) && server in s.tracked
    ensures forall id :: id in s.tracked[server] ==> HasTimer(s.timers, server, id)
    ensures |s.tracked[server]| <= Admissions(s.log, server, s.now - c.timeout)
    ensures NothingDue(s) ==> |s.tracked[server]| <= Admissions(s.log, server, s.now - c.timeout + 1)
    // a timeout without admissions empties the set
    ensures Admissions(s.log, server, s.now - c.timeout) == 0 ==> s.tracked[server] == {}
  {
    ReachableInv(c, s);
    NoLeakNow(c, s, server);
  }

  lemma NoLeakNow(c: Config, s: State, server: Server)
    requires NoLeak(s) && TimersLogged(c, s) && server in s.tracked
    ensures forall id :: id in s.tracked[server] ==> HasTimer(s.timers, server, id)
    ensures |s.tracked[server]| <= Admissions(s.log, server, s.now - c.timeout)
    ensures NothingDue(s) ==> |s.tracked[server]| <= Admissions(s.log, server, s.now - c.timeout + 1)
    ensures Admissions(s.log, server, s.now - c.timeout) == 0 ==> s.tracked[server] == {}
  {
    TrackedAtMostRecentAdmissions(c, s, server);
    if NothingDue(s) {
      TrackedAtMostYoungerAdmissions(c, s, server);
    }
  }

  /** Every completion has the id of an answered request and the url of the server it was answered with. */
  lemma CompletionsNameTheServer(c: Config, s: State, k: nat)
    requires Reachable(c, s) && k in s.completions
    ensures exists r :: r in s.answers && r.server.Some?
                        && s.completions[k].url == r.server.value.url && s.completions[k].id == r.id
  {
    ReachableInv(c, s);
    assert GoodCompletion(s.completions[k], s.answers);
  }

  // ---- calls and responses ----

  /** A sender's table is exactly its registered calls; what a call returns was published for it. */
  lemma CallsMatchResponses(c: Config, s: State, n: SenderName, id: Id)
    requires Reachable(c, s) && n in s.clients
    ensures id in s.clients[n].futures <==>
            id in s.clients[n].calls && Registered(s.clients[n].calls[id])
    ensures id in s.clients[n].calls && HeldReply(s.clients[n].calls[id]).Some? ==>
            var r := HeldReply(s.clients[n].calls[id]).value;
            r.id == id && r.replyTo == n && r in s.answers
  {
    ReachableInv(c, s);
    assert GoodClient(n, s.clients[n], s.sent, s.answers);
  }

  /** A call that has returned never changes again, but that a leaked future may still be popped. */
  ghost predicate SameOutcome(before: CallStatus, after: CallStatus) {
    before.Finished? ==> after == before || (before == Finished(Raised(true)) && after == Finished(Raised(false)))
  }

  ghost predicate OutcomeKept(before: map<SenderName, Client>, after: map<SenderName, Client>, n: SenderName, id: Id)
    requires HasCall(before, n, id)
  {
    HasCall(after, n, id) && SameOutcome(before[n].calls[id], after[n].calls[id])
  }

  /** No step changes what a finished call returned, and a step touches at most one call. */
  lemma StepKeepsOutcomes(c: Config, s: State, a: Step, s': State, n: SenderName, id: Id)
    requires CallsOk(s) && Next(c, s, a, s') && HasCall(s.clients, n, id)
    ensures OutcomeKept(s.clients, s'.clients, n, id)
    ensures !(a.OfSender? && a.n == n && a.id == id) ==> s'.clients[n].calls[id] == s.clients[n].calls[id]
  {
    match a
    case OfSender(m, x, b) => SendKeepsOutcomes(s, m, x, b, n, id);
    case OfMessage(b) => MoveKeepsClients(c, s, b);
    case OfMemory(b) => ChangeKeepsClients(c, s, b);
  }

  lemma SendKeepsOutcomes(s: State, m: SenderName, x: Id, b: SenderStep, n: SenderName, id: Id)
    requires CallsOk(s) && CanSend(s, m, x, b) && HasCall(s.clients, n, id)
    ensures var s' := DoSend(s, m, x, b);
            && OutcomeKept(s.clients, s'.clients, n, id)
            && (m != n || x != id ==> s'.clients[n].calls[id] == s.clients[n].calls[id])
  {
    assert GoodClient(m, s.clients[m], s.sent, s.answers);
    SendKeepsClientOk(s, m, x, b);
    OnlyOwner(s, m, x, b);
    OnlyItsClient(s, m, x, b);
  }

  /** So a call finishes at most once. */
  lemma {:induction false} FinishedCallsStay(
    c: Config, states: seq<State>, steps: seq<Step>, i: nat, j: nat, n: SenderName, id: Id
  )
    requires IsRun(c, states, steps) && i <= j <= |steps| && HasCall(states[i].clients, n, id)
    ensures Inv(c, states[j]) && OutcomeKept(states[i].clients, states[j].clients, n, id)
    decreases j
  {
    if i == j {
      RunKeepsInv(c, states, steps, i);
    } else {
      FinishedCallsStay(c, states, steps, i, j - 1, n, id);
      assert StepAt(c, states, steps, j - 1);
      StepKeepsKept(c, states[i].clients, states[j - 1], steps[j - 1], states[j], n, id);
    }
  }

  lemma StepKeepsKept(c: Config, first: map<SenderName, Client>, s: State, a: Step, s': State, n: SenderName, id: Id)
    requires Inv(c, s) && Next(c, s, a, s') && HasCall(first, n, id) && OutcomeKept(first, s.clients, n, id)
    ensures Inv(c, s') && OutcomeKept(first, s'.clients, n, id)
  {
    StepKeepsInv(c, s, a, s');
    StepKeepsOutcomes(c, s, a, s', n, id);
  }
}
