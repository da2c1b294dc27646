/**
  What becomes of one call over a whole run, in terms of what its caller asked for:
  what is published, that its reply comes back and is returned, and that its
  completion clears the server it was answered with.
 */
module Journeys {
  import opened Wrappers
  import opened Messages
  import opened RpcClient
  import opened RpcServer
  import opened Dispatch
  import opened Calls
  import opened Placement
  import opened Conservation
  import opened History
  import opened Runs
  import opened Capacity
  import opened Theorems

  // ---- what is published ----

  function QueueFor(mode: RoutingMode, organization: string): QueueName {
    if mode == Any then Shared else PrivateOf(organization)
  }

  /** The call carries, and once published has sent, exactly what was asked for. */
  ghost predicate CarriesAsked(
    s: State, n: SenderName, id: Id, priority: int, mode: RoutingMode, organization: string
  ) {
    && HasCall(s.clients, n, id)
    && (s.clients[n].calls[id].Publishing? ==>
          && AsAsked(s.clients[n].calls[id].envelope, id, n, priority, mode, organization)
          && s.clients[n].calls[id].queue == QueueFor(mode, organization))
    && (id in s.sent ==> AsAsked(s.sent[id], id, n, priority, mode, organization))
  }

  lemma CallCarriesAsked(
    s: State, n: SenderName, id: Id, threshold: int, priority: int, mode: RoutingMode, organization: string
  )
    requires CallsOk(s) && CanSend(s, n, id, Call(threshold, priority, mode, organization))
    ensures var s' := DoSend(s, n, id, Call(threshold, priority, mode, organization));
            CarriesAsked(s', n, id, priority, mode, organization)
  {
    assert id in s.sent ==> HasCall(s.clients, s.sent[id].replyTo, id);
  }

  lemma SendKeepsAsked(
    s: State, m: SenderName, x: Id, a: SenderStep,
    n: SenderName, id: Id, priority: int, mode: RoutingMode, organization: string
  )
    requires CallsOk(s) && CanSend(s, m, x, a) && CarriesAsked(s, n, id, priority, mode, organization)
    ensures CarriesAsked(DoSend(s, m, x, a), n, id, priority, mode, organization)
  {
    OnlyOwner(s, m, x, a);
    OnlyItsClient(s, m, x, a);
    assert GoodClient(m, s.clients[m], s.sent, s.answers);
    SendKeepsClientOk(s, m, x, a);
    if m == n && x == id {
      OwnStepKeepsAsked(s, n, id, a, priority, mode, organization);
    }
  }

  lemma OwnStepKeepsAsked(
    s: State, n: SenderName, id: Id, a: SenderStep, priority: int, mode: RoutingMode, organization: string
  )
    requires CanSend(s, n, id, a) && !a.Call? && CarriesAsked(s, n, id, priority, mode, organization)
    ensures CarriesAsked(DoSend(s, n, id, a), n, id, priority, mode, organization)
  {
  }

  lemma OtherStepsKeepSenders(c: Config, s: State, a: Step, s': State)
    requires Next(c, s, a, s') && !a.OfSender?
    ensures s'.clients == s.clients && s'.sent == s.sent
  {
    match a
    case OfMessage(b) =>
      MoveKeepsClients(c, s, b);
      MoveKeepsSent(c, s, b);
    case OfMemory(b) =>
      ChangeKeepsClients(c, s, b);
      ChangeKeepsSent(c, s, b);
  }

  lemma StepKeepsAsked(
    c: Config, s: State, a: Step, s': State,
    n: SenderName, id: Id, priority: int, mode: RoutingMode, organization: string
  )
    requires CallsOk(s) && Next(c, s, a, s') && CarriesAsked(s, n, id, priority, mode, organization)
    ensures CarriesAsked(s', n, id, priority, mode, organization)
  {
    if a.OfSender? {
      SendKeepsAsked(s, a.n, a.id, a.sender, n, id, priority, mode, organization);
    } else {
      OtherStepsKeepSenders(c, s, a, s');
    }
  }

  /** Step `i` is the call. */
  ghost predicate CalledAt(
    states: seq<State>, steps: seq<Step>, i: nat,
    n: SenderName, id: Id, priority: int, mode: RoutingMode, organization: string
  ) {
    && i < |steps| && steps[i].OfSender? && steps[i].n == n && steps[i].id == id && steps[i].sender.Call?
    && steps[i].sender.priority == priority && steps[i].sender.mode == mode
    && steps[i].sender.organization == organization
  }

  /** What a call publishes is what its caller asked for, whenever it does. */
  lemma {:induction false} PublishedAsAsked(
    c: Config, states: seq<State>, steps: seq<Step>, i: nat, j: nat,
    n: SenderName, id: Id, priority: int, mode: RoutingMode, organization: string
  )
    requires IsRun(c, states, steps) && i < j <= |steps|
    requires CalledAt(states, steps, i, n, id, priority, mode, organization)
    ensures CarriesAsked(states[j], n, id, priority, mode, organization)
    ensures id in states[j].sent ==> AsAsked(states[j].sent[id], id, n, priority, mode, organization)
    decreases j
  {
    assert StepAt(c, states, steps, j - 1);
    RunKeepsInv(c, states, steps, j - 1);
    if j == i + 1 {
      CallCarriesAsked(states[i], n, id, steps[i].sender.threshold, priority, mode, organization);
    } else {
      PublishedAsAsked(c, states, steps, i, j - 1, n, id, priority, mode, organization);
      StepKeepsAsked(c, states[j - 1], steps[j - 1], states[j], n, id, priority, mode, organization);
    }
  }

  /** A call is turned away exactly when more messages than its threshold wait in the shared queue. */
  lemma OverloadedIff(
    s: State, n: SenderName, id: Id, threshold: int, priority: int, mode: RoutingMode, organization: string
  )
    requires CanSend(s, n, id, Call(threshold, priority, mode, organization))
    ensures var s' := DoSend(s, n, id, Call(threshold, priority, mode, organization));
            && HasCall(s'.clients, n, id)
            && (s'.clients[n].calls[id] == Finished(QueueOverloaded) <==>
                |set k | k in s.ready && s.ready[k].queue == Shared| > threshold)
            && (s'.clients[n].calls[id] != Finished(QueueOverloaded) ==>
                  s'.clients[n].calls[id].Publishing? && id in s'.clients[n].futures)
  {
    assert (set k | k in s.ready && s.ready[k].queue == Shared) == set k | k in s.ready && s.ready[k].queue.Shared?;
  }

  // ---- where it may be ----

  /**
    Whatever happens to it, a message of a call has what the call asked for, and sits in
    the shared queue for `any`, in its organization's for private-only, and for
    private-first there exactly until its first requeue.
   */
  lemma MessageAsAsked(
    c: Config, states: seq<State>, steps: seq<Step>, i: nat, j: nat, p: Place,
    n: SenderName, id: Id, priority: int, mode: RoutingMode, organization: string
  )
    requires IsRun(c, states, steps) && i < j <= |steps|
    requires CalledAt(states, steps, i, n, id, priority, mode, organization) && Carries(states[j], p, id)
    ensures var e := MessageAt(states[j], p);
            && e.Some? && e.value.id == id && e.value.replyTo == n && e.value.priority == Some(priority)
            && e.value.body == (if mode == Any then AvailableQuery else Routed(mode, organization))
    ensures mode == Any ==> QueueAt(c, states[j], p) == Some(Shared)
    ensures mode == PrivateOnly ==> QueueAt(c, states[j], p) == Some(PrivateOf(organization))
    ensures mode == PrivateFirst ==>
              QueueAt(c, states[j], p) ==
              Some(if Requeues(states[j].log, id) == 0 then PrivateOf(organization) else Shared)
  {
    PublishedAsAsked(c, states, steps, i, j, n, id, priority, mode, organization);
    PrefixIsRun(c, states, steps, j);
    ReachableInv(c, states[j]);
    EnvelopeNeverChanges(c, states[j], p, p, id);
    CarriedIsFaithful(c, states[j], p, id);
  }

  /** However often it is deferred, a call in mode private-only stays with its organization. */
  lemma PrivateOnlyConfined(
    c: Config, states: seq<State>, steps: seq<Step>, i: nat, j: nat,
    n: SenderName, id: Id, priority: int, organization: string
  )
    requires IsRun(c, states, steps) && i < j <= |steps|
    requires CalledAt(states, steps, i, n, id, priority, PrivateOnly, organization)
    ensures forall p :: Carries(states[j], p, id) ==> QueueAt(c, states[j], p) == Some(PrivateOf(organization))
    ensures forall r :: r in states[j].answers && r.id == id ==>
              r.replyTo == n && r.server.Some? && r.server.value.organization == organization
  {
    PublishedAsAsked(c, states, steps, i, j, n, id, priority, PrivateOnly, organization);
    PrefixIsRun(c, states, steps, j);
    ReachableInv(c, states[j]);
    AnswersAreSent(c, states[j], id);
    if id in states[j].sent {
      PrivateOnlyAsSent(c, states[j], id);
    }
    forall p | Carries(states[j], p, id)
      ensures id in states[j].sent
    {
      CarriedIsSent(c, states[j], p, id);
    }
  }

  lemma AnswersAreSent(c: Config, s: State, id: Id)
    requires Placed(c, s)
    ensures forall r :: r in s.answers && r.id == id ==> id in s.sent && r.replyTo == s.sent[id].replyTo
  {
    forall r | r in s.answers && r.id == id
      ensures id in s.sent && r.replyTo == s.sent[id].replyTo
    {
      assert GoodAnswer(r, s.sent);
    }
  }

  /** A call in mode private-first is private exactly until its first requeue. */
  lemma PrivateFirstUntilRequeued(
    c: Config, states: seq<State>, steps: seq<Step>, i: nat, j: nat, p: Place,
    n: SenderName, id: Id, priority: int, organization: string
  )
    requires IsRun(c, states, steps) && i < j <= |steps|
    requires CalledAt(states, steps, i, n, id, priority, PrivateFirst, organization) && Carries(states[j], p, id)
    ensures QueueAt(c, states[j], p) == Some(PrivateOf(organization)) <==> Requeues(states[j].log, id) == 0
    ensures QueueAt(c, states[j], p) == Some(Shared) <==> Requeues(states[j].log, id) > 0
  {
    MessageAsAsked(c, states, steps, i, j, p, n, id, priority, PrivateFirst, organization);
  }

  /** A call in mode private-first that has been requeued never returns to a private queue. */
  lemma PrivateFirstNeverReturns(
    c: Config, states: seq<State>, steps: seq<Step>, i: nat, k: nat, j: nat, p: Place,
    n: SenderName, id: Id, priority: int, organization: string
  )
    requires IsRun(c, states, steps) && i < k <= j <= |steps|
    requires CalledAt(states, steps, i, n, id, priority, PrivateFirst, organization)
    requires Requeues(states[k].log, id) > 0 && Carries(states[j], p, id)
    ensures QueueAt(c, states[j], p) == Some(Shared)
  {
    RunExtends(c, states, steps, k, j);
    RequeuesMonotone(states[j].log, |states[k].log|, id);
    PrivateFirstUntilRequeued(c, states, steps, i, j, p, n, id, priority, organization);
  }

  // ---- the reply comes back ----

  /** Nobody but its sender takes a reply out of the callback queue. */
  lemma StepKeepsReply(c: Config, s: State, a: Step, s': State, k: nat)
    requires Next(c, s, a, s') && k in s.inbox
    ensures k in s'.inbox ==> s'.inbox[k] == s.inbox[k]
    ensures k !in s'.inbox <==> a.OfSender? && a.sender.Response? && a.sender.k == k
  {
    match a
    case OfSender(n, id, b) =>
    case OfMessage(b) => MoveKeepsReplies(c, s, b, k);
    case OfMemory(b) => ChangeKeepsReplies(c, s, b);
  }

  lemma MoveKeepsReplies(c: Config, s: State, a: MessageStep, k: nat)
    requires CanMove(c, s, a) && k in s.inbox
    ensures k in DoMove(c, s, a).inbox && DoMove(c, s, a).inbox[k] == s.inbox[k]
  {
  }

  lemma ChangeKeepsReplies(c: Config, s: State, a: MemoryStep)
    requires CanChange(c, s, a)
    ensures DoChange(c, s, a).inbox == s.inbox
  {
  }

  lemma ReplyIsQueued(c: Config, s: State, tag: nat, k: nat)
    requires CanMove(c, s, PublishReply(tag, k))
    ensures var s' := DoMove(c, s, PublishReply(tag, k));
            && k in s'.inbox && |s'.answers| == |s.answers| + 1 && s'.inbox[k] == s'.answers[|s.answers|]
            && s'.inbox[k].id == s.held[tag].envelope.id && s'.inbox[k].replyTo == s.held[tag].envelope.replyTo
  {
  }

  /** A published reply waits in the callback queue its request named until it is consumed there. */
  lemma {:induction false} RepliesWait(
    c: Config, states: seq<State>, steps: seq<Step>, i: nat, j: nat, tag: nat, k: nat
  )
    requires IsRun(c, states, steps) && i < j <= |steps| && steps[i] == OfMessage(PublishReply(tag, k))
    requires forall l :: i < l < j && steps[l].OfSender? && steps[l].sender.Response? ==> steps[l].sender.k != k
    ensures tag in states[i].held && |states[i].answers| < |states[i + 1].answers|
    ensures k in states[j].inbox && states[j].inbox[k] == states[i + 1].answers[|states[i].answers|]
    ensures states[j].inbox[k].id == states[i].held[tag].envelope.id
    ensures states[j].inbox[k].replyTo == states[i].held[tag].envelope.replyTo
    decreases j
  {
    assert StepAt(c, states, steps, j - 1);
    if j == i + 1 {
      ReplyIsQueued(c, states[i], tag, k);
    } else {
      RepliesWait(c, states, steps, i, j - 1, tag, k);
      StepKeepsReply(c, states[j - 1], steps[j - 1], states[j], k);
    }
  }

  // ---- the reply is returned ----

  /** The call has this reply, or is over. */
  predicate HasReply(status: CallStatus, r: Reply) {
    status == Resolved(r) || (status.Publishing? && status.early == Some(r)) || status.Finished?
  }

  /** A reply that finds its call waiting, or still publishing, is the one the call has from then on. */
  lemma ResponseGivesReply(s: State, n: SenderName, id: Id, k: nat)
    requires CallsOk(s) && CanSend(s, n, id, Response(k))
    requires var status := s.clients[n].calls[id]; status.Waiting? || (status.Publishing? && status.early.None?)
    ensures HasCall(DoSend(s, n, id, Response(k)).clients, n, id)
    ensures HasReply(DoSend(s, n, id, Response(k)).clients[n].calls[id], s.inbox[k])
    ensures !DoSend(s, n, id, Response(k)).clients[n].calls[id].Finished?
  {
    assert GoodClient(n, s.clients[n], s.sent, s.answers);
    assert id in s.clients[n].futures;
  }

  lemma OwnStepKeepsReply(s: State, n: SenderName, id: Id, a: SenderStep, r: Reply)
    requires CallsOk(s) && CanSend(s, n, id, a) && !a.Call? && HasReply(s.clients[n].calls[id], r)
    ensures HasCall(DoSend(s, n, id, a).clients, n, id)
    ensures HasReply(DoSend(s, n, id, a).clients[n].calls[id], r)
  {
    assert GoodClient(n, s.clients[n], s.sent, s.answers);
  }

  lemma StepKeepsHasReply(c: Config, s: State, a: Step, s': State, n: SenderName, id: Id, r: Reply)
    requires CallsOk(s) && Next(c, s, a, s') && HasCall(s.clients, n, id) && HasReply(s.clients[n].calls[id], r)
    ensures HasCall(s'.clients, n, id) && HasReply(s'.clients[n].calls[id], r)
  {
    StepKeepsOutcomes(c, s, a, s', n, id);
    if a.OfSender? && a.n == n && a.id == id {
      assert HasCall(s.clients, n, id);
      OwnStepKeepsReply(s, n, id, a.sender, r);
    }
  }

  /** Step `i` consumed reply `r` for a call that was waiting, or still publishing. */
  ghost predicate ConsumedAt(states: seq<State>, steps: seq<Step>, i: nat, n: SenderName, id: Id, r: Reply) {
    && i < |steps| && i < |states| && steps[i].OfSender? && steps[i].n == n && steps[i].id == id
    && steps[i].sender.Response? && steps[i].sender.k in states[i].inbox && states[i].inbox[steps[i].sender.k] == r
    && HasCall(states[i].clients, n, id)
    && (states[i].clients[n].calls[id].Waiting?
        || (states[i].clients[n].calls[id].Publishing? && states[i].clients[n].calls[id].early.None?))
  }

  lemma {:induction false} ReplyIsKept(
    c: Config, states: seq<State>, steps: seq<Step>, i: nat, j: nat, n: SenderName, id: Id, r: Reply
  )
    requires IsRun(c, states, steps) && i < j <= |steps| && ConsumedAt(states, steps, i, n, id, r)
    ensures HasCall(states[j].clients, n, id) && HasReply(states[j].clients[n].calls[id], r)
    decreases j
  {
    assert StepAt(c, states, steps, j - 1);
    RunKeepsInv(c, states, steps, j - 1);
    if j == i + 1 {
      ResponseGivesReply(states[i], n, id, steps[i].sender.k);
    } else {
      ReplyIsKept(c, states, steps, i, j - 1, n, id, r);
      StepKeepsHasReply(c, states[j - 1], steps[j - 1], states[j], n, id, r);
    }
  }

  /**
    A call that returns without a timeout returns the very reply consumed for it; it
    returns a timeout exactly when the wait timed out, whatever came late.
   */
  lemma ReplyIsReturned(
    c: Config, states: seq<State>, steps: seq<Step>, i: nat, j: nat,
    n: SenderName, id: Id, r: Reply, timedOut: bool
  )
    requires IsRun(c, states, steps) && i < j < |steps| && ConsumedAt(states, steps, i, n, id, r)
    requires steps[j] == OfSender(n, id, Return(timedOut))
    ensures HasCall(states[j + 1].clients, n, id)
    ensures states[j + 1].clients[n].calls[id] == Finished(if timedOut then TimedOut else Answered(r))
  {
    ReplyIsKept(c, states, steps, i, j, n, id, r);
    assert StepAt(c, states, steps, j);
    ReturnMeans(states[j], n, id, timedOut);
  }

  /** What a return makes of the call, on its own. */
  lemma ReturnMeans(s: State, n: SenderName, id: Id, timedOut: bool)
    requires CanSend(s, n, id, Return(timedOut))
    ensures var s' := DoSend(s, n, id, Return(timedOut));
            && HasCall(s.clients, n, id) && HasCall(s'.clients, n, id)
            && (timedOut ==> s'.clients[n].calls[id] == Finished(TimedOut))
            && (!timedOut ==> s.clients[n].calls[id].Resolved?
                              && s'.clients[n].calls[id] == Finished(Answered(s.clients[n].calls[id].reply)))
            && (s.clients[n].calls[id].Cancelled? ==> timedOut)
  {
  }

  /** The wait is over, or the call is. */
  predicate IsTimedOut(status: CallStatus) {
    status.Cancelled? || status == Finished(TimedOut)
  }

  lemma OwnStepKeepsTimedOut(s: State, n: SenderName, id: Id, a: SenderStep)
    requires CallsOk(s) && CanSend(s, n, id, a) && !a.Call? && IsTimedOut(s.clients[n].calls[id])
    ensures HasCall(DoSend(s, n, id, a).clients, n, id)
    ensures IsTimedOut(DoSend(s, n, id, a).clients[n].calls[id])
    ensures a.Return? ==> a.timedOut && DoSend(s, n, id, a).clients[n].calls[id] == Finished(TimedOut)
  {
    assert GoodClient(n, s.clients[n], s.sent, s.answers);
  }

  lemma StepKeepsTimedOut(c: Config, s: State, a: Step, s': State, n: SenderName, id: Id)
    requires CallsOk(s) && Next(c, s, a, s') && HasCall(s.clients, n, id) && IsTimedOut(s.clients[n].calls[id])
    ensures HasCall(s'.clients, n, id) && IsTimedOut(s'.clients[n].calls[id])
    ensures a.OfSender? && a.n == n && a.id == id && a.sender.Return? ==>
              a.sender.timedOut && s'.clients[n].calls[id] == Finished(TimedOut)
  {
    StepKeepsOutcomes(c, s, a, s', n, id);
    if a.OfSender? && a.n == n && a.id == id {
      assert HasCall(s.clients, n, id);
      OwnStepKeepsTimedOut(s, n, id, a.sender);
    }
  }

  lemma TimeoutCancels(s: State, n: SenderName, id: Id)
    requires CanSend(s, n, id, Timeout)
    ensures HasCall(DoSend(s, n, id, Timeout).clients, n, id)
    ensures DoSend(s, n, id, Timeout).clients[n].calls[id].Cancelled?
    ensures id in s.clients[n].futures ==> id in DoSend(s, n, id, Timeout).clients[n].futures
  {
  }

  lemma {:induction false} TimedOutStays(
    c: Config, states: seq<State>, steps: seq<Step>, i: nat, j: nat, n: SenderName, id: Id
  )
    requires IsRun(c, states, steps) && i < j <= |steps| && steps[i] == OfSender(n, id, Timeout)
    ensures HasCall(states[j].clients, n, id) && IsTimedOut(states[j].clients[n].calls[id])
    decreases j
  {
    assert StepAt(c, states, steps, j - 1);
    if j == i + 1 {
      TimeoutCancels(states[i], n, id);
    } else {
      TimedOutStays(c, states, steps, i, j - 1, n, id);
      RunKeepsInv(c, states, steps, j - 1);
      StepKeepsTimedOut(c, states[j - 1], steps[j - 1], states[j], n, id);
    }
  }

  /** A call whose wait timed out returns a timeout, whatever reply comes before it does. */
  lemma TimeoutIsReturned(
    c: Config, states: seq<State>, steps: seq<Step>, i: nat, j: nat, n: SenderName, id: Id, timedOut: bool
  )
    requires IsRun(c, states, steps) && i < j < |steps| && steps[i] == OfSender(n, id, Timeout)
    requires steps[j] == OfSender(n, id, Return(timedOut))
    ensures timedOut && HasCall(states[j + 1].clients, n, id)
    ensures states[j + 1].clients[n].calls[id] == Finished(TimedOut)
  {
    TimedOutStays(c, states, steps, i, j, n, id);
    assert StepAt(c, states, steps, j);
    RunKeepsInv(c, states, steps, j);
    StepKeepsTimedOut(c, states[j], steps[j], states[j + 1], n, id);
  }

  // ---- the completion clears the server ----

  /** A completion is for the call that sends it, and for the server that call was answered with. */
  lemma CompletionOfCall(c: Config, s: State, n: SenderName, id: Id, k: nat)
    requires Reachable(c, s) && CanSend(s, n, id, SendCompletion(k))
    ensures HasCall(s.clients, n, id) && s.clients[n].calls[id].Finished? && s.clients[n].calls[id].outcome.Answered?
    ensures var r := s.clients[n].calls[id].outcome.reply;
            var s' := DoSend(s, n, id, SendCompletion(k));
            && r.server.Some? && k in s'.completions
            && s'.completions[k].id == id && s'.completions[k].url == r.server.value.url
  {
    ReachableInv(c, s);
    assert GoodClient(n, s.clients[n], s.sent, s.answers);
    assert HeldReply(s.clients[n].calls[id]).Some?;
  }

  /**
    In every reachable state: a completion that arrives takes the id it names out of the
    set of the server the request was answered with, and changes no other membership.
    It leaves the queue exactly when it is acknowledged.
   */
  lemma CompletionClears(c: Config, s: State, k: nat, acked: bool)
    requires ValidConfig(c) && Reachable(c, s) && CanChange(c, s, CompletionArrives(k, acked))
    ensures exists r :: r in s.answers && ClearsReply(c, s, k, acked, r)
  {
    CompletionsNameTheServer(c, s, k);
    var r :| r in s.answers && r.server.Some?
             && s.completions[k].url == r.server.value.url && s.completions[k].id == r.id;
    ServerIsConfigured(c, s, r);
    ClearsItsReply(c, s, k, acked, r);
  }

  lemma ServerIsConfigured(c: Config, s: State, r: Reply)
    requires Reachable(c, s) && r in s.answers && r.server.Some?
    ensures r.server.value in c.servers && r.server.value in s.tracked
  {
    ReachableInv(c, s);
  }

  lemma ClearsItsReply(c: Config, s: State, k: nat, acked: bool, r: Reply)
    requires DistinctUrls(c.servers) && CanChange(c, s, CompletionArrives(k, acked))
    requires r.server.Some? && r.server.value in c.servers && r.server.value in s.tracked
    requires s.completions[k].url == r.server.value.url && s.completions[k].id == r.id
    ensures ClearsReply(c, s, k, acked, r)
  {
    FindKnown(c.servers, r.server.value);
    ArrivalMeans(c, s, k, acked, r.server.value);
    ExpiryUndoesRecord(s.tracked, r.server.value, r.id);
  }

  lemma ArrivalMeans(c: Config, s: State, k: nat, acked: bool, v: Server)
    requires CanChange(c, s, CompletionArrives(k, acked)) && v in s.tracked
    requires FindByUrl(c.servers, s.completions[k].url) == Some(v)
    ensures var s' := DoChange(c, s, CompletionArrives(k, acked));
            && s'.tracked == Discard(s.tracked, v, s.completions[k].id)
            && s'.log == s.log + [Complete(v, s.completions[k].id)]
            && (k !in s'.completions <==> acked)
  {
  }

  ghost predicate ClearsReply(c: Config, s: State, k: nat, acked: bool, r: Reply)
    requires CanChange(c, s, CompletionArrives(k, acked))
  {
    var s' := DoChange(c, s, CompletionArrives(k, acked));
    && k in s.completions && r.id == s.completions[k].id
    && r.server.Some? && r.server.value in s.tracked && r.server.value.url == s.completions[k].url
    && DiffersAt(s.tracked, s'.tracked, r.server.value, r.id, false)
    && s'.log == s.log + [Complete(r.server.value, r.id)]
    && (k !in s'.completions <==> acked)
  }

  // ---- and all of it happens ----

  /** A call that returned a reply naming `v`. */
  ghost predicate AnsweredBy(s: State, n: SenderName, id: Id, v: Server) {
    && HasCall(s.clients, n, id) && s.clients[n].calls[id].Finished?
    && s.clients[n].calls[id].outcome.Answered? && s.clients[n].calls[id].outcome.reply.server == Some(v)
  }

  /** In every configuration, every sender can have a call answered by every server that can be routed to. */
  lemma AnsweredIsReached(c: Config, n: SenderName, v: Server)
    requires n in c.senders && v in c.servers && Slots(c, v) != {}
    ensures exists s, id :: Reachable(c, s) && AnsweredBy(s, n, id, v)
  {
    var tag :| tag in Slots(c, v);
    var queue := c.consumers[tag];
    var e := NewEnvelope(0, n, c.best, if queue.Shared? then Any else PrivateOnly, v.organization);
    var waiting := Publish(c, n, v, queue, e);
    var s := Serve(c, waiting, n, v, tag, e);
    assert AnsweredBy(s, n, 0, v);
  }

  /** A first call is published and waits. */
  lemma Publish(c: Config, n: SenderName, v: Server, queue: QueueName, e: Envelope) returns (s: State)
    requires n in c.senders && (queue.PrivateOf? ==> queue.organization == v.organization)
    requires e == NewEnvelope(0, n, c.best, if queue.Shared? then Any else PrivateOnly, v.organization)
    ensures Reachable(c, s) && s.up && s.held == map[] && s.inbox == map[]
    ensures s.healthy == Pool(c) && s.tracked.Keys == Pool(c) && s.ready == map[0 := Ready(queue, e)]
    ensures HasCall(s.clients, n, 0) && s.clients[n].calls[0] == Waiting && 0 in s.clients[n].futures
  {
    var call := SenderStep.Call(0, c.best, if queue.Shared? then Any else PrivateOnly, v.organization);
    ReachStart(c);
    assert SharedLength(Init(c)) == 0;
    var called := ReachStep(c, Init(c), OfSender(n, 0, call));
    assert called.clients[n].calls[0] == Publishing(e, queue, false, None);
    var published := ReachStep(c, called, OfSender(n, 0, SenderStep.Publish(0)));
    assert published.clients[n].calls[0] == Publishing(e, queue, true, None);
    s := ReachStep(c, published, OfSender(n, 0, Confirmed));
  }

  /** The waiting call's request is delivered, answered, and the reply returned. */
  lemma Serve(c: Config, s: State, n: SenderName, v: Server, tag: nat, e: Envelope) returns (s': State)
    requires Reachable(c, s) && v in c.servers && tag in Slots(c, v)
    requires s.up && s.held == map[] && s.inbox == map[] && v in s.healthy && v in s.tracked
    requires s.ready.Keys == {0} && s.ready[0] == Ready(c.consumers[tag], e)
    requires e.id == 0 && e.replyTo == n && e.priority == Some(c.best)
    requires c.consumers[tag].PrivateOf? ==> e.body == Routed(PrivateOnly, v.organization)
    requires HasCall(s.clients, n, 0) && s.clients[n].calls[0] == Waiting && 0 in s.clients[n].futures
    ensures Reachable(c, s') && AnsweredBy(s', n, 0, v)
  {
    DecisionMeaning(s.tracked, c.best, e, c.consumers[tag], Chosen(v));
    assert CanDeliver(c, s, tag, 0, Chosen(v));
    DeliverMeans(c, s, tag, 0, Chosen(v));
    var s1 := ReachStep(c, s, OfMessage(Deliver(tag, 0, Chosen(v))));
    assert s1.held[tag] == Hold(e, Admitted(v, |s.tracked[v]|));
    var s2 := ReachStep(c, s1, OfMessage(PublishReply(tag, 0)));
    assert s2.inbox[0].id == 0 && s2.inbox[0].replyTo == n && s2.inbox[0].server == Some(v);
    s' := Take(c, s2, n, s2.inbox[0]);
  }

  lemma Take(c: Config, s: State, n: SenderName, r: Reply) returns (s': State)
    requires Reachable(c, s) && 0 in s.inbox && s.inbox[0] == r && r.id == 0 && r.replyTo == n && r.server.Some?
    requires HasCall(s.clients, n, 0) && s.clients[n].calls[0] == Waiting && 0 in s.clients[n].futures
    ensures Reachable(c, s') && AnsweredBy(s', n, 0, r.server.value)
  {
    var s1 := ReachStep(c, s, OfSender(n, 0, Response(0)));
    assert s1.clients[n].calls[0] == Resolved(r);
    s' := ReachStep(c, s1, OfSender(n, 0, Return(false)));
  }
}
