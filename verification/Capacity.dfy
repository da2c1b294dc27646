/**
  How far a server's limit can be overshot, given that the admission check and
  the recording of the admission are separate steps.
 */
module Capacity {
  import opened Wrappers
  import opened Messages
  import opened RpcServer
  import opened SetFacts
  import opened Dispatch
  import opened Calls
  import opened Placement
  import opened Conservation
  import opened Runs

  /** Registrations holding a request that passed the limit of `server` and is not yet recorded. */
  function Pending(c: Config, held: map<nat, Hold>, server: Server): set<nat> {
    set tag | tag in held && ServerOf(held[tag].phase) == Some(server) && !Bypasses(held[tag].envelope, c.best)
  }

  /** Tracked ids whose priority does not bypass the limit. */
  function Plain(c: Config, ids: set<Id>, sent: map<Id, Envelope>): set<Id> {
    set id | id in ids && !(id in sent && Bypasses(sent[id], c.best))
  }

  function Limit(server: Server, window: nat): int {
    if server.maxParallel > 0 then server.maxParallel + window - 1 else 0
  }

  /** The overshoot bound when at most `window` requests sit between check and record. */
  ghost predicate Within(c: Config, s: State, server: Server, window: nat) {
    server in s.tracked ==>
      |Plain(c, s.tracked[server], s.sent)| + |Pending(c, s.held, server)| <= Limit(server, window)
  }

  lemma InitWithin(c: Config, server: Server, window: nat)
    requires window >= 1
    ensures Within(c, Init(c), server, window)
  {
    assert Pending(c, Init(c).held, server) == {};
  }

  /** Fewer plain ids and fewer pending requests keep the bound. */
  lemma ShrinkKeepsWithin(c: Config, s: State, s': State, server: Server, window: nat)
    requires Within(c, s, server, window)
    requires server in s'.tracked ==> server in s.tracked
    requires server in s'.tracked ==> Plain(c, s'.tracked[server], s'.sent) <= Plain(c, s.tracked[server], s.sent)
    requires Pending(c, s'.held, server) <= Pending(c, s.held, server)
    ensures Within(c, s', server, window)
  {
    if server in s'.tracked {
      SubsetSize(Plain(c, s'.tracked[server], s'.sent), Plain(c, s.tracked[server], s.sent));
      SubsetSize(Pending(c, s'.held, server), Pending(c, s.held, server));
    }
  }

  lemma SendKeepsWithin(c: Config, s: State, n: SenderName, id: Id, a: SenderStep, server: Server, window: nat)
    requires CallsOk(s) && Within(c, s, server, window) && CanSend(s, n, id, a)
    ensures Within(c, DoSend(s, n, id, a), server, window)
  {
    var s' := DoSend(s, n, id, a);
    SendFrame(s, n, id, a);
    if a.Publish? {
      PublishedIsNew(s, n, id, a.k);
    }
    ShrinkKeepsWithin(c, s, s', server, window);
  }

  /** The check saw room for one more; the window bounds what else is pending. */
  lemma DeliverKeepsWithin(c: Config, s: State, tag: nat, k: nat, choice: Choice, server: Server, window: nat)
    requires Within(c, s, server, window) && CanDeliver(c, s, tag, k, choice)
    requires |Pending(c, DoDeliver(c, s, tag, k, choice).held, server)| <= window
    ensures Within(c, DoDeliver(c, s, tag, k, choice), server, window)
  {
    var s' := DoDeliver(c, s, tag, k, choice);
    DecisionMeaning(s.tracked, c.best, s.ready[k].envelope, s.ready[k].queue, choice);
    if tag in Pending(c, s'.held, server) {
      assert |s.tracked[server]| < server.maxParallel;
      SubsetSize(Plain(c, s.tracked[server], s.sent), s.tracked[server]);
    } else {
      ShrinkKeepsWithin(c, s, s', server, window);
    }
  }

  /** Recording turns a pending request into a tracked one. */
  lemma RecordKeepsWithin(c: Config, s: State, tag: nat, k: nat, server: Server, window: nat)
    requires Placed(c, s) && Within(c, s, server, window) && CanAckReply(s, tag, k)
    ensures Within(c, DoAckReply(c, s, tag, k), server, window)
  {
    var s' := DoAckReply(c, s, tag, k);
    assert GoodHold(c.consumers[tag], s.held[tag], s.sent);
    var id := s.held[tag].envelope.id;
    if tag in Pending(c, s.held, server) {
      if server in s.tracked {
        RemoveOne(Pending(c, s'.held, server), Pending(c, s.held, server), tag);
        AddOne(Plain(c, s'.tracked[server], s.sent), Plain(c, s.tracked[server], s.sent), id);
      }
    } else {
      ShrinkKeepsWithin(c, s, s', server, window);
    }
  }

  lemma OtherMovesShrink(c: Config, s: State, a: MessageStep, server: Server)
    requires CanMove(c, s, a) && !a.Deliver? && !a.AckReply?
    ensures DoMove(c, s, a).tracked == s.tracked && DoMove(c, s, a).sent == s.sent
    ensures Pending(c, DoMove(c, s, a).held, server) <= Pending(c, s.held, server)
  {
  }

  lemma OtherMovesKeepWithin(c: Config, s: State, a: MessageStep, server: Server, window: nat)
    requires Within(c, s, server, window) && CanMove(c, s, a) && !a.Deliver? && !a.AckReply?
    ensures Within(c, DoMove(c, s, a), server, window)
  {
    OtherMovesShrink(c, s, a, server);
    ShrinkKeepsWithin(c, s, DoMove(c, s, a), server, window);
  }

  lemma MoveKeepsWithin(c: Config, s: State, a: MessageStep, server: Server, window: nat)
    requires Placed(c, s) && Within(c, s, server, window) && CanMove(c, s, a)
    requires |Pending(c, DoMove(c, s, a).held, server)| <= window
    ensures Within(c, DoMove(c, s, a), server, window)
  {
    match a
    case Deliver(tag, k, choice) => DeliverKeepsWithin(c, s, tag, k, choice, server, window);
    case AckReply(tag, k) => RecordKeepsWithin(c, s, tag, k, server, window);
    case _ => OtherMovesKeepWithin(c, s, a, server, window);
  }

  lemma ChangeKeepsWithin(c: Config, s: State, a: MemoryStep, server: Server, window: nat)
    requires Within(c, s, server, window) && CanChange(c, s, a)
    ensures Within(c, DoChange(c, s, a), server, window)
  {
    ShrinkKeepsWithin(c, s, DoChange(c, s, a), server, window);
  }

  lemma StepKeepsWithin(c: Config, s: State, a: Step, s': State, server: Server, window: nat)
    requires Inv(c, s) && Within(c, s, server, window) && Next(c, s, a, s')
    requires |Pending(c, s'.held, server)| <= window
    ensures Within(c, s', server, window)
  {
    match a
    case OfSender(n, id, b) => SendKeepsWithin(c, s, n, id, b, server, window);
    case OfMessage(b) => MoveKeepsWithin(c, s, b, server, window);
    case OfMemory(b) => ChangeKeepsWithin(c, s, b, server, window);
  }

  // ---- whole runs ----

  /**
    In a run where at most `window` requests for a server ever sit between check and
    record, tracked plus pending requests stay within the limit plus window less one.
   */
  lemma {:induction false} OvershootBound(
    c: Config, states: seq<State>, steps: seq<Step>, i: nat, server: Server, window: nat
  )
    requires IsRun(c, states, steps) && i <= |steps| && window >= 1
    requires forall j :: 0 <= j <= i ==> |Pending(c, states[j].held, server)| <= window
    ensures Within(c, states[i], server, window)
  {
    if i == 0 {
      InitWithin(c, server, window);
    } else {
      OvershootBound(c, states, steps, i - 1, server, window);
      RunKeepsInv(c, states, steps, i - 1);
      assert StepAt(c, states, steps, i - 1);
      StepKeepsWithin(c, states[i - 1], steps[i - 1], states[i], server, window);
    }
  }

  /** Tracked ids whose priority bypasses the limit. */
  function Urgent(c: Config, ids: set<Id>, sent: map<Id, Envelope>): set<Id> {
    set id | id in ids && id in sent && Bypasses(sent[id], c.best)
  }

  lemma PlainAndUrgent(c: Config, ids: set<Id>, sent: map<Id, Envelope>)
    ensures |ids| == |Plain(c, ids, sent)| + |Urgent(c, ids, sent)|
  {
    assert ids == Plain(c, ids, sent) + Urgent(c, ids, sent);
    assert Plain(c, ids, sent) !! Urgent(c, ids, sent);
  }

  /** With atomic callbacks the limit itself holds, and only bypassing requests exceed it. */
  lemma AtomicBound(c: Config, states: seq<State>, steps: seq<Step>, i: nat, server: Server)
    requires IsRun(c, states, steps) && i <= |steps| && server in states[i].tracked
    requires forall j :: 0 <= j <= i ==> |Pending(c, states[j].held, server)| <= 1
    ensures |Plain(c, states[i].tracked[server], states[i].sent)| <= Limit(server, 1)
    ensures |states[i].tracked[server]| <=
            Limit(server, 1) + |Urgent(c, states[i].tracked[server], states[i].sent)|
  {
    OvershootBound(c, states, steps, i, server, 1);
    PlainAndUrgent(c, states[i].tracked[server], states[i].sent);
  }

  /** The registrations whose deliveries may be routed to a server. */
  function Slots(c: Config, server: Server): set<nat> {
    set tag | tag in c.consumers && (c.consumers[tag].Shared? || c.consumers[tag] == PrivateOf(server.organization))
  }

  lemma PendingUsesSlots(c: Config, s: State, server: Server)
    requires Shaped(c, s) && Placed(c, s)
    ensures |Pending(c, s.held, server)| <= |Slots(c, server)|
  {
    forall tag | tag in Pending(c, s.held, server)
      ensures tag in Slots(c, server)
    {
      assert GoodHold(c.consumers[tag], s.held[tag], s.sent);
    }
    SubsetSize(Pending(c, s.held, server), Slots(c, server));
  }

  /**
    Without any assumption on the schedule: prefetch 1 gives each registration one
    unacknowledged message, so the overshoot is less than the number of registrations
    on the shared queue and on the server's own private queue.
   */
  lemma PrefetchBound(c: Config, states: seq<State>, steps: seq<Step>, i: nat, server: Server)
    requires IsRun(c, states, steps) && i <= |steps| && server in states[i].tracked
    ensures |Plain(c, states[i].tracked[server], states[i].sent)| + |Pending(c, states[i].held, server)|
            <= Limit(server, if Slots(c, server) == {} then 1 else |Slots(c, server)|)
  {
    forall j | 0 <= j <= i
      ensures |Pending(c, states[j].held, server)| <= |Slots(c, server)|
    {
      RunKeepsInv(c, states, steps, j);
      PendingUsesSlots(c, states[j], server);
    }
    OvershootBound(c, states, steps, i, server, if Slots(c, server) == {} then 1 else |Slots(c, server)|);
  }
}
