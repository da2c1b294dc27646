/** The invariant of the step system, and its truth in every state of every run. */
module Runs {
  import opened Messages
  import opened Dispatch
  import opened Calls
  import opened Placement
  import opened Conservation
  import opened History

  ghost predicate Inv(c: Config, s: State) {
    && Shaped(c, s)
    && CallsOk(s)
    && Placed(c, s)
    && Conserved(s)
    && TrackedIsReplay(s)
    && NoLeak(s)
    && TimersLogged(c, s)
    && Counted(s)
    && RequeuedIsSent(s)
    && TrackedIsSent(s)
  }

  ghost predicate TrackedIsSent(s: State) {
    forall v, id :: v in s.tracked && id in s.tracked[v] ==> id in s.sent
  }

  lemma MoveKeepsTrackedSent(c: Config, s: State, a: MessageStep)
    requires Placed(c, s) && TrackedIsSent(s) && CanMove(c, s, a)
    ensures TrackedIsSent(DoMove(c, s, a))
  {
    if a.AckReply? {
      assert GoodHold(c.consumers[a.tag], s.held[a.tag], s.sent);
    }
  }

  lemma ChangeKeepsTrackedSent(c: Config, s: State, a: MemoryStep)
    requires TrackedIsSent(s) && CanChange(c, s, a)
    ensures TrackedIsSent(DoChange(c, s, a))
  {
  }

  lemma MoveKeepsClients(c: Config, s: State, a: MessageStep)
    requires CanMove(c, s, a)
    ensures DoMove(c, s, a).clients == s.clients
  {
  }

  lemma ChangeKeepsClients(c: Config, s: State, a: MemoryStep)
    requires CanChange(c, s, a)
    ensures DoChange(c, s, a).clients == s.clients
  {
  }

  lemma MoveKeepsSent(c: Config, s: State, a: MessageStep)
    requires CanMove(c, s, a)
    ensures DoMove(c, s, a).sent == s.sent
  {
  }

  lemma ChangeKeepsSent(c: Config, s: State, a: MemoryStep)
    requires CanChange(c, s, a)
    ensures DoChange(c, s, a).sent == s.sent
  {
  }

  lemma InitInv(c: Config)
    ensures Inv(c, Init(c))
  {
    InitCallsOk(c);
    InitPlaced(c);
    InitConserved(c);
  }

  lemma SendKeepsInv(c: Config, s: State, n: SenderName, id: Id, a: SenderStep)
    requires Inv(c, s) && CanSend(s, n, id, a)
    ensures Inv(c, DoSend(s, n, id, a))
  {
    SendKeepsShape(c, s, n, id, a);
    SendKeepsCallsOk(s, n, id, a);
    SendKeepsPlaced(c, s, n, id, a);
    SendConserves(c, s, n, id, a);
    SendKeepsCounted(c, s, n, id, a);
    SendFrame(s, n, id, a);
    QuietKeeps(c, s, DoSend(s, n, id, a));
  }

  /** What the consumer remembers is untouched by its senders. */
  lemma QuietKeeps(c: Config, s: State, s': State)
    requires TrackedIsReplay(s) && NoLeak(s) && TimersLogged(c, s) && TrackedIsSent(s)
    requires s'.tracked == s.tracked && s'.timers == s.timers && s'.log == s.log && s'.now == s.now
    requires forall id :: id in s.sent ==> id in s'.sent
    ensures TrackedIsReplay(s') && NoLeak(s') && TimersLogged(c, s') && TrackedIsSent(s')
  {
    forall k | k in s'.timers
      ensures GoodTimer(c, s', k)
    {
      assert GoodTimer(c, s, k);
    }
  }

  lemma MoveKeepsInv(c: Config, s: State, a: MessageStep)
    requires Inv(c, s) && CanMove(c, s, a)
    ensures Inv(c, DoMove(c, s, a))
  {
    MoveKeepsShape(c, s, a);
    MoveKeepsCallsOk(c, s, a);
    MoveKeepsPlaced(c, s, a);
    MoveConserves(c, s, a);
    MoveKeepsReplay(c, s, a);
    MoveKeepsNoLeak(c, s, a);
    MoveKeepsTimers(c, s, a);
    MoveKeepsCounted(c, s, a);
    MoveKeepsRequeuedSent(c, s, a);
    MoveKeepsTrackedSent(c, s, a);
  }

  lemma ChangeKeepsRequeuedSent(c: Config, s: State, a: MemoryStep)
    requires RequeuedIsSent(s) && CanChange(c, s, a)
    ensures RequeuedIsSent(DoChange(c, s, a))
  {
  }

  lemma ChangeKeepsInv(c: Config, s: State, a: MemoryStep)
    requires Inv(c, s) && CanChange(c, s, a)
    ensures Inv(c, DoChange(c, s, a))
  {
    ChangeKeepsShape(c, s, a);
    ChangeKeepsCallsOk(c, s, a);
    ChangeKeepsPlaced(c, s, a);
    ChangeConserves(c, s, a);
    ChangeKeepsReplay(c, s, a);
    ChangeKeepsNoLeak(c, s, a);
    ChangeKeepsTimers(c, s, a);
    ChangeKeepsCounted(c, s, a);
    ChangeKeepsRequeuedSent(c, s, a);
    ChangeKeepsTrackedSent(c, s, a);
  }

  lemma StepKeepsInv(c: Config, s: State, a: Step, s': State)
    requires Inv(c, s) && Next(c, s, a, s')
    ensures Inv(c, s')
  {
    match a
    case OfSender(n, id, b) => SendKeepsInv(c, s, n, id, b);
    case OfMessage(b) => MoveKeepsInv(c, s, b);
    case OfMemory(b) => ChangeKeepsInv(c, s, b);
  }

  lemma {:induction false} RunKeepsInv(c: Config, states: seq<State>, steps: seq<Step>, i: nat)
    requires IsRun(c, states, steps) && i <= |steps|
    ensures Inv(c, states[i])
  {
    if i == 0 {
      InitInv(c);
    } else {
      RunKeepsInv(c, states, steps, i - 1);
      assert StepAt(c, states, steps, i - 1);
      StepKeepsInv(c, states[i - 1], steps[i - 1], states[i]);
    }
  }

  lemma ReachableInv(c: Config, s: State)
    requires Reachable(c, s)
    ensures Inv(c, s)
  {
    var states: seq<State>, steps: seq<Step> :| IsRun(c, states, steps) && s == states[|steps|];
    RunKeepsInv(c, states, steps, |steps|);
  }
}
