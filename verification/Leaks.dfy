/**
  The futures a failed publish leaves behind: which failures do, what that makes of a
  sender's table over a whole run, and for how long.
 */
module Leaks {
  import opened Wrappers
  import opened Messages
  import opened RpcClient
  import opened Dispatch
  import opened Calls
  import opened Placement
  import opened Runs

  predicate IsResponse(a: Step, n: SenderName, id: Id) {
    a.OfSender? && a.n == n && a.id == id && a.sender.Response?
  }

  /** Among the first i steps, the publish of this call raised. */
  ghost predicate Failed(steps: seq<Step>, i: nat, n: SenderName, id: Id) {
    exists j :: 0 <= j < i && j < |steps| && steps[j] == OfSender(n, id, PublishFails)
  }

  /** Among the first i steps, a reply to this call was consumed. */
  ghost predicate Responded(steps: seq<Step>, i: nat, n: SenderName, id: Id) {
    exists j :: 0 <= j < i && j < |steps| && IsResponse(steps[j], n, id)
  }

  lemma OneStepMore(steps: seq<Step>, i: nat, n: SenderName, id: Id)
    requires i < |steps|
    ensures Failed(steps, i + 1, n, id) <==> Failed(steps, i, n, id) || steps[i] == OfSender(n, id, PublishFails)
    ensures Responded(steps, i + 1, n, id) <==> Responded(steps, i, n, id) || IsResponse(steps[i], n, id)
  {
  }

  // ---- what a call's status tells about the steps so far ----

  ghost predicate Tells(status: CallStatus, failed: bool, responded: bool) {
    && (failed <==> status.Finished? && status.outcome.Raised?)
    && (failed ==> (status.outcome.leaked <==> !responded))
    && (status.Publishing? ==> (status.early.Some? <==> responded))
  }

  ghost predicate CallTells(clients: map<SenderName, Client>, steps: seq<Step>, i: nat, n: SenderName, id: Id) {
    if HasCall(clients, n, id) then Tells(clients[n].calls[id], Failed(steps, i, n, id), Responded(steps, i, n, id))
    else !Failed(steps, i, n, id) && !Responded(steps, i, n, id)
  }

  ghost predicate AllTell(clients: map<SenderName, Client>, steps: seq<Step>, i: nat) {
    forall n, id :: CallTells(clients, steps, i, n, id)
  }

  lemma OwnCallTells(s: State, n: SenderName, id: Id, a: SenderStep, failed: bool, responded: bool)
    requires CanSend(s, n, id, a) && ClientOk(s.clients[n])
    requires a.Call? ==> !failed && !responded
    requires !a.Call? ==> Tells(s.clients[n].calls[id], failed, responded)
    ensures id in ClientAfter(s, n, id, a).calls
    ensures Tells(ClientAfter(s, n, id, a).calls[id], failed || a == PublishFails, responded || a.Response?)
  {
  }

  lemma SendKeepsTelling(s: State, n: SenderName, id: Id, a: SenderStep, steps: seq<Step>, i: nat, m: SenderName, x: Id)
    requires CallsOk(s) && CanSend(s, n, id, a) && i < |steps| && steps[i] == OfSender(n, id, a)
    requires CallTells(s.clients, steps, i, m, x)
    ensures CallTells(DoSend(s, n, id, a).clients, steps, i + 1, m, x)
  {
    OneStepMore(steps, i, m, x);
    OnlyItsClient(s, n, id, a);
    assert GoodClient(n, s.clients[n], s.sent, s.answers);
    if m == n && x == id {
      OwnCallTells(s, n, id, a, Failed(steps, i, n, id), Responded(steps, i, n, id));
    } else {
      SendKeepsClientOk(s, n, id, a);
    }
  }

  lemma OtherStepsKeepClients(c: Config, s: State, a: Step, s': State)
    requires Next(c, s, a, s') && !a.OfSender?
    ensures s'.clients == s.clients
  {
    match a
    case OfMessage(b) => MoveKeepsClients(c, s, b);
    case OfMemory(b) => ChangeKeepsClients(c, s, b);
  }

  lemma StepKeepsTelling(c: Config, s: State, a: Step, s': State, steps: seq<Step>, i: nat)
    requires Inv(c, s) && Next(c, s, a, s') && i < |steps| && steps[i] == a && AllTell(s.clients, steps, i)
    ensures AllTell(s'.clients, steps, i + 1)
  {
    var next := i + 1;
    forall n, id
      ensures CallTells(s'.clients, steps, next, n, id)
    {
      assert CallTells(s.clients, steps, i, n, id);
      if a.OfSender? {
        SendKeepsTelling(s, a.n, a.id, a.sender, steps, i, n, id);
      } else {
        OtherStepsKeepClients(c, s, a, s');
        OneStepMore(steps, i, n, id);
      }
    }
  }

  lemma {:induction false} RunTells(c: Config, states: seq<State>, steps: seq<Step>, i: nat)
    requires IsRun(c, states, steps) && i <= |steps|
    ensures Inv(c, states[i]) && AllTell(states[i].clients, steps, i)
  {
    if i == 0 {
      InitInv(c);
    } else {
      RunTells(c, states, steps, i - 1);
      assert StepAt(c, states, steps, i - 1);
      StepKeepsInv(c, states[i - 1], steps[i - 1], states[i]);
      StepKeepsTelling(c, states[i - 1], steps[i - 1], states[i], steps, i - 1);
    }
  }

  // ---- main results ----

  /** A failed publish leaves its future behind exactly when no reply had come before the failure. */
  lemma FailedPublishLeaksIff(c: Config, states: seq<State>, steps: seq<Step>, i: nat, n: SenderName, id: Id)
    requires IsRun(c, states, steps) && i < |steps| && steps[i] == OfSender(n, id, PublishFails)
    ensures HasCall(states[i + 1].clients, n, id)
    ensures id in states[i + 1].clients[n].futures <==> !Responded(steps, i, n, id)
  {
    RunTells(c, states, steps, i + 1);
    OneStepMore(steps, i, n, id);
    assert CallTells(states[i + 1].clients, steps, i + 1, n, id);
    assert GoodClient(n, states[i + 1].clients[n], states[i + 1].sent, states[i + 1].answers);
  }

  /**
    At any point of any run a sender's table is exactly its waiting calls if and only
    if every call whose publish has raised has had a reply, before the failure or since.
   */
  lemma TableIsTheWaitingCallsIff(c: Config, states: seq<State>, steps: seq<Step>, i: nat, n: SenderName)
    requires IsRun(c, states, steps) && i <= |steps| && n in states[i].clients
    ensures (forall id :: id in states[i].clients[n].futures <==>
                          id in states[i].clients[n].calls && Unsettled(states[i].clients[n].calls[id]))
            <==> (forall id :: Failed(steps, i, n, id) ==> Responded(steps, i, n, id))
  {
    RunTells(c, states, steps, i);
    var client := states[i].clients[n];
    assert GoodClient(n, client, states[i].sent, states[i].answers);
    TableIsTheWaitingCallsIffNoLeak(client);
    forall id
      ensures (Failed(steps, i, n, id) ==> Responded(steps, i, n, id)) <==>
                !(id in client.calls && client.calls[id] == Finished(Raised(true)))
    {
      assert CallTells(states[i].clients, steps, i, n, id);
    }
    assert forall id :: id in client.calls && client.calls[id] == Finished(Raised(true)) ==>
             Failed(steps, i, n, id) && !Responded(steps, i, n, id);
  }

  /** The call has failed, its future is in the table, and nobody will ever see its request. */
  ghost predicate Dead(s: State, n: SenderName, id: Id) {
    && HasCall(s.clients, n, id) && s.clients[n].calls[id] == Finished(Raised(true))
    && id in s.clients[n].futures && id !in s.sent
  }

  lemma UnsentNotAnswered(c: Config, s: State, id: Id)
    requires Inv(c, s) && id !in s.sent
    ensures forall r :: r in s.answers ==> r.id != id
    ensures forall k :: k in s.inbox ==> s.inbox[k].id != id
  {
    forall r | r in s.answers
      ensures r.id != id
    {
      assert GoodAnswer(r, s.sent);
    }
  }

  lemma FailedBeforeBrokerIsDead(c: Config, s: State, n: SenderName, id: Id)
    requires Inv(c, s) && CanSend(s, n, id, PublishFails) && !s.clients[n].calls[id].atBroker
    ensures Dead(DoSend(s, n, id, PublishFails), n, id)
  {
    assert GoodClient(n, s.clients[n], s.sent, s.answers);
    assert GoodPublishing(n, id, s.clients[n].calls[id], s.sent) && GoodReply(n, s.clients[n].calls[id], s.answers);
    UnsentNotAnswered(c, s, id);
    assert HeldReply(s.clients[n].calls[id]) == s.clients[n].calls[id].early;
    assert id in s.clients[n].futures;
  }

  /** No sender has a step left for a dead call. */
  lemma DeadIsIdle(c: Config, s: State, m: SenderName, x: Id, a: SenderStep, n: SenderName, id: Id)
    requires Inv(c, s) && CanSend(s, m, x, a) && Dead(s, n, id)
    ensures x != id
  {
    UnsentNotAnswered(c, s, id);
    OnlyOwner(s, m, x, a);
  }

  lemma OthersKeepDead(s: State, m: SenderName, x: Id, a: SenderStep, n: SenderName, id: Id)
    requires CallsOk(s) && CanSend(s, m, x, a) && Dead(s, n, id) && x != id
    ensures Dead(DoSend(s, m, x, a), n, id)
  {
    OnlyItsClient(s, m, x, a);
    assert GoodClient(m, s.clients[m], s.sent, s.answers);
    SendKeepsClientOk(s, m, x, a);
  }

  lemma StepKeepsDead(c: Config, s: State, a: Step, s': State, n: SenderName, id: Id)
    requires Inv(c, s) && Next(c, s, a, s') && Dead(s, n, id)
    ensures Dead(s', n, id)
  {
    match a
    case OfSender(m, x, b) =>
      DeadIsIdle(c, s, m, x, b, n, id);
      OthersKeepDead(s, m, x, b, n, id);
    case OfMessage(b) =>
      MoveKeepsClients(c, s, b);
      MoveKeepsSent(c, s, b);
    case OfMemory(b) =>
      ChangeKeepsClients(c, s, b);
      ChangeKeepsSent(c, s, b);
  }

  /** A publish that fails before the broker has the message leaks its future for ever. */
  lemma {:induction false} LeaksForEver(
    c: Config, states: seq<State>, steps: seq<Step>, i: nat, j: nat, n: SenderName, id: Id
  )
    requires IsRun(c, states, steps) && i < j <= |steps| && steps[i] == OfSender(n, id, PublishFails)
    requires HasCall(states[i].clients, n, id) && states[i].clients[n].calls[id].Publishing? &&
              !states[i].clients[n].calls[id].atBroker
    ensures Dead(states[j], n, id)
    decreases j
  {
    assert StepAt(c, states, steps, j - 1);
    RunKeepsInv(c, states, steps, j - 1);
    if j == i + 1 {
      FailedBeforeBrokerIsDead(c, states[i], n, id);
    } else {
      LeaksForEver(c, states, steps, i, j - 1, n, id);
      StepKeepsDead(c, states[j - 1], steps[j - 1], states[j], n, id);
    }
  }

  /** And that happens in every configuration, to every sender. */
  lemma LeakIsReached(c: Config, n: SenderName)
    requires n in c.senders
    ensures exists s, id :: Reachable(c, s) && Dead(s, n, id)
  {
    ReachStart(c);
    var called := ReachStep(c, Init(c), OfSender(n, 0, Call(0, 0, Any, "")));
    assert called.clients[n].calls[0] == Publishing(NewEnvelope(0, n, 0, Any, ""), Shared, false, None);
    var failed := ReachStep(c, called, OfSender(n, 0, PublishFails));
    assert Dead(failed, n, 0);
  }
}
