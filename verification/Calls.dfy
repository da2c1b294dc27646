/**
  Call and response matching over whole runs: what every sender's table holds,
  and which replies and completions exist.
 */
module Calls {
  import opened Messages
  import opened RpcClient
  import opened RpcServer
  import opened Dispatch

  /** A call that is being published carries its own, unsent request. */
  ghost predicate GoodPublishing(n: SenderName, id: Id, call: CallStatus, sent: map<Id, Envelope>) {
    call.Publishing? ==>
      && call.envelope.replyTo == n
      && RequeueCount(call.envelope.headers) == 0
      && call.queue == HomeQueue(call.envelope)
      && (!call.atBroker ==> id !in sent)
  }

  /** A reply held by a call was published for it. */
  ghost predicate GoodReply(n: SenderName, call: CallStatus, answers: seq<Reply>) {
    var held := HeldReply(call);
    held.Some? ==> held.value in answers && held.value.replyTo == n
  }

  ghost predicate GoodClient(n: SenderName, client: Client, sent: map<Id, Envelope>, answers: seq<Reply>) {
    && ClientOk(client)
    && forall id :: id in client.calls ==>
         GoodPublishing(n, id, client.calls[id], sent) && GoodReply(n, client.calls[id], answers)
  }

  ghost predicate GoodClients(clients: map<SenderName, Client>, sent: map<Id, Envelope>, answers: seq<Reply>) {
    forall n :: n in clients ==> GoodClient(n, clients[n], sent, answers)
  }

  ghost predicate IdsDistinct(clients: map<SenderName, Client>) {
    forall n, m, id :: HasCall(clients, n, id) && HasCall(clients, m, id) ==> n == m
  }

  ghost predicate SentByCalls(clients: map<SenderName, Client>, sent: map<Id, Envelope>) {
    forall id :: id in sent ==> sent[id].id == id && HasCall(clients, sent[id].replyTo, id)
  }

  ghost predicate InboxAnswered(inbox: map<nat, Reply>, answers: seq<Reply>) {
    forall k :: k in inbox ==> inbox[k] in answers
  }

  /** Every completion was built from a published reply. */
  ghost predicate GoodCompletion(done: Completion, answers: seq<Reply>) {
    exists r :: r in answers && r.server.Some? && done == CompletionOf(r)
  }

  ghost predicate CompletionsAnswered(completions: map<nat, Completion>, answers: seq<Reply>) {
    forall k :: k in completions ==> GoodCompletion(completions[k], answers)
  }

  ghost predicate CallsOk(s: State) {
    && GoodClients(s.clients, s.sent, s.answers)
    && IdsDistinct(s.clients)
    && SentByCalls(s.clients, s.sent)
    && InboxAnswered(s.inbox, s.answers)
    && CompletionsAnswered(s.completions, s.answers)
  }

  lemma InitCallsOk(c: Config)
    ensures CallsOk(Init(c))
  {
  }

  // ---- a sender's step ----

  /** The client's own step keeps its table right and touches no other call. */
  lemma SendKeepsClientOk(s: State, n: SenderName, id: Id, a: SenderStep)
    requires CanSend(s, n, id, a) && ClientOk(s.clients[n])
    ensures ClientOk(ClientAfter(s, n, id, a))
    ensures ClientAfter(s, n, id, a).calls.Keys == s.clients[n].calls.Keys + {id}
    ensures forall x :: x in s.clients[n].calls && x != id ==>
              ClientAfter(s, n, id, a).calls[x] == s.clients[n].calls[x]
  {
    var client := s.clients[n];
    match a
    case Call(threshold, priority, mode, organization) =>
      StartKeepsOk(client, NewEnvelope(id, n, priority, mode, organization), FirstQueue(mode, organization),
            SharedLength(s) > threshold);
    case Response(k) => RespondKeepsOk(client, s.inbox[k]);
    case Return(timedOut) => ReturnKeepsOk(client, id, timedOut);
    case SendCompletion(k) =>
    case Timeout =>
    case _ => PublishKeepsOk(client, id);
  }

  lemma SendKeepsOwnStatus(s: State, n: SenderName, id: Id, a: SenderStep)
    requires CallsOk(s) && CanSend(s, n, id, a)
    ensures id in ClientAfter(s, n, id, a).calls
    ensures GoodPublishing(n, id, ClientAfter(s, n, id, a).calls[id], DoSend(s, n, id, a).sent)
    ensures GoodReply(n, ClientAfter(s, n, id, a).calls[id], s.answers)
  {
  }

  /** Replacing the state of the one client that owns (or takes) an id. */
  lemma ReplaceClient(clients: map<SenderName, Client>, n: SenderName, client: Client, id: Id,
                      sent: map<Id, Envelope>, sent': map<Id, Envelope>, answers: seq<Reply>)
    requires GoodClients(clients, sent, answers) && IdsDistinct(clients) && n in clients
    requires GoodClient(n, client, sent', answers)
    requires client.calls.Keys == clients[n].calls.Keys + {id}
    requires forall x :: x != id ==> (x in sent' <==> x in sent)
    requires forall m :: m in clients && m != n ==> id !in clients[m].calls
    ensures GoodClients(clients[n := client], sent', answers)
    ensures IdsDistinct(clients[n := client])
  {
    var clients' := clients[n := client];
    forall m | m in clients'
      ensures GoodClient(m, clients'[m], sent', answers)
    {
      assert GoodClient(m, clients[m], sent, answers);
    }
    forall m, l, x | HasCall(clients', m, x) && HasCall(clients', l, x)
      ensures m == l
    {
      assert x != id ==> HasCall(clients, m, x) && HasCall(clients, l, x);
    }
  }

  lemma OwnClientStaysGood(s: State, n: SenderName, id: Id, a: SenderStep)
    requires CallsOk(s) && CanSend(s, n, id, a)
    ensures GoodClient(n, ClientAfter(s, n, id, a), DoSend(s, n, id, a).sent, s.answers)
    ensures ClientAfter(s, n, id, a).calls.Keys == s.clients[n].calls.Keys + {id}
  {
    OnlyItsClient(s, n, id, a);
    SendKeepsClientOk(s, n, id, a);
    SendKeepsOwnStatus(s, n, id, a);
    assert GoodClient(n, s.clients[n], s.sent, s.answers);
  }

  lemma SendKeepsClients(s: State, n: SenderName, id: Id, a: SenderStep)
    requires CallsOk(s) && CanSend(s, n, id, a)
    ensures GoodClients(DoSend(s, n, id, a).clients, DoSend(s, n, id, a).sent, s.answers)
    ensures IdsDistinct(DoSend(s, n, id, a).clients)
  {
    OnlyOwner(s, n, id, a);
    OnlyItsClient(s, n, id, a);
    OwnClientStaysGood(s, n, id, a);
    ReplaceClient(s.clients, n, ClientAfter(s, n, id, a), id, s.sent, DoSend(s, n, id, a).sent, s.answers);
  }

  lemma OnlyOwner(s: State, n: SenderName, id: Id, a: SenderStep)
    requires IdsDistinct(s.clients) && CanSend(s, n, id, a)
    ensures forall m :: m in s.clients && m != n ==> id !in s.clients[m].calls
  {
    assert !a.Call? ==> HasCall(s.clients, n, id);
    forall m | m in s.clients && m != n
      ensures id !in s.clients[m].calls
    {
      assert id in s.clients[m].calls ==> HasCall(s.clients, m, id);
    }
  }

  lemma OnlyItsClient(s: State, n: SenderName, id: Id, a: SenderStep)
    requires CanSend(s, n, id, a)
    ensures forall x :: x != id ==> (x in DoSend(s, n, id, a).sent <==> x in s.sent)
    ensures DoSend(s, n, id, a).clients == s.clients[n := ClientAfter(s, n, id, a)]
  {
  }

  lemma SendKeepsSent(s: State, n: SenderName, id: Id, a: SenderStep)
    requires CallsOk(s) && CanSend(s, n, id, a)
    ensures SentByCalls(DoSend(s, n, id, a).clients, DoSend(s, n, id, a).sent)
  {
    var s' := DoSend(s, n, id, a);
    assert GoodClient(n, s.clients[n], s.sent, s.answers);
    SendKeepsClientOk(s, n, id, a);
    forall x | x in s'.sent
      ensures s'.sent[x].id == x && HasCall(s'.clients, s'.sent[x].replyTo, x)
    {
      assert x in s.sent ==> HasCall(s.clients, s.sent[x].replyTo, x);
    }
  }

  lemma SendKeepsCallsOk(s: State, n: SenderName, id: Id, a: SenderStep)
    requires CallsOk(s) && CanSend(s, n, id, a)
    ensures CallsOk(DoSend(s, n, id, a))
  {
    SendKeepsClients(s, n, id, a);
    SendKeepsSent(s, n, id, a);
    SendKeepsCompletions(s, n, id, a);
  }

  lemma SendKeepsCompletions(s: State, n: SenderName, id: Id, a: SenderStep)
    requires CallsOk(s) && CanSend(s, n, id, a)
    ensures CompletionsAnswered(DoSend(s, n, id, a).completions, s.answers)
  {
    if a.SendCompletion? {
      var r := s.clients[n].calls[id].outcome.reply;
      assert GoodReply(n, s.clients[n].calls[id], s.answers);
      assert r in s.answers && r.server.Some?;
      assert GoodCompletion(CompletionOf(r), s.answers);
    }
  }

  // ---- the other steps ----

  lemma MoreAnswers(s: State, r: Reply)
    requires CallsOk(s)
    ensures GoodClients(s.clients, s.sent, s.answers + [r])
    ensures CompletionsAnswered(s.completions, s.answers + [r])
  {
    forall n | n in s.clients
      ensures GoodClient(n, s.clients[n], s.sent, s.answers + [r])
    {
      assert GoodClient(n, s.clients[n], s.sent, s.answers);
    }
    forall k | k in s.completions
      ensures GoodCompletion(s.completions[k], s.answers + [r])
    {
      var q :| q in s.answers && q.server.Some? && s.completions[k] == CompletionOf(q);
      assert q in s.answers + [r];
    }
  }

  lemma MoveKeepsCallsOk(c: Config, s: State, a: MessageStep)
    requires CallsOk(s) && CanMove(c, s, a)
    ensures CallsOk(DoMove(c, s, a))
  {
    if a.PublishReply? {
      MoreAnswers(s, ReplyTo(s.held[a.tag].envelope, s.held[a.tag].phase));
    }
  }

  lemma ChangeKeepsCallsOk(c: Config, s: State, a: MemoryStep)
    requires CallsOk(s) && CanChange(c, s, a)
    ensures CallsOk(DoChange(c, s, a))
  {
  }
}
