/**
  The overshoot bound is exact in every configuration: some run reaches it. So a
  server's limit holds in every run exactly when one registration routes to it.
 */
module Tightness {
  import opened Wrappers
  import opened SetFacts
  import opened Messages
  import opened RpcClient
  import opened RpcServer
  import opened Dispatch
  import opened History
  import opened Capacity

  /** A request for the queue that the limit applies to. */
  function RequestFor(c: Config, queue: QueueName, v: Server, m: SenderName, id: Id): Envelope {
    NewEnvelope(id, m, c.best - 2, ModeFor(queue), v.organization)
  }

  function ModeFor(queue: QueueName): RoutingMode {
    if queue.Shared? then Any else PrivateOnly
  }

  ghost predicate IdsBelow(clients: map<SenderName, Client>, m: SenderName, n: nat) {
    m in clients && forall l, id: Id :: HasCall(clients, l, id) ==> id < n
  }

  ghost predicate IsPlain(c: Config, sent: map<Id, Envelope>, n: nat, id: Id) {
    id < n && id in sent && !Bypasses(sent[id], c.best)
  }

  ghost predicate HeldFor(c: Config, held: map<nat, Hold>, v: Server, sent: map<Id, Envelope>, n: nat) {
    forall tag :: tag in held ==>
          held[tag].phase.Admitted? && held[tag].phase.server == v && IsPlain(c, sent, n, held[tag].envelope.id)
  }

  ghost predicate AllDistinct(held: map<nat, Hold>, ids: set<Id>) {
    && (forall a, b :: a in held && b in held && a != b ==> held[a].envelope.id != held[b].envelope.id)
    && (forall a :: a in held ==> held[a].envelope.id !in ids)
  }

  ghost predicate TrackedPlain(c: Config, tracked: Tracked, v: Server, sent: map<Id, Envelope>, n: nat, done: nat) {
    v in tracked && |tracked[v]| == done && forall id :: id in tracked[v] ==> IsPlain(c, sent, n, id)
  }

  /** Only requests for `v`: one held, checked and not recorded, by each registration of `busy`; `done` are tracked. */
  ghost predicate Shape(c: Config, s: State, m: SenderName, v: Server, n: nat, busy: set<nat>, done: nat) {
    && s.up && v in s.healthy && s.ready == map[] && s.now == 0 && Quiet(s.log, 0)
    && IdsBelow(s.clients, m, n)
    && s.held.Keys == busy
    && HeldFor(c, s.held, v, s.sent, n)
    && TrackedPlain(c, s.tracked, v, s.sent, n, done)
    && AllDistinct(s.held, s.tracked[v])
  }

  /** Nothing the shape speaks of differs, but for the senders, the queues and one new request. */
  ghost predicate SameConsumer(s: State, s': State) {
    && s'.up == s.up && s'.healthy == s.healthy && s'.held == s.held && s'.tracked == s.tracked
    && s'.inbox == s.inbox && s'.timers == s.timers && s'.now == s.now && s'.log == s.log
  }

  // ---- one request enters ----

  function CallFor(s: State, c: Config, queue: QueueName, v: Server): SenderStep {
    SenderStep.Call(SharedLength(s), c.best - 2, ModeFor(queue), v.organization)
  }

  function CalledClients(
    s: State, c: Config, queue: QueueName, v: Server, m: SenderName, n: nat
  ): map<SenderName, Client>
    requires m in s.clients
  {
    s.clients[m := StartCall(s.clients[m], RequestFor(c, queue, v, m, n), queue, false)]
  }

  lemma Callable(c: Config, s: State, m: SenderName, v: Server, queue: QueueName, n: nat)
    requires IdsBelow(s.clients, m, n) && (queue.PrivateOf? ==> queue.organization == v.organization)
    ensures CanSend(s, m, n, CallFor(s, c, queue, v))
    ensures DoSend(s, m, n, CallFor(s, c, queue, v)) == s.(clients := CalledClients(s, c, queue, v, m, n))
  {
    forall l | l in s.clients
      ensures n !in s.clients[l].calls
    {
      assert n in s.clients[l].calls ==> HasCall(s.clients, l, n);
    }
  }

  lemma Publishable(c: Config, s: State, called: State, m: SenderName, v: Server, queue: QueueName, n: nat)
    requires IdsBelow(s.clients, m, n) && s.ready == map[]
    requires called == s.(clients := CalledClients(s, c, queue, v, m, n))
    ensures CanSend(called, m, n, Publish(0))
    ensures var s' := DoSend(called, m, n, Publish(0));
            && SameConsumer(s, s')
            && s'.ready == map[0 := Ready(queue, RequestFor(c, queue, v, m, n))]
            && s'.sent == s.sent[n := RequestFor(c, queue, v, m, n)]
  {
    assert called.clients[m].calls[n] == Publishing(RequestFor(c, queue, v, m, n), queue, false, None);
  }

  lemma OneIdMore(c: Config, s: State, called: State, m: SenderName, v: Server, queue: QueueName, n: nat)
    requires IdsBelow(s.clients, m, n)
    requires called == s.(clients := CalledClients(s, c, queue, v, m, n)) && CanSend(called, m, n, Publish(0))
    ensures IdsBelow(DoSend(called, m, n, Publish(0)).clients, m, n + 1)
  {
    var after := DoSend(called, m, n, Publish(0)).clients;
    assert after.Keys == s.clients.Keys && after[m].calls.Keys == s.clients[m].calls.Keys + {n};
    assert forall l :: l in s.clients && l != m ==> after[l] == s.clients[l];
    forall l, id: Id | HasCall(after, l, id)
      ensures id < n + 1
    {
      assert id != n ==> HasCall(s.clients, l, id);
    }
  }

  /** The request is published and waits alone in its queue. */
  lemma Request(c: Config, s: State, m: SenderName, v: Server, queue: QueueName, n: nat) returns (s': State)
    requires Reachable(c, s) && s.ready == map[] && IdsBelow(s.clients, m, n)
    requires queue.PrivateOf? ==> queue.organization == v.organization
    ensures Reachable(c, s') && SameConsumer(s, s') && IdsBelow(s'.clients, m, n + 1)
    ensures s'.ready == map[0 := Ready(queue, RequestFor(c, queue, v, m, n))]
    ensures s'.sent == s.sent[n := RequestFor(c, queue, v, m, n)]
  {
    Callable(c, s, m, v, queue, n);
    var called := ReachStep(c, s, OfSender(m, n, CallFor(s, c, queue, v)));
    Publishable(c, s, called, m, v, queue, n);
    OneIdMore(c, s, called, m, v, queue, n);
    s' := ReachStep(c, called, OfSender(m, n, Publish(0)));
  }

  // ---- it passes the check ----

  lemma Admissible(c: Config, s: State, v: Server, tag: nat, m: SenderName, n: nat, done: nat)
    requires v in c.servers && tag in Slots(c, v) && tag !in s.held && s.up && v in s.healthy
    requires s.ready == map[0 := Ready(c.consumers[tag], RequestFor(c, c.consumers[tag], v, m, n))]
    requires v in s.tracked && |s.tracked[v]| == done < v.maxParallel
    ensures CanDeliver(c, s, tag, 0, Chosen(v))
    ensures Decide(c, s, s.ready[0].queue, s.ready[0].envelope, Chosen(v)) == Admitted(v, done)
  {
  }

  /** A plain request for `v` enters the hold of a free registration. */
  lemma HoldsOneMore(
    c: Config, held: map<nat, Hold>, ids: set<Id>, v: Server, sent: map<Id, Envelope>, n: nat, tag: nat,
    e: Envelope, seen: nat
  )
    requires HeldFor(c, held, v, sent, n) && AllDistinct(held, ids) && tag !in held
    requires (forall id :: id in ids ==> IsPlain(c, sent, n, id)) && e.id == n && !Bypasses(e, c.best)
    ensures HeldFor(c, held[tag := Hold(e, Admitted(v, seen))], v, sent[n := e], n + 1)
    ensures AllDistinct(held[tag := Hold(e, Admitted(v, seen))], ids)
    ensures forall id :: id in ids ==> IsPlain(c, sent[n := e], n + 1, id)
  {
  }

  lemma Take(c: Config, s: State, m: SenderName, v: Server, n: nat, busy: set<nat>, done: nat, tag: nat)
    returns (s': State)
    requires Reachable(c, s) && Shape(c, s, m, v, n, busy, done)
    requires v in c.servers && tag in Slots(c, v) - busy && done < v.maxParallel
    ensures Reachable(c, s') && Shape(c, s', m, v, n + 1, busy + {tag}, done)
  {
    var queue := c.consumers[tag];
    var e := RequestFor(c, queue, v, m, n);
    var ready := Request(c, s, m, v, queue, n);
    Admissible(c, ready, v, tag, m, n, done);
    s' := ReachStep(c, ready, OfMessage(Deliver(tag, 0, Chosen(v))));
    DeliverMeans(c, ready, tag, 0, Chosen(v));
    HoldsOneMore(c, s.held, s.tracked[v], v, s.sent, n, tag, e, done);
  }

  // ---- it is recorded ----

  lemma FreshKey<T>(m: map<nat, T>) returns (k: nat)
    ensures k !in m
  {
    k := KeysBelow(m.Keys);
  }

  lemma {:induction false} KeysBelow(keys: set<nat>) returns (k: nat)
    ensures forall x: nat :: x in keys ==> x < k
    decreases keys
  {
    if keys == {} {
      k := 0;
    } else {
      var x :| x in keys;
      var rest := KeysBelow(keys - {x});
      k := if rest > x then rest else x + 1;
      assert forall y: nat :: y in keys ==> y == x || y in keys - {x};
    }
  }

  /** The request leaves the hold for the in-flight set. */
  lemma RecordsOneMore(
    c: Config, held: map<nat, Hold>, ids: set<Id>, v: Server, sent: map<Id, Envelope>, n: nat, tag: nat
  )
    requires HeldFor(c, held, v, sent, n) && AllDistinct(held, ids) && tag in held
    ensures IsPlain(c, sent, n, held[tag].envelope.id)
    ensures HeldFor(c, held - {tag}, v, sent, n)
    ensures AllDistinct(held - {tag}, ids + {held[tag].envelope.id})
    ensures |ids + {held[tag].envelope.id}| == |ids| + 1
  {
  }

  /** What answering and acknowledging do to the parts the shape speaks of. */
  lemma SettleMeans(c: Config, s: State, v: Server, tag: nat, k: nat, l: nat)
    requires tag in s.held && s.held[tag].phase.Admitted? && s.held[tag].phase.server == v && v in s.tracked
    requires k !in s.inbox && l !in s.timers
    ensures AwaitsReply(s, tag) && CanAckReply(DoPublishReply(s, tag, k), tag, l)
    ensures var s' := DoAckReply(c, DoPublishReply(s, tag, k), tag, l);
            && s'.up == s.up && s'.healthy == s.healthy && s'.ready == s.ready
            && s'.clients == s.clients && s'.sent == s.sent
            && s'.held == s.held - {tag}
            && s'.tracked == s.tracked[v := s.tracked[v] + {s.held[tag].envelope.id}]
            && s'.now == s.now && (s.now == 0 && Quiet(s.log, 0) ==> Quiet(s'.log, 0))
  {
  }

  lemma Settle(c: Config, s: State, m: SenderName, v: Server, n: nat, busy: set<nat>, done: nat, tag: nat)
    returns (s': State)
    requires Reachable(c, s) && Shape(c, s, m, v, n, busy, done) && tag in busy
    ensures Reachable(c, s') && Shape(c, s', m, v, n, busy - {tag}, done + 1)
  {
    var k := FreshKey(s.inbox);
    var l := FreshKey(s.timers);
    SettleMeans(c, s, v, tag, k, l);
    RecordsOneMore(c, s.held, s.tracked[v], v, s.sent, n, tag);
    var replied := ReachStep(c, s, OfMessage(PublishReply(tag, k)));
    s' := ReachStep(c, replied, OfMessage(AckReply(tag, l)));
  }

  // ---- whole runs ----

  ghost predicate Staged(c: Config, s: State, m: SenderName, v: Server, n: nat, busy: set<nat>, done: nat) {
    Reachable(c, s) && Shape(c, s, m, v, n, busy, done)
  }

  /** Some run brings about this shape. */
  ghost predicate CanStage(c: Config, m: SenderName, v: Server, busy: set<nat>, done: nat) {
    exists s, n: nat :: Staged(c, s, m, v, n, busy, done)
  }

  lemma StageTake(c: Config, m: SenderName, v: Server, busy: set<nat>, done: nat, tag: nat)
    requires CanStage(c, m, v, busy, done) && v in c.servers && tag in Slots(c, v) - busy && done < v.maxParallel
    ensures CanStage(c, m, v, busy + {tag}, done)
  {
    var s, n: nat :| Staged(c, s, m, v, n, busy, done);
    var s' := Take(c, s, m, v, n, busy, done, tag);
    assert Staged(c, s', m, v, n + 1, busy + {tag}, done);
  }

  lemma StageSettle(c: Config, m: SenderName, v: Server, busy: set<nat>, done: nat, tag: nat)
    requires CanStage(c, m, v, busy, done) && tag in busy
    ensures CanStage(c, m, v, busy - {tag}, done + 1)
  {
    var s, n: nat :| Staged(c, s, m, v, n, busy, done);
    var s' := Settle(c, s, m, v, n, busy, done, tag);
    assert Staged(c, s', m, v, n, busy - {tag}, done + 1);
  }

  lemma StageInit(c: Config, m: SenderName, v: Server)
    requires m in c.senders && v in c.servers
    ensures CanStage(c, m, v, {}, 0)
  {
    ReachStart(c);
    assert Shape(c, Init(c), m, v, 0, {}, 0);
    assert Staged(c, Init(c), m, v, 0, {}, 0);
  }

  /** Up to the limit, requests are served one after another. */
  lemma {:induction false} Fill(c: Config, m: SenderName, v: Server, done: nat, tag: nat)
    requires m in c.senders && v in c.servers && tag in Slots(c, v) && done <= v.maxParallel
    ensures CanStage(c, m, v, {}, done)
  {
    if done == 0 {
      StageInit(c, m, v);
    } else {
      Fill(c, m, v, done - 1, tag);
      StageTake(c, m, v, {}, done - 1, tag);
      StageSettle(c, m, v, {} + {tag}, done - 1, tag);
      assert {} + {tag} - {tag} == {};
    }
  }

  lemma TakeLast(c: Config, m: SenderName, v: Server, busy: set<nat>, tag: nat)
    requires v in c.servers && v.maxParallel >= 1 && tag in busy && busy <= Slots(c, v)
    requires CanStage(c, m, v, busy - {tag}, v.maxParallel - 1)
    ensures CanStage(c, m, v, busy, v.maxParallel - 1)
  {
    WithoutOne(busy, tag);
    StageTake(c, m, v, busy - {tag}, v.maxParallel - 1, tag);
  }

  /** With room for one more, any set of registrations passes the check. */
  lemma {:induction false} TakeAll(c: Config, m: SenderName, v: Server, busy: set<nat>)
    requires m in c.senders && v in c.servers && v.maxParallel >= 1 && {} != Slots(c, v) && busy <= Slots(c, v)
    ensures CanStage(c, m, v, busy, v.maxParallel - 1)
  {
    if busy == {} {
      var tag :| tag in Slots(c, v);
      Fill(c, m, v, v.maxParallel - 1, tag);
    } else {
      var tag :| tag in busy;
      TakeAll(c, m, v, busy - {tag});
      TakeLast(c, m, v, busy, tag);
    }
  }

  lemma SettleOne(c: Config, m: SenderName, v: Server, busy: set<nat>, done: nat) returns (rest: set<nat>)
    requires CanStage(c, m, v, busy, done) && busy != {}
    ensures CanStage(c, m, v, rest, done + 1)
    ensures rest < busy && |rest| == |busy| - 1
  {
    var tag :| tag in busy;
    WithoutOne(busy, tag);
    rest := busy - {tag};
    StageSettle(c, m, v, busy, done, tag);
  }

  /** Then all of them record. */
  lemma {:induction false} SettleAll(c: Config, m: SenderName, v: Server, busy: set<nat>, done: nat, total: nat)
    requires CanStage(c, m, v, busy, done) && total == done + |busy|
    ensures CanStage(c, m, v, {}, total)
    decreases busy
  {
    if busy != {} {
      var rest := SettleOne(c, m, v, busy, done);
      SettleAll(c, m, v, rest, done + 1, total);
    }
  }

  /** A reachable state with so many tracked requests that the limit applies to. */
  ghost predicate Reaches(c: Config, s: State, v: Server, count: nat) {
    Reachable(c, s) && v in s.tracked && |Plain(c, s.tracked[v], s.sent)| == count
  }

  ghost predicate CanReach(c: Config, v: Server, count: nat) {
    exists s :: Reaches(c, s, v, count)
  }

  /**
    The bound of PrefetchBound is reached in every configuration with a sender, whichever
    queues its registrations are on.
   */
  lemma BoundIsReached(c: Config, v: Server)
    requires c.senders != {} && v in c.servers && v.maxParallel >= 1 && Slots(c, v) != {}
    ensures CanReach(c, v, v.maxParallel - 1 + |Slots(c, v)|)
  {
    var m :| m in c.senders;
    var slots := Slots(c, v);
    var total := v.maxParallel - 1 + |slots|;
    TakeAll(c, m, v, slots);
    SettleAll(c, m, v, slots, v.maxParallel - 1, total);
    StagedReaches(c, m, v, total);
  }

  lemma StagedReaches(c: Config, m: SenderName, v: Server, count: nat)
    requires CanStage(c, m, v, {}, count)
    ensures CanReach(c, v, count)
  {
    var s, n: nat :| Staged(c, s, m, v, n, {}, count);
    assert Plain(c, s.tracked[v], s.sent) == s.tracked[v];
    assert Reaches(c, s, v, count);
  }

  lemma BoundIsNotPassed(c: Config, v: Server, count: nat)
    requires CanReach(c, v, count)
    ensures count <= Limit(v, if Slots(c, v) == {} then 1 else |Slots(c, v)|)
  {
    var s :| Reaches(c, s, v, count);
    var states: seq<State>, steps: seq<Step> :| IsRun(c, states, steps) && s == states[|steps|];
    PrefetchBound(c, states, steps, |steps|, v);
  }

  /** In every run, the requests of the server that the limit applies to stay within it. */
  ghost predicate LimitHolds(c: Config, v: Server) {
    forall count: nat :: CanReach(c, v, count) ==> count <= Limit(v, 1)
  }

  /**
    Exactly when a limit holds: no more than one registration routes to the server, or
    it never admits such a request.
   */
  lemma LimitHoldsIff(c: Config, v: Server)
    requires c.senders != {} && v in c.servers
    ensures LimitHolds(c, v) <==> |Slots(c, v)| <= 1 || v.maxParallel <= 0
  {
    if |Slots(c, v)| <= 1 || v.maxParallel <= 0 {
      forall count: nat | CanReach(c, v, count)
        ensures count <= Limit(v, 1)
      {
        BoundIsNotPassed(c, v, count);
      }
    } else {
      BoundIsReached(c, v);
    }
  }

  // ---- the registrations made at start-up ----

  /** The shared queue is consumed once, then each server's organization queue once more. */
  function StartUp(servers: seq<Server>): map<nat, QueueName> {
    if servers == [] then map[0 := Shared]
    else
      var n := |servers| - 1;
      StartUp(servers[..n])[n + 1 := PrivateOf(servers[n].organization)]
  }

  /** How many servers an organization has. */
  function Colleagues(servers: seq<Server>, organization: string): nat {
    if servers == [] then 0
    else
      var n := |servers| - 1;
      Colleagues(servers[..n], organization) + if servers[n].organization == organization then 1 else 0
  }

  function Routing(consumers: map<nat, QueueName>, organization: string): set<nat> {
    set tag | tag in consumers && (consumers[tag].Shared? || consumers[tag] == PrivateOf(organization))
  }

  lemma {:induction false} StartUpRouting(servers: seq<Server>, organization: string)
    ensures forall tag :: tag in StartUp(servers) ==> tag <= |servers|
    ensures |Routing(StartUp(servers), organization)| == 1 + Colleagues(servers, organization)
  {
    if servers == [] {
      assert Routing(StartUp(servers), organization) == {0};
    } else {
      var n := |servers| - 1;
      var before := StartUp(servers[..n]);
      StartUpRouting(servers[..n], organization);
      RoutingGrows(before, n + 1, servers[n].organization, organization);
    }
  }

  lemma RoutingGrows(consumers: map<nat, QueueName>, tag: nat, added: string, organization: string)
    requires tag !in consumers
    ensures |Routing(consumers[tag := PrivateOf(added)], organization)| ==
            |Routing(consumers, organization)| + if added == organization then 1 else 0
  {
    assert Routing(consumers[tag := PrivateOf(added)], organization) ==
           Routing(consumers, organization) + if added == organization then {tag} else {};
  }

  lemma {:induction false} IsOwnColleague(servers: seq<Server>, v: Server)
    requires v in servers
    ensures Colleagues(servers, v.organization) >= 1
  {
    var n := |servers| - 1;
    if servers[n] != v {
      assert servers == servers[..n] + [servers[n]];
      IsOwnColleague(servers[..n], v);
    }
  }

  /** As started, no positive limit holds: it is exceeded by as many requests as the organization has servers. */
  lemma StartUpOvershoots(c: Config, v: Server)
    requires c.senders != {} && v in c.servers && v.maxParallel >= 1 && c.consumers == StartUp(c.servers)
    ensures |Slots(c, v)| == 1 + Colleagues(c.servers, v.organization) >= 2
    ensures !LimitHolds(c, v)
    ensures CanReach(c, v, v.maxParallel + Colleagues(c.servers, v.organization))
    ensures forall count: nat :: CanReach(c, v, count) ==>
              count <= v.maxParallel + Colleagues(c.servers, v.organization)
  {
    StartUpRouting(c.servers, v.organization);
    IsOwnColleague(c.servers, v);
    assert Slots(c, v) == Routing(c.consumers, v.organization);
    LimitHoldsIff(c, v);
    BoundIsReached(c, v);
    forall count: nat | CanReach(c, v, count)
      ensures count <= v.maxParallel + Colleagues(c.servers, v.organization)
    {
      BoundIsNotPassed(c, v, count);
    }
  }
}
