/**
  The deferral bound is exact: in every configuration some run puts a request off as
  often as BoundedDeferral allows.
 */
module DeferralBound {
  import opened Messages
  import opened RpcServer
  import opened Dispatch
  import opened Conservation
  import opened History
  import opened Runs
  import opened Capacity
  import opened Deferral
  import opened Tightness

  // ---- runs observed from a state on ----

  ghost predicate Observed(c: Config, slack: nat, states: seq<State>, steps: seq<Step>, i: nat) {
    IsRun(c, states, steps) && i <= |steps| && (TimersFirst(states, steps, i) || slack >= 1)
  }

  /** A run leads through `from` to `to`, under the schedule of BoundedDeferral from there on. */
  ghost predicate Leads(c: Config, slack: nat, from: State, to: State) {
    exists states, steps, i: nat :: Observed(c, slack, states, steps, i) && states[i] == from && states[|steps|] == to
  }

  lemma LeadsStart(c: Config, slack: nat, s: State)
    requires Reachable(c, s)
    ensures Leads(c, slack, s, s)
  {
    var states: seq<State>, steps: seq<Step> :| IsRun(c, states, steps) && s == states[|steps|];
    assert Observed(c, slack, states, steps, |steps|);
  }

  lemma LeadsStep(c: Config, slack: nat, from: State, s: State, a: Step) returns (s': State)
    requires Leads(c, slack, from, s) && Enabled(c, s, a)
    requires a.OfMessage? && a.message.Deliver? ==> NothingDue(s) || slack >= 1
    ensures s' == Apply(c, s, a) && Leads(c, slack, from, s')
  {
    s' := Apply(c, s, a);
    var states, steps, i: nat :| Observed(c, slack, states, steps, i) && states[i] == from && states[|steps|] == s;
    LongerRun(c, states, steps, a, s');
    if slack == 0 {
      LongerTimersFirst(states, steps, a, s', i);
    }
    assert Observed(c, slack, states + [s'], steps + [a], i);
  }

  lemma LongerTimersFirst(states: seq<State>, steps: seq<Step>, a: Step, s': State, i: nat)
    requires |states| == |steps| + 1
    requires TimersFirst(states, steps, i) && (a.OfMessage? && a.message.Deliver? ==> NothingDue(states[|steps|]))
    ensures TimersFirst(states + [s'], steps + [a], i)
  {
  }

  lemma LeadsIsReachable(c: Config, slack: nat, from: State, s: State)
    requires Leads(c, slack, from, s)
    ensures Reachable(c, s) && Inv(c, s)
  {
    var states, steps, i: nat :| Observed(c, slack, states, steps, i) && states[i] == from && states[|steps|] == s;
    PrefixIsRun(c, states, steps, |steps|);
    ReachableInv(c, s);
  }

  // ---- a server that stays full ----

  /** The limit applies to the request, and this queue may route it to `v`. */
  ghost predicate Fits(c: Config, v: Server, queue: QueueName, e: Envelope, id: Id) {
    && e.id == id && !Bypasses(e, c.best)
    && (queue.PrivateOf? ==> queue.organization == v.organization && e.body == Routed(PrivateOnly, v.organization))
  }

  /** `v` is full, nothing was recorded after time 0, and the request has been requeued k times. */
  ghost predicate FullFor(s: State, v: Server, id: Id, k: nat) {
    && s.up && v in s.healthy && v in s.tracked && |s.tracked[v]| >= v.maxParallel
    && Quiet(s.log, 0) && Requeues(s.log, id) == k
  }

  ghost predicate Queued(c: Config, s: State, tag: nat, v: Server, id: Id, k: nat)
    requires tag in c.consumers
  {
    && FullFor(s, v, id, k) && s.held == map[] && s.now == Slept(k, c.delay)
    && s.ready.Keys == {0} && s.ready[0].queue == c.consumers[tag]
    && Fits(c, v, c.consumers[tag], s.ready[0].envelope, id)
  }

  ghost predicate PutOff(c: Config, s: State, tag: nat, v: Server, id: Id, k: nat)
    requires tag in c.consumers
  {
    && FullFor(s, v, id, k) && s.ready == map[] && s.now == Slept(k, c.delay)
    && s.held.Keys == {tag} && s.held[tag].phase == Deferring(c.consumers[tag])
    && Fits(c, v, c.consumers[tag], s.held[tag].envelope, id)
  }

  ghost predicate Sleeping(c: Config, s: State, tag: nat, v: Server, id: Id, k: nat, j: nat)
    requires tag in c.consumers
  {
    && FullFor(s, v, id, k) && s.ready == map[] && s.held == map[]
    && j in s.asleep && s.asleep[j].target == c.consumers[tag] && s.asleep[j].wakeAt == Slept(k, c.delay)
    && Fits(c, v, c.consumers[tag], s.asleep[j].envelope, id)
  }

  // ---- one round, on the state ----

  lemma DeliverPutsOff(c: Config, s: State, tag: nat, v: Server, id: Id, k: nat)
    requires v in c.servers && tag in Slots(c, v) && Queued(c, s, tag, v, id, k)
    ensures CanDeliver(c, s, tag, 0, Chosen(v))
    ensures PutOff(c, DoDeliver(c, s, tag, 0, Chosen(v)), tag, v, id, k)
  {
    PutsOff(c, s, tag, v, id);
    DeliverMeans(c, s, tag, 0, Chosen(v));
  }

  lemma PutsOff(c: Config, s: State, tag: nat, v: Server, id: Id)
    requires v in c.servers && tag in Slots(c, v) && tag !in s.held && s.up && v in s.healthy
    requires v in s.tracked && |s.tracked[v]| >= v.maxParallel
    requires 0 in s.ready && s.ready[0].queue == c.consumers[tag]
    requires Fits(c, v, c.consumers[tag], s.ready[0].envelope, id)
    ensures CanDeliver(c, s, tag, 0, Chosen(v))
    ensures Decide(c, s, s.ready[0].queue, s.ready[0].envelope, Chosen(v)) == Deferring(c.consumers[tag])
  {
    DecisionMeaning(s.tracked, c.best, s.ready[0].envelope, s.ready[0].queue, Chosen(v));
  }

  lemma AckSleeps(c: Config, s: State, tag: nat, v: Server, id: Id, k: nat, j: nat)
    requires tag in c.consumers && PutOff(c, s, tag, v, id, k) && j !in s.asleep
    ensures CanAckDeferred(s, tag, j)
    ensures Sleeping(c, DoAckDeferred(c, s, tag, j), tag, v, id, k + 1, j)
    ensures DoAckDeferred(c, s, tag, j).now == s.now
  {
    var s' := DoAckDeferred(c, s, tag, j);
    RequeuesGrow(s.log, Requeue(id), id);
    assert s'.log == s.log + [Requeue(id)];
    assert s'.held == map[];
  }

  lemma TickSleeps(c: Config, s: State, tag: nat, v: Server, id: Id, k: nat, j: nat)
    requires tag in c.consumers && Sleeping(c, s, tag, v, id, k, j)
    ensures Sleeping(c, s.(now := s.now + 1), tag, v, id, k, j)
  {
  }

  lemma WakeQueues(c: Config, s: State, tag: nat, v: Server, id: Id, k: nat, j: nat)
    requires tag in c.consumers && Sleeping(c, s, tag, v, id, k, j) && s.now == Slept(k, c.delay)
    ensures CanRepublish(s, j, 0)
    ensures Queued(c, DoRepublish(s, j, 0), tag, v, id, k)
  {
  }

  // ---- one round, on the run ----

  /** All timers stem from time 0. */
  lemma NothingDueYet(c: Config, slack: nat, from: State, s: State)
    requires Leads(c, slack, from, s) && s.now < c.timeout
    ensures NothingDue(s)
  {
    LeadsIsReachable(c, slack, from, s);
    forall k | k in s.timers
      ensures s.timers[k].due > s.now
    {
      assert GoodTimer(c, s, k);
    }
  }

  lemma {:induction false} WaitFor(
    c: Config, slack: nat, from: State, s: State, tag: nat, v: Server, id: Id, k: nat, j: nat, ticks: nat
  )
    returns (s': State)
    requires tag in c.consumers && Leads(c, slack, from, s) && Sleeping(c, s, tag, v, id, k, j)
    requires s.now + ticks <= c.timeout
    ensures Leads(c, slack, from, s') && Sleeping(c, s', tag, v, id, k, j) && s'.now == s.now + ticks
    decreases ticks
  {
    if ticks == 0 {
      s' := s;
    } else {
      NothingDueYet(c, slack, from, s);
      TickSleeps(c, s, tag, v, id, k, j);
      var later := LeadsStep(c, slack, from, s, OfMemory(Tick));
      s' := WaitFor(c, slack, from, later, tag, v, id, k, j, ticks - 1);
    }
  }

  lemma Sleep(c: Config, slack: nat, from: State, s: State, tag: nat, v: Server, id: Id, k: nat)
    returns (s': State, j: nat)
    requires tag in c.consumers && Leads(c, slack, from, s) && PutOff(c, s, tag, v, id, k)
    ensures Leads(c, slack, from, s') && Sleeping(c, s', tag, v, id, k + 1, j) && s'.now == s.now
  {
    j := FreshKey(s.asleep);
    AckSleeps(c, s, tag, v, id, k, j);
    s' := LeadsStep(c, slack, from, s, OfMessage(AckDeferred(tag, j)));
  }

  lemma Wake(c: Config, slack: nat, from: State, s: State, tag: nat, v: Server, id: Id, k: nat, j: nat)
    returns (s': State)
    requires v in c.servers && tag in Slots(c, v) && slack <= 1
    requires Leads(c, slack, from, s) && Sleeping(c, s, tag, v, id, k, j) && s.now == Slept(k, c.delay)
    requires Slept(k, c.delay) < c.timeout + slack
    ensures Leads(c, slack, from, s') && PutOff(c, s', tag, v, id, k)
  {
    WakeQueues(c, s, tag, v, id, k, j);
    var queued := LeadsStep(c, slack, from, s, OfMessage(Republish(j, 0)));
    if slack == 0 {
      NothingDueYet(c, slack, from, queued);
    }
    DeliverPutsOff(c, queued, tag, v, id, k);
    s' := LeadsStep(c, slack, from, queued, OfMessage(Deliver(tag, 0, Chosen(v))));
  }

  /** The request sleeps, comes back, and finds the server as full as before. */
  lemma Round(c: Config, slack: nat, from: State, s: State, tag: nat, v: Server, id: Id, k: nat) returns (s': State)
    requires v in c.servers && tag in Slots(c, v) && slack <= 1
    requires Leads(c, slack, from, s) && PutOff(c, s, tag, v, id, k)
    requires Slept(k + 1, c.delay) < c.timeout + slack
    ensures Leads(c, slack, from, s') && PutOff(c, s', tag, v, id, k + 1)
  {
    var asleep, j := Sleep(c, slack, from, s, tag, v, id, k);
    var woken := WaitFor(c, slack, from, asleep, tag, v, id, k + 1, j, c.delay);
    s' := Wake(c, slack, from, woken, tag, v, id, k + 1, j);
  }

  lemma {:induction false} Rounds(c: Config, slack: nat, from: State, tag: nat, v: Server, id: Id, k: nat)
    returns (s: State)
    requires v in c.servers && tag in Slots(c, v) && slack <= 1
    requires Leads(c, slack, from, from) && PutOff(c, from, tag, v, id, 0)
    requires k == 0 || Slept(k, c.delay) < c.timeout + slack
    ensures Leads(c, slack, from, s) && PutOff(c, s, tag, v, id, k)
  {
    if k == 0 {
      s := from;
    } else {
      var before := Rounds(c, slack, from, tag, v, id, k - 1);
      s := Round(c, slack, from, before, tag, v, id, k - 1);
    }
  }

  // ---- the beginning ----

  lemma QueuedAtFull(c: Config, full: State, s: State, m: SenderName, v: Server, tag: nat, n: nat)
    requires v.maxParallel >= 1 && tag in Slots(c, v) && Shape(c, full, m, v, n, {}, v.maxParallel)
    requires SameConsumer(full, s) && MessagesCounted(s)
    requires s.ready == map[0 := Ready(c.consumers[tag], RequestFor(c, c.consumers[tag], v, m, n))]
    ensures Queued(c, s, tag, v, n, 0)
  {
    assert Carries(s, InReady(0), n);
    assert s.held == map[];
  }

  /** A request finds the server full at time 0. */
  lemma FirstDeferral(c: Config, m: SenderName, v: Server, tag: nat) returns (s: State, id: Id)
    requires m in c.senders && v in c.servers && v.maxParallel >= 1 && tag in Slots(c, v)
    ensures Reachable(c, s) && PutOff(c, s, tag, v, id, 0)
  {
    Fill(c, m, v, v.maxParallel, tag);
    var full, n: nat :| Staged(c, full, m, v, n, {}, v.maxParallel);
    id := n;
    var queued := Request(c, full, m, v, c.consumers[tag], n);
    ReachableInv(c, queued);
    QueuedAtFull(c, full, queued, m, v, tag, n);
    DeliverPutsOff(c, queued, tag, v, n, 0);
    s := ReachStep(c, queued, OfMessage(Deliver(tag, 0, Chosen(v))));
  }

  /**
    In every configuration with a sender and a server that can be routed to, some run
    requeues a request exactly MostRequeues times after a point later than which nothing
    is recorded, whether due timers run before deliveries or may lag.
   */
  lemma DeferralIsReached(c: Config, v: Server, slack: nat)
    requires ValidConfig(c) && c.senders != {} && slack <= 1
    requires v in c.servers && v.maxParallel >= 1 && Slots(c, v) != {}
    ensures exists from, to, id :: PutOffMost(c, slack, from, to, id)
  {
    var m :| m in c.senders;
    var tag :| tag in Slots(c, v);
    var from, id := FirstDeferral(c, m, v, tag);
    LeadsStart(c, slack, from);
    var most := MostRequeues(c, slack);
    FewIsAtMost(c, slack, most);
    var last := Rounds(c, slack, from, tag, v, id, most - 1);
    var to, j := Sleep(c, slack, from, last, tag, v, id, most - 1);
    assert PutOffMost(c, slack, from, to, id);
  }

  ghost predicate PutOffMost(c: Config, slack: nat, from: State, to: State, id: Id)
    requires c.delay >= 1
  {
    && Leads(c, slack, from, to) && Quiet(to.log, from.now)
    && Requeues(to.log, id) == Requeues(from.log, id) + MostRequeues(c, slack)
  }
}
