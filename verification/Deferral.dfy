/**
  How long a request can be put off. Every requeue sleeps and every tracked id has a
  timer, so from any moment on, with no new admissions, a full server empties before
  a request has been requeued often.
 */
module Deferral {
  import opened Messages
  import opened RpcServer
  import opened Dispatch
  import opened Calls
  import opened Placement
  import opened Conservation
  import opened History
  import opened Runs

  function Count(e: Envelope): int {
    RequeueCount(e.headers)
  }

  /** The time n requeues sleep at least. */
  function Slept(n: int, delay: nat): nat
    decreases n
  {
    if n <= 0 then 0 else Slept(n - 1, delay) + delay
  }

  lemma {:induction false} SleptIsProduct(n: nat, delay: nat)
    ensures Slept(n, delay) == n * delay
  {
    if n > 0 {
      SleptIsProduct(n - 1, delay);
    }
  }

  /** The request watched, the time the watch began, and how often it had been requeued by then. */
  datatype Watch = Watch(id: Id, since: nat, base: nat)

  // ---- requeues take time ----

  /** A message requeued n times since the watch began is not back before n delays have passed. */
  ghost predicate Paced(w: Watch, delay: nat, e: Envelope, time: nat) {
    e.id == w.id && Count(e) > w.base ==> time >= w.since + Slept(Count(e) - w.base, delay)
  }

  ghost predicate PacedReady(c: Config, w: Watch, ready: map<nat, Ready>, now: nat) {
    forall k :: k in ready ==> Paced(w, c.delay, ready[k].envelope, now)
  }

  ghost predicate PacedHeld(c: Config, w: Watch, held: map<nat, Hold>, now: nat) {
    forall tag :: tag in held ==> Paced(w, c.delay, held[tag].envelope, now)
  }

  ghost predicate PacedAsleep(c: Config, w: Watch, asleep: map<nat, Sleeper>) {
    forall j :: j in asleep ==> Paced(w, c.delay, asleep[j].envelope, asleep[j].wakeAt)
  }

  ghost predicate AllPaced(c: Config, w: Watch, s: State) {
    && s.now >= w.since
    && PacedReady(c, w, s.ready, s.now)
    && PacedHeld(c, w, s.held, s.now)
    && PacedAsleep(c, w, s.asleep)
  }

  lemma DeliverKeepsPaced(c: Config, w: Watch, s: State, tag: nat, k: nat, choice: Choice)
    requires AllPaced(c, w, s) && CanDeliver(c, s, tag, k, choice)
    ensures AllPaced(c, w, DoDeliver(c, s, tag, k, choice))
  {
    DeliverMeans(c, s, tag, k, choice);
  }

  lemma RequeuedIsPaced(w: Watch, delay: nat, e: Envelope, now: nat)
    requires now >= w.since && Paced(w, delay, e, now)
    ensures Paced(w, delay, Requeued(e), now + delay)
  {
    assert Count(Requeued(e)) == Count(e) + 1;
  }

  lemma DeferredKeepsPaced(c: Config, w: Watch, s: State, tag: nat, k: nat)
    requires AllPaced(c, w, s) && CanAckDeferred(s, tag, k)
    ensures AllPaced(c, w, DoAckDeferred(c, s, tag, k))
  {
    RequeuedIsPaced(w, c.delay, s.held[tag].envelope, s.now);
    var s' := DoAckDeferred(c, s, tag, k);
    assert s'.held == s.held - {tag} && s'.ready == s.ready && s'.now == s.now;
    assert s'.asleep ==
          s.asleep[k := Sleeper(Requeued(s.held[tag].envelope), s.held[tag].phase.target, s.now + c.delay)];
  }

  lemma OtherMovesKeepPaced(c: Config, w: Watch, s: State, a: MessageStep)
    requires AllPaced(c, w, s) && CanMove(c, s, a) && !a.Deliver? && !a.AckDeferred?
    ensures AllPaced(c, w, DoMove(c, s, a))
  {
  }

  lemma MoveKeepsPaced(c: Config, w: Watch, s: State, a: MessageStep)
    requires AllPaced(c, w, s) && CanMove(c, s, a)
    ensures AllPaced(c, w, DoMove(c, s, a))
  {
    match a
    case Deliver(tag, k, choice) => DeliverKeepsPaced(c, w, s, tag, k, choice);
    case AckDeferred(tag, k) => DeferredKeepsPaced(c, w, s, tag, k);
    case _ => OtherMovesKeepPaced(c, w, s, a);
  }

  lemma ChangeKeepsPaced(c: Config, w: Watch, s: State, a: MemoryStep)
    requires AllPaced(c, w, s) && CanChange(c, s, a)
    ensures AllPaced(c, w, DoChange(c, s, a))
  {
  }

  lemma SendKeepsPaced(c: Config, w: Watch, s: State, n: SenderName, id: Id, a: SenderStep)
    requires CallsOk(s) && AllPaced(c, w, s) && CanSend(s, n, id, a)
    ensures AllPaced(c, w, DoSend(s, n, id, a))
  {
    SendFrame(s, n, id, a);
    if a.Publish? {
      PublishedCount(s, n, id, a.k);
    }
  }

  // ---- a deferral means a recent admission ----

  /** So many requeues are possible: the first at once, later ones while their sleeps fit in the treatment timeout. */
  predicate Few(c: Config, slack: nat, n: int) {
    n <= 1 || Slept(n - 1, c.delay) < c.timeout + slack
  }

  ghost predicate Short(c: Config, slack: nat, w: Watch, log: seq<Event>, e: Envelope) {
    e.id == w.id && Quiet(log, w.since) ==> Few(c, slack, Count(e) - w.base)
  }

  /** A request being deferred may yet be requeued once more. */
  ghost predicate ShortHold(c: Config, slack: nat, w: Watch, log: seq<Event>, h: Hold) {
    && Short(c, slack, w, log, h.envelope)
    && (h.phase.Deferring? ==> Short(c, slack, w, log, Requeued(h.envelope)))
  }

  ghost predicate ShortReady(c: Config, slack: nat, w: Watch, ready: map<nat, Ready>, log: seq<Event>) {
    forall k :: k in ready ==> Short(c, slack, w, log, ready[k].envelope)
  }

  ghost predicate ShortHeld(c: Config, slack: nat, w: Watch, held: map<nat, Hold>, log: seq<Event>) {
    forall tag :: tag in held ==> ShortHold(c, slack, w, log, held[tag])
  }

  ghost predicate ShortAsleep(c: Config, slack: nat, w: Watch, asleep: map<nat, Sleeper>, log: seq<Event>) {
    forall j :: j in asleep ==> Short(c, slack, w, log, asleep[j].envelope)
  }

  ghost predicate ShortLog(c: Config, slack: nat, w: Watch, log: seq<Event>) {
    Quiet(log, w.since) ==> Few(c, slack, Requeues(log, w.id) - w.base)
  }

  ghost predicate AllShort(c: Config, slack: nat, w: Watch, s: State) {
    && ShortReady(c, slack, w, s.ready, s.log)
    && ShortHeld(c, slack, w, s.held, s.log)
    && ShortAsleep(c, slack, w, s.asleep, s.log)
    && ShortLog(c, slack, w, s.log)
  }

  ghost predicate AllLimitsPositive(c: Config) {
    forall v :: v in Pool(c) ==> v.maxParallel >= 1
  }

  lemma SomeTimerBound(c: Config, s: State, v: Server, x: Id, since: nat)
    requires NoLeak(s) && TimersLogged(c, s) && v in s.tracked && x in s.tracked[v] && Quiet(s.log, since)
    ensures s.now <= since + c.timeout
    ensures NothingDue(s) ==> s.now < since + c.timeout
  {
    assert HasTimer(s.timers, v, x);
    var t :| t in s.timers && s.timers[t].server == v && s.timers[t].id == x;
    assert GoodTimer(c, s, t);
    var i :| 0 <= i < |s.log| && s.log[i] == Admit(v, x, s.timers[t].due - c.timeout);
  }

  /** The full server tracks an id, whose timer stems from an admission no younger than the watch. */
  lemma DeferredWithinTimeout(c: Config, s: State, tag: nat, k: nat, choice: Choice, since: nat)
    requires Shaped(c, s) && NoLeak(s) && TimersLogged(c, s) && AllLimitsPositive(c) && CanDeliver(c, s, tag, k, choice)
    requires Decide(c, s, s.ready[k].queue, s.ready[k].envelope, choice).Deferring? && Quiet(s.log, since)
    ensures s.now <= since + c.timeout
    ensures NothingDue(s) ==> s.now < since + c.timeout
  {
    DecisionMeaning(s.tracked, c.best, s.ready[k].envelope, s.ready[k].queue, choice);
    var v := choice.server;
    assert |s.tracked[v]| >= 1;
    var x :| x in s.tracked[v];
    SomeTimerBound(c, s, v, x, since);
  }

  lemma DeferredIsShort(c: Config, w: Watch, s: State, tag: nat, k: nat, choice: Choice, slack: nat)
    requires Shaped(c, s) && NoLeak(s) && TimersLogged(c, s) && AllPaced(c, w, s) && AllLimitsPositive(c)
    requires CanDeliver(c, s, tag, k, choice)
    requires NothingDue(s) || slack >= 1
    requires Decide(c, s, s.ready[k].queue, s.ready[k].envelope, choice).Deferring?
    ensures Short(c, slack, w, s.log, Requeued(s.ready[k].envelope))
  {
    var e := s.ready[k].envelope;
    assert Count(Requeued(e)) == Count(e) + 1;
    assert Paced(w, c.delay, e, s.now);
    if Quiet(s.log, w.since) {
      DeferredWithinTimeout(c, s, tag, k, choice, w.since);
    }
  }

  lemma DeliverKeepsShort(c: Config, w: Watch, s: State, tag: nat, k: nat, choice: Choice, slack: nat)
    requires Shaped(c, s) && NoLeak(s) && TimersLogged(c, s) && AllPaced(c, w, s) && AllShort(c, slack, w, s)
    requires AllLimitsPositive(c) && CanDeliver(c, s, tag, k, choice)
    requires NothingDue(s) || slack >= 1
    ensures AllShort(c, slack, w, DoDeliver(c, s, tag, k, choice))
  {
    var phase := Decide(c, s, s.ready[k].queue, s.ready[k].envelope, choice);
    if phase.Deferring? {
      DeferredIsShort(c, w, s, tag, k, choice, slack);
    }
    assert ShortHold(c, slack, w, s.log, Hold(s.ready[k].envelope, phase));
    DeliverMeans(c, s, tag, k, choice);
  }

  lemma LogKeepsShort(c: Config, w: Watch, s: State, more: seq<Event>, slack: nat)
    requires AllShort(c, slack, w, s)
    ensures ShortReady(c, slack, w, s.ready, s.log + more)
    ensures ShortHeld(c, slack, w, s.held, s.log + more)
    ensures ShortAsleep(c, slack, w, s.asleep, s.log + more)
    ensures Quiet(s.log + more, w.since) ==> Few(c, slack, Requeues(s.log, w.id) - w.base)
  {
    assert Quiet(s.log + more, w.since) ==> Quiet(s.log, w.since) by {
      assert forall i :: 0 <= i < |s.log| ==> (s.log + more)[i] == s.log[i];
    }
  }

  lemma MoveOnlyAddsToLog(c: Config, s: State, a: MessageStep)
    requires CanMove(c, s, a)
    ensures |s.log| <= |DoMove(c, s, a).log|
    ensures DoMove(c, s, a).log == s.log + DoMove(c, s, a).log[|s.log|..]
  {
  }

  /** The requeue recorded is the one the held message had room for. */
  lemma RequeueKeepsShortLog(c: Config, w: Watch, s: State, a: MessageStep, slack: nat)
    requires MessagesCounted(s) && AllShort(c, slack, w, s) && CanMove(c, s, a)
    requires ShortHeld(c, slack, w, s.held, DoMove(c, s, a).log)
    requires Quiet(DoMove(c, s, a).log, w.since) ==> Few(c, slack, Requeues(s.log, w.id) - w.base)
    ensures ShortLog(c, slack, w, DoMove(c, s, a).log)
  {
    LogStep(c, s, a, w.id);
    if a.AckDeferred? {
      var e := s.held[a.tag].envelope;
      assert Carries(s, InHeld(a.tag), e.id);
      assert ShortHold(c, slack, w, DoMove(c, s, a).log, s.held[a.tag]);
      assert Count(Requeued(e)) == Count(e) + 1;
    }
  }

  lemma OtherMovesKeepShort(c: Config, w: Watch, s: State, a: MessageStep, slack: nat)
    requires CanMove(c, s, a) && !a.Deliver?
    requires ShortReady(c, slack, w, s.ready, DoMove(c, s, a).log)
    requires ShortHeld(c, slack, w, s.held, DoMove(c, s, a).log)
    requires ShortAsleep(c, slack, w, s.asleep, DoMove(c, s, a).log)
    requires ShortLog(c, slack, w, DoMove(c, s, a).log)
    ensures AllShort(c, slack, w, DoMove(c, s, a))
  {
  }

  lemma MoveKeepsShort(c: Config, w: Watch, s: State, a: MessageStep, slack: nat)
    requires Inv(c, s) && AllPaced(c, w, s) && AllShort(c, slack, w, s) && AllLimitsPositive(c) && CanMove(c, s, a)
    requires a.Deliver? ==> NothingDue(s) || slack >= 1
    ensures AllShort(c, slack, w, DoMove(c, s, a))
  {
    if a.Deliver? {
      DeliverKeepsShort(c, w, s, a.tag, a.k, a.choice, slack);
    } else {
      MoveOnlyAddsToLog(c, s, a);
      LogKeepsShort(c, w, s, DoMove(c, s, a).log[|s.log|..], slack);
      RequeueKeepsShortLog(c, w, s, a, slack);
      OtherMovesKeepShort(c, w, s, a, slack);
    }
  }

  lemma ChangeKeepsShort(c: Config, w: Watch, s: State, a: MemoryStep, slack: nat)
    requires AllShort(c, slack, w, s) && CanChange(c, s, a)
    ensures AllShort(c, slack, w, DoChange(c, s, a))
  {
    var s' := DoChange(c, s, a);
    assert s'.log == s.log + s'.log[|s.log|..];
    LogKeepsShort(c, w, s, s'.log[|s.log|..], slack);
    ChangeIsNoRequeue(c, s, a, w.id);
  }

  lemma SendKeepsShort(c: Config, w: Watch, s: State, n: SenderName, id: Id, a: SenderStep, slack: nat)
    requires CallsOk(s) && AllShort(c, slack, w, s) && CanSend(s, n, id, a)
    ensures AllShort(c, slack, w, DoSend(s, n, id, a))
  {
    SendFrame(s, n, id, a);
    if a.Publish? {
      PublishedCount(s, n, id, a.k);
    }
  }

  // ---- whole runs ----

  /** From step `i` on, every timer that is due runs before a message is delivered. */
  ghost predicate TimersFirst(states: seq<State>, steps: seq<Step>, i: nat)
    requires |states| == |steps| + 1
  {
    forall j :: i <= j < |steps| && steps[j].OfMessage? && steps[j].message.Deliver? ==> NothingDue(states[j])
  }

  ghost predicate WatchInv(c: Config, slack: nat, w: Watch, s: State) {
    Inv(c, s) && AllPaced(c, w, s) && AllShort(c, slack, w, s)
  }

  lemma StepKeepsShort(c: Config, w: Watch, s: State, a: Step, s': State, slack: nat)
    requires WatchInv(c, slack, w, s) && AllLimitsPositive(c) && Next(c, s, a, s')
    requires a.OfMessage? && a.message.Deliver? ==> NothingDue(s) || slack >= 1
    ensures AllPaced(c, w, s') && AllShort(c, slack, w, s')
  {
    match a
    case OfSender(n, id, b) =>
      SendKeepsPaced(c, w, s, n, id, b);
      SendKeepsShort(c, w, s, n, id, b, slack);
    case OfMessage(b) =>
      MoveKeepsPaced(c, w, s, b);
      MoveKeepsShort(c, w, s, b, slack);
    case OfMemory(b) =>
      ChangeKeepsPaced(c, w, s, b);
      ChangeKeepsShort(c, w, s, b, slack);
  }

  lemma StepKeepsWatchInv(c: Config, w: Watch, s: State, a: Step, s': State, slack: nat)
    requires WatchInv(c, slack, w, s) && AllLimitsPositive(c) && Next(c, s, a, s')
    requires a.OfMessage? && a.message.Deliver? ==> NothingDue(s) || slack >= 1
    ensures WatchInv(c, slack, w, s')
  {
    StepKeepsShort(c, w, s, a, s', slack);
    StepKeepsInv(c, s, a, s');
  }

  lemma CountedSoFar(c: Config, slack: nat, w: Watch, log: seq<Event>, e: Envelope, delay: nat, time: nat)
    requires e.id == w.id ==> Count(e) == w.base
    ensures Paced(w, delay, e, time)
    ensures Short(c, slack, w, log, e) && Short(c, slack, w, log, Requeued(e))
  {
    assert Count(Requeued(e)) == Count(e) + 1;
  }

  lemma CarriedSoFar(c: Config, slack: nat, w: Watch, s: State, p: Place, e: Envelope, time: nat)
    requires MessagesCounted(s) && w.base == Requeues(s.log, w.id)
    requires Carries(s, p, e.id) && CountAt(s, p, e.id) == Count(e)
    ensures Paced(w, c.delay, e, time)
    ensures Short(c, slack, w, s.log, e) && Short(c, slack, w, s.log, Requeued(e))
  {
    CountedSoFar(c, slack, w, s.log, e, c.delay, time);
  }

  /** When the watch begins every message of the request has been requeued `base` times. */
  lemma WatchBegins(c: Config, s: State, id: Id, slack: nat)
    requires Inv(c, s)
    ensures WatchInv(c, slack, Watch(id, s.now, Requeues(s.log, id)), s)
  {
    WatchStarts(c, s, id, slack);
  }

  lemma WatchStarts(c: Config, s: State, id: Id, slack: nat)
    requires MessagesCounted(s)
    ensures var w := Watch(id, s.now, Requeues(s.log, id)); AllPaced(c, w, s) && AllShort(c, slack, w, s)
  {
    var w := Watch(id, s.now, Requeues(s.log, id));
    forall k | k in s.ready
      ensures Paced(w, c.delay, s.ready[k].envelope, s.now) && Short(c, slack, w, s.log, s.ready[k].envelope)
    {
      CarriedSoFar(c, slack, w, s, InReady(k), s.ready[k].envelope, s.now);
    }
    forall tag | tag in s.held
      ensures Paced(w, c.delay, s.held[tag].envelope, s.now) && ShortHold(c, slack, w, s.log, s.held[tag])
    {
      CarriedSoFar(c, slack, w, s, InHeld(tag), s.held[tag].envelope, s.now);
    }
    forall j | j in s.asleep
      ensures Paced(w, c.delay, s.asleep[j].envelope, s.asleep[j].wakeAt) &&
                Short(c, slack, w, s.log, s.asleep[j].envelope)
    {
      CarriedSoFar(c, slack, w, s, InAsleep(j), s.asleep[j].envelope, s.asleep[j].wakeAt);
    }
  }

  lemma {:induction false} RunKeepsShort(
    c: Config, states: seq<State>, steps: seq<Step>, i: nat, j: nat, slack: nat, id: Id
  )
    requires IsRun(c, states, steps) && i <= j <= |steps| && AllLimitsPositive(c)
    requires TimersFirst(states, steps, i) || slack >= 1
    ensures WatchInv(c, slack, Watch(id, states[i].now, Requeues(states[i].log, id)), states[j])
    decreases j
  {
    if i == j {
      RunKeepsInv(c, states, steps, i);
      WatchBegins(c, states[i], id, slack);
    } else {
      RunKeepsShort(c, states, steps, i, j - 1, slack, id);
      assert StepAt(c, states, steps, j - 1);
      StepKeepsWatchInv(c, Watch(id, states[i].now, Requeues(states[i].log, id)), states[j - 1], steps[j - 1],
            states[j], slack);
    }
  }

  /** The timeout in delays, rounded up, but at least one. `slack` is 0 unless timers may lag. */
  function MostRequeues(c: Config, slack: nat): nat
    requires c.delay >= 1
  {
    var n := (c.timeout + slack + c.delay - 1) / c.delay;
    if n >= 1 then n else 1
  }

  lemma FewIsAtMost(c: Config, slack: nat, n: int)
    requires c.delay >= 1
    ensures Few(c, slack, n) <==> n <= MostRequeues(c, slack)
  {
    if n > 1 {
      SleptIsProduct(n - 1, c.delay);
      DivisionRoundsUp(c.timeout + slack, c.delay, n);
    }
  }

  lemma DivisionRoundsUp(total: nat, d: nat, n: nat)
    requires d >= 1 && n >= 1
    ensures (n - 1) * d < total <==> n <= (total + d - 1) / d
  {
    var q := (total + d - 1) / d;
    var whole := Quotient(total + d - 1, d);
    if n <= q {
      ProductMonotone(n - 1, q - 1, d);
      OneLess(q, d);
    } else {
      ProductMonotone(q, n - 1, d);
    }
  }

  lemma Quotient(a: nat, d: nat) returns (whole: nat)
    requires d >= 1
    ensures whole == a / d * d && whole <= a < whole + d
  {
    whole := a / d * d;
  }

  lemma OneLess(q: int, d: nat)
    ensures (q - 1) * d == q * d - d
  {
  }

  lemma ProductMonotone(a: int, b: int, d: nat)
    requires a <= b
    ensures a * d <= b * d
  {
    var more := b - a;
    assert more * d >= 0;
    assert b * d == a * d + more * d;
  }

  /**
    Bounded deferral: from any point of any run on, as long as no admission is recorded
    later than it, no request is requeued more than MostRequeues times.
   */
  lemma BoundedDeferral(c: Config, states: seq<State>, steps: seq<Step>, i: nat, j: nat, slack: nat, id: Id)
    requires ValidConfig(c) && AllLimitsPositive(c) && IsRun(c, states, steps) && i <= j <= |steps|
    requires TimersFirst(states, steps, i) || slack >= 1
    requires Quiet(states[j].log, states[i].now)
    ensures Requeues(states[j].log, id) <= Requeues(states[i].log, id) + MostRequeues(c, slack)
  {
    RunKeepsShort(c, states, steps, i, j, slack, id);
    FewIsAtMost(c, slack, Requeues(states[j].log, id) - Requeues(states[i].log, id));
  }

  /** Unless choosing raises, a server can be found for the message. */
  ghost predicate Servable(c: Config, s: State, r: Ready) {
    if r.queue.Shared? then s.healthy != {}
    else PrivateMode(r.envelope.body) && Matching(c.servers, r.envelope.body.organization) != {}
  }

  lemma NotDeferredIsAdmitted(c: Config, s: State, tag: nat, k: nat, choice: Choice)
    requires CanDeliver(c, s, tag, k, choice) && Servable(c, s, s.ready[k]) && !choice.ChoiceRaised?
    requires !Decide(c, s, s.ready[k].queue, s.ready[k].envelope, choice).Deferring?
    ensures Decide(c, s, s.ready[k].queue, s.ready[k].envelope, choice).Admitted?
  {
    DecisionMeaning(s.tracked, c.best, s.ready[k].envelope, s.ready[k].queue, choice);
  }

  /**
    So a delivery that finds the request there already does not defer it again: unless
    choosing raises or no server can serve it, it is admitted, from either kind of queue.
   */
  lemma LastDeliveryAdmits(
    c: Config, states: seq<State>, steps: seq<Step>, i: nat, j: nat, slack: nat, tag: nat, k: nat,
    choice: Choice
  )
    requires ValidConfig(c) && AllLimitsPositive(c) && IsRun(c, states, steps) && i <= j < |steps|
    requires TimersFirst(states, steps, i) || slack >= 1
    requires steps[j] == OfMessage(Deliver(tag, k, choice)) && CanDeliver(c, states[j], tag, k, choice)
    requires Quiet(states[j].log, states[i].now)
    requires var id := states[j].ready[k].envelope.id;
             Requeues(states[j].log, id) >= Requeues(states[i].log, id) + MostRequeues(c, slack)
    ensures var s := states[j];
            var phase := Decide(c, s, s.ready[k].queue, s.ready[k].envelope, choice);
            !phase.Deferring? && (Servable(c, s, s.ready[k]) && !choice.ChoiceRaised? ==> phase.Admitted?)
  {
    var id := states[j].ready[k].envelope.id;
    RunKeepsShort(c, states, steps, i, j, slack, id);
    LastIsNotDeferred(c, Watch(id, states[i].now, Requeues(states[i].log, id)), states[j], slack, tag, k, choice);
    if Servable(c, states[j], states[j].ready[k]) && !choice.ChoiceRaised? {
      NotDeferredIsAdmitted(c, states[j], tag, k, choice);
    }
  }

  lemma LastIsNotDeferred(c: Config, w: Watch, s: State, slack: nat, tag: nat, k: nat, choice: Choice)
    requires c.delay >= 1 && AllLimitsPositive(c) && WatchInv(c, slack, w, s) && CanDeliver(c, s, tag, k, choice)
    requires NothingDue(s) || slack >= 1
    requires s.ready[k].envelope.id == w.id && Quiet(s.log, w.since) &&
              Requeues(s.log, w.id) >= w.base + MostRequeues(c, slack)
    ensures !Decide(c, s, s.ready[k].queue, s.ready[k].envelope, choice).Deferring?
  {
    var e := s.ready[k].envelope;
    NoRoomLeft(c, w, s, slack, k);
    if Decide(c, s, s.ready[k].queue, e, choice).Deferring? {
      DeferredIsShort(c, w, s, tag, k, choice, slack);
    }
  }

  lemma NoRoomLeft(c: Config, w: Watch, s: State, slack: nat, k: nat)
    requires c.delay >= 1 && MessagesCounted(s) && k in s.ready && s.ready[k].envelope.id == w.id
    requires Requeues(s.log, w.id) >= w.base + MostRequeues(c, slack) && Quiet(s.log, w.since)
    ensures !Short(c, slack, w, s.log, Requeued(s.ready[k].envelope))
  {
    var e := s.ready[k].envelope;
    assert Carries(s, InReady(k), w.id);
    assert Count(Requeued(e)) == Count(e) + 1;
    FewIsAtMost(c, slack, Count(e) + 1 - w.base);
  }
}
