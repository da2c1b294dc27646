/**
  What a reply tells of the delivery it answers, and what the consumer's memory owes
  to time, to crashes and to the pinger, over whole runs.
 */
module Deliveries {
  import opened Wrappers
  import opened Messages
  import opened RpcServer
  import opened Dispatch
  import opened Placement
  import opened Conservation
  import opened History
  import opened Runs
  import opened Theorems

  // ---- replies and their deliveries ----

  /**
    This step delivered the request, and chose `server` when it had `seen` requests in
    flight: one that was healthy for the shared queue, one of the queue's organization for
    a private one. No server was chosen when none was healthy.
   */
  ghost predicate DeliveredFor(c: Config, s: State, a: Step, id: Id, server: Option<Server>, seen: Option<nat>) {
    && a.OfMessage? && a.message.Deliver? && a.message.k in s.ready && s.ready[a.message.k].envelope.id == id
    && var queue := s.ready[a.message.k].queue;
       match server
       case Some(v) =>
         && a.message.choice == Chosen(v) && v in s.tracked && seen == Some(|s.tracked[v]|)
         && (queue.Shared? ==> v in s.healthy)
         && (queue.PrivateOf? ==> v in c.servers && v.organization == queue.organization)
       case None => queue.Shared? && s.healthy == {} && seen == None
  }

  /** Some earlier step did. */
  ghost predicate DeliveredBefore(
    c: Config, states: seq<State>, steps: seq<Step>, i: nat, id: Id, server: Option<Server>, seen: Option<nat>
  ) {
    exists d :: 0 <= d < i && d < |steps| && d < |states| && DeliveredFor(c, states[d], steps[d], id, server, seen)
  }

  /** The admission a hold records is that of an earlier delivery of its request. */
  ghost predicate HoldTells(c: Config, states: seq<State>, steps: seq<Step>, i: nat, h: Hold) {
    && (h.phase.Admitted? ==>
          DeliveredBefore(c, states, steps, i, h.envelope.id, Some(h.phase.server), Some(h.phase.seen)))
    && (h.phase.Unserved? ==> DeliveredBefore(c, states, steps, i, h.envelope.id, None, None))
  }

  ghost predicate ReplyTells(c: Config, states: seq<State>, steps: seq<Step>, i: nat, r: Reply) {
    DeliveredBefore(c, states, steps, i, r.id, r.server, r.currentParallel)
  }

  ghost predicate AllTell(c: Config, states: seq<State>, steps: seq<Step>, i: nat, s: State) {
    && (forall tag :: tag in s.held ==> HoldTells(c, states, steps, i, s.held[tag]))
    && (forall r :: r in s.answers ==> ReplyTells(c, states, steps, i, r))
  }

  lemma StillTold(
    c: Config, states: seq<State>, steps: seq<Step>, i: nat, id: Id, server: Option<Server>, seen: Option<nat>
  )
    requires DeliveredBefore(c, states, steps, i, id, server, seen)
    ensures DeliveredBefore(c, states, steps, i + 1, id, server, seen)
  {
    var d :| 0 <= d < i && d < |steps| && d < |states| && DeliveredFor(c, states[d], steps[d], id, server, seen);
  }

  /** Holds and replies are as before, but for a hold a delivery made and a reply a hold gave. */
  lemma HoldsAfter(c: Config, s: State, a: Step, s': State, tag: nat)
    requires Placed(c, s) && Next(c, s, a, s') && tag in s'.held
    requires s'.held[tag].phase.Admitted? || s'.held[tag].phase.Unserved?
    ensures (tag in s.held && s'.held[tag] == s.held[tag]) ||
            HoldDelivered(c, s, a, s'.held[tag])
  {
    match a
    case OfSender(n, id, b) => SendFrame(s, n, id, b);
    case OfMessage(b) => MoveHolds(c, s, b, tag);
    case OfMemory(b) => ChangeHolds(c, s, b, tag);
  }

  lemma ChangeHolds(c: Config, s: State, a: MemoryStep, tag: nat)
    requires CanChange(c, s, a) && tag in DoChange(c, s, a).held
    ensures tag in s.held
    ensures DoChange(c, s, a).held[tag] == s.held[tag] || DoChange(c, s, a).held[tag].phase == Stuck
  {
  }

  ghost predicate HoldDelivered(c: Config, s: State, a: Step, h: Hold) {
    && (h.phase.Admitted? ==> DeliveredFor(c, s, a, h.envelope.id, Some(h.phase.server), Some(h.phase.seen)))
    && (h.phase.Unserved? ==> DeliveredFor(c, s, a, h.envelope.id, None, None))
  }

  lemma MoveHolds(c: Config, s: State, a: MessageStep, tag: nat)
    requires Placed(c, s) && CanMove(c, s, a) && tag in DoMove(c, s, a).held
    requires DoMove(c, s, a).held[tag].phase.Admitted? || DoMove(c, s, a).held[tag].phase.Unserved?
    ensures (tag in s.held && DoMove(c, s, a).held[tag] == s.held[tag]) ||
            HoldDelivered(c, s, OfMessage(a), DoMove(c, s, a).held[tag])
  {
    if a.Deliver? && a.tag == tag {
      DeliveryHolds(c, s, tag, a.k, a.choice);
    }
  }

  lemma DeliveryHolds(c: Config, s: State, tag: nat, k: nat, choice: Choice)
    requires Placed(c, s) && CanDeliver(c, s, tag, k, choice)
    ensures HoldDelivered(c, s, OfMessage(Deliver(tag, k, choice)), DoDeliver(c, s, tag, k, choice).held[tag])
  {
    var e := s.ready[k].envelope;
    assert Faithful(s.sent, e, s.ready[k].queue);
    DecisionMeaning(s.tracked, c.best, e, s.ready[k].queue, choice);
    DeliverMeans(c, s, tag, k, choice);
  }

  lemma RepliesAfter(c: Config, s: State, a: Step, s': State, r: Reply)
    requires Next(c, s, a, s') && r in s'.answers
    ensures r in s.answers || exists tag :: tag in s.held && ReplyOf(s.held[tag], r)
  {
    match a
    case OfSender(n, id, b) => SendFrame(s, n, id, b);
    case OfMessage(b) => MoveAnswers(c, s, b, r);
    case OfMemory(b) => ChangeKeepsAnswers(c, s, b);
  }

  lemma MoveAnswers(c: Config, s: State, a: MessageStep, r: Reply)
    requires CanMove(c, s, a) && r in DoMove(c, s, a).answers
    ensures r in s.answers || exists tag :: tag in s.held && ReplyOf(s.held[tag], r)
  {
    if a.PublishReply? && r !in s.answers {
      assert ReplyOf(s.held[a.tag], r);
    }
  }

  /** The reply a hold gives. */
  predicate ReplyOf(h: Hold, r: Reply) {
    && r.id == h.envelope.id
    && ((h.phase.Admitted? && r.server == Some(h.phase.server) && r.currentParallel == Some(h.phase.seen))
        || (h.phase.Unserved? && r.server == None && r.currentParallel == None))
  }

  lemma StepKeepsTelling(c: Config, states: seq<State>, steps: seq<Step>, i: nat)
    requires i < |steps| && |states| == |steps| + 1 && StepAt(c, states, steps, i)
    requires Placed(c, states[i]) && AllTell(c, states, steps, i, states[i])
    ensures AllTell(c, states, steps, i + 1, states[i + 1])
  {
    var s, s', next := states[i], states[i + 1], i + 1;
    forall tag | tag in s'.held
      ensures HoldTells(c, states, steps, next, s'.held[tag])
    {
      if s'.held[tag].phase.Admitted? || s'.held[tag].phase.Unserved? {
        HoldStillTells(c, states, steps, i, tag);
      }
    }
    forall r | r in s'.answers
      ensures ReplyTells(c, states, steps, next, r)
    {
      ReplyStillTells(c, states, steps, i, r);
    }
  }

  lemma HoldStillTells(c: Config, states: seq<State>, steps: seq<Step>, i: nat, tag: nat)
    requires i < |steps| && |states| == |steps| + 1 && StepAt(c, states, steps, i)
    requires Placed(c, states[i]) && AllTell(c, states, steps, i, states[i]) && tag in states[i + 1].held
    requires states[i + 1].held[tag].phase.Admitted? || states[i + 1].held[tag].phase.Unserved?
    ensures HoldTells(c, states, steps, i + 1, states[i + 1].held[tag])
  {
    var h := states[i + 1].held[tag];
    HoldsAfter(c, states[i], steps[i], states[i + 1], tag);
    if tag in states[i].held && h == states[i].held[tag] {
      assert HoldTells(c, states, steps, i, h);
      var server := if h.phase.Admitted? then Some(h.phase.server) else None;
      var seen := if h.phase.Admitted? then Some(h.phase.seen) else None;
      StillTold(c, states, steps, i, h.envelope.id, server, seen);
    } else {
      assert HoldDelivered(c, states[i], steps[i], h);
    }
  }

  lemma ReplyStillTells(c: Config, states: seq<State>, steps: seq<Step>, i: nat, r: Reply)
    requires i < |steps| && |states| == |steps| + 1 && StepAt(c, states, steps, i)
    requires AllTell(c, states, steps, i, states[i]) && r in states[i + 1].answers
    ensures ReplyTells(c, states, steps, i + 1, r)
  {
    RepliesAfter(c, states[i], steps[i], states[i + 1], r);
    if r !in states[i].answers {
      var tag :| tag in states[i].held && ReplyOf(states[i].held[tag], r);
      assert HoldTells(c, states, steps, i, states[i].held[tag]);
    }
    StillTold(c, states, steps, i, r.id, r.server, r.currentParallel);
  }

  lemma {:induction false} RunTells(c: Config, states: seq<State>, steps: seq<Step>, i: nat)
    requires IsRun(c, states, steps) && i <= |steps|
    ensures AllTell(c, states, steps, i, states[i])
  {
    if i > 0 {
      RunTells(c, states, steps, i - 1);
      RunKeepsInv(c, states, steps, i - 1);
      StepKeepsTelling(c, states, steps, i - 1);
    }
  }

  /**
    Every reply tells of an earlier delivery of its request: the server is the one chosen
    then, healthy at that moment or of the queue's organization, and the count is what
    that server had in flight then; a reply without server means none was healthy.
   */
  lemma ReplyTellsItsDelivery(c: Config, states: seq<State>, steps: seq<Step>, i: nat, r: Reply)
    requires IsRun(c, states, steps) && i <= |steps| && r in states[i].answers
    ensures exists d :: 0 <= d < i && d < |steps| && d < |states|
                        && DeliveredFor(c, states[d], steps[d], r.id, r.server, r.currentParallel)
  {
    RunTells(c, states, steps, i);
    assert ReplyTells(c, states, steps, i, r);
  }

  // ---- the pinger ----

  predicate IsHealth(a: Step) {
    a.OfMemory? && a.memory.Health?
  }

  lemma OnlyHealthChangesHealthy(c: Config, s: State, a: Step, s': State)
    requires Next(c, s, a, s')
    ensures s'.healthy == if IsHealth(a) then a.memory.up else s.healthy
  {
    match a
    case OfSender(n, id, b) => SendFrame(s, n, id, b);
    case OfMessage(b) => MoveKeepsHealthy(c, s, b);
    case OfMemory(b) => ChangeHealthy(c, s, b);
  }

  lemma ChangeHealthy(c: Config, s: State, a: MemoryStep)
    requires CanChange(c, s, a)
    ensures DoChange(c, s, a).healthy == if a.Health? then a.up else s.healthy
  {
  }

  lemma MoveKeepsHealthy(c: Config, s: State, a: MessageStep)
    requires CanMove(c, s, a)
    ensures DoMove(c, s, a).healthy == s.healthy
  {
  }

  /** A health update holds, for every delivery, until the next one. */
  lemma {:induction false} HealthTakesEffect(
    c: Config, states: seq<State>, steps: seq<Step>, i: nat, j: nat, up: set<Server>
  )
    requires IsRun(c, states, steps) && i < j <= |steps| && steps[i] == OfMemory(Health(up))
    requires forall l :: i < l < j ==> !IsHealth(steps[l])
    ensures states[j].healthy == up
    decreases j
  {
    assert StepAt(c, states, steps, j - 1);
    OnlyHealthChangesHealthy(c, states[j - 1], steps[j - 1], states[j]);
    if j > i + 1 {
      HealthTakesEffect(c, states, steps, i, j - 1, up);
    }
  }

  // ---- time ----

  /** Step `b` recorded the admission of `id` to `server`, with timer `k`. */
  ghost predicate RecordedAt(states: seq<State>, steps: seq<Step>, b: nat, k: nat, server: Server, id: Id) {
    && b < |steps| && b < |states| && steps[b].OfMessage? && steps[b].message.AckReply? && steps[b].message.k == k
    && var tag := steps[b].message.tag;
       && tag in states[b].held && states[b].held[tag].phase == Replied(Some(server))
       && states[b].held[tag].envelope.id == id
  }

  /** The timer stems from a recorded admission, and is due a timeout after it. */
  ghost predicate TimerStems(c: Config, states: seq<State>, steps: seq<Step>, i: nat, k: nat, t: Timer) {
    exists b :: 0 <= b < i && RecordedAt(states, steps, b, k, t.server, t.id) && t.due == states[b].now + c.timeout
  }

  lemma TimersAfter(c: Config, s: State, a: Step, s': State, k: nat)
    requires Next(c, s, a, s') && k in s'.timers
    ensures (k in s.timers && s'.timers[k] == s.timers[k]) || TimerSet(c, s, a, k, s'.timers[k])
  {
    match a
    case OfSender(n, id, b) => SendFrame(s, n, id, b);
    case OfMessage(b) => MoveTimers(c, s, b, k);
    case OfMemory(b) => ChangeTimers(c, s, b, k);
  }

  lemma ChangeTimers(c: Config, s: State, a: MemoryStep, k: nat)
    requires CanChange(c, s, a) && k in DoChange(c, s, a).timers
    ensures k in s.timers && DoChange(c, s, a).timers[k] == s.timers[k]
  {
  }

  ghost predicate TimerSet(c: Config, s: State, a: Step, k: nat, t: Timer) {
    && a.OfMessage? && a.message.AckReply? && a.message.k == k && a.message.tag in s.held
    && s.held[a.message.tag].phase == Replied(Some(t.server)) && s.held[a.message.tag].envelope.id == t.id
    && t.due == s.now + c.timeout
  }

  lemma MoveTimers(c: Config, s: State, a: MessageStep, k: nat)
    requires CanMove(c, s, a) && k in DoMove(c, s, a).timers
    ensures (k in s.timers && DoMove(c, s, a).timers[k] == s.timers[k]) ||
            TimerSet(c, s, OfMessage(a), k, DoMove(c, s, a).timers[k])
  {
  }

  lemma {:induction false} TimersStem(c: Config, states: seq<State>, steps: seq<Step>, i: nat, k: nat)
    requires IsRun(c, states, steps) && i <= |steps| && k in states[i].timers
    ensures TimerStems(c, states, steps, i, k, states[i].timers[k])
  {
    if i > 0 {
      assert StepAt(c, states, steps, i - 1);
      TimersAfter(c, states[i - 1], steps[i - 1], states[i], k);
      if k in states[i - 1].timers && states[i].timers[k] == states[i - 1].timers[k] {
        TimersStem(c, states, steps, i - 1, k);
      } else {
        assert RecordedAt(states, steps, i - 1, k, states[i].timers[k].server, states[i].timers[k].id);
      }
    }
  }

  /** A timer fires exactly a timeout after the admission it stems from, and takes that id from that server only. */
  lemma ExpiryTakesTimeout(c: Config, states: seq<State>, steps: seq<Step>, i: nat, k: nat)
    requires IsRun(c, states, steps) && i < |steps| && steps[i] == OfMemory(FireTimer(k))
    ensures k in states[i].timers && states[i].timers[k].server in states[i].tracked
    ensures var t := states[i].timers[k];
            && (exists b :: 0 <= b < i && RecordedAt(states, steps, b, k, t.server, t.id)
                            && states[i].now == states[b].now + c.timeout)
            && DiffersAt(states[i].tracked, states[i + 1].tracked, t.server, t.id, false)
  {
    assert StepAt(c, states, steps, i);
    TimersStem(c, states, steps, i, k);
    RunKeepsInv(c, states, steps, i);
    assert GoodTimer(c, states[i], k);
    ExpiryUndoesRecord(states[i].tracked, states[i].timers[k].server, states[i].timers[k].id);
  }

  /** Recording puts the id in the set of the server its reply named, and sets its timer. */
  lemma RecordingTracks(c: Config, s: State, tag: nat, k: nat, server: Server)
    requires CanMove(c, s, AckReply(tag, k)) && s.held[tag].phase == Replied(Some(server))
    ensures var s' := DoMove(c, s, AckReply(tag, k));
            && server in s.tracked
            && DiffersAt(s.tracked, s'.tracked, server, s.held[tag].envelope.id, true)
            && s'.timers == s.timers[k := Timer(server, s.held[tag].envelope.id, s.now + c.timeout)]
            && tag !in s'.held
            && s'.log == s.log + [Admit(server, s.held[tag].envelope.id, s.now)]
  {
    ExpiryUndoesRecord(s.tracked, server, s.held[tag].envelope.id);
  }

  // ---- crashes ----

  /** A crash forgets what the consumer kept; what it had not acknowledged is still at the broker. */
  lemma CrashForgets(c: Config, s: State)
    ensures var s' := DoChange(c, s, Crash);
            && !s'.up && s'.timers == map[] && s'.asleep == map[]
            && s'.tracked.Keys == s.tracked.Keys && (forall v :: v in s.tracked ==> s'.tracked[v] == {})
            && s'.held.Keys == s.held.Keys
            && (forall tag :: tag in s.held ==> s'.held[tag] == Hold(s.held[tag].envelope, Stuck))
            && s'.ready == s.ready && s'.inbox == s.inbox && s'.completions == s.completions && s'.now == s.now
  {
  }

  predicate IsCrash(a: Step) {
    a.OfMemory? && a.memory.Crash?
  }

  predicate IsRecover(a: Step) {
    a.OfMemory? && a.memory.Recover?
  }

  lemma UpAfter(c: Config, s: State, a: Step, s': State)
    requires Next(c, s, a, s')
    ensures s'.up <==> IsRecover(a) || (s.up && !IsCrash(a))
  {
    match a
    case OfSender(n, id, b) => SendFrame(s, n, id, b);
    case OfMessage(b) => MoveKeepsUp(c, s, b);
    case OfMemory(b) => ChangeUp(c, s, b);
  }

  lemma MoveKeepsUp(c: Config, s: State, a: MessageStep)
    requires CanMove(c, s, a)
    ensures DoMove(c, s, a).up == s.up
  {
  }

  lemma ChangeUp(c: Config, s: State, a: MemoryStep)
    requires CanChange(c, s, a)
    ensures DoChange(c, s, a).up <==> a.Recover? || (s.up && !a.Crash?)
  {
  }

  /** Every crash among the first i steps has been recovered from. */
  ghost predicate Recovered(steps: seq<Step>, i: nat) {
    forall b :: 0 <= b < i && b < |steps| && IsCrash(steps[b]) ==>
                  exists r :: b < r < i && r < |steps| && IsRecover(steps[r])
  }

  /** The consumer is connected exactly when it has recovered from every crash. */
  lemma {:induction false} UpIffRecovered(c: Config, states: seq<State>, steps: seq<Step>, i: nat)
    requires IsRun(c, states, steps) && i <= |steps|
    ensures states[i].up <==> Recovered(steps, i)
  {
    if i > 0 {
      UpIffRecovered(c, states, steps, i - 1);
      assert StepAt(c, states, steps, i - 1);
      UpAfter(c, states[i - 1], steps[i - 1], states[i]);
      RecoveredStep(steps, i - 1);
    }
  }

  lemma RecoveredStep(steps: seq<Step>, i: nat)
    requires i < |steps|
    ensures Recovered(steps, i + 1) <==> IsRecover(steps[i]) || (Recovered(steps, i) && !IsCrash(steps[i]))
  {
    if Recovered(steps, i) && !IsCrash(steps[i]) {
      forall b | 0 <= b < i + 1 && b < |steps| && IsCrash(steps[b])
        ensures exists r :: b < r < i + 1 && r < |steps| && IsRecover(steps[r])
      {
        var r :| b < r < i && r < |steps| && IsRecover(steps[r]);
      }
    }
    if Recovered(steps, i + 1) && !IsRecover(steps[i]) {
      forall b | 0 <= b < i && b < |steps| && IsCrash(steps[b])
        ensures exists r :: b < r < i && r < |steps| && IsRecover(steps[r])
      {
        var r :| b < r < i + 1 && r < |steps| && IsRecover(steps[r]);
      }
    }
  }

  /** Between a crash and the recovery nothing is consumed, and only then is a queue deleted. */
  lemma NothingConsumedWhileAway(c: Config, states: seq<State>, steps: seq<Step>, i: nat)
    requires IsRun(c, states, steps) && i < |steps|
    ensures steps[i].OfMessage? && steps[i].message.Deliver? ==> Recovered(steps, i)
    ensures steps[i].OfMemory? && steps[i].memory.CompletionArrives? ==> Recovered(steps, i)
    ensures steps[i].OfMemory? && (steps[i].memory.QueueExpires? || steps[i].memory.CompletionQueueExpires?) ==>
              !Recovered(steps, i)
  {
    assert StepAt(c, states, steps, i);
    UpIffRecovered(c, states, steps, i);
  }

  /** A deleted queue is empty afterwards, and no other message is touched. */
  lemma DeletedQueueIsEmpty(c: Config, s: State, queue: QueueName)
    requires CanChange(c, s, QueueExpires(queue))
    ensures var s' := DoChange(c, s, QueueExpires(queue));
            && (forall k :: k in s'.ready <==> k in s.ready && s.ready[k].queue != queue)
            && (forall k :: k in s'.ready ==> s'.ready[k] == s.ready[k])
            && s'.held == s.held && s'.asleep == s.asleep && s'.answers == s.answers && s'.completions == s.completions
  {
  }

  /** With the completion queue the completions in it are gone; their ids stay until their timers. */
  lemma DeletedCompletions(c: Config, s: State)
    requires CanChange(c, s, CompletionQueueExpires)
    ensures var s' := DoChange(c, s, CompletionQueueExpires);
            s'.completions == map[] && s'.tracked == s.tracked && s'.timers == s.timers && s'.ready == s.ready
  {
  }

  /** A reply that cannot be published leaves its message unacknowledged, and its registration stuck. */
  lemma FailedReplySticks(c: Config, s: State, tag: nat)
    requires CanMove(c, s, ReplyFails(tag))
    ensures var s' := DoMove(c, s, ReplyFails(tag));
            && IsStuck(s', tag, s.held[tag].envelope)
            && s'.answers == s.answers && s'.inbox == s.inbox && s'.tracked == s.tracked && s'.ready == s.ready
  {
  }

  /** So does a choice that raises. */
  lemma RaisedChoiceSticks(c: Config, s: State, tag: nat, k: nat)
    requires CanMove(c, s, Deliver(tag, k, ChoiceRaised))
    ensures IsStuck(DoMove(c, s, Deliver(tag, k, ChoiceRaised)), tag, s.ready[k].envelope)
  {
    DecisionMeaning(s.tracked, c.best, s.ready[k].envelope, s.ready[k].queue, ChoiceRaised);
    DeliverMeans(c, s, tag, k, ChoiceRaised);
  }

  // ---- priorities ----

  /** Above best - 2: the limit does not apply. */
  predicate IsUrgent(c: Config, e: Envelope) {
    e.priority.Some? && e.priority.value > c.best - 2
  }

  ghost predicate UrgentPass(c: Config, s: State) {
    && (forall tag :: tag in s.held && s.held[tag].phase.Deferring? ==> !IsUrgent(c, s.held[tag].envelope))
    && (forall id :: id in s.sent && IsUrgent(c, s.sent[id]) ==> Requeues(s.log, id) == 0)
  }

  lemma MoveKeepsUrgentPass(c: Config, s: State, a: MessageStep)
    requires Placed(c, s) && UrgentPass(c, s) && CanMove(c, s, a)
    ensures UrgentPass(c, DoMove(c, s, a))
  {
    forall id | id in s.sent && IsUrgent(c, s.sent[id])
      ensures Requeues(DoMove(c, s, a).log, id) == 0
    {
      LogStep(c, s, a, id);
      if a.AckDeferred? {
        assert GoodHold(c.consumers[a.tag], s.held[a.tag], s.sent);
      }
    }
    MoveKeepsSent(c, s, a);
    if a.Deliver? {
      DecisionMeaning(s.tracked, c.best, s.ready[a.k].envelope, s.ready[a.k].queue, a.choice);
    }
  }

  lemma ChangeKeepsUrgentPass(c: Config, s: State, a: MemoryStep)
    requires UrgentPass(c, s) && CanChange(c, s, a)
    ensures UrgentPass(c, DoChange(c, s, a))
  {
    ChangeKeepsSent(c, s, a);
    forall id | id in s.sent && IsUrgent(c, s.sent[id])
      ensures Requeues(DoChange(c, s, a).log, id) == 0
    {
      ChangeIsNoRequeue(c, s, a, id);
    }
  }

  lemma SendKeepsUrgentPass(c: Config, s: State, n: SenderName, id: Id, a: SenderStep)
    requires Inv(c, s) && UrgentPass(c, s) && CanSend(s, n, id, a)
    ensures UrgentPass(c, DoSend(s, n, id, a))
  {
    SendFrame(s, n, id, a);
    if a.Publish? {
      PublishedIsNew(s, n, id, a.k);
      NewIsNotCarried(c, s, id);
    }
  }

  lemma StepKeepsUrgentPass(c: Config, s: State, a: Step, s': State)
    requires Inv(c, s) && UrgentPass(c, s) && Next(c, s, a, s')
    ensures UrgentPass(c, s')
  {
    match a
    case OfSender(n, id, b) => SendKeepsUrgentPass(c, s, n, id, b);
    case OfMessage(b) => MoveKeepsUrgentPass(c, s, b);
    case OfMemory(b) => ChangeKeepsUrgentPass(c, s, b);
  }

  lemma {:induction false} RunKeepsUrgentPass(c: Config, states: seq<State>, steps: seq<Step>, i: nat)
    requires IsRun(c, states, steps) && i <= |steps|
    ensures UrgentPass(c, states[i])
  {
    if i > 0 {
      RunKeepsUrgentPass(c, states, steps, i - 1);
      RunKeepsInv(c, states, steps, i - 1);
      assert StepAt(c, states, steps, i - 1);
      StepKeepsUrgentPass(c, states[i - 1], steps[i - 1], states[i]);
    }
  }

  /** A request with a priority above best - 2 is never requeued. */
  lemma UrgentIsNeverRequeued(c: Config, s: State, id: Id)
    requires Reachable(c, s) && id in s.sent
    requires s.sent[id].priority.Some? && s.sent[id].priority.value > c.best - 2
    ensures Requeues(s.log, id) == 0
  {
    var states: seq<State>, steps: seq<Step> :| IsRun(c, states, steps) && s == states[|steps|];
    RunKeepsUrgentPass(c, states, steps, |steps|);
  }
}
