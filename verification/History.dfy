/**
  The in-flight sets against the history log, the expiry timers behind every
  tracked id, and the requeue counter against the requeues that happened.
 */
module History {
  import opened Messages
  import opened SetFacts
  import opened Dispatch
  import opened Calls
  import opened Placement
  import opened Conservation

  // ---- the log ----

  predicate IsAdmit(e: Event, server: Server, id: Id) {
    e.Admit? && e.server == server && e.id == id
  }

  predicate Clears(e: Event, server: Server, id: Id) {
    match e
    case Complete(v, x) => v == server && x == id
    case Expire(v, x) => v == server && x == id
    case Restart => true
    case _ => false
  }

  /** What one event does to the ids a server has in flight. */
  function Effect(ids: set<Id>, e: Event, server: Server): set<Id> {
    match e
    case Admit(v, id, _) => if v == server then ids + {id} else ids
    case Complete(v, id) => if v == server then ids - {id} else ids
    case Expire(v, id) => if v == server then ids - {id} else ids
    case Requeue(_) => ids
    case Restart => {}
  }

  /** The ids a server has in flight according to the log. */
  function Replay(log: seq<Event>, server: Server): set<Id> {
    if log == [] then {} else Effect(Replay(log[..|log| - 1], server), log[|log| - 1], server)
  }

  /** Entry `i` admitted the id, and nothing after it took the id out again. */
  ghost predicate StillOpen(log: seq<Event>, server: Server, id: Id, i: nat) {
    i < |log| && IsAdmit(log[i], server, id) && forall j :: i < j < |log| ==> !Clears(log[j], server, id)
  }

  /** In flight: admitted, and since then neither completed, expired nor wiped by a restart. */
  lemma {:induction false} ReplayMeaning(log: seq<Event>, server: Server, id: Id)
    ensures id in Replay(log, server) <==> exists i :: StillOpen(log, server, id, i)
  {
    if log != [] {
      var n := |log| - 1;
      var rest := log[..n];
      ReplayMeaning(rest, server, id);
      forall i: nat
        ensures StillOpen(log, server, id, i) <==>
                (i == n && IsAdmit(log[n], server, id)) ||
                      (StillOpen(rest, server, id, i) && !Clears(log[n], server, id))
      {
        if StillOpen(rest, server, id, i) {
          assert forall j :: i < j < n ==> log[j] == rest[j];
        }
      }
      assert IsAdmit(log[n], server, id) ==> StillOpen(log, server, id, n);
    }
  }

  lemma ReplayGrows(log: seq<Event>, e: Event, server: Server)
    ensures Replay(log + [e], server) == Effect(Replay(log, server), e, server)
  {
    assert (log + [e])[..|log|] == log;
  }

  ghost predicate TrackedIsReplay(s: State) {
    forall v :: v in s.tracked ==> s.tracked[v] == Replay(s.log, v)
  }

  lemma MoveKeepsReplay(c: Config, s: State, a: MessageStep)
    requires TrackedIsReplay(s) && CanMove(c, s, a)
    ensures TrackedIsReplay(DoMove(c, s, a))
  {
    var s' := DoMove(c, s, a);
    if s'.log != s.log {
      var e := s'.log[|s.log|];
      assert s'.log == s.log + [e];
      forall v | v in s'.tracked
        ensures s'.tracked[v] == Replay(s'.log, v)
      {
        ReplayGrows(s.log, e, v);
      }
    }
  }

  lemma ChangeKeepsReplay(c: Config, s: State, a: MemoryStep)
    requires TrackedIsReplay(s) && CanChange(c, s, a)
    ensures TrackedIsReplay(DoChange(c, s, a))
  {
    var s' := DoChange(c, s, a);
    if s'.log != s.log {
      var e := s'.log[|s.log|];
      assert s'.log == s.log + [e];
      forall v | v in s'.tracked
        ensures s'.tracked[v] == Replay(s'.log, v)
      {
        ReplayGrows(s.log, e, v);
      }
    }
  }

  // ---- every tracked id has a pending timer ----

  ghost predicate HasTimer(timers: map<nat, Timer>, server: Server, id: Id) {
    exists k :: k in timers && timers[k].server == server && timers[k].id == id
  }

  ghost predicate NoLeak(s: State) {
    forall v, id :: v in s.tracked && id in s.tracked[v] ==> HasTimer(s.timers, v, id)
  }

  lemma MoveKeepsNoLeak(c: Config, s: State, a: MessageStep)
    requires NoLeak(s) && CanMove(c, s, a)
    ensures NoLeak(DoMove(c, s, a))
  {
    var s' := DoMove(c, s, a);
    forall v, id | v in s'.tracked && id in s'.tracked[v]
      ensures HasTimer(s'.timers, v, id)
    {
      if v in s.tracked && id in s.tracked[v] {
        var k :| k in s.timers && s.timers[k].server == v && s.timers[k].id == id;
        assert k in s'.timers && s'.timers[k] == s.timers[k];
      } else {
        assert s'.timers[a.k].server == v && s'.timers[a.k].id == id;
      }
    }
  }

  lemma ChangeKeepsNoLeak(c: Config, s: State, a: MemoryStep)
    requires NoLeak(s) && CanChange(c, s, a)
    ensures NoLeak(DoChange(c, s, a))
  {
    var s' := DoChange(c, s, a);
    forall v, id | v in s'.tracked && id in s'.tracked[v]
      ensures HasTimer(s'.timers, v, id)
    {
      assert v in s.tracked && id in s.tracked[v];
      var k :| k in s.timers && s.timers[k].server == v && s.timers[k].id == id;
      assert k in s'.timers && s'.timers[k] == s.timers[k];
    }
  }

  // ---- every timer stems from a recorded admission ----

  ghost predicate AdmittedAt(log: seq<Event>, server: Server, id: Id, at: nat) {
    exists i :: 0 <= i < |log| && log[i] == Admit(server, id, at)
  }

  ghost predicate GoodTimer(c: Config, s: State, k: nat)
    requires k in s.timers
  {
    var t := s.timers[k];
    s.now <= t.due <= s.now + c.timeout && t.due >= c.timeout && AdmittedAt(s.log, t.server, t.id, t.due - c.timeout)
  }

  ghost predicate TimersLogged(c: Config, s: State) {
    forall k :: k in s.timers ==> GoodTimer(c, s, k)
  }

  lemma LogGrows(log: seq<Event>, more: seq<Event>)
    ensures forall v, id, at :: AdmittedAt(log, v, id, at) ==> AdmittedAt(log + more, v, id, at)
  {
    forall v, id, at | AdmittedAt(log, v, id, at)
      ensures AdmittedAt(log + more, v, id, at)
    {
      var i :| 0 <= i < |log| && log[i] == Admit(v, id, at);
      assert (log + more)[i] == log[i];
    }
  }

  lemma MoveKeepsTimers(c: Config, s: State, a: MessageStep)
    requires TimersLogged(c, s) && CanMove(c, s, a)
    ensures TimersLogged(c, DoMove(c, s, a))
  {
    var s' := DoMove(c, s, a);
    assert s'.log == s.log + s'.log[|s.log|..];
    LogGrows(s.log, s'.log[|s.log|..]);
    forall k | k in s'.timers
      ensures GoodTimer(c, s', k)
    {
      if k in s.timers {
        assert GoodTimer(c, s, k);
      } else {
        assert s'.log[|s.log|] == Admit(s'.timers[k].server, s'.timers[k].id, s.now);
      }
    }
  }

  lemma ChangeKeepsTimers(c: Config, s: State, a: MemoryStep)
    requires TimersLogged(c, s) && CanChange(c, s, a)
    ensures TimersLogged(c, DoChange(c, s, a))
  {
    var s' := DoChange(c, s, a);
    assert s'.log == s.log + s'.log[|s.log|..];
    LogGrows(s.log, s'.log[|s.log|..]);
    forall k | k in s'.timers
      ensures GoodTimer(c, s', k)
    {
      assert GoodTimer(c, s, k);
    }
  }

  // ---- what the timers bound ----

  /** How many admissions to `server` the log holds with a time of at least `since`. */
  function Admissions(log: seq<Event>, server: Server, since: int): nat {
    if log == [] then 0
    else
      var e := log[|log| - 1];
      Admissions(log[..|log| - 1], server, since) + if e.Admit? && e.server == server && e.at >= since then 1 else 0
  }

  function AdmittedIds(log: seq<Event>, server: Server, since: int): set<Id> {
    set i | 0 <= i < |log| && log[i].Admit? && log[i].server == server && log[i].at >= since :: log[i].id
  }

  lemma {:induction false} AdmittedIdsSize(log: seq<Event>, server: Server, since: int)
    ensures |AdmittedIds(log, server, since)| <= Admissions(log, server, since)
  {
    if log != [] {
      var rest := log[..|log| - 1];
      var e := log[|log| - 1];
      AdmittedIdsSize(rest, server, since);
      if e.Admit? && e.server == server && e.at >= since {
        AddOne(AdmittedIds(log, server, since), AdmittedIds(rest, server, since), e.id);
      } else {
        SubsetSize(AdmittedIds(log, server, since), AdmittedIds(rest, server, since));
      }
    }
  }

  /** A server never tracks more ids than it was admitted in the last `timeout` seconds. */
  lemma TrackedAtMostRecentAdmissions(c: Config, s: State, server: Server)
    requires NoLeak(s) && TimersLogged(c, s) && server in s.tracked
    ensures |s.tracked[server]| <= Admissions(s.log, server, s.now - c.timeout)
  {
    var recent := AdmittedIds(s.log, server, s.now - c.timeout);
    forall id | id in s.tracked[server]
      ensures id in recent
    {
      var k :| k in s.timers && s.timers[k].server == server && s.timers[k].id == id;
      assert GoodTimer(c, s, k);
      var i :| 0 <= i < |s.log| && s.log[i] == Admit(server, id, s.timers[k].due - c.timeout);
    }
    SubsetSize(s.tracked[server], recent);
    AdmittedIdsSize(s.log, server, s.now - c.timeout);
  }

  /** Once due timers have run, only admissions strictly younger than `timeout` count. */
  lemma TrackedAtMostYoungerAdmissions(c: Config, s: State, server: Server)
    requires NoLeak(s) && TimersLogged(c, s) && NothingDue(s) && server in s.tracked
    ensures |s.tracked[server]| <= Admissions(s.log, server, s.now - c.timeout + 1)
  {
    var recent := AdmittedIds(s.log, server, s.now - c.timeout + 1);
    forall id | id in s.tracked[server]
      ensures id in recent
    {
      var k :| k in s.timers && s.timers[k].server == server && s.timers[k].id == id;
      assert GoodTimer(c, s, k);
      var i :| 0 <= i < |s.log| && s.log[i] == Admit(server, id, s.timers[k].due - c.timeout);
    }
    SubsetSize(s.tracked[server], recent);
    AdmittedIdsSize(s.log, server, s.now - c.timeout + 1);
  }

  /** Nothing was recorded later than `since`. */
  ghost predicate Quiet(log: seq<Event>, since: nat) {
    forall i :: 0 <= i < |log| && log[i].Admit? ==> log[i].at <= since
  }

  // ---- the requeue counter ----

  function Requeues(log: seq<Event>, id: Id): nat {
    if log == [] then 0
    else Requeues(log[..|log| - 1], id) + if log[|log| - 1] == Requeue(id) then 1 else 0
  }

  lemma RequeuesGrow(log: seq<Event>, e: Event, id: Id)
    ensures Requeues(log + [e], id) == Requeues(log, id) + if e == Requeue(id) then 1 else 0
  {
    assert (log + [e])[..|log|] == log;
  }

  /** The place holds the message of request `id`, answered or not. */
  predicate Carries(s: State, p: Place, id: Id) {
    match p
    case InReady(k) => k in s.ready && s.ready[k].envelope.id == id
    case InHeld(tag) => tag in s.held && s.held[tag].envelope.id == id
    case InAsleep(j) => j in s.asleep && s.asleep[j].envelope.id == id
    case InAnswers(_) => false
  }

  /** A request never has two messages, even when it came back after its reply. */
  ghost predicate OneMessage(s: State) {
    forall p, q, id :: Carries(s, p, id) && Carries(s, q, id) ==> p == q
  }

  /** The requeue count a message carries. */
  function CountAt(s: State, p: Place, id: Id): int
    requires Carries(s, p, id)
  {
    match p
    case InReady(k) => RequeueCount(s.ready[k].envelope.headers)
    case InHeld(tag) => RequeueCount(s.held[tag].envelope.headers)
    case InAsleep(j) => RequeueCount(s.asleep[j].envelope.headers)
  }

  ghost predicate MessagesCounted(s: State) {
    forall p, id :: Carries(s, p, id) ==> CountAt(s, p, id) == Requeues(s.log, id)
  }

  ghost predicate AnswersCounted(s: State) {
    forall i :: 0 <= i < |s.answers| && s.answers[i].id !in s.doubtful ==>
      s.answers[i].requeueCount == Requeues(s.log, s.answers[i].id)
  }

  ghost predicate Counted(s: State) {
    OneMessage(s) && MessagesCounted(s) && AnswersCounted(s)
  }

  /** Where the message of a place before the step is after it; a reply leaves it where it is. */
  function MovesTo(a: MessageStep, p: Place): Place {
    if a.PublishReply? then p else After(a, 0, p)
  }

  lemma MessageMoves(c: Config, s: State, a: MessageStep, p: Place, id: Id)
    requires CanMove(c, s, a) && Carries(DoMove(c, s, a), p, id)
    ensures Carries(s, Before(a, 0, p), id) && MovesTo(a, Before(a, 0, p)) == p
    ensures CountAt(DoMove(c, s, a), p, id) ==
            CountAt(s, Before(a, 0, p), id) + if a.AckDeferred? && p == InAsleep(a.k) then 1 else 0
  {
  }

  lemma MoveKeepsOneMessage(c: Config, s: State, a: MessageStep)
    requires OneMessage(s) && CanMove(c, s, a)
    ensures OneMessage(DoMove(c, s, a))
  {
    var s' := DoMove(c, s, a);
    forall p, q, id | Carries(s', p, id) && Carries(s', q, id)
      ensures p == q
    {
      MessageMoves(c, s, a, p, id);
      MessageMoves(c, s, a, q, id);
    }
  }

  /** A requeue counts for the one message it moves. */
  lemma CountStep(s: State, a: MessageStep, p: Place, id: Id)
    requires OneMessage(s) && Carries(s, Before(a, 0, p), id) && MovesTo(a, Before(a, 0, p)) == p
    requires a.AckDeferred? ==> a.tag in s.held
    ensures a.AckDeferred? && p == InAsleep(a.k) <==> a.AckDeferred? && s.held[a.tag].envelope.id == id
  {
    if a.AckDeferred? {
      assert Carries(s, InHeld(a.tag), s.held[a.tag].envelope.id);
    }
  }

  lemma MovedIsCounted(c: Config, s: State, a: MessageStep, p: Place, id: Id)
    requires OneMessage(s) && MessagesCounted(s) && CanMove(c, s, a)
    requires Carries(DoMove(c, s, a), p, id)
    ensures CountAt(DoMove(c, s, a), p, id) == Requeues(DoMove(c, s, a).log, id)
  {
    MessageMoves(c, s, a, p, id);
    LogStep(c, s, a, id);
    CountStep(s, a, p, id);
  }

  lemma MoveKeepsMessagesCounted(c: Config, s: State, a: MessageStep)
    requires OneMessage(s) && MessagesCounted(s) && CanMove(c, s, a)
    ensures MessagesCounted(DoMove(c, s, a))
  {
    var s' := DoMove(c, s, a);
    forall p, id | Carries(s', p, id)
      ensures CountAt(s', p, id) == Requeues(s'.log, id)
    {
      MovedIsCounted(c, s, a, p, id);
    }
  }

  lemma AnsweredIsNotDeferred(c: Config, s: State, a: MessageStep, i: nat)
    requires AtMostOneOwner(s) && CanMove(c, s, a) && i < |s.answers| && s.answers[i].id !in s.doubtful
    ensures a.AckDeferred? ==> s.held[a.tag].envelope.id != s.answers[i].id
  {
    assert a.AckDeferred? ==> Owns(s, InHeld(a.tag), s.held[a.tag].envelope.id);
    assert Owns(s, InAnswers(i), s.answers[i].id);
  }

  /** A request is not requeued after its reply unless it came back. */
  lemma MoveKeepsAnswersCounted(c: Config, s: State, a: MessageStep)
    requires Counted(s) && AtMostOneOwner(s) && CanMove(c, s, a)
    ensures AnswersCounted(DoMove(c, s, a))
  {
    var s' := DoMove(c, s, a);
    forall i | 0 <= i < |s'.answers| && s'.answers[i].id !in s'.doubtful
      ensures s'.answers[i].requeueCount == Requeues(s'.log, s'.answers[i].id)
    {
      var id := s'.answers[i].id;
      RevivedIsDoubtful(c, s, a, id);
      LogStep(c, s, a, id);
      if i < |s.answers| {
        AnsweredIsNotDeferred(c, s, a, i);
      } else {
        assert Carries(s, InHeld(a.tag), id);
      }
    }
  }

  lemma MoveKeepsCounted(c: Config, s: State, a: MessageStep)
    requires Counted(s) && AtMostOneOwner(s) && CanMove(c, s, a)
    ensures Counted(DoMove(c, s, a))
  {
    MoveKeepsOneMessage(c, s, a);
    MoveKeepsMessagesCounted(c, s, a);
    MoveKeepsAnswersCounted(c, s, a);
  }

  lemma LogStep(c: Config, s: State, a: MessageStep, id: Id)
    requires CanMove(c, s, a)
    ensures Requeues(DoMove(c, s, a).log, id) ==
            Requeues(s.log, id) + if a.AckDeferred? && s.held[a.tag].envelope.id == id then 1 else 0
  {
    var s' := DoMove(c, s, a);
    if s'.log != s.log {
      RequeuesGrow(s.log, s'.log[|s.log|], id);
      assert s'.log == s.log + [s'.log[|s.log|]];
    }
  }

  lemma ChangeIsNoRequeue(c: Config, s: State, a: MemoryStep, id: Id)
    requires CanChange(c, s, a)
    ensures Requeues(DoChange(c, s, a).log, id) == Requeues(s.log, id)
  {
    var s' := DoChange(c, s, a);
    if s'.log != s.log {
      RequeuesGrow(s.log, s'.log[|s.log|], id);
      assert s'.log == s.log + [s'.log[|s.log|]];
    }
  }

  lemma ChangeKeepsMessages(c: Config, s: State, a: MemoryStep, p: Place, id: Id)
    requires CanChange(c, s, a) && Carries(DoChange(c, s, a), p, id)
    ensures Carries(s, p, id) && CountAt(DoChange(c, s, a), p, id) == CountAt(s, p, id)
  {
  }

  lemma ChangeKeepsAnswers(c: Config, s: State, a: MemoryStep)
    requires CanChange(c, s, a)
    ensures DoChange(c, s, a).answers == s.answers && s.doubtful <= DoChange(c, s, a).doubtful
  {
  }

  lemma ChangeKeepsCounted(c: Config, s: State, a: MemoryStep)
    requires Counted(s) && CanChange(c, s, a)
    ensures Counted(DoChange(c, s, a))
  {
    var s' := DoChange(c, s, a);
    forall p, id | Carries(s', p, id)
      ensures Carries(s, p, id) && CountAt(s', p, id) == Requeues(s'.log, id)
    {
      ChangeKeepsMessages(c, s, a, p, id);
      ChangeIsNoRequeue(c, s, a, id);
    }
    ChangeKeepsAnswers(c, s, a);
    forall i | 0 <= i < |s.answers| && s.answers[i].id !in s'.doubtful
      ensures s.answers[i].requeueCount == Requeues(s'.log, s.answers[i].id)
    {
      ChangeIsNoRequeue(c, s, a, s.answers[i].id);
    }
  }

  /** The log never mentions a request before it is published. */
  ghost predicate RequeuedIsSent(s: State) {
    forall i :: 0 <= i < |s.log| && s.log[i].Requeue? ==> s.log[i].id in s.sent
  }

  lemma {:induction false} NoRequeueNoCount(log: seq<Event>, id: Id)
    requires forall i :: 0 <= i < |log| ==> log[i] != Requeue(id)
    ensures Requeues(log, id) == 0
  {
    if log != [] {
      NoRequeueNoCount(log[..|log| - 1], id);
    }
  }

  lemma MoveKeepsRequeuedSent(c: Config, s: State, a: MessageStep)
    requires Placed(c, s) && RequeuedIsSent(s) && CanMove(c, s, a)
    ensures RequeuedIsSent(DoMove(c, s, a))
  {
    if a.AckDeferred? {
      assert GoodHold(c.consumers[a.tag], s.held[a.tag], s.sent);
    }
  }

  lemma CarriedIsSent(c: Config, s: State, p: Place, id: Id)
    requires Placed(c, s) && Carries(s, p, id)
    ensures id in s.sent
  {
    match p
    case InReady(k) => assert Faithful(s.sent, s.ready[k].envelope, s.ready[k].queue);
    case InHeld(tag) => assert GoodHold(c.consumers[tag], s.held[tag], s.sent);
    case InAsleep(j) => assert Faithful(s.sent, s.asleep[j].envelope, s.asleep[j].target);
  }

  lemma NewIsNotCarried(c: Config, s: State, id: Id)
    requires Placed(c, s) && RequeuedIsSent(s) && id !in s.sent
    ensures forall p :: !Carries(s, p, id)
    ensures Requeues(s.log, id) == 0
  {
    forall p
      ensures !Carries(s, p, id)
    {
      if Carries(s, p, id) {
        CarriedIsSent(c, s, p, id);
      }
    }
    NoRequeueNoCount(s.log, id);
  }

  lemma PublishedCount(s: State, n: SenderName, id: Id, k: nat)
    requires CallsOk(s) && CanSend(s, n, id, Publish(k))
    ensures k !in s.ready && k in DoSend(s, n, id, Publish(k)).ready
    ensures var e := DoSend(s, n, id, Publish(k)).ready[k].envelope; e.id == id && RequeueCount(e.headers) == 0
  {
    assert GoodClient(n, s.clients[n], s.sent, s.answers);
    assert GoodPublishing(n, id, s.clients[n].calls[id], s.sent);
  }

  lemma SendKeepsCounted(c: Config, s: State, n: SenderName, id: Id, a: SenderStep)
    requires Placed(c, s) && CallsOk(s) && Counted(s) && RequeuedIsSent(s) && CanSend(s, n, id, a)
    ensures Counted(DoSend(s, n, id, a)) && RequeuedIsSent(DoSend(s, n, id, a))
  {
    SendFrame(s, n, id, a);
    if a.Publish? {
      PublishedIsNew(s, n, id, a.k);
      PublishedCount(s, n, id, a.k);
      NewIsNotCarried(c, s, id);
      NewMessageCounted(s, DoSend(s, n, id, a), a.k, id);
    } else {
      SameMessagesCounted(s, DoSend(s, n, id, a));
    }
  }

  lemma SameMessagesCounted(s: State, s': State)
    requires Counted(s) && s'.ready == s.ready && s'.held == s.held && s'.asleep == s.asleep
    requires s'.answers == s.answers && s'.log == s.log && s'.doubtful == s.doubtful
    ensures Counted(s')
  {
    forall p, x | Carries(s', p, x)
      ensures Carries(s, p, x) && CountAt(s', p, x) == CountAt(s, p, x)
    {
    }
  }

  /** A state that differs only by the message of a new request. */
  lemma NewMessageCounted(s: State, s': State, k: nat, id: Id)
    requires Counted(s) && Requeues(s.log, id) == 0
    requires s'.held == s.held && s'.asleep == s.asleep && s'.answers == s.answers && s'.log == s.log &&
              s'.doubtful == s.doubtful
    requires k !in s.ready && k in s'.ready && s'.ready == s.ready[k := s'.ready[k]]
    requires s'.ready[k].envelope.id == id && RequeueCount(s'.ready[k].envelope.headers) == 0
    requires forall p :: !Carries(s, p, id)
    ensures Counted(s')
  {
    forall p, x | Carries(s', p, x)
      ensures if x == id then p == InReady(k) else Carries(s, p, x) && CountAt(s', p, x) == CountAt(s, p, x)
    {
      assert p != InReady(k) ==> Carries(s, p, x);
    }
  }
}
