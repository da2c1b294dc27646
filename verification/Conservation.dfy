/**
  Conservation of requests: at every moment of every run each published request
  has exactly one owner, with the exact exceptions that a dying consumer, a
  failed republish, the message TTL and a late redelivery make.
 */
module Conservation {
  import opened Messages
  import opened RpcServer
  import opened Dispatch
  import opened Calls
  import opened Placement

  /** Who may owe a request its answer, or has given it. */
  datatype Place =
    | InReady(k: nat)
    | InHeld(tag: nat)
    | InAsleep(j: nat)
    | InAnswers(i: nat)

  /** `p` owns request `id`: a message in a queue, a callback that has not replied, a requeue task, or a reply. */
  predicate Owns(s: State, p: Place, id: Id) {
    match p
    case InReady(k) => k in s.ready && s.ready[k].envelope.id == id
    case InHeld(tag) => tag in s.held && s.held[tag].envelope.id == id && !s.held[tag].phase.Replied?
    case InAsleep(j) => j in s.asleep && s.asleep[j].envelope.id == id
    case InAnswers(i) => i < |s.answers| && s.answers[i].id == id
  }

  ghost predicate HasAnswer(answers: seq<Reply>, id: Id) {
    exists i :: 0 <= i < |answers| && answers[i].id == id
  }

  ghost predicate AtMostOneOwner(s: State) {
    forall p, q, id :: id !in s.doubtful && Owns(s, p, id) && Owns(s, q, id) ==> p == q
  }

  ghost predicate SomeOwner(s: State) {
    forall id :: id in s.sent && id !in s.lost ==> exists p :: Owns(s, p, id)
  }

  ghost predicate LostHasNoOwner(s: State) {
    forall p, id :: id in s.lost && id !in s.doubtful ==> !Owns(s, p, id)
  }

  ghost predicate RepliedIsAnswered(s: State) {
    && (forall tag :: tag in s.held && s.held[tag].phase.Replied? ==> HasAnswer(s.answers, s.held[tag].envelope.id))
    && (forall id :: id in s.doubtful ==> HasAnswer(s.answers, id))
  }

  ghost predicate Conserved(s: State) {
    && AtMostOneOwner(s)
    && SomeOwner(s)
    && LostHasNoOwner(s)
    && RepliedIsAnswered(s)
    && s.lost <= s.sent.Keys && s.doubtful <= s.sent.Keys
  }

  lemma InitConserved(c: Config)
    ensures Conserved(Init(c))
  {
  }

  lemma OwnedIsSent(c: Config, s: State, p: Place, id: Id)
    requires Placed(c, s) && Owns(s, p, id)
    ensures id in s.sent
  {
    match p
    case InReady(k) =>
    case InHeld(tag) => assert GoodHold(c.consumers[tag], s.held[tag], s.sent);
    case InAsleep(j) =>
    case InAnswers(i) => assert s.answers[i] in s.answers && GoodAnswer(s.answers[i], s.sent);
  }

  // ---- message steps move one owner ----

  /** Where the owner of a place after the step was before it. */
  function Before(a: MessageStep, n: nat, p: Place): Place {
    match a
    case Deliver(tag, k, _) => if p == InHeld(tag) then InReady(k) else p
    case PublishReply(tag, _) => if p == InAnswers(n) then InHeld(tag) else p
    case AckDeferred(tag, k) => if p == InAsleep(k) then InHeld(tag) else p
    case Republish(j, k) => if p == InReady(k) then InAsleep(j) else p
    case Redeliver(tag, k) => if p == InReady(k) then InHeld(tag) else p
    case _ => p
  }

  /** Where the owner of a place before the step is after it. */
  function After(a: MessageStep, n: nat, p: Place): Place {
    match a
    case Deliver(tag, k, _) => if p == InReady(k) then InHeld(tag) else p
    case PublishReply(tag, _) => if p == InHeld(tag) then InAnswers(n) else p
    case AckDeferred(tag, k) => if p == InHeld(tag) then InAsleep(k) else p
    case Republish(j, k) => if p == InAsleep(j) then InReady(k) else p
    case Redeliver(tag, k) => if p == InHeld(tag) then InReady(k) else p
    case _ => p
  }

  /** The steps that let go of a request, and the one that may revive an answered one. */
  predicate Drops(a: MessageStep, p: Place) {
    (a.RepublishFails? && p == InAsleep(a.j)) || (a.DropExpired? && p == InReady(a.k))
  }

  predicate Revives(s: State, a: MessageStep, id: Id) {
    a.Redeliver? && a.tag in s.held && s.held[a.tag].phase.Replied? && s.held[a.tag].envelope.id == id
  }

  /** The redelivery of an answered message is the one step that makes an owner out of none. */
  lemma OwnerCameFrom(c: Config, s: State, a: MessageStep, p: Place, id: Id)
    requires CanMove(c, s, a) && Owns(DoMove(c, s, a), p, id)
    ensures Owns(s, Before(a, |s.answers|, p), id) <==> !(Revives(s, a, id) && p == InReady(a.k))
    ensures !Drops(a, Before(a, |s.answers|, p))
    ensures After(a, |s.answers|, Before(a, |s.answers|, p)) == p
  {
    DeliverNeverReplies(c, s, a);
  }

  lemma DeliverNeverReplies(c: Config, s: State, a: MessageStep)
    requires CanMove(c, s, a)
    ensures a.Deliver? ==> !DoMove(c, s, a).held[a.tag].phase.Replied?
  {
    if a.Deliver? {
      DecisionMeaning(s.tracked, c.best, s.ready[a.k].envelope, s.ready[a.k].queue, a.choice);
    }
  }

  lemma OwnerGoesTo(c: Config, s: State, a: MessageStep, p: Place, id: Id)
    requires CanMove(c, s, a) && Owns(s, p, id) && !Drops(a, p)
    ensures Owns(DoMove(c, s, a), After(a, |s.answers|, p), id)
  {
    DeliverNeverReplies(c, s, a);
  }

  lemma MoveKeepsAtMostOne(c: Config, s: State, a: MessageStep)
    requires AtMostOneOwner(s) && CanMove(c, s, a)
    ensures AtMostOneOwner(DoMove(c, s, a))
  {
    var s' := DoMove(c, s, a);
    forall p, q, id | id !in s'.doubtful && Owns(s', p, id) && Owns(s', q, id)
      ensures p == q
    {
      RevivedIsDoubtful(c, s, a, id);
      OwnerCameFrom(c, s, a, p, id);
      OwnerCameFrom(c, s, a, q, id);
    }
  }

  lemma RevivedIsDoubtful(c: Config, s: State, a: MessageStep, id: Id)
    requires CanMove(c, s, a)
    ensures Revives(s, a, id) ==> id in DoMove(c, s, a).doubtful
    ensures id in DoMove(c, s, a).doubtful <==> id in s.doubtful || Revives(s, a, id)
    ensures id in s.lost ==> id in DoMove(c, s, a).lost
    ensures DoMove(c, s, a).sent == s.sent
  {
  }

  lemma MoveKeepsSomeOwner(c: Config, s: State, a: MessageStep)
    requires SomeOwner(s) && CanMove(c, s, a)
    ensures SomeOwner(DoMove(c, s, a))
  {
    var s' := DoMove(c, s, a);
    forall id | id in s'.sent && id !in s'.lost
      ensures exists p :: Owns(s', p, id)
    {
      RevivedIsDoubtful(c, s, a, id);
      var p :| Owns(s, p, id);
      DroppedIsLost(c, s, a, p, id);
      OwnerGoesTo(c, s, a, p, id);
    }
  }

  lemma DroppedIsLost(c: Config, s: State, a: MessageStep, p: Place, id: Id)
    requires CanMove(c, s, a) && Owns(s, p, id)
    ensures Drops(a, p) ==> id in DoMove(c, s, a).lost
  {
  }

  lemma NewlyLostWasDropped(c: Config, s: State, a: MessageStep, id: Id) returns (p: Place)
    requires CanMove(c, s, a) && id in DoMove(c, s, a).lost && id !in s.lost
    ensures Owns(s, p, id) && Drops(a, p)
  {
    p := if a.RepublishFails? then InAsleep(a.j) else InReady(a.k);
  }

  lemma MoveKeepsLost(c: Config, s: State, a: MessageStep)
    requires AtMostOneOwner(s) && LostHasNoOwner(s) && CanMove(c, s, a)
    ensures LostHasNoOwner(DoMove(c, s, a))
  {
    var s' := DoMove(c, s, a);
    forall p, id | id in s'.lost && id !in s'.doubtful
      ensures !Owns(s', p, id)
    {
      RevivedIsDoubtful(c, s, a, id);
      if Owns(s', p, id) {
        OwnerCameFrom(c, s, a, p, id);
        if id !in s.lost {
          var q := NewlyLostWasDropped(c, s, a, id);
        }
      }
    }
  }

  lemma MoreReplies(answers: seq<Reply>, r: Reply)
    ensures forall id :: HasAnswer(answers, id) ==> HasAnswer(answers + [r], id)
    ensures HasAnswer(answers + [r], r.id)
  {
    forall id | HasAnswer(answers, id)
      ensures HasAnswer(answers + [r], id)
    {
      var i :| 0 <= i < |answers| && answers[i].id == id;
      assert (answers + [r])[i].id == id;
    }
    assert (answers + [r])[|answers|].id == r.id;
  }

  lemma MoveKeepsReplied(c: Config, s: State, a: MessageStep)
    requires RepliedIsAnswered(s) && CanMove(c, s, a)
    ensures RepliedIsAnswered(DoMove(c, s, a))
  {
    DeliverNeverReplies(c, s, a);
    if a.PublishReply? {
      MoreReplies(s.answers, ReplyTo(s.held[a.tag].envelope, s.held[a.tag].phase));
    }
  }

  lemma MoveKeepsSentOnly(c: Config, s: State, a: MessageStep)
    requires Placed(c, s) && Conserved(s) && CanMove(c, s, a)
    ensures DoMove(c, s, a).lost <= s.sent.Keys && DoMove(c, s, a).doubtful <= s.sent.Keys
  {
    if a.Redeliver? {
      assert GoodHold(c.consumers[a.tag], s.held[a.tag], s.sent);
    }
  }

  lemma MoveConserves(c: Config, s: State, a: MessageStep)
    requires Placed(c, s) && Conserved(s) && CanMove(c, s, a)
    ensures Conserved(DoMove(c, s, a))
  {
    MoveKeepsAtMostOne(c, s, a);
    MoveKeepsSomeOwner(c, s, a);
    MoveKeepsLost(c, s, a);
    MoveKeepsReplied(c, s, a);
    MoveKeepsSentOnly(c, s, a);
    RevivedIsDoubtful(c, s, a, 0);
  }

  // ---- sender steps: publishing creates the one owner of a new request ----

  lemma SendConserves(c: Config, s: State, n: SenderName, id: Id, a: SenderStep)
    requires Placed(c, s) && CallsOk(s) && Conserved(s) && CanSend(s, n, id, a)
    ensures Conserved(DoSend(s, n, id, a))
  {
    if a.Publish? {
      PublishConserves(c, s, n, id, a.k);
    } else {
      SendFrame(s, n, id, a);
      SameOwnersConserve(s, DoSend(s, n, id, a));
    }
  }

  lemma SameOwnersConserve(s: State, s': State)
    requires Conserved(s)
    requires s'.ready == s.ready && s'.held == s.held && s'.asleep == s.asleep && s'.answers == s.answers
    requires s'.sent == s.sent && s'.lost == s.lost && s'.doubtful == s.doubtful
    ensures Conserved(s')
  {
    assert forall p, x :: Owns(s', p, x) == Owns(s, p, x);
  }

  lemma PublishConserves(c: Config, s: State, n: SenderName, id: Id, k: nat)
    requires Placed(c, s) && CallsOk(s) && Conserved(s) && CanSend(s, n, id, Publish(k))
    ensures Conserved(DoSend(s, n, id, Publish(k)))
  {
    var s' := DoSend(s, n, id, Publish(k));
    PublishAddsOneOwner(c, s, n, id, k);
    forall x | x in s'.sent && x !in s'.lost
      ensures exists p :: Owns(s', p, x)
    {
      if x == id {
        assert Owns(s', InReady(k), id);
      } else {
        var p :| Owns(s, p, x);
        assert Owns(s', p, x);
      }
    }
  }

  lemma SendFrame(s: State, n: SenderName, id: Id, a: SenderStep)
    requires CanSend(s, n, id, a)
    ensures var s' := DoSend(s, n, id, a);
            && s'.held == s.held && s'.asleep == s.asleep && s'.answers == s.answers && s'.log == s.log
            && s'.lost == s.lost && s'.doubtful == s.doubtful && s'.tracked == s.tracked && s'.timers == s.timers
            && s'.now == s.now && s'.up == s.up && s'.healthy == s.healthy
            && (!a.Publish? ==> s'.ready == s.ready && s'.sent == s.sent)
            && (a.Publish? ==> a.k !in s.ready && id in s'.sent && s'.sent == s.sent[id := s'.sent[id]]
                               && s'.ready == s.ready[a.k := s'.ready[a.k]] && s'.ready[a.k].envelope == s'.sent[id])
  {
  }

  lemma PublishAddsOneOwner(c: Config, s: State, n: SenderName, id: Id, k: nat)
    requires Placed(c, s) && CallsOk(s) && CanSend(s, n, id, Publish(k))
    ensures forall p, x :: Owns(DoSend(s, n, id, Publish(k)), p, x) <==> Owns(s, p, x) || (p == InReady(k) && x == id)
    ensures forall p :: !Owns(s, p, id)
    ensures id !in s.sent
  {
    PublishedIsNew(s, n, id, k);
    forall p
      ensures !Owns(s, p, id)
    {
      if Owns(s, p, id) {
        OwnedIsSent(c, s, p, id);
      }
    }
    SendFrame(s, n, id, Publish(k));
    OneMoreReady(s, DoSend(s, n, id, Publish(k)), k, id);
  }

  lemma OneMoreReady(s: State, s': State, k: nat, id: Id)
    requires s'.held == s.held && s'.asleep == s.asleep && s'.answers == s.answers
    requires k !in s.ready && k in s'.ready && s'.ready == s.ready[k := s'.ready[k]] && s'.ready[k].envelope.id == id
    ensures forall p, x :: Owns(s', p, x) <==> Owns(s, p, x) || (p == InReady(k) && x == id)
  {
  }

  lemma PublishedIsNew(s: State, n: SenderName, id: Id, k: nat)
    requires CallsOk(s) && CanSend(s, n, id, Publish(k))
    ensures id !in s.sent && s.clients[n].calls[id].envelope.id == id
  {
    assert GoodClient(n, s.clients[n], s.sent, s.answers);
    assert GoodPublishing(n, id, s.clients[n].calls[id], s.sent);
  }

  // ---- memory steps: only a crash matters ----

  lemma CrashConserves(c: Config, s: State)
    requires Placed(c, s) && Conserved(s)
    ensures Conserved(DoCrash(s))
  {
    var s' := DoCrash(s);
    forall p, id | Owns(s, p, id)
      ensures id in s.sent
      ensures Owns(s', p, id) || (p.InAsleep? && id in s'.lost)
    {
      OwnedIsSent(c, s, p, id);
    }
    forall tag | tag in s.held
      ensures s.held[tag].envelope.id in s.sent
    {
      assert GoodHold(c.consumers[tag], s.held[tag], s.sent);
    }
    forall p, id | Owns(s', p, id) && id !in s'.doubtful
      ensures Owns(s, p, id) && !p.InAsleep?
    {
    }
    CrashKeepsSomeOwner(c, s);
    CrashLosesTheSleeping(s);
  }

  lemma CrashKeepsSomeOwner(c: Config, s: State)
    requires SomeOwner(s)
    ensures SomeOwner(DoCrash(s))
  {
    var s' := DoCrash(s);
    forall id | id in s'.sent && id !in s'.lost
      ensures exists p :: Owns(s', p, id)
    {
      var p :| Owns(s, p, id);
      assert Owns(s', p, id);
    }
  }

  lemma CrashLosesTheSleeping(s: State)
    requires AtMostOneOwner(s) && LostHasNoOwner(s)
    ensures LostHasNoOwner(DoCrash(s))
  {
    var s' := DoCrash(s);
    forall p, id | id in s'.lost && id !in s'.doubtful && Owns(s', p, id)
      ensures false
    {
      assert Owns(s, p, id) && !p.InAsleep?;
      if id !in s.lost {
        var j :| j in s.asleep && s.asleep[j].envelope.id == id;
        assert Owns(s, InAsleep(j), id);
      }
    }
  }

  // ---- a queue deleted while the consumer is away ----

  lemma ExpiryKeepsOwners(s: State, queue: QueueName)
    ensures var s' := DoExpireQueue(s, queue);
            forall p, id :: Owns(s', p, id) <==> Owns(s, p, id) && !(p.InReady? && s.ready[p.k].queue == queue)
    ensures var s' := DoExpireQueue(s, queue);
            forall id :: id in s'.lost <==>
                  id in s.lost || exists k :: k in s.ready && s.ready[k].queue == queue && s.ready[k].envelope.id == id
  {
  }

  lemma ExpiryConserves(c: Config, s: State, queue: QueueName)
    requires Placed(c, s) && Conserved(s)
    ensures Conserved(DoExpireQueue(s, queue))
  {
    var s' := DoExpireQueue(s, queue);
    ExpiryKeepsOwners(s, queue);
    forall id | id in s'.sent && id !in s'.lost
      ensures exists p :: Owns(s', p, id)
    {
      var p :| Owns(s, p, id);
      assert Owns(s', p, id);
    }
    forall p, id | id in s'.lost && id !in s'.doubtful
      ensures !Owns(s', p, id)
    {
      if Owns(s', p, id) && id !in s.lost {
        var k :| k in s.ready && s.ready[k].queue == queue && s.ready[k].envelope.id == id;
        assert Owns(s, InReady(k), id);
      }
    }
    forall k | k in s.ready
      ensures s.ready[k].envelope.id in s.sent
    {
      assert Faithful(s.sent, s.ready[k].envelope, s.ready[k].queue);
    }
  }

  lemma ChangeConserves(c: Config, s: State, a: MemoryStep)
    requires Placed(c, s) && Conserved(s) && CanChange(c, s, a)
    ensures Conserved(DoChange(c, s, a))
  {
    if a.Crash? {
      CrashConserves(c, s);
    } else if a.QueueExpires? {
      ExpiryConserves(c, s, a.queue);
    } else {
      SameOwnersConserve(s, DoChange(c, s, a));
    }
  }
}
