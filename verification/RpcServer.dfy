/**
  The consumer's RPC server: the in-flight id sets, the decision a callback takes
  before its first suspension, and the effects of acknowledgements, completions
  and expiries. Each method is proved against a function on values; the step
  system of module Dispatch is built from the same functions.
 */
module RpcServer {
  import opened Wrappers
  import opened Messages
  import opened Scores
  import opened SetFacts

  type Tracked = map<Server, set<Id>>

  predicate DistinctUrls(servers: seq<Server>) {
    forall i, j :: 0 <= i < j < |servers| ==> servers[i].url != servers[j].url
  }

  /** The sets of `t` with `id` in, or out of, the set of `server` and no other difference. */
  ghost predicate DiffersAt(t: Tracked, t': Tracked, server: Server, id: Id, present: bool) {
    && t'.Keys == t.Keys
    && forall s, x :: s in t ==> (x in t'[s] <==> if s == server && x == id then present else x in t[s])
  }

  function Record(t: Tracked, server: Server, id: Id): Tracked
    requires server in t
  {
    t[server := t[server] + {id}]
  }

  function Discard(t: Tracked, server: Server, id: Id): Tracked
    requires server in t
  {
    t[server := t[server] - {id}]
  }

  /** The configured server with this url; the scan keeps the last match. */
  function FindByUrl(servers: seq<Server>, url: string): Option<Server> {
    if servers == [] then None
    else if servers[|servers| - 1].url == url then Some(servers[|servers| - 1])
    else FindByUrl(servers[..|servers| - 1], url)
  }

  /** A completion naming an unknown url changes nothing. */
  function Completed(t: Tracked, servers: seq<Server>, done: Completion): Tracked
    requires FindByUrl(servers, done.url).Some? ==> FindByUrl(servers, done.url).value in t
  {
    match FindByUrl(servers, done.url)
    case None => t
    case Some(server) => Discard(t, server, done.id)
  }

  lemma {:induction false} FindIsMember(servers: seq<Server>, url: string)
    ensures FindByUrl(servers, url).None? <==> forall s :: s in servers ==> s.url != url
    ensures FindByUrl(servers, url).Some? ==>
              FindByUrl(servers, url).value in servers && FindByUrl(servers, url).value.url == url
  {
    if servers != [] {
      var rest := servers[..|servers| - 1];
      FindIsMember(rest, url);
      assert servers == rest + [servers[|servers| - 1]];
    }
  }

  lemma FindKnown(servers: seq<Server>, server: Server)
    requires DistinctUrls(servers) && server in servers
    ensures FindByUrl(servers, server.url) == Some(server)
  {
    FindIsMember(servers, server.url);
    var i :| 0 <= i < |servers| && servers[i] == server;
    var j :| 0 <= j < |servers| && servers[j] == FindByUrl(servers, server.url).value;
  }

  /** Recording and discarding move one id of one server, and an expiry undoes a recording. */
  lemma ExpiryUndoesRecord(t: Tracked, server: Server, id: Id)
    requires server in t
    ensures DiffersAt(t, Record(t, server, id), server, id, true)
    ensures DiffersAt(t, Discard(t, server, id), server, id, false)
    ensures id !in t[server] ==> Discard(Record(t, server, id), server, id) == t
    ensures id in t[server] ==> Record(Discard(t, server, id), server, id) == t
  {
    assert id !in t[server] ==> (t[server] + {id}) - {id} == t[server];
    assert id in t[server] ==> (t[server] - {id}) + {id} == t[server];
  }

  /**
    A completion built from a reply that named `server` removes that id from that
    server and nothing else; repeating it changes nothing, and it commutes with any expiry.
   */
  lemma CompletionOfReply(t: Tracked, servers: seq<Server>, server: Server, id: Id, other: Server, expired: Id)
    requires DistinctUrls(servers) && server in servers && other in servers
    requires forall s :: s in servers ==> s in t
    ensures FindByUrl(servers, server.url) == Some(server)
    ensures var done := Completion(server.url, id);
            && Completed(t, servers, done).Keys == t.Keys
            && (forall s, x :: s in t ==>
                  (x in Completed(t, servers, done)[s] <==> x in t[s] && !(s == server && x == id)))
            && Completed(Completed(t, servers, done), servers, done) == Completed(t, servers, done)
            && Completed(Discard(t, other, expired), servers, done) ==
                  Discard(Completed(t, servers, done), other, expired)
  {
    FindKnown(servers, server);
    assert (t[server] - {id}) - {id} == t[server] - {id};
    assert (t[server] - {id}) - {expired} == (t[server] - {expired}) - {id};
    assert Discard(Discard(t, server, id), server, id) == Discard(t, server, id);
    assert Discard(Discard(t, other, expired), server, id) == Discard(Discard(t, server, id), other, expired);
  }

  // ---- the decision of a callback, up to its first suspension ----

  /**
    Admitted: the policy accepted; `seen` is the in-flight count it was shown.
    Unserved: no server is available, an empty reply will be sent.
    Deferring: a requeue task has been created and has not yet acknowledged.
    Replied: the reply is published, the acknowledgement is not.
    Stuck: an exception ended the callback; the message stays unacknowledged.
   */
  datatype Phase =
    | Admitted(server: Server, seen: nat)
    | Unserved
    | Deferring(target: QueueName)
    | Replied(to: Option<Server>)
    | Stuck

  function DecideFor(t: Tracked, best: int, e: Envelope, server: Server, requeueTo: QueueName): Phase
    requires server in t
  {
    if Admits(e, best, |t[server]|, server.maxParallel) then Admitted(server, |t[server]|) else Deferring(requeueTo)
  }

  /** What choosing a server ended with; `ChoiceRaised` is any exception but ServerNotFound. */
  datatype Choice = Chosen(server: Server) | NoServer | ChoiceRaised

  predicate Knows(t: Tracked, choice: Choice) {
    choice.Chosen? ==> choice.server in t
  }

  /** Shared queue: an exception leaves the message unacknowledged. */
  function DecideShared(t: Tracked, best: int, e: Envelope, choice: Choice): Phase
    requires Knows(t, choice)
  {
    match choice
    case Chosen(server) => DecideFor(t, best, e, server, Shared)
    case NoServer => Unserved
    case ChoiceRaised => Stuck
  }

  function Matching(servers: seq<Server>, organization: string): set<Server> {
    set s | s in servers && s.organization == organization
  }

  /** Private queue: `choice` is taken among the servers of the request's organization. */
  function DecidePrivate(t: Tracked, best: int, e: Envelope, from: QueueName, choice: Choice): Phase
    requires Knows(t, choice)
  {
    if e.body.AvailableQuery? || !choice.Chosen? then Stuck
    else match e.body.mode
      case PrivateFirst => DecideFor(t, best, e, choice.server, RequeueTarget(from, Some(Shared)))
      case PrivateOnly => DecideFor(t, best, e, choice.server, RequeueTarget(from, None))
      case _ => Stuck
  }

  function ReplyTo(e: Envelope, phase: Phase): Reply
    requires phase.Admitted? || phase.Unserved?
  {
    if phase.Unserved? then Reply(e.id, e.replyTo, None, RequeueCount(e.headers), None)
    else Reply(e.id, e.replyTo, Some(phase.server), RequeueCount(e.headers), Some(phase.seen))
  }

  predicate PrivateMode(body: Body) {
    body.Routed? && (body.mode.PrivateFirst? || body.mode.PrivateOnly?)
  }

  /** The server chosen is full for this request. */
  predicate Full(t: Tracked, best: int, e: Envelope, choice: Choice)
    requires Knows(t, choice)
  {
    choice.Chosen? && !Bypasses(e, best) && |t[choice.server]| >= choice.server.maxParallel
  }

  /**
    The decision in terms of its inputs: a request is admitted exactly when its
    priority bypasses the limit or the server has room, and a deferred request was
    shown a full server.
   */
  lemma DecisionMeaning(t: Tracked, best: int, e: Envelope, from: QueueName, choice: Choice)
    requires Knows(t, choice)
    ensures var p := DecideShared(t, best, e, choice);
            && (p.Unserved? <==> choice.NoServer?)
            && (p.Stuck? <==> choice.ChoiceRaised?)
            && (p.Deferring? <==> Full(t, best, e, choice))
            && (p.Admitted? ==> Chosen(p.server) == choice && p.seen == |t[p.server]|)
            && (p.Deferring? ==> p.target == Shared)
            && !p.Replied?
    ensures var p := DecidePrivate(t, best, e, from, choice);
            && (p.Stuck? <==> !choice.Chosen? || !PrivateMode(e.body))
            && (p.Deferring? <==> Full(t, best, e, choice) && PrivateMode(e.body))
            && (p.Admitted? ==> Chosen(p.server) == choice && p.seen == |t[p.server]|)
            && (p.Deferring? ==> p.target == if e.body.mode.PrivateFirst? then Shared else from)
            && !p.Unserved? && !p.Replied?
  {
  }

  /**
    The threshold in numbers: at a full server both callbacks admit exactly the
    priorities above best - 2, and defer the others and messages without priority.
    A server with room admits every one.
   */
  lemma PriorityBoundary(t: Tracked, best: int, e: Envelope, from: QueueName, v: Server)
    requires v in t
    ensures var p := DecideShared(t, best, e, Chosen(v));
            && (|t[v]| < v.maxParallel ==> p.Admitted?)
            && (|t[v]| >= v.maxParallel ==> (p.Admitted? <==> e.priority.Some? && e.priority.value > best - 2))
            && (|t[v]| >= v.maxParallel ==> (p.Deferring? <==> e.priority.None? || e.priority.value <= best - 2))
    ensures var p := DecidePrivate(t, best, e, from, Chosen(v));
            PrivateMode(e.body) ==>
              && (|t[v]| < v.maxParallel ==> p.Admitted?)
              && (|t[v]| >= v.maxParallel ==> (p.Admitted? <==> e.priority.Some? && e.priority.value > best - 2))
              && (|t[v]| >= v.maxParallel ==> (p.Deferring? <==> e.priority.None? || e.priority.value <= best - 2))
  {
  }

  /**
    The policy admits exactly what fits: a request that does not bypass the limit is
    admitted if and only if recording it leaves the server within its limit. What is
    admitted stays admitted with fewer requests in flight or a higher priority.
   */
  lemma AdmitsWhatFits(e: Envelope, best: int, ids: set<Id>, fewer: set<Id>, limit: int, better: Envelope)
    requires e.id !in ids && fewer <= ids
    requires e.priority.Some? ==> better.priority.Some? && better.priority.value >= e.priority.value
    ensures !Bypasses(e, best) ==> (Admits(e, best, |ids|, limit) <==> |ids + {e.id}| <= limit)
    ensures Admits(e, best, |ids|, limit) ==> Admits(better, best, |fewer|, limit)
  {
    SubsetSize(fewer, ids);
  }

  // ---- the server object ----

  class RPCServer {
    const servers: seq<Server>
    const best: int
    var currentParallelRequests: Tracked

    ghost predicate Valid()
      reads this
    {
      && DistinctUrls(servers)
      && currentParallelRequests.Keys == set s | s in servers
    }

    constructor (servers: seq<Server>, best: int)
      requires DistinctUrls(servers)
      ensures Valid() && this.servers == servers && this.best == best
      ensures forall s :: s in servers ==> currentParallelRequests[s] == {}
    {
      this.servers := servers;
      this.best := best;
      currentParallelRequests := map s | s in servers :: {};
    }

    /** `on_message_callback` up to its first suspension. */
    method OnMessage(e: Envelope, choice: Choice) returns (phase: Phase)
      requires Valid()
      requires choice.Chosen? ==> choice.server in servers
      ensures phase == DecideShared(currentParallelRequests, best, e, choice)
    {
      if choice == NoServer {
        return Unserved;
      }
      if choice == ChoiceRaised {
        return Stuck; // only ServerNotFound is caught
      }
      var accepted := ApplyPolicy(e, |currentParallelRequests[choice.server]|, choice.server.maxParallel);
      if !accepted {
        return Deferring(Shared);
      }
      return Admitted(choice.server, |currentParallelRequests[choice.server]|);
    }

    /** `server_specific_callback` up to its first suspension; `choice` among the matching servers. */
    method OnPrivateMessage(e: Envelope, from: QueueName, choice: Choice) returns (phase: Phase)
      requires Valid()
      requires choice.Chosen? ==> choice.server in servers
      ensures phase == DecidePrivate(currentParallelRequests, best, e, from, choice)
    {
      if e.body == AvailableQuery || !choice.Chosen? {
        return Stuck; // the body is not JSON, no server matches, or its score cannot be computed
      }
      var targetRequeue: Option<QueueName> := None;
      if e.body.mode == PrivateFirst {
        targetRequeue := Some(Shared);
      } else if e.body.mode != PrivateOnly {
        return Stuck; // unknown mode
      }
      var accepted := ApplyPolicy(e, |currentParallelRequests[choice.server]|, choice.server.maxParallel);
      if !accepted {
        return Deferring(RequeueTarget(from, targetRequeue));
      }
      return Admitted(choice.server, |currentParallelRequests[choice.server]|);
    }

    /** The parallel-requests policy; on refusal the caller's message is handed to `requeue`. */
    method ApplyPolicy(e: Envelope, current: nat, limit: int) returns (accepted: bool)
      ensures accepted <==> (e.priority.Some? && e.priority.value > best - 2) || current < limit
    {
      if e.priority.Some? && e.priority.value >= best - 1 {
        return true;
      }
      if current >= limit {
        return false;
      }
      return true;
    }

    /** After the acknowledgement of a served request. */
    method RecordRequest(server: Server, id: Id)
      requires Valid() && server in servers
      modifies this
      ensures Valid()
      ensures DiffersAt(old(currentParallelRequests), currentParallelRequests, server, id, true)
    {
      ExpiryUndoesRecord(currentParallelRequests, server, id);
      currentParallelRequests := currentParallelRequests[server := currentParallelRequests[server] + {id}];
    }

    /** `on_completion_callback`; for an unknown url the message is left unacknowledged. */
    method OnCompletion(done: Completion) returns (acked: bool)
      requires Valid()
      modifies this
      ensures Valid()
      ensures FindByUrl(servers, done.url).Some? ==> FindByUrl(servers, done.url).value in old(currentParallelRequests)
      ensures acked <==> exists s :: s in servers && s.url == done.url
      ensures currentParallelRequests == Completed(old(currentParallelRequests), servers, done)
    {
      var used: Option<Server> := None;
      for i := 0 to |servers|
        invariant used == FindByUrl(servers[..i], done.url)
      {
        assert servers[..i + 1][..i] == servers[..i];
        if servers[i].url == done.url {
          used := Some(servers[i]);
        }
      }
      assert servers[..|servers|] == servers;
      FindIsMember(servers, done.url);
      if used.Some? {
        currentParallelRequests :=
              currentParallelRequests[used.value := currentParallelRequests[used.value] - {done.id}];
        return true;
      }
      return false;
    }

    method ExpireRequest(server: Server, id: Id)
      requires Valid() && server in servers
      modifies this
      ensures Valid()
      ensures DiffersAt(old(currentParallelRequests), currentParallelRequests, server, id, false)
    {
      ExpiryUndoesRecord(currentParallelRequests, server, id);
      currentParallelRequests := currentParallelRequests[server := currentParallelRequests[server] - {id}];
    }

    /**
      `choose_among_duplicates`: the first server that has no history yet, else any
      server when some score is missing, else any server of least score.
     */
    method ChooseAmongDuplicates(duplicates: seq<Server>, scores: map<string, Option<Score>>)
      returns (r: Option<(Server, Option<Score>)>)
      requires forall s :: s in duplicates ==> s.url in scores
      ensures r.None? <==> duplicates == []
      ensures r.Some? ==> r.value.0 in duplicates
      ensures r.Some? && r.value.1.Some? ==> scores[r.value.0.url] == r.value.1
      ensures r.Some? && r.value.1.Some? && r.value.1 != Some(NO_DATA) ==>
              forall s :: s in duplicates ==> scores[s.url].Some? && AtMost(r.value.1.value, scores[s.url].value)
      // the first server without history, if there is one
      ensures r.Some? && r.value.1 == Some(NO_DATA) ==>
                exists i :: 0 <= i < |duplicates| && duplicates[i] == r.value.0
                            && forall j :: 0 <= j < i ==> scores[duplicates[j].url] != Some(NO_DATA)
      ensures r.Some? ==>
                (r.value.1 == Some(NO_DATA) <==> exists s :: s in duplicates && scores[s.url] == Some(NO_DATA))
      ensures r.Some? && r.value.1.None? ==> exists s :: s in duplicates && scores[s.url].None?
    {
      var hasNone := false;
      for i := 0 to |duplicates|
        invariant forall j :: 0 <= j < i ==> scores[duplicates[j].url] != Some(NO_DATA)
        invariant hasNone <==> exists j :: 0 <= j < i && scores[duplicates[j].url].None?
      {
        if scores[duplicates[i].url] == Some(NO_DATA) {
          return Some((duplicates[i], Some(NO_DATA)));
        }
        hasNone := hasNone || scores[duplicates[i].url].None?;
      }
      if duplicates == [] {
        return None; // min() of no scores raises
      }
      if hasNone {
        var pick :| 0 <= pick < |duplicates|;
        return Some((duplicates[pick], None));
      }
      var least := 0;
      for i := 1 to |duplicates|
        invariant 0 <= least < |duplicates|
        invariant forall j :: 0 <= j < i ==>
                  AtMost(scores[duplicates[least].url].value, scores[duplicates[j].url].value)
      {
        if !AtMost(scores[duplicates[least].url].value, scores[duplicates[i].url].value) {
          least := i;
        }
      }
      var pick :| 0 <= pick < |duplicates| && scores[duplicates[pick].url] == scores[duplicates[least].url];
      return Some((duplicates[pick], scores[duplicates[least].url]));
    }
  }
}
