/**
  The messages of the dispatcher: what a sender publishes, what `requeue` makes
  of it, what the consumer answers, and the admission rule.
 */
module Messages {
  import opened Wrappers

  // uuid4 strings in the code; only equality and freshness matter.
  type Id = nat

  // A sender replica; it owns one exclusive callback queue.
  type SenderName = nat

  /** An inference server as configured; the frozen dataclass is compared by value. */
  datatype Server = Server(url: string, token: Option<string>, organization: string, maxParallel: int)

  datatype RoutingMode = Any | PrivateFirst | PrivateOnly | Unrecognised

  datatype Body = AvailableQuery | Routed(mode: RoutingMode, organization: string)

  datatype QueueName = Shared | PrivateOf(organization: string)

  const REQUEUE_HEADER := "x-requeue-count"

  datatype Envelope = Envelope(
    id: Id,
    replyTo: SenderName,
    priority: Option<int>,
    body: Body,
    headers: map<string, int>)

  /** The consumer's answer; `server` is absent when no server was found. */
  datatype Reply = Reply(
    id: Id,
    replyTo: SenderName,
    server: Option<Server>,
    requeueCount: int,
    currentParallel: Option<nat>)

  datatype Completion = Completion(url: string, id: Id)

  function RequeueCount(headers: map<string, int>): int {
    if REQUEUE_HEADER in headers then headers[REQUEUE_HEADER] else 0
  }

  // ---- what a sender publishes ----

  function NewEnvelope(id: Id, replyTo: SenderName, priority: int, mode: RoutingMode, organization: string): Envelope {
    Envelope(id, replyTo, Some(priority),
             if mode.Any? then AvailableQuery else Routed(mode, organization),
             map[REQUEUE_HEADER := 0])
  }

  /** A request as a caller asked for it, never requeued. */
  ghost predicate AsAsked(
    e: Envelope, id: Id, replyTo: SenderName, priority: int, mode: RoutingMode, organization: string
  ) {
    && e.id == id && e.replyTo == replyTo && e.priority == Some(priority)
    && e.headers == map["x-requeue-count" := 0]
    && (mode == Any ==> e.body == AvailableQuery)
    && (mode != Any ==> e.body == Routed(mode, organization))
  }

  function FirstQueue(mode: RoutingMode, organization: string): QueueName {
    if mode.Any? then Shared else PrivateOf(organization)
  }

  // ---- requeueing ----

  function Requeued(e: Envelope): Envelope {
    e.(headers := e.headers[REQUEUE_HEADER := RequeueCount(e.headers) + 1])
  }

  /** The queue a message is republished to: an explicit target, or where it came from. */
  function RequeueTarget(from: QueueName, target: Option<QueueName>): QueueName {
    target.GetOr(from)
  }

  /** Everything but the headers: what a requeue must not change. */
  predicate SameRequest(e: Envelope, f: Envelope) {
    e.id == f.id && e.replyTo == f.replyTo && e.priority == f.priority && e.body == f.body
  }

  /**
    The body of `requeue` up to its first suspension: copy the headers, bump the
    counter in the copy, build the new message.
   */
  method BuildRequeued(e: Envelope) returns (message: Envelope)
    ensures SameRequest(message, e)
    ensures RequeueCount(message.headers) == RequeueCount(e.headers) + 1
    ensures forall h :: h in e.headers && h != REQUEUE_HEADER ==>
              h in message.headers && message.headers[h] == e.headers[h]
    ensures message.headers.Keys == e.headers.Keys + {"x-requeue-count"}
    ensures "x-requeue-count" !in e.headers ==> message.headers["x-requeue-count"] == 1
    ensures "x-requeue-count" in e.headers ==>
              message.headers["x-requeue-count"] == e.headers["x-requeue-count"] + 1
    ensures message == Requeued(e)
  {
    var headers := e.headers;
    var count := if REQUEUE_HEADER in headers then headers[REQUEUE_HEADER] else 0;
    headers := headers[REQUEUE_HEADER := count + 1];
    message := Envelope(e.id, e.replyTo, e.priority, e.body, headers);
  }

  /**
    Where a request may be found, read off the request alone: shared requests in
    the shared queue, private-only ones in their organization's queue, and
    private-first ones there until the first deferral and in the shared queue ever after.
   */
  function HomeQueue(e: Envelope): QueueName {
    match e.body
    case AvailableQuery => Shared
    case Routed(mode, organization) =>
      if mode.PrivateFirst? && RequeueCount(e.headers) != 0 then Shared else PrivateOf(organization)
  }

  // ---- the admission rule ----

  predicate Bypasses(e: Envelope, best: int) {
    e.priority.Some? && e.priority.value >= best - 1
  }

  predicate Admits(e: Envelope, best: int, current: nat, limit: int) {
    Bypasses(e, best) || current < limit
  }
}
