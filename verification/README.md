# Verified model of the LLM request dispatcher

The dispatcher spreads requests over a pool of vLLM servers. A *sender* publishes a
request on RabbitMQ, a *consumer* picks it up, decides which server may take it, answers
with that server's address, and keeps a set of the requests each server has in flight.
A server that is full makes the consumer publish the request again, a little later. A
latency index, refreshed from the servers' own metrics, tells the consumer which server
is the least busy.

This project models those three parts in Dafny and proves what they keep over every run.

| files | what they hold |
|---|---|
| `Messages`, `RpcClient`, `RpcServer` | messages, the sender's client and the consumer's server: classes whose methods are proved against functions on values |
| `Dispatch` | the same functions put together as one step system: senders, broker, consumer memory, clock |
| `Calls`, `Placement`, `Conservation`, `History`, `Runs` | the inductive invariant, part by part, and its truth in every reachable state |
| `Theorems`, `Journeys`, `Deliveries`, `Leaks` | the main results about runs: conservation and confinement, one call from its request to its completion, replies and timers, leaked futures |
| `Capacity`, `Tightness`, `Deferral`, `DeferralBound` | how far a limit is overshot and how often a request is put off, each with a run that reaches the bound |
| `Histograms`, `Ring`, `MetricsTracker`, `Strategies` | the sliding-window latency index, from raw latencies to the chosen server |
| `RoundRobin`, `QueueNames` | round-robin fairness; queue names and the model list recovered from them |
| `Wrappers`, `Scores`, `SetFacts` | small shared types and facts |

`dafny verify dfyconfig.toml` checks everything.

## How the code is read

- A callback is cut at its suspension points. Delivery and the admission check are one
  step, since no `await` separates them. The acknowledgement of a served request, the
  addition to the in-flight set and the creation of its timer are one step; so are the
  acknowledgement in `requeue` and the beginning of its sleep.
- Each registration at the broker holds at most one unacknowledged message: the channel
  is set up with `prefetch_count=1`, which RabbitMQ applies to each consumer separately.
  The queues are unordered, which covers priorities, redeliveries and any other order.
- Correlation ids are uuid4 in the code; here a call takes any id no call has used.
- Timers that are due run before the clock moves on. Nothing else is assumed of the
  order of steps; results that need more say so in their hypotheses.
- The broker may take back any unacknowledged message, drop a message from the shared
  queue (its TTL), and the consumer may crash at any moment. While it is away the broker
  may delete any queue (`x-expires`), once it has taken back that queue's unacknowledged
  messages. A publish may fail, before or after the broker took the message.
- An acknowledgement the consumer has sent is received. AMQP does not confirm
  acknowledgements; a lost one would leave a sleeping copy beside a redelivered one.
- A restarted consumer's registration gets its next message after the broker has taken
  back the one its predecessor held.
- Choosing a server may raise at any delivery; what then happens is part of the model.
- `asyncio.wait_for` may report a timeout although the future is resolved (Python
  versions differ), so a resolved call may return either.
- The queue length a call compares with its threshold is that of the moment it registers.
- Random choices are free choices. Latencies, bounds and counts are real numbers, 0.95 is
  exactly 19/20, and the topmost bound is infinite.
- The configured servers have distinct urls, and `METRICS_REFRESH_RATE` is at least 1
  (its field constraint).
- The tracker keeps one record a url where the code keeps three dictionaries over the
  same urls.

## What the proofs found

- `choose_server` of the least-busy strategy can raise although servers are healthy: the
  comment in `get_percentile` says that is never reached, but a server that restarts
  between two scrapes shows fewer requests than its slot. It raises exactly when some
  server's count fell, at every bucket bound, by more than 95% of the shortfall
  (`Ring.PercentileRaisesIff`, `Strategies.LeastBusy.ChoiceRaisesIff`). For a server that
  exposes nothing yet after its restart, that is when more than 95% of its old latencies
  were within the least bound, and it lasts until the server has served a request
  (`Ring.NothingServedLosesIff`, `Ring.RaisesUntilServed`).
- Otherwise a server that has restarted and served nothing gets the least bound of all as
  its score, however slow it was, and is preferred to every server that was observed and
  scores more (`Strategies.LeastBusy.RestartedIsPreferred`).
- A callback that raises before its decision, as when a percentile fails or a private
  message cannot be read, leaves its message unacknowledged. With prefetch 1 its
  registration then gets no other message until the broker takes that one back
  (`Theorems.StuckStopsConsumption`).
- The limit of a server can be exceeded: the check and the recording are separate steps.
  The bound is the limit plus one less than the number of registrations that may route to
  the server, and every configuration has a run that reaches it, so the limit holds in
  every run only with one such registration. Start-up makes at least two
  (`Capacity.PrefetchBound`, `Tightness.LimitHoldsIff`, `Tightness.StartUpOvershoots`).
- The table of futures is exactly the waiting calls only if every call whose publish
  raised has had a reply. A publish that raises before the broker has the message leaks
  its future for ever (`Leaks.TableIsTheWaitingCallsIff`, `Leaks.LeaksForEver`).
- A late or duplicate reply raises `KeyError` in `on_response`, which changes nothing. One
  that arrives between a call's timeout and its clean-up raises `InvalidStateError`.
- The quality-of-service README says that the TTL counts from the first time a message is
  queued; `requeue` publishes a new message, and the code does not carry the time over.
- The doc of `requeue` says that a message republished to an explicit queue goes there
  directly; the code sleeps in both cases.
- `RoundRobin.update_servers` restarts the index even when the list is the same, so
  fairness is lost by as much as one request per round of the pinger
  (`RoundRobinStrategy.Skew`, `RoundRobinStrategy.SkewIsReached`).
- Model names with underscores can make private queues of different models share a name
  (`QueueNames.PrivateNamesClashIff`).

## Model

| member | source | states |
|---|---|---|
| Messages.BuildRequeued | src/consumer/quality_of_service_policy/utils.py:20-31 | a requeued message is the same request (id, reply address, priority, body) with every other header kept and the counter one higher, a missing counter being 0 |
| RpcClient.RPCClient.constructor | src/sender/rpc_client.py:26-32 | a new client has an empty table and no calls |
| RpcClient.RPCClient.Call | src/sender/rpc_client.py:83-133 | overloaded exactly when the queue is longer than the threshold, and then nothing is registered; else the future is registered and the request bound for the shared queue or the organization's private one carries the priority asked for, the reply address, count 0, and the mode and organization asked for (none for `any`) |
| RpcClient.RPCClient.OnResponse | src/sender/rpc_client.py:73-81 | the reply's own future is popped and settled once; for an id that is not in the table the KeyError leaves everything as it was; the future of a call that has timed out and not yet resumed is popped too, and setting its result raises InvalidStateError |
| RpcClient.RPCClient.Return | src/sender/rpc_client.py:134-143 | a call ends with a timeout exactly when the wait timed out, and otherwise with the very reply its future was resolved with, which has its id; its future is no longer in the table |
| RpcClient.RespondKeepsOk | src/sender/rpc_client.py:73-81 | a reply touches no other call, and a duplicate of it changes nothing more |
| RpcClient.ReplyIsHandedOver | src/sender/rpc_client.py:73-81 | a reply resolves the call that waits for it, and one that overtook the publish confirmation is what the call is resolved with then |
| RpcClient.PublishKeepsOk | src/sender/rpc_client.py:100-133 | whether the publish is confirmed or raises, the table still holds exactly the registered calls |
| RpcClient.ReturnKeepsOk | src/sender/rpc_client.py:134-143 | returning, with a reply or by timeout, keeps the table exact |
| Leaks.FailedPublishLeaksIff | src/sender/rpc_client.py:73-133 | in every run, a publish that raises leaves its future in the table exactly when no reply to the call was consumed before the failure |
| Leaks.TableIsTheWaitingCallsIff | src/sender/rpc_client.py:73-143 | at every point of every run, a sender's table is exactly its waiting calls if and only if every call whose publish raised has had a reply, before the failure or since |
| Leaks.LeaksForEver | src/sender/rpc_client.py:100-133 | after a publish that raised before the broker had the message, the future stays in the table in every later state, and the request is never seen by anyone |
| Leaks.LeakIsReached | src/sender/rpc_client.py:100-133 | in every configuration, every sender can be brought to that |
| RpcServer.FindIsMember | src/consumer/rpc_server.py:197-201 | the scan over the configured servers finds one with that url if there is one, and fails exactly when there is none |
| RpcServer.FindKnown | src/consumer/rpc_server.py:197-201 | with distinct urls the scan finds the very server whose url was reported |
| RpcServer.CompletionOfReply | src/consumer/rpc_server.py:203-206 | a completion built from a reply removes that id from that server and nothing else, is idempotent, and commutes with every expiry |
| RpcServer.ExpiryUndoesRecord | src/consumer/rpc_server.py:176-182 | recording and expiring move one id of one server and nothing else, and an expiry takes the sets back to what they were before the recording |
| RpcServer.AdmitsWhatFits | src/consumer/quality_of_service_policy/parallel_requests_threshold_requeue_policy.py:21-34 | a request that does not bypass the limit is admitted exactly when recording it leaves the server within its limit; what is admitted stays so with fewer requests in flight or a higher priority |
| RpcServer.PriorityBoundary | src/consumer/quality_of_service_policy/parallel_requests_threshold_requeue_policy.py:21-34 | in numbers: at a full server both callbacks admit exactly the priorities above the best less two, and defer the others and messages without priority; a server with room admits all |
| RpcServer.RPCServer.ApplyPolicy | src/consumer/quality_of_service_policy/parallel_requests_threshold_requeue_policy.py:21-34 | accepted exactly when the priority is above the best less two or the count is below the limit |
| Deliveries.UrgentIsNeverRequeued | src/consumer/quality_of_service_policy/parallel_requests_threshold_requeue_policy.py:21-25 | in every reachable state, a request published with a priority above the best less two has never been requeued |
| RpcServer.DecisionMeaning | src/consumer/rpc_server.py:132-163 | both callbacks: deferred exactly when the server chosen is full for the request, private-first to the shared queue, private-only to where it came from; unserved only when there is no server; left unacknowledged exactly when choosing raised, or on a private queue when no server matches or the body or its mode is unknown; admitted otherwise |
| RpcServer.RPCServer.constructor | src/consumer/rpc_server.py:47-49 | every configured server starts with an empty in-flight set |
| RpcServer.RPCServer.OnMessage | src/consumer/rpc_server.py:129-163 | the shared callback up to its first suspension takes the specified decision; any exception but ServerNotFound leaves the message unacknowledged |
| RpcServer.RPCServer.OnPrivateMessage | src/consumer/rpc_server.py:233-276 | the private callback takes the specified decision, errors (unreadable body, unknown mode, no server of the organization) leaving the message unacknowledged |
| RpcServer.RPCServer.RecordRequest | src/consumer/rpc_server.py:176-179 | afterwards the id is in that server's set, and every other membership, of it or any other server, is as before |
| RpcServer.RPCServer.OnCompletion | src/consumer/rpc_server.py:188-214 | the id leaves the set of the server named; for an unknown url nothing changes and the message is not acknowledged |
| RpcServer.RPCServer.ExpireRequest | src/consumer/rpc_server.py:305-313 | afterwards the id is not in that server's set, whether or not it was, and every other membership is as before |
| RpcServer.RPCServer.ChooseAmongDuplicates | src/consumer/rpc_server.py:216-231 | fails exactly on an empty list; a server without history is taken if there is one, else any server when a score is missing, else one whose score is the least of all |
| Conservation.OwnerCameFrom | src/consumer/rpc_server.py:164-182 | every step of a message moves an owner from one definite place to another; the one step that makes an owner out of none is the redelivery of an answered, unacknowledged message |
| Conservation.OwnerGoesTo | src/consumer/quality_of_service_policy/utils.py:33-43 | conversely, unless the step drops the message, its owner is at a definite place afterwards |
| Runs.StepKeepsInv | src/consumer/rpc_server.py:129-313 | every step of every participant keeps the whole invariant |
| Runs.RunKeepsInv | src/consumer/rpc_server.py:129-313 | the invariant holds at every point of every run |
| Theorems.ExactlyOneOwner | src/consumer/rpc_server.py:164-182 | a published request has exactly one owner (in a queue, held, waiting to be requeued, or answered) unless it was dropped or came back after its reply; a dropped one is never answered; only one that came back can be answered twice |
| Theorems.WhatLosesRequests | src/consumer/quality_of_service_policy/utils.py:33-43 | a step after which nobody owes a request its answer or has given it, although somebody did before, is a requeue task dying asleep with it, the shared queue's TTL (never for a private-only one), or its queue deleted while the consumer is away; a step that makes a second owner is a redelivery, or a crash, between its reply and acknowledgement |
| Theorems.CalmRunsConserve | src/consumer/rpc_server.py:129-182 | in runs without crash, deleted queue, failed republish, TTL or redelivery, every published request always has its one owner |
| Theorems.EnvelopeNeverChanges | src/consumer/quality_of_service_policy/utils.py:20-31 | a request has at most one message, even when it came back after its reply; wherever that is, its id, reply address, priority and body are those first published, and its count is the number of requeues in the history |
| Theorems.ReplyReportsRequeues | src/consumer/rpc_server.py:144-156 | the count in any reply is the number of requeues its request had undergone when that reply was published |
| Theorems.RepliesMatchRequests | src/consumer/rpc_server.py:165-174 | a reply goes to the address its request was published with, and unless the request has come back since, its count is still the number of requeues |
| Journeys.PublishedAsAsked | src/sender/rpc_client.py:103-132 | in every run, what is published for a call has the priority, sender, mode and organization the call asked for, whenever it is published |
| Journeys.OverloadedIff | src/sender/rpc_client.py:91-101 | a call is turned away exactly when more messages than its threshold wait in the shared queue; else it is registered |
| Journeys.MessageAsAsked | src/sender/rpc_client.py:103-132 | in every run, wherever a call's message is and however often it was requeued, it carries what the call asked for; it is in the shared queue for `any`, in the organization's for private-only, and for private-first there before its first requeue and in the shared one ever after |
| Journeys.PrivateOnlyConfined | src/consumer/rpc_server.py:240-262 | however often it is deferred, a call in mode private-only has its message only ever in its organization's queue, and every reply to it names a server of that organization |
| Journeys.PrivateFirstUntilRequeued | src/consumer/rpc_server.py:247-262 | in every run, the message of a call in mode private-first is in its organization's queue exactly while it has not been requeued, and in the shared one exactly once it has |
| Theorems.StuckStopsConsumption | src/consumer/rpc_server.py:129-162 | in every run, from a callback that raised until the broker takes its message back, its registration gets no other message |
| Journeys.PrivateFirstNeverReturns | src/consumer/rpc_server.py:247-262 | between any two points of a run, a call in mode private-first that has been requeued is not back in a private queue |
| Theorems.RunExtends | src/sender/rpc_client.py:104-132 | along a run published requests never change, and the log and the answers only grow |
| Theorems.TrackedIsHistory | src/consumer/rpc_server.py:176-206 | an id is in a server's set exactly when the history has an admission of it to that server with no later completion, expiry or restart |
| Theorems.NoPermanentLeak | src/consumer/rpc_server.py:305-313 | every tracked id has a pending timer on the same server; the set is no larger than the admissions of the last timeout, and empty after a timeout without any |
| Theorems.CompletionsNameTheServer | src/sender/main.py:343-353 | every completion has the id of an answered request and the url of the server it was answered with |
| Journeys.CompletionOfCall | src/sender/main.py:343-353 | a completion has the id of the call that sends it, and the url of the server that call was answered with |
| Journeys.CompletionClears | src/consumer/rpc_server.py:188-214 | in every reachable state, a completion that arrives takes its id out of the set of the server the request was answered with, changes no other membership, and leaves the queue exactly when acknowledged |
| Theorems.CallsMatchResponses | src/sender/rpc_client.py:73-143 | in every reachable state, for every sender, the table is exactly the registered calls and a reply held by a call has its id and was published for that sender |
| Theorems.StepKeepsOutcomes | src/sender/rpc_client.py:73-143 | no step changes what a finished call returned, and a step changes at most the call it is about |
| Theorems.FinishedCallsStay | src/sender/rpc_client.py:134-143 | between any two points of a run a finished call keeps its outcome, so a call finishes at most once |
| Journeys.RepliesWait | src/consumer/rpc_server.py:165-174 | in every run, a published reply waits for the sender its request named until that sender consumes it |
| Journeys.ReplyIsReturned | src/sender/rpc_client.py:73-143 | in every run, a call that consumed a reply while it waited, or was still publishing, and then returns, returns that reply, and a timeout exactly when the wait timed out |
| Journeys.TimeoutIsReturned | src/sender/rpc_client.py:134-143 | in every run, a call whose wait timed out returns a timeout, whatever reply comes before it does |
| Journeys.AnsweredIsReached | src/sender/rpc_client.py:83-139 | in every configuration, every sender can have a call answered by every server that can be routed to |
| Deliveries.ReplyTellsItsDelivery | src/consumer/rpc_server.py:132-163 | in every run, every reply tells of an earlier delivery of its request: it names the server chosen then, healthy at that moment or of the queue's organization, and the number of requests that server had in flight then; it names none only if none was healthy |
| Deliveries.HealthTakesEffect | src/consumer/server_pinger.py:46-57 | in every run, the servers a health update names are the ones deliveries choose from, until the next update |
| Deliveries.RecordingTracks | src/consumer/rpc_server.py:175-182 | the acknowledgement of a served request puts its id in the set of the server its reply named, and no other, with a timer due a timeout later |
| Deliveries.ExpiryTakesTimeout | src/consumer/rpc_server.py:305-313 | in every run, a timer fires exactly a timeout after the admission it stems from, and takes that id from that server's set and nothing else |
| Deliveries.CrashForgets | src/consumer/rpc_server.py:47-49 | a crash empties the in-flight sets, timers and requeue tasks, and leaves what was not acknowledged to the broker |
| Deliveries.NothingConsumedWhileAway | src/consumer/rpc_server.py:51-96 | in every run, between a crash and the recovery from it no request is delivered and no completion arrives, and only then is a queue deleted |
| Deliveries.DeletedQueueIsEmpty | src/consumer/rpc_server.py:58-87 | a deleted queue leaves no message in it and touches no other |
| Deliveries.DeletedCompletions | src/consumer/rpc_server.py:70-76 | with the completion queue its completions are gone, and their ids stay in flight |
| Deliveries.FailedReplySticks | src/consumer/rpc_server.py:184-186 | a reply that cannot be published leaves its message unacknowledged and its registration stuck |
| Deliveries.RaisedChoiceSticks | src/consumer/rpc_server.py:132-157 | so does a choice that raises anything but ServerNotFound |
| History.ReplayMeaning | src/consumer/rpc_server.py:176-206 | replaying the log gives exactly the admissions nothing later has cleared |
| History.TrackedAtMostRecentAdmissions | src/consumer/rpc_server.py:180-182 | a server tracks no more ids than it was admitted in the last timeout |
| Capacity.StepKeepsWithin | src/consumer/rpc_server.py:135-182 | every step keeps the overshoot bound, as long as no more than the window is pending |
| Capacity.OvershootBound | src/consumer/rpc_server.py:135-182 | with at most K requests between check and record, tracked plus pending non-bypassing requests stay within the limit plus K less one, at every point of every run |
| Capacity.AtomicBound | src/consumer/quality_of_service_policy/parallel_requests_threshold_requeue_policy.py:21-34 | with one such request at a time the limit itself holds, and the total exceeds it by bypassing requests only |
| Capacity.PrefetchBound | src/consumer/rpc_server.py:57-90 | with no assumption on the schedule, the same with K the number of registrations that may route to the server |
| Tightness.BoundIsReached | src/consumer/rpc_server.py:135-182 | in every configuration with a sender, whichever queues the registrations that route to a server are on, some run reaches exactly that bound |
| Tightness.LimitHoldsIff | src/consumer/rpc_server.py:135-182 | the limit of a server holds in every run if and only if at most one registration routes to it, or its limit admits nothing |
| Tightness.StartUpOvershoots | src/consumer/rpc_server.py:67-90 | with the registrations made at start-up no positive limit holds: it is exceeded by as many requests as the organization has servers, and no more |
| Deferral.DeferredWithinTimeout | src/consumer/rpc_server.py:135-143 | a deferral, with no admission recorded later than a given time, falls within the treatment timeout of that time |
| Deferral.RunKeepsShort | src/consumer/quality_of_service_policy/utils.py:35-43 | from any point of any run on, the pacing of a request's requeues by their delays, and its bound, hold at every later point |
| Deferral.BoundedDeferral | src/consumer/quality_of_service_policy/utils.py:35-43 | with limits of at least 1, from any point of any run on and as long as no admission is recorded later than it, a request is requeued at most as often as the timeout divided by the delay, rounded up and at least once (the timeout counting one second more if due timers may lag) |
| DeferralBound.DeferralIsReached | src/consumer/quality_of_service_policy/utils.py:35-43 | in every configuration with a sender and a server that can be routed to, some run requeues a request exactly that often, both when due timers run first and when they may lag |
| Deferral.LastDeliveryAdmits | src/consumer/rpc_server.py:135-143 | the delivery of a request requeued that often does not defer it; unless choosing raises, it admits it, from the shared queue if a server is healthy, from a private one if the organization has a server and the mode is known |
| Histograms.GetPercentile | src/consumer/strategy/least_busy.py:34-64 | nothing exactly for an empty histogram; else the least bound whose count reaches the share of the total, with its rank, whatever the order of the dictionary; an error exactly when no count reaches it |
| Histograms.LeastReachingInNumbers | src/consumer/strategy/least_busy.py:59-61 | in numbers: the bucket reaches the count needed and no smaller bound does |
| Histograms.PercentileMonotone | src/consumer/strategy/least_busy.py:53-64 | a larger share never gives a smaller bucket, once the total is not negative |
| Histograms.PercentileFailsIff | src/consumer/strategy/least_busy.py:56-64 | the exception implies a negative total and a share below 1, and is equivalent to that when no count exceeds the total |
| Histograms.ScoreIsUnique | src/consumer/strategy/least_busy.py:66-80 | the score is determined by the histogram |
| Metrics.UpdateHistogram | src/consumer/strategy/metrics_tracker.py:40-51 | for every key of the new histogram or the slot, old count plus difference is new count, missing counts being 0; keys of neither keep their difference; the slot takes the new values and keeps the keys the new histogram lacks |
| Metrics.UpdateTrack | src/consumer/strategy/metrics_tracker.py:56-87 | an empty answer moves the index only; any other also writes slot and difference at the index read before the fetch |
| Metrics.TrackMeaning | src/consumer/strategy/metrics_tracker.py:40-91 | after any scrapes the index is their number modulo the width, and every slot is the override-fold of the snapshots written at its index |
| Metrics.MetricsTracker.constructor | src/consumer/strategy/metrics_tracker.py:15-32 | every url starts with index 0, empty slots and an empty difference |
| Metrics.MetricsTracker.UpdateUrls | src/consumer/strategy/metrics_tracker.py:53-54 | the monitored urls are replaced, everything measured is kept |
| Metrics.MetricsTracker.Monitor | src/consumer/strategy/metrics_tracker.py:98-107 | one task a url, unless already monitoring; the ring invariant holds on |
| Metrics.MetricsTracker.StopMonitor | src/consumer/strategy/metrics_tracker.py:109-118 | no task is left; slots, indexes and differences are untouched |
| Metrics.MetricsTracker.BeginFetch | src/consumer/strategy/metrics_tracker.py:75-79 | the index is read before the suspension and stays the right one |
| Metrics.MetricsTracker.FetchFails | src/consumer/strategy/metrics_tracker.py:92-96 | after a connection error the task loops with nothing written and the index unmoved |
| Metrics.MetricsTracker.TaskDies | src/consumer/strategy/metrics_tracker.py:73-96 | any other error ends that task only; what was measured is kept |
| Metrics.MetricsTracker.FinishFetch | src/consumer/strategy/metrics_tracker.py:60-88 | the ring and the difference are again exactly what the scrapes so far, this one included, make of them, for this url and every other, whatever was stopped or restarted |
| Metrics.MetricsTracker.GetServerScore | src/consumer/strategy/least_busy.py:77-80 | the score read is the one of the difference of the scrapes so far, and never below the sentinel |
| Ring.SlotHoldsLatestPerKey | src/consumer/strategy/metrics_tracker.py:50-51 | with skips and changing keys, a slot gives each key the value last written there |
| Ring.LatestOfKeyIsLatest | src/consumer/strategy/metrics_tracker.py:50-51 | that scrape is the latest of all that wrote the key there |
| Ring.SlotIsLatest | src/consumer/strategy/metrics_tracker.py:40-51 | if keys only grow, a slot is exactly the latest snapshot written there |
| Ring.DiffIsDifference | src/consumer/strategy/metrics_tracker.py:44-51 | if keys only grow, the difference is exactly the newest snapshot minus the one it replaces |
| Ring.DiffUpToWritten | src/consumer/strategy/metrics_tracker.py:60-62 | skipped scrapes leave the difference as the newest written one made it |
| Ring.CountInNumbers | src/consumer/strategy/histogram.py:7-10 | in numbers: a cumulative count is how many latencies are no larger than the bound, and all of them at the top |
| Ring.DifferenceIsWindow | src/consumer/strategy/histogram.py:12-19 | the difference of two snapshots of one stream is the snapshot of the latencies in between, hence cumulative |
| Ring.DiffIsWindow | src/consumer/strategy/metrics_tracker.py:40-88 | the difference histogram is the histogram of the latencies observed in the window |
| Ring.WindowIsLastScrapes | src/consumer/strategy/metrics_tracker.py:85-87 | with no skip the window is that of the last W scrapes, or everything while there are fewer |
| Ring.WindowRefinement | src/consumer/strategy/least_busy.py:53-80 | the score is the least bucket bound that at least 95% of the window's latencies do not exceed, the sentinel exactly when nothing was observed, and never an error |
| Ring.ScoreIsByObservation | src/consumer/strategy/least_busy.py:53-80 | for any scrapes, skips and restarts, the score is exactly the least bucket bound within which lie at least 95% of the growth in latencies, which a restart makes negative; the sentinel when nothing was ever seen; none when there is no such bound |
| Ring.PercentileRaisesIff | src/consumer/strategy/least_busy.py:56-64 | for any scrapes, skips and restarts, the percentile raises exactly when, in the newest comparison, the count fell at every bucket bound by more than 95% of the shortfall |
| Ring.DiffIsCompared | src/consumer/strategy/metrics_tracker.py:40-88 | for any scrapes, skips and restarts, the difference compares the latencies of the newest scrape with those its slot had, which an empty snapshot never clears |
| Ring.NothingServedLosesIff | src/consumer/strategy/least_busy.py:56-64 | for a restarted server that has served nothing, the percentile raises exactly when more than 95% of the old latencies were within the least bound, and otherwise its score is that bound |
| Ring.RaisesUntilServed | src/consumer/strategy/metrics_tracker.py:44-51 | and so it stays, however many scrapes later, until the server has served a request |
| Ring.NothingLost | src/consumer/strategy/least_busy.py:56-64 | it never raises while at least as many latencies are seen as the slot had |
| Ring.RestartedServerFails | src/consumer/strategy/least_busy.py:62-64 | for every window width and all bounds, concrete scrapes of a server that restarted for which the percentile raises |
| Strategies.HealthyMeaning | src/consumer/server_pinger.py:46-50 | a server is on the list exactly when a ping of it succeeded |
| Strategies.HealthyKeepsServers | src/consumer/server_pinger.py:46-50 | the list holds configured servers only, each once |
| Strategies.HealthyInOrder | src/consumer/server_pinger.py:46-50 | the list keeps the order of the configuration |
| Strategies.NoneHealthy | src/consumer/server_pinger.py:46-56 | it is empty exactly when every ping failed |
| Strategies.LeastBusy.constructor | src/consumer/strategy/least_busy.py:21-32 | strategy and tracker start with the same urls |
| Strategies.LeastBusy.Create | src/consumer/strategy/least_busy.py:21-32 | the strategy starts with a tracker that monitors exactly its servers and has measured nothing |
| Strategies.LeastBusy.BeginUpdate | src/consumer/strategy/metrics_based_strategy.py:37-39 | monitoring stops exactly when the list is a new one; at the suspension callbacks still see a consistent view |
| Strategies.LeastBusy.FinishUpdate | src/consumer/strategy/metrics_based_strategy.py:40-42 | servers and tracked urls change together, every url keeps its histograms, and exactly the new servers are monitored |
| Strategies.LeastBusy.PingRound | src/consumer/server_pinger.py:36-57 | a round of the pinger leaves the strategy with exactly the healthy servers, in a consistent view; if they changed exactly they are monitored, else the tasks go on as they were; no measurement is lost |
| Strategies.LeastBusy.ScoreServers | src/consumer/strategy/least_busy.py:96-103 | every server gets the score of its own scrapes, or some percentile raises |
| Strategies.LeastBusyUrl | src/consumer/strategy/least_busy.py:92-106 | the last url without history, with no score reported, else any url of least score |
| Strategies.LeastIndex | src/consumer/strategy/least_busy.py:82-89 | the choice has the minimum of the scores |
| Strategies.LeastBusy.ChooseServer | src/consumer/strategy/least_busy.py:91-112 | no server exactly when none is healthy; an error exactly when a percentile raises; else a healthy server whose score is the least of all |
| Strategies.Stream.Refines | src/consumer/strategy/least_busy.py:53-80 | for one server and any skips, the score is the percentile of the window of its raw latencies, the sentinel exactly when none was seen |
| Strategies.LeastBusy.ChoiceByObservation | src/consumer/strategy/least_busy.py:91-112 | from what the scrapes observed to the choice, whatever was skipped or restarted: no server exactly when none is healthy, an error exactly when some server has no score, else a server whose observed score is the least of all |
| Strategies.LeastBusy.ChoiceInNumbers | src/consumer/strategy/least_busy.py:75-106 | in numbers: no observed score is below the one reported, and none is reported only for a server that scores -1 |
| Strategies.LeastBusy.ChosenIsFastestObserved | src/consumer/strategy/least_busy.py:91-112 | as a corollary, when no server has restarted: no percentile raises, the chosen server's windowed percentile is the least of all, an unobserved server is preferred, and only then is no score reported |
| Strategies.LeastBusy.ChoiceRaisesIff | src/consumer/strategy/least_busy.py:91-112 | as a corollary, the choice raises exactly when the counts of some healthy server fell, at every bound, by more than 95% of the shortfall |
| Strategies.LeastBusy.RestartedIsPreferred | src/consumer/strategy/least_busy.py:91-112 | a server that restarted and has served nothing either makes the choice raise or scores the least bound of all, so only an unobserved server or one with that same score is chosen |
| RoundRobinStrategy.EpochShare | src/consumer/strategy/round_robin.py:18-23 | of k choices over n servers, server i gets k/n rounded down, plus one exactly when i < k mod n |
| RoundRobinStrategy.Skew | src/consumer/strategy/round_robin.py:14-23 | over many epochs two servers differ by exactly the number of epochs that stopped between their turns, so by at least 0 and at most the number of epochs |
| RoundRobinStrategy.SkewIsReached | src/consumer/strategy/round_robin.py:14-16 | the largest difference occurs exactly when every epoch stops between the two turns |
| RoundRobinStrategy.RoundRobin.constructor | src/consumer/strategy/round_robin.py:10-12 | the first epoch begins with no choice made |
| RoundRobinStrategy.RoundRobin.UpdateServers | src/consumer/strategy/round_robin.py:14-16 | a new epoch begins at index 0, the same list or not; the index is valid for the new list |
| RoundRobinStrategy.RoundRobin.ChooseServer | src/consumer/strategy/round_robin.py:18-23 | fails exactly without servers; else the choice continues the schedule of the epoch and the index stays in range |
| RoundRobinStrategy.RoundRobin.Fairness | src/consumer/strategy/round_robin.py:10-23 | at any time the counts of two servers differ as stated for schedules |
| QueueNames.NamesAreDistinct | src/consumer/rpc_server.py:58-87 | for model names without underscores, shared, private and completion queues all have different names, whatever the organizations |
| QueueNames.PrivateNamesClashIff | src/consumer/rpc_server.py:80-82 | for all names: two private queues share a name exactly when the longer model name runs on into the shorter one's organization |
| QueueNames.ListedMeaning | src/sender/models.py:18-31 | a name is listed exactly when it is bound, does not start with "amq", and ends with neither "completed" nor "private" |
| QueueNames.AffixMeaning | src/sender/models.py:26-30 | starting or ending with a word means that the rest precedes or follows it |
| QueueNames.ListedOne | src/sender/models.py:18-31 | a binding that passes is listed once |
| QueueNames.ListedInOrder | src/sender/models.py:18-31 | the listing follows the order of the bindings |
| QueueNames.ListingIsTheModelsIff | src/sender/models.py:18-31 | the listing is exactly the models if and only if no model name starts with "amq" or ends with "completed" or "private" |
| QueueNames.ModelRegistry.GetModels | src/sender/models.py:8-33 | the cached list becomes the filtered bindings, in order |
| QueueNames.ModelRegistry.GetModelById | src/sender/models.py:36-46 | the list is fetched again only for an id it lacks; found exactly when cached or listed by the new bindings, so a deleted model stays found until another id is missed |

## Left out

- RabbitMQ, aio_pika, HTTP, FastAPI, SQLAlchemy, probes, the command line, migrations and dashboards: only an abstract broker is modelled.
- `Histogram.parse`: snapshots arrive as finite maps; that its bounds are not negative is an assumption on them (`Metrics.Plausible`), since its pattern has no sign.
- `PerformanceBasedRequeuePolicy` as a deferring policy: its deferring branch logs a setting that `Settings` does not define, so it raises.
- How long a message may wait in all: the TTL is that of each publication, and private queues have none; `DropExpired` may strike a shared message at any time. The 30 s without consumers that `x-expires` takes are not counted either.
- What a sender meets when the queue is gone: a call then fails before it registers anything, and a publish may fail, which the model has.
- Real load: the timers default to 15 s while a proxied request may take 600 s, so bounds are about tracked ids only.
- A completion for an unknown server: the code indexes by `None` and swallows the error; modelled as no change and no acknowledgement.
- Connection set-up and reconnects, streaming of answers, token checks, waiting for servers at start-up.
- The priority handlers: the forwarded priority is left out of the reply, as are the strategy's name and the score.
- Sender crashes and the loss of a callback queue: a sender's calls then simply never finish.
- Python's aliasing of the server list handed to `update_servers`: the strategy keeps a value.
