# The reliability layer of the KubeMQ transport for NestJS

This project models the small stateful protocols behind the transport's delivery guarantees
and proves what they promise over every run: the queue delivery pipeline with its semaphore
and its deduplication cache, the circuit breaker and its use by the client, the race between
`connect` and `close`, the reconnect loop with its backoff and its all-or-nothing binding, the
retry loop with dead letters and replies, and the record builder with the tags on the wire.

`dafny verify dfyconfig.toml` checks everything.

## How the model is built

- JavaScript runs the code between two `await`s without interruption. A protocol is therefore
  a state and a set of events, an event being the code between two awaits, run by one of any
  number of concurrent callers. An event that is not enabled leaves the state unchanged, so
  *a run is any sequence of events*, and a lemma about all sequences is a lemma about all
  interleavings. Where a promise settles in one tick and its waiter resumes in a later one,
  the model lets anything happen in between, which includes every order that the runtime
  produces.
- A class with fields that its methods update is a `class` here. Each method is one event; its
  contract says that the new abstract state (`View()`) is the one that the event's
  specification function gives. The lemmas are about runs of these functions.
- `Date.now()` is a parameter of events. Timers are pending in the runtime, apart from the field
  that remembers one of them, and any pending timer can fire. The SDK, handlers, validators and
  serializers are inputs: they succeed or fail as the event says.
- The logs in the states (`granted`, `calls`, `notices`, `handles`, ...) record what has
  happened; no decision depends on them.

| file | component |
|---|---|
| IdempotencyCache.dfy | map with expiry times and eviction list |
| Semaphore.dfy | permits, FIFO waiters, overflow |
| QueuePipeline.dfy, QueueSubscriber.dfy | the delivery of queue messages, as events and as a class |
| QueueInvariants.dfy, QueueSettlement.dfy | what every event keeps |
| QueueTheorems.dfy, QueueProgress.dfy | what every run guarantees: permits, settlements, progress |
| QueueHistory.dfy, QueueRefusals.dfy | why each message is settled as it is, and what a refusal leaves |
| QueueFairness.dfy | the semaphore inside the pipeline |
| QueueDeduplication.dfy | no second run for a key, and the gap of batch mode |
| CircuitBreaker.dfy, ClientRequests.dfy | the breaker, and the requests that use it |
| ConnectRace.dfy | single-flight connect against close |
| Backoff.dfy, Reconnect.dfy, Binding.dfy | delays, retry loop, binding and rollback |
| ReconnectBinding.dfy | the retry loop with what its attempts do to the server |
| Middleware.dfy | retries, dead letters, replies |
| Records.dfy | record builder and wire tags |
| Sequences.dfy, Options.dfy, Timers.dfy, Constants.dfy | shared vocabulary |

## Where the code does less than one might expect

- *Retention.* Looking up an expired key removes it from the map and not from the eviction
  list, so a key that comes back has a stale twin in the list and can be evicted before older
  keys (`StaleTwinEvictedEarly`). The exact guarantee is `Window`: `SurvivesExactlyTheWindow`
  and `PromiseIffNoStaleTwin` say when it holds and when it does not.
- *Overflow.* A callback whose `acquire` is rejected settles neither that message nor the rest
  of its poll, for ever. It happens exactly when it asks while everything is full
  (`StoppedIffTurnedAway`, `SettledInTheEnd`), and under every limit it can (`OverflowIsReachable`).
- *A negative limit* is not rejected and lets nobody in (`NegativeLimitAdmitsNobody`). The
  theorems about permits and settlements assume that there is none, and nothing else about the
  options (`SensibleUnlessNegative`).
- *Batches.* Only the first message's key of a batch is looked up, so a held key is covered
  exactly if the first one is held (`HeldKeyCoveredIff`), and every held key is covered exactly
  if the handler takes single messages (`CoversEveryMessageIffSingle`). When a batch is refused
  by the validator, all of it is acknowledged and only its first message is dead-lettered
  (`RefusedUnitKeepsOnlyItsLead`, `DeadLettersEveryMessageIffSingle`).
- *Recovery.* A request whose body does not serialize spends a half-open probe without an
  outcome, so the breaker can stay half-open for ever: `HalfOpenLeftIffProbeOrPending` gives
  the exact condition, `StrandedFromTheStart` a run that gets there under any configuration.
- *Undecodable replies* are recorded as a success and, in a later job, as a failure. One by one
  they do not add up (`OneByOneTheyDoNotAddUp`), but those that settle together do
  (`TogetherTheyAddUp`): with at most k outstanding at once they never open the breaker if and
  only if its threshold is above k (`UndecodableRepliesNeverOpen`), so without a limit on
  pending requests no threshold is safe (`NoThresholdIsSafe`).
- *Overlapping units* with one key, of which the second is looked up before the first has
  succeeded, can both run (`OverlappingUnitsBothSucceed`).
- *Starting the reconnect loop* while something is pending leaves two timers
  (`SecondStartForks`); `StartIsSafeIff` says when a start is safe. `listen` starts it once.
- A negative `maxRetries` runs no handler, reports no error and sends no dead letter
  (`LostWithoutATraceIff`), and answers a request with success (`ExecutedMeansHandled`).

## Model

| member | source | states |
|---|---|---|
| Idempotency.IdempotencyCache.Contains | src/server/idempotency-cache.ts:17-25 | answers "seen" exactly for a live key, through the expiry instant, and purges an expired one from the map only |
| Idempotency.IdempotencyCache.Remember | src/server/idempotency-cache.ts:27-38 | the eviction loop and the insertion refine the recursive specification |
| Idempotency.IdempotencyCache.Reset | src/server/idempotency-cache.ts:44-47 | clears map and list |
| Idempotency.SizeBounded | src/server/idempotency-cache.ts:27-38 | over every run the cache holds at most max(1, maxSize) keys |
| Idempotency.PresentMeansRecentlyInserted | src/server/idempotency-cache.ts:17-38 | a lookup that says "seen" implies an insertion of the key at most one TTL ago with no clear since |
| Idempotency.EvictKeepsWindow | src/server/idempotency-cache.ts:30-33 | eviction never removes a key whose window is positive and leaves the window unchanged |
| Idempotency.ApplyKeepsWindow | src/server/idempotency-cache.ts:17-38 | a real insertion costs a key's window at most one, a lookup or an `add` of a present key nothing; an insertion of a key unknown to the list costs exactly one |
| Idempotency.SurvivesExactlyTheWindow | src/server/idempotency-cache.ts:17-38 | a live key survives n real insertions under every schedule, with any number of lookups and idle `add` calls, if and only if n is at most its window |
| Idempotency.PromiseIffNoStaleTwin | src/server/idempotency-cache.ts:17-38 | a new key survives the next maxSize - 1 insertions under every schedule if and only if no stale twin stands in front of a live key |
| Idempotency.CleanInsertionSurvives | src/server/idempotency-cache.ts:27-38 | the dedup window: a key that the list does not hold survives the next maxSize - 1 insertions |
| Idempotency.StaleTwinEvictedEarly | src/server/idempotency-cache.ts:20-38 | a concrete run in which a key is evicted two insertions after it was added, before an older live one |
| Idempotency.UnpurgedCacheIsFifo | src/server/idempotency-cache.ts:27-38 | while nothing has been purged, the list is duplicate-free and map and list are exactly the last max(1, maxSize) insertions |
| Backpressure.BackpressureSemaphore.TryAcquire | src/server/backpressure-semaphore.ts:20-38 | grants, queues or rejects, in this order of preference, with the whole new state |
| Backpressure.BackpressureSemaphore.GiveBack | src/server/backpressure-semaphore.ts:40-47 | hands the permit to the oldest waiter, or frees it when nobody waits |
| Backpressure.RunFifo | src/server/backpressure-semaphore.ts:20-47 | over every run: at most maxConcurrent running, nobody waits while a permit is free, and the accepted callers are the granted ones followed by the waiting ones |
| Backpressure.TurnedAwayOnlyWhenFull | src/server/backpressure-semaphore.ts:20-38 | a caller is rejected exactly when every permit is out and the queue is full |
| Backpressure.WaiterGrantedByItsRelease | src/server/backpressure-semaphore.ts:40-47 | the waiter at position i is granted by exactly the (i + 1)th release, for every interleaving with new callers |
| QueueSubscription.QueueSubscriber.constructor | src/server/kubemq.server.ts:332-349 | a queue binding owns a fresh semaphore and a fresh cache, sized by its options and their defaults; `concurrency` wins over `maxConcurrent`, also when it is 0, and 0 means no limit |
| QueueSubscription.QueueSubscriber.OnMessages | src/server/kubemq.server.ts:741-747 | a poll becomes a callback that works through single messages, or one batch |
| QueueSubscription.QueueSubscriber.StartUnit | src/server/kubemq.server.ts:768-772 | acquires a permit outside the try block; a rejected callback stops for good |
| QueueSubscription.QueueSubscriber.EnterTry | src/server/kubemq.server.ts:772-983 | decodes, looks the key up, and goes on to settle, validate or handle |
| QueueSubscription.QueueSubscriber.OnValidated | src/server/kubemq.server.ts:982-1004 | an accepted body starts the handler; a refused one goes to the dead-letter channel, with the first message of its unit, or is done |
| QueueSubscription.QueueSubscriber.OnDeadLettered | src/server/kubemq.server.ts:989-1002 | after the dead letter the message counts as done |
| QueueSubscription.QueueSubscriber.OnReturned | src/server/kubemq.server.ts:1032-1049 | success records the key, failure does not |
| QueueSubscription.QueueSubscriber.FinishUnit | src/server/kubemq.server.ts:811-823 | settles every message of the unit, then returns the permit to the oldest waiter |
| QueueSubscription.QueueSubscriber.CallAll | src/server/kubemq.server.ts:889-900 | one call of ack or nack for each message of a unit |
| QueueTheorems.RunSound | src/server/kubemq.server.ts:761-905 | every interleaving of any number of callbacks keeps the invariants on permits, waiters, handler runs, verdicts, settlements and recorded keys |
| QueueTheorems.SensibleUnlessNegative | src/server/kubemq.server.ts:332-340 | the assumption on the limit fails exactly if the effective limit is negative |
| QueueTheorems.NegativeLimitAdmitsNobody | src/server/backpressure-semaphore.ts:20-38 | with a negative limit no unit ever gets a permit, in any run |
| QueueTheorems.ConcurrencyBounded | src/server/kubemq.server.ts:768-825 | at most maxConcurrent units are between grant and release, `running` counts them exactly, grants are first come first served |
| QueueTheorems.PermitsReturnedOnce | src/server/kubemq.server.ts:768-825 | every permit is granted once and released once on every path; what is granted and not released is inside; a rejected unit has neither |
| QueueTheorems.ClampNeverUsed | src/server/backpressure-semaphore.ts:40-47 | whenever a callback releases, the counter is positive |
| QueueTheorems.VerdictDecidesSettlement | src/server/kubemq.server.ts:813-900 | each message of a unit gets ack for every verdict but failure |
| QueueTheorems.UnitSettledAlike | src/server/kubemq.server.ts:889-900 | all messages of a batch get the same settlement |
| QueueTheorems.ManualModeSettlesNothing | src/server/kubemq.server.ts:813-820 | in manual mode the transport settles nothing |
| QueueTheorems.HandlerRunsAtMostOnce | src/server/kubemq.server.ts:1018-1049 | the handler of a unit runs at most once, only inside, and never for a unit that was turned away |
| QueueTheorems.FailedHandlerNeverRecordsItsKey | src/server/kubemq.server.ts:1032-1049 | every key in the cache belongs to a unit whose handler succeeded |
| QueueTheorems.QuiescentMeansDone | src/server/kubemq.server.ts:768-825 | no lost wake-up: when no callback can go on, each is through or was turned away |
| QueueHistory.RunTold | src/server/kubemq.server.ts:969-1049 | from any reachable state on, what the events said about a unit is one of the six possible stories; place, handler runs and settlements follow from it |
| QueueHistory.HistoryIsWhatHappened | src/server/kubemq.server.ts:969-1049 | a fact is in the history of a unit exactly if some event of the run says it in the unit's turn |
| QueueHistory.SettledExactlyOnce | src/server/kubemq.server.ts:761-826 | in auto-ack mode a message is settled exactly once when its unit is over and never before; ack if and only if the handler succeeded, the body decoded while the key was held, or the validator refused it; nack if and only if the body did not decode, the validator threw, or the handler failed |
| QueueHistory.HandlerRunsOnlyWhenDue | src/server/kubemq.server.ts:969-1034 | over every run a handler runs if and only if the body decoded while the key was not held and the validator, if any, accepted it |
| QueueHistory.RefusedIsBuriedFirst | src/server/kubemq.server.ts:984-1003 | a refused unit is over only after its dead letter has been dealt with |
| QueueRefusals.RefusedUnitKeepsOnlyItsLead | src/server/kubemq.server.ts:877-894 | a refused batch is acknowledged as a whole, but only its first message goes to the dead-letter channel, once |
| QueueRefusals.RefusedBatchLosesMessages | src/server/kubemq.server.ts:828-905 | under every configuration with batches, a validator and a dead-letter channel a run in which a message is acknowledged, not handled and not dead-lettered |
| QueueRefusals.DeadLettersEveryMessageIffSingle | src/server/kubemq.server.ts:741-747 | every refused message is dead-lettered in every run if and only if the handler does not take batches |
| QueueRefusals.OnlyRefusedUnitsAreDeadLettered | src/server/kubemq.server.ts:982-1049 | a queue handler that fails sends no dead letter |
| QueueDeduplication.NoSecondRun | src/server/kubemq.server.ts:969-1049 | while a key is held, for lookups in time and as many real insertions as its window, no run begins for it except for a unit past its lookup, exactly if the validator accepts that one, and every unit that still has to enter is acknowledged without a run, exactly if its body decodes |
| QueueDeduplication.UnseenKeyIsGone | src/server/idempotency-cache.ts:17-25 | a lookup that lets a unit pass leaves no entry of its key behind, not even an expired one |
| QueueDeduplication.SuccessIsRecorded | src/server/kubemq.server.ts:969-1049 | in every run, when the handler of a unit that was looked up succeeds at `now`, and no other unit with its key has succeeded since that lookup, the key is held until `now` + TTL |
| QueueDeduplication.SuccessShieldsItsKey | src/server/kubemq.server.ts:969-1049 | the shield of `NoSecondRun` from such a success, if no stale twin of the key stands in front of a live key, for maxSize - 1 further insertions within the TTL, in every run |
| QueueDeduplication.OverlappingUnitsBothSucceed | src/server/kubemq.server.ts:969-1049 | under every configuration with a validator that lets two units in, a run in which two overlapping units with one key both succeed |
| QueueDeduplication.HeldKeyCoveredIff | src/server/kubemq.server.ts:863-885 | for a message whose key is held, its unit becomes a duplicate if and only if the key of the unit's first message is held |
| QueueDeduplication.BatchHidesDuplicates | src/server/kubemq.server.ts:863-885 | under every configuration with batches a run in which a held key gets past the lookup |
| QueueDeduplication.CoversEveryMessageIffSingle | src/server/kubemq.server.ts:741-747 | every message with a held key is kept from the handler in every run if and only if the handler does not take batches |
| QueueProgress.PollIsCutIntoUnits | src/server/kubemq.server.ts:741-768 | a new callback has exactly the messages of its poll before it, in order, singly or as one batch |
| QueueProgress.EveryScheduleRunsDry | src/server/kubemq.server.ts:768-825 | without new polls every schedule ends after a bounded number of events |
| QueueProgress.OverflowIsFinal | src/server/kubemq.server.ts:770-772 | a callback that was turned away never goes on |
| QueueProgress.StartOverflowsIffFull | src/server/kubemq.server.ts:770-772 | a callback is turned away exactly when as many units are inside as there are permits and as many wait as there is room for |
| QueueProgress.StoppedIffTurnedAway | src/server/kubemq.server.ts:770-772 | a callback has stopped at a unit if and only if it asked for that unit's permit at such a moment of the run |
| QueueProgress.SettledInTheEnd | src/server/kubemq.server.ts:761-826 | in the end every message is settled exactly once, or not at all if and only if its callback asked in vain for the permit of its unit or of an earlier one |
| QueueProgress.OverflowIsReachable | src/server/backpressure-semaphore.ts:20-38 | under every limit a run in which a callback is turned away |
| QueueFairness.PipelineRunsItsSemaphore | src/server/kubemq.server.ts:768-825 | a run of the pipeline is a run of its semaphore |
| QueueFairness.WaiterLetInByItsEnding | src/server/kubemq.server.ts:768-825 | the unit that waits at position i is let in by exactly the (i + 1)th unit that ends, in every interleaving |
| CircuitBreaking.CircuitBreaker.Guard | src/circuit-breaker/circuit-breaker.ts:35-45 | admits when closed or while probes are left, and spends one |
| CircuitBreaking.CircuitBreaker.RecordSuccess | src/circuit-breaker/circuit-breaker.ts:47-52 | closes a half-open breaker and clears the count |
| CircuitBreaking.CircuitBreaker.RecordFailure | src/circuit-breaker/circuit-breaker.ts:54-63 | counts, and opens when half-open or at the threshold |
| CircuitBreaking.CircuitBreaker.OnResetTimer | src/circuit-breaker/circuit-breaker.ts:82-84 | makes the breaker half-open with its budget of probes |
| CircuitBreaking.CircuitBreaker.Shutdown | src/circuit-breaker/circuit-breaker.ts:65-70 | clears the timer and nothing else |
| CircuitBreaking.CircuitBreaker.ChangeTo | src/circuit-breaker/circuit-breaker.ts:72-94 | no-op on the same state; else timer, count and notice change together |
| CircuitBreaking.FailuresCountTrailingRun | src/circuit-breaker/circuit-breaker.ts:47-63 | `failures` is the length of the trailing run of failures in the outcome log; closed means shorter than a positive threshold |
| CircuitBreaking.OpensExactlyAtThreshold | src/circuit-breaker/circuit-breaker.ts:54-63 | closed becomes open exactly at the outcome that completes the threshold, and the listener is told that number |
| CircuitBreaking.TimerPendingIffOpen | src/circuit-breaker/circuit-breaker.ts:65-87 | in the runtime at most one reset timer is pending, it is the one the breaker can clear, and until `destroy` there is one exactly while the breaker is open |
| CircuitBreaking.OpenIntervalRejects | src/circuit-breaker/circuit-breaker.ts:35-94 | an open breaker rejects every request until a pending timer is due, whatever is recorded |
| CircuitBreaking.OpeningArmsTimer | src/circuit-breaker/circuit-breaker.ts:72-87 | after the opening failure one timer is pending, due after resetTimeout, and none from earlier intervals |
| CircuitBreaking.FailureThatOpensRejects | src/circuit-breaker/circuit-breaker.ts:54-87 | the failure that opens the breaker buys resetTimeout of rejections |
| CircuitBreaking.HalfOpenAfterTimeout | src/circuit-breaker/circuit-breaker.ts:81-87 | and not more: the timer is still pending then and makes it half-open with the full budget |
| CircuitBreaking.DestroyedWhileOpenIsFinal | src/circuit-breaker/circuit-breaker.ts:65-70 | destroyed while open, it never admits again |
| CircuitBreaking.FirstOutcomeDecides | src/circuit-breaker/circuit-breaker.ts:47-63 | half-open lasts until the first outcome: success closes with a clean count, failure reopens for a full resetTimeout |
| CircuitBreaking.EpisodeBudget | src/circuit-breaker/circuit-breaker.ts:39-84 | within a half-open episode, admitted plus still allowed equals halfOpenRequests |
| CircuitBreaking.AdmissionBounded | src/circuit-breaker/circuit-breaker.ts:35-94 | requests admitted while not closed are at most halfOpenRequests times the firings of the timer |
| CircuitBreaking.NoticesTraceTheState | src/circuit-breaker/circuit-breaker.ts:72-94 | the listener sees every change, in the cycle closed, open, half-open, and the last notice is the current state |
| CircuitBreaking.EveryChangeIsNoticed | src/circuit-breaker/circuit-breaker.ts:72-94 | each event adds one notice if it changes the state and none otherwise; the notice tells the new state and the length of the trailing run of failures, whatever the threshold |
| ClientRequests.RequestPath.PublishRequest | src/client/kubemq-client.proxy.ts:184-210 | the guard comes before the checks for client and serialization |
| ClientRequests.RequestPath.OnReply | src/client/kubemq-client.proxy.ts:249-270 | one outcome when the promise settles: a success for every reply, a failure for a rejection; a reply that does not decode leaves its `catch` callback outstanding |
| ClientRequests.RequestPath.OnCaught | src/client/kubemq-client.proxy.ts:263-270 | the outstanding `catch` callback records the failure, in a job of its own |
| ClientRequests.RequestPath.DispatchRequest | src/client/kubemq-client.proxy.ts:315-331 | the same order for events |
| ClientRequests.RequestPath.OnDispatched | src/client/kubemq-client.proxy.ts:372-415 | one outcome for each send |
| ClientRequests.RequestPath.OnResetTimer | src/circuit-breaker/circuit-breaker.ts:82-84 | a pending timer of the breaker fires |
| ClientRequests.RequestPath.CloseBreaker | src/client/kubemq-client.proxy.ts:140-142 | closing the client destroys the breaker first |
| ClientRequests.HalfOpenLeftIffProbeOrPending | src/client/kubemq-client.proxy.ts:184-307 | half-open can be left if and only if a probe is left or a request can still report an outcome |
| ClientRequests.StrandedForever | src/client/kubemq-client.proxy.ts:184-331 | otherwise every later request is rejected, in every run |
| ClientRequests.FailedSerializationsStrand | src/client/kubemq-client.proxy.ts:185-210 | as many unserializable bodies as probes strand the client |
| ClientRequests.StrandedFromTheStart | src/client/kubemq-client.proxy.ts:184-331 | under every configuration a run from the start that ends stranded |
| ClientRequests.UndecodableReply | src/client/kubemq-client.proxy.ts:249-270 | one reply that does not decode, caught before anything else: one failure on the count, and open exactly if it was open or one failure is enough |
| ClientRequests.OneByOneTheyDoNotAddUp | src/client/kubemq-client.proxy.ts:249-307 | from any state, n of them one by one leave the breaker open if and only if it was open or one failure is enough |
| ClientRequests.TogetherTheyAddUp | src/client/kubemq-client.proxy.ts:249-307 | from any state, n of them that settle together leave it open if and only if it was open or n reaches the threshold |
| ClientRequests.UndecodableRepliesNeverOpen | src/client/kubemq-client.proxy.ts:184-307 | over all runs without other failures and with at most k decoding failures outstanding at once, they never open it, from closed or half-open, if and only if the threshold is above k |
| ClientRequests.NoThresholdIsSafe | src/client/kubemq-client.proxy.ts:184-307 | under every configuration a run from the start in which every request is answered and the breaker opens |
| ClientRequests.ProxyRunsItsBreaker | src/client/kubemq-client.proxy.ts:184-416 | a run of the client is a run of its breaker, so the breaker's theorems hold for it |
| ClientRequests.NothingSentWhileOpen | src/client/kubemq-client.proxy.ts:185-318 | until resetTimeout has passed the client hands nothing to the SDK |
| ClientRequests.RequestsConserved | src/client/kubemq-client.proxy.ts:236-308 | every request handed to the SDK is pending, waits for its `catch` callback, or is done |
| ConnectRace.ClientConnection.Connect | src/client/kubemq-client.proxy.ts:56-75 | refuses, returns, joins the attempt in flight or starts one |
| ConnectRace.ClientConnection.OnCreated | src/client/kubemq-client.proxy.ts:78-101 | installs the client, or closes it when the proxy is closing |
| ConnectRace.ClientConnection.OnConnectResumed | src/client/kubemq-client.proxy.ts:64-74 | only the owner clears the promise |
| ConnectRace.ClientConnection.Close | src/client/kubemq-client.proxy.ts:140-157 | marks the proxy, then awaits the attempt or closes the client |
| ConnectRace.ClientConnection.OnClientClosed | src/client/kubemq-client.proxy.ts:150-157 | the field is cleared also when closing fails |
| ConnectRace.AtMostOneAttemptInFlight | src/client/kubemq-client.proxy.ts:56-75 | at most one attempt is in flight in every interleaving |
| ConnectRace.AtMostOneClientInstalled | src/client/kubemq-client.proxy.ts:77-101 | at most one client is ever installed |
| ConnectRace.CloseLeavesNothingBehind | src/client/kubemq-client.proxy.ts:140-159 | once a close has completed, the field is null, nothing is in flight, and every client ever created has had its close called |
| ConnectRace.NoClientLeaks | src/client/kubemq-client.proxy.ts:77-101 | at any time a created client is installed or has had its close called |
| ConnectRace.SuccessfulAttemptInstalls | src/client/kubemq-client.proxy.ts:77-138 | while the proxy is open, an attempt that succeeded has left a client |
| ConnectRace.AttemptSucceedsIffCreated | src/client/kubemq-client.proxy.ts:77-101 | an attempt settles with success exactly if its client was created, also when the proxy closes meanwhile |
| ConnectRace.ConnectIsAnswered | src/client/kubemq-client.proxy.ts:56-75 | at every later time of every run a connect call made when closing is refused, one made with a client has succeeded, and any other awaits one attempt, in flight or new, or was told exactly how it settled |
| ConnectRace.SuccessfulConnectFindsClient | src/client/kubemq-client.proxy.ts:56-101 | while the proxy is open, whoever was told that connecting succeeded finds a client |
| ConnectRace.NextConnectTriesAgain | src/client/kubemq-client.proxy.ts:64-74 | a failure is not remembered: once no connect call waits, the next one on an open proxy without a client starts an attempt |
| ConnectRace.QuiescentMeansDone | src/client/kubemq-client.proxy.ts:56-159 | no connect or close call hangs |
| Backoff.DelaysGrowToTheCap | src/server/reconnect-manager.ts:75-78 | delays are non-decreasing, capped, and constant once saturated |
| Backoff.PowAdds | src/server/reconnect-manager.ts:75-78 | the power turns sums of exponents into products and starts at the base |
| Backoff.DelayIsTheLesser | src/server/reconnect-manager.ts:75-78 | the delay is the cap if and only if the power has reached it, and the power itself otherwise |
| Backoff.CapIsReachedIff | src/server/reconnect-manager.ts:75-78 | the cap is reached at some attempt if and only if the first delay has reached it or the delays really grow |
| Backoff.TotalDelayBounded | src/server/reconnect-manager.ts:75-78 | n delays add up to at most n times the cap |
| Backoff.TotalDelayGeometric | src/server/reconnect-manager.ts:75-78 | below the cap their sum is the closed form of the geometric series |
| Backoff.TotalDelayAcrossTheCap | src/server/reconnect-manager.ts:75-78 | for a loop that crosses the cap, the sum is the geometric one up to the crossing plus the cap for every later attempt |
| Backoff.DefaultDelays | src/server/reconnect-manager.ts:7-13 | the default policy waits from 0.5 to 16 seconds, then 30 seconds, and its total in closed form |
| Reconnecting.ReconnectManager.constructor | src/server/reconnect-manager.ts:15-17 | a server without a policy gets the default one; the manager starts idle |
| Reconnecting.ReconnectManager.Start | src/server/reconnect-manager.ts:57-60 | starts the loop unless the server is closing |
| Reconnecting.ReconnectManager.Schedule | src/server/reconnect-manager.ts:62-96 | reports exhaustion or arms a timer with the policy's delay |
| Reconnecting.ReconnectManager.OnTimer | src/server/reconnect-manager.ts:80-84 | connects unless the server is closing |
| Reconnecting.ReconnectManager.OnConnectFailed | src/server/reconnect-manager.ts:88-96 | counts the failure and schedules again unless the server is closing |
| Reconnecting.ReconnectManager.Cancel | src/server/reconnect-manager.ts:42-48 | clears the timer and marks the manager |
| Reconnecting.LoopIsSafe | src/server/reconnect-manager.ts:57-99 | timers pending in the runtime and attempts in flight are at most one in all, and the timer is the one the manager can clear; at most maxAttempts attempts; exhaustion reported once and only after exactly maxAttempts failures |
| Reconnecting.StartIsSafeIff | src/server/reconnect-manager.ts:57-80 | from at most one timer or attempt, a start keeps to one if and only if the server is closing, the attempts are used up, or nothing is pending |
| Reconnecting.SingleIffStartsAreSafe | src/server/reconnect-manager.ts:42-99 | over every run with any number of starts, timers and attempts never overlap if and only if every start comes at such a moment |
| Reconnecting.SecondStartForks | src/server/reconnect-manager.ts:57-80 | starting twice at once leaves two timers and leads to two attempts in flight |
| Reconnecting.RestHasAReason | src/server/reconnect-manager.ts:57-99 | the loop rests only after success, after exhaustion, or when closing |
| Reconnecting.NoAttemptAfterClosing | src/server/reconnect-manager.ts:42-97 | once closing, no attempt starts and nothing is reported |
| Reconnecting.ClosingIffTold | src/server/reconnect-manager.ts:38-48 | the manager is closing if and only if it was told to, and then for good |
| Reconnecting.CancelStopsTheLoop | src/server/reconnect-manager.ts:42-97 | from a cancellation on no timer is pending and no attempt starts, whatever happens |
| Reconnecting.BoundedLoopEnds | src/server/reconnect-manager.ts:62-99 | a bounded loop ends after at most 2 * maxAttempts events |
| Reconnecting.WaitsFollowThePolicy | src/server/reconnect-manager.ts:75-96 | the timers set are the policy's delays from the start, in order, the pending one is the last, and their sum is the policy's total |
| Reconnecting.WaitBounded | src/server/reconnect-manager.ts:75-96 | a bounded loop waits at most maxAttempts times the cap in all |
| Binding.KubeMQServer.ConnectAndBindHandlers | src/server/kubemq.server.ts:239-289 | the loop over the handlers refines the attempt: all bound, or rolled back |
| Binding.KubeMQServer.BindHandler | src/server/kubemq.server.ts:318-393 | resolves the pattern type, rejects wildcards, creates the semaphore and the cache of a queue handler, rejects bad start positions, and creates one stream or subscription |
| Binding.KubeMQServer.RollbackBindings | src/server/kubemq.server.ts:291-316 | cancels every subscription and stream once, closes the client, empties the server |
| Binding.AttemptAllOrNothing | src/server/kubemq.server.ts:239-349 | from an empty server, if and only if every handler binds there is one live client with one handle per handler, in the list of its kind, and each queue handler has the semaphore and the cache that its options ask for, of this attempt; else the server is empty and the client closed |
| Binding.PatternTypeByFields | src/server/kubemq.server.ts:376-393 | the decorator's type wins, then the flags for query, store and queue in this order, then the kind of the handler; every handler has exactly one type |
| Binding.BindsByFields | src/server/kubemq.server.ts:318-330 | a handler binds if and only if it is a plain event handler or has no wildcard, has a valid start position if it is an event-store handler, and the SDK lets it |
| Binding.AttemptGoesAsFar | src/server/kubemq.server.ts:282-349 | in any attempt exactly the handlers before the first that cannot be bound have had a handle created, and exactly the queue handlers up to and including that one have the semaphore and the cache that they ask for from this attempt |
| Binding.RetriedIff | src/server/kubemq.server.ts:234-289 | the loop goes on after an attempt if and only if it was made on an open server and the SDK created no client, or some handler could not be bound |
| Binding.HandlesOfMember | src/server/kubemq.server.ts:351-393 | a handler gets a stream exactly if it resolves to a queue handler, else a subscription |
| Binding.RetryLoopConserves | src/server/kubemq.server.ts:239-316 | over every run of the retry loop each handle is bound or cancelled once, each client current or closed once |
| Binding.RetryLoopLeavesNothingBehind | src/server/kubemq.server.ts:234-316 | from the start: at most one live client, no handle cancelled twice, none left without a client |
| Binding.ShutdownReleasesEverything | src/server/kubemq.server.ts:128-156 | shutting down afterwards releases every handle and every client, each once |
| ReconnectBinding.LoopRefinesRetryLoop | src/server/kubemq.server.ts:92-118 | over every interleaving of timers, settling attempts and shutdowns the attempts do not overlap, and the server is as a sequential retry loop over the same attempts leaves it |
| ReconnectBinding.ReconnectingLeavesNothingBehind | src/server/reconnect-manager.ts:57-99 | so at most one client is live, no handle outlives its client, a bounded policy makes at most maxAttempts attempts after the first, and once bound nothing is pending |
| Middleware.DlqHandler.RouteToDlq | src/server/dlq-handler.ts:19-78 | one event per call, with a send error exactly when the count did not grow |
| Middleware.DeadLettersAccounted | src/server/dlq-handler.ts:45-77 | over any history: one event per call about its own message, with the right send error, and events without one are as many as messages routed |
| Middleware.ParcelsIdentifyTheirMessage | src/server/dlq-handler.ts:36-69 | over any history every call that finds a client sends one parcel, in order, with the original body and tags that name its source, id, reason, count, pattern type and time; the others send nothing |
| Middleware.DecimalStandsFor | src/server/dlq-handler.ts:42 | the retry count is written as a decimal numeral that stands for it |
| Constants.PatternNames | src/constants.ts:18 | the names of the pattern types, which are all different |
| Middleware.MessageExecutor.RunWithRetries | src/server/kubemq.server.ts:1052-1083 | the loop refines "stop at the first success" |
| Middleware.MessageExecutor.Execute | src/server/kubemq.server.ts:982-1084 | validation first, then the loop |
| Middleware.RetriesStopAtFirstSuccess | src/server/kubemq.server.ts:1052-1083 | the handler runs up to its first success and at most maxRetries + 1 times; the result is that success or the last error; the original body is dead-lettered exactly when all attempts failed and there is a channel |
| Middleware.DefaultRetries | src/server/kubemq.server.ts:947-950 | without `maxRetries` a failing handler runs four times with a dead-letter channel and once without |
| Middleware.ExplicitRetries | src/server/kubemq.server.ts:947-950 | with `maxRetries` given, a failing handler runs that many times and once more, or not at all if it is negative |
| Middleware.DeadLetteredWhenGivenUp | src/server/kubemq.server.ts:982-1083 | a message is dead-lettered exactly when there is a channel and the transport gives the message up; the handler runs exactly for a valid message with a `maxRetries` that is not negative |
| Middleware.ErrorsComeOut | src/server/kubemq.server.ts:982-1083 | an error comes out if and only if the validator threw it, refused a request with it, or all allowed attempts of a valid message failed and it is the last one's |
| Middleware.RouteIsAboutTheMessage | src/server/kubemq.server.ts:982-1083 | a dead letter carries the channel, the type, the id and the body of its message, with the retry count and error of the last attempt, or the validator's error without a retry |
| Middleware.LostWithoutATraceIff | src/server/kubemq.server.ts:982-1083 | no run, no error and no dead letter if and only if the message is valid and `maxRetries` is negative, or it is an event that the validator refuses and there is no channel |
| Middleware.MessageExecutor.HandleRequest | src/server/kubemq.server.ts:473-560 | the nested try blocks produce the specified calls of `sendResponse` |
| Middleware.RepliedAtMostOnce | src/server/kubemq.server.ts:518-560 | one or two calls, two exactly if a reply about the handler was rejected, so at most one is taken; an error exactly when not executed, with a fixed text unless verbose |
| Middleware.RepliesAreAddressed | src/server/kubemq.server.ts:528-554 | every reply carries the request's id and reply channel and the client id; one about the handler carries exactly the transport's tags, any other none |
| Middleware.FailureTexts | src/server/kubemq.server.ts:506-553 | in verbose mode each failure has its text: the decoder's, the serializer's, the broker's, or the handler's own, with fixed texts for empty, timed-out and nameless errors |
| Middleware.ExecutedMeansHandled | src/server/kubemq.server.ts:473-560 | a reply says executed if and only if the body decoded, the message was valid, an allowed attempt succeeded and the result serialized; an error with an empty message is a failure |
| Middleware.ReplyCarriesTheValue | src/server/kubemq.server.ts:473-554 | an executed reply carries exactly the value of the first successful attempt, and none if no attempt was allowed; any other reply carries none |
| Records.KubeMQRecord.AddTags | src/client/kubemq-record.ts:72-80 | a fresh tag object; no existing object changes |
| Records.KubeMQRecord.AddMetadata | src/client/kubemq-record.ts:62-67 | merges everything but the type |
| Records.KubeMQRecord.SetDelay | src/client/kubemq-record.ts:83-89 | adds the delay to a copy of the policy |
| Records.KubeMQRecord.SetIdempotencyKey | src/client/kubemq-record.ts:92-95 | writes one tag of the record's own object |
| Records.KubeMQRecord.SetCorrelationId | src/client/kubemq-record.ts:98-101 | writes one tag of the record's own object |
| Records.BuildRecord | src/client/kubemq-record.ts:44-101 | every chain of calls: no object of the caller is modified, the record's tag object is its own, and the record holds what the chain builds |
| Records.MergeTags | src/client/kubemq-client.proxy.ts:17-28 | the loop over the user's tags refines the merge |
| Records.TypeIsTheLastMark | src/client/kubemq-record.ts:44-69 | the dispatched type is that of the last `as` call, never one from metadata |
| Records.TagsAreTheLastWritten | src/client/kubemq-record.ts:72-101 | each tag holds what its last writer gave it, and no chain sets a reserved tag |
| Records.MergePrecedence | src/client/kubemq-client.proxy.ts:17-28 | the transport wins on reserved tags, the caller on all others |
| Records.ReservedTagsSurvive | src/client/kubemq-client.proxy.ts:205-402 | on the wire every reserved tag is the transport's own, and the type tag is the last mark that fits the verb |
| Records.DelayIsTheLastGiven | src/client/kubemq-record.ts:62-89 | the delay in the policy is the last one given, unless later metadata replaced the policy |
| Records.OtherPolicyFieldsStay | src/client/kubemq-record.ts:83-89 | every other field of the policy is that of the last policy given as metadata |
| Records.OtherMetadataIsTheLastGiven | src/client/kubemq-record.ts:62-67 | every metadata key but `type` and `policy` holds what it was last given |
| Records.CorrelationIdPrecedence | src/client/kubemq-client.proxy.ts:216-222 | the caller's last correlation id wins unless it is empty, then the context's |
| Records.CausationIdPrecedence | src/client/kubemq-client.proxy.ts:216-222 | the caller's last causation id wins unless it is empty, then the context's |
| Records.OtherTagsReachTheWire | src/client/kubemq-client.proxy.ts:205-402 | every other unreserved tag on the wire is the caller's last |

## Left out

- Queue pipeline: the dead-letter event for a message that the broker has already re-routed.
- QueueSubscription.QueueSubscriber.OnDeadLettered: the tags of the dead letter and the outcome of sending it are those of the dead-letter handler and are not repeated in the pipeline.
- Queue pipeline: rebinding and `close` while messages are being delivered; one binding has one semaphore and one cache here.
- Queue pipeline: a handler that times out may still be working when its permit is returned; the bound is on permits.
- Assumptions: `ack`, `nack`, listeners and callbacks do not throw; where a lemma says so, `failureThreshold` and `maxSize` are at least 1, `halfOpenRequests` at least 0 and the limit is not negative.
- QueueDeduplication.NoSecondRun: speaks about units, so in batch mode about the first message's key.
- Backoff: delays are real numbers; floating-point rounding is not modelled, nor is the jitter, which the loop ignores too.
- Reconnect loop: a fixed policy; the policy getter could change between attempts.
- Reconnect loop: `listen` starts it only for connection errors and when it need not wait; here any failed first attempt may.
- Circuit breaker: the defaults of its three options (5 failures, 30 seconds, 1 probe); a configuration here has all three.
- Binding: pending listeners and their replay, and what `close` does to the server during a bind.
- Middleware: correlation ids and tracing around the handler.
- Records: trace tags, and a `policy` value that is an array or a string, whose parts the source would spread.
- HandlerExecutor (`track`, `drain`), message validation itself, serializers, error mapping, the health indicator, CQRS and module wiring: thin or single-branch code.
