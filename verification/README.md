# PySwitch: a verified model of the payment orchestrator

PySwitch takes a payment request, makes sure that a repeated request is one payment, offers the
payment to one provider after another behind retries and circuit breakers, keeps the refund
ledger, limits the rate of each merchant and publishes events through an outbox. This project
models that core for the process-local profile and proves what it guarantees over all runs.
`dafny verify dfyconfig.toml` checks everything.

| file | models | main results |
|---|---|---|
| `Idempotency.dfy`, `PaymentStore.dfy` | coordinator and store objects | the classes do what the transition functions say |
| `CreateProtocol.dfy` | `PaymentService.create`, any number of tasks, interruptible at every await | step machine |
| `CreateInvariant.dfy`, `CreateTheorems.dfy` | | one inductive invariant; one payment per key, no lost wake-up, no deadlock, every charge accounted for |
| `CreateAnswers.dfy` | the same, with a log kept beside the run | what every task answers and what every stored payment tells |
| `Failover.dfy` | retry inside failover | loops refine a step machine; every history is well formed |
| `Orchestration.dfy` | the same with the breakers | exactly when a candidate, timed out or not, hands the payment to the next; every call is recorded |
| `CircuitBreaking.dfy` | circuit breaker and its outbox notices | trace characterisation, probe limit, cooldown, reconstruction from notices |
| `WeightedRoundRobin.dfy`, `Fairness.dfy` | weighted router | conservation, lag bounds and no starvation under measured weights, exact cycles |
| `ProviderStats.dfy` | sliding window statistics | window contents, weights, nearest-rank p95 |
| `TokenBucket.dfy` | both rate limiters | window bound, exact Retry-After and remaining, Redis refines memory |
| `RefundLedger.dfy` | refunds under the per-payment lock | conservation of money |
| `Outbox.dfy`, `Dispatching.dfy` | outbox, dispatcher loops, broker, consumer | in-order at-least-once delivery, progress of the worker, applied exactly once |

How the model reads the source:

- Critical sections that contain no await are one step. Every await may end in an exception or a
  cancellation, also where the in-memory objects would not suspend, so the results cover more
  schedules than the code can show. The coordinator's `while True` wait is the pair of moves
  `TryAcquire` and `Wake`. One result goes the other way: in `NoticesReconstruct` a transition and
  the append of its notice are one step that cannot fail, so it rests on the memory outbox never
  suspending or raising.
- A provider call is an arbitrary outcome: success, any error code, or an unexpected exception.
  Within `create` the breaker's answer is arbitrary too, because other tasks share the breaker.
- UUIDs are fresh ids. The fingerprint is compared for equality only. An asyncio event is a handle
  plus membership in a set. Floats are reals. Clocks are arguments.
- `claimant`, `author`, `charges`, `lost`, `leaked`, `acknowledged`, `executed` and `stray` are
  history the code does not keep; no move consults them.
- Preconditions are those of the source and its API: distinct provider names, at least one attempt,
  positive payment amounts (enforced by the API, not by the service), a clock that never runs
  backwards, and the limits the constructors check.

Where code and documentation disagree the model follows the code:

- The reliability ADR says a timeout is never followed by a charge on another provider. The code
  looks only at the last error of a candidate. `TimeoutCanReachSecondProvider` is a run in which
  it happens. `HandoverVerdict` states exactly when any candidate, in any circuit state and with
  any replies, hands the payment on: iff the call that ends its retry run is refused a permit or
  fails with a failover-safe code. `TimeoutThenFailover` reads the same off the recorded history;
  `TimeoutVerdict` and `TimeoutBudget` spell it out for candidates that fail transiently throughout.
- The repository's own README draws a diagram that counts transient failures
  towards the circuit threshold. The code counts every provider error; `DeclinesOpenCircuit` opens
  a circuit by declined payments alone.
- That a key is charged at most once is not true of every run: a task interrupted between the
  provider's success and the save loses its charge, and a retry charges again
  (`InterruptedSaveChargesTwice`). With the in-memory store, outbox and breakers nothing suspends
  there, so that run needs a store or an outbox that suspends or raises. `ChargesBalance` is the
  exact law: the charges on a key are the lost ones, plus one iff its payment is saved as SUCCEEDED
  or about to be; so there is at most one iff none was lost, or one was and the key has no such
  payment. `ChargedOnce` is the case without losses.

## Model

| member | source | states |
|---|---|---|
| `CircuitBreaking.CircuitBreaker.constructor` | src/pyswitch/reliability.py:63-80 | a new breaker is CLOSED with no failures and no probes |
| `CircuitBreaking.CircuitBreaker.AllowRequest` | src/pyswitch/reliability.py:82-93 | the permit and the whole new state, as a function of old state and time |
| `CircuitBreaking.CircuitBreaker.RecordSuccess` | src/pyswitch/reliability.py:95-98 | the whole new state after a success |
| `CircuitBreaking.CircuitBreaker.RecordFailure` | src/pyswitch/reliability.py:100-105 | the whole new state after a failure |
| `CircuitBreaking.StateReflectsTrace` | src/pyswitch/reliability.py:82-105 | for every trace the counter is the number of failures since the last success, CLOSED iff that is below the threshold, and probes are counted only while HALF_OPEN |
| `CircuitBreaking.StateFromTrace` | src/pyswitch/reliability.py:82-105 | the whole state read off the trace without the breaker: failures since success, probes taken since the last outcome, opened at the last failure |
| `CircuitBreaking.HalfOpenGrants` | src/pyswitch/reliability.py:90-93 | a HALF_OPEN breaker grants exactly the smaller of the permits asked for and the probes left |
| `CircuitBreaking.ProbesBounded` | src/pyswitch/reliability.py:82-93 | until the next recorded outcome a tripped breaker grants at most the probe limit, however often it is asked |
| `CircuitBreaking.CooldownRespected` | src/pyswitch/reliability.py:82-105 | after a failure at t that leaves the circuit OPEN no permit is granted before t + cooldown unless a success is recorded, late failures included |
| `CircuitBreaking.PermitExact` | src/pyswitch/reliability.py:82-93 | after every trace a permit is granted iff failures are below the threshold, or no probe was taken and the last failure is at least a cooldown ago, or some but not all probes were taken |
| `CircuitBreaking.NoticesReconstruct` | src/pyswitch/service.py:96-148 | after every trace the last notice tells whether the breaker is CLOSED, and every closed notice directly follows an opened one |
| `CircuitBreaking.NoticeExact` | src/pyswitch/service.py:127-148 | which notice each signal adds: closed iff a success ends an outage, opened iff a failure reaches the threshold or fails a probe, nothing for a late failure or a permit |
| `Failover.AttemptProvider` | src/pyswitch/service.py:198-268 | the retry loop leaves the candidate loop exactly where the step machine would be |
| `Failover.TryCandidates` | src/pyswitch/service.py:302-339 | the nested loops compute the machine's final phase; its history is well formed and splits into blocks, one per visited candidate, each called and left as its error codes say, code by code |
| `Failover.CandidateCalls` | src/pyswitch/reliability.py:37-53 | only a timeout, an unavailable provider, a 502 or a 503 is followed by another call to the candidate, and if one of them ended its run it was the last attempt allowed |
| `Failover.HistoryIsDecided` | src/pyswitch/service.py:322-325 | every finished history splits into blocks that were called and left by these codes |
| `Failover.StepKeepsHistory` | src/pyswitch/service.py:201-268 | every outcome of one operation keeps the history well formed: one block per visited candidate in order, numbered from 1, all but the last entry a retried transient error |
| `Failover.DriveKeepsHistory` | src/pyswitch/service.py:299-334 | so does every complete run, on every script of outcomes |
| `Failover.HistoryShape` | src/pyswitch/service.py:227-267 | SUCCEEDED stands only last, iff the payment succeeded, under the provider that took it; attempt numbers stay within the limit |
| `Failover.TimeoutThenFailover` | src/pyswitch/service.py:322-325 | a visited candidate, with a timeout anywhere among its calls or none, is left for the next iff it has no entry, or its last code is unavailable, 502, 503 or a circuit error, or a timeout with attempts left; if the last call timed out, iff the breaker refused the following retry |
| `Failover.ChargeIsRecorded` | src/pyswitch/service.py:255-267 | a payment that ended in a charge has a non-empty history |
| `Failover.SuccessHasNoCode` | src/pyswitch/service.py:255-257 | the last entry of a charged payment carries no error code |
| `Failover.TimeoutCanReachSecondProvider` | docs/adr/0001-reliability-policy.md:11 | a run in which a timeout at one provider is followed by a charge at another |
| `Orchestration.CandidateRun` | src/pyswitch/service.py:201-268 | for any circuit state and any replies, which call ends a candidate's retry run and the phase it leaves: recorded entries, winner, crash, or abandonment with its code |
| `Orchestration.HandoverVerdict` | src/pyswitch/service.py:303-325 | at some moment of the run a later candidate has the payment iff there is one and the call that ended the retry run was refused or failed with a failover-safe code |
| `Orchestration.CodeDecides` | src/pyswitch/reliability.py:37-53 | for every candidate and each reply of a permitted call: timeout, unavailable, 502 and 503 are retried up to exactly max attempts, after which the last three go to the next candidate and the timeout loses the payment; any other code loses it at once; a circuit error goes on; a success wins |
| `Orchestration.CodesHandOver` | src/pyswitch/service.py:324-325 | in a whole run the deciding call hands the payment over iff there is a next candidate and it failed as unavailable, 502, 503 or circuit error |
| `Orchestration.TimeoutIsFinal` | src/pyswitch/reliability.py:37-53 | any candidate, any circuit state: if every reply is transient and every call was let through, all attempts are made and the last code decides |
| `Orchestration.RefusalMovesOn` | src/pyswitch/service.py:203-204 | the first call that the breaker refuses ends the candidate as CIRCUIT_OPEN after exactly that many calls |
| `Orchestration.TimeoutVerdict` | src/pyswitch/service.py:303-325 | a candidate with only transient replies hands the payment on iff there is a next one and some call was refused or the last code is failover-safe |
| `Orchestration.TimeoutBudget` | src/pyswitch/reliability.py:100-105 | found CLOSED with failures + attempts within the threshold, the last code decides; with threshold - failures attempts spent and the next asked for within the cooldown, CIRCUIT_OPEN after exactly those calls |
| `Orchestration.DeclinesOpenCircuit` | src/pyswitch/service.py:219-236 | each of n declined payments is lost with one FAILED entry, and the decline that brings the failures to the threshold opens the circuit |
| `Orchestration.CallsAreRecorded` | docs/adr/0001-reliability-policy.md:11 | at every moment each breaker has counted exactly as many failures as the payment history has entries for its provider |
| `Orchestration.CrashIsNotCounted` | src/pyswitch/service.py:237-247 | an unexpected exception of a provider changes no breaker's failure count |
| `Idempotency.Acquire` | src/pyswitch/idempotency.py:48-61 | one pass of acquire keeps the rule that an issued event is unset exactly while its claim is pending |
| `Idempotency.Complete` | src/pyswitch/idempotency.py:63-71 | completing keeps that rule |
| `Idempotency.Abort` | src/pyswitch/idempotency.py:73-80 | aborting keeps that rule |
| `Idempotency.MemoryIdempotencyCoordinator.constructor` | src/pyswitch/idempotency.py:35-39 | starts with no records and no events |
| `Idempotency.MemoryIdempotencyCoordinator.AcquirePass` | src/pyswitch/idempotency.py:48-61 | the decision and the new dictionaries |
| `Idempotency.MemoryIdempotencyCoordinator.CompleteClaim` | src/pyswitch/idempotency.py:63-71 | fails iff the claim is missing or has another fingerprint; otherwise records the payment and sets the event |
| `Idempotency.MemoryIdempotencyCoordinator.AbortClaim` | src/pyswitch/idempotency.py:73-80 | deletes a pending claim of that fingerprint and sets its event, otherwise changes nothing |
| `PaymentStore.InMemoryPaymentStore.constructor` | src/pyswitch/store.py:12-17 | starts empty |
| `PaymentStore.InMemoryPaymentStore.GetByIdempotency` | src/pyswitch/store.py:19-22 | the payment indexed under the key, if any |
| `PaymentStore.InMemoryPaymentStore.AppendEvents` | src/pyswitch/store.py:37-40 | afterwards exactly the old and the given events are there; the order is the old one followed by the new events in order of first mention |
| `PaymentStore.InMemoryPaymentStore.SaveWithEvents` | src/pyswitch/store.py:29-35 | payment, key index and events change together: the key finds this payment, and every given event is there, in order |
| `PaymentStore.InMemoryPaymentStore.Unsent` | src/pyswitch/store.py:42-44 | the first unpublished events in insertion order |
| `PaymentStore.InMemoryPaymentStore.MarkPublished` | src/pyswitch/store.py:46-49 | marks known ids only |
| `CreateInvariant.SameHolder` | src/pyswitch/idempotency.py:51-54 | two tasks that hold claims on one key are one task |
| `CreateInvariant.MoveKeepsInv` | src/pyswitch/service.py:270-346 | every move of every task, interruptions included, keeps the protocol invariant |
| `CreateInvariant.RunKeepsInv` | src/pyswitch/service.py:270-346 | the invariant holds after every run |
| `CreateTheorems.IdempotentCreate` | src/pyswitch/service.py:270-346 | in every reachable state: one claim holder and one stored payment per key, completed records name that payment with its fingerprint, every returned payment is that one, none is missing |
| `CreateAnswers.MoveKeepsAnswers` | src/pyswitch/service.py:270-346 | every move of every task keeps the law that ties answers and stored payments to a log of what happened to each task |
| `CreateAnswers.WhatCreateAnswers` | src/pyswitch/service.py:275-346 | for every task nothing disturbed: once over it raised iff it was turned away (key taken by another request, no healthy provider, unexpected provider exception) or its own payment is stored as failed, and else returned the payment of its request; a stored own payment is returned iff it succeeded; a task that found its payment there returns it |
| `CreateAnswers.ReturnsSuccess` | src/pyswitch/service.py:306-321 | disturbed or not, no task returns its own payment unless it succeeded |
| `CreateAnswers.StoredIsFaithful` | src/pyswitch/service.py:299-339 | every stored payment tells, in order and with codes, of exactly the provider calls its task made, along the chosen provider first and then the other healthy ones, and names a provider iff it succeeded |
| `CreateAnswers.FaithfulProvider` | src/pyswitch/service.py:306-308 | the provider stored with a succeeded payment is the last one called, and the call charged |
| `CreateAnswers.RouteIsMoved` | src/pyswitch/service.py:301 | the candidates are the chosen provider and then the other healthy ones in their order |
| `CreateAnswers.StepCalls` | src/pyswitch/service.py:201-258 | one run of the inner operation adds to the history exactly the call it made |
| `CreateTheorems.CompleteAlwaysFindsClaim` | src/pyswitch/idempotency.py:66-69 | complete never raises "claim is missing" inside create |
| `CreateTheorems.PaymentNeverChanges` | src/pyswitch/store.py:29-35 | no move of create changes a stored payment: it keeps its id, the status it was saved with and its attempts in every continuation |
| `CreateTheorems.NoLostWakeup` | src/pyswitch/idempotency.py:48-80 | a blocked waiter's event is set, or the very claim it saw is pending and, unless its abort was interrupted, another task is at work on it |
| `CreateTheorems.NeverStuck` | src/pyswitch/idempotency.py:48-61 | an unfinished task can make a move, or waits for a claim holder that can, unless an interrupted abort leaked that claim |
| `CreateTheorems.LiveChargesCoincide` | src/pyswitch/service.py:303-321 | two successful charges on one key, neither lost, are the same charge |
| `CreateTheorems.ChargedOnce` | src/pyswitch/service.py:303-339 | with no charge lost, a key is charged at most once over all tasks, retries and providers, and exactly when its stored payment was saved as SUCCEEDED |
| `CreateTheorems.ChargesBalance` | src/pyswitch/service.py:303-346 | in every run the charges on a key number the lost ones plus one iff its payment is saved as SUCCEEDED or being saved; at most one iff none was lost, or one was and no such payment exists |
| `CreateTheorems.StoredHistory` | src/pyswitch/service.py:260-268 | every stored payment, in every run, carries a well-formed attempt history over configured providers, empty only if it failed, with SUCCEEDED exactly at the end of a succeeded one |
| `CreateTheorems.InterruptedSaveChargesTwice` | src/pyswitch/service.py:340-346 | for every key there is a run with two charges, the first one lost to an interruption before the save |
| `WeightedRoundRobin.ProviderRouter.WeightedRoundRobin` | src/pyswitch/routing.py:228-240 | the selected provider and the new current values |
| `WeightedRoundRobin.BestIsFirstMaximum` | src/pyswitch/routing.py:237-238 | the selection is the first provider with the highest score |
| `WeightedRoundRobin.PickAt` | src/pyswitch/routing.py:235-239 | what a pick adds to and takes from each provider, offered or not |
| `WeightedRoundRobin.PickConserves` | src/pyswitch/routing.py:228-240 | a call with any subset of the providers leaves the sum of current values unchanged |
| `WeightedRoundRobin.AlwaysSumsToZero` | src/pyswitch/routing.py:228-240 | over every sequence of calls, subsets and weights the current values sum to zero |
| `Fairness.RouterIsFair` | src/pyswitch/routing.py:228-240 | the router makes a schedule: everyone gains its weight, a leader is chosen and pays the total |
| `Fairness.LagBounded` | src/pyswitch/routing.py:225-240 | with changing weights in [0.05, 1] every current value stays between -(n - 1) and (n - 1) squared |
| `Fairness.LagIsShareLessService` | src/pyswitch/routing.py:235-239 | the current value is the share a provider was entitled to less the service it had |
| `Fairness.NoStarvation` | src/pyswitch/routing.py:225-240 | among any 20 n (n - 1) + 1 consecutive picks every provider is chosen |
| `Fairness.ExactCycles` | src/pyswitch/routing.py:225-240 | with fixed weights a(p) units each, after j times the total every provider was picked exactly j * a(p) times and all current values are zero |
| `Fairness.RouterLag` | src/pyswitch/routing.py:225-240 | the lag bounds and freedom from starvation, for the router itself |
| `Fairness.MeasuredRouterIsFair` | src/pyswitch/routing.py:225-240 | the same for weights measured from arbitrary report histories: no assumption on the weights is left |
| `Fairness.MeasuredWeightIsShare` | src/pyswitch/routing.py:225-226 | the weight the router uses, in terms of the reports: the share of successes among the newest ones, at least 0.05, and 1 before any report |
| `Fairness.MeasuredWeightMonotone` | src/pyswitch/routing.py:225-226 | a success reported in place of a failure never lowers it |
| `Fairness.RouterCycles` | src/pyswitch/routing.py:225-240 | the exact cycle, for the router itself |
| `ProviderStats.Stats.constructor` | src/pyswitch/routing.py:100-108 | starts with an empty window and zero counters |
| `ProviderStats.Stats.Start` | src/pyswitch/routing.py:110-111 | one more request in flight, nothing else |
| `ProviderStats.Stats.Finish` | src/pyswitch/routing.py:113-126 | after any reports the window is exactly the newest of them, successes and failures add up to the total and count the reports, timeouts are among the failures |
| `ProviderStats.Stats.Trim` | src/pyswitch/routing.py:125-126 | dropping from the left leaves the newest observations |
| `ProviderStats.Stats.Weight` | src/pyswitch/routing.py:225-226 | the number of successes in the window over its length, at least 0.05, and 1 for an empty window |
| `ProviderStats.WeightIsSuccessShare` | src/pyswitch/routing.py:128-130 | the same for every window, by the cardinality of the set of its successes |
| `ProviderStats.WeightMonotone` | src/pyswitch/routing.py:128-130 | successes in place of failures never lower the weight |
| `ProviderStats.WindowAt` | src/pyswitch/routing.py:124-126 | what the window holds at each place after any reports, latencies clipped at zero |
| `ProviderStats.SucceededIsCardinality` | src/pyswitch/routing.py:116-118 | the success counter is the number of successful reports |
| `ProviderStats.TimedOutIsCardinality` | src/pyswitch/routing.py:120-123 | the timeout counter is the number of failed reports with a timeout |
| `ProviderStats.RateBounds` | src/pyswitch/routing.py:128-130 | the success rate lies between 0 and 1 |
| `ProviderStats.WeightBounds` | src/pyswitch/routing.py:225-226 | every window has a weight between 0.05 and 1 |
| `ProviderStats.P95IsNearestRank` | src/pyswitch/routing.py:140-145 | p95 is an observed latency with at least ceil(0.95 n) at or below it and fewer strictly below |
| `TokenBucket.InMemoryTokenBucketLimiter.constructor` | src/pyswitch/rate_limit.py:28-35 | no merchant has a bucket yet |
| `TokenBucket.InMemoryTokenBucketLimiter.ConsumeFor` | src/pyswitch/rate_limit.py:37-49 | the decision, and the only bucket that changes |
| `TokenBucket.TokensStayBounded` | src/pyswitch/rate_limit.py:37-49 | over every trace tokens stay between zero and capacity |
| `TokenBucket.WindowBound` | src/pyswitch/rate_limit.py:37-49 | in any interval [s, t] of any trace a merchant is allowed at most capacity + refill * (t - s) requests, whatever other merchants do |
| `TokenBucket.PollsAreFree` | src/pyswitch/rate_limit.py:39-48 | rejected polls and other merchants' traffic leave the later token count unchanged |
| `TokenBucket.RetryAfterExact` | src/pyswitch/rate_limit.py:45-47 | the delay (Retry-After, section 10.2.3 of RFC 9110) is sound and least: at or after it a request is allowed, one second before it is not |
| `TokenBucket.RemainingIsExact` | src/pyswitch/rate_limit.py:42-47 | the remaining count is exactly how many more requests would be allowed at once |
| `TokenBucket.IdleGrants` | src/pyswitch/rate_limit.py:40-44 | after any idle time a bucket grants at once exactly the whole tokens left and earned, up to capacity; a merchant never seen gets its capacity |
| `TokenBucket.DecisionFields` | src/pyswitch/rate_limit.py:42-47 | the limit is the capacity, the delay is zero iff allowed, and a rejection has nothing remaining |
| `TokenBucket.ExpiryIsUnobservable` | src/pyswitch/rate_limit.py:74 | a bucket idle for its time-to-live is full, as a missing key would be |
| `TokenBucket.ScriptAgrees` | src/pyswitch/rate_limit.py:55-76 | on corresponding states the script and the in-memory limiter decide alike and correspond again |
| `TokenBucket.RedisRefinesMemory` | src/pyswitch/rate_limit.py:55-76 | on every trace, expiry included, both give the same decisions, remaining counts and delays |
| `RefundLedger.Payment.constructor` | src/pyswitch/domain.py:38-54 | a payment starts with nothing refunded |
| `RefundLedger.Payment.Refund` | src/pyswitch/service.py:356-371 | done iff status, provider and acknowledgement allow it and the amount asked for is between 1 and what is left (what is left, if none is given); then exactly that is added, REFUNDED iff nothing is left; otherwise nothing changes |
| `RefundLedger.ValidateExact` | src/pyswitch/service.py:356-366 | which requests pass the checks and for how much |
| `RefundLedger.LockHolds` | src/pyswitch/service.py:352-354 | nothing other tasks do changes a lock holder or the account it holds |
| `RefundLedger.CheckDecides` | src/pyswitch/service.py:355-366 | in every run the provider is called exactly for a refundable request and its amount; any other request ends with no account and no provider total touched |
| `RefundLedger.UninterruptedRefund` | src/pyswitch/service.py:355-372 | between its checks and the acknowledgement, whatever other tasks do, a request without amount brings the payment to fully refunded and REFUNDED, one with an amount adds exactly that |
| `RefundLedger.ApplyKeepsBalance` | src/pyswitch/service.py:366-370 | a checked refund keeps the account balanced |
| `RefundLedger.MoveKeepsInv` | src/pyswitch/service.py:348-372 | every move of every refund task keeps all accounts balanced |
| `RefundLedger.MoneyIsConserved` | src/pyswitch/service.py:348-372 | in every interleaving 0 <= refunded <= amount, refunded is the sum of the recorded positive refunds and of what the provider acknowledged, REFUNDED iff all of it, and the provider executed only the unacknowledged part more |
| `RefundLedger.RefundsAreSerial` | src/pyswitch/service.py:350-352 | at most one task per payment is inside the lock |
| `Outbox.StepKeepsInv` | src/pyswitch/outbox.py:58-77 | every step keeps delivery in order, with publishing and marking failing or cancelled before or after their effect, and concurrent appends |
| `Outbox.RunKeepsInv` | src/pyswitch/outbox.py:58-77 | so does every run from any such state |
| `Outbox.DeliveredInOrder` | src/pyswitch/outbox.py:58-77 | in every reachable state marked events are in the broker log, the log without repeats is a prefix of append order, and no event was published more than max_attempts times since the latest dispatch began |
| `Outbox.AppendIsDedup` | src/pyswitch/store.py:34-40 | appending puts every event behind those there, once, in order of first mention |
| `Outbox.DedupAt` | src/pyswitch/store.py:34-40 | what removing repeats means: each event stands where it first occurs |
| `Outbox.NewEventsQueueUp` | src/pyswitch/store.py:37-44 | new events queue up behind everything unpublished, in the order given |
| `Outbox.DispatchesDeliver` | src/pyswitch/outbox.py:58-77 | from any state of any run on, each dispatch that began and completed since has brought limit more of the events then in the store to the broker |
| `Outbox.IdempotentRecordingConsumer.constructor` | src/pyswitch/consumers.py:15-19 | has seen nothing |
| `Outbox.IdempotentRecordingConsumer.Consume` | src/pyswitch/consumers.py:21-29 | applies an event iff it was not in the log fed so far |
| `Outbox.ConsumeLog` | src/pyswitch/consumers.py:21-29 | a consumer fed any prefix of any run's log has applied each of its events once, in append order |
| `Dispatching.InMemoryBroker.constructor` | src/pyswitch/outbox.py:26-28 | an empty log |
| `Dispatching.InMemoryBroker.Publish` | src/pyswitch/outbox.py:30-33 | the log grows by the event, or not at all |
| `Dispatching.AwaitPublish` | src/pyswitch/outbox.py:64 | a publish step of the machine; the event is with the broker whenever the await took effect, also if it then failed or was cancelled |
| `Dispatching.AwaitMark` | src/pyswitch/outbox.py:65 | a mark step of the machine; a known event is marked whenever the await took effect, also if it then failed or was cancelled |
| `Dispatching.SendOnce` | src/pyswitch/outbox.py:63-70 | publish then mark is a run of the machine, however either await ends; it counts as sent iff both awaits end well, and then the event is marked and with the broker |
| `Dispatching.AttemptOnce` | src/pyswitch/outbox.py:63-74 | one attempt and the backoff after it: sent, failed for good, cancelled or to be retried, as its awaits end |
| `Dispatching.SendAttempts` | src/pyswitch/outbox.py:62-74 | the loop over the attempts ends with the first one that is not retried |
| `Dispatching.SendEvent` | src/pyswitch/outbox.py:61-74 | the event ends up marked and with the broker iff one of its max attempts ends well and those before it were retried without cancellation; the dispatch raises iff all attempts fail with exceptions; a run of the machine either way |
| `Dispatching.Sleep` | src/pyswitch/outbox.py:73-74 | the backoff only lets other tasks append, and ends the dispatch iff cancelled |
| `Dispatching.SendBatch` | src/pyswitch/outbox.py:60-77 | the loop over the batch is a run of the machine; if it comes to its end all of the batch is marked and with the broker, and it does if every event gets through within its attempts |
| `Dispatching.DispatchOnce` | src/pyswitch/outbox.py:58-77 | a dispatch is a run of the machine from rest to rest that takes nothing back; if it returns, the run ends in Finish, the result is the size of the batch, and every event of the batch is marked and with the broker; however it ends, the invariant is kept and no event was published by it more than max_attempts times |
| `Dispatching.WorkReaches` | src/pyswitch/outbox.py:58-77 | at every step of a run, returning dispatches from there on deliver limit events each of those present at that step |
| `Dispatching.Poll` | src/pyswitch/outbox.py:80-88 | one round: a raised dispatch is ignored, a cancelled one or a cancelled wait ends the loop; it continues the run and counts as returned iff it did |
| `Dispatching.PollUntilStopped` | src/pyswitch/outbox.py:80-88 | the loop keeps what one round keeps, and runs all its rounds if every event gets through and nobody stops it |
| `Dispatching.Work` | src/pyswitch/outbox.py:79-88 | from any state that earlier work can leave, with appends during every dispatch and wait, failures and cancellations: the log without repeats stays a prefix of append order and holds every marked event, each dispatch publishes an event at most max_attempts times, every dispatch that returns brings limit more events to the broker, of those found at the start and of those that arrived at any step since, and all dispatches return whose events get through within their attempts |
| `Dispatching.WorkFromScratch` | src/pyswitch/outbox.py:79-93 | the safety part for a worker started on an empty store and broker |

## Left out

- HTTP routes, settings, metrics, logging, scripts and dashboards: plumbing.
- The Redis idempotency coordinator: its claims expire and its `complete` and `abort` do not check ownership, so exclusivity rests on timing.
- The SQL repository, migrations and the Kafka broker: they depend on database and broker semantics outside this code.
- Composite, lowest-latency and highest-success-rate routing and plain round robin: only easy members, and composite scores need real powers.
- `RetryPolicy.delay_for`: backoff length is arbitrary in the model, which is more general than its jitter arithmetic.
- Provider semaphores and in-flight gauges under cancellation.
- SHA-256 and JSON canonicalisation: no freedom from collisions is claimed, and Redis keys stand for merchants.
- Floating-point rounding, and the decimal text Redis stores: numbers are exact reals.
- A provider call cancelled in flight counts as no successful call, although the provider may have charged.
- Event payloads and the choice of event types in `create` and `refund`; only their order in the outbox is modelled.
- The wake-up order of asyncio locks and events: nothing here depends on fairness, and no liveness is claimed beyond freedom from deadlock and the progress of returning dispatches.
