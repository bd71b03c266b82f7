# Verified model of the LLM gateway

The gateway sits between tenants and a model provider.  Every chat request passes a
kill switch, a per-tenant rate limit, a model allowlist and an input guardrail; then it is
answered from a response cache, or by a router that tries a primary model and its certified
fallbacks behind per-model circuit breakers, each call with retries; the answer passes an
output guardrail and is cached.  Streams take a shorter path.  Administrators change a
tenant's state, which bumps the tenant's policy epoch.

This project models those state machines in Dafny and proves what they promise over whole
runs, alone and composed.

| File | Contents |
|---|---|
| `RateLimiter.dfy` | token bucket; the window rule it is equal to; its bounds; the class |
| `CircuitBreaker.dfy` | breaker; the history it refines; the retry-storm bound; the class |
| `PolicyStore.dfy`, `PolicyCache.dfy` | versioned policies and epochs; the snapshot cache, on the event loop and between threads |
| `ResponseCache.dfy`, `CacheKey.dfy`, `Json.dfy` | LRU and TTL cache against its history; the canonical key text and a decoder for it |
| `BedrockClient.dfy`, `Router.dfy` | retry loop and stream fold; fallback loop driving the breakers |
| `Sse.dfy`, `Streaming.dfy` | event-stream framing and a parser for it; the streaming generator |
| `Pipeline.dfy` | effective limit, allowlist, fail-closed guardrail |
| `Gateway.dfy` | the whole gateway as an event loop: one step per stretch of code between two waits |
| `GatewayRuns.dfy`, `Outcomes.dfy`, `CacheProvenance.dfy`, `KillSwitch.dfy`, `TenantLoad.dfy`, `Histories.dfy`, `StreamRuns.dfy`, `RetryStorm.dfy`, `BrokenStreams.dfy` | what holds in every run |
| `Handlers.dfy` | the handlers over the mutable objects, each proved to be its step of `Gateway.dfy` |

How the parts fit: each source class that changes its fields is a Dafny class whose methods
are proved equal to a pure function of the old value (`Serve`, `Permit`, `Get`, `Set`, ...).
The theorems are about sequences of those functions, and `Gateway.dfy` composes the same
functions, so a theorem about a run is a theorem about the methods.  Everything the program
cannot foresee - the order of steps, clock readings, request bodies, guardrail verdicts,
upstream replies, disconnections - is an input, and the theorems quantify over all of it.

## Where the code differs from its documentation

The model follows the code.

- `services/gateway/routing/circuit_breaker.py:59-61` promises one trial call in HALF_OPEN.  The code admits every call
  until an outcome is recorded (`Breaker.HalfOpenAdmitsAll`); the state therefore carries no
  information beyond the failures (`Breaker.AllowIffHistory`).
- `services/gateway/policy/cache.py:11-12` promises a stale lifetime of at most `ttl_s`.  The
  stamp is taken after the store was read, so the bound is `ttl_s` plus that delay
  (`PolicyThreads.BoundedStaleness`).  Every run with fetches no slower than d keeps the
  documented bound if and only if d is 0 (`PolicyThreads.DocumentedBoundIffNoDelay`): a fetch
  that straddles an invalidation reinstalls the old snapshot, which is then served more than
  `ttl_s` after the store had it last (`PolicyThreads.StraddlingServesTooOld`).
- `services/gateway/pipeline.py:132-135` says a blocked tenant's request must never reach the
  model.  It holds for every request that arrives after the flip
  (`KillSwitch.KillSwitchHolds`).  A blocking flip stops every further upstream call of its
  tenant, whatever follows short of unblocking it, if and only if at the flip none of the
  tenant's requests is past the gate and waiting for its body or for its stream's first pull
  (`KillSwitch.KillSwitchExact`).
- A retry storm is bounded only if streams do not end without an outcome.  A stream whose
  client leaves has made its upstream call and leaves its circuit as it was, HALF_OPEN
  included (`services/gateway/streaming.py:51-53,73-74`, `BrokenStreams.BreaksOffFreely`): for
  every k some run makes k such calls in one instant, one stream at a time
  (`BrokenStreams.BrokenStreamsUnbounded`).  The limit holds in every stretch of every run in
  which a model only fails if and only if its streams are never broken off, or none is ever
  open (`BrokenStreams.StormLimitIffNeverBroken`); otherwise each broken-off stream adds one
  admission and no more (`RetryStorm.RunStormBound`).
- The limiter's plain bound L + L*T/60 needs calls in clock order, because the clock is read
  outside the lock (`services/gateway/policy/rate_limiter.py:38`).  `RateLimiter.AdmissionIsWindowRule` is the exact rule for any
  readings.  The plain bound holds in every run whose readings step back by at most d in
  all if and only if d is 0 or the limit lets nothing through
  (`RateLimiter.PlainBoundIffNoJumps`): at any limit of at least one, a step back as short
  as you like is enough to break it (`RateLimiter.OutOfOrderExceedsPlainBound`).
- `max(1, rpm_limit // 5)` raises the limit of a tenant whose limit is below one
  (`Pipeline.ThrottlingNeverRaises`).
- A request may be served by a model outside its tenant's route set, because only fallbacks
  come from the set and the set's own primary is never read
  (`services/gateway/routing/router.py:93-94`).  All candidates are models of the set if and
  only if the resolved model is; without a configured set that model is alone and in no set
  (`Router.CertifiedIffPrimaryIs`).  A requested model that the tenant's list allows is
  called first even when it is outside the set (`GatewayRuns.UncertifiedModelIsCalled`, with an instance in
  `GatewayRuns.OutsideTheRouteSet`).
- A failure threshold below one acts as one (`Breaker.RefinesHistory`).

## Model

| member | source | states |
|---|---|---|
| RateLimiter.AdmissionIsWindowRule | services/gateway/policy/rate_limiter.py:33-53 | for any limits and any clock readings, a call is admitted if and only if every window ending at it still has room: the incremental bucket is the declarative rule |
| RateLimiter.BucketIsSmallestRoom | services/gateway/policy/rate_limiter.py:41-48 | the refilled bucket is the minimum, attained, of the room left over all windows |
| RateLimiter.FixedLimitRule | services/gateway/policy/rate_limiter.py:33-53 | at a fixed limit L with a clock in order, call k is admitted iff admitting it keeps every window within L + L*T/60 |
| RateLimiter.AdmittedIffFits | services/gateway/policy/rate_limiter.py:33-53 | the same in plain arithmetic: call k is admitted iff the limit is positive and 60 * (admitted + 1) <= L * (60 + T) for every window; a limit of zero or less admits nothing |
| RateLimiter.WindowBound | services/gateway/policy/rate_limiter.py:33-53 | no window admits more than a full bucket plus its refills, however limits and clock move |
| RateLimiter.LargestLimitGoverns | services/gateway/policy/rate_limiter.py:36-53 | no sequence of limit changes beats its largest limit; from the first throttled call on, the throttled one |
| RateLimiter.OutOfOrderBound | services/gateway/policy/rate_limiter.py:38-48 | with arbitrary clock readings, admissions are within L + (L/60)*(span + all backward jumps) |
| RateLimiter.OutOfOrderExceedsPlainBound | services/gateway/policy/rate_limiter.py:38-48 | for every limit L of at least one and every jump of at most 30/L seconds, however short, a run whose readings step back by that jump in all admits more than L + L*T/60 |
| RateLimiter.PlainBoundIffNoJumps | services/gateway/policy/rate_limiter.py:36-53 | every fixed-limit run whose readings step back by at most d in all keeps the plain bound in every window if and only if d = 0 or the limit is at most 0 |
| RateLimiter.TokensStayInRange | services/gateway/policy/rate_limiter.py:46-51 | tokens stay within [0, capacity] for any clock |
| RateLimiter.NonInterference | services/gateway/policy/rate_limiter.py:40-53 | in any interleaving the answer to a tenant is the one it gets with all other tenants' calls removed |
| RateLimiter.TokenBucketRateLimiter.Allow | services/gateway/policy/rate_limiter.py:33-53 | the method serves the tenant's bucket as the specification does and changes no other tenant's |
| Breaker.RefinesHistory | services/gateway/routing/circuit_breaker.py:58-83 | state, counter and opening time are determined by trailing failures, last failure and probes since; not CLOSED iff trailing failures reach the threshold |
| Breaker.AllowIffHistory | services/gateway/routing/circuit_breaker.py:58-69 | with a clock in order, allow answers yes iff trailing failures are below the threshold or the timeout has passed since the last failure |
| Breaker.AllowAnyClock | services/gateway/routing/circuit_breaker.py:58-69 | the exact answer for any clock readings |
| Breaker.HalfOpenAdmitsAll | services/gateway/routing/circuit_breaker.py:64-69 | after one admitted probe every further call passes until an outcome is recorded |
| Breaker.AnswerIffOwnHistory | services/gateway/routing/circuit_breaker.py:51-83 | over calls on any models, the answer for a model depends on its own events alone, and is the rule above |
| Breaker.NonInterference | services/gateway/routing/circuit_breaker.py:51-56 | a model's entry is what its own events make it |
| Breaker.RetryStormBound | services/gateway/routing/circuit_breaker.py:58-83 | a model whose every admitted call fails, at most N in flight, is admitted at most threshold - 1 + N + N*floor(T/timeout) times in any window of length T |
| Breaker.SequentialStormBound | services/gateway/routing/circuit_breaker.py:58-83 | the same for one call at a time: threshold + floor(T/timeout) |
| Breaker.CircuitBreaker.Allow | services/gateway/routing/circuit_breaker.py:58-69 | answer and new state are the specification's; other models unchanged |
| Breaker.CircuitBreaker.RecordSuccess | services/gateway/routing/circuit_breaker.py:71-75 | the model's circuit reacts to a success; others unchanged |
| Breaker.CircuitBreaker.RecordFailure | services/gateway/routing/circuit_breaker.py:77-83 | the model's circuit reacts to a failure; others unchanged |
| Breaker.CircuitBreaker.Get | services/gateway/routing/circuit_breaker.py:51-56 | an unknown model gets a fresh closed circuit of its own |
| Breaker.CircuitBreaker.StateOf | services/gateway/routing/circuit_breaker.py:85-87 | the state of the model's own circuit |
| PolicyStore.EpochNamesPolicy | services/gateway/policy/store.py:52-56 | over any flips a tenant's epoch never decreases, equal epochs mean the same policy, and nothing but state and epoch changes |
| PolicyStore.EpochCounts | services/gateway/policy/store.py:52-56 | the epoch is the first one plus the number of the tenant's flips; without a flip nothing of the policy changes |
| PolicyStore.LastFlipWins | services/gateway/policy/store.py:52-56 | the tenant's last flip decides its state, whatever came before and whichever other tenants are flipped after |
| PolicyStore.InMemoryPolicyStore.SetState | services/gateway/policy/store.py:52-56 | new state and epoch plus one for a known tenant; an unknown one changes nothing and is reported |
| PolicyCache.PolicySnapshotCache.Get | services/gateway/policy/cache.py:48-60 | hit within the time to live, else fetch, stamp and install; an unknown tenant leaves the cache alone |
| PolicyCache.PolicySnapshotCache.Invalidate | services/gateway/policy/cache.py:62-66 | evicts the tenant's snapshot and no other |
| PolicyCache.SnapshotServes | services/gateway/policy/cache.py:48-66 | after a fetch, a second get returns the first one's policy while the stamp is younger than the time to live, even if the store has changed, and the store's own from then on or after an invalidation |
| PolicyThreads.BoundedStaleness | services/gateway/policy/cache.py:48-66 | for every interleaving of lock regions, store accesses and invalidations, a returned policy was the store's value less than ttl + delay ago, within delay when just fetched |
| PolicyThreads.UninterruptedGet | services/gateway/policy/cache.py:48-60 | a get whose three regions nothing interrupts is the whole fetch of the event-loop model: the finer model refines the coarser one |
| PolicyThreads.LostInvalidation | services/gateway/policy/cache.py:54-66 | the invalidation that lands between read and install is lost: the store has the new policy from then on, and the old one is served for any time short of ttl + delay |
| PolicyThreads.StraddlingServesTooOld | services/gateway/policy/cache.py:54-66 | for every positive delay, a run in which a policy is returned more than ttl after the store had it last |
| PolicyThreads.DocumentedBoundIffNoDelay | services/gateway/policy/cache.py:48-66 | in every run with fetches no slower than d each returned policy was the store's at most ttl ago, iff d = 0 |
| ResponseCache.RecencyOrder | services/gateway/cache/store.py:47-64 | after any history the dictionary lists distinct keys in order of last use, at most max_entries of them, each with its latest write |
| ResponseCache.HitIsLatestWrite | services/gateway/cache/store.py:47-57 | a hit is the latest write of its key, younger than the time to live counted from the write |
| ResponseCache.GuaranteedHit | services/gateway/cache/store.py:47-64 | a key in time hits unless at least max_entries other keys were used since its own last use |
| ResponseCache.ReadRule | services/gateway/cache/store.py:47-57 | a read hits iff its key is there and in time; it takes its key out iff that is out of time, and no other key |
| ResponseCache.MissLeavesOut | services/gateway/cache/store.py:49-55 | a read that does not hit leaves its key out of the cache |
| ResponseCache.WriteRule | services/gateway/cache/store.py:59-64 | after a write a key is there iff it was there or was written and fewer than max_entries keys that are there were used later |
| ResponseCache.PresentIff | services/gateway/cache/store.py:47-64 | which keys are there after any history: those that were used and that no operation since their last use took out, be it a late read or a write with max_entries newer keys there |
| ResponseCache.EvictionDropsOldest | services/gateway/cache/store.py:63-64 | eviction keeps exactly the max_entries most recent keys, values untouched |
| ResponseCache.InMemoryResponseCache.Fetch | services/gateway/cache/store.py:47-57 | miss, expiry with deletion, or hit with move to the end, as the read step of the histories above |
| ResponseCache.InMemoryResponseCache.Put | services/gateway/cache/store.py:59-64 | the write and the eviction loop, as specified |
| CacheKey.KeyIsUnambiguous | services/gateway/cache/keys.py:37-51 | two requests have one canonical text iff they agree on tenant, application, model, parameters, guardrail, epoch, messages and route set, where none, an empty one and "default" are one route set |
| Json.DumpsInverts | services/gateway/cache/keys.py:50 | a decoder recovers any printed value and the text after it, strings escaped per section 7 of RFC 8259 |
| BedrockClient.RetryContract | services/gateway/inference/bedrock_client.py:151-186 | only retryable failures are retried, retry_count is the failures before the success, a non-retryable code stops at once, a retryable error means all calls were spent |
| BedrockClient.RetryOutcome | services/gateway/inference/bedrock_client.py:151-186 | when the attempts before attempt k failed with a transient code, its reply is the result with k retries and k + 1 calls; its error is raised, with its code, unless it is transient and a retry is left |
| BedrockClient.RetryEnds | services/gateway/inference/bedrock_client.py:151-183 | some attempt within max_retries is not transient or is the last permitted one |
| BedrockClient.SleepIs | services/gateway/inference/bedrock_client.py:184-186 | the sleep after failure i + 1 is its random share of base * 2^i |
| BedrockClient.TotalBackoff | services/gateway/inference/bedrock_client.py:184-186 | the sleeps of one call, whatever the jitter, within base * (2^max_retries - 1) |
| BedrockClient.BackoffAttained | services/gateway/inference/bedrock_client.py:184-186 | and that bound is attained: with every retry spent and jitter 1 the sleeps are exactly base * (2^max_retries - 1) |
| BedrockClient.Client.Invoke | services/gateway/inference/bedrock_client.py:139-186 | the loop ends with the specified result, at most max(0, max_retries) + 1 calls, and exactly the sleeps that jitter and back-off give |
| BedrockClient.ConverseStream | services/gateway/inference/bedrock_client.py:214-239 | the chunks are the non-empty deltas in order, then, unless the stream broke, one final chunk with the stop reason of the last messageStop event and the input and output tokens of the last metadata event, none where there was no such event |
| BedrockClient.FinalChunkEnds | services/gateway/inference/bedrock_client.py:214-239 | the final chunk carries the last messageStop's reason and the last metadata's two counts, each in its own place |
| BedrockClient.DeltasJoin | services/gateway/inference/bedrock_client.py:218-223 | texts come through event by event: each non-empty delta adds exactly its own text in its place, no other event adds any |
| Router.RouteContract | services/gateway/routing/router.py:96-113 | the result is that of the first candidate let through that answers; else the last error raised; else every circuit refused |
| Router.CandidatesCertified | services/gateway/routing/router.py:73-94 | primary first, then exactly the fallbacks in the set's own configured list that are other models, in that order and as often; none without a configured set |
| Router.VisitOutcome | services/gateway/routing/router.py:98-109 | what a candidate that is let through meets, attempt by attempt: its first reply serves, its last or lasting error counts against it, with the calls made |
| Router.FallbackIffOtherModel | services/gateway/routing/router.py:109 | fallback is set iff the serving model is not the primary |
| Router.UnavailableIffNoCall | services/gateway/routing/router.py:111-113 | AllRoutesUnavailable iff no upstream call was made |
| Router.RouterBudget | services/gateway/routing/router.py:97-109 | upstream calls of the whole loop within candidates * (retries + 1) |
| Router.RouterBackoff | services/gateway/routing/router.py:97-109 | time slept in the whole loop within candidates * base * (2^max_retries - 1) |
| Router.BudgetsAttained | services/gateway/routing/router.py:97-109 | both budgets are attained by a loop whose every call fails for a moment, with jitter 1 |
| Router.CertifiedIffPrimaryIs | services/gateway/routing/router.py:73-94 | all candidates are models of the route set iff the resolved primary is; without a configured set the primary is alone and in none |
| Router.LoopExtendsHistory | services/gateway/routing/router.py:97-108 | the breaker after the loop is the breaker of the history extended by the loop's probes and outcomes |
| Router.SkippedIffOwnHistory | services/gateway/routing/router.py:98-99 | a candidate is skipped iff its own history, earlier candidates of this loop included, is over the threshold and within the timeout |
| Router.CertifiedRouter.Try | services/gateway/routing/router.py:98-109 | one candidate: ask, call with retries, record; visit, circuits and time slept as specified |
| Router.CertifiedRouter.Call | services/gateway/routing/router.py:79-113 | outcome, number of upstream calls, time slept and final circuits of the loop |
| Sse.FrameRoundTrip | services/gateway/streaming.py:97-102 | parsing a frame per section 9.2.6 of the WHATWG HTML standard dispatches exactly its event, whatever follows |
| Sse.WireRoundTrip | services/gateway/streaming.py:97-102 | parsing the concatenated frames recovers the event sequence |
| Sse.DataRoundTrip | services/gateway/streaming.py:101 | the event's data decodes to the frame's JSON value |
| Sse.DataByName | services/gateway/streaming.py:61-87 | each part of a frame is found in its JSON under its own name |
| Streaming.StreamAccounting | services/gateway/streaming.py:49-74 | deltas sent are a prefix of the upstream's non-empty ones; an outcome is recorded exactly when the upstream's end was reached, and then all were sent |
| Streaming.StreamCloses | services/gateway/streaming.py:49-87 | which closing frames and which outcome go with completion, upstream error, disconnection and cancellation |
| Streaming.PlayIs | services/gateway/streaming.py:49-87 | a run, exactly: the texts of the chunks that get through, then what the first that does not get through, or the upstream's end, makes of it: frames, recorded outcome, chunks pulled |
| Streaming.RunStops | services/gateway/streaming.py:49-58 | every run stops at some chunk or at the end, so the one above speaks of all |
| Streaming.UpstreamToClient | services/gateway/streaming.py:49-102 | the text that a client parses from the wire and decodes from the events' JSON is a prefix of the text upstream sent, all of it when its end was reached; the last event of a completed run decodes to the reason of the last messageStop and the input and output tokens of the last metadata event, null where there was none |
| Streaming.AdvanceKeepsForecast | services/gateway/streaming.py:49-102 | resuming the generator where it waits brings it nearer to its end and never changes what its whole play is |
| Streaming.StreamChatResponse | services/gateway/streaming.py:35-87 | frames, chunks pulled and recorded outcome as specified; the source is closed on every exit |
| Streaming.Pump | services/gateway/streaming.py:50-58 | the chunk loop stops with the frames, final chunk and reason that the specification gives |
| Pipeline.StrictNeverBypasses | services/gateway/guardrails/fail_closed.py:39-44 | a guardrail with "strict" anywhere in its name, each letter in either case, never lets a failed check through |
| Pipeline.FailsClosed | services/gateway/guardrails/fail_closed.py:32-66 | a text goes on iff its check allowed it, or could not be made and the tenant opted in with a guardrail whose name mentions low and not strict, in any case |
| Pipeline.ThrottledIsAFifth | services/gateway/pipeline.py:146-147 | a throttled tenant's limit is a fifth of its own, rounded down, and at least one |
| Pipeline.ResolvedModel | services/gateway/pipeline.py:162-173 | the model named if the list allows it, else refusal; with none named the first of the list, or the gateway's own when the list is empty |
| Pipeline.ThrottlingNeverRaises | services/gateway/pipeline.py:145-147 | the throttled limit is at most the active one iff rpm_limit >= 1; no state exceeds max(1, rpm_limit) |
| GatewayRuns.PolicyPlane | services/gateway/api/admin_routes.py:70-77 | in every run the store is the start with the completed flips, and no snapshot is ever behind it |
| GatewayRuns.SeesCompletedFlips | services/gateway/pipeline.py:122-139 | every request is judged by exactly the policy that the flips completed before its arrival leave, and blocked iff that policy is Suspended or EmergencyBlock |
| GatewayRuns.EpochDiscipline | services/gateway/policy/store.py:52-56 | successive snapshots of a tenant have nondecreasing epochs, one epoch is one policy, and a flip in between raises the epoch |
| GatewayRuns.RepliesShowCalls | services/gateway/api/routes.py:77-350 | in every run a request that has ended started no upstream call iff its reply is a denial at the gate, a bad body, a forbidden model, a rejected input, an open circuit, a cache hit or all routes unavailable |
| GatewayRuns.CompleteWithinBudget | services/gateway/api/routes.py:231-237 | one request makes at most (1 + fallbacks) * (max_retries + 1) upstream calls |
| GatewayRuns.CompleteWithinBackoff | services/gateway/api/routes.py:231-237 | one request's router sleeps at most (1 + fallbacks) * base * (2^max_retries - 1) |
| GatewayRuns.RepliesHaveReasons | services/gateway/api/routes.py:98-283 | in every run the reply to a request that was let in says what happened when it was resumed: bad body, forbidden model, input or output not let through by the fail-closed guardrail, in that order |
| GatewayRuns.UncertifiedModelIsCalled | services/gateway/routing/router.py:93-103 | a requested model outside the route set that the tenant's list allows, its input let through by the guardrail and its circuit letting calls through, comes first in the router's loop and is called when the cache misses |
| GatewayRuns.AlwaysProper | services/gateway/api/routes.py:77-163 | in every state of every run each request has asked or called only after the gate admitted it and the stages before let it through |
| CacheProvenance.HitProvenance | services/gateway/api/routes.py:179-188 | a hit returns, within the time to live, the answer an earlier request of the same tenant, application, model, parameters and messages got under a policy equal in every field, through its output guardrail |
| CacheProvenance.FreshProvenance | services/gateway/api/routes.py:260-295 | an answer that is cached is word for word a completion that one of the request's own candidates gave, and its text is what the output guardrail judged |
| CacheProvenance.AlwaysWritten | services/gateway/api/routes.py:286-295 | every entry of the cache was written by a request that called upstream and passed its output guardrail |
| KillSwitch.KillSwitchHolds | services/gateway/api/routes.py:86-99 | between a flip to Suspended or EmergencyBlock and the next flip to another state, arriving requests do nothing, and any new upstream call is by a request that was waiting past the gate |
| KillSwitch.LastFlipGates | services/gateway/policy/models.py:27 | in every run the gate blocks a request iff its tenant's last flip before it was to Suspended or EmergencyBlock; after Active, Throttled or ReadOnly only the limiter decides; nothing but state and epoch has changed |
| KillSwitch.NeverFlippedGate | services/gateway/pipeline.py:122-139 | a tenant that was never flipped is judged by the policy and the state it was provisioned with; one that was not provisioned is turned away |
| KillSwitch.WaitingCanStillCall | services/gateway/api/routes.py:99-166 | conversely each request the flip finds waiting can still start an upstream call |
| KillSwitch.KillSwitchExact | services/gateway/api/routes.py:86-166 | a blocking flip stops every further upstream call of its tenant, in every continuation that does not unblock it, iff at the flip none of its requests is past the gate and waiting for its body or its stream's first pull |
| KillSwitch.NoTokenTaken | services/gateway/pipeline.py:132-152 | the blocked tenant's bucket does not change until it is unblocked |
| KillSwitch.TouchesNothing | services/gateway/api/routes.py:86-91 | steps of requests that arrived after the flip leave limiter, breaker and response cache as they were |
| TenantLoad.TenantLoadBound | services/gateway/api/routes.py:77-237 | requests arriving in a window of length T start at most (L + L*T/60) * (1 + fallbacks) * (max_retries + 1) upstream calls, in any run, for any L that bounds the limits the policies in force leave the tenant there |
| TenantLoad.AnyFlipsLoadBound | services/gateway/api/routes.py:77-237 | so no sequence of flips beats the configured limit (at least 1) |
| TenantLoad.ThrottledLoadBound | services/gateway/pipeline.py:142-152 | and from a throttling flip until it is lifted, a fifth of it, rounded down (at least 1), governs |
| TenantLoad.CallsArePermitted | services/gateway/api/routes.py:77-163 | an upstream call is preceded in its own request by a non-blocking policy in force, a token, an allowed model and an input check let through |
| TenantLoad.AdmittedIffRoom | services/gateway/pipeline.py:142-152 | in every run a request past the kill switch is admitted iff every window of its tenant's own visits has room, its own visit being at its configured limit, or a fifth of it while throttled |
| TenantLoad.LevelsAreCalls | services/gateway/pipeline.py:149 | the limiter in any run is the limiter of its own calls |
| TenantLoad.TokensAreAdmissions | services/gateway/pipeline.py:142-152 | requests admitted in a stretch of a run are the admissions of the tenant's visits in it |
| Histories.CircuitsAreHistory | services/gateway/api/routes.py:154-237 | the breaker in any run is the breaker of its own events in order, so its theorems hold in the composed system |
| Histories.StreamRefusedIffHistory | services/gateway/api/routes.py:154-160 | a stream is refused for an open circuit iff its model's own history is over the threshold and within the timeout |
| Histories.ResponsesAreHistory | services/gateway/api/routes.py:188-295 | the response cache in any run is the cache of its own reads and writes |
| Histories.ResumeMustHit | services/gateway/api/routes.py:188-227 | in any run a resuming request whose key was written in time, with fewer than max_entries other keys used since its own last use, is answered from the cache with the last write |
| Histories.ResumeHitsLatest | services/gateway/api/routes.py:188-227 | in any run an answer from the cache is the last write of its key, in time counted from that write |
| Histories.ResumeHitsIff | services/gateway/api/routes.py:188-227 | in any run a request is answered from the cache iff its key was used, no read or write since took it out, and its last write is in time |
| Histories.CacheIsGood | services/gateway/cache/store.py:47-64 | in any run the cache keeps recency order, size and latest writes |
| StreamRuns.StreamIsPlayed | services/gateway/streaming.py:49-87 | whatever steps come in between, an open stream is on its way to, and a finished one is, the play of the answer its request met |
| StreamRuns.StreamToClient | services/gateway/streaming.py:49-102 | in any run the text a finished stream's client decodes is a prefix of what upstream sent; with an outcome recorded it is all of it, a success iff upstream ended well, and then the last event decodes to upstream's last stop reason and token counts |
| StreamRuns.StreamRecordsOnce | services/gateway/streaming.py:59-74 | a stream's turns give the breaker nothing but, at the last one, the outcome of its play |
| StreamRuns.StreamEnds | services/gateway/streaming.py:49-58 | a stream of k chunks is over once it has had 2k + 2 turns of its own |
| Outcomes.FirstReasonDecides | services/gateway/api/routes.py:98-141 | in any run a request whose body is bad, whose model is forbidden or whose input is not let through is answered with the first of these, and changes nothing |
| Outcomes.PassingAsks | services/gateway/api/routes.py:110-187 | any other request asks for exactly what its sender, policy and body say; with no model named the first of the tenant's list, or the gateway's default when the list is empty |
| Outcomes.StreamIsOpened | services/gateway/api/routes.py:148-177 | a request for a stream gets the stream its upstream answers with, unless its circuit is open |
| Outcomes.ServedIsAnswered | services/gateway/api/routes.py:229-350 | in any run, on a cache miss, the result of the first candidate to serve is the answer word for word, with its model, whatever retries and fallbacks came before, iff the output guardrail lets its text through; held back it is a rejection |
| Outcomes.ReplyAfterRetries | services/gateway/inference/bedrock_client.py:151-186 | attempt by attempt: a reply after transient failures within the retries, by a candidate after others that did not serve, is that answer |
| Outcomes.LastErrorIsAnswered | services/gateway/api/routes.py:238-248 | when no candidate serves, the answer is the error of the last one called |
| Outcomes.AllSkippedIsUnavailable | services/gateway/api/routes.py:249-258 | when every circuit refuses, all routes are unavailable and nothing was called |
| Outcomes.OnlyFreshIsCached | services/gateway/api/routes.py:188-295 | a request reads its key, and writes its answer under it iff the answer is fresh |
| RetryStorm.RunStormBound | services/gateway/routing/circuit_breaker.py:58-83 | in any stretch of any run in which no call to a model succeeds and at most N of its streams are open, a window of length T leads to at most (threshold - 1 + (N+1) + (N+1)*floor(T/timeout) + B) * (max_retries + 1) upstream calls to it, B being its streams that the stretch breaks off |
| RetryStorm.RunCounts | services/gateway/routing/router.py:97-108 | in such a stretch the model's calls in flight are its open streams, and every upstream call is paid for by an admission, counted or lost to a broken-off stream |
| BrokenStreams.BreaksOffFreely | services/gateway/streaming.py:50-74 | in any run a request waiting past the gate can open a stream of a model whose circuit lets calls through, make one upstream call and be left by its client, and the circuit lets the next call through |
| BrokenStreams.BrokenStreamsUnbounded | services/gateway/streaming.py:50-74 | for every k a run with no success, one open stream at a time, a window of length 0 and k upstream calls |
| BrokenStreams.StormLimitIffNeverBroken | services/gateway/streaming.py:50-74 | every stretch in which a model only fails stays within the limit iff its streams are never broken off, or none is ever open |
| Handlers.GatewayApp.Arrive | services/gateway/api/routes.py:77-91 | the handler up to the body is the gate step on the objects' joint state |
| Handlers.GatewayApp.Resume | services/gateway/api/routes.py:98-177 | the handler from the body on is the resume step |
| Handlers.GatewayApp.Answer | services/gateway/api/routes.py:179-295 | cache, router, output guardrail and cache write are the completion step, and sleep what it says |
| Handlers.GatewayApp.Advance | services/gateway/streaming.py:49-74 | a stream's turn, with the outcome it may record, is the advance step |
| Handlers.GatewayApp.SetTenantState | services/gateway/api/admin_routes.py:69-77 | flip and push are one administrative step; an unknown tenant changes nothing |

## Left out

- Authentication and authorisation (JWT, IAM): a request arrives with its identity; one that is turned away before touches no modelled state.
- SHA-256: the canonical text itself is the key, which assumes that digests do not collide.
- Floating point: tokens, clocks and back-off are reals; no claim about IEEE rounding. A temperature is the token that its rendering gives.
- Strings are sequences of Unicode scalar values; lone surrogates, which the request schema rejects, are outside the model. The order of keys in the canonical text is written out rather than sorted.
- The guardrails' regular expressions, the upstream service and the client's network are oracles: a verdict, a reply or a coded error, a disconnection. `converse` is taken to raise only invocation errors.
- Every policy is assumed to stand under its own tenant's name where a theorem says so (`WellKeyed`); `services/gateway/policy/store.py:66-80` builds it that way.
- `max_entries` is taken to be at least 0 and the base back-off at least 0; the retry-storm bound takes a positive reset timeout.
- HTTP status codes, request schema validation, error texts, logging, tracing, cost and SLO figures, debug capture, configuration and YAML loading: no state that the theorems need.
- An answer's latency, cost and fallback flag are not part of the modelled reply; `Router.FallbackIffOtherModel` states the flag where the router sets it.
- Cancellation of a request that waits for its body: such a request just never resumes.
- The response cache and the breaker are shared across tenants by design, so only isolation of values and of the limiter is claimed.
- ResponseCache.GuaranteedHit: one direction only, because a read of an expired key frees a place, so a key may outlive more than max_entries other uses; `ResponseCache.PresentIff` is the exact rule.
- Streaming.StreamChatResponse: is the generator's loop run without other steps at its waits; what other steps in between leave of it is proved of `Streaming.Advance` in `StreamRuns.dfy`.
- RetryStorm.RunStormBound: counts a stream's one upstream call at the step where its circuit lets it through, which may be before its first pull.
- Streaming.UpstreamToClient: the upstream's events are a finite sequence.
