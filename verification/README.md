# Gateway control plane and data plane: a Dafny model

This project models the parts of an L7 gateway whose correctness is hardest to see from the code, and proves
what the gateway relies on about them:

- **Endpoint state shared by configuration generations.** Every apply, rollback or discovery update builds a
  candidate generation, reserves the state of each endpoint it names, swaps the shared states in, and closes
  the old generation later. `Generations.dfy` is one state machine for any number of pools, leases and
  goroutines. Each step is one critical section or atomic access; changing an endpoint and invalidating the
  caches that depend on it are separate steps wherever the code releases the lock in between. One inductive
  invariant (`Generations.Inv`) is shown to hold in every reachable state; the results about slots, caches,
  the registry, cooldown and operator overrides follow from it.
- **Commands from end to end.** `Gateway.dfy` joins the revision history with that machine: building a candidate
  cluster by cluster, every way it can fail, giving it up or publishing it, with others acting in between.
- **Snapshot reference counting**, at the grain of single atomic operations.
- **The retry transport and its budget**: slot ownership on every exit path, on the same shared machine, and a
  bound on amplification.
- **The bounded rate-limit store**: its slot index, and what bounding it costs or gives a client.
- **Selection strategies, routing, configuration normalisation, and the revision history.**

## How the files fit together

| file | part |
|---|---|
| `Common.dfy` | small shared types, token accrual |
| `Endpoint.dfy`, `EndpointTraces.dfy` | one endpoint: its events, and whole histories of them |
| `Generations.dfy` | pools, leases, registry, steps and the invariant |
| `CalmSteps.dfy`, `LeaseSteps.dfy`, `ReleaseSteps.dfy`, `SwapSteps.dfy` | every kind of step keeps the invariant |
| `GenerationRuns.dfy` | consequences over whole runs |
| `Balancer.dfy` | the pool and lease operations as loops over those steps |
| `FailedApply.dfy` | a candidate that is given up is invisible |
| `Candidate.dfy`, `Draft.dfy` | what stays private to a candidate; one cluster under construction and its warm-up |
| `Build.dfy`, `Gateway.dfy` | building, failing, publishing; one command of the whole control plane |
| `WitnessRuns.dfy` | runs that show what the code does not promise |
| `Snapshot.dfy` | acquire, release, retire and close of a snapshot |
| `SharedPool.dfy`, `RetryTransport.dfy`, `RetryBudget.dfy` | a request among others, its retry loop and the bucket that pays for it |
| `TokenBuckets.dfy`, `SlotIndex.dfy`, `LocalStore.dfy`, `LocalStoreClass.dfy`, `LimiterRuns.dfy` | the rate-limit store |
| `WeightedPick.dfy`, `Strategies.dfy`, `RoundRobin.dfy`, `Rendezvous.dfy` | backend selection |
| `GatewayConfig.dfy`, `Engine.dfy`, `EngineClass.dfy`, `Routing.dfy` | configuration, history and routes |

`dafny verify dfyconfig.toml` checks the whole project.

## Where the code does not do what one would expect

Six properties that a reader might assume are false of the code. All but the last have a concrete witness and the
exact condition; the last fails for every input.

- *With no change in progress the available list is what the filter computes.* `AvailableBackends` reads
  without the mutex, and a recovery pass clears the pool's deadline before it lifts anything. A reader in
  between is not sent to recover and misses a backend whose ejection has run out:
  `WitnessRuns.ReaderMissesOverdueBackend`. `Balancers.CacheIsFilterIff` gives the exact condition for every
  reachable state, and `Balancers.FastPathIsFilter` shows that only recovery passes can violate it.
- *An ejection is always served in full.* A failure that ejects an endpoint again overwrites the deadline, so a
  generation with a shorter cooldown can cut the ejection short: `WitnessRuns.CooldownCanBeCutShort` is such a
  run. `EndpointTraces.CooldownHonouredIff` gives the condition, and `EndpointTraces.FixedCooldownIsServed`
  shows that under one cooldown the property holds.
- *A snapshot is never closed under a holder.* `release` decrements and then reads `retired` in two
  operations. `Snapshots.BadRunClosesUnderHolder` is a run that closes a held snapshot.
  `Snapshots.RetireIsSafeIff` says when retiring is safe: exactly if no release stands between its two
  operations while somebody holds the snapshot. `Snapshots.NeverClosedWhileHeldIffFused` shows that making
  them one operation is what it takes to be safe always.
- *Round robin looks at every backend.* The 64-bit counter wraps before the remainder is taken. For one scan
  at the wrap some backend may not be looked at: `RoundRobins.WrapMissesPeer`. `RoundRobins.RotationCoversIff`
  gives the exact condition.
- *Resetting a key never costs its client a request.* A reset leaves a full bucket of its own policy, which may
  hold less than the bucket it replaces: `TokenBuckets.SmallResetCosts` is such a life for any two capacities.
  `TokenBuckets.NeverCostsIff` gives the exact condition.
- *The process-wide history limit is a default.* The built-in value of 10 is filled in first, so the
  process-wide value is never used as a default: `GatewayConfigs.HistoryDefaultIsDead`. It acts only as an
  upper bound, in `remember`.

## Model

| member | source | states |
|---|---|---|
| `Endpoints.SoundIsTimeless` | internal/balancer/backend.go:126-153 | liveness does not depend on the clock in a sound endpoint, and eligibility is liveness after expired ejections are lifted |
| `Endpoints.ApplyKeepsSound` | internal/balancer/backend.go:46-199 | every event keeps: healthy implies no ejection deadline, and inflight counts exactly the slots held |
| `Endpoints.ReleaseNeverClamps` | internal/balancer/backend.go:195-199 | a holder's release finds a positive count and lowers it by exactly one |
| `Endpoints.GrantRespectsLimit` | internal/balancer/backend.go:181-193 | a slot is granted only to a live endpoint and never takes the count above the limit in force |
| `Endpoints.GrantsIff` | internal/balancer/backend.go:181-193 | a slot is granted if and only if the endpoint is healthy, enabled, not draining, not ejected and below its limit (at least 1), and then it alone changes the count |
| `Endpoints.SilentEventsPreserveLiveness` | internal/balancer/backend.go:67-124 | an event after which caches are not invalidated changes neither liveness nor the deadline |
| `Endpoints.ForeignProbeIgnored` | internal/balancer/backend.go:74-94 | probe results from a pool other than the last one activated change nothing |
| `EndpointTraces.CooldownHolds` | internal/balancer/backend.go:53-110 | before the deadline no sequence of events revives the endpoint or grants a slot, unless a failure ejects it again with an earlier deadline |
| `EndpointTraces.FixedCooldownIsServed` | internal/balancer/backend.go:96-110 | with an unchanged cooldown an ejection lasts its full length |
| `EndpointTraces.CooldownHonouredIff` | internal/balancer/backend.go:96-110 | a further failure leaves the earlier deadline honoured if and only if its own cooldown does not end before it |
| `EndpointTraces.FailureEjectsAtThreshold` | internal/balancer/backend.go:96-110 | after any history, a failure ejects exactly if with it the failures since the last success, recovery or revival reach the threshold; then it is unhealthy until that time plus the cooldown, and no other failure touches health or deadline |
| `EndpointTraces.ThresholdInARow` | internal/balancer/backend.go:96-110 | of failures in a row the one at the threshold ejects and none before it |
| `EndpointTraces.ProbeActsAtThreshold` | internal/balancer/backend.go:74-94 | after any history, a probe result revives or takes down the endpoint exactly if it completes a row of the respective threshold, counted over the events |
| `EndpointTraces.ActivationDecides` | internal/balancer/backend_state.go:103-122 | a new generation takes over ownership and limit, and warmed-up health only on refresh and outside a running ejection |
| `WitnessRuns.CooldownCanBeCutShort` | internal/balancer/backend.go:96-110 | a run from the empty world in which an endpoint ejected until 160 grants a slot at 101, through a failure of an older generation |
| `EndpointTraces.OverrideIsReplay` | internal/balancer/backend.go:155-177 | enabled and draining after any history equal the replay of operator commands and changed declarations alone |
| `EndpointTraces.DrainedNeverGrows` | internal/balancer/backend.go:155-193 | until a drain is ended no slot is granted |
| `GenerationRuns.StepKeepsInv` | internal/balancer/backend.go:46-199 | every step of every goroutine keeps the invariant of the whole machine |
| `GenerationRuns.ReachableInv` | internal/balancer/backend_state.go:61-143 | the invariant holds in every reachable state |
| `GenerationRuns.InflightConserved` | internal/balancer/backend.go:181-199 | an endpoint's count equals the slots held through all generations on backends that point at it, slot by slot |
| `GenerationRuns.GrantsWithinLatestLimit` | internal/balancer/backend.go:181-193 | in any run a grant stays within the limit of the pool activated last, or 1 if that is smaller |
| `GenerationRuns.ReleasesNeverClamp` | internal/balancer/backend.go:195-199 | in no run does the clamp of a release of a slot on the books fire; that requests release nothing else is `SharedPools.SharedPool.GiveBack` |
| `GenerationRuns.RegistryCountsOpenLeases` | internal/balancer/backend_state.go:70-143 | an identity is registered if and only if an open lease names it, with one reference per such lease |
| `GenerationRuns.OneStatePerIdentity` | internal/balancer/backend_state.go:96-123 | all open activated leases of an identity use the one registered state, which lists each of their pools |
| `GenerationRuns.HeldStateIsNeverReplaced` | internal/balancer/backend_state.go:125-143 | while a lease holds an identity its state is never dropped and recreated |
| `GenerationRuns.RunProjects` | internal/balancer/backend_state.go:61-143 | in any run an endpoint changes by its listed events and in no other way |
| `GenerationRuns.CooldownNotBypassed` | internal/balancer/backend.go:53-153 | from an ejection to its deadline no run grants a slot on the endpoint in any generation, given that later ejections do not end sooner |
| `GenerationRuns.ActionsReachTheirEndpoint` | internal/balancer/backend.go:96-199 | a command, report or request through a backend of any generation changes the endpoint it points at by exactly that command, report or slot, and nothing else |
| `GenerationRuns.OverridesAreReplayed` | internal/balancer/backend_state.go:103-122 | over any run the operator's settings are the replay of operator commands and changed declarations |
| `GenerationRuns.DrainOnlyShrinks` | internal/balancer/backend.go:169-193 | while an endpoint stays drained its inflight count never grows |
| `Balancers.NothingDue` | internal/balancer/backend.go:444-492 | outside recovery passes, before the pool's one deadline no ejection of any of its endpoints has run out |
| `Balancers.CurrentCacheIsExact` | internal/balancer/backend.go:494-514 | a cache whose version is current equals the list of live backends |
| `Balancers.OpenGenerationTracks` | internal/balancer/backend_state.go:96-123 | an open activated generation is told about every change of its endpoints |
| `Balancers.FastPathIsFilter` | internal/balancer/backend.go:444-456 | in every reachable state outside a recovery pass the fast path reads what the simple filter would compute |
| `Balancers.CacheIsFilterIff` | internal/balancer/backend.go:444-492 | in every reachable state and whatever the mutex holder is doing, a current cache is the filter if and only if no backend has an ejection that ran out and was not lifted |
| `WitnessRuns.ReaderMissesOverdueBackend` | internal/balancer/backend.go:444-477 | a run after which a reader finds no deadline, a current cache and an empty list, while one backend is eligible |
| `Balancers.Balancer.AvailableBackends` | internal/balancer/backend.go:444-514 | returns exactly the eligible backends in configured order, and changes endpoints only by lifting expired ejections |
| `Balancers.Balancer.RecoverExpiredEjections` | internal/balancer/backend.go:470-492 | if the deadline is still due once locked, lifts exactly the ejections that have run out and leaves a current cache; otherwise does nothing |
| `Balancers.Balancer.Refresh` | internal/balancer/backend.go:494-514 | rebuilds the cache so that its version is current, and changes no endpoint |
| `Balancers.Balancer.Reserve` | internal/balancer/backend_state.go:70-85 | each entry takes the state registered under its identity, or registers its own; every other registration, all pools and all endpoints stay as they were |
| `Balancers.Balancer.Activate` | internal/balancer/backend_state.go:96-123 | afterwards every backend points at its reserved shared state, whose owner, pools, health, declared flag and limit are exactly those of the activation; no other endpoint changes; a second call or one on a closed lease does nothing |
| `Balancers.Balancer.Close` | internal/balancer/backend_state.go:125-143 | afterwards the lease holds no identity; a second call does nothing |
| `FailedApply.CandidateStepStaysInside` | internal/balancer/backend_state.go:70-85 | a step of building or giving up a candidate changes nothing outside it |
| `FailedApply.OutsideStepDoesNotNotice` | internal/balancer/backend.go:46-199 | every other step is possible and has the same effect whether or not the candidate exists |
| `FailedApply.CandidateIsInvisible` | internal/gateway/engine.go:193-214 | a run that builds a candidate is, from outside, the run without it |
| `FailedApply.FailedApplyIsNoOp` | internal/balancer/backend_state.go:125-143 | once the leases of a candidate are given up, pools, endpoints, leases, slots, the registry and its counts are those of the run without it, whatever happened meanwhile |
| `Candidates.OpeningIsPossible` | internal/gateway/engine.go:164-171 | with every other lease published or given up, a cluster id not yet in the candidate may be reserved |
| `Candidates.StepKeepsSettled` | internal/balancer/backend_state.go:96-143 | a lease that is published or given up stays so whatever happens |
| `Candidates.HiddenIsUntouched` | internal/balancer/backend_state.go:70-85 | no step of others changes the private pools of a candidate, their endpoints or what they are owed |
| `Drafts.NewEndpointStarts` | internal/balancer/backend.go:314-326 | an endpoint starts enabled exactly if it is not declared disabled, with the limit of its pool and nothing on its record |
| `Drafts.RoundCounts` | internal/gateway/runtime.go:159-163 | after each round of probes the count is the successes in a row, and a backend is healthy exactly if all rounds there are were reported and passed |
| `Drafts.ReadyIff` | internal/balancer/backend.go:444-514 | with a current cache, a private pool lists some backend exactly if some backend is enabled and passed |
| `Builds.Builder.Close` | internal/balancer/backend_state.go:125-143 | a private lease is released entry by entry, each release being possible, with others acting in between |
| `Builds.Builder.CheckReady` | internal/balancer/backend.go:444-514 | the readiness test on a private pool recovers and refreshes as any reader would, and answers yes exactly if some backend is healthy and not declared disabled |
| `Builds.Builder.BuildCluster` | internal/gateway/runtime.go:98-181 | succeeds if and only if no part fails, the specs are valid, and, where anything was probed and a backend is enabled, some enabled backend is carried over or passed all rounds; then the cluster is reserved in full, private, names the backends of its plan and is as healthy as probed; otherwise its lease, if any, has been closed and released; no other cluster of the candidate is touched |
| `Builds.Builder.BuildSnapshot` | internal/gateway/runtime.go:51-96 | succeeds if and only if every cluster fits and the routes compile; then all are reserved to plan, otherwise every cluster already built is given up |
| `Builds.Builder.ActivateAll` | internal/gateway/runtime.go:284-288 | every cluster of the snapshot ends published in full, under its id, with the backends, weights and policy of its plan |
| `Builds.Builder.Retire` | internal/gateway/runtime.go:323-334 | closing a published cluster is always possible and gives back every entry, with others acting in between |
| `Builds.GoneLeavesNoTrace` | internal/gateway/engine.go:204-214 | a candidate whose leases are gone has left what the steps of others alone would have left |
| `Gateways.Gateway.ApplyLocked` | internal/gateway/engine.go:193-226 | a configuration is published if and only if the engine is open, it is valid once normalised, every cluster fits, the routes compile and the caller is still there, and the error names the first of these that fails; if nothing is published, revision, history and configuration stay, and endpoints, caches, leases, slots, registry and counts are as the steps of others alone would have left them; otherwise the revision goes up by one and every cluster is published with the endpoints, weights and policy its configuration lists |
| `Gateways.Gateway.Rollback` | internal/gateway/engine.go:228-270 | the same for a configuration from the history, which is published exactly as it was |
| `Gateways.PlanFollowsConfig` | internal/gateway/runtime.go:98-135 | what is built for a cluster, field by field of its configuration; health is probed afresh exactly if the configuration in force has no cluster of that id probed in the same way |
| `Snapshots.ClosedAtMostOnce` | internal/gateway/runtime.go:298-334 | for any interleaving of atomic operations the close body runs at most once |
| `Snapshots.NoLeakAtQuiescence` | internal/gateway/runtime.go:307-334 | a retired snapshot without references and with no thread in mid-operation is closed |
| `Snapshots.UnsafeNeedsReleaseInWindow` | internal/gateway/runtime.go:307-311 | a run closes a held snapshot only if it was retired inside the window |
| `Snapshots.BadRunClosesUnderHolder` | internal/gateway/runtime.go:298-321 | the concrete run that does it |
| `Snapshots.RetireIsSafeIff` | internal/gateway/runtime.go:307-321 | from any reachable state, retiring leads to no close under a holder if and only if no release stands in its window while somebody holds |
| `Snapshots.NeverClosedWhileHeldIffFused` | internal/gateway/runtime.go:298-334 | over all runs no snapshot is closed while held if and only if decrement and test are one step |
| `SharedPools.StepKeepsServing` | internal/balancer/backend_state.go:96-143 | a published pool stays published for the requests that use it, whatever step is taken |
| `SharedPools.SharedPool.TryAcquire` | internal/balancer/backend.go:181-193 | among any steps of others: a slot is granted exactly if the endpoint is usable and has room just before the step, and is added to what the request holds, within the limit in force |
| `SharedPools.SharedPool.GiveBack` | internal/balancer/backend.go:195-199 | among any steps of others: giving back a held slot is always possible and takes exactly that slot off |
| `SharedPools.OwnReleaseIsFair` | internal/balancer/retry.go:86-94 | what a request gives back is never another's, which is all it asks of them |
| `SharedPools.SharedPool.Record` | internal/balancer/retry.go:105-109 | among any steps of others: the last step is the failure or the success asked for, on that backend, and is entered in the record of the request |
| `RetryTransport.NextAvailableBackend` | internal/balancer/retry.go:160-175 | terminates; takes exactly one slot on a backend not excluded, or none; excludes exactly those that refused, and finds none only when the strategy names no other |
| `RetryTransport.AttemptBody.Close` | internal/balancer/retry.go:246-253 | gives the slot back once, however often it is called |
| `RetryTransport.MoveOn` | internal/balancer/retry.go:122-142 | another slot is kept only if the shared budget paid; otherwise the response in hand and its slot are kept |
| `RetryTransport.TakeTurn` | internal/balancer/retry.go:66-143 | one iteration: continue with one slot on an untried backend, or return owning exactly the response's slot |
| `RetryTransport.RoundTrip` | internal/balancer/retry.go:54-145 | whatever others do to the shared endpoints and budget meanwhile, the request ends owning exactly the slot of the response it returns; backends tried are distinct and within the pool and the limit, beginning with the first found; the reason to stop is exact, and none is left only if the strategy names nothing but backends tried or refusing; the failures recorded are in order those on the blamed, and one success is recorded, on the last backend, exactly if it succeeded; to the budget it is one start and one paid retry per further attempt |
| `RetryTransport.LastAnswerDecides` | internal/balancer/retry.go:96-125 | by the fields of the last answer: when a finished request succeeded, could not be copied, ran out of attempts or lost its client, and whether its last backend is blamed |
| `RetryBudgets.RetryBudget.Allow` | internal/balancer/retry_budget.go:49-58 | true exactly if min(capacity, tokens + refill * elapsed) is at least 1, and that less one token spent is what is left |
| `RetryBudgets.RetryBudget.Update` | internal/balancer/retry_budget.go:28-47 | what has accrued under the old policy, cut to the new capacity, and the new policy; no token is added |
| `RetryBudgets.AmplificationBound` | internal/balancer/retry_budget.go:28-77 | for any interleaving of requests and updates, attempts and tokens left are paid for by requests, tokens at hand and tokens earned |
| `RetryBudgets.FixedPolicyBound` | internal/balancer/retry.go:122-143 | under one policy attempts are at most requests + capacity + refill * elapsed |
| `RetryBudgets.RefusedIffEmpty` | internal/balancer/retry_budget.go:49-77 | at any point of any run a retry is refused if and only if, with all it has earned since the last event, the budget holds less than a token |
| `RetryBudgets.IdleEarnsARetry` | internal/balancer/retry_budget.go:66-77 | left alone for 1 / refill seconds the budget pays for the next retry |
| `RetryBudgets.Meter.Allow` | internal/balancer/retry_budget.go:49-58 | among any requests and updates of others, a further attempt is sent exactly if a token was there, and everything that happened is one history of the budget |
| `RetryBudgets.MeteredAttemptsAreBounded` | internal/balancer/retry.go:122-143 | attempts of this request and all others are within their number, the capacity and the refill |
| `TokenBuckets.PeekForetellsTake` | internal/ratelimit/local.go:72-104 | a request passes exactly if a peek at that moment shows a whole token, and leaves one less |
| `TokenBuckets.TakeUnderPolicy` | internal/ratelimit/local.go:72-90 | for any bucket and any policy: the bucket takes on the policy, what it held and earned under the old one is cut to the new capacity, and the request passes if and only if a whole token is left |
| `TokenBuckets.PeekUnderPolicy` | internal/ratelimit/local.go:92-104 | the same for what a peek shows, always within the new capacity |
| `TokenBuckets.TakeReadsLevel` | internal/ratelimit/local.go:72-90 | whatever policy touched the bucket last, a request passes if and only if the level cut to its own capacity is at least one, and leaves one less |
| `TokenBuckets.StaysAhead` | internal/ratelimit/local.go:188-207 | whatever is forgotten and however policies change, a key is never behind one that is remembered, and its lead covers what it has less in hand, as long as resets leave as many tokens as a request may ask for |
| `TokenBuckets.NeverCostsIff` | internal/ratelimit/local.go:106-118 | forgetting and resetting never cost a client a request if and only if no reset leaves fewer tokens than the largest capacity requested |
| `SlotIndex.FullShardEvictsLiveKey` | internal/ratelimit/local.go:143-169 | a full shard has no free slot; the evictor meets a live key other than the new one |
| `SlotIndex.InsertKeepsInv` | internal/ratelimit/local.go:143-169 | inserting keeps slots and positions inverse and the free list exact, adds the key and removes only the victim of a full shard |
| `SlotIndex.DeleteKeepsInv` | internal/ratelimit/local.go:171-180 | deleting keeps the index exact and removes that key only |
| `SlotIndex.EvictionIsFirstInFirstOut` | internal/ratelimit/local.go:143-169 | without cleanup the keys evicted are the first inserted, in the same order |
| `LocalStores.OpKeepsInv` | internal/ratelimit/local.go:72-137 | every operation keeps all shards exact, keys in their home shard and the size equal to the buckets held |
| `LocalStores.StoreIsBounded` | internal/ratelimit/local.go:46-68 | the store and each shard hold at most what they have room for |
| `LocalStoreObjects.LocalStore.constructor` | internal/ratelimit/local.go:46-68 | shards start empty and share the whole bound as evenly as can be |
| `LocalStoreObjects.LocalStore.Take` | internal/ratelimit/local.go:72-90 | refines the store operation, returns the decision and the bucket it left, which has the capacity and refill of the policy |
| `LocalStoreObjects.LocalStore.Peek` | internal/ratelimit/local.go:92-104 | shows the bucket as a request would find it, under the policy given |
| `LocalStoreObjects.LocalStore.Reset` | internal/ratelimit/local.go:106-118 | refines the store operation and leaves a full bucket of the policy under the key |
| `LocalStoreObjects.LocalStore.InsertBucket` | internal/ratelimit/local.go:143-169 | reuses the last free slot, appends, or evicts; counts size and evictions |
| `LocalStoreObjects.LocalStore.DeleteBucket` | internal/ratelimit/local.go:171-180 | clears the slot and puts it on the free list |
| `LocalStoreObjects.LocalStore.CleanShard` | internal/ratelimit/local.go:125-135 | removes exactly the expired buckets of a shard, in some order |
| `LocalStoreObjects.LocalStore.Cleanup` | internal/ratelimit/local.go:123-137 | keeps exactly the buckets seen since the cutoff, in every shard |
| `LimiterRuns.BoundedAgainstUnbounded` | internal/ratelimit/local.go:72-207 | under one policy, at every point of every run and for every key: at least what an unbounded store without resets would allow, and at most capacity * (1 + drops and resets) + refill * elapsed |
| `LimiterRuns.NeverFewerThanUnbounded` | internal/ratelimit/local.go:72-207 | with any policies, changing from call to call: at least what an unbounded store would allow, as long as resets leave as many tokens as a request may ask for |
| `LimiterRuns.NeverMoreThanPaid` | internal/ratelimit/local.go:72-207 | with any policies: at most the largest capacity for the start and each loss, plus the fastest refill; no change of policy adds tokens |
| `LimiterRuns.SlowCleanupUnnoticed` | internal/ratelimit/local.go:123-137 | if a key is only cleaned up after capacity / refill seconds idle, no decision on it differs |
| `WeightedPick.PickIsShare` | internal/balancer/strategies.go:72-82 | the walk stops at the entry whose share of the total holds the position, and at no other |
| `WeightedPick.ExactlyProportional` | internal/balancer/strategies.go:61-84 | any total-weight tickets in a row give each entry exactly its weight |
| `Strategies.WeightedRoundRobin.GetNextPeerExcluding` | internal/balancer/strategies.go:61-84 | chooses by ticket among peers not excluded; nil exactly if all are excluded, when no weight shrank between the passes |
| `Strategies.WeightedRoundIsExact` | internal/balancer/strategies.go:61-84 | a full round of calls chooses each eligible peer exactly its weight times and no excluded one |
| `Strategies.LessLoadedIsRatio` | internal/balancer/strategies.go:113-115 | the cross-multiplied comparison orders peers by (inflight + 1) / weight |
| `Strategies.LeastRequest.GetNextPeerExcluding` | internal/balancer/strategies.go:94-111 | returns a peer of globally least load, the first such in rotation order; nil exactly if all are excluded |
| `RoundRobins.RoundRobin.GetNextPeerExcluding` | internal/balancer/strategies.go:28-49 | the first ready peer in rotation, else the first usable one; nil exactly if none visited is usable, which short of a counter wrap means all are excluded |
| `RoundRobins.RotationCoversIff` | internal/balancer/strategies.go:33-36 | a scan looks at every peer if and only if the counter does not wrap inside it or the list length divides 2^64 |
| `RoundRobins.WrapMissesPeer` | internal/balancer/strategies.go:33-36 | three peers at the wrap with only the last one left yield none |
| `RoundRobins.SlowStartIsExact` | internal/balancer/strategies.go:28-49 | a peer in slow start takes exactly its percentage of any hundred tickets in a row |
| `RoundRobins.AdmitsByTicket` | internal/balancer/strategies.go:28-49 | short of a counter wrap these are the tickets for which the scan finds it ready |
| `Rendezvous.SelectBackend` | internal/balancer/strategies.go:141-160 | computes the choice the lemmas below speak about |
| `Rendezvous.SelectIsFirstBest` | internal/balancer/strategies.go:141-160 | the choice has the least score among eligible peers and is the first of those |
| `Rendezvous.ExclusionIsRemoval` | internal/balancer/strategies.go:144-147 | excluding peers chooses as if they were not in the list |
| `Rendezvous.MinimalDisruption` | internal/balancer/strategies.go:141-160 | taking out a peer that was not chosen changes nothing; so putting one in moves requests to it only |
| `Rendezvous.ExcludingUnchosen` | internal/balancer/strategies.go:141-160 | excluding a peer that was not chosen changes nothing |
| `GatewayConfigs.ApplyDefaults` | internal/config/gateway.go:208-260 | the in-place edits compute the layered function field by field |
| `GatewayConfigs.NormalizeConfig` | internal/gateway/config.go:14-65 | the in-place edits compute the normalised configuration |
| `GatewayConfigs.MergeRetryIdempotent` | internal/gateway/config.go:72-121 | merging under normalised defaults twice is merging once, and always gives a usable policy |
| `GatewayConfigs.RetryPrecedence` | internal/gateway/config.go:72-117 | every field is the first one set among the document, the process-wide defaults and the built-in values |
| `GatewayConfigs.ClusterPrecedence` | internal/gateway/config.go:35-65 | every field of a cluster in the normalised document comes from the first layer that sets it: the document, the process-wide defaults, the built-in values |
| `GatewayConfigs.RoutePrecedence` | internal/gateway/config.go:53-117 | the same for routes; the timeout per try of the route wins over all layers |
| `GatewayConfigs.DocumentPrecedence` | internal/gateway/config.go:14-34 | the same for version, history limit and listeners |
| `GatewayConfigs.ClusterIdempotent` | internal/gateway/config.go:35-52 | a normalised cluster is left alone by normalisation |
| `GatewayConfigs.NormalizedIdempotent` | internal/gateway/config.go:14-70 | normalising a normalised configuration changes nothing |
| `GatewayConfigs.HistoryDefaultIsDead` | internal/gateway/config.go:22-28 | the process-wide history limit never reaches a configuration |
| `Engines.PublishKeepsInv` | internal/gateway/engine.go:215-226 | a publication raises the revision by one and keeps the newest revisions up to the limit, contiguous and unchanged |
| `Engines.ExecKeepsInv` | internal/gateway/engine.go:164-270 | every command keeps the history a contiguous window that ends at the current revision |
| `Engines.OnlyPublishingChanges` | internal/gateway/engine.go:193-226 | a command that does not publish changes at most the last error and the failure counter; one that does clears the error and counts a success |
| `Engines.RollbackRestores` | internal/gateway/engine.go:228-270 | a rollback finds its revision if and only if it is in the window, and then publishes that revision's configuration again |
| `Engines.AtMostOneWinner` | internal/gateway/engine.go:173-191 | over any run at most one conditional command per expected revision goes through |
| `Engines.ConditionalOutcome` | internal/gateway/engine.go:173-258 | a conditional command meets a conflict if and only if the revisions differ, and goes through if and only if they agree and nothing else is in the way |
| `Engines.HistoryIsCutToLimits` | internal/gateway/engine.go:580-596 | the history is within both limits and is cut only to meet one |
| `Engines.EndpointSetsEqual` | internal/gateway/engine.go:486-500 | computes the comparison of endpoint lists |
| `Engines.SetsEqualIff` | internal/gateway/engine.go:486-500 | for lists without repeated identifiers the comparison is equality of sets |
| `Engines.RepeatedIdFoolsComparison` | internal/gateway/engine.go:486-500 | with a repeated identifier it accepts different sets |
| `Engines.UpdatePublishesExactly` | internal/gateway/engine.go:414-474 | a discovery result publishes only a different set of endpoints, and changes nothing else in the configuration |
| `Engines.RejectedIff` | internal/gateway/engine.go:414-474 | a discovery result is rejected if and only if there is no such cluster, or its source changed, the result is stale or refused, or the configuration would not be valid with it |
| `EngineObjects.Engine.New` | internal/gateway/engine.go:59-81 | an engine exists if and only if its first configuration could be published, at revision 1 |
| `EngineObjects.Engine.Remember` | internal/gateway/engine.go:580-596 | keeps the newest revisions up to the limit and their configurations |
| `EngineObjects.Engine.ApplyLocked` | internal/gateway/engine.go:193-226 | refines the command and keeps the engine valid |
| `EngineObjects.Engine.ApplyIfRevision` | internal/gateway/engine.go:173-191 | refines the command and keeps the engine valid |
| `EngineObjects.Engine.Rollback` | internal/gateway/engine.go:228-238 | refines the command and keeps the engine valid |
| `EngineObjects.Engine.RollbackIfRevision` | internal/gateway/engine.go:240-258 | refines the command and keeps the engine valid |
| `EngineObjects.Engine.UpdateEndpoints` | internal/gateway/engine.go:396-474 | refines the command and keeps the engine valid |
| `EngineObjects.Engine.Close` | internal/gateway/engine.go:552-566 | closes for good and keeps the history |
| `Routing.CompileRoutes` | internal/gateway/routing.go:28-52 | the compiled list is the declared routes in strictly increasing order |
| `Routing.SelectRoute` | internal/gateway/engine.go:111-117 | finds the first match, or there is none |
| `Routing.FirstIsBest` | internal/gateway/routing.go:28-52 | whatever matching means, the first match comes before every other declared route that matches |
| `Routing.ChooseRoute` | internal/gateway/engine.go:111-117 | none exactly if no declared route matches, otherwise the best one |
| `Routing.BestIsUnique` | internal/gateway/routing.go:37-50 | there is only one such route |
| `Routing.BestIsByFields` | internal/gateway/routing.go:37-50 | the best route has the highest priority, then an exact path, then the longest prefix, then the earliest place |
| `Routing.PrefixIsSegments` | internal/gateway/routing.go:355-363 | a prefix without a final slash matches exactly the paths whose first segments are its own |
| `Routing.PrefixIsDirectory` | internal/gateway/routing.go:355-363 | a prefix with one matches exactly the paths below it |
| `Routing.RouteSplit.ClusterId` | internal/gateway/routing.go:111-130 | a single cluster wins; otherwise the ticket decides and a target is always found |
| `Routing.ClusterSplitIsExact` | internal/gateway/routing.go:111-130 | short of a counter wrap, a full round gives each cluster exactly its weight |

## Grain

- Endpoint, pool, lease and registry results: one critical section or atomic access per step, any
  interleaving. Reserve, activate and close go entry by entry, which is finer than the locks the code holds.
- Snapshot results: single atomic operations; `Snapshots.NeverClosedWhileHeldIffFused` compares the two grains.
- Building and publishing, requests on the shared pool and budget: the same steps, with any batch of steps of
  others after each step of their own.
- Rate-limit store: one critical section per step. `Cleanup` takes one lock per shard.
- Engine: one command per step, under the engine's mutex.
- Selection and routing: one call, with what it reads given as inputs.

## Left out

- HTTP serving, reverse proxying, TLS, probes, DNS and Kubernetes clients: their results are inputs.
- The replacement path of a single pool (`CommitReplacement` and what prepares it) and `SetAlive` or `MarkBackendStatus` on a published backend: gateway runs do not use them.
- The slow-start percentage and `healthySince`: strategies take the percentage as a value; the request counter has no effect on anything modelled.
- `IsAlive` reads several atomics; the model reads them in one step.
- Versions, revisions, reference counts and statistics are unbounded; only the strategy counters are modelled with their 64-bit wrap.
- RetryTransport.RoundTrip: without an allowed attempt the slot taken before the loop is not given back, which the contract says and the clamps in configuration rule out. The strategy is any function that names a backend not excluded.
- Balancers.Balancer.AvailableBackends: one goroutine from entry to return; what readers that overlap others find is `Balancers.CacheIsFilterIff`.
- Builds.Builder.BuildCluster: which identities were registered is read off the lease; probes of one round report one after the other; connection pools and contexts are not modelled.
- Gateways.Gateway.ApplyLocked: the retirement of the previous snapshot is a step of its own (`Builds.Builder.Retire`); when it may happen is in `Snapshot.dfy`.
- LimiterRuns.SlowCleanupUnnoticed: one policy throughout a run, since what is idle for long enough depends on it.
- Strategies.WeightedRoundIsExact: rounds that cross the counter wrap are covered only if the total weight divides 2^64.
- Strategies.LeastRequest.GetNextPeerExcluding: loads are read once per call.
- Routing.CompileRoutes: the library's stable sort is written out as insertion; the order is strict, so any sort gives the same list.
- Host, header and method matching is an arbitrary predicate in `Routing`; path prefixes are the only part spelled out. Strings are sequences of characters, and upper case is ASCII.
- Most checks of `Validate`: the bounds and uniqueness checks the proofs need are written out in `GatewayConfigs.Accepts`; a document refused by another one ends as one whose routes do not compile, which is an input.
- The copy of a configuration through JSON is the identity on values in which absent and empty lists are one; the hash is not modelled.
- The discovery status kept beside a cluster, apart from the staleness test that rejects a result.
- Floating point: token arithmetic is over the reals.
- FNV hashing and logarithms: an arbitrary hash and an arbitrary finite score.
- Redis and PostgreSQL limit stores, the management API, metrics, tracing, overload protection and the front end.
