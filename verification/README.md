# Gateway, guards, prompt and stream: a Dafny model

The repository is an LLM gateway with a chat widget. This project models the parts that
hold its state and its arithmetic, and proves what they keep over whole runs.

| file | what it models |
|---|---|
| `Quota.dfy`, `QuotaKeys.dfy`, `QuotaMachine.dfy`, `QuotaAccounts.dfy`, `Budget.dfy` | the four-level budget reservation: its keys, alone, and under interleaving with cut settlements |
| `Catalog.dfy`, `ModelKeys.dfy`, `Routing.dfy`, `CandidateList.dfy`, `Fallback.dfy`, `TargetOrder.dfy`, `FallbackLoop.dfy` | prices and keys, candidates, the fallback lists and their order, and the loop that rebuilds them |
| `Engine.dfy`, `Streaming.dfy`, `Generator.dfy`, `StreamingSafety.dfy`, `StreamRecord.dfy` | the chat executor, and the streaming generator with its flag, its nested handlers, cancellation, and what it shows, records and charges |
| `ToolCalls.dfy`, `ChunkRecord.dfy`, `UsageChunks.dfy`, `LateHeaders.dfy` | the adapter's chunk loop, the reassembly of streamed tool calls, and what usage chunks and late ids or names lose |
| `Coordinator.dfy`, `Succession.dfy`, `LeaseTerms.dfy`, `Admission.dfy`, `Cooldown.dfy`, `Breaker.dfy` | the per-thread lease lock, the admission gate, failure cooldowns and the Redis breaker |
| `Estimator.dfy`, `Packing.dfy`, `Turns.dfy`, `Assembler.dfy`, `AssemblerSafety.dfy`, `PromptLayout.dfy`, `AssemblerWitnesses.dfy`, `Redaction.dfy` | token estimates and the prompt assembler |
| `Splitter.dfy`, `Sse.dfy`, `Widget.dfy`, `Client.dfy`, `StreamBuffer.dfy`, `Delivery.dfy` | the event-stream printer, the widget's chunked parser, replay and reconnects |
| `SemanticCache.dfy`, `CacheLife.dfy`, `CacheMachine.dfy` | the semantic cache, alone, over time, and under interleaving |
| `Text.dfy`, `Sorting.dfy` | strings and stable sorting |

A protocol whose calls suspend between Redis commands is a state machine: each command or
script is one atomic step, steps of any number of calls interleave in any order, and a call
that never steps again stands for a worker that died. Objects that update their own fields
are classes, and list-building loops are methods, each proved against a function whose own
properties are lemmas. USD, scores and characters per token are exact reals, times are
integers. What a provider, a key resolver or a Redis clock does is a parameter that may be
anything.

## Where the code and its documentation differ

The model follows the code. The exact condition of each point is a lemma or a contract, and
the inputs, runs and reachable states named here are members that exhibit them.

- `stream` promises that any tool event ends transparent failover (service.py:338-342); only
  `delta` and `tool_use_start` set the flag. Condition `LeaksIff`, `SingleSourceIff`; input
  `OrphanFragmentMixesSources`.
- `_release` is called cancellation-safe (service.py:678-679). It is, except inside the settling
  call: the flag is set after the reconciliation, so a cancellation there is followed by a
  release. Condition in the contract of `Run`, by the suspension point; run
  `CancelledInReconcile`.
- So the hard block at the limit (quota.py:8-9) holds up to the estimates that such releases
  undo a second time. Conditions `RunConservesIff`, `ClampBitesIff`, `BudgetCap`; state
  `LimitPassed`.
- A pin is described as "no fallback" (types.py:124-126); an overflow leaves it when the catalog
  lists another deployment, and a content-policy refusal when a tenant entry names another
  family. Condition `PinHoldsIff`; inputs `PinsBreak`.
- A chunk that carries usage loses its choices (provider.py:370-373). Condition `HarmlessIff`;
  input `UsageChunkLosesCall`.
- An id or name that is missing from the first piece of a call is never filled in
  (provider.py:380-389). Condition `FirstPieceSufficesIff`; input `LateNameIsLost`.
- The Redis tier of the chunk buffer replays its whole list although `replay` promises ids
  above the given one. Condition `ReplayIff`, and for what the widget then shows
  `RedisReconnectIff`; input `DeltaShownTwice`.
- The breaker never becomes half-open by time: `_probe_ok` is never set to true. The contract
  of `IsOpen` gives its state at every time.
- "At most one in-flight generation per thread" holds while Redis has a live key for the
  thread. Condition `EntersIff`, with `MutualExclusion` for confirmed leases; state
  `LapsedLeasesOverlap`.
- After one Redis error a process no longer deletes its lock keys, even when Redis is back.
  Condition `HandOver`; state `KeyLeftBehind`.
- Cancelling `acquire` while it polls Redis, or `release` while it awaits its script, leaves the
  local lock taken, against coordinator.py:8-9. Condition `CancelIff`, `PassesIff`; states
  `CancelledPollBlocks`, `CancelledReleaseBlocks`.
- The assembler does not set the current message's room aside, so recent turns can make it
  fail although both mandatory blocks fit. Condition `SucceedsIff`; input `CrowdedOut`.
- Older, smaller turns may still be rendered after a newer one was omitted, against the comment
  at assembler.py:261-262. Condition `NoGapIff`; input `GapInTheTail`.
- The admission gate may refuse a call while slots are free, because increments of refused
  calls count until they are taken back. Condition `RefusedIff`; state `RefusedWithSlotsFree`.
- A call of the gate that is cancelled behind the tenant semaphore, in `admit` or in `release`,
  keeps what it holds. Condition `NothingLeaksIff`, `RunLeakIff`; state `CancelledReleaseLeaks`.
- The semantic cache gives each entry its time to live (cache.py:320-322), but a store does not
  renew the index, so an entry can be out of reach before its time. Condition in the contract
  of `StoreThenFind`.
- Budgets are per tenant (quota.py:124-135) as long as ids hold no colon. Condition
  `KeysEqualIff`; inputs `ColonsCollide`.

## Model

| member | source | states |
|---|---|---|
| `Quota.LevelKeysDistinct` | backend/app/gateway/quota.py:124-135 | the four level keys of one request coincide only for the same level, whatever the identifiers contain |
| `QuotaKeys.KeysEqualIff` | backend/app/gateway/quota.py:117-135 | for ids without a colon two requests share a key iff it is the same level, with the same ids of that level, and the same window |
| `QuotaKeys.ColonsCollide` | backend/app/gateway/quota.py:124-135 | with colons a tenant key can be the surface key of another tenant, whatever the ids |
| `QuotaKeys.ReserveElsewhere` | backend/app/gateway/quota.py:170-237 | a reservation changes no reading of another tenant's own keys or of another window, and succeeds iff all its levels fit |
| `QuotaKeys.ReconcileElsewhere` | backend/app/gateway/quota.py:239-261 | neither does its settlement |
| `QuotaKeys.TwoTenants` | backend/app/gateway/quota.py:170-237 | without a platform limit, whether a tenant's request is held does not depend on another tenant's request before it |
| `QuotaKeys.FitsEach` | backend/app/gateway/quota.py:34-46 | all levels fit iff each limit that is set covers spent, reserved and the estimate on its own key |
| `Quota.QuotaService.Reserve` | backend/app/gateway/quota.py:170-237 | succeeds iff every limited level had room before the call; then each limited key is charged once; a refusal names the first full level and leaves every reading as it was |
| `Quota.QuotaService.Uncharge` | backend/app/gateway/quota.py:263-270 | undoing the charges of a failed reservation restores every reading |
| `Quota.QuotaService.Reconcile` | backend/app/gateway/quota.py:239-261 | each key of the reservation is reconciled once and no other key changes |
| `Quota.QuotaService.ReserveThenRelease` | backend/app/gateway/service.py:296-319 | reserving and releasing (the cache-hit path) is the identity on every reading |
| `QuotaAccounts.ReachableAccounted` | backend/app/gateway/quota.py:34-56 | in every interleaving, `spent` is the sum of exactly the settled costs, and `reserved` is at most the standing estimates and short of them by at most the estimates undone twice |
| `QuotaAccounts.ReachableConserved` | backend/app/gateway/quota.py:34-56 | on a key on which nothing was undone twice, `reserved` is the sum of the estimates of exactly the standing charges |
| `QuotaAccounts.StepConservesIff` | backend/app/gateway/quota.py:48-56 | from balanced books a step keeps them balanced iff it does not undo a charge a second time on a key on which others stand |
| `QuotaAccounts.RunConservesIff` | backend/app/gateway/quota.py:196-270 | the books are balanced throughout a run iff no step of it does so |
| `QuotaAccounts.ClampBitesIff` | backend/app/gateway/quota.py:48-56 | from balanced books the clamp at zero takes effect iff a charge is undone a second time and the standing estimates do not cover it |
| `QuotaAccounts.RejectedHasNoNetEffect` | backend/app/gateway/quota.py:196-237 | after a rejection all totals on every key, and so its account, are those of the other requests alone |
| `QuotaAccounts.BudgetCap` | backend/app/gateway/quota.py:34-46 | in every run spent + reserved is at most the limit plus the overrun of settled requests plus the estimates undone twice |
| `QuotaAccounts.HardCap` | backend/app/gateway/quota.py:34-46 | with no settlement above its estimate and nothing undone twice on the key, its limit is never exceeded |
| `QuotaAccounts.NothingTwice` | backend/app/gateway/quota.py:239-261 | nothing is undone twice unless a settlement was cut after a script and then released |
| `QuotaAccounts.LimitPassed` | backend/app/gateway/service.py:894-938 | a reachable state in which a limit of 10 carries 14 although every request costs its estimate |
| `Routing.ChargeWithinEstimate` | backend/app/gateway/service.py:362-372 | a call answered by a candidate within the estimated input and 1024 output tokens is charged at most what was reserved |
| `Budget.EndToEndCap` | backend/app/gateway/service.py:362-372 | over all interleavings a budget key never exceeds its limit by more than the estimates undone twice while every settled call stays within the bounds of its own estimate |
| `ModelKeys.PriceCard` | backend/app/gateway/catalog.py:96-110 | a thousand input tokens cost the input price, a thousand output tokens the output price, and the two sides add up |
| `ModelKeys.PriceAdds` | backend/app/gateway/catalog.py:96-110 | a call's price is the sum of the prices of its parts |
| `ModelKeys.ModelsOfOneProvider` | backend/app/gateway/cooldown.py:67-68 | two models of one provider share a key iff their names are equal after stripping and lower-casing |
| `ModelKeys.KeysEqualIff` | backend/app/gateway/cooldown.py:67-68 | for providers without a colon, two deployments share a key iff provider and model are equal after stripping and lower-casing |
| `ModelKeys.ResetOfOneProvider` | backend/app/gateway/cooldown.py:156-180 | a reset of one provider covers a deployment iff it is of that provider |
| `CandidateList.SplitPrinted` | backend/app/gateway/router.py:96-100 | an entry is split at its first colon into a stripped, lower-cased provider and a stripped model |
| `CandidateList.TenantEntryIff` | backend/app/gateway/router.py:72-75 | the entries in use are the stripped texts of the configured entries that are not blank |
| `CandidateList.GatheredEnds` | backend/app/gateway/router.py:122-166 | the preferred deployment is gathered first, and the provider's default model last unless it is there already |
| `CandidateList.CheapestIsPicked` | backend/app/gateway/router.py:168-208 | under the cost strategy the pick is priced at most as high as any available priced candidate |
| `CandidateList.FastestIsPicked` | backend/app/gateway/router.py:168-208 | under the latency strategy the pick is at least as fast as any available candidate of known latency |
| `Routing.CandidatesAreGathered` | backend/app/gateway/router.py:122-166 | ranking neither drops nor invents a deployment for an unpinned request |
| `Routing.TenantEntriesAreCandidates` | backend/app/gateway/router.py:72-75 | every tenant fallback entry, split into provider and model, is a candidate |
| `Routing.CandidatesRanked` | backend/app/gateway/router.py:122-166 | under cost and latency no candidate scores strictly better than an earlier one |
| `Routing.Decide` | backend/app/gateway/router.py:168-194 | the loop returns the specified pick, which is available whenever any candidate is |
| `Routing.DecisionIsBest` | backend/app/gateway/router.py:168-208 | nothing available scores strictly better than the pick |
| `Fallback.ComputeTargets` | backend/app/gateway/fallback.py:109-124 | the list built step by step is the specified target list of the failure class |
| `Fallback.ComputeCrossFamily` | backend/app/gateway/fallback.py:126-142 | the family loop builds the specified tail |
| `Fallback.ComputeLargeWindow` | backend/app/gateway/fallback.py:144-166 | the window loop builds the specified tail |
| `TargetOrder.CandidatesComeFirst` | backend/app/gateway/fallback.py:116-124 | every class's list begins with the candidates, once each in the router's order; for a general failure there is nothing else |
| `TargetOrder.TailFollows` | backend/app/gateway/fallback.py:116-124 | what follows them is the tail of the class |
| `TargetOrder.CrossFamilyInOrder` | backend/app/gateway/fallback.py:126-142 | in the cross-family tail earlier families come first |
| `TargetOrder.LargeWindowInOrder` | backend/app/gateway/fallback.py:144-166 | in the overflow tail wider windows come first |
| `TargetOrder.CandidatesAreTriedFirst` | backend/app/gateway/service.py:391-418 | in every walk a deployment outside the candidates is attempted only after every candidate was |
| `Fallback.CrossFamilyLeavesFamily` | backend/app/gateway/fallback.py:126-142 | the cross-family tail never holds the preferred family |
| `Fallback.UnpinnedCrossFamilyAddsNothing` | backend/app/gateway/fallback.py:116-142 | for an unpinned request a content-policy failure explores exactly the deployments a general failure explores |
| `Fallback.LargeWindowIsWidest` | backend/app/gateway/fallback.py:144-166 | the overflow tail has no candidate, and no unlisted catalog model left out has a wider window |
| `Fallback.CrossFamilyMembers` | backend/app/gateway/fallback.py:126-142 | a deployment is in the cross-family tail iff its family is listed and it is a candidate, or a tenant entry of a family without candidates |
| `Fallback.PinHoldsIff` | backend/app/gateway/fallback.py:109-166 | over all three failure classes only the pin is reachable iff the catalog lists no other deployment and, unless cross-family is off, no tenant entry names another listed family |
| `Fallback.PinnedTargets` | backend/app/gateway/fallback.py:109-185 | the same for the chain that is built for a pinned request |
| `Fallback.PinsBreak` | backend/app/gateway/fallback.py:109-166 | both ways out happen: a second catalog model, and a tenant entry of another family with a catalog of the pin alone |
| `Fallback.UnpinnedUniverseSize` | backend/app/gateway/fallback.py:109-166 | an unpinned request can reach at most two deployments beyond its distinct candidates |
| `FallbackLoop.WalkIsComplete` | backend/app/gateway/service.py:391-418 | no deployment is attempted twice, each next attempt is the first untried target of the latest failure class, and exhaustion means all targets of the last class were tried |
| `FallbackLoop.WalkIsUnique` | backend/app/gateway/service.py:391-418 | that description has exactly one solution |
| `FallbackLoop.AttemptsBounded` | backend/app/gateway/service.py:391-418 | attempts never exceed the reachable deployments, although the list is rebuilt after each failure |
| `FallbackLoop.UnpinnedAttemptsBounded` | backend/app/gateway/service.py:391-418 | for unpinned requests at most distinct candidates plus two attempts, starting from the router's pick |
| `Engine.TryTargets` | backend/app/gateway/service.py:395-418 | the `try` block attempts exactly the walk, notes health per attempt, and has reconciled once iff it returns, and not at all iff it throws or runs dry |
| `Engine.ChainSettlesOnce` | backend/app/gateway/service.py:419-441 | behind the handlers every way out has settled exactly once, at the winner's cost or at zero |
| `Engine.ExecuteChain` | backend/app/gateway/service.py:376-441 | every run attempts the walk and settles the reservation exactly once: at the price of the answer it returns, for the model that the provider names, or at zero; each failed attempt is noted as a failure of its deployment, an answer as a success |
| `Streaming.Relay` | backend/app/gateway/service.py:726-818 | for any cancellation points, an attempt ends after exactly its own suspension points with what its script renders to, or at the first of them that is cut with a prefix |
| `Generator.StreamGenerator.Release` | backend/app/gateway/service.py:677-683 | nothing if the flag is set; otherwise sets it and then makes one settling call of zero |
| `Generator.StreamGenerator.HandleCut` | backend/app/gateway/service.py:819-829 | the inner handler leaves the books unsettled, released once, or with a release that another cancellation tore |
| `Generator.StreamGenerator.Try` | backend/app/gateway/service.py:715-861 | one turn with the inner handlers: success, next target, or an exit, each at its exact suspension point and with the books it implies |
| `Generator.StreamGenerator.Conclude` | backend/app/gateway/service.py:863-901 | the success path leaves the outer block in order: unsettled before, torn inside and settled once behind the settling point |
| `Generator.CancelledInReconcile` | backend/app/gateway/service.py:894-938 | a run from construction, one answering deployment and one cancellation, that settles its reservation twice |
| `Generator.StreamGenerator.Loop` | backend/app/gateway/service.py:703-911 | the attempt loop leaves the outer block in order, settled before the exhaustion is raised |
| `Generator.TurnBeforeSettle` | backend/app/gateway/service.py:703-911 | every point of an earlier turn, and of the last turn up to its settling call, is before the settling point of the run |
| `Generator.StreamGenerator.Run` | backend/app/gateway/service.py:669-938 | for any cancellation points: the run is aborted iff a point of the uninterrupted run is cut, its trace is a prefix, success is recorded iff no point up to the settling call is cut, and no two settling calls are complete; with at most one cancellation the reservation is settled exactly once iff the settling point is not cut |
| `StreamRecord.AttemptHolds` | backend/app/gateway/service.py:726-818 | an attempt shows exactly what its events say one by one, and its variables are the last reported usage and reason, the text, and per call the last id and name and all arguments |
| `StreamRecord.AttemptEnds` | backend/app/gateway/service.py:715-861 | it ends with the first reported failure, else with what the adapter raises; an adapter that yields nothing fails |
| `StreamRecord.SuccessRecords` | backend/app/gateway/service.py:863-901 | on success `usage`, `done` and the record carry the usage reported last by the answering deployment, with its reason, text and tools |
| `StreamRecord.ChargedAsReported` | backend/app/gateway/service.py:881-901 | a run that is not aborted and succeeds is settled once, at the price of that usage |
| `StreamRecord.FailureIsNamed` | backend/app/gateway/service.py:819-938 | a run whose last attempt failed ends with one error of that class, as a mid-stream failure iff the flag was set |
| `ChunkRecord.ChunksAreRecorded` | backend/app/adapters/llm/provider.py:358-409 | over the adapter's events this is the usage of the last usage chunk, and the text and last finish reason of the choices in the other chunks |
| `StreamingSafety.LeaksIff` | backend/app/gateway/service.py:732-818 | exactly which adapter scripts deliver content and are still failed over |
| `StreamingSafety.BracketedNeverLeaks` | backend/app/gateway/service.py:732-818 | a script that starts a tool call before its fragments is none of them |
| `StreamingSafety.SingleSourceIff` | backend/app/gateway/service.py:669-938 | a consumed stream is content of the last attempted deployment and its terminal iff no earlier attempt leaked |
| `StreamingSafety.BracketedStreamsAreSafe` | backend/app/gateway/service.py:669-938 | with bracketed adapters every consumed stream has a single source |
| `StreamingSafety.ContentThenOneTerminal` | backend/app/gateway/service.py:819-938 | every stream is content followed by exactly one terminal, `usage` then `done` iff a result was recorded, else `error` |
| `StreamingSafety.DeltasSpellTheResult` | backend/app/gateway/service.py:819-870 | on `done` the concatenated deltas are the recorded content |
| `StreamingSafety.OrphanFragmentMixesSources` | backend/app/gateway/service.py:732-818 | a concrete setting whose trace mixes two deployments |
| `ToolCalls.Stream` | backend/app/adapters/llm/provider.py:358-409 | the chunk loop emits the specified events |
| `ToolCalls.MergedMeans` | backend/app/adapters/llm/provider.py:206-231 | a merged call has the id and name of its first piece and the concatenated arguments of all its pieces |
| `ToolCalls.StreamRebuildsMessage` | backend/app/gateway/service.py:755-789 | for every chunk sequence the gateway's table equals the merge of the pieces in chunks without usage |
| `UsageChunks.HarmlessIff` | backend/app/adapters/llm/provider.py:369-409 | dropping the pieces of usage chunks keeps the message iff they carry no arguments, and each that starts a call is repeated by the first kept piece of that call |
| `UsageChunks.StreamRebuildsAllIff` | backend/app/gateway/service.py:755-789 | the gateway's table equals the merge of all pieces the provider sent iff that condition holds |
| `UsageChunks.UsageAlone` | backend/app/adapters/llm/provider.py:369-409 | nothing is dropped iff no usage chunk carries a tool piece |
| `UsageChunks.UsageChunkLosesCall` | backend/app/adapters/llm/provider.py:370-373 | any call that arrives in one usage chunk is lost |
| `LateHeaders.FirstPieceSufficesIff` | backend/app/adapters/llm/provider.py:380-389 | taking id and name from the first piece agrees with taking the first that is not empty iff none arrives late |
| `LateHeaders.LateNameIsLost` | backend/app/adapters/llm/provider.py:380-389 | any name that arrives with the second piece is lost |
| `ToolCalls.AdapterIsBracketed` | backend/app/adapters/llm/provider.py:358-409 | for every chunk sequence fragments follow the start of their own call |
| `ToolCalls.AdapterStreamsAreSafe` | backend/app/adapters/llm/provider.py:358-409 | streams over such adapters, wherever they break, have a single source |
| `ToolCalls.FinalizeToolCalls` | backend/app/gateway/service.py:940-963 | a list results iff there are calls and each has id, name and decodable arguments; it is then the calls in index order, each with its id, its name and its decoded arguments |
| `ToolCalls.ParseKeepsNamed` | backend/app/adapters/llm/provider.py:206-231 | parsing a message keeps the calls with a name in their order, arguments decoded, empty for no text, or word for word if they cannot be decoded |
| `ToolCalls.KeptCalls` | backend/app/gateway/service.py:755-789 | the final calls are the parse of the merge of the kept pieces |
| `UsageChunks.StreamedCalls` | backend/app/gateway/service.py:940-963 | for any cutting that usage chunks do not harm, streaming gives the calls that parsing the whole message gives |
| `Coordinator.MutualExclusion` | backend/app/session/coordinator.py:166-237 | in every reachable state: one confirmed lease per thread over all processes, one live lease per thread and process even when degraded, local waiters served in arrival order |
| `Coordinator.OthersCannotTouch` | backend/app/session/coordinator.py:26-40 | no step of another call changes a live key, so stale releases and renewals are harmless |
| `Coordinator.FreeWithinLease` | backend/app/session/coordinator.py:181-209 | one lease after a call stopped, by release, crash or cancellation, its key is gone |
| `Coordinator.HandOver` | backend/app/session/coordinator.py:84-96 | after a release the key is free at once iff the process has not marked Redis unavailable |
| `LeaseTerms.GrantLasts` | backend/app/session/coordinator.py:189-209 | a free key becomes a lease that is confirmed for its full term and no longer, and Redis names its holder as long |
| `LeaseTerms.RenewalExtends` | backend/app/session/coordinator.py:166-179 | in every reachable state a heard renewal of a confirmed lease counts its term from then on; an unheard one leaves what was confirmed |
| `LeaseTerms.WaitIsShared` | backend/app/session/coordinator.py:189-237 | over every run the local queue and the polling share one wait: a call gives up no earlier and sends no SET later |
| `LeaseTerms.LockKeysEqualIff` | backend/app/session/coordinator.py:113-114 | for tenant ids without a colon two requests share a lock iff they are for the same thread |
| `Succession.KeyLeftBehind` | backend/app/session/coordinator.py:181-207 | a reachable confirmed lease whose key survives its release, after one failed command of the process |
| `Succession.PassesIff` | backend/app/session/coordinator.py:211-237 | in every reachable state a thread can still change hands inside a process, without a crash, iff its lock is not held by a call cancelled while polling or inside its release |
| `Succession.CancelIff` | backend/app/session/coordinator.py:84-96 | after a cancellation, in `acquire` or in `release`, it can iff it could before and the call was still waiting for the local lock |
| `Succession.CancelledPollBlocks` | backend/app/session/coordinator.py:211-237 | a reachable state after a cancelled poll in which no run without a crash passes the thread on |
| `Succession.CancelledReleaseBlocks` | backend/app/session/coordinator.py:84-96 | the same after a cancelled release whose key Redis has deleted; a second release changes nothing |
| `Succession.EntersIff` | backend/app/session/coordinator.py:189-209 | while a call holds its lease, another process can be granted the thread at once iff Redis has no live key for it; a confirmed lease has one |
| `Coordinator.LapsedLeasesOverlap` | backend/app/session/coordinator.py:74-79 | a reachable state in which two processes hold one thread, the first lease no longer confirmed |
| `Admission.AdmissionSafety` | backend/app/gateway/admission.py:124-164 | for any interleaving and any cancellations the counter is held slots plus increments that are no slots, slots stay within the cap, and free plus held permits are constant per tenant and platform |
| `Admission.NothingLeaksIff` | backend/app/gateway/admission.py:61-67 | when all calls are over, refused ones included and however often handles were released, all accounts are at their start iff no call leaked |
| `Admission.RunLeakIff` | backend/app/gateway/admission.py:137-164 | in a run a call leaks iff it is cancelled, in `admit` or in `release`, behind the tenant semaphore |
| `Admission.CancelledReleaseLeaks` | backend/app/gateway/admission.py:61-67 | a reachable state with both permits taken by a cancelled release that a second release does not change |
| `Admission.RefusedIff` | backend/app/gateway/admission.py:124-135 | a connected call is refused iff held slots and pending rollbacks fill the cap |
| `Admission.RefusedWithSlotsFree` | backend/app/gateway/admission.py:124-135 | a reachable state with a cap of one, no slot held, and a call that is refused |
| `Cooldown.UnavailableIff` | backend/app/gateway/cooldown.py:37-45 | the counter test is exactly: enough failures since the one that opened the current period, uncleared, period not over |
| `Cooldown.UnavailableOnlyIf` | backend/app/gateway/cooldown.py:96-132 | unavailable only with `allowed_fails` failures in the last period and nothing that cleared them since the first |
| `Cooldown.AvailableAgain` | backend/app/gateway/cooldown.py:37-45 | however many failures follow, the deployment is available when the opening failure's period ends |
| `Cooldown.CooldownCache.RecordFailure` | backend/app/gateway/cooldown.py:96-108 | extends that deployment's history alone; the count reaches back to the failure that opened the period |
| `Cooldown.CooldownCache.RecordSuccess` | backend/app/gateway/cooldown.py:110-117 | clears that deployment's history alone |
| `Cooldown.CooldownCache.IsAvailable` | backend/app/gateway/cooldown.py:119-132 | true iff the recorded history is not cooling down |
| `Cooldown.CooldownCache.Reset` | backend/app/gateway/cooldown.py:156-180 | clears exactly the deployments in scope and counts the live ones |
| `Breaker.DependencyBreaker.IsOpen` | backend/app/gateway/cooldown.py:249-255 | open iff the failures since the last success reach the threshold, at every time |
| `Breaker.DependencyBreaker.RecordFailure` | backend/app/gateway/cooldown.py:262-274 | adds a failure to the streak and stamps the opening once |
| `Breaker.DependencyBreaker.RecordSuccess` | backend/app/gateway/cooldown.py:276-282 | ends the streak |
| `Breaker.DependencyBreaker.Probe` | backend/app/gateway/cooldown.py:284-295 | a successful probe ends the streak, a failed one leaves it and restarts the clock |
| `Estimator.EstimateMessages` | backend/app/context/estimator.py:57-82 | the loop is the sum over the messages taken one by one |
| `Estimator.EstimateIsLeast` | backend/app/context/estimator.py:48-55 | the estimate is the least number of tokens whose characters cover the text |
| `Estimator.Subadditive` | backend/app/context/estimator.py:48-55 | the estimate of two texts run together is at most the sum of their estimates |
| `Estimator.PartsBoundWhole` | backend/app/context/estimator.py:57-82 | the count by parts is at least the estimate of the concatenation |
| `Turns.WalkTail` | backend/app/context/assembler.py:247-267 | fails iff a walked turn has raw text only; otherwise gives the specified walk |
| `Turns.WalkIsGreedy` | backend/app/context/assembler.py:247-267 | the walk is first fit over the turns on offer: kept, omitted and remaining budget |
| `Packing.GreedyIsGreatest` | backend/app/context/assembler.py:247-267 | every other selection that fits is lexicographically below first fit |
| `Packing.ContiguousIff` | backend/app/context/assembler.py:258-263 | first fit skips nothing iff no item after the leading run fits into what that run leaves |
| `Assembler.Assemble` | backend/app/context/assembler.py:161-299 | the staged loops compute the specified outcome, error cases included |
| `Assembler.AddKnowledge` | backend/app/context/assembler.py:271-287 | takes the leading documents up to the first that does not fit and reports the rest |
| `AssemblerSafety.Accounting` | backend/app/context/assembler.py:161-299 | `total_tokens` equals an independent count of the produced messages and is within the budget |
| `AssemblerSafety.AccountingByLength` | backend/app/context/assembler.py:161-299 | under the length heuristic it lies between the estimate of the concatenation and window minus reserve |
| `AssemblerSafety.SucceedsIff` | backend/app/context/assembler.py:161-299 | success iff the budget is positive, no turn violates redaction and the filled prompt fits |
| `AssemblerSafety.EverythingFits` | backend/app/context/assembler.py:161-299 | when all blocks fit together, assembly succeeds and omits nothing |
| `AssemblerWitnesses.CrowdedOut` | backend/app/context/assembler.py:289-295 | a job under the length heuristic that succeeds without its one turn and fails with it |
| `AssemblerSafety.NoGapIff` | backend/app/context/assembler.py:258-263 | no older turn is rendered after an omitted newer one iff every turn behind the leading ones is too big for what they leave |
| `AssemblerWitnesses.GapInTheTail` | backend/app/context/assembler.py:258-263 | a job whose older turn is rendered and whose newer one is omitted |
| `AssemblerSafety.TailIsBest` | backend/app/context/assembler.py:247-267 | the rendered turns are the lexicographically greatest newest-first selection that fits; every turn on offer is rendered or reported, once |
| `PromptLayout.PromptIsLaidOut` | backend/app/context/assembler.py:161-299 | every prompt is, by index: the system prompt, the summary layers in order, the memory block, turns of the job in ascending (seq, index) order, the leading documents in rank order, the current message, and nothing else |
| `PromptLayout.TurnsAreAccountedFor` | backend/app/context/assembler.py:320-355 | a turn is rendered or reported as left out iff it is of the user or the assistant, behind the summary position, and has something to show |
| `PromptLayout.BlocksAreReported` | backend/app/context/assembler.py:189-245 | summary and memory are reported as left out iff they exist and do not fit into what the mandatory prefix leaves |
| `PromptLayout.OmissionsAreReported` | backend/app/context/assembler.py:247-287 | exactly the omitted documents and turns are reported, turns by message id, else by sequence number |
| `PromptLayout.FailsOnRawIff` | backend/app/context/assembler.py:339-350 | assembly fails closed iff such a turn has raw text only, whatever room there is behind the system prompt |
| `AssemblerSafety.KeptTurns` | backend/app/context/assembler.py:320-355 | rendered turns are turns of the input in ascending (seq, index) order, none at or before the summary position, each by its redacted text or the placeholder |
| `AssemblerSafety.KnowledgeIsLeadingRun` | backend/app/context/assembler.py:271-287 | documents are a permutation in descending score and the block is their longest leading run that fits |
| `Redaction.HiddenTextIsIrrelevant` | backend/app/context/assembler.py:320-355 | changing the raw text of turns, or either text of a turn whose tool result is cleared, changes nothing in the outcome |
| `Sse.ChunkBoundariesInvisible` | widget/src/transport/sse.ts:172-186 | for every string, splitting a prefix, keeping the open piece and going on equals splitting the whole |
| `Splitter.SplitIncremental` | widget/src/transport/sse.ts:180-182 | the same for any separator that more text cannot change |
| `Sse.FramesPrintAll` | backend/app/api/routes/conversations.py:1206-1212 | printed frames split back into exactly those frames with nothing left over |
| `Widget.ReadPrinted` | widget/src/transport/sse.ts:218-238 | every printable frame is read back with its id, event and data |
| `Widget.ParseFrame` | widget/src/transport/sse.ts:218-234 | the line loop computes the specified reading |
| `Delivery.WireRoundTrip` | widget/src/transport/sse.ts:172-189 | any frames, printed and cut into any chunks, reach the dispatcher as the same sequence of id, event and data |
| `Client.Stream.OnChunk` | widget/src/transport/sse.ts:174-187 | one read handles the complete frames of buffer plus chunk in order and keeps the open piece |
| `Client.Stream.ReadConnection` | widget/src/transport/sse.ts:172-187 | a connection read chunk by chunk from an empty buffer leaves what folding the chunks leaves |
| `Client.Stream.HandleFrame` | widget/src/transport/sse.ts:218-328 | one frame changes the visible state as specified |
| `Client.ChunkingIrrelevant` | widget/src/transport/sse.ts:172-189 | the final state does not depend on how the text was cut |
| `Client.SyncIff` | widget/src/transport/sse.ts:240-281 | a frame keeps the text equal to the released deltas iff it is not id-less or non-JSON text |
| `Client.SyncKept` | widget/src/transport/sse.ts:252-281 | over any id-carrying JSON frames the text is the concatenation of the released deltas |
| `Client.ClosedIff` | widget/src/transport/sse.ts:240-328 | over any frames the exchange is over iff a result or an error with a JSON body has come |
| `Client.RetractionKeepsPrefix` | widget/src/transport/sse.ts:269-281 | with increasing ids a retraction from k keeps exactly the deltas below k, a prefix |
| `Client.RetractionShowsPrefix` | widget/src/transport/sse.ts:269-281 | and the visible text is the text of that prefix |
| `Client.ReleasedStayIncreasing` | widget/src/transport/sse.ts:252-281 | over any frames with increasing delta ids, retractions among them, the released deltas stay increasing |
| `Client.RetractionOverFrames` | widget/src/transport/sse.ts:252-281 | after any such id-carrying JSON frames a retraction from k leaves exactly the deltas below k, a prefix, as list and as text |
| `StreamBuffer.Buffer.Append` | backend/app/infrastructure/stream/buffer.py:173-222 | ids increase by one and the record joins the hot tier, spilling the oldest beyond the cap |
| `StreamBuffer.Buffer.Replay` | backend/app/infrastructure/stream/buffer.py:224-257 | the memory tier gives exactly the newer records of the log; the Redis tier gives the newer overflow rows and its whole list |
| `StreamBuffer.PushKeepsLog` | backend/app/infrastructure/stream/buffer.py:143-222 | spilling loses nothing: the log grows by exactly the new record |
| `StreamBuffer.MemoryReplay` | backend/app/infrastructure/stream/buffer.py:224-257 | the memory tier replays exactly the newer records, whatever has spilled |
| `StreamBuffer.ReplayIff` | backend/app/infrastructure/stream/buffer.py:224-257 | replay gives exactly the newer records iff the hot tier is memory or holds nothing the client saw |
| `Delivery.ConnectionDelivers` | widget/src/transport/sse.ts:174-195 | a connection cut at any character delivers exactly a first part of the records it carries |
| `Delivery.ExactlyOnce` | widget/src/transport/sse.ts:330-357 | over any number of broken connections the widget's deltas are a gap-free, duplicate-free prefix of the growing log |
| `Delivery.RedisReconnectIff` | backend/app/infrastructure/stream/buffer.py:224-257 | a reconnect to the Redis tier, cut anywhere, shows a prefix of the log's deltas iff the part between the first hot record and the widget's position that it repeats has none |
| `Delivery.DeltaShownTwice` | backend/app/api/routes/conversations.py:1434-1462 | a widget that has shown a stream's one delta shows it twice after such a reconnect |
| `SemanticCache.StoreBoundsIndex` | backend/app/gateway/cache.py:306-329 | after a store the index is within capacity, each id once, and only lowest ranks gave way |
| `SemanticCache.FindBest` | backend/app/gateway/cache.py:276-293 | none iff no live indexed entry reaches the threshold; else a best-scoring one, newest among equals |
| `SemanticCache.Cache.FindSimilar` | backend/app/gateway/cache.py:268-304 | the answer is that entry's, and exactly its entry and the index get a new time to live |
| `SemanticCache.Cache.Store` | backend/app/gateway/cache.py:306-329 | the transaction's effect, keeping the index ranked and within capacity |
| `SemanticCache.Cache.PurgeTenant` | backend/app/gateway/cache.py:331-343 | an uninterrupted purge empties the index and deletes exactly the indexed entries |
| `CacheLife.EntryLives` | backend/app/gateway/cache.py:306-329 | a stored entry, with its item, is live exactly until its time to live has passed, and other entries are as before |
| `CacheLife.StoreThenFind` | backend/app/gateway/cache.py:268-329 | a lookup within that time whose query reaches the threshold gets an answer iff the index has not lapsed, and the stored one when nothing is closer |
| `CacheLife.HitExtends` | backend/app/gateway/cache.py:294-301 | a hit keeps its entry and the index for another time to live and touches no other entry |
| `CacheLife.TenantsAreApart` | backend/app/gateway/cache.py:214-218 | for tenant ids without a colon, tenants share neither an index nor an entry |
| `CacheMachine.PurgedIsGone` | backend/app/gateway/cache.py:268-343 | in every interleaving a lookup that starts after a purge completed returns only what was stored after it |

## Left out

- Rounding of floating point in USD, scores, estimates and the two-digit score in knowledge blocks; the text of a knowledge block is a parameter.
- Redis failures in quota, admission, cooldown and cache: enforcement is deliberately off there. The coordinator's Redis failures are modelled.
- Expiry of the admission counter and of quota windows.
- `Coordinator`, `Admission`, `QuotaMachine`, `CacheMachine`: calls suspend between commands, so these are machines over values rather than classes; a command takes effect and is answered in one step, except that a coordinator reply may be lost and a cancelled command may or may not have run.
- `Engine.ExecuteChain`: does not model cancellation, because the source catches only `Exception` there; nor the gap in `generate` between reserving and the chain, where nothing releases.
- `Generator.StreamGenerator.Run`: with several cancellations it states at most one complete settling call, not which books each schedule leaves; a settling call is complete or cut, its single keys are those of `QuotaMachine`.
- `Cooldown.CooldownCache.Reset`: reads and deletes the keys in one step, and takes glob characters in a provider name literally.
- `Client.Stream.OnChunk`: does not model the flush of a trailing piece at a clean end of stream, nor the limit on reconnect attempts and its delays.
- `Delivery.ExactlyOnce`: assumes that a replay holds exactly the newer records, which the memory tier meets and the Redis tier meets under the condition of `ReplayIff`; retractions are treated separately in `Client`.
- `Client.Stream.HandleFrame`: does not model session ids, callbacks and the type error that a JSON `null` raises.
- `StreamBuffer.Buffer.Append`: does not model the single Redis commands of an append, nor a Redis loss that moves a stream to memory midway.
- `Estimator.EstimateMessages`: message contents are texts, as the assembler makes them; payloads counted by their serialised size are not modelled.
- UTF-8 decoding, white space and case beyond ASCII, and signs in `parseInt`.
- JSON decoding, cosine similarity, failure classification and provider behaviour are parameters of the theorems.
- Chars-per-token overrides, the Anthropic adapter's stream, the exact cache, latency tracking and catalog updates: each would add easy members only.
- The other routes, persistence, authentication, governance, moderation, compaction and the frontends.
