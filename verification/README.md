# Verified models of OpenAB

Dafny models of four parts of OpenAB, with proofs of what they promise. Each part is modelled branch by branch from the
Rust source; code that updates state in place is a class or a loop proved equal to a pure function, and the guarantees
are proved about those functions and about runs of step relations built from them.

| part | source | files |
|---|---|---|
| Native work admission: durable acceptance, the in-flight ledger, its guard, the `agent.work` protocol | `src/ctl.rs`, `crates/openab-core/src/native_work_acceptance.rs` | `AgentWork`, `LedgerModel`, `WorkLedger`, `Admission`, `AdmissionInvariant`, `AdmissionTruth`, `AtMostOnce`, `AdmissionRuns`, `Waiters`, `Readmission`, `Divergence`, `Conflicts`, `Replies`, `LedgerOrder`, `EvictionRuns`, `AgentWorkHandler` |
| Tunnel catalog and discovery: advertised names, routing, the fetch cache | `src/acp_tunnel_source.rs` | `Names`, `CatalogModel`, `CatalogProperties`, `CatalogNames`, `TunnelCatalog`, `Discovery`, `DiscoveryRuns`, `TunnelSource` |
| agy-acp streaming and output: protobuf reading, the poller, the output loop | `agy-acp/src/protobuf.rs`, `streaming.rs`, `main.rs` | `Protobuf`, `Utf8Text`, `Streaming`, `StreamingProperties`, `StepPayloads`, `OutputLoop`, `DrainBeforeExit` |
| Agent transcript: the tool loop, truncation, Chat Completions translation | `openab-agent/src/agent.rs`, `llm.rs` | `Transcript`, `TranscriptProperties`, `TranscriptHistory`, `ChatTranslation`, `ChatContent` |

`dafny verify dfyconfig.toml` checks everything.

## How the concurrent parts are modelled

* **Admission** (`Admission.dfy`). A caller is a stage between two awaits of `handle_agent_work`. Fifteen kinds of step
  interleave freely: the durable claim, the reservation, a waiter's subscription, wake-up, timeout and second
  reservation, a rejection, the accepted admission, the acknowledgement write and its failure, the promotion, a dropped
  caller, a deferred release and a restart that keeps only the durable store. The ledger capacity is a parameter. A
  `watch` channel holds its value and the set of live receivers, and a send with no receiver stores nothing. The list of
  accepted admissions and of answers is the history the guarantees speak about. `WorkLedger` is the same ledger as a
  class, `AgentWorkHandler` one whole call as a method, and both are proved equal to the functions the steps use.
* **Discovery** (`Discovery.dfy`). Attach, detach, the snapshot, listing, resolving and spawning of any number of
  rounds, and the landing and flag-clearing of fetches are separate steps. Tickets number fetches in spawn order.
* **Output loop** (`OutputLoop.dfy`). Reading stdin, the two arms of the select, each message of the inner drain, the
  handling of a line, and each send of a spawned task are separate steps; a task may crash at any point.

Hashes are injective: a request, or its payload, stands for its hash. Real time is a nondeterministic step. The
validation of a request, the destination, trust and adapter checks are one nondeterministic rejection. Names are compared
by character, which for UTF-8 is the byte order Rust uses.

## Where the code differs from its comments

The model follows the code.

* A waiter that subscribes after the holder's send does not observe the final value (`src/ctl.rs:1499-1502`): the channel's
  first receiver was dropped, so that send stored nothing. `Waiters.SettlementReachesListeners` says exactly when a
  settlement is stored, `Waiters.WokenExactlyIfKept` exactly which waiters can still be woken, and
  `Waiters.LateSubscriberIsStranded` is a run with one that cannot. Safety is not affected.
* Admission is not exactly-once (`src/ctl.rs:363-364` speaks of that invariant). `AtMostOnce.AtMostOnceAdmission` states
  how two admissions can come about, `Readmission.AdmittedExactlyIfOpen` from which states a further one is possible, and
  `Readmission.AdmittedNowExactlyIfOpenNow` from which it is possible without a restart;
  `Waiters.DroppedHolderIsAdmittedTwice` and `EvictionRuns.EvictedShieldIsAdmittedTwice` are runs of both kinds.
* A waiter's second reservation can create a slot that nobody releases, and ownerless slots arise in no other way
  (`AdmissionRuns.OrphansAreLeaks`; `Waiters.RetriedSlotIsOrphaned` is such a run). While one is at a claimed dispatch's
  key, that dispatch cannot be admitted before a restart (`Readmission.AdmittedNowExactlyIfOpenNow`).
* The capacity does not bound the completed entries (`src/ctl.rs:370-373`): they exceed it exactly if, since the last
  attempt on a free key or restart, a promotion came when they were as many as the capacity
  (`EvictionRuns.ExceededExactlyIfOverfilled`), and at every capacity some run gets there
  (`EvictionRuns.CompletedExceedCapacity`).
* The stamp on a cached tool set does not by itself stop a superseded fetch: exactly a resolution left over from before a
  reconnect makes the set be fetched again (`DiscoveryRuns.RefetchedExactlyIfPending`).
* A later delivery does not always return the identical envelope
  (`crates/openab-core/src/native_work_acceptance.rs:111-112`): the first acknowledgement stored for a dispatch stays, and
  a second holder answers with its own. All answers agree at all times exactly if no holder comes to record another
  acknowledgement than the stored one (`Divergence.AgreeExactlyIfNoneDiverges`); `Divergence.DiffersExactlyIfLoose` says
  from which states a differing answer can still be sent, and `Divergence.SecondHolderDiffers` is a run that sends one.
  Every answer is genuine all the same (`AdmissionRuns.TruthfulReplay`).
* A delivery under a re-claimed lease can become a payload conflict (`src/ctl.rs:1443-1446`), because the fingerprint in
  the ledger includes the lease. `Conflicts.ConflictsExactly` says exactly when a delivery is refused so, and
  `Conflicts.ReclaimedLeaseConflicts` is such a run.
* A reply without any text closes the transcript but is reported as "exceeded maximum tool loop iterations"
  (`TranscriptProperties.EmptyReplyIsReportedAsError`).

## Model

Some small members only apply or read off a function of the same shape and have no row: `OutputLoop.MainLoop.Receive`;
`SpawnDiscovery`, `LandFetch` and `ClearFlag` of `TunnelSource.AcpTunnelSource`; `Protobuf.ExtractTextFromStepPayload`;
`LedgerModel.TryReserveTaken`; `DiscoveryRuns.StaleStampIsRefetched`. They tie the classes and steps to the results.

| member | source | states |
|---|---|---|
| `AgentWork.ClaimOrReuse` | crates/openab-core/src/native_work_acceptance.rs:80-109 | the first claim of a dispatch id pins its payload and execution id for good; a later claim conflicts exactly if its payload differs, and otherwise gets the pinned row |
| `AgentWork.RecordAcknowledgement` | crates/openab-core/src/native_work_acceptance.rs:113-134 | the first acknowledgement stored stays; no other row, payload or execution id changes |
| `AgentWork.KeysCollide` | src/ctl.rs:1439-1442 | colon-joined ledger keys of different dispatches can be equal while their fingerprints differ |
| `LedgerModel.TryReserveFree` | src/ctl.rs:306-320 | an attempt on a free key installs a reservation, keeps every other reservation, loses completed entries only, keeps queue and map in step, and leaves a ledger that fits or holds reservations only |
| `LedgerModel.DropDoneCuts` | src/ctl.rs:374-400 | eviction removes exactly the first k completed keys in reservation order, k the smaller of the excess and their number, and keeps every reservation and the order of the rest |
| `LedgerModel.EvictMakesRoom` | src/ctl.rs:357-373 | eviction keeps reservations, removes completed entries only, and stops at the capacity or when none is left |
| `LedgerModel.ScanRemoves` | src/ctl.rs:390-395 | removing a completed key in the scan leaves the same final queue to be reached |
| `LedgerModel.ScanSkips` | src/ctl.rs:396-398 | stepping over a reservation in the scan leaves the same final queue to be reached |
| `WorkLedger.AgentWorkLedger.TryReserve` | src/ctl.rs:290-321 | the object's update is the function of the step relation, and queue and map stay in step |
| `WorkLedger.AgentWorkLedger.CompleteWithDone` | src/ctl.rs:325-341 | promotes a reservation and nothing else, with the wake-up |
| `WorkLedger.AgentWorkLedger.ReleaseInFlight` | src/ctl.rs:346-355 | removes a reservation from map and queue and nothing else; says whether there was one |
| `WorkLedger.AgentWorkLedger.EvictIfOverCapacity` | src/ctl.rs:374-400 | the scanning loop ends and computes the eviction that `DropDoneCuts` describes |
| `WorkLedger.InFlightGuard.Drop` | src/ctl.rs:450-490 | an armed guard releases its key at once, hands it to a deferred release, or without a runtime waits for the lock and releases; a disarmed one does nothing |
| `AdmissionInvariant.StepGrowsStore` | src/ctl.rs:1455-1468 | no step deletes or re-pins a durable row or changes a stored acknowledgement |
| `AdmissionInvariant.StepKeepsClaims` | src/ctl.rs:1455-1468 | every caller's durable row exists, pins its payload and carries the execution id it will report |
| `AdmissionInvariant.StepKeepsOwned` | src/ctl.rs:1509-1596 | every holder and every deferred release stands for an in-flight slot on a channel of its own, under its own key |
| `AdmissionTruth.StepKeepsTruth` | src/ctl.rs:1771-1819 | every stored, cached or pending acknowledgement was built from an accepted admission, and every cached one has a stored counterpart |
| `AtMostOnce.RunKeepsInv` | src/ctl.rs:1412-1820 | all of the above in every reachable state |
| `AtMostOnce.SameDispatchSameKey` | src/ctl.rs:1439-1468 | callers past the durable claim of one dispatch id share one ledger key, whatever their leases |
| `AtMostOnce.MutualExclusion` | src/ctl.rs:1509-1596 | in every reachable state at most one caller of a dispatch is between reservation and promotion or release, and then no deferred release for its key is outstanding |
| `AtMostOnce.PromotionShields` | src/ctl.rs:1806-1819 | after a promotion every other caller of the dispatch either can no longer come to hold it or would find the cached acknowledgement |
| `AtMostOnce.HoldingNeedsEviction` | src/ctl.rs:1473-1512 | such a caller comes to hold the dispatch only after the cached acknowledgement was evicted by another reservation |
| `AtMostOnce.OnlyStaleComesToHold` | src/ctl.rs:1469-1480 | if the acknowledgement was stored when a holder ended, only a caller that had read an empty one and not yet reserved can come to hold the dispatch, and only without a restart |
| `AtMostOnce.AtMostOnceAdmission` | src/ctl.rs:1412-1820 | over any run, if one dispatch id gets two accepted admissions, the first holder ended in between; had its acknowledgement been stored by then, the second holder had read an empty one and not yet reserved, and the end was no restart; and if the end was a promotion, the cached acknowledgement was evicted while the second was still to reserve |
| `Readmission.AdmittedExactlyIfOpen` | src/ctl.rs:1455-1596 | in every reachable state some continuation accepts an admission of a dispatch exactly if no acknowledgement of it is stored, or it can be admitted without a restart |
| `Readmission.AdmittedNowExactlyIfOpenNow` | src/ctl.rs:1455-1596 | in every reachable state some continuation accepts an admission of a dispatch with no restart before it exactly if the dispatch is unclaimed, or no ownerless slot is at its key and either no acknowledgement of it is stored or a caller of it is to reserve or holds a reservation |
| `Readmission.ClosedForever` | src/ctl.rs:1469-1480 | a dispatch that is not open stays so, through restarts |
| `Readmission.RestartReadmits` | src/ctl.rs:1469-1472 | from any run with no acknowledgement stored, a restart, a claim with the pinned payload and a reservation admit the dispatch again |
| `Readmission.EvictCompleted` | src/ctl.rs:374-400 | from any run and at every capacity, enough other reservations evict the completed entry at a waiting caller's key and leave that caller as it was |
| `AdmissionRuns.KeeperFollowsSlot` | src/ctl.rs:427-490 | as long as a kept slot is in flight, its holder or a deferred release keeps it |
| `AdmissionRuns.OrphanOrigin` | src/ctl.rs:1533-1549 | a slot without keeper is created only by a waiter's second reservation |
| `AdmissionRuns.OrphanStays` | src/ctl.rs:1568-1587 | such a slot outlives every step but a restart |
| `AdmissionRuns.Ownership` | src/ctl.rs:1509-1596 | in every reachable state an in-flight slot has exactly one keeper, or was created by a waiter's second reservation since the last restart |
| `AdmissionRuns.OrphansAreLeaks` | src/ctl.rs:1533-1587 | in every reachable state the in-flight slots without a keeper are exactly those created by a waiter's second reservation since the last restart |
| `AdmissionRuns.PromotionTakesEffect` | src/ctl.rs:1804-1813 | a promotion always finds the holder's slot and caches a genuine acknowledgement |
| `AdmissionRuns.TruthfulReplay` | src/ctl.rs:1473-1587 | every WORK_ACCEPTED on every path carries an acknowledgement built from an accepted admission of that dispatch and payload, under its execution id |
| `AdmissionRuns.OneAdmissionOneAck` | src/ctl.rs:1776-1803 | if one admission of a dispatch was accepted, all its WORK_ACCEPTED answers are equal; `Divergence` has the exact condition |
| `AdmissionRuns.SizeBound` | src/ctl.rs:357-400 | the ledger never exceeds the larger of the capacity and the most reservations held at once so far |
| `Waiters.RunKeepsListening` | src/ctl.rs:1528-1566 | a channel's receivers are exactly the callers waiting on it |
| `Waiters.SettlementReachesListeners` | src/ctl.rs:325-355 | a settlement is stored in its channel exactly if somebody is listening then, as finished for a promotion and as failed otherwise |
| `Waiters.StrandedForever` | src/ctl.rs:1550-1566 | a caller waiting on a Pending channel that no keeper stands for is never woken: in every later state it still waits or has left |
| `Waiters.WokenExactlyIfKept` | src/ctl.rs:1550-1566 | in every reachable state some continuation wakes a waiting caller exactly if its channel already has a final value or its reservation has a keeper |
| `Waiters.LateSubscriberIsStranded` | src/ctl.rs:1524-1566 | a run in which a waiter subscribes after the promotion, sees Pending, and is stranded |
| `Waiters.DroppedHolderIsAdmittedTwice` | src/ctl.rs:1596-1770 | a run in which a holder dropped after its admission leads to a second one |
| `Waiters.RetriedSlotIsOrphaned` | src/ctl.rs:1567-1587 | a run in which a woken waiter reserves again and leaves an in-flight slot with nobody to release it |
| `Divergence.AnswerOrigin` | src/ctl.rs:1473-1819 | every WORK_ACCEPTED carries the stored acknowledgement on a claim, the holder's own on its promotion, or the one cached for its very request on an attempt |
| `Divergence.AgreeExactlyIfNoneDiverges` | crates/openab-core/src/native_work_acceptance.rs:111-134 | over any run, all answers of a dispatch, its cached entries and its recorded callers carry the stored acknowledgement at all times exactly if no holder came to record another one while one was stored |
| `Divergence.DivergenceIsAnswered` | src/ctl.rs:1799-1819 | after any run that ends where a holder is to record another acknowledgement, recording and promoting send a WORK_ACCEPTED that is not the stored one |
| `Divergence.DiffersExactlyIfLoose` | src/ctl.rs:1469-1819 | in every reachable state some continuation has answered a dispatch with another acknowledgement than the stored one exactly if that has happened already, the dispatch can be admitted again, or a caller of it was admitted or has recorded otherwise |
| `Divergence.SecondHolderDiffers` | src/ctl.rs:1799-1819 | at every capacity, a run that stores one acknowledgement and answers with another |
| `Conflicts.RunKeepsSlotsPinned` | src/ctl.rs:1439-1447 | every slot is at the key of its request, whose payload the row of its dispatch pins |
| `Conflicts.ConflictsExactly` | src/ctl.rs:1443-1593 | over any run, a delivery is refused as a payload conflict exactly if its dispatch was claimed with another payload, or, past the claim, the slot at its key was made under another lease of the same dispatch and payload or for another dispatch |
| `Conflicts.RedeliveryConflictsExactly` | src/ctl.rs:1443-1593 | after any run, delivering a claimed and unanswered dispatch again with its payload is refused so exactly if the slot at its key is another request's |
| `Conflicts.ReclaimedLeaseConflicts` | src/ctl.rs:1443-1446 | at every capacity, a run in which a re-claimed lease is refused as a payload conflict |
| `Replies.CachedAckIsAnswered` | src/ctl.rs:1509-1587 | over any run, a first or second reservation attempt answers with an acknowledgement exactly if the slot at the caller's key holds that acknowledgement for its very request |
| `Replies.OtherAttempts` | src/ctl.rs:1509-1593 | otherwise a first attempt makes the caller holder of a free key, lets it join a reservation of its own request, and refuses it as a conflict if the slot is another request's; a second attempt tells it to retry |
| `Replies.OthersReply` | src/ctl.rs:1455-1819 | what every other step answers: the stored acknowledgement or a conflict on a claim, the holder's own acknowledgement on its promotion, the error code on each failure, nothing else; whoever is answered leaves |
| `Replies.StoreChanges` | crates/openab-core/src/native_work_acceptance.rs:80-134 | a step adds an empty row for the dispatch it claims, or stores a holder's acknowledgement where none was stored, and changes nothing else in the store |
| `Replies.AdmissionsChange` | src/ctl.rs:1750-1774 | only an accepted admission adds to the admissions, for its holder's request under its id |
| `Replies.SubscriberWaits` | src/ctl.rs:1524-1532 | a joiner that subscribes awaits a pending channel and retries at once on a settled one |
| `Replies.RunKeepsMatched` | src/ctl.rs:1509-1566 | in every reachable state a reservation in flight on a caller's channel was made for that caller's very request |
| `Replies.WaiterIsAnswered` | src/ctl.rs:1550-1585 | from every reachable state in which a caller awaits a holder's channel, the holder can go on to its promotion, and the waiter wakes and is answered with the holder's acknowledgement |
| `LedgerOrder.QueueIsReservationOrder` | src/ctl.rs:306-355 | in every reachable state the queue lists the keys by the steps at which they were reserved |
| `LedgerOrder.OldestIsEvicted` | src/ctl.rs:374-400 | over any run, a completed entry that is evicted was reserved before every completed entry that is kept |
| `LedgerOrder.EvictsNoMoreThanNeeded` | src/ctl.rs:374-400 | an attempt on a free key leaves as many entries as fit, if there were as many |
| `EvictionRuns.EvictedShieldIsAdmittedTwice` | src/ctl.rs:374-400 | at every capacity, a run in which a promoted dispatch is admitted again after its cached acknowledgement was evicted |
| `EvictionRuns.CompletedFitAfterReservation` | src/ctl.rs:370-373 | right after a new reservation the completed entries fit the capacity |
| `EvictionRuns.ExceededStep` | src/ctl.rs:325-400 | the completed entries exceed the capacity after a step exactly if they did before and it is neither a restart nor an attempt on a free key, or it is a promotion and they were as many as the capacity |
| `EvictionRuns.ExceededExactlyIfOverfilled` | src/ctl.rs:325-400 | in every reachable state they exceed it exactly if such a promotion came after the last restart or attempt on a free key |
| `EvictionRuns.CompletedExceedCapacity` | src/ctl.rs:325-340 | at every capacity, a run that leaves more completed entries than the capacity |
| `AgentWorkHandler.RuntimeHandler.HandleAgentWork` | src/ctl.rs:1412-1820 | one call's effect on store and ledger, with its guard, is `Handle` |
| `AgentWorkHandler.HandleExtendsRun` | src/ctl.rs:1412-1820 | after any run, a call that runs alone continues it by protocol steps, with the effect of `Handle` on store, ledger, callers, deferred releases, admissions and answers |
| `AgentWorkHandler.RetryIsNotAdmittedAgain` | src/ctl.rs:1469-1480 | a dispatch once answered WORK_ACCEPTED is accepted again without a new admission, under any lease, any ledger and after any restart |
| `AgentWorkHandler.AnsweredIsStored` | src/ctl.rs:1799-1819 | WORK_ACCEPTED is answered only once an acknowledgement with the request's payload is stored |
| `Names.PrefixOfDotted` | src/acp_tunnel_source.rs:319-325 | a dot-free name is the prefix of everything published under it |
| `Names.CandidatesDistinct` | src/acp_tunnel_source.rs:200-205 | the numbered names a rename tries are pairwise different |
| `Names.RenameTries` | src/acp_tunnel_source.rs:200-205 | the rename loop ends within one try more than there are used names, with the first unused candidate |
| `CatalogModel.Keeper` | src/acp_tunnel_source.rs:138-149 | the keeper is a publisher: the prefix's namesake if it publishes, else the least |
| `CatalogProperties.KeptOnce` | src/acp_tunnel_source.rs:183-192 | every published name is kept by exactly one listing, its keeper's first |
| `CatalogProperties.KeeperPassTakesPublished` | src/acp_tunnel_source.rs:183-192 | after the keeper pass the used names are exactly the published names |
| `CatalogProperties.AdvertisedNames` | src/acp_tunnel_source.rs:183-207 | advertised names are pairwise different; keepers' are verbatim and no rename is a published name |
| `CatalogProperties.RoutingInvertsCatalog` | src/acp_tunnel_source.rs:307-312 | one entry per listing, with the listing's own schema, and routing its advertised name gives back that server and published name |
| `CatalogProperties.RoutesExactlyAdvertised` | src/acp_tunnel_source.rs:307-312 | a name routes exactly if it is advertised |
| `CatalogProperties.PublishedNameRoutesToKeeper` | src/acp_tunnel_source.rs:138-192 | every published name is advertised and routes to its keeper |
| `CatalogProperties.KeeperRule` | src/acp_tunnel_source.rs:123-149 | the keeper of a name is its namesake if that publishes it; otherwise no publisher is less |
| `CatalogProperties.SortSorts` | src/acp_tunnel_source.rs:107-111 | sorting orders by name and keeps exactly the tools |
| `CatalogProperties.CatalogCanonical` | src/acp_tunnel_source.rs:160-207 | the order in which servers list distinctly named tools does not matter |
| `CatalogProperties.ToolsStrictlyIncrease` | src/acp_tunnel_source.rs:402 | the advertised list is strictly increasing by name and holds exactly the catalog's tools |
| `CatalogProperties.ListingBlock` | src/acp_tunnel_source.rs:175-181 | each server's tools are walked, all of them, as one block |
| `CatalogProperties.CatalogSize` | src/acp_tunnel_source.rs:160-224 | as many entries as listed tools |
| `CatalogNames.NamedVerbatimOrApart` | src/acp_tunnel_source.rs:183-207 | every entry is advertised under its published name, or under `<server>.<published>` unless a server published that or an earlier entry has it, or else under `<server>.<published>.<k>` with the least `k` from 2 on for which neither holds |
| `CatalogNames.DecimalIsNotation` | src/acp_tunnel_source.rs:200-205 | the number is in decimal notation, without leading zeros |
| `CatalogNames.LessIsLexicographic` | src/acp_tunnel_source.rs:144-148 | names compare by the first character that differs, a proper prefix first |
| `CatalogNames.SortIsStable` | src/acp_tunnel_source.rs:177-181 | tools of one name keep the order in which their server listed them |
| `CatalogNames.PrefixRouteExactly` | src/acp_tunnel_source.rs:319-325 | a name that was never advertised goes, unchanged, to the server named before its first dot, exactly if there is one and it is not empty |
| `CatalogProperties.NamesakeIsStable` | src/acp_tunnel_source.rs:319-325 | what a dot-free server publishes under its own prefix routes to it whatever other servers do, as the fallback before discovery does |
| `TunnelCatalog.CollectPublishers` | src/acp_tunnel_source.rs:161-169 | the map names, for every tool name, exactly its publishers |
| `TunnelCatalog.CollectKeepers` | src/acp_tunnel_source.rs:170-173 | the map gives every published name its keeper |
| `TunnelCatalog.CollectListings` | src/acp_tunnel_source.rs:175-181 | the walk order of both passes |
| `TunnelCatalog.KeeperPass` | src/acp_tunnel_source.rs:183-192 | the first pass assigns exactly the kept names |
| `TunnelCatalog.ChooseName` | src/acp_tunnel_source.rs:200-205 | the rename loop ends with the first unused candidate |
| `TunnelCatalog.RenamePass` | src/acp_tunnel_source.rs:193-207 | the second pass completes the assignment |
| `TunnelCatalog.BuildCatalog` | src/acp_tunnel_source.rs:160-224 | the whole construction in loops, maps and sets computes the catalog |
| `DiscoveryRuns.RunKeepsSingleFlight` | src/acp_tunnel_source.rs:248-287 | in every reachable state at most one fetch runs per key, and the flags are exactly the keys of the running fetches |
| `DiscoveryRuns.CacheOnlyGrows` | src/acp_tunnel_source.rs:262-286 | cached names never disappear, and an entry changes only when a fetch of its key succeeds |
| `DiscoveryRuns.CacheIsLatestFetch` | src/acp_tunnel_source.rs:266-280 | a cached set is the result of the latest successful fetch of its key |
| `DiscoveryRuns.CachedSetHasPublisher` | src/acp_tunnel_source.rs:377-398 | what is cached for a server was listed by a connection once attached under its name, and carries that connection's id |
| `DiscoveryRuns.LandingOrder` | src/acp_tunnel_source.rs:254-286 | fetches of one key land in the order they were spawned |
| `DiscoveryRuns.CurrentFetchSettles` | src/acp_tunnel_source.rs:272-280 | the attached connection's result settles the key, if no older resolution is left |
| `DiscoveryRuns.SettledRoundsFetchNothing` | src/acp_tunnel_source.rs:388-398 | rounds begun after that never fetch the key until it is attached under another id |
| `DiscoveryRuns.LandedFetchIsTheLast` | src/acp_tunnel_source.rs:388-398 | both together, over whole runs |
| `DiscoveryRuns.RefetchedExactlyIfPending` | src/acp_tunnel_source.rs:382-398 | after any run that has just cached the attached connection's set, and while that connection is not replaced, a later round can be about to fetch the key again exactly if a round still holds a resolution to another connection |
| `DiscoveryRuns.PendingRefetches` | src/acp_tunnel_source.rs:386-397 | every such leftover resolution leads there: its fetch overwrites the set, and a later round must fetch the attached connection again |
| `DiscoveryRuns.RegistryIsLatest` | src/acp_tunnel_source.rs:382-384 | a key resolves to a connection exactly if that was attached last and not detached since |
| `DiscoveryRuns.ClearedHasLanded` | src/acp_tunnel_source.rs:262-286 | a flag is lowered only after its fetch has returned |
| `DiscoveryRuns.RoundLists` | src/acp_tunnel_source.rs:366-378 | a round considers exactly the servers of its channel attached when it lists them and those cached at its snapshot |
| `DiscoveryRuns.VisitedOnce` | src/acp_tunnel_source.rs:380-398 | and resolves each at most once |
| `DiscoveryRuns.DueFetchIsSpawnedFirst` | src/acp_tunnel_source.rs:392-398 | and spawns a fetch that is due before it resolves the next |
| `DiscoveryRuns.SupersededSetLands` | src/acp_tunnel_source.rs:272-280 | a run in which a fetch begun before a reconnect lands after it |
| `DiscoveryRuns.LateResolutionRefetches` | src/acp_tunnel_source.rs:386-397 | such a leftover resolution is reachable |
| `TunnelSource.ServersOfMeaning` | src/acp_tunnel_source.rs:289-298 | a snapshot lists each discovered server of the channel once, in name order, with its cached tools |
| `TunnelSource.SpawnDueMeaning` | src/acp_tunnel_source.rs:380-398 | a round raises the flags of exactly the attached servers whose set is missing or from another connection, and starts one fetch per flag raised |
| `TunnelSource.AcpTunnelSource.Discovered` | src/acp_tunnel_source.rs:291-298 | computes the channel's snapshot |
| `TunnelSource.AcpTunnelSource.Route` | src/acp_tunnel_source.rs:307-312 | routes through the catalog of the snapshot |
| `TunnelSource.AcpTunnelSource.Tools` | src/acp_tunnel_source.rs:363-403 | with a session, advertises the catalog of the snapshot and, in a runtime, spawns what `SpawnDueMeaning` describes for the names listed and what each then resolves to; otherwise nothing |
| `TunnelSource.AcpTunnelSource.Call` | src/acp_tunnel_source.rs:405-440 | forwards to the attached connection of the routed server under the published name, or reports which of the two is missing |
| `TunnelSource.AdvertisedToolIsCallable` | src/acp_tunnel_source.rs:300-312 | over any run, an advertised name reaches the server whose schema was shown, under the name it published, as long as no fetch of the channel succeeds in between |
| `Protobuf.OrIsSum` | agy-acp/src/protobuf.rs:46 | or-ing a group shifted into a 64-bit word into the groups below it is adding it; `ReadVarint` gathers with this or |
| `Protobuf.ReadVarint` | agy-acp/src/protobuf.rs:39-53 | the loop that ors shifted groups together computes the base-128 value, at most ten bytes |
| `Protobuf.VarintRoundTrip` | agy-acp/src/protobuf.rs:39-53 | every 64-bit value is read back with its length before any suffix |
| `Protobuf.VarintFits` | agy-acp/src/protobuf.rs:39-53 | a value read fits 64 bits and takes at most ten bytes |
| `Protobuf.GetProtoField` | agy-acp/src/protobuf.rs:11-36 | the scanning loop is `GetField`, with the overflow of `i + len` as an outcome of its own |
| `Protobuf.FieldRoundTrip` | agy-acp/src/protobuf.rs:10-36 | on every well-formed field sequence the first matching length-delimited field is found, or none |
| `Protobuf.OversizedLength` | agy-acp/src/protobuf.rs:21-24 | behind any well-formed fields that do not match, a length that reaches 2^64 with its position overflows; for the field looked for, nothing else does, whatever follows |
| `Protobuf.MakePayload` | agy-acp/src/main.rs:1160-1171 | the test encoder's loops write field 1 inside field 20 |
| `Protobuf.ExtractFromFields` | agy-acp/src/protobuf.rs:3-8 | a step's text is found among any other fields, exactly if it is UTF-8 |
| `Protobuf.ExtractInvertsPayload` | agy-acp/src/main.rs:1160-1171 | extraction inverts the encoder for every text |
| `Utf8Text.Utf8Exactly` | agy-acp/src/protobuf.rs:7 | the UTF-8 check accepts exactly the encodings of sequences of Unicode scalar values, as section 3 of RFC 3629 defines them |
| `StepPayloads.BrokenBlob` | agy-acp/src/protobuf.rs:11-36 | behind well-formed fields, an unknown wire type, a length beyond the end or an unfinished varint ends the scan: what is in front of it is found, nothing behind it is |
| `StepPayloads.NoTextWithoutFields` | agy-acp/src/protobuf.rs:4-8 | a payload's text is field 1 of its field 20, if both are there and it is valid |
| `StepPayloads.CallOfFields` | agy-acp/src/protobuf.rs:67-76 | a tool step's call is read from field 4 of its field 5: named by field 2, or by field 9 without it, never empty, with field 3 as its input |
| `StepPayloads.RowIsRead` | agy-acp/src/streaming.rs:86-121 | a row is read as a text if its step type is 15, and as a call if it is one of the nine tool step types |
| `Streaming.StreamingState.PollStreamingDelta` | agy-acp/src/streaming.rs:80-168 | one poll's row loop is `OnRows`; `hadUpdates` says whether any poll sent something |
| `Streaming.StreamingState.PollRow` | agy-acp/src/streaming.rs:83-163 | one row: the text branch with its cut and its narration case, and the tool branch |
| `StreamingProperties.PollsAreRows` | agy-acp/src/streaming.rs:80-168 | how rows are grouped into polls does not matter |
| `StreamingProperties.PrefixEndsAtBoundary` | agy-acp/src/streaming.rs:101 | a text that extends another is never cut inside a character |
| `StreamingProperties.PollsPartitionText` | agy-acp/src/streaming.rs:86-121 | over any polls of growing texts no poll fails, the pieces of a step are in order exactly its first `emitted_len` bytes, and its chunks are the pieces whose text was no narration, or all if narration is shown |
| `StreamingProperties.ChunksSpellText` | agy-acp/src/streaming.rs:86-121 | if narration is shown or no text is narration, the chunks of a step spell its latest text |
| `StreamingProperties.UnchangedTableEmitsNothing` | agy-acp/src/streaming.rs:91-94 | polling rows seen before emits nothing and changes nothing |
| `StreamingProperties.ToolStepsOnce` | agy-acp/src/streaming.rs:120-163 | a step not announced before is announced exactly if the call of one of its rows can be read, once ever, with the call of the first such row, as a start directly followed by its update |
| `StreamingProperties.LastIsHighest` | agy-acp/src/streaming.rs:84 | the last index is the highest of the base and all rows |
| `StreamingProperties.PollsPanicExactly` | agy-acp/src/streaming.rs:91-101 | over any polls of any texts, a poll fails exactly if some text is longer than every earlier text of its step, is not suppressed, and has the middle of a character where the longest of them ended |
| `StreamingProperties.RewrittenTextPanics` | agy-acp/src/streaming.rs:101 | a table whose second text is cut inside a character |
| `OutputLoop.MainLoop.Drain` | agy-acp/src/main.rs:530-535 | the inner loop takes all queued messages in order |
| `OutputLoop.MainLoop.OnLine` | agy-acp/src/main.rs:530-653 | a line is answered by a spawned task, at once, or not at all |
| `DrainBeforeExit.StepKeepsCounted` | agy-acp/src/main.rs:499-526 | `pending_prompts` is the number of unfinished tasks and queued end markers |
| `DrainBeforeExit.StepKeepsFollowed` | agy-acp/src/main.rs:597-622 | a queued line's task is still running or its end marker is queued behind it |
| `DrainBeforeExit.NeverSaturates` | agy-acp/src/main.rs:509 | the saturating subtraction never saturates, over any run |
| `DrainBeforeExit.ExitMeansDrained` | agy-acp/src/main.rs:501-656 | when the loop has exited, all input was handled, every line handed over was written, each source's in order, no task is left, and each request with an id and a method has exactly one response |
| `DrainBeforeExit.DrainThenHandle` | agy-acp/src/main.rs:530-536 | taking the queued messages one by one and then handling the line in hand has the effect of `OnLine` |
| `DrainBeforeExit.LoopAnswersItsOwn` | agy-acp/src/main.rs:634-653 | over any run, the loop itself answers exactly the cancellations and unknown methods among the requests with an id, one response each; the others are left to tasks |
| `DrainBeforeExit.CrashBlocksExit` | agy-acp/src/main.rs:501-527 | a task that crashed keeps the loop from exiting |
| `DrainBeforeExit.NeverStuck` | agy-acp/src/main.rs:501-527 | after the end of input, with no crash, a step other than a notification is always open until the exit |
| `DrainBeforeExit.StepLeavesLess` | agy-acp/src/main.rs:501-527 | every such step leaves less to do |
| `DrainBeforeExit.DrainEndsInExit` | agy-acp/src/main.rs:501-527 | once input has ended and while no task crashes, every run can go on to the exit, within the work left |
| `DrainBeforeExit.DrainIsBounded` | agy-acp/src/main.rs:501-527 | and no continuation without notifications or crashes is longer than that |
| `Transcript.Agent.TruncateContext` | openab-agent/src/agent.rs:308-316 | the draining loop ends and computes the truncation |
| `Transcript.Agent.RunPrompt` | openab-agent/src/agent.rs:198-303 | the tool loop computes `Run`: the transcript, what each model call saw, and the text returned |
| `Transcript.ReadEvents` | openab-agent/src/agent.rs:223-237 | collects texts and calls in order, or stops at an error |
| `Transcript.ExecuteCalls` | openab-agent/src/agent.rs:268-289 | one result per call, in order, with its id |
| `TranscriptProperties.TruncationKeepsShape` | openab-agent/src/agent.rs:305-316 | truncation keeps the first message, the shape and the latest messages, and leaves at most 100 |
| `TranscriptProperties.RoundKeepsShape` | openab-agent/src/agent.rs:239-294 | a round appends an assistant message and, if it calls tools, the results its ids ask for |
| `TranscriptProperties.RunKeepsShape` | openab-agent/src/agent.rs:198-303 | from a closed transcript every model call sees an alternating, paired transcript of at most 100 messages that begins with the first prompt; the transcript is closed again exactly if the run ended in a reply |
| `TranscriptProperties.SeriesKeepsShape` | openab-agent/src/agent.rs:198-303 | the same over any series of runs that end in replies |
| `TranscriptProperties.NextRunNeedsReply` | openab-agent/src/agent.rs:198-221 | the next run's first call sees such a transcript exactly if the last run closed its own |
| `TranscriptProperties.FailedRunLeavesPrompt` | openab-agent/src/agent.rs:221-236 | after a failed call the next run shows the model two prompts in a row |
| `TranscriptProperties.EmptyReplyIsReportedAsError` | openab-agent/src/agent.rs:297-303 | a closed transcript with an error returned means exactly a reply without text |
| `TranscriptHistory.TruncationKeepsMost` | openab-agent/src/agent.rs:305-316 | a transcript of more than 100 messages is cut to 100 or 99, whichever has its parity: the first message and the latest ones |
| `TranscriptHistory.EventsInOrder` | openab-agent/src/agent.rs:223-237 | texts and calls are read in the order of the events, each once |
| `TranscriptHistory.ExchangeSays` | openab-agent/src/agent.rs:239-294 | an assistant message holds all text in one block and then a block per call; the message behind it reports each call's output with its flag, or its error marked as one, under its id |
| `TranscriptHistory.RoundsSay` | openab-agent/src/agent.rs:239-294 | so does every round of a run |
| `TranscriptHistory.RunFollowsConversation` | openab-agent/src/agent.rs:198-303 | over any run, each model call sees the truncation of the whole conversation so far; the model is called again exactly while it replies with calls and without errors; and the last call's answer says how the run ended and what it left |
| `TranscriptHistory.CallsSeeMost` | openab-agent/src/agent.rs:198-316 | so every model call sees the whole conversation, or all of it but the fewest oldest pairs |
| `TranscriptHistory.RunReturns` | openab-agent/src/agent.rs:258-303 | a run returns a text exactly if it is not empty and is all that its last call said, without errors or calls |
| `ChatTranslation.OpenAiChatMessages` | openab-agent/src/llm.rs:961-1022 | the translation loops compute `ChatMessages` |
| `ChatTranslation.ToolMessagesFollowCalls` | openab-agent/src/llm.rs:956-1022 | for every transcript the model is called with, each assistant message with calls is directly followed by one tool message per id, in order, before anything else, and there is no other tool message |
| `ChatTranslation.ParseOpenAiResponse` | openab-agent/src/llm.rs:1209-1253 | the Chat Completions path computes `ReadReply` |
| `ChatContent.TranslationCarries` | openab-agent/src/llm.rs:961-1022 | what is sent begins with the system text, and each message adds, behind the rest, exactly its tool results and then its text, or for an assistant its text and calls |
| `ChatContent.ResultsAndPromptsAreSent` | openab-agent/src/llm.rs:964-993 | for every transcript the tool messages sent are in order exactly the tool results of its user messages, under their ids and with their contents, and the user messages sent are their texts |
| `ChatContent.ReplyIsRead` | openab-agent/src/llm.rs:1209-1253 | a reply's events are its text unless missing or empty, its calls with their defaults, and a stop unless it stopped for tool calls |
| `ChatTranslation.TurnRoundTrip` | openab-agent/src/llm.rs:988-1247 | an assistant turn sent and read back is the same turn exactly if its text, when it has one, is not empty, and it is not wholly empty |

## Left out

* Sockets, HTTP, SQLite, the filesystem, subprocesses and Discord: only the tables, replies and queues they hand over appear.
* `thread.*` and `agent.status` commands, request, scope and destination validation, platform and reaction-channel choice, trust configuration, heartbeat availability.
* Wiring (`src/main.rs`, `src/acp_tunnel.rs`, `src/unified_adapter.rs`), provider selection, model tables, retry loops, log scanning, openab-auth-proxy and the file tools.
- `AgentWorkHandler.RuntimeHandler.HandleAgentWork`: one call with no other caller moving, so a joined reservation is always waited for in vain; interleavings are in `Admission`.
- `TunnelCatalog.BuildCatalog`: takes the servers as a sequence; that the source reads them from a sorted map is in `TunnelSource`.
- `Protobuf.ReadVarint`: the 64-bit word is a number below 2^64, its bitwise or is the function `Or` on numbers, and masks and shifts are written as remainders and multiples.
- `Protobuf.GetProtoField`: `Overflows` stands for an overflowing `i + len`, which panics in a debug build; what a release build does after wrapping is not modelled.
- `Streaming.StreamingState.PollStreamingDelta`: takes the selected rows; the query, the binding of the conversation id and the JSON text of an update are not modelled, `is_narration` is any predicate, and a blob whose length overflows counts as having no text.
- `StreamingProperties.PollsPartitionText`: for texts that only grow, as the poller assumes; `StreamingProperties.PollsPanicExactly` covers all texts.
- `OutputLoop.MainLoop.OnLine`: cancellation flags and the content of responses are not modelled; a response is its id.
- `Transcript.Agent.RunPrompt`: a run whose future is dropped half way is not modelled; tool execution and the model are inputs.
- `ChatTranslation.ParseOpenAiResponse`: the Chat Completions path only; JSON text is a pair of functions, inverse where a lemma needs it.
