# Verified model of a GPU-memory scheduler

A Dafny model of the bookkeeping and protocols of a Kubernetes scheduler that shares GPU memory (VRAM) between
slices: the scheduler's capacity cache and its reserve/confirm transaction, namespace quota, the gang binding gate,
the node agent's allocation protocol with its durable checkpoint, the gang reservation lifecycle, the priority work
queue, preemption planning, node scoring, and over-use enforcement with its eviction limit.

`dafny verify dfyconfig.toml` checks everything.

## How it is laid out

Each component that the program updates in place is a class whose methods are proved equal to a function on a plain
state value (`View()`); protocols are then state machines over those values, and the main results are invariants and
trace properties over every run. A mutex-held section is one atomic step, clocks are integers that do not go back, and
API reads and writes, hardware calls and clock readings are inputs that may fail.

| file | content |
|---|---|
| `Sums.dfy`, `Sequences.dfy` | sums over maps, independent of order; insertion into a sequence |
| `VRAMCache.dfy` | the capacity cache: state functions and the mutable class |
| `CacheConservation.dfy` | the books balance after a call if and only if its guard holds; no over-admission |
| `CacheAccounts.dfy` | the cache refines plain accounts of whose bytes are where, without counters |
| `CacheInterleaving.dfy` | release and fail split in two critical sections, any number of callers between the halves |
| `Quota.dfy`, `QuotaSafety.dfy` | the quota checker; true usage never exceeds the quota, with a lagging informer |
| `GangGate.dfy`, `GangInvariant.dfy` | the gate; what holds in every reachable gate |
| `GangTurns.dfy`, `GangHolds.dfy` | the verdict told by the earlier state, and whose turn it is; gate and cache holds together |
| `Score.dfy`, `Schedule.dfy` | node scoring; one scheduling cycle as a transaction on the cache |
| `Allocator.dfy`, `Agent.dfy`, `AgentManager.dfy` | the per-card ledger; the allocation protocol with crashes; the objects that run it |
| `Reservation.dfy` | tally, phase function, teardown and reconcile of a gang reservation |
| `WorkQueue.dfy`, `WorkQueueTraces.dfy` | the indexed heap queue; equivalence with a list queue |
| `Preemption.dfy` | victim planning |
| `Enforcement.dfy` | over-use detection and eviction |
| `EnforcementSafety.dfy`, `EnforcementDue.dfy` | spacing and justification of evictions; when warnings and evictions fall due |

## Where the code and its promises part

Each of these is kept as the code has it, shown by a lemma with a concrete state or run, and bounded by an exact
condition where one exists.

- Cache conservation is lost by a re-arm of a confirmed slice or on a missing node, a first promotion on an unregistered
  or a wrong node, a release, fail or forget that names another node, and a forget with an empty node name of an
  allocated slice. `CacheConservation.StepExact` says these are all: from balanced books a call conserves if and only if
  none of them applies.
- A node removed while a release is between its two halves can later offer bytes that a live slice occupies.
  `CacheInterleaving.RemovalExact`: whatever runs afterwards, free bytes are never overstated, if and only if nothing was
  in flight for the node; `CacheInterleaving.RemovalBetweenHalvesOverstates` is such a run.
- The gate's priority, age and name ordering never decides between two gangs, and its branch for a holder without members
  is unreachable (`GangInvariant.SlotGoesToCallerOrNobody`): the slot can only go to the caller's own cohort.
- A counted member whose re-check cannot see the reservation gives its hold back and stays counted, and a sibling then tips
  the quorum with a member that holds nothing (`GangHolds.UnseenReservationTipsUnheld`, reached from an empty gate in
  `GangHolds.UnheldQuorumIsReachable`). `GangHolds.GateExact`: a check keeps every counted member backed if and only if it
  sees the reservation or its caller is not counted.
- "No trace at Released" fails on one path: an allocation the status never recorded, freed from the ledger, whose record
  could not be deleted, is reported Released on the retry (`Agents.FailedEraseLeaksOnRetry`, a whole run in
  `Agents.LeakIsReachable`). `Agents.ReleasedIsCleanExactly` is the exact condition, whatever other writers do meanwhile.
- A quota can be exceeded in two ways: a bind that writes the node name and then fails, and a node removed before the
  informer shows a bind on it, leave bytes that neither the list nor the ledger shows
  (`QuotaSafety.PartialBindEscapesQuota` and `QuotaSafety.UnseenRemovalEscapesQuota` end with 20 bytes under a quota of 10).
  `QuotaSafety.MoveExact`: after a move from a safe world no guarded continuation ever exceeds the quota, if and only if the
  move is not one of these two, or no slice that loses its hold has a bind that is neither seen by the informer nor over
  nor otherwise accounted for.
- "In-zone nodes outrank out-of-zone nodes" holds up to a bound in free bytes: `Scores.ZoneOutranksExactly`.
- The queue's comments say that on a repeated Add the latest priority wins. A waiting request keeps the highest
  (`WorkQueueTraces.LatestPriorityDoesNotWin`); the latest wins only among Adds deferred while it is processed.
- First come, first served within a tier holds while nothing is taken on a tie, in particular while the clock advances
  between Adds. Of two Adds of one priority on one clock reading, behind an earlier one, the second is handed out first:
  taking the earlier one moves the last leaf of the heap to the root (`WorkQueueTraces.TwoBehindOne`).
  `WorkQueueTraces.FirstComeExactly`: behind whatever goes first the two come out in order, if and only if the clock
  advanced between them.
- A reservation phase decided on an old read can demote a newer phase (`Reservations.StaleDecisionDemotes`);
  `Reservations.StaleWriteExactly` says when it cannot, and `Reservations.StaleTeardownExactly` when a teardown that goes on
  from an old read of Failed cannot.
- The eviction window is half-open: a fourth eviction may follow the first by exactly five minutes
  (`EnforcementSafety.LimitExactly`).

## Model

| member | source | states |
|---|---|---|
| `VRAMCacheClass.VRAMCache.constructor` | internal/scheduler/cache.go:78-87 | a new cache is empty and not seeded |
| `VRAMCacheClass.VRAMCache.CanFit` | internal/scheduler/cache.go:154-168 | fits exactly when the node is registered, healthy and has the bytes free |
| `VRAMCacheClass.VRAMCache.AssumeSlice` | internal/scheduler/cache.go:174-208 | verdict for each refusal, and the new hold charged to its node; a refusal changes nothing |
| `VRAMCacheClass.VRAMCache.ConfirmSliceOrRearm` | internal/scheduler/cache.go:221-247 | moves an assumed hold to confirmed, or re-arms and charges a lost one |
| `VRAMCacheClass.VRAMCache.PromoteSliceToAllocatedOnce` | internal/scheduler/cache.go:258-271 | once per slice: the hold becomes allocated bytes and a ledger entry |
| `VRAMCacheClass.VRAMCache.PromoteConfirmedToAllocated` | internal/scheduler/cache.go:358-386 | the counter half of a promotion |
| `VRAMCacheClass.VRAMCache.ReleaseSliceOnce` | internal/scheduler/cache.go:274-293 | once per slice: ledger entry dropped, then the node's counter |
| `VRAMCacheClass.VRAMCache.FailSliceOnce` | internal/scheduler/cache.go:313-334 | as release, and the confirmed hold goes too |
| `VRAMCacheClass.VRAMCache.RollbackAssumedSlice` | internal/scheduler/cache.go:388-402 | drops an assumed hold and its charge |
| `VRAMCacheClass.VRAMCache.ReleaseConfirmedSlice` | internal/scheduler/cache.go:424-438 | drops a confirmed hold and its charge |
| `VRAMCacheClass.VRAMCache.ReleaseAllocated` | internal/scheduler/cache.go:440-451 | the counter half of a release, clamped at zero |
| `VRAMCacheClass.VRAMCache.ForgetSlice` | internal/scheduler/cache.go:411-422 | every hold, the allocation when a node is named, and the marker |
| `VRAMCacheClass.VRAMCache.UpdateNodeCapacity` | internal/scheduler/cache.go:455-483 | sets the total and never lowers allocated bytes |
| `VRAMCacheClass.VRAMCache.PinAssumption` | internal/scheduler/cache.go:634-642 | checks and extends a hold in one step |
| `VRAMCacheClass.VRAMCache.ReapExpiredAssumptions` | internal/scheduler/cache.go:108-125 | rolls back exactly the expired holds, in some order |
| `VRAMCacheClass.VRAMCache.RemoveNodeEntirely` | internal/scheduler/cache.go:506-533 | the node and everything held or recorded on it, and nothing else |
| `VRAMCacheClass.VRAMCache.PendingNamespaceBytes` | internal/scheduler/cache.go:652-675 | the sum of a namespace's holds outside the counted set |
| `CacheConservation.EmptyCacheBalances` | internal/scheduler/cache.go:78-87 | the empty cache has balanced books |
| `CacheConservation.GuardedStepConserves` | internal/scheduler/cache.go:108-533 | a guarded call keeps reserved equal to assumed plus confirmed, allocated at least the ledger, holds disjoint, Ready markers equal to the ledger; no unexplained byte appears and no clamp fires |
| `CacheConservation.UnguardedStepBreaks` | internal/scheduler/cache.go:221-271 | every unguarded call leaves the books wrong or bytes unexplained |
| `CacheConservation.StepExact` | internal/scheduler/cache.go:108-533 | conservation of a call if and only if its guard, which a caller can check |
| `CacheConservation.RunConserves` | internal/scheduler/cache.go:108-533 | the books balance after every guarded run |
| `CacheConservation.RearmOfConfirmedBreaks` | internal/scheduler/cache.go:238-246 | re-arming a confirmed slice, or on a missing node, always breaks the counters |
| `CacheConservation.MisplacedPromotionBreaks` | internal/scheduler/cache.go:258-271 | a first promotion on an unregistered or wrong node always breaks the counters |
| `CacheConservation.WrongNodeFree` | internal/scheduler/cache.go:274-293 | freeing a ledger entry against another node strands its bytes |
| `CacheConservation.ReapFrame` | internal/scheduler/cache.go:108-125 | the reaper leaves confirmed holds, markers and ledger alone |
| `CacheConservation.AdmissionExact` | internal/scheduler/cache.go:174-247 | a guarded call overbooks a node exactly when its room check fails |
| `CacheConservation.NoOverAdmission` | internal/scheduler/cache.go:174-386 | reserved plus allocated stays within total on every node of every admitted run |
| `CacheConservation.DisciplineSuffices` | internal/scheduler/cache.go:174-386 | fixed totals, no outside use, no re-arm and promotions within the reservation suffice: Assume's own check is enough |
| `CacheAccounts.CountersAreSums` | internal/scheduler/cache.go:127-136 | reserved, allocated and free bytes of a node are the sums the accounts give: holds on it, grants on it and outside use |
| `CacheAccounts.AssumesByAccounts` | internal/scheduler/cache.go:174-208 | a reservation is taken exactly when the slice holds nothing, the node is healthy and its bytes not granted, held or in outside use suffice |
| `CacheAccounts.AccountsFollow` | internal/scheduler/cache.go:108-615 | every guarded call does to the accounts the plain thing, written without counters, slice by slice |
| `CacheAccounts.RunFollows` | internal/scheduler/cache.go:108-615 | and so over every guarded run: the counting cache refines the accounts |
| `CacheAccounts.ReapedExactly` | internal/scheduler/cache.go:108-125 | a reap takes exactly the holds strictly past their time, in whatever order |
| `CacheAccounts.AnswersTell` | internal/scheduler/cache.go:174-203 | each refusal names its cause |
| `CacheInterleaving.SectionKeepsCovered` | internal/scheduler/cache.go:258-334 | every critical section keeps allocated bytes at least ledger plus frees in flight |
| `CacheInterleaving.FreeNeverOverstated` | internal/scheduler/cache.go:258-334 | in every interleaving, free bytes are not held, not in the ledger and not still being given back |
| `CacheInterleaving.RemovalExact` | internal/scheduler/cache.go:506-533 | after a node leaves, no orderly run ever overstates free bytes, if and only if nothing was in flight for it |
| `CacheInterleaving.LateHalfOverstates` | internal/scheduler/cache.go:274-293 | for every such state: the node returns, a new slice fills it, and the late half makes it offer occupied bytes |
| `CacheInterleaving.RemovalBetweenHalvesOverstates` | internal/scheduler/cache.go:274-293 | a run in which a removal between the halves offers bytes a live slice occupies |
| `Quotas.NamespaceUsage` | internal/scheduler/quota.go:108-136 | the loop's total and set are the sum and set of the listed slices, each once |
| `Quotas.FirstForIsFirst` | internal/scheduler/quota.go:51-75 | the first quota of the namespace governs |
| `Quotas.Check` | internal/scheduler/quota.go:51-96 | admits exactly when a list fails, no quota applies, or listed plus pending plus demand fits |
| `QuotaSafety.CheckerCoversOthers` | internal/scheduler/quota.go:98-136 | what the checker counts covers what all other slices truly hold, however far the informer lags |
| `QuotaSafety.DemandCoversOwn` | internal/scheduler/plugin.go:362-395 | the checked demand covers all that the slice or its whole gang can hold |
| `QuotaSafety.AskIsTheCycles` | internal/scheduler/plugin.go:88-105 | the question these runs put to the quota is the one a scheduling cycle puts: it gets past the quota exactly when asking issues a ticket, whole gang or solo slice |
| `QuotaSafety.FallingKeepsQuota` | internal/scheduler/cache.go:652-675 | moves that raise no slice's true bytes keep the namespace within quota |
| `QuotaSafety.MoveKeeps` | internal/scheduler/quota.go:51-136 | the invariant survives every guarded move of API, informer, worker, reaper and restart |
| `QuotaSafety.SafetyExact` | internal/scheduler/plugin.go:282-326 | a move keeps the invariant if and only if its guard holds |
| `QuotaSafety.LostOverdraws` | internal/scheduler/quota.go:51-136 | from every world with a bound slice nothing accounts for, some guarded run ends with more bytes held than the quota |
| `QuotaSafety.MoveExact` | internal/scheduler/plugin.go:282-326 | after a move from a safe world no guarded continuation exceeds the quota, if and only if the move is no half-done bind or node removal that hides an unseen bind |
| `QuotaSafety.QuotaNeverExceeded` | internal/scheduler/quota.go:51-136 | bytes truly held never exceed the quota in any guarded run mixing solo and gang admissions |
| `QuotaSafety.CacheFollows` | internal/scheduler/cache.go:108-533 | the holds these moves speak of are those of the cache, whichever of its operations a move runs |
| `QuotaSafety.PartialBindEscapesQuota` | internal/scheduler/plugin.go:282-326 | from a safe world a half-done bind and one more admission hold 20 bytes under a quota of 10 |
| `QuotaSafety.UnseenRemovalEscapesQuota` | internal/scheduler/cache.go:506-533 | so do a node removal before the bind is seen and one more admission |
| `GangGates.AdmissionLessTotal` | internal/scheduler/gang.go:414-422 | the admission order decides between any two distinct cohorts |
| `GangGates.AdmissionLessTransitive` | internal/scheduler/gang.go:414-422 | and is transitive |
| `GangGates.HeadExists` | internal/scheduler/gang.go:388-409 | a non-empty contending set has a head |
| `GangGates.HeadUnique` | internal/scheduler/gang.go:388-409 | and only one |
| `GangGateClass.GangBindingGate.ForgetCohort` | internal/scheduler/gang.go:438-447 | cohort, backoff and slot of that gang go, nothing else |
| `GangGateClass.GangBindingGate.ReapStaleCohorts` | internal/scheduler/gang.go:453-468 | exactly the unreleased cohorts past the maximum age go |
| `GangGateClass.GangBindingGate.PickAdmissionHead` | internal/scheduler/gang.go:388-409 | the head of the eligible set, whatever order the map is walked in |
| `GangGateClass.GangBindingGate.FreeStalledHolder` | internal/scheduler/gang.go:287-321 | a stalled holder loses slot, holds and seniority and is backed off, or is forgotten when it has no members; how long it stays away is `GangTurns.StallerStaysAway` |
| `GangGateClass.GangBindingGate.ClaimSlot` | internal/scheduler/gang.go:322-327 | a free slot goes to the head of the eligible set |
| `GangGateClass.GangBindingGate.SettleCaller` | internal/scheduler/gang.go:329-371 | wait and drop membership, join, or tip at the gang size |
| `GangGateClass.GangBindingGate.Admit` | internal/scheduler/gang.go:283-372 | free, claim, then wait, join or tip |
| `GangGateClass.GangBindingGate.CheckSliceWithCohort` | internal/scheduler/gang.go:154-372 | the whole check: verdict and new gate for every reading of the reservation |
| `GangInvariant.CheckKeepsOneForming` | internal/scheduler/gang.go:225-372 | the slot holder is tracked, unreleased and has members, and no other unreleased cohort has any: kept by every check |
| `GangInvariant.ReachableOneForming` | internal/scheduler/gang.go:225-372 | every reachable gate has at most one half-formed gang |
| `GangInvariant.OnlyCallerContends` | internal/scheduler/gang.go:388-409 | with the slot free, only the caller's cohort can contend |
| `GangInvariant.SlotGoesToCallerOrNobody` | internal/scheduler/gang.go:287-327 | a free slot goes to the caller's cohort or, in its backoff, to nobody; a stalled holder has members |
| `GangInvariant.TraceExplained` | internal/scheduler/gang.go:225-372 | every cohort's members and release are explained by the history of calls |
| `GangInvariant.AllowedMeansQuorum` | internal/scheduler/gang.go:242-365 | an Allowed for a reservation UID follows a quorum of distinct slices of that same UID within one slot tenure |
| `GangTurns.KeyInjective` | internal/scheduler/gang.go:213-213 | gangs of different namespaces or names never share a cohort, as namespaces hold no slash |
| `GangTurns.HeadIsMostUrgent` | internal/scheduler/gang.go:388-422 | the head has the highest priority of the contenders, is the oldest of that priority and the first by name of those equally old |
| `GangTurns.FirstDifference` | internal/scheduler/gang.go:414-422 | names are ordered by their first difference, a prefix before the longer name |
| `GangTurns.ClosedVerdict` | internal/scheduler/gang.go:154-211 | the verdict and gate of every check that is not of a live gang: no reservation, unseen or unreadable, terminal, no size |
| `GangTurns.VerdictExactly` | internal/scheduler/gang.go:225-372 | the verdict of a live gang by the state before it: Allowed once released or when the members counted with the caller reach the size, Wait while another holds the slot short of 20 s or the gang is away, Deferred otherwise, with members, slot and tenure afterwards |
| `GangTurns.CheckLeaves` | internal/scheduler/gang.go:329-371 | from any gate: a slice told to wait is counted nowhere, and a tip leaves the slot free and the gang with no wait to serve |
| `GangTurns.StallerStaysAway` | internal/scheduler/gang.go:287-321 | over histories: for 15 s from the check that takes the slot from a stalled gang, every check of that gang answers Wait and leaves it without the slot |
| `GangTurns.FreeSlotIsTaken` | internal/scheduler/gang.go:322-371 | meanwhile the slot is there for others: with nobody holding it the first live gang to check that is not away gets it, or tips |
| `GangTurns.OldCohortsGo` | internal/scheduler/gang.go:453-468 | after a check exactly the other unreleased cohorts older than 90 s are gone |
| `GangHolds.GateExact` | internal/scheduler/gang.go:154-372 | a check keeps every counted member backed by a hold if and only if it sees the reservation or its caller is not counted |
| `GangHolds.RunKeepsBacked` | internal/scheduler/plugin.go:107-122 | gate membership and cache holds stay in step over every guarded run |
| `GangHolds.TipIsBacked` | internal/scheduler/gang.go:346-365 | one tipping check: every counted member has an unexpired hold |
| `GangHolds.QuorumIsHeld` | internal/scheduler/gang.go:287-365 | in every guarded run quorum tips only while every counted member has an unexpired hold |
| `GangHolds.CacheFollows` | internal/scheduler/cache.go:108-402 | the holds of these runs are the cache's assumed holds, whichever of its operations a move runs |
| `GangHolds.UnseenReservationTipsUnheld` | internal/scheduler/plugin.go:199-229 | in every backed state: a counted member whose re-check does not see the reservation, or sees no gang size, loses its hold, and a sibling tips the quorum that counts it |
| `GangHolds.UnheldQuorumIsReachable` | internal/scheduler/gang.go:162-192 | a run from the empty gate to such a tip |
| `Scores.SortScores` | internal/scheduler/score.go:104-112 | descending and a permutation |
| `Scores.ScoreWithTopology` | internal/scheduler/score.go:58-112 | one score per registered node of the list, best first |
| `Scores.RanksByCost` | internal/scheduler/score.go:58-112 | of any two nodes the one of less cost ranks first: free bytes, plus 5*10^9 for a sliver under 4*10^9, less 10^12 in the preferred zone; the base weight and the best-effort penalty decide nothing |
| `Scores.TighterOutranksExactly` | internal/scheduler/score.go:70-82 | of two nodes alike in zone the tighter ranks first, unless it alone would be left a sliver and is not tighter by more than 5*10^9 |
| `Scores.ZoneOutranksExactly` | internal/scheduler/score.go:58-112 | an in-zone node outranks an out-of-zone one if and only if its free bytes exceed the other's by less than 10^12, plus 5*10^9 where the other leaves a sliver |
| `Scores.WinnerHonorsZone` | internal/scheduler/plugin.go:159-170 | within that bound the chosen node is in the zone |
| `Scheduling.ReservationTx.Confirm` | internal/scheduler/reserve.go:53-61 | marks the transaction confirmed and confirms or re-arms the hold |
| `Scheduling.ReservationTx.RollbackIfNotConfirmed` | internal/scheduler/reserve.go:72-78 | gives the hold back unless confirmed or held |
| `Scheduling.ReserveThenRollback` | internal/scheduler/reserve.go:38-78 | a reservation given back restores the cache exactly |
| `Scheduling.RollbackThenRearm` | internal/scheduler/cache.go:221-247 | a reaped and re-armed hold leaves every counter as it was |
| `Scheduling.ConfirmAfterPin` | internal/scheduler/plugin.go:259-277 | confirming a pinned hold has one result whether or not the reaper took it |
| `Scheduling.Filter` | internal/scheduler/plugin.go:124-131 | exactly the healthy nodes with room |
| `Scheduling.ConsultGate` | internal/scheduler/plugin.go:200-257 | takes the gate's check of this slice; goes on only on Allowed or not applicable, holds only on a deferral, and stops when slice or reservation cannot be read |
| `Scheduling.GateAndBind` | internal/scheduler/plugin.go:192-278 | the cache, with the reaper taking the hold during the gate check or the bind, and the result by verdict, surviving hold and bind call, before the deferred rollback |
| `Scheduling.TryPreemption` | internal/scheduler/plugin.go:134-160 | a preemption starts exactly for a solo slice whose eligible victims together free enough and could be marked, with the chosen plan |
| `Scheduling.Schedule` | internal/scheduler/plugin.go:71-180 | every case decided: warm-up, quota, hold of an earlier cycle, no room, confirmed already, and otherwise a reservation on a node with room that none undercuts in cost, judged by one gate check; success confirms the bytes (30 s from the pin, or re-armed), deferral leaves them assumed (30 s fresh, 50 s held) unless reaped, any other return restores everything or drops only the caller's hold |
| `Scheduling.QuotaWeighs` | internal/scheduler/plugin.go:362-395 | the checker passes exactly when a list fails, no quota governs, or listed bytes outside the gang, pending bytes no list shows, and gangSize times the request (the request for a solo slice) stay within the quota |
| `Scheduling.PickNode` | internal/scheduler/plugin.go:159-170 | the chosen node has room and no node with room costs less; there is always one |
| `Allocators.BestFitIsTightest` | internal/nodeagent/nvml/allocator.go:152-170 | a card is found exactly when one fits, and none that fits is tighter |
| `Allocators.BestFitIsFirst` | internal/nodeagent/nvml/allocator.go:152-170 | of equally tight cards the one listed first |
| `Allocators.PooledFree` | internal/nodeagent/nvml/allocator.go:152-170 | the free bytes a refusal reports are the cards' sums, an overdrawn card counting nothing |
| `Allocators.AllocateExact` | internal/nodeagent/nvml/allocator.go:94-148 | the ledger stays exact if and only if nothing is placed (malformed, repeat, no card fits) or the id is fresh |
| `Allocators.RestoreExact` | internal/nodeagent/nvml/allocator.go:231-245 | a restore keeps it exact if and only if the slice has no other allocation |
| `Allocators.RestoresExactly` | internal/nodeagent/nvml/allocator.go:231-245 | a record is taken up exactly when it names an id, card and bytes and the ledger lacks it, and then as recorded |
| `Allocators.AllocateIdempotent` | internal/nodeagent/nvml/allocator.go:94-148 | repeating a slice's request returns the same allocation and changes nothing |
| `Allocators.FragmentedExactly` | internal/nodeagent/nvml/allocator.go:152-170 | refused for lack of room exactly when no single card fits |
| `Allocators.AllocateThenRelease` | internal/nodeagent/nvml/allocator.go:94-224 | allocate then release restores the ledger |
| `Allocators.LedgerDetermined` | internal/nodeagent/nvml/allocator.go:211-245 | counters and slice index are determined by the entries |
| `AllocatorClass.Allocator.PickBestFit` | internal/nodeagent/nvml/allocator.go:152-170 | the loop finds the best fit and the pooled free bytes |
| `AllocatorClass.Allocator.AllocateSlice` | internal/nodeagent/nvml/allocator.go:94-148 | result and new ledger in every branch |
| `AllocatorClass.Allocator.ReleaseAllocation` | internal/nodeagent/nvml/allocator.go:174-224 | the entry, its bytes and its index go |
| `AllocatorClass.Allocator.ReleaseBySlice` | internal/nodeagent/nvml/allocator.go:193-224 | the same by slice, naming the allocation freed |
| `AllocatorClass.Allocator.RestoreAllocation` | internal/nodeagent/nvml/allocator.go:231-245 | re-adds a saved record |
| `Agents.StepKeeps` | internal/nodeagent/manager.go:38-166 | the protocol invariant survives every step, failure, crash and outside write |
| `Agents.CardsNeverOversold` | internal/nodeagent/manager.go:58-122 | slices that may use a card stay within total minus driver-reserved bytes, each with a matching ledger entry, index and record |
| `Agents.RunNeverOversells` | internal/nodeagent/manager.go:38-166 | and so in every run with failures and crashes between any two steps |
| `Agents.RestartedExact` | internal/nodeagent/manager.go:38-49 | a restart rebuilds an exact ledger of exactly the records |
| `Agents.RestartChargesEveryRecord` | internal/nodeagent/manager.go:38-49 | a restart charges the card for every record left, released or not |
| `Agents.TeardownIsCleanExactly` | internal/nodeagent/manager.go:124-166 | an uninterrupted teardown leaves no ledger, index or record entry except in one exact case |
| `Agents.ReleasedIsCleanExactly` | internal/nodeagent/manager.go:124-166 | the same case decides it when other writers act between the steps of a release that reports Released |
| `Agents.FailedEraseLeaksOnRetry` | internal/nodeagent/manager.go:144-166 | that case is reached by a failed delete and a retry |
| `Agents.LeakIsReachable` | internal/nodeagent/manager.go:58-170 | a whole run from a new agent that reports Released over a record on disk |
| `AgentManagers.Store.Save` | internal/nodeagent/checkpoint/checkpoint.go:74-102 | all or nothing, and never over a file that does not parse |
| `AgentManagers.Store.Delete` | internal/nodeagent/checkpoint/checkpoint.go:134-161 | all or nothing; a missing file counts as deleted |
| `AgentManagers.Store.LoadAll` | internal/nodeagent/checkpoint/checkpoint.go:55-72 | the whole table, or a failure |
| `AgentManagers.Manager.constructor` | internal/nodeagent/manager.go:32-55 | the ledger is the one rebuilt from the store |
| `AgentManagers.Manager.ReconcileSlice` | internal/nodeagent/manager.go:58-170 | what a reconcile achieves, for every combination of calls that fail: ledger, index, record and status afterwards, Ready or Failed or Released or how far it got, and a retry exactly when a needed call failed; and it is a run of protocol steps cut at the first failure |
| `AgentManagers.AllocationSettles` | internal/nodeagent/manager.go:71-122 | when the calls succeed a slice with an allocation or a card with room for it ends Ready with entry, index, record and status in agreement, and Failed exactly when no single card fits |
| `AgentManagers.ReleaseSettles` | internal/nodeagent/manager.go:124-166 | when the calls succeed a slice in release ends Released, with no ledger, index or record entry except in the one exact case |
| `AgentManagers.AllotTells` | internal/nodeagent/nvml/allocator.go:94-148 | what the allocator answers, by what the cards have left |
| `AgentManagers.SeededIsRestarted` | internal/nodeagent/manager.go:38-49 | the order in which records are restored does not matter |
| `Reservations.TallyChildSlices` | internal/controller/vgpugangreservation_reconciler.go:294-367 | each count is the number of children in that class; fails exactly when a read fails |
| `Reservations.TallyPartitions` | internal/controller/vgpugangreservation_reconciler.go:294-367 | the classes partition the children, ready ones among the reserved |
| `Reservations.HeldDegradedExactly` | internal/controller/vgpugangreservation_reconciler.go:428-456 | a committed gang is held degraded if and only if every child is scheduled, allocating or ready and too few are ready |
| `Reservations.ChildLossConfirmedDirect` | internal/controller/vgpugangreservation_reconciler.go:467-503 | confirms exactly when the first child not holding its allocation could be read |
| `Reservations.AllGone` | internal/controller/vgpugangreservation_reconciler.go:212-237 | true exactly when every claim and slice is absent; an error is not absence |
| `Reservations.Reservation.ApplyPhase` | internal/controller/vgpugangreservation_reconciler.go:506-549 | the status written, with the first reserving time and first failure reason kept |
| `Reservations.Reservation.ContinueTeardown` | internal/controller/vgpugangreservation_reconciler.go:207-260 | Released when all is gone, else Failed and another teardown |
| `Reservations.Reservation.Reconcile` | internal/controller/vgpugangreservation_reconciler.go:111-203 | the new status and whether survivors were deleted, for every reading, also when the status first read is not the latest |
| `Reservations.RankNeverFalls` | internal/controller/vgpugangreservation_reconciler.go:370-460 | one reconcile never lowers the phase rank |
| `Reservations.PhaseExactly` | internal/controller/vgpugangreservation_reconciler.go:370-426 | where a gang that is not committed goes, by its children: Committed iff none is Failed and gangSize are Ready, Reserved iff none is Failed and only slots suffice, Failed iff a slice is Failed, a slot is lost after Reserved, or the deadline passes short of slots, Reserving otherwise |
| `Reservations.OtherwiseNothing` | internal/controller/vgpugangreservation_reconciler.go:111-165 | a round that finds or reads too little, or suspects a loss the direct reader denies, changes nothing |
| `Reservations.StatusReports` | internal/controller/vgpugangreservation_reconciler.go:506-549 | slots held, ready and failed as counted, the clock stamped on the first Reserving, the first failure reason kept |
| `Reservations.ReasonTells` | internal/controller/vgpugangreservation_reconciler.go:375-456 | the reason of a failure is its cause, with the numbers of children missing and on their way out |
| `Reservations.LabelTells` | internal/controller/vgpugangreservation_reconciler.go:294-367 | what the status says of a child, class by class |
| `Reservations.CommittedFailsExactly` | internal/controller/vgpugangreservation_reconciler.go:141-165 | a committed gang fails if and only if a slice is Failed, or fewer than gangSize are ready, a child is lost and the direct reader, when wired, confirms it |
| `Reservations.CommittedTeardownIsConfirmed` | internal/controller/vgpugangreservation_reconciler.go:141-185 | survivors are deleted only on a Failed slice or a loss the direct reader saw |
| `Reservations.TearsDownExactly` | internal/controller/vgpugangreservation_reconciler.go:170-260 | the children are deleted by exactly the rounds that fail the gang or find it failed with children left |
| `Reservations.ReleasedExactly` | internal/controller/vgpugangreservation_reconciler.go:207-247 | Released is entered only from Failed, exactly with every claim and slice absent |
| `Reservations.DeadlineIsKept` | internal/controller/vgpugangreservation_reconciler.go:408-426 | no reconciled reservation stays Reserving past its deadline, 60 s unless the spec says otherwise |
| `Reservations.RunOnlyAdvances` | internal/controller/vgpugangreservation_reconciler.go:111-563 | over every run whose reads are recent enough the rank never falls, and deadline clock and first failure reason never change |
| `Reservations.ReleasedSawEveryChildGone` | internal/controller/vgpugangreservation_reconciler.go:207-247 | a run that ends Released has a round that found it Failed with every child gone |
| `Reservations.CommittedNeverDemoted` | internal/controller/vgpugangreservation_reconciler.go:395-402 | after Committed only Committed, Failed and Released |
| `Reservations.StaleDecisionDemotes` | internal/controller/vgpugangreservation_reconciler.go:506-549 | a decision on an old read demotes a committed gang |
| `Reservations.StaleWriteExactly` | internal/controller/vgpugangreservation_reconciler.go:370-549 | a decision on a read before Failed cannot demote, whatever the tally, if and only if the current phase ranks no higher than the one read, or than Reserving |
| `Reservations.StaleTeardownExactly` | internal/controller/vgpugangreservation_reconciler.go:207-260 | a teardown on an old read of Failed does not demote if and only if the reservation is not Released yet or every child is gone |
| `WorkQueues.StepKeepsSeparate` | internal/scheduler/priorityqueue/priorityqueue.go:112-176 | a request is never waiting and processing at once |
| `WorkQueues.RootFirst` | internal/scheduler/priorityqueue/priorityqueue.go:41-48 | nothing goes before the root of the heap |
| `WorkQueues.Queue.Swap` | internal/scheduler/priorityqueue/priorityqueue.go:50-54 | back-indexes stay the inverse of the heap and the contents stay |
| `WorkQueues.Queue.Fix` | internal/scheduler/priorityqueue/priorityqueue.go:127-132 | restores the heap after any one entry changed, contents unchanged, every entry where the sifts put it |
| `WorkQueues.Queue.Push` | internal/scheduler/priorityqueue/priorityqueue.go:56-60 | adds one entry to the contents, keeps heap and indexes, and places every entry |
| `WorkQueues.Queue.Pop` | internal/scheduler/priorityqueue/priorityqueue.go:62-70 | takes the root, which no other entry goes before, and only that, and places every other entry |
| `WorkQueues.Queue.Add` | internal/scheduler/priorityqueue/priorityqueue.go:112-141 | the abstract queue after an Add: ignored, deferred, raised or queued |
| `WorkQueues.Queue.Get` | internal/scheduler/priorityqueue/priorityqueue.go:145-159 | hands out a request that no waiting one goes before and marks it processing |
| `WorkQueues.Queue.Done` | internal/scheduler/priorityqueue/priorityqueue.go:164-176 | re-queues a deferred Add |
| `WorkQueueTraces.EveryStoryIsTold` | internal/scheduler/priorityqueue/priorityqueue.go:112-176 | in every run a waiting request has the greatest priority Added since it was queued, and an Add during processing queues it again at Done with the last such priority |
| `WorkQueueTraces.SamePick` | internal/scheduler/priorityqueue/priorityqueue.go:43-48 | the first of the highest priority in arrival order may come next, and nothing else unless it ties |
| `WorkQueueTraces.HeapRefinesList` | internal/scheduler/priorityqueue/priorityqueue.go:41-176 | while nothing is taken on a tie the heap queue and an arrival-ordered list accept exactly the same runs |
| `WorkQueueTraces.ListRunsAreHeapRuns` | internal/scheduler/priorityqueue/priorityqueue.go:41-176 | ties or not, every run of the list is one the heap order admits |
| `WorkQueueTraces.TimelyIsUntied` | internal/scheduler/priorityqueue/priorityqueue.go:134 | on an advancing clock nothing is ever taken on a tie |
| `WorkQueueTraces.QueueIsPriorityThenArrival` | internal/scheduler/priorityqueue/priorityqueue.go:1-10 | the same from empty queues |
| `WorkQueueTraces.TiesExactly` | internal/scheduler/priorityqueue/priorityqueue.go:43-48 | what may come next is exactly what ties with the best |
| `WorkQueueTraces.BehindThird` | internal/scheduler/priorityqueue/priorityqueue.go:41-70 | the heap of two entries behind a third, and what is left when the third is taken |
| `WorkQueueTraces.FirstComeExactly` | internal/scheduler/priorityqueue/priorityqueue.go:41-70 | two requests of one priority come out as queued, behind whatever goes first, if and only if the clock advanced between them |
| `WorkQueueTraces.TwoBehindOne` | internal/scheduler/priorityqueue/priorityqueue.go:112-159 | the queue, given two Adds behind an earlier one, hands out the second of them first exactly when they fall on one reading |
| `WorkQueueTraces.TiedArrivalsSwap` | internal/scheduler/priorityqueue/priorityqueue.go:112-159 | the queue, given three Adds of one priority on one reading, hands out the third request second |
| `WorkQueueTraces.ListRefusesTheSwap` | internal/scheduler/priorityqueue/priorityqueue.go:6-7 | an arrival-ordered list never hands out the second of them first |
| `WorkQueueTraces.LatestPriorityDoesNotWin` | internal/scheduler/priorityqueue/priorityqueue.go:109-132 | a later lower Add leaves the higher priority |
| `Preemption.SliceStable` | internal/scheduler/preemptor.go:232-269 | a sorted permutation in which ties keep their order |
| `Preemption.OneArrangement` | internal/scheduler/preemptor.go:232-241 | the order admits one arrangement only |
| `Preemption.SmallestSufficient` | internal/scheduler/preemptor.go:271-277 | the least sufficient victim, or none exists |
| `Preemption.Accumulate` | internal/scheduler/preemptor.go:282-293 | the shortest sufficient prefix, or everything |
| `Preemption.SelectVictims` | internal/scheduler/preemptor.go:232-301 | no plan exactly when there is no victim or all together fall short; otherwise the least single victim, else the shortest prefix |
| `Preemption.CandidateExactly` | internal/scheduler/preemptor.go:152-223 | exactly the other Ready, preemptible, ungrouped, readable slices with bytes, not cooling down, at least 100 priorities below the requester are candidates |
| `Preemption.PlanPreemption` | internal/scheduler/preemptor.go:152-301 | the same from the raw listing |
| `Preemption.PlanUnique` | internal/scheduler/preemptor.go:232-293 | the plan is determined by the eligible victims |
| `Preemption.PlanIsFrugal` | internal/scheduler/preemptor.go:243-293 | a single victim of least bytes, cheapest of these, where one is enough; else the cheapest victims by priority, bytes, age and listing, each needed, together less than twice the need, every spared one dearer |
| `EnforcementClass.Detector.Evaluate` | internal/nodeagent/slice_violation.go:219-234 | streak, onset, clearing and excess |
| `EnforcementClass.Detector.EvictionAllowed` | internal/nodeagent/enforcement.go:455-465 | in-place compaction keeps exactly the times in the window |
| `EnforcementClass.Detector.RecordEvictionTime` | internal/nodeagent/enforcement.go:467-469 | appends one time |
| `EnforcementClass.Detector.MaybeEvict` | internal/nodeagent/enforcement.go:371-412 | the pods evicted and the new limiter, handled and exempt pods skipped |
| `EnforcementClass.Detector.Enforce` | internal/nodeagent/enforcement.go:133-177 | timer, soft and evict deadlines per mode; that an eviction does fall due is `EnforcementDue.EvictionFallsDue` |
| `EnforcementClass.Detector.DetectOnce` | internal/nodeagent/slice_violation.go:139-215 | a whole cycle: every slice, then pruning of all that was not seen |
| `EnforcementSafety.KeptSuffix` | internal/nodeagent/enforcement.go:455-465 | on ascending times the compaction keeps a suffix |
| `EnforcementSafety.LimitExactly` | internal/nodeagent/enforcement.go:385-405 | an eviction the API grants goes through if and only if the third last one is at least five minutes old or missing |
| `EnforcementSafety.EvictionsAreSpaced` | internal/nodeagent/enforcement.go:371-469 | in every run any four successful evictions span at least five minutes |
| `EnforcementSafety.AtMostThreePerWindow` | internal/nodeagent/enforcement.go:371-469 | so at most three in any half-open five-minute window |
| `EnforcementSafety.RunKeepsTimers` | internal/nodeagent/slice_violation.go:139-215 | streaks and timers are explained by the cycles seen |
| `EnforcementSafety.EvictionIsEarned` | internal/nodeagent/enforcement.go:133-177 | every eviction follows at least 180 s, and two cycles more, in which every completed cycle saw the slice over its grant and tolerance; only in evict mode, of its own pod, not exempt |
| `EnforcementSafety.EvictedOnce` | internal/nodeagent/enforcement.go:371-412 | an evicted pod is not evicted again while completed cycles still find it |
| `EnforcementDue.HysteresisExactly` | internal/nodeagent/slice_violation.go:219-234 | a slice counts as violating exactly when each of the last three completed cycles saw it over its grant by more than 256 MiB |
| `EnforcementDue.TimerRuns` | internal/nodeagent/enforcement.go:133-165 | a slice over since two cycles before cycle k has its timer running from cycle k or before |
| `EnforcementDue.SoftExactly` | internal/nodeagent/enforcement.go:166-173 | soft enforcement engages, and stays, exactly for a slice over in every completed cycle since two before its timer started, at least 60 s after that start |
| `EnforcementDue.EvictionFallsDue` | internal/nodeagent/enforcement.go:133-177 | in evict mode, a slice over in every completed cycle since two before cycle k and read 180 s past it: each of its pods not dealt with, not exempt and granted by the API is evicted in this cycle, unless three evictions already lie in the window |
| `EnforcementDue.TrySettles` | internal/nodeagent/enforcement.go:371-412 | one try settles a pod exactly when the limit leaves room and the API evicts it or finds it gone |
| `EnforcementDue.HandledIsEarned` | internal/nodeagent/enforcement.go:371-412 | over runs, a pod is taken as dealt with only if it was evicted or found gone while cycles kept finding it |

## Left out

- `QuotaSafety.QuotaNeverExceeded`: one scheduling worker, guarded runs as in `QuotaSafety.MoveExact`, and a restart that starts from a current list.
- `GangHolds.GateExact`: a failed read of the slice itself, before the gate is asked, is the case of an unreadable reservation: the gate is untouched and the hold given back.
- `GangHolds.QuorumIsHeld`: guarded runs as in `GangHolds.GateExact`; no node or slice is removed, and a gate check comes within ten seconds of its hold.
- `GangInvariant.AllowedMeansQuorum`: holds of the gate's memory; a gate restart starts from an empty gate.
- `WorkQueueTraces.HeapRefinesList`: nothing is taken on a tie; on ties the order is the heap's own, as `WorkQueueTraces.FirstComeExactly` shows.
- `WorkQueues.Queue.Get`: blocking is the precondition that a request waits or the queue is shutting down; wake-ups of several waiting callers are not modelled.
- `Reservations.RunOnlyAdvances`: the phase read first is recent enough, which `Reservations.StaleWriteExactly` and `Reservations.StaleTeardownExactly` show to be needed.
- `Scheduling.Schedule`: the TTL reaper may take this slice's hold while the gate or the bind is in flight; other callers' sections in between are covered by `CacheInterleaving`, not here.
- The return for an empty score list after a filter that passed: it cannot happen, as `Scheduling.PickNode` shows.
- `Agents.RunNeverOversells`: readable checkpoint, never-repeated allocation ids, cards whose totals do not change; an unreadable checkpoint starts an empty ledger and nothing is claimed then.
- `EnforcementSafety.EvictionIsEarned`: within one lifetime of the detector; timers do not survive a restart.
- 64-bit overflow of byte counts and 32-bit overflow of tallies and priorities: integers are unbounded.
- Pointers and aliasing: queue items, node states and cohorts are values; a heap item's back-index is an entry of the index map.
- Kubernetes clients, watches, conflict retries, events, logs and metrics: plumbing; reads are values that may fail and writes that may not land.
- Deleting children in a teardown: an API effect, seen only through later reads; whether it happens is stated.
- Preemption ownership, cooldown writes, marking victims and rolling marks back: API optimistic concurrency.
- Seeding the cache after a scheduler restart, and slices in Preempting and Releasing that it misses.
- NVML enumeration, CDI files, JSON and file renames: the checkpoint is an atomic durable map, a CDI step one that may fail.
- Drift detection other than pruning records of slices that no longer exist.
- Pod stamps, conditions and events of soft enforcement, attribution of processes to slices, and workload profiles.
- Rate limiting and delayed Adds of the queue, webhooks, job and claim reconcilers, monitor mode and recommendations: stateless checks, mirrored objects and timers that touch none of the state modelled here.
