# Proofs about open-rl

This project models five parts of open-rl and proves what each promises.

**The scheduler's claim ledgers and joins** (`ClaimLedger`, `JoinProtocol`, `NodeTotals`, `JoinRace`, `Reconciler`,
`ClaimMoves`). The API server is a map of versioned ledgers and claims. Every accepted write is one atomic operation,
and any number of reconcilers interleave them in any order. `Reconciler` then runs the controller's compare-and-swap
loops as methods, with arbitrary operations of others between any two of its API calls, and shows that they perform
exactly those atomic operations. The central result is that booking first and verifying afterwards never leaves
verified seats that exceed a node's host memory, although listing claims and listing ledgers are two separate calls.

**Placement arithmetic and selection** (`Placement`, `Selection`, `Tiers`, `TierMeaning`, `FleetTiers`). Loops over
maps pick an arbitrary next element, so what is proved of them holds for every iteration order. The least contended
claim is selected, every size that can be used has its tier, tiers are realizable, and a fleet and a request determine
the catalog, the compiled tiers and the ranking of the nodes.

**The accelerator time slicer** (`TimeSlicer`, `SlicerSafety`, `SlicerFairness`, `SlicerTurns`, `SlicerBypass`,
`SlicerRestores`, `SlicerDevices`, `SlicerHazard`, `SlicerMonitor`, `CheckpointRestorer`). The monitor's critical
sections are functions, proved against methods on the fields; a machine interleaves them with waits, restores,
checkpoints, failures and lost connections. One workload per claim is on the devices, no wake-up is lost, turns are
taken in order and waiting is bounded, every restore has its checkpoint and every checkpoint is restored at the next
turn. `SlicerBypass`, `SlicerRestores` and `SlicerDevices` read the same off the steps of a run alone, without the
history that the machine keeps. `SlicerHazard` runs the same critical sections without the rule of one call in flight
per name, and shows what that rule is for. Methods that only update one entry have no row of their own below; what
they keep is `SlicerSafety.StepKeepsInv`.

**Sparse delta weight sync** (`SparseDelta`, `FusedLayout`, `LayoutMeaning`, `TrainerOffload`, `Gradients`,
`HostParameters`, `DeltaSaves`, `FftTraining`, `DeltaReceive`, `DeltaEngine`, `WeightSync`, `SyncSystem`,
`SyncLimits`, `SkippedSteps`). Tensor values are opaque, tensors are flat. From the trainer's diff to the sampler's
in-place patch the path is the identity on weights, over whole runs that also sleep, wake, save early and receive
twice, as long as an optimizer step waits until the previous delta has arrived. `SyncLimits` shows that the other
hypotheses are necessary, and `SkippedSteps` says what the sampler holds, element by element, when steps do not wait.

**Batching, queue and session reaper** (`TrainingBatches`, `BatchMeaning`, `RequestQueue`, `QueueFairness`,
`QueueWaiters`, `InMemoryStore`, `SessionReaper`, `SweepEnds`, `SessionRegistry`). The greedy packer is optimal; the
queue loses and reorders nothing, loses no wake-up, and serves everyone on a list in turn among the calls that look at
the list; the reaper never tears down an owner that a live session uses, tears down only owners whose sessions have
all lapsed, and does tear those down.

Five statements the repository suggests are not true of the code as it stands, and the exact condition is proved:

- Index bounds are checked before the first write, but the type of each target is checked only when its turn comes. A
  delta is refused for its type exactly when its targets are of more than one type (`LateRefusalIff`), and earlier
  targets may have been patched by then. `RefusedButPatched` is such a file; `RefusalChangesNothingIff` says when a
  refusal is harmless all the same.
- The queue does not serve everyone in turn. A call without a set, which is how the in-process worker asks
  (src/server/training_requests_processor.py:126 with no set given at src/server/api_server.py:517), looks at the first
  list with anyone on it. Work in the first set is served in turn; a tenant of a later set progresses exactly when every
  earlier set is idle or the tenant itself heads their work (`SetlessCallIff`), and can starve
  (`SetlessCallersCanStarve`). Calls for a set serve that set in turn.
- Sleeping is not invisible to the deltas of a parameter that stays in host memory beside an offloaded device, which
  a loader free to choose the devices (src/training/fft_trainer_worker.py:75) does not rule out. Waking makes it share
  storage with its host copy (src/training/fft_trainer_worker.py:616), so the next step finds no difference. The deltas
  can be relied on in every run exactly when no parameter with elements is kept there (`SleepsKeepDeltasIff`).
- The native format does not carry every delta: the sampler sizes all offsets by weights, so a bias behind another part
  of its fused tensor is misplaced unless the hidden size is one (`NativeOffsetIsRightWhen`, `MisplacedBiasGoesWrong`).
  Together with the previous point: the sampler can be relied on in every run exactly when the format's offsets are
  right and no parameter with elements is offloaded from host memory (`SamplerHoldsTheFusionIff`).
- A saved delta does not bring the sampler up to date after several steps. A batch may hold more than one optimizer step
  before its save (src/server/training_requests_processor.py:186-203), and each step overwrites the pending delta. The
  earlier steps' changes are lost (`FirstStepIsLost`); exactly which elements are right is `ElementIsCurrentIff`.

And one about the function alone: `Tiers`, called with sizes in an arbitrary order, compiles the same tiers for every
order exactly when sizes that share a tier name are the same size (`CatalogOrderIff`; `TwoSizesOfOneName` is a pair that
does not). It is only ever called on a catalog read off the fleet, which has one size per bucket, and then the tiers do
not depend on any iteration order: two catalogs of one fleet list the same sizes (`FleetHasOneCatalog`), so fleet and
request determine the tiers (`FleetDeterminesTiers`) and the node preferences (`FleetDeterminesRanking`).

What the model assumes:

- Any API call of the controller may fail, and a failed one has written nothing. Claim allocation, node memory and the
  reserved bytes of foreign pods are fixed during a run of the ledger model. Each assignment ID is minted once. A seat
  counts as verified for the incarnation of the claim it was verified on.
- A name keeps one claim for life in the time slicer; at most one acquire or release per name is in flight; a close or
  unregister does not overlap that name's own restore or checkpoint; a process whose connection closed or that
  unregistered is off the devices. A workload puts nothing on the devices outside its grants; the slicer grants turns
  and cannot enforce them. The clock is arbitrary; only `NobodyOvertakesTwice` and what it builds on ask that
  completed releases read increasing times.
- Which parameters stay in host memory does not change. Forward passes and optimizer steps happen while the trainer is
  awake, keep shapes, keep optimizer tensors where they are and create new ones beside their parameter; what they
  compute is arbitrary.
- The sampler's parameters start as the fusion of the trainer's, have one type, and the trainer's names come in whole
  groups of the configured sizes.
- A fleet keeps nodes and claims under their own names, and no node's name is empty; memory requests are not negative.
- One API server process, since the owner locks live in it.

Check everything with `dafny verify dfyconfig.toml` (Dafny 4.11).

## Model

| member | source | states |
|---|---|---|
| `ClaimLedger.EveryRunKeepsLedgersOk` | scheduler/controller/internal/controller/ledger.go:56-170 | After any sequence of bookings, releases, retirements, claim creations and deletions and list calls, every ledger has at least one seat, one seat per workload name, and an exclusive seat only when it is the only one |
| `ClaimLedger.StepKeepsLedgersOk` | scheduler/controller/internal/controller/ledger.go:88-104 | One atomic operation keeps that invariant of every ledger |
| `ClaimLedger.PlacedKeepsOk` | scheduler/controller/internal/controller/ledger.go:95-104 | Replacing or appending a compatible seat keeps a ledger well-formed, including a recreated exclusive worker replacing its predecessor |
| `ClaimLedger.BookMeans` | scheduler/controller/internal/controller/ledger.go:63-107 | A booking takes effect if and only if the seat is new and the ledger is missing and may be created, or has no seat of that incarnation and none of another workload that either side excludes; it then replaces the seat under its name and keeps all others, at a newer version |
| `ClaimLedger.ReleaseMeans` | scheduler/controller/internal/controller/ledger.go:139-154 | A release takes exactly the seats of its name off a ledger that others are on, and the whole ledger away exactly when nobody else is |
| `ClaimLedger.SeatsAreOnlyLostByName` | scheduler/controller/internal/controller/ledger.go:118-127 | A booked seat disappears only by a release under its own workload name or a booking of another incarnation under that name |
| `ClaimLedger.LedgersAreOnlyRetiredByTheLastSeat` | scheduler/controller/internal/controller/ledger.go:146-154 | A ledger disappears only by a retirement in a version whose seats all carry the releaser's name |
| `ClaimLedger.RetiredUntilRecreated` | scheduler/controller/internal/controller/ledger.go:51-64 | An absent ledger stays absent through every run until a booking that may create it |
| `ClaimLedger.SameVersionSameLedger` | scheduler/controller/internal/controller/ledger.go:106-113 | A ledger seen again at a version no later than an earlier revision is the very ledger of that revision, which is what makes the conditional writes safe |
| `JoinProtocol.VerifiedSeatsFitTheirNode` | scheduler/controller/internal/controller/workload_controller.go:519-556 | No overcommit: after any sequence of operations by any number of reconcilers, with anything between booking, listing claims, listing ledgers and the decision, the verified seats on a node that reports memory and the bytes the configuration reserves there fit its host memory |
| `NodeTotals.AnyVerifiedSeatsFit` | scheduler/controller/internal/controller/workload_controller.go:519-556 | The same without any recursive total: whichever verified seats one picks on the claims of such a node, the sum of their bytes and its reserved bytes is within its memory |
| `NodeTotals.ListedTotal` | scheduler/controller/internal/placement/placement.go:162-176 | The total a join compares is the sum over every seat booked on every listed claim of the node, each once |
| `JoinProtocol.StepKeepsInv` | scheduler/controller/internal/controller/workload_controller.go:523-526 | Each operation keeps the history invariant: what was booked before a passing join listed the claims still fits |
| `JoinProtocol.PassingJoinFits` | scheduler/controller/internal/controller/workload_controller.go:543-549 | A passing check covers every seat booked before the join's first list, though claims and ledgers are listed at different moments |
| `JoinProtocol.StepKeepsVerdict` | scheduler/controller/internal/controller/workload_controller.go:519-526 | No later booking, release or retirement makes the seats an earlier verdict counted heavier |
| `JoinProtocol.LatestSawIt` | scheduler/controller/internal/controller/workload_controller.go:523-526 | The join that listed last saw every other verified seat of the node |
| `JoinRace.RacersMayOvershootAndBothYield` | scheduler/controller/internal/controller/workload_controller.go:523-526 | A run in which two booked seats overshoot a node that either would have fit, and both joins see it, so neither is verified |
| `JoinRace.JoinPassesIff` | scheduler/controller/internal/placement/placement.go:162-176 | Six bytes alone on a node of ten: the run that books them and lists verifies them if and only if at most four bytes are reserved on the node |
| `Reconciler.EnsureSeat` | scheduler/controller/internal/controller/ledger.go:56-116 | Under any interference between its API calls, a success leaves the seat on the ledger and made exactly one booking, or none when an existing seat of the incarnation was adopted; contention means a refusal on the ledger as read or five lost writes, an API error that a call failed, and neither wrote anything |
| `Reconciler.TryBook` | scheduler/controller/internal/controller/ledger.go:59-113 | One pass of the booking loop: a write conditioned on the version read is the atomic booking, and no answer means exactly one write was lost |
| `Reconciler.CheckCompatible` | scheduler/controller/internal/controller/ledger.go:92-99 | The loop over seats accepts exactly when no other workload's seat conflicts on exclusivity |
| `Reconciler.LocateSeat` | scheduler/controller/internal/controller/ledger.go:199-207 | Returns the first seat under a name, or none when there is none |
| `Reconciler.ReleaseSeatAndReclaim` | scheduler/controller/internal/controller/ledger.go:118-179 | Success left a ledger without a seat under the name after at most one removal, or deleted the claim after a moment at which it had no ledger; failure wrote nothing, or retired the ledger and could not delete the claim, and only when a call failed, the ledger vanished before the write or five writes were lost |
| `Reconciler.TryRelease` | scheduler/controller/internal/controller/ledger.go:131-167 | One pass of the release loop: the same outcomes, or exactly one lost write |
| `Reconciler.SeatsOfOthers` | scheduler/controller/internal/controller/ledger.go:139-145 | The loop keeps exactly the seats of other names, in order |
| `Reconciler.DeleteClaimOf` | scheduler/controller/internal/controller/ledger.go:172-179 | Success leaves the claim absent, and an absent claim counts as deleted; failure wrote nothing |
| `Reconciler.VerifyJoin` | scheduler/controller/internal/controller/workload_controller.go:539-549 | Lists the claims, then the ledgers, and answers true if and only if the claim was listed and every seat of the node's listed claims, with the bytes reserved there, is within the memory of a node that reports any; such a seat is then verified |
| `Reconciler.NodeHostBytes` | scheduler/controller/internal/placement/placement.go:162-176 | The loop over claims computes the reserved bytes plus every seat on the listed claims of the node |
| `Reconciler.FitsListed` | scheduler/controller/internal/controller/workload_controller.go:543-549 | The comparison, in the fleet's own fields: listed, and on a node that reports memory within it |
| `Reconciler.ConfirmJoin` | scheduler/controller/internal/controller/workload_controller.go:539-555 | A booked join keeps its seat, verified and having only read, exactly when the comparison came out true; otherwise it releases: no seat under the name is left, or the claim is gone, unless a call failed, the ledger vanished or five writes were lost |
| `Reconciler.JoinExistingClaim` | scheduler/controller/internal/controller/workload_controller.go:519-556 | Books first and verifies second; joins exactly when the seat was booked and the comparison came out true; a joined seat is verified on the target, a booked join that is declined leaves no seat of the worker there, an unbooked one wrote nothing, and every write is to the target |
| `Reconciler.StateWithinMemory` | scheduler/controller/internal/controller/workload_controller.go:523-526 | Whatever the calls of a controller and of everyone else have done, the verified seats fit every node |
| `ClaimMoves.CutDedicatedClaim` | scheduler/controller/internal/controller/workload_controller.go:582-639 | There is no tier exactly when none was given, and the previous claim is terminating exactly when its read says so, and nothing is written then; otherwise the seat is booked before the claim is created, and the claim is created if and only if the earlier read found none; a failure has a failed call, a lost write, a refusal or somebody else's claim behind it |
| `ClaimMoves.FallBackToSharing` | scheduler/controller/internal/controller/workload_controller.go:424-476 | In every outcome, also a failed one, the worker's own seat is given up only after a seat of the same incarnation was verified on the other claim; a completed move ends with that seat; a satisfied claim or a pod without a verdict writes nothing |
| `Placement.DevicesForIsLeast` | scheduler/controller/internal/placement/placement.go:229-233 | The ceiling division is the least positive number of devices whose memory adds up to the request |
| `Placement.ShareFits` | scheduler/controller/internal/placement/placement.go:210-243 | Spread over the devices it needs, a worker's share fits one device and the shares cover the request |
| `Placement.ClaimLessIsTotal` | scheduler/controller/internal/placement/placement.go:309-319 | claimLess is irreflexive, asymmetric and transitive, and decides between any two claims of different names |
| `Placement.SelectionIsUnique` | scheduler/controller/internal/placement/placement.go:260-307 | At most one answer is the least eligible claim, so the answer cannot depend on the order of map iteration |
| `Selection.SelectionIsLeastContended` | scheduler/controller/internal/placement/placement.go:260-319 | A selected claim may be joined, and no other claim that may has fewer owners, or as many and fewer workers, or as many of both and a name before it |
| `Selection.NoSelectionMeans` | scheduler/controller/internal/placement/placement.go:261-263 | No claim is selected exactly when the worker shares with nobody or may join none |
| `Selection.EligibleMeans` | scheduler/controller/internal/placement/placement.go:286-301 | Whether a claim may be joined, in the fields of fleet and request: somebody is on it and all can suspend, its known node takes the role, one device on both sides and memory enough on it, and the host memory booked there leaves room |
| `Selection.HostBytesMeans` | scheduler/controller/internal/placement/placement.go:162-176 | The memory booked on a node is its reserved bytes and those of every worker on every claim there |
| `Selection.DevicesOnMeans` | scheduler/controller/internal/placement/placement.go:215-224 | The fewest devices of the node that hold the worker, and none if those are more than it may drive or the node has |
| `Selection.NameOrder` | scheduler/controller/internal/placement/placement.go:318-318 | Names compare at their first difference, and a prefix comes first |
| `Placement.BookingFits` | scheduler/controller/internal/placement/placement.go:260-319 | Booking the selected claim keeps its node within its host memory, also when the worker replaces its own booking, and leaves every other node's total unchanged |
| `Placement.BytesAfterBooking` | scheduler/controller/internal/placement/placement.go:109-115 | A booking adds the request and takes back the footprint it replaces, no more |
| `Placement.ReleaseUndoesBooking` | scheduler/controller/internal/placement/placement.go:109-134 | Releasing frees exactly the worker's bytes on the claim's node and nothing on any other; the fleet is as before the booking exactly when the worker was not on the claim before |
| `Placement.Claim.Shareable` | scheduler/controller/internal/placement/placement.go:117-129 | True exactly when there is a worker and all of them can suspend |
| `Placement.Claim.Owners` | scheduler/controller/internal/placement/placement.go:142-149 | The number of distinct owners booked |
| `Placement.AddBookings` | scheduler/controller/internal/placement/placement.go:280-282 | Adds the claim's total to its node's entry and nothing to any other, in whatever order the bookings come |
| `Placement.Fleet.NodeHostBytes` | scheduler/controller/internal/placement/placement.go:162-176 | The reserved bytes plus every worker on every claim of the node |
| `Placement.Fleet.HostByNode` | scheduler/controller/internal/placement/placement.go:269-283 | The one pass over all claims gives, for every node, exactly what the per-node sum gives |
| `Placement.Fleet.Less` | scheduler/controller/internal/placement/placement.go:309-319 | Fewer owners, then fewer workers, then the name |
| `Placement.Fleet.IsEligible` | scheduler/controller/internal/placement/placement.go:286-301 | The chain of checks is exactly eligibility, host memory included |
| `Placement.Fleet.SelectClaim` | scheduler/controller/internal/placement/placement.go:260-307 | For every visiting order: none exactly when the worker cannot share or nothing is eligible, otherwise the eligible claim below all others |
| `Tiers.TierFits` | scheduler/controller/internal/placement/tiers.go:61-78 | Every tier has at least one device and no more than the runtime can drive or one node offers, its floor is within its ceiling, and its floors cover the request |
| `TierMeaning.TierOfMeans` | scheduler/controller/internal/placement/tiers.go:61-78 | A size gets a tier if and only if some number of its devices holds the memory within what the worker may drive and one node has; the tier asks for the least such number, and for shares that just cover the memory |
| `TierMeaning.UsableSizesHaveTiers` | scheduler/controller/internal/placement/tiers.go:29-84 | Every device size of the fleet has its tier if and only if the worker can use it: the smallest device of the size for a ceiling, the least number of them, out of the most that one node has |
| `TierMeaning.TiersHaveSizes` | scheduler/controller/internal/placement/tiers.go:29-84 | Every tier is that of some device size of the fleet |
| `TierMeaning.RankingMeans` | scheduler/controller/internal/placement/tiers.go:86-139 | All tiers but the last are preferred, fewest devices first and of those the smaller size, with evenly falling weights from 100; each names exactly the nodes that take the role and have devices of its size in whole GiB |
| `Tiers.KeptTiers` | scheduler/controller/internal/placement/tiers.go:61-84 | Every tier comes from a catalog size, every drivable size's name is present, and no two tiers share a name |
| `Tiers.TierLessIsByCountThenCeiling` | scheduler/controller/internal/placement/tiers.go:86-97 | Among tiers of one count the waste orders as the ceiling does |
| `Tiers.Sort` | scheduler/controller/internal/placement/tiers.go:86-97 | A sorted permutation, for any comparison that is a strict weak order on the elements |
| `Tiers.Compile` | scheduler/controller/internal/placement/tiers.go:61-99 | The tiers are the kept ones, strictly ordered |
| `Tiers.CatalogOrderDoesNotMatter` | scheduler/controller/internal/placement/tiers.go:48-52 | If sizes that give one tier name have one device size, every order of the catalog compiles to the same list |
| `Tiers.CatalogOrderIff` | scheduler/controller/internal/placement/tiers.go:79-83 | For any argument, every order of the sizes compiles to the same tiers if and only if sizes that give one tier name have one device size |
| `Tiers.CatalogOrderMatters` | scheduler/controller/internal/placement/tiers.go:79-83 | For any ambiguous argument, a reordering that compiles a tier the original order does not |
| `Tiers.TwoSizesOfOneName` | scheduler/controller/internal/placement/tiers.go:79-83 | A concrete pair of sizes in one whole-GiB bucket that compiles to another tier in each order |
| `Tiers.DistinctBucketsAreUnambiguous` | scheduler/controller/internal/placement/tiers.go:29-33 | A catalog with one size per whole-GiB bucket, as the fleet's always is, is unambiguous for every request |
| `FleetTiers.FleetHasOneCatalog` | scheduler/controller/internal/placement/tiers.go:29-53 | Any two catalogs read off one fleet, in whatever orders its maps were visited, list the same sizes |
| `FleetTiers.FleetDeterminesTiers` | scheduler/controller/internal/placement/tiers.go:29-99 | A fleet and a request determine the compiled tiers, whatever the visiting orders |
| `FleetTiers.FleetDeterminesRanking` | scheduler/controller/internal/placement/tiers.go:108-139 | A fleet and a request determine the node preferences: the rungs, their order, their weights and the names in each |
| `Tiers.Catalog` | scheduler/controller/internal/placement/tiers.go:29-53 | For every visiting order: one size per bucket, the smallest device and the largest count found in it, and no bucket without a node |
| `Tiers.TierIsRealizable` | scheduler/controller/internal/placement/tiers.go:8-12 | Every tier compiled from the fleet's catalog has a node that accepts the role, has that many devices within the GiB-rounded bounds, and is a candidate |
| `Tiers.CandidateWithoutTier` | scheduler/controller/internal/placement/tiers.go:29-33 | The converse fails: a fleet with a candidate node whose catalog, in every order, compiles to no tier |
| `Tiers.PreferTightFit` | scheduler/controller/internal/placement/tiers.go:108-139 | One rung for every tier but the last, in tier order, with its weight and exactly the nodes of its bucket, sorted |
| `Tiers.RankingIsSound` | scheduler/controller/internal/placement/tiers.go:113-138 | No node is in two rungs; of two rungs the later never weighs more, and less when there are at most 100 |
| `Tiers.EveryRungCounts` | scheduler/controller/internal/placement/tiers.go:113-138 | Every rung, a single one included, has at least one node and a weight in 1..100; the first has 100 |
| `Tiers.RungOf` | scheduler/controller/internal/placement/tiers.go:123-132 | Lists exactly the accepting nodes of the tier's bucket, in strict order |
| `Tiers.RungIsNotEmpty` | scheduler/controller/internal/placement/tiers.go:129-131 | No rung of a compiled tier is ever empty |
| `SlicerSafety.OneResidentPerClaim` | src/accel_timeslicer/single_node.py:61-162 | In every run, whoever has memory on the devices holds its claim's grant, and two residents of one claim are the same workload |
| `SlicerDevices.OneOnDevicesPerClaim` | src/accel_timeslicer/single_node.py:61-162 | The same read off the steps of the run alone: whoever used the devices or was restored to them, and has neither parked nor left since, holds the grant of its claim, and nobody else of that claim is like that |
| `SlicerSafety.GrantsEndWithTheirHolder` | src/accel_timeslicer/single_node.py:109-124 | A grant ends only when its holder is parked without a failure, unregistered or disconnected, so a workload that could not be parked blocks its claim until it is gone |
| `SlicerSafety.FreeClaimIsTaken` | src/accel_timeslicer/single_node.py:38-91 | In every run, a free claim with waiters has exactly one that can proceed: the next waiter, already notified; running it grants the claim, and any other waits again |
| `SlicerSafety.RestoresHaveCheckpoints` | src/accel_timeslicer/single_node.py:93-129 | In every run, each restore consumes an earlier checkpoint of that name not yet restored, and the restorer has a non-empty record of its processes |
| `SlicerTurns.NextTurnRestores` | src/accel_timeslicer/single_node.py:93-133 | The converse: after a release that saved processes, whatever happens in between short of unregistering or disconnecting, the next grant of that workload restores it |
| `SlicerRestores.RestoresAreOwed` | src/accel_timeslicer/single_node.py:93-129 | Read off the steps alone: whenever a restore starts, an earlier saving checkpoint of that workload is not yet restored, and the record has exactly the processes it saved |
| `SlicerHazard.StaleWaitTakesTheNewGrant` | src/accel_timeslicer/single_node.py:61-91 | A run of the monitor without the one-call-in-flight hypothesis in which the wait of an earlier process ends the grant of its successor of the same name |
| `SlicerSafety.StepKeepsInv` | src/accel_timeslicer/single_node.py:47-162 | Every critical section, completion and disconnection keeps the slicer's invariant |
| `SlicerSafety.AcquireIsJoinThenResume` | src/accel_timeslicer/single_node.py:61-91 | An acquire is joining the line followed by the same test a woken waiter runs |
| `SlicerSafety.OthersKeepTheGrant` | src/accel_timeslicer/single_node.py:157-162 | Clearing one workload never takes another's grant |
| `SlicerFairness.NobodyOvertakesTwice` | src/accel_timeslicer/single_node.py:38-45 | Under least-recently-served, in every run whose completed releases read increasing times, nobody is granted a waiter's claim twice while it waits unless its grant was cut short, so a wait is bounded by the number of other workloads of the claim that are registered or have completed a turn; leaving between turns and coming back does not help |
| `SlicerBypass.AtMostOneTurnWhileWaiting` | src/accel_timeslicer/single_node.py:38-45 | Read off the steps alone: under least-recently-served with increasing release times, while one workload waits another gets at most one turn on its claim, unless a turn of that one ends by leaving |
| `SlicerTurns.FifoGrantsInOrder` | src/accel_timeslicer/single_node.py:43-44 | Under fifo, in every run, nobody who joined the line after a waiter is granted the claim while that one waits |
| `SlicerTurns.NextWaiterMeans` | src/accel_timeslicer/single_node.py:38-45 | In the fields of the monitor: none exactly when nobody waits; under fifo the first in line; otherwise one served no later than any other in line and strictly before those ahead of it |
| `SlicerFairness.NextHasNotOvertaken` | src/accel_timeslicer/single_node.py:38-45 | Whoever is next for a free claim has not overtaken any waiter of it |
| `SlicerFairness.StepStaysFair` | src/accel_timeslicer/single_node.py:61-162 | Every step whose completed release reads a later time keeps the record of overtakings duplicate-free and each overtaker still at its turn or served later than the waiter |
| `TimeSlicer.LeastServedIsEarliest` | src/accel_timeslicer/single_node.py:45 | The name chosen has the least release time, and everyone before it in line a strictly later one |
| `SlicerMonitor.SingleNodeTimeSlicer.Next` | src/accel_timeslicer/single_node.py:38-45 | The loops choose the next waiter of the claim under either policy |
| `SlicerMonitor.SingleNodeTimeSlicer.AcquireEntry` | src/accel_timeslicer/single_node.py:61-91 | An acquire up to its first wait: refused before the line exactly for a failed, waiting or holding workload, otherwise in line; an unknown name is registered without a connection |
| `SlicerMonitor.SingleNodeTimeSlicer.AcquireResume` | src/accel_timeslicer/single_node.py:75-91 | What a woken waiter does: wait again exactly when the claim is taken or another is next; be refused and cleared; or take the grant, with a restore exactly when its flag is set |
| `SlicerMonitor.SingleNodeTimeSlicer.WaitCancelled` | src/accel_timeslicer/single_node.py:77-81 | A cancelled wait leaves the line and nothing else changes |
| `SlicerMonitor.SingleNodeTimeSlicer.ReleaseParked` | src/accel_timeslicer/single_node.py:126-133 | The flag as the checkpoint came out, the release time, and the end of the grant and of nothing else |
| `SlicerMonitor.SingleNodeTimeSlicer.UnregisterWorkload` | src/accel_timeslicer/single_node.py:135-144 | The workload, its place in line and its grant are gone |
| `SlicerMonitor.SingleNodeTimeSlicer.ClearWorkload` | src/accel_timeslicer/single_node.py:157-162 | The name leaves the line and every claim it held |
| `SlicerMonitor.SingleNodeTimeSlicer.ConnectionClosed` | src/accel_timeslicer/single_node.py:146-155 | Clearing the connection's workloads one after another equals clearing them all at once |
| `CheckpointRestorer.CudaCheckpointRestorer.Checkpoint` | src/accel_timeslicer/checkpoint.py:30-48 | Every process is locked before any is saved, and a record is made exactly when all of that worked; finding none drops the record; a failure keeps it |
| `CheckpointRestorer.CudaCheckpointRestorer.RestoreWorkload` | src/accel_timeslicer/checkpoint.py:50-61 | Fails for want of a record exactly when there is none; the recorded processes are restored and then unlocked, and the record goes exactly when all of that worked |
| `TrainerOffload.WakeUndoesSleep` | src/training/fft_trainer_worker.py:537-638 | Sleeping and waking restores parameters, buffers, gradients and optimizer state exactly |
| `TrainerOffload.SleepsLeaveNoTrace` | src/training/fft_trainer_worker.py:537-638 | Any run with sleeps and wakes trains the same parameters, gradients and optimizer state as the run with them erased, and the same last delta unless a parameter with elements is kept in host memory beside an offloaded device |
| `Gradients.GradientsSinceTheLastStep` | src/training/fft_trainer_worker.py:407-455 | An optimizer step clears the gradients; from then on, in every run without another step, asleep or awake, they are what the forward passes since have left with the new parameters |
| `Gradients.StepTakesItAll` | src/training/fft_trainer_worker.py:451-452 | After a step there are no gradients, and parameters and optimizer state are what the optimizer made of the old ones and the gradients |
| `Gradients.SleepersHoldNothing` | src/training/fft_trainer_worker.py:577-605 | In every run, an offloaded worker holds no parameter, buffer, gradient or optimizer tensor on the device |
| `Gradients.SleepOffloads` | src/training/fft_trainer_worker.py:537-541 | A run that ends with a sleep ends offloaded, if offloading is on and there is a device |
| `TrainerOffload.ShadowsFollowTraining` | src/training/fft_trainer_worker.py:457-501 | In delta mode, after any run the host copies hold the parameters of the run that never slept |
| `HostParameters.StepDeltaIff` | src/training/fft_trainer_worker.py:457-499 | The recorded delta is the step's change if and only if the step left every parameter alone that shares its storage with its host copy |
| `HostParameters.SleepsKeepDeltasIff` | src/training/fft_trainer_worker.py:607-615 | For a prepared worker, every run records the deltas of the same run without its sleeps if and only if no parameter with elements is kept in host memory beside a device that is offloaded |
| `HostParameters.RestLosesDelta` | src/training/fft_trainer_worker.py:607-615 | For such a parameter, the run that sleeps, wakes and changes it records a delta without the change |
| `HostParameters.HidingShortens` | src/training/fft_trainer_worker.py:465-487 | Comparing with host copies of which some have already changed finds no more patches, and fewer when it misses a change |
| `TrainerOffload.StepKeepsOk` | src/training/fft_trainer_worker.py:59-66 | Forward passes, optimizer steps, sleeps and wakes keep the worker's invariant, among it that every parameter has an up-to-date host copy |
| `DeltaSaves.SavedWhileAsleep` | src/training/fft_trainer_worker.py:215-219 | With CPU offload, after any run a delta is saved exactly when the last sleep or wake was a sleep, and on a machine without CUDA never |
| `DeltaSaves.SavedFileReadsBack` | src/training/fft_trainer_worker.py:221-261 | After any run, reading the saved file gives back the delta of the last step of the same run without its sleeps; before any step it lists every parameter with nothing to change |
| `TrainerOffload.PreparedOk` | src/training/fft_trainer_worker.py:95-108 | A freshly prepared worker satisfies the invariant |
| `FftTraining.CopyToHost` | src/training/fft_trainer_worker.py:543-551 | The copying loop, in any order: everything on the device is copied over the host copies, and what is kept in host memory is passed over |
| `FftTraining.Free` | src/training/fft_trainer_worker.py:577-585 | The freeing loop: exactly the tensors that have a host copy are emptied |
| `FftTraining.Restore` | src/training/fft_trainer_worker.py:613-619 | The reloading loop: exactly those tensors take their host copy's value |
| `FftTraining.CopyOptToHost` | src/training/fft_trainer_worker.py:560-571 | Optimizer tensors on the device are copied, those on the host are not |
| `FftTraining.FreeOpt` | src/training/fft_trainer_worker.py:587-594 | Exactly the copied optimizer tensors are replaced by their host copies |
| `FftTraining.RestoreOpt` | src/training/fft_trainer_worker.py:621-632 | Copied tensors return to the device, other host tensors go where their parameter is, and the step counter stays |
| `FftTraining.CompareWithCopy` | src/training/fft_trainer_worker.py:471-487 | One parameter's delta, and its host copy made equal to the parameter by writing the changed elements only |
| `FftTraining.ComputeDelta` | src/training/fft_trainer_worker.py:461-487 | The loop over named parameters gives the delta of the step and brings every host copy up to date |
| `FftTraining.RemapHfToVllmFused` | src/training/fft_trainer_worker.py:352-405 | The loop maps every patch, in order: the fused name and every index moved by the trainer's offset, values as they are, and nothing of a name it cannot place |
| `FftTraining.FFTTrainingWorker.constructor` | src/training/fft_trainer_worker.py:95-108 | A prepared worker, with a host copy of every parameter in delta mode |
| `FftTraining.FFTTrainingWorker.Sleep` | src/training/fft_trainer_worker.py:537-605 | The new state is the sleeping one, and the invariant holds |
| `FftTraining.FFTTrainingWorker.WakeUp` | src/training/fft_trainer_worker.py:607-638 | The new state is the woken one, and the invariant holds |
| `FftTraining.FFTTrainingWorker.OptimStep` | src/training/fft_trainer_worker.py:407-501 | Parameters and optimizer state from the optimizer, no gradients; delta and host copies as specified, shared ones among them |
| `FftTraining.FFTTrainingWorker.RecordDelta` | src/training/fft_trainer_worker.py:457-501 | The pending delta is overwritten by this step's |
| `FftTraining.FFTTrainingWorker.SaveState` | src/training/fft_trainer_worker.py:120-132 | A full save sees the true weights and leaves the worker exactly as it was |
| `SparseDelta.ChangedInRange` | src/training/fft_trainer_worker.py:473-474 | The indices are exactly the positions where the tensors differ |
| `SparseDelta.PatchReplacesPart` | src/training/fft_trainer_worker.py:471-487 | Writing what changed, at an offset inside a larger tensor, replaces that part by the new tensor and nothing else |
| `SparseDelta.PatchOverlaysPart` | src/server/delta_weight_transfer_engine.py:417-424 | Writing what changed between two tensors over any part of a larger tensor changes exactly the changed positions of that part |
| `SparseDelta.PatchMakesEqual` | src/training/fft_trainer_worker.py:64-66 | Writing what changed turns the old tensor into the new one |
| `SparseDelta.ApplyTwice` | src/server/delta_weight_transfer_engine.py:417-424 | Any accepted list of writes, overlapping or not, changes nothing when applied again |
| `SparseDelta.ApplyAt` | src/server/delta_weight_transfer_engine.py:417-424 | After all writes an element has the value last written to it, or its old one |
| `SparseDelta.ParseUndoesPack` | src/server/delta_weight_transfer_engine.py:491-517 | Reading the file gives back the delta that was packed |
| `SparseDelta.ParsedIsWellFormed` | src/server/delta_weight_transfer_engine.py:512-517 | Whatever a file parses to has as many values as indices under every name |
| `FusedLayout.SlotOf` | src/training/fft_trainer_worker.py:383-390 | A parameter is one contiguous part of its fused tensor, at the trainer's offset |
| `LayoutMeaning.AttentionLayout` | src/training/fft_trainer_worker.py:352-390 | In the configuration's own fields, for weights and biases: q, k and v have their heads times the head size times the row as elements, k starts after q, and v at heads plus key-value heads |
| `LayoutMeaning.AttentionOffsets` | src/server/delta_weight_transfer_engine.py:306-330 | The sampler puts k at heads times head size times hidden size, and v at heads plus key-value heads times the same |
| `LayoutMeaning.GateLayout` | src/training/fft_trainer_worker.py:374-399 | The same for the feed-forward pair |
| `LayoutMeaning.CompleteMeans` | src/training/fft_trainer_worker.py:361-376 | Which configurations determine the layout: key-value heads default to the heads, and the head size to their share of the hidden size |
| `LayoutMeaning.GroupedQueryExample` | src/training/fft_trainer_worker.py:366-390 | Hidden 1024, 16 heads of 64, 8 key-value heads: v starts at 1,572,864 for both sides |
| `LayoutMeaning.UnknownToTheTrainer` | src/training/fft_trainer_worker.py:383-401 | The trainer leaves a name alone exactly when it is no projection or the sizes for it are missing |
| `LayoutMeaning.TrainerOkMeans` | src/training/fft_trainer_worker.py:352-405 | Which trainer parameters the results are about, with every size written out |
| `LayoutMeaning.FusionMeans` | src/training/fft_trainer_worker.py:383-399 | A fused tensor is its parts one after another, and every other parameter is itself |
| `FusedLayout.SlotsCover` | src/training/fft_trainer_worker.py:383-399 | Every element of a fused tensor belongs to some parameter's slot |
| `FusedLayout.SlotsDisjoint` | src/training/fft_trainer_worker.py:383-399 | Slots of different parameters do not overlap |
| `FusedLayout.FusionOfUpdate` | src/training/fft_trainer_worker.py:352-405 | Changing one parameter changes exactly its slot of the fusion, for weights and biases |
| `FusedLayout.ShiftedCopy` | src/training/fft_trainer_worker.py:387-389 | Shifted indices at offset zero write the same as the original indices at the offset |
| `FusedLayout.NativeAndFusedAgree` | src/server/delta_weight_transfer_engine.py:289-346 | For weights, a native delta as the sampler resolves it and a remapped delta address the same parameter and the same positions |
| `FusedLayout.NativeOffsetIsRightWhen` | src/server/delta_weight_transfer_engine.py:320-342 | The sampler's offset for a native name equals the trainer's exactly when the name is a weight, starts its fused tensor, or the hidden size is one |
| `DeltaReceive.RefusedDeltaChangesNothing` | src/server/delta_weight_transfer_engine.py:389-396 | A delta that is malformed, names an unknown parameter or points outside one leaves every parameter unchanged |
| `DeltaReceive.ReportsTheFirstBadPatch` | src/server/delta_weight_transfer_engine.py:389-396 | A readable file with a patch that names something unknown, or points outside, is refused for the first such patch and leaves everything as it was |
| `DeltaReceive.MalformedIff` | src/server/delta_weight_transfer_engine.py:491-517 | A file is malformed if and only if names and lengths differ in number or the lengths do not add up to the indices and the values |
| `DeltaReceive.LateRefusalIff` | src/server/delta_weight_transfer_engine.py:370-424 | A file is refused for a type if and only if it parses, resolves and fits, and its non-empty patches go to parameters of more than one type |
| `DeltaReceive.RefusalChangesNothingIff` | src/server/delta_weight_transfer_engine.py:401-424 | A file refused for a type leaves every parameter unchanged if and only if its writes before the first other type write only values that are already there |
| `DeltaReceive.RefusedButPatched` | src/server/delta_weight_transfer_engine.py:401-424 | A file of two patches that is refused for a type after its first patch was written |
| `DeltaReceive.ApplyChangesNothingIff` | src/server/delta_weight_transfer_engine.py:417-424 | Accepted writes change nothing if and only if the last value written to each element is the one it has |
| `DeltaReceive.ReceiveTwice` | src/server/delta_weight_transfer_engine.py:598-626 | Receiving again a delta that was received without an error changes nothing |
| `DeltaReceive.ReceiveKeepsSizes` | src/server/delta_weight_transfer_engine.py:370-424 | No receive, accepted or refused, changes which parameters there are or their sizes |
| `DeltaReceive.UniformPrefix` | src/server/delta_weight_transfer_engine.py:403-423 | The writes before the first of another type than the first target's |
| `DeltaEngine.CheckIndexBounds` | src/server/delta_weight_transfer_engine.py:151-168 | Checking the smallest and the largest index is checking them all |
| `DeltaEngine.BuildBulkTensorSlices` | src/server/delta_weight_transfer_engine.py:348-368 | Each slice of the two bulk buffers holds exactly its patch, indices moved by its own offset |
| `DeltaEngine.SlicesPack` | src/server/delta_weight_transfer_engine.py:358-366 | The packing order and the running offset give every patch its own slice |
| `DeltaEngine.BulkFits` | src/server/delta_weight_transfer_engine.py:379-379 | The buffers are exactly as long as the delta's changed elements |
| `DeltaEngine.SliceWrites` | src/server/delta_weight_transfer_engine.py:417-424 | A slice written at offset zero does what the patch does at its offset |
| `DeltaEngine.IndexCopyInto` | src/server/delta_weight_transfer_engine.py:424-424 | The in-place loop over a parameter's own storage equals index_copy_ |
| `DeltaEngine.DeltaSnapshotWeightTransferEngine.ResolveAndCheck` | src/server/delta_weight_transfer_engine.py:389-396 | The loop resolves and checks every non-empty patch and stops at the first failure |
| `DeltaEngine.DeltaSnapshotWeightTransferEngine.WriteSlices` | src/server/delta_weight_transfer_engine.py:416-424 | All slices are written in place, or those before the first type mismatch |
| `DeltaEngine.DeltaSnapshotWeightTransferEngine.ApplyGpuInPlace` | src/server/delta_weight_transfer_engine.py:370-443 | A delta that fails to resolve or to fit writes nothing; otherwise the parameters are exactly those of the specification |
| `DeltaEngine.DeltaSnapshotWeightTransferEngine.ReceiveWeights` | src/server/delta_weight_transfer_engine.py:598-626 | The parameters, the answer and the current path after a receive, for every file |
| `WeightSync.DeltaCarriesTheStep` | src/training/fft_trainer_worker.py:457-501 | Diff, remapping, packing, splitting, resolving and patching turn the fusion of the old parameters into the fusion of the new, in either format |
| `WeightSync.DeltaOverlays` | src/server/delta_weight_transfer_engine.py:598-626 | The same path over a sampler that holds any fusion of those shapes writes the step's changes over it and changes nothing else |
| `WeightSync.PrefixPatches` | src/server/delta_weight_transfer_engine.py:389-424 | Whatever fusion the sampler holds, after the patches of the first k parameters it holds the fusion with the step's changes to those parameters written over it |
| `WeightSync.SentPatch` | src/server/delta_weight_transfer_engine.py:289-346 | One parameter's patch, in either format, overlays exactly its slot of the sampler's fused parameter |
| `WeightSync.ReceiveApplies` | src/server/delta_weight_transfer_engine.py:598-626 | With one type throughout, a file that resolves is applied completely, the shortcut for an empty delta included |
| `WeightSync.SkippedDeltaIff` | src/training/fft_trainer_worker.py:459-459 | A sampler that missed a step and receives the next delta is up to date exactly where the last step changed the element or it was right already |
| `WeightSync.SkippedDeltaIsLost` | src/training/fft_trainer_worker.py:459-459 | A concrete pair of steps whose first delta is never delivered |
| `SyncSystem.SamplerHoldsTheFusion` | src/training/fft_trainer_worker.py:457-501 | Over every run in which an optimizer step waits for the previous delta to arrive, with no parameter offloaded from host memory and the format's offsets right, no receive fails, and whenever the last delta has arrived the sampler holds the fusion of the trainer's weights |
| `SyncLimits.SamplerHoldsTheFusionIff` | src/training/fft_trainer_worker.py:352-638 | For a worker that can save at all, that holds of every run if and only if no parameter with elements is offloaded from host memory and the format's offsets are right; for one that cannot it always does |
| `SyncLimits.HostParameterGoesMissing` | src/training/fft_trainer_worker.py:607-616 | For a parameter offloaded from host memory, a run that delivers its last delta and leaves the sampler stale |
| `SyncLimits.MisplacedBiasGoesWrong` | src/server/delta_weight_transfer_engine.py:320-342 | For a bias that the native format misplaces, a run of one step whose delta is refused or leaves the bias's slot stale |
| `SyncLimits.BiasOffset` | src/server/delta_weight_transfer_engine.py:320-342 | The sampler's offset of a native bias is the right one times the hidden size |
| `SkippedSteps.SamplerHoldsWhatItSaw` | src/training/fft_trainer_worker.py:457-501 | After any run at all, optimizer steps at any time included, no receive has failed, and the sampler holds the fusion of its first weights with the changes of every received step written over them in order |
| `SkippedSteps.ElementIsCurrentIff` | src/training/fft_trainer_worker.py:459-459 | After any run an element of the sampler is the trainer's if and only if what the sampler saw last of it is, and it is whenever no step changed it or a received file wrote the value it still has |
| `SkippedSteps.SamplerIsCurrentIff` | src/training/fft_trainer_worker.py:459-459 | After any run the sampler is up to date if and only if the changes it received add up to the trainer's weights |
| `SkippedSteps.FirstStepIsLost` | src/training/fft_trainer_worker.py:457-501 | Two steps on different parameters before one save: the file is received, and the sampler never gets the first step's change |
| `SkippedSteps.StepKeepsHistory` | src/server/delta_weight_transfer_engine.py:598-626 | Every possible step keeps the account of what is pending, what is in the file, what the sampler saw and what it is behind with |
| `SkippedSteps.ReceivedOverlays` | src/server/delta_weight_transfer_engine.py:598-626 | Receiving a step's delta writes exactly that step's changes over whatever the sampler holds |
| `SyncSystem.SaveAndDeliverCatchUp` | src/server/delta_weight_transfer_engine.py:598-626 | After any such run, saving and receiving brings the sampler up to date |
| `SyncSystem.DeliverAgainChangesNothing` | src/server/delta_weight_transfer_engine.py:598-626 | After any such run, receiving the same file again changes nothing |
| `SyncSystem.OptimKeepsSystemOk` | src/training/fft_trainer_worker.py:407-501 | An optimizer step keeps the system's invariant: the new delta takes the sampler to the new fusion, and an old file has become harmless |
| `SyncSystem.DeliverKeepsOk` | src/server/delta_weight_transfer_engine.py:598-626 | A receive of whatever file is there keeps it |
| `SyncSystem.SaveKeepsOk` | src/training/fft_trainer_worker.py:208-261 | A save keeps it, also before any step |
| `TrainingBatches.GreedyIsOptimal` | src/training/trainer_worker.py:133-155 | Greedy packing of the sorted examples needs no more batches than any partition into batches within the budget, contiguous or not |
| `TrainingBatches.PackGreedily` | src/training/trainer_worker.py:134-153 | The loop produces the greedy packing, and every batch is a singleton or within the budget |
| `TrainingBatches.MakeTrainingBatches` | src/training/trainer_worker.py:123-155 | The batches partition the examples and fit; singletons without a budget; with one, no other partition is smaller |
| `BatchMeaning.NoSplitHasFewer` | src/training/trainer_worker.py:123-155 | Minimality in the lengths themselves: no way of putting each example into exactly one batch, each alone or with every padded row within the budget, has fewer batches |
| `BatchMeaning.PackedInOrder` | src/training/trainer_worker.py:133-133 | Examples are packed shortest first, and equally long ones in their own order |
| `TrainingBatches.RunBatches` | src/training/trainer_worker.py:62-106 | Every row's result is written in place at its own example's position and never overwritten |
| `TrainingBatches.Finish` | src/training/trainer_worker.py:109-121 | Succeeds exactly when every example has an output, and returns them in order |
| `TrainingBatches.ForwardBackward` | src/training/trainer_worker.py:40-121 | One output per example, computed in the batch that held it; the final check cannot fail |
| `RequestQueue.EveryRequestOnceInOrder` | src/server/store.py:66-108 | For every tenant and every run, what was delivered followed by what is queued is what was put, in order |
| `RequestQueue.RunKeepsOk` | src/server/store.py:76-107 | In every run, a tenant with work is on the list of every set its pending requests were put into, no list has a duplicate, and every listed tenant has a queue |
| `QueueFairness.ServedWithinItsTurn` | src/server/store.py:93-108 | A tenant with work at position p of a set's list is served within p + 1 calls that look at the list, with a set or without, whatever is put or taken meanwhile |
| `QueueFairness.StepMovesUp` | src/server/store.py:97-107 | A call that looks at the list serves the tenant or moves it strictly up; nothing moves it down |
| `QueueFairness.SetCallTakes` | src/server/store.py:84-107 | A call for a set takes everything pending of the first tenant on its list that has any, and nothing else; it waits exactly when nobody on the list has |
| `QueueFairness.SetlessCallTakes` | src/server/store.py:86-107 | A call without a set does that for the first list, in order of appearance, with anyone on it who has work |
| `QueueFairness.SetlessCallIff` | src/server/store.py:86-107 | A call without a set serves a waiting tenant or moves it strictly up its list if and only if every set before is idle, or the tenant heads the work of an earlier set |
| `QueueFairness.FirstSetIsServedInTurn` | src/server/store.py:86-107 | In the set that appeared first, a tenant at position p is served within p + 1 calls without a set |
| `QueueFairness.SetlessCallersCanStarve` | src/server/store.py:86-91 | A run from the empty store in which any number of calls without a set never serve the tenant at the head of the second set |
| `QueueWaiters.WaitersAreWoken` | src/server/store.py:76-108 | In every run of callers that look, wait and are notified, a waiting caller that would now be given a batch, with a set or without, has a notification pending, though a put notifies only when it lists its tenant |
| `QueueWaiters.NextPutIsDelivered` | src/server/store.py:66-108 | A caller that had to wait, with a set or without, is given the next request put where it looks, with everything pending of that tenant |
| `QueueWaiters.MovesKeepWaitersOk` | src/server/store.py:76-108 | In every run, where a waiting caller without a pending notification looks, nobody is listed |
| `InMemoryStore.InMemoryStore.PutRequest` | src/server/store.py:66-79 | The new queues, lists and order of sets |
| `InMemoryStore.InMemoryStore.GetRequests` | src/server/store.py:81-108 | The loop that drops stale tenants serves exactly the tenant, and leaves exactly the store, of the specification, or waits |
| `InMemoryStore.InMemoryStore.PickList` | src/server/store.py:84-91 | The set's own list, or the first non-empty one in order of appearance |
| `InMemoryStore.HeadDecides` | src/server/store.py:93-108 | The head of the list is served, or dropping it changes nothing about the result |
| `SessionReaper.LiveSessionsKeepTheirOwner` | src/server/api_server.py:48-62 | For every interleaving of attaches, heartbeats, expiries, failures and sweeps, a session whose heartbeats never lapse after its attach completes never has that owner torn down, and stays among its sessions |
| `SessionReaper.StepKeepsHold` | src/server/session_registry.py:45-50 | No command takes a live session off its owner or lets the reaper decide against it |
| `SessionReaper.NobodyAttachesDuringASweep` | src/server/api_server.py:42-62 | For as long as a sweep of an owner runs, under every interleaving, no session joins that owner |
| `SessionReaper.TeardownIsJustified` | src/server/api_server.py:55-62 | When a sweep reaches the teardown, nobody joined since it began, nobody is left, and every session it began with lapsed meanwhile |
| `SweepEnds.DeadOwnersAreForgotten` | src/server/api_server.py:55-62 | A sweep that never finds a live session, and none of whose commands fails, releases the owner's workers and forgets the owner within twice as many of its own steps as there are sessions and six more, whatever runs in between |
| `SweepEnds.AttachMakesMember` | src/server/session_registry.py:36-40 | An attach run to its end beats the session first and leaves it among the owner's, and the owner among the owners |
| `SessionReaper.BeatsKeepLive` | src/server/store.py:332-345 | A session is live until its time to live has passed since its last beat, and not a moment longer |
| `SessionRegistry.InMemoryStateStore.SetValue` | src/server/store.py:332-336 | The value and its expiry, an earlier expiry dropped |
| `SessionRegistry.InMemoryStateStore.GetValue` | src/server/store.py:341-345 | The value unless expired; an expired one is removed |
| `SessionRegistry.InMemoryStateStore.DeleteValues` | src/server/store.py:347-351 | Values, expiries and sets of the keys are gone, and nothing else |
| `SessionRegistry.SessionRegistry.Attach` | src/server/session_registry.py:36-40 | The session is live for its full time to live and among the owner's; no other owner changes |
| `SessionRegistry.SessionRegistry.InUse` | src/server/session_registry.py:45-50 | True exactly when some session of the owner is live; exactly the live ones remain |
| `SessionRegistry.SessionRegistry.Forget` | src/server/session_registry.py:52-55 | The owner and its sessions are gone, no other owner changes |
| `SessionRegistry.SessionRegistry.ReapOwner` | src/server/api_server.py:55-62 | Torn down exactly when no session of the owner is live |

## Left out

- Kubernetes plumbing: pods, labels, conditions, events, watches, status patches; a failing status patch is an input of the fallback move.
- Device allocation and kube-scheduler's own verdicts are inputs; that a dedicated claim's pod fits its node is kube-scheduler's check.
- That a seated claim exists: a founder re-cutting its own claim can adopt one that a release is about to delete, and the next reconcile repairs it.
- `assign`, `teardown`, `abandonWedgedClaim` and the worker phases: they only order the moves that are modelled.
- Reading pools, labels and foreign pods in `fleet.go`: the join protocol starts from the two list calls.
- Overflow of 64-bit byte counts, negative memory requests, and a head count that makes the trainer divide by zero.
- `Explain` and the other texts for operators.
- ClaimMoves.FallBackToSharing: a worker whose release of the old seat fails may hold both seats until its next reconcile; the model reports the failure and does not follow that reconcile.
- The restorer for other engines and process discovery: the processes found are an input.
- Restores that fail: the slicer logs them and goes on, and so does the model; what such a process then does is not modelled.
- Buffers kept in host memory: sleeping and waking neither copy nor free them.
- An API write that took effect although its call reported an error.
- TrainerOffload.DeltaIsTheStepsChange: asks that no parameter with elements is offloaded from host memory, because otherwise it is false; `StepDeltaIff` says exactly when it holds.
- Deltas written per layer under the older key format, and the prefix renaming of models that publish a name mapper.
- Patching a CPU snapshot, reloading full weights, and mixing either with in-place patches.
- Shapes beyond the flat length, values that compare unequal to themselves, and rounding when values are cast to the first target's type.
- Names are kept as block path, projection and kind instead of strings, and a nested text configuration is already resolved.
- SyncSystem.SamplerHoldsTheFusion: says nothing of a step taken before the previous delta arrived, because that delta is lost; `SkippedSteps` says what the sampler then holds.
- SkippedSteps.SamplerHoldsWhatItSaw: asks that no parameter is offloaded from host memory and that the format's offsets are right, which `SamplerHoldsTheFusionIff` shows to be necessary.
- DeltaEngine: parameters do not share storage; tied weights are outside the model.
- TrainingBatches.MakeTrainingBatches: without a budget each example is alone whatever the lengths, so no minimality is claimed there.
- Losses, padding, log-probabilities and the numbers in the metrics.
- RedisStore: between finding a queue empty and removing the tenant a put can leave work unlisted until the next put, so the queue results are about InMemoryStore only.
- Futures, sampling queues and per-model queues: plain dictionaries without an ordering promise.
- What tearing an owner's workers down does, and paths that delete models on request.
- The order in which a sweep visits owners, and time passing inside one call of the sequential registry; the interleaved machine covers both.
