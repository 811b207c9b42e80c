# Verification of the agent's run pipeline

These Dafny files model how a DARCBench agent runs a benchmark and reports it,
and prove what each part promises the others.

- **The event stream** (`RunLog`, `Observer`, `RunView`, `StreamClient`,
  `EndToEnd`, over `Coverage`): one run's sequence numbers, its complete record,
  the bounded replay buffer and the broadcast channel; the terminal observers;
  the event-stream server's subscribe, snapshot and merge; and the browser's pool
  and fold. `EndToEnd` is a step system over agent, server and client, so its
  results hold for every interleaving of emissions, lags, drops, resumes and flushes.
- **Run orchestration** (`Registry`, `Lifecycle`, `Watchdog`, `CycleLoop`,
  `Preflight`): the single-run slot under concurrent starts, eviction, the order
  of finalisation beside a telemetry task that is not awaited, the watchdog's
  counters as statements about the sample history, and the endurance loop against
  the costs preflight disclosed.
- **The measurement engine** (`PointerChase`, `Kernels`, `Sizing`,
  `Calibration`): the index permutation and the chase over it, the seven memory
  kernels, working-set sizes and heap bounds, and the calibration search.
- **The run index** (`RunIndex`, `Comparison`): reconciliation, retention and
  comparison against a map from run directory to bundle.
- **The proxy installer** (`FileSystem`, `Proxy`, `ReferenceWalk`): apply and
  rollback on a file system whose every operation may fail, and the bounded
  search for a file that still names the snippet.

Code that updates state in place is a class or a method with loops, proved
against a function; the results are then proved about that function. Where two
tasks interleave, each step is a value of a datatype, a step that is not enabled
leaves the state alone, and results quantify over all sequences of steps.

Conventions: a sequence number is an event's index in the record. A receiver of
the broadcast channel is a position in the record and lags when it is more than
4096 events behind, whereupon it moves to the oldest event held. Floating-point
values are exact reals. `u64` saturation and wrap-around are written out where
the program relies on them. Clocks, probe readings, generator outputs, directory
listings, faults, cancellations and validator verdicts are parameters.

## Where the code and its own comments disagree

The model follows the code in each case.

- server.rs:851-854 says a lagged stream ends, so that a resume recovers the
  events. The error is only filtered out: the stream goes on with a gap
  (`EndToEnd.LagOpensAnUndetectedGap`), and a resume would be refused, because
  channel and buffer have one capacity, or start past the loss
  (`EndToEnd.SkippedCannotBeResumed`). When delivery is exact all the same is
  `EndToEnd.ExactlyOnce`.
- tui.rs:729-733 and follow.rs:51-54 call the replay buffer the complete source
  after a lag. Unless the fold is ahead of its receiver it is not
  (`Observer.EqualCapacitiesLoseEvents`,
  `Observer.FollowerCanBeOutrun`).
- runner.rs:1692-1698 says the digest covers everything up to the last
  `module.completed` and that `final_seq` is the number of events. The digest is
  taken after `score.final`, and `final_seq` is the terminal event's own number,
  one less than the count, when telemetry is quiet
  (`Lifecycle.CompletedIsLastExactlyWhenQuiet`).
- runner.rs:124-129 and 919-925 say an evicted run is fully answerable from
  disk. A failed log write is only a warning, so such a run may have a bundle and
  no log (`Lifecycle.ReplayableRunMayLackItsLog`).
- memory_bandwidth.rs:504-509 says a Sattolo shuffle is needed for a single
  cycle. The shuffled array is used as a visiting order, so any permutation
  gives one (`PointerChase.LinksMakeOneCycle`).
- proxy.rs:517-520 says nothing this program cannot record is left behind. A
  torn snippet with no backup, and a torn receipt, are
  (`Proxy.FailedApplyIsUndone`); and repeating a rollback that failed only at its
  last step deletes the restored file (`Proxy.RetriedRollback`).
- proxy.rs:817-823 prefers over-reporting. One over-deep directory ends the
  whole search and can hide a reference
  (`ReferenceWalk.OverDeepDirectoryHidesAReference`); exactly when it is right is
  `ReferenceWalk.SearchIsExact`.

## Model

| member | source | states |
|---|---|---|
| `RunLog.RunHandle.constructor` | crates/darcbench-agent/src/runner.rs:548-580 | A new handle has an empty record, an empty replay buffer, number 0 next and nothing truncated. |
| `RunLog.RunHandle.Emit` | crates/darcbench-agent/src/runner.rs:758-803 | One critical section gives the event the next number, appends it to the complete record and to the bounded buffer, and evicts the oldest entry exactly when the buffer is full; the buffer remains the record's tail. |
| `RunLog.RunHandle.EventsSince` | crates/darcbench-agent/src/runner.rs:691-712 | The bounded buffer answers every request exactly as the complete record would: the whole rest of it, or a refusal exactly when the next number needed has left the buffer. |
| `RunLog.RunHandle.LastSeq` | crates/darcbench-agent/src/runner.rs:805-807 | The number of the newest recorded event, and 0 when there is none. |
| `RunLog.EmittedKeepsValid` | crates/darcbench-agent/src/runner.rs:758-803 | An emission keeps the record numbered without a hole, the buffer equal to its last 4096 entries and `truncated` set exactly when there have been more. |
| `RunLog.PartitionPoint` | crates/darcbench-agent/src/runner.rs:691-712 | The split point of the buffer: everything before it is at or below the client's position, and what follows is above. |
| `RunLog.SinceIsReplay` | crates/darcbench-agent/src/runner.rs:691-712 | The answer computed from the buffer, `truncated` and a saturating successor equals the answer read off the complete record, for every position a `u64` can hold. |
| `RunLog.BufferRefinesRecord` | crates/darcbench-agent/src/runner.rs:758-803 | In every reachable state the record is 0..n-1 in emission order, the buffer is its last min(n, 4096) entries, and `truncated` holds iff n exceeds that. |
| `Observer.Receiver.TryRecv` | crates/darcbench-agent/src/tui.rs:719-743 | A receiver gets the next event, or finds the channel empty, or, more than a ring behind, is told it lagged and is moved to the oldest event still held. |
| `Observer.View.Fold` | crates/darcbench-agent/src/tui.rs:307-313 | An event is accepted exactly when it is newer than the newest seen. |
| `Observer.Turn` | crates/darcbench-agent/src/tui.rs:726-742 | One turn of the receive loop does what the step function says in each of its three cases, lag recovery included. |
| `Observer.Drain` | crates/darcbench-agent/src/tui.rs:719-743 | With no emission in between, `drain` returns with the newest event folded; what it added is one contiguous stretch ending there, and only numbers below the oldest retained one were passed over. |
| `Observer.SubscribeThenSnapshot` | crates/darcbench-agent/src/tui.rs:629-642 | Subscribing before the snapshot leaves no event that reaches nobody, wherever the subscription fell. |
| `Observer.LagExact` | crates/darcbench-agent/src/tui.rs:734-738 | What lag recovery does in every case: fold the rest of the buffer as it stands when read, or nothing when the request is refused or there is nothing newer. |
| `Observer.ReceiveKeepsAccounted` | crates/darcbench-agent/src/follow.rs:42-60 | One turn in any state, with any emissions between a lag notice and the replay it reads, folds nothing twice and loses exactly what the ring no longer held, and that exactly when the fold was outrun. |
| `Observer.EveryInterleaving` | crates/darcbench-agent/src/follow.rs:31-66 | For every interleaving of emissions and receive turns, emissions inside a turn included, what was folded is the record from the start to the horizon with the returned gaps removed, and there are new gaps iff some lag outran the buffer. |
| `Observer.FollowerIsGapless` | crates/darcbench-agent/src/follow.rs:31-66 | The life of a follower from subscription on: it holds a plain slice of the record iff it was never outrun. |
| `Observer.EqualCapacitiesLoseEvents` | crates/darcbench-agent/src/runner.rs:552-575 | Channel and buffer have one capacity, so a receiver that lags while the fold is not ahead of it has lost events: with something folded its replay is refused and nothing is restored, with nothing folded it is given the ring and never told what came before. |
| `Observer.FollowerCanBeOutrun` | crates/darcbench-agent/src/follow.rs:42-60 | A concrete run of a follower that is overtaken by one more than a full ring: its recovery is refused and event 1 is never folded. |
| `RunView.Reduce` | apps/web/src/useRunStream.ts:149-152 | The loop over a dispatched batch is the fold of its events in order. |
| `RunView.BatchingIsInvisible` | apps/web/src/useRunStream.ts:149-158 | However a sequence is cut into batches, the view is the same. |
| `RunView.ReplayIsIdempotent` | apps/web/src/useRunStream.ts:155-158 | Redelivering any tail of what was already folded changes nothing. |
| `RunView.LastSeqIsNewest` | apps/web/src/useRunStream.ts:155-158 | After folding an ordered stream `lastSeq` is the newest number. |
| `RunView.ViewIsHistory` | apps/web/src/useRunStream.ts:135-299 | Folding any ordered stream gives the view its whole history calls for: each single-valued field holds what the last event to set it said, each metric its last measured sample, results every result, the log the last 300 lines and telemetry the last 180 points. |
| `StreamClient.Stream.Flush` | apps/web/src/useRunStream.ts:310-319 | A flush dispatches the whole pool as one batch and leaves no timer. |
| `StreamClient.Stream.Disconnect` | apps/web/src/useRunStream.ts:321-329 | Disconnecting dispatches what was still pooled. |
| `StreamClient.Stream.Connect` | apps/web/src/useRunStream.ts:331-338 | Connecting leaves an empty pool and a fresh view. |
| `StreamClient.Stream.Handle` | apps/web/src/useRunStream.ts:342-367 | An event is pooled, and the pool is dispatched at once on a terminal event or at 250 entries, and otherwise has a timer due. |
| `StreamClient.HandleKeepsQueue` | apps/web/src/useRunStream.ts:342-367 | Dispatched batches followed by the pool remain what was received, the pool stays under 250, and after a terminal event nothing is pooled. |
| `StreamClient.AnyFlushTiming` | apps/web/src/useRunStream.ts:310-367 | For any timing of timers and arrivals nothing is reordered, dropped or doubled, and a non-empty pool always has a flush due. |
| `StreamClient.QueueViewIsHistory` | apps/web/src/useRunStream.ts:135-367 | The rendered view is the one the dispatched history calls for. |
| `EndToEnd.StepKeepsTransport` | crates/darcbench-agent/src/server.rs:785-862 | Every step of agent, server and client keeps: what the client holds and what is on its way are the record, in order and once each, less numbers that lags skipped. |
| `EndToEnd.SnapshotKeepsTransport` | crates/darcbench-agent/src/server.rs:828-844 | Subscribing, then snapshotting, then merging by number keeps that account; the request is refused iff the next number needed precedes the buffer. |
| `EndToEnd.SendKeepsTransport` | crates/darcbench-agent/src/server.rs:846-862 | Merging the live stream after the backlog by number neither repeats nor omits an event. |
| `EndToEnd.LagKeepsTransport` | crates/darcbench-agent/src/server.rs:851-855 | A lag is skipped and the stream goes on: the numbers it passes over are accounted for as skipped. |
| `EndToEnd.ReplayFromDiskKeepsTransport` | crates/darcbench-agent/src/server.rs:803-826 | The replay of a stored log continues from the client's position to where the file ends, without repetition. |
| `EndToEnd.EveryRunIsOrdered` | apps/web/src/useRunStream.ts:155-158 | For any run at all the browser receives numbers in order and once each, each event as recorded, lacks a number of its window only if a lag skipped it, and shows the view the dispatched history calls for. |
| `EndToEnd.ExactlyOnce` | crates/darcbench-agent/src/server.rs:828-862 | For every run, whatever its emissions, connections, drops, resumes, lags and flushes: what was received is the record's prefix up to the newest number exactly when the first reply began at the first event and no delivery jumped over a number a lag had skipped; then the view is the fold of that prefix up to `lastSeq`. |
| `EndToEnd.DeliverMissesExactly` | crates/darcbench-agent/src/server.rs:846-862 | A delivery leaves a number missing exactly when a lag of the same response skipped one between the client's position and the number delivered. |
| `EndToEnd.MissesExactly` | crates/darcbench-agent/src/server.rs:846-862 | Over every run something is missing exactly when some delivery since the last fresh connection jumped. |
| `EndToEnd.GaplessExactly` | crates/darcbench-agent/src/server.rs:828-862 | Over every run, what was received is a plain slice of the record exactly when no delivery jumped. |
| `EndToEnd.UndisturbedRunsAreExact` | crates/darcbench-agent/src/server.rs:828-862 | In particular delivery is exact in every run where no lag skips anything and the first snapshot precedes truncation. |
| `EndToEnd.DrainedMeansComplete` | crates/darcbench-agent/src/server.rs:846-862 | Once a response is drained the client holds the whole record exactly when its delivery was exact and no number after its position was skipped. |
| `EndToEnd.UndisturbedDrainIsComplete` | crates/darcbench-agent/src/server.rs:846-862 | A drained response of a run where no lag skips anything and the first snapshot precedes truncation has left nothing behind. |
| `EndToEnd.ReconnectRefusedExactly` | crates/darcbench-agent/src/server.rs:835-843 | A reconnect of a resident run is refused exactly when the client's next event has left the replay buffer. |
| `EndToEnd.SkippedCannotBeResumed` | crates/darcbench-agent/src/server.rs:851-855 | Whenever a lag skipped a number the client still needs: with a last event id a resume is refused, and without one it is accepted and starts past that number, so the loss is never reported. |
| `EndToEnd.GapIsPermanent` | crates/darcbench-agent/src/server.rs:851-855 | A number jumped over stays missing through every later step except a new subscription from scratch. |
| `EndToEnd.LagOpensAnUndetectedGap` | crates/darcbench-agent/src/server.rs:851-855 | A concrete run in which event 0 is skipped by a lag, number 1 is delivered next, and 0 stays missing for as long as the subscription lives. |
| `Watchdog.Watchdog.constructor` | crates/darcbench-agent/src/runner.rs:290-309 | Counters start at zero; the load ceiling is enforced iff the load figures can be trusted on this host, and the runtime ceiling comes from the cycle target. |
| `Watchdog.Watchdog.CheckSample` | crates/darcbench-agent/src/runner.rs:329-381 | One sample moves the counters and gives the verdict the decision function says, in the order runtime ceiling, heat, load. |
| `Watchdog.Watchdog.CheckLoad` | crates/darcbench-agent/src/runner.rs:383-465 | The load part: enforced or not, suspended, unreadable, heavily contended, contended or quiet. |
| `Watchdog.Watchdog.TakeContention` | crates/darcbench-agent/src/runner.rs:639-644 | Taking the contention slot returns it and clears it. |
| `Watchdog.StreakMeansLastAll` | crates/darcbench-agent/src/runner.rs:329-381 | A run-length counter reaches k exactly when the last k elements all satisfy its condition. |
| `Watchdog.CountersRefineHistory` | crates/darcbench-agent/src/runner.rs:329-465 | On every history without an earlier abort the counters are streaks of the sample history, unreadable samples skipped and a suspension restarting the count. |
| `Watchdog.WatchdogRefinesHistory` | crates/darcbench-agent/src/runner.rs:329-465 | Every verdict is the one the history calls for: thermal abort exactly when the last 30 samples are hot, load abort exactly when the last 300 readings are at 40% or more, `Degrade` exactly at the 20th contended reading of a stretch. |
| `Watchdog.StretchWasAnnounced` | crates/darcbench-agent/src/runner.rs:383-465 | A contended stretch of at least 20 readings was announced at its 20th, and at no other sample of it. |
| `Watchdog.DegradePrecedesLoadAbort` | crates/darcbench-agent/src/runner.rs:383-465 | No run is stopped for load without the stretch that stopped it having been announced, once, before. |
| `CycleLoop.RunCycles` | crates/darcbench-agent/src/runner.rs:1198-1230 | For arbitrary positive cycle times the loop ends, after the first cycle at which it must stop and no earlier. |
| `CycleLoop.UncancelledRunMakesTwo` | crates/darcbench-agent/src/runner.rs:1213-1220 | An uncancelled cycling run makes at least two cycles and ends only when one more would not fit. |
| `CycleLoop.RunMakesTheDisclosedCycles` | crates/darcbench-agent/src/preflight.rs:118-131 | With cycles of a constant whole number of seconds the run makes exactly the number of cycles preflight multiplied its costs by. |
| `CycleLoop.RunEndsByItsTarget` | crates/darcbench-agent/src/runner.rs:1221-1229 | If no cycle after the second outlasts the mean of those before it, the run ends by the later of its target and the end of cycle two. |
| `CycleLoop.CeilingSparesPunctualRuns` | crates/darcbench-agent/src/runner.rs:166-178 | The hard runtime ceiling does not stop such a run when its first two cycles fit its target and what it did before the loop took no longer than the target or an hour. |
| `CycleLoop.CycleCounterFits` | crates/darcbench-agent/src/runner.rs:1199-1204 | On the longest permitted target the 32-bit cycle counter cannot overflow unless cycles take under 21 microseconds. |
| `Preflight.Accumulate` | crates/darcbench-agent/src/preflight.rs:77-112 | Costs are sums over the known modules, except that peak memory and safety are maxima; each unknown module gives a blocking finding and each dependency an informative one. |
| `Preflight.Run` | crates/darcbench-agent/src/preflight.rs:52-430 | Made in the program's order, check by check, the result is the assessment the monotonicity results are about, its findings in another order. |
| `Preflight.CostFindingsMean` | crates/darcbench-agent/src/preflight.rs:156-347 | Which cost conditions block a run and which only warn, independent of the cycle count. |
| `Preflight.RiskNeverFalls` | crates/darcbench-agent/src/preflight.rs:432-466 | The risk class is monotone in invasiveness. |
| `Preflight.PreflightIsAntitone` | crates/darcbench-agent/src/preflight.rs:77-430 | Appending modules to a non-empty selection never lowers the risk class and never turns a refusal into a pass. |
| `Preflight.VolumeMayFall` | crates/darcbench-agent/src/preflight.rs:118-136 | A selection that grows can still disclose a smaller total write volume, because the cycle count falls. |
| `Preflight.TotalsGrowAtEqualCycles` | crates/darcbench-agent/src/preflight.rs:134-136 | At an equal cycle count no disclosed total falls when the selection grows. |
| `Preflight.TotalsFallExactly` | crates/darcbench-agent/src/preflight.rs:134-136 | For every larger selection, each of volume, traffic and time falls exactly when the added modules cost less than the lost cycles save and the new total is under the counter's ceiling; peak memory and space never fall. |
| `Calibration.CalibrateWith` | crates/darcbench-core/src/harness.rs:63-99 | For any probe whatever the search makes at most 25 probes, each following from the reading before it, and ends cancelled or with a count in 1..2^24 that its last reading calls for. |
| `Calibration.LinearProbeBound` | crates/darcbench-core/src/harness.rs:63-99 | A workload of constant cost is sized within eight probes. |
| `Calibration.LinearProbesStayShort` | crates/darcbench-core/src/harness.rs:86-97 | For such a workload no probe after the first takes half the target. |
| `Calibration.LinearAnswerIsIdeal` | crates/darcbench-core/src/harness.rs:78-85 | For every such workload the result is the target divided by the cost, rounded and clamped, however the probes went. |
| `Calibration.IdealIsClose` | crates/darcbench-core/src/harness.rs:78-82 | Unless clamped, the repetition so sized misses the target by at most half an iteration. |
| `PointerChase.Permutation` | crates/darcbench-core/src/memory_bandwidth.rs:510-531 | For any generator output the next-pointers are one cycle through every slot. |
| `PointerChase.LinkUp` | crates/darcbench-core/src/memory_bandwidth.rs:522-530 | Turning any visiting order into next-pointers gives one cycle. |
| `PointerChase.LinksMakeOneCycle` | crates/darcbench-core/src/memory_bandwidth.rs:522-530 | Any permutation used as a visiting order makes one cycle: from anywhere, the next `len` loads touch every slot once and return. |
| `PointerChase.GatherReadsEverythingOnce` | crates/darcbench-core/src/memory_bandwidth.rs:575-588 | Summing the payload through the index stream gives the plain sum. |
| `Kernels.WorkingSet.Prepare` | crates/darcbench-core/src/memory_bandwidth.rs:462-487 | Each pattern gets the payloads and index entries it needs and no others, filled with 1, 2 and 3, and a cursor at 0. |
| `Kernels.WorkingSet.Execute` | crates/darcbench-core/src/memory_bandwidth.rs:544-607 | A timed stretch leaves the working set and returns the wrapping accumulator that the pass-by-pass function says, for all seven patterns. |
| `Kernels.WorkingSet.Gather` | crates/darcbench-core/src/memory_bandwidth.rs:575-588 | The gather returns the wrapping sum of the payload read through the index stream. |
| `Kernels.WorkingSet.Latency` | crates/darcbench-core/src/memory_bandwidth.rs:589-604 | One pass advances the cursor by exactly 65536 dependent loads and leaves it there. |
| `Kernels.CursorIsTheExactIterate` | crates/darcbench-core/src/memory_bandwidth.rs:589-604 | After any number of passes the cursor is the exact iterate for all loads done so far. |
| `Kernels.RepetitionsContinue` | crates/darcbench-core/src/memory_bandwidth.rs:452-456 | A repetition continues where the one before stopped. |
| `Kernels.AnyTurnIsComplete` | crates/darcbench-core/src/memory_bandwidth.rs:589-604 | Wherever the chase has got to, its next full turn loads every slot exactly once and returns. |
| `Kernels.GatherEqualsScan` | crates/darcbench-core/src/memory_bandwidth.rs:549-588 | The random gather and the sequential scan return the same value after any number of passes and change nothing. |
| `Sizing.SizesAreSound` | crates/darcbench-core/src/memory_bandwidth.rs:338-430 | On every machine the sizes are whole pages of at least 4096 bytes, the cache set fits inside both others, and indices fit in 32 bits. |
| `Sizing.SizesAreMaximal` | crates/darcbench-core/src/memory_bandwidth.rs:363-392 | No size is smaller than its limits force: each is within a page of the tightest of them. |
| `Sizing.ContaminationIsHonest` | crates/darcbench-core/src/memory_bandwidth.rs:382-384 | A plan is reported clean only when its working sets are twice the last-level cache, and the single-threaded one is always clean when memory and ceiling allow the documented multiple. |
| `Sizing.PeakStaysInBudget` | crates/darcbench-core/src/memory_bandwidth.rs:350-407 | With known memory the peak is at most the larger of a quarter of it and 12288 bytes a thread. |
| `Sizing.DisclosedPeakIsHonest` | crates/darcbench-core/src/memory_bandwidth.rs:402-407 | The heap every pattern and shape really holds, the shuffle's temporary array included, never exceeds the disclosed peak. |
| `RunIndex.RunStore.Reconcile` | crates/darcbench-agent/src/index.rs:703-772 | A pass over any directory listing leaves the rows the two loops call for and reports exactly what it indexed, could not read and forgot. |
| `RunIndex.RunStore.Forget` | crates/darcbench-agent/src/index.rs:747-771 | Exactly the rows without a bundle file are dropped. |
| `RunIndex.RunStore.Dispose` | crates/darcbench-agent/src/index.rs:846-879 | What becomes of one run: kept, evidence, failed with its row still listed and its directory partly or wholly gone, or removed with its directory. |
| `RunIndex.RunStore.Prune` | crates/darcbench-agent/src/index.rs:823-881 | The whole outcome of a retention pass run by run, its refusal on a partial view, and that a dry run changes nothing. |
| `RunIndex.ReconcileAgreesWithDisk` | crates/darcbench-agent/src/index.rs:703-806 | When names match and a row stamped like a readable bundle says what it says, afterwards every readable bundle has a row for its current content, no row lacks a bundle file, and rows of unreadable bundles, current or not, are untouched. |
| `RunIndex.ReconcileIsIdempotent` | crates/darcbench-agent/src/index.rs:703-806 | A second pass over an unchanged disk indexes and forgets nothing. |
| `RunIndex.MisnamedBundleNeverSettles` | crates/darcbench-agent/src/index.rs:737-741 | Alone in an empty index, a directory holding another run's bundle is indexed and forgotten by the same pass. |
| `RunIndex.MisnamedIsReindexed` | crates/darcbench-agent/src/index.rs:703-741 | Among any other directories and rows, a readable bundle in another run's directory is re-indexed by every pass. |
| `RunIndex.OnePassAgreesExactly` | crates/darcbench-agent/src/index.rs:703-806 | When no two bundles share an identity, one pass gives every readable bundle a row for its current content exactly when every directory is named after its bundle. |
| `RunIndex.SecondPassSettlesExactly` | crates/darcbench-agent/src/index.rs:703-806 | When no two bundles share an identity, a second pass re-indexes nothing exactly when every directory is named after its bundle. |
| `RunIndex.OutcomePartitionsSelection` | crates/darcbench-agent/src/index.rs:846-879 | The removed, failed and retained runs of a prune are exactly the runs its policy selects, each counted once and in one list only. |
| `RunIndex.FailedRunsStayListed` | crates/darcbench-agent/src/index.rs:862-876 | A run that could not be removed keeps its row, whichever half of its removal failed. |
| `RunIndex.PruneKeepsEvidence` | crates/darcbench-agent/src/index.rs:846-862 | No invalid run and no unselected run is ever removed. |
| `RunIndex.DryRunPredicts` | crates/darcbench-agent/src/index.rs:818-879 | A dry run reports exactly what a prune that meets no failure would do. |
| `RunIndex.RepeatedPruneRemovesNothing` | crates/darcbench-agent/src/index.rs:842-879 | Pruning again with the same cutoff and window removes nothing. |
| `Comparison.Compare` | crates/darcbench-agent/src/index.rs:532-627 | Every key of either run appears exactly once, as a row or as unmatched with the right reason; the runs are comparable iff no gap and no differing basket exists, and each is reported. |
| `Comparison.BaselineRows` | crates/darcbench-agent/src/index.rs:545-581 | The first loop places every baseline key exactly once. |
| `Comparison.CandidateRows` | crates/darcbench-agent/src/index.rs:582-586 | The second loop adds exactly the keys only the candidate has. |
| `Comparison.BasketGaps` | crates/darcbench-agent/src/index.rs:589-627 | The reasons are the fixed ones followed by one for each category computed from different recorded modules, in order. |
| `Comparison.BasketReasonsAreDistinct` | crates/darcbench-agent/src/index.rs:589-617 | No category is reported twice. |
| `Comparison.RatioMeansBetter` | crates/darcbench-agent/src/index.rs:559-562 | A ratio exceeds 1 iff the candidate is better in the declared direction. |
| `Comparison.SwappedRatioInverts` | crates/darcbench-agent/src/index.rs:559-562 | Swapping the runs inverts a ratio iff the directions agree or the values are equal. |
| `Comparison.ComparisonIsSymmetric` | crates/darcbench-agent/src/index.rs:941-989 | Which keys get a row and whether the runs are comparable do not depend on the order of the runs. |
| `Proxy.Apply` | crates/darcbench-agent/src/proxy.rs:471-587 | Under any combination of faults the disk and the outcome are the ones the transaction function says, and in every state the disk passes through the displaced file, any backup and every other file survive. |
| `Proxy.Rollback` | crates/darcbench-agent/src/proxy.rs:628-700 | Under any faults the disk and the outcome are the ones the rollback function says, with the reference search deciding unless forced. |
| `Proxy.UndoFiles` | crates/darcbench-agent/src/proxy.rs:808-811 | Undo removes what was made and puts back what was moved, each half best effort. |
| `Proxy.Restore` | crates/darcbench-agent/src/proxy.rs:800-804 | Without a backup `restore` does nothing; with one it moves it back. |
| `Proxy.FailedApplyIsUndone` | crates/darcbench-agent/src/proxy.rs:530-578 | An `apply` that fails or is rejected leaves every file as it was exactly when no torn write without a backup, torn receipt or failing undo step occurs. |
| `Proxy.RollbackInvertsApply` | crates/darcbench-agent/src/proxy.rs:691-693 | After a successful `apply`, an unobstructed confirmed rollback is the identity exactly when the receipt is deleted and the step that frees or refills the target does not fail. |
| `Proxy.RetriedRollback` | crates/darcbench-agent/src/proxy.rs:691-693 | A rollback that could not delete its receipt and is run again deletes the operator's restored file; the retry is harmless iff nothing had been displaced or the first pass failed to restore it, whatever other faults it met. |
| `Proxy.ReferencedSnippetStays` | crates/darcbench-agent/src/proxy.rs:673-689 | On any tree, an unforced rollback leaves the disk alone when a file the search reaches names the snippet, and otherwise does what a forced one does. |
| `Proxy.EveryReferenceCounts` | crates/darcbench-agent/src/proxy.rs:673-689 | Within the search limits an unforced rollback never removes a snippet that any eligible file still names. |
| `ReferenceWalk.FindReference` | crates/darcbench-agent/src/proxy.rs:825-870 | The work-list search computes the recursive walk, on every tree. |
| `ReferenceWalk.SearchIsExact` | crates/darcbench-agent/src/proxy.rs:825-870 | On any tree the search is exact about the files it reaches; it is right about the whole tree exactly when, if some file names the snippet, a reached one does; within the limits it reaches every eligible file. |
| `ReferenceWalk.WalkIsExact` | crates/darcbench-agent/src/proxy.rs:825-870 | From any work list and count, a genuine reference is found iff some file reached before the limits cut the walk names the snippet. |
| `ReferenceWalk.SearchWithinLimits` | crates/darcbench-agent/src/proxy.rs:825-870 | On a tree no deeper than the limit and with at most as many eligible files as the limit, a reference is found iff some eligible file names the snippet. |
| `ReferenceWalk.OverDeepDirectoryHidesAReference` | crates/darcbench-agent/src/proxy.rs:836-838 | A concrete tree where one over-deep directory ends the search and hides a reference two levels down. |
| `Registry.Manager.EvictReplayable` | crates/darcbench-agent/src/runner.rs:932-949 | The counting and thinning passes leave every run disk cannot answer for and each replayable run with fewer than eight newer ones, in order. |
| `Registry.Manager.Start` | crates/darcbench-agent/src/runner.rs:1052-1120 | A refused start leaves the list alone and says why, in the order unknown modules, none, busy; an accepted one found nothing in flight, is listed, and evicts. |
| `Registry.EvictionKeepsTheNewestEight` | crates/darcbench-agent/src/runner.rs:932-949 | What stays is every non-replayable run and exactly the newest eight replayable ones, in order. |
| `Registry.SlotHoldsOneRun` | crates/darcbench-agent/src/runner.rs:1102-1112 | For every interleaving of concurrent starts and running tasks at most one accepted run is in flight, it is listed, and refused starts leave no trace. |
| `Registry.RefusalIsJustified` | crates/darcbench-agent/src/runner.rs:1107-1109 | A refusal names the one run in flight and changes nothing else. |
| `Registry.AdmissionIsExclusive` | crates/darcbench-agent/src/runner.rs:1102-1112 | A run enters only when no other is in flight, although states are read one at a time while tasks run. |
| `Registry.NothingMovesDuringEviction` | crates/darcbench-agent/src/runner.rs:1110-1119 | No task can publish a state between the two passes of an eviction. |
| `Registry.EvictedCanBeReplayed` | crates/darcbench-agent/src/runner.rs:909-949 | What eviction drops is terminal and has its bundle on disk, eight replayable runs stay, and the run just started stays. |
| `Registry.StartDecides` | crates/darcbench-agent/src/runner.rs:1102-1119 | Left to itself a start is admitted exactly when no run is in flight and otherwise refused: the slot is never lost. |
| `Lifecycle.TerminalMeansReadable` | crates/darcbench-agent/src/runner.rs:1514-1667 | In every reachable state of a run and its telemetry task, a terminal state means the bundle slot holds that state, `run.completed` is in the record exactly once, any written log contains it, and `failed` means exactly that preflight failed. |
| `Lifecycle.StatesAdvanceInOrder` | crates/darcbench-agent/src/runner.rs:1123-1243 | States are published in the lifecycle order and only forward. |
| `Lifecycle.CompletedIsLastExactlyWhenQuiet` | crates/darcbench-agent/src/runner.rs:1232-1243 | However the run goes on, `run.completed` is the last event, carries its own number and agrees with the log, the digest and the event count, exactly when the telemetry task is already quiet as finalisation starts. |
| `Lifecycle.FinalisationCanStartUnquiet` | crates/darcbench-agent/src/runner.rs:1232-1232 | A concrete run whose telemetry task is still mid-tick when finalisation starts, as its abort is not awaited. |
| `Lifecycle.ReplayableRunMayLackItsLog` | crates/darcbench-agent/src/runner.rs:1651-1667 | From every start of finalisation there is a run that ends terminal with its bundle on disk and no event log. |
| `Lifecycle.LogExactlyWhenWritten` | crates/darcbench-agent/src/runner.rs:1651-1660 | Over every run the event log is on disk exactly when its one write succeeded; a failed write is not repeated. |

## Left out

- RunLog.RunHandle.Emit: does not model the `u64` counter past 2^64 - 1 events, nor timestamps; an emission is one step, as it holds the lock throughout.
- RunLog.RunHandle.LastSeq: is not modelled between the counter's increment and the record's append, which an unlocked reader could observe.
- Observer.View.Fold: does not model the dashboard's panes, rings and text; only which events are accepted.
- Observer.Turn: is stated with no emission inside it; `EveryInterleaving` allows one anywhere. It does not model a closed channel, or the follower's early return once the run is terminal; stopping early is stopping at an earlier state of the same runs.
- RunView.ViewIsHistory: keeps a log line's event and severity in place of its formatted text, and leaves out the `connected` flag, which no other field depends on.
- StreamClient.Stream.Handle: does not model frames that fail to parse, which are dropped before they reach the pool.
- EndToEnd.ExactlyOnce: one client stands for any number, since clients only read the agent's log; `Last-Event-ID` is always the client's own.
- EndToEnd.ReplayFromDiskKeepsTransport: the stored log is a prefix of the record; a log with an undecodable line counts as absent, as in the program.
- Watchdog.WatchdogRefinesHistory: readings are reals, so a reading that is not a number is not modelled; warning texts are left out.
- Preflight.Accumulate: does not model overflow of the unsaturated sums of module costs in `u64`.
- Preflight.Run: findings keep check, severity and blocking flag, without their messages; the machine's facts are inputs.
- Calibration.CalibrateWith: over reals, without floating-point rounding; conversion to an integer truncates and saturates as in the program.
- PointerChase.Permutation: requires a length under 2^32; at exactly 2^32 the 32-bit conversion of the length is zero and the program panics, and no plan asks for it.
- Sizing.PeakStaysInBudget: a quarter of the memory is taken by integer division; the program multiplies by 0.25 in floating point, equal below 2^53 bytes.
- RunIndex.RunStore.Reconcile: the disk does not change during a pass, and database errors and an unavailable index are left out; the order in which rows are forgotten is any order.
- RunIndex.RunStore.Dispose: what a failed deletion leaves of a directory is any entry at all.
- RunIndex.RunStore.Prune: the newest-first order is given, and ties keep their order between two calls.
- RunIndex.ReconcileAgreesWithDisk: requires run directories to be named after their bundles, and size and time to tell versions of a readable bundle apart; `OnePassAgreesExactly` shows when the first premise is needed.
- Comparison.Compare: values are reals, so the branch for a ratio that is not finite cannot arise; the final sort of `unmatched` is left out.
- Proxy.Apply: paths are three distinct names and the parent directories exist; races with other processes, permissions and the validator itself are left out.
- ReferenceWalk.FindReference: a line is text and its match is a substring test; directory order is the order of the entries given.
- Registry.Manager.Start: identifiers are given and distinct; the clamping of a cycle target is left out.
- Registry.NothingMovesDuringEviction: covers published states only; another process may delete a bundle between the two passes.
- Lifecycle.TerminalMeansReadable: does not model a panic of the executing task, after which a run would stay in flight.
- Lifecycle.CompletedIsLastExactlyWhenQuiet: module work is a stream of module events, and the bundle keeps only its state and counts; signing and validation are left out.
- `time_reps` (harness.rs:121-190), result lists and single lookups, session handling, scoring, rendering and number formatting are outside the components modelled here.
- Internals of the async runtime, the database and the serialiser.
