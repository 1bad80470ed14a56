# FlockMind, modelled and proved

FlockMind keeps a small cluster of nodes in agreement through a Raft log and lets a brain place
tasks on them. This project models its replicated cluster state and the loops that act on it,
and proves properties of every run:

- **Durable storage.** `LogKeys`, `Storage`, `LogRefinement`, `Recovery`: an ordered log tree
  keyed by big-endian indices, metadata cells, snapshots and reopening. Every storage operation
  is also a list of elementary writes, so "what a crash leaves" is a prefix of that list.
- **Crashes and concurrent builders.** `Crash`, `Torn`, `Spanning`, `Fleet`, `Gaps`: an apply as
  a list of moves on disk and in memory, what every crash inside it leaves, what a snapshot
  builder reads beside one apply or several, many replicas over one log, and many stores over any
  crashes and any snapshots they send each other.
- **State machine.** `StateMachine`, `Meaning`, `Views`: commands folded into four keyed maps,
  under any local clock, and the flattened view with its linear queries. `Run` is the fold;
  `Settled` is an independent closed form, and `Net` the net effect of a log on a cell, which
  decides when two logs mean the same.
- **Task placement and execution.** `Validator`, `Protocol`, `Placement`, `Causes`, `Deeds`,
  `LoadBound`, `Excess`, `Integrity`, `Executor`: one step system over one committed log. Each
  node has an applied prefix, perhaps with gaps, a runner loop that works through a stale batch,
  and a planner that checks one view and writes later. `Causes` traces every entry to the step
  that issued it, and `Deeds` says what actions and payloads leave behind. `Executor` holds the executor's methods in
  imperative form, each proved to be a run of that step system, with other nodes' steps between
  its own.
- **Action tracker.** `Tracker`, `Single`, `TrackerLocks`, `CleanupRace`: the tracker as a class
  for one caller, its single-precision percentage, and the tracker as a system of concurrent
  calls that step from lock to lock. Alone, a lock-level call does what the one-caller
  specification says; a cleanup among others still does it to whatever the others leave alone.
- **Planner loop, summary, raft ids.** `PlannerLoop`, `Summary`, `RaftId`.

`Types` holds the shared data types. The modules need no library.

## Assumptions

- Raft consensus gives one committed log. A write is acknowledged, is lost, or fails and may
  still be committed later. A node's local state is a prefix of the log that contains its own
  acknowledged writes; it grows, and a restart may fall back, but not below those.
- Because a crash inside an apply batch skips entries that the store counts as applied (`Gaps`),
  a node's prefix may have gaps. That they spare the node's own acknowledged writes is an
  assumption of the step system (`Protocol.MayMiss`). Those writes belong to batches that the
  node's store completed, so crashes alone never break it (`StoreHoldsItsLogWithGaps`), but a
  snapshot of a store with gaps brings them along. Over stores that send each other snapshots it
  holds exactly when every snapshot that arrives contains what its target had completed
  (`OwnEntriesStayIff`).
- Leadership is not modelled. The daemon plans on the leader only, and a write through another
  node fails; the step system lets every node plan and write, which covers all handovers.
- Node ids are distinct, and a node runs one runner loop and one planner loop. Only the planner
  loop changes the tracker in a daemon. New tracker ids are fresh. Task ids need not be.
- What sled and serde store is read back equal, and a crash keeps a prefix of the writes.
- Clocks are arbitrary: no theorem needs them to agree or to advance. Hash maps iterate in an
  arbitrary order.
- `start + 1` and `end + 1` on log indices and the counters of goal progress wrap, as in a release
  build.

## Where the plain claim is false

The code is modelled as it is; these are the exact conditions that are proved instead.

- Replicas do not become equal, since `apply` stamps the local clock. They always agree apart
  from stamps, and are equal exactly when the clocks agree at every update whose stamp survives
  (`ExactlyEqualIff`).
- A truncation removes keys in ascending order. It leaves no hole when it completes or has not
  begun, and always leaves one in between (`TruncateCrashIsSafeIff`). A purge that does not go
  back is safe at every write (`PurgeCrashIsSafe`).
- `get_log_state` reports no last id for an empty tree, although Raft's storage contract asks
  for the last purged id then. It meets that contract exactly when the log is not empty or was
  never purged (`ReportedLastId`).
- An inclusive end at the largest index selects nothing and an exclusive start there wraps to
  zero: `RangeReadIsExactIff` says for which bounds a range read is what it means.
- Last-applied is persisted before the state, and before the membership of the same entry. A
  crash inside a batch is harmless, after every history, exactly when no begun entry carries a
  command and none is half done, or the batch is saved (`CrashInBatchIsHarmlessIff`). Here and
  below a history is any log whose entries have other ids than those of the batch.
- A snapshot builder takes no lock over its three reads. Read at any three moments of one apply
  or of a run of applies, the snapshot is right, for every history and target, exactly when the
  entries that it claims and its state misses have no net effect after those it contains, and no
  membership entry lies between the claim and the third read (`TornSnapshotIsExactIff`,
  `SpanningSnapshotIsExactIff`). A build at a single moment is wrong only when the entry then half
  done is a membership or changes something (`OneMomentExactIff`); all moments are right exactly
  for batches of blank entries (`AnyMomentsExactIff`).
- An install that is cut short leaves last-applied ahead of the state. That is harmless, after
  every history, exactly before the first write, after the last, or when the snapshot brings no
  command and, after the first write, no membership (`InstallCrashIsHarmlessIff`).
- Installing a snapshot without a last log id leaves the target's last-applied cell alone
  (`InstallHoldsIff`).
- The per-node task limit is checked on a view and not when the entry commits. The bound that holds
  also counts six causes: submissions, rebalances, placements overlapping one of another planner
  or a late one of the same planner, placements planned on a view with gaps, and starts of tasks
  that had left the active set (`LoadStaysBounded`). Each cause alone suffices to go over the
  plain limit (`EachCauseExceeds`), so the limit holds in all runs that use only some of them
  exactly when they use none (`LimitHoldsIffNoCause`). `OnePlannerHoldsTheLimit` is a class of
  runs that use none. In the run of two planners the lead passes from one node to another whose
  applied prefix lags.
- A node's view with gaps may show more active tasks than any prefix, since it may miss how one
  ended. They exceed the bound at its position by at most the skipped entries about tasks
  (`SeenLoadStaysBounded`).
- The counts of the planner's summary add up to pending plus running only when every active task
  targets a known node (`CountsAddUp`). In executor-only runs that holds at every prefix
  (`ExecutorOnlyCountsAreExact`). In a view with gaps the counts may be lower, and are so exactly
  when all registrations of some active task's target are skipped (`ExecutorOnlyViewsCount`,
  `GapHidesACount`).
- The retry budget of three belongs to the tracker alone. In the planner loop a failed action
  stays live and its similar successors are skipped, so no comparable action is ever tried again
  after its first failure (`FirstFailureIsLast`).
- Distinct node names may get one raft id (`DistinctNamesMayCollide`, `NamesCollideIff`).

## Model

| member | source | states |
|---|---|---|
| StateMachine.SharedState.Apply | src/replicator/state_machine.rs:21-70 | editing the maps in place gives the state that the specification's fold step gives; an update of an absent id changes nothing |
| StateMachine.SharedState.Restore | src/replicator/state_machine.rs:117-119 | the whole contents are replaced |
| StateMachine.RunSettles | src/replicator/state_machine.rs:21-70 | after any log, under any clock, every cell is what the last put or remove left, under the last later update; the fold meets an independent closed form |
| StateMachine.LastsAreLast | src/replicator/state_machine.rs:21-70 | the two positions of the closed form are indeed the last overwrite and the last update of the cell |
| StateMachine.ReplicasConverge | src/replicator/state_machine.rs:21-70 | the same log takes agreeing replicas to agreeing states, whatever their two clocks |
| StateMachine.ExactlyEqualIff | src/replicator/state_machine.rs:36-53 | two clocks give the very same state if and only if they read the same at every update whose stamp survives |
| StateMachine.RunInPieces | src/replicator/state_machine.rs:21-70 | a log applied in two pieces under two clocks agrees with the log applied at once |
| Meaning.ReplayOfSuffix | src/replicator/state_machine.rs:21-70 | applying any already applied suffix again, under another clock, changes nothing but stamps |
| Meaning.RunIsNet | src/replicator/state_machine.rs:21-70 | after any log, under any clock, a cell is what its net effect, applied once, makes of it, stamps aside |
| Meaning.SameMeaningIff | src/replicator/state_machine.rs:21-70 | two logs lead to agreeing states after every history if and only if they have the same net effect on every cell |
| Meaning.NoEffectIff | src/replicator/state_machine.rs:21-70 | a log has no net effect on any cell if and only if it carries no command |
| Meaning.SkippingIsHarmlessIff | src/replicator/state_machine.rs:21-70 | skipping entries is harmless, after every history and for every state, if and only if none of them carries a command |
| StateMachine.RunKeepsKeysCoherent | src/replicator/state_machine.rs:21-70 | from every coherent state, restored ones included, every log and clock leave each value stored under its own id |
| LogKeys.KeysRoundTrip | src/replicator/storage.rs:79-81 | an index and its eight-byte key determine each other, in both directions |
| LogKeys.OrderIsNumeric | src/replicator/storage.rs:79-81 | encoded indices of any width are ordered byte by byte exactly as the numbers are |
| LogKeys.KeyOrder | src/replicator/storage.rs:79-81 | the byte order of any two eight-byte keys is the order of the indices they decode to |
| LogKeys.AscendingRange | src/replicator/storage.rs:155-198 | iterating over a contiguous block of indices yields exactly its keys, from first to last |
| Storage.RangeReadIsExactIff | src/replicator/storage.rs:155-198 | the computed start and end select what the bounds mean, at every index, if and only if the bounds survive the wrap |
| Storage.Db.Scan | src/replicator/storage.rs:155-198 | iteration visits the given keys once each, in tree order |
| Storage.SledStorage.TryGetLogEntries | src/replicator/storage.rs:155-198 | the entries returned are exactly those at the selected keys, ascending |
| Storage.SledStorage.CollectBefore | src/replicator/storage.rs:174-198 | the walk stops at the first index not before the end and returns all entries ahead of it |
| Storage.ScanIsOrdered | src/replicator/storage.rs:155-198 | a scan from a log key yields precisely the stored indices from there on, in numeric order |
| Storage.SledStorage.Handle | src/replicator/storage.rs:424-432 | a second handle shares trees and state and copies the snapshot counter |
| Storage.SledStorage.SaveVote | src/replicator/storage.rs:266-274 | the vote cell holds the vote, nothing else changes |
| Storage.SledStorage.ReadVote | src/replicator/storage.rs:276-278 | answers the vote cell |
| Storage.SledStorage.GetLogState | src/replicator/storage.rs:244-264 | last-purged, and the id at the greatest key; none exactly for an empty tree |
| Storage.SledStorage.AppendToLog | src/replicator/storage.rs:290-313 | the disk and the order of writes are those of one insert an entry |
| Storage.SledStorage.DeleteConflictLogsSince | src/replicator/storage.rs:315-335 | removes every key at or above the index, in ascending order, write by write |
| Storage.SledStorage.PurgeLogsUpTo | src/replicator/storage.rs:337-365 | last-purged is written first, then every key at or below the index is removed |
| Storage.SledStorage.ApplyToStateMachine | src/replicator/storage.rs:379-422 | memory is the fold of the batch; disk and journal are those of the batch's writes, the saved state last |
| Storage.SledStorage.Meanwhile | src/replicator/storage.rs:424-432 | what other handles of the same trees and state do between two steps is the given list of moves |
| Storage.SledStorage.BuildSnapshot | src/replicator/storage.rs:202-237 | reads the state in memory, then the persisted last-applied, then the membership, with any moves of others before the second and the third read; the counter advances and is in the id together with the last-applied id of the snapshot; without such moves it is the snapshot of one moment |
| Storage.SledStorage.InstallSnapshot | src/replicator/storage.rs:440-483 | undecodable data changes nothing; otherwise memory, last-applied, membership and saved state are replaced |
| LogRefinement.AppendRefines | src/replicator/storage.rs:290-313 | contiguous entries overwrite and extend the sequence: kept below, replaced where both are, kept above |
| LogRefinement.TruncateRefines | src/replicator/storage.rs:315-335 | truncation keeps exactly the entries below its index |
| LogRefinement.TruncateCrashIsSafeIff | src/replicator/storage.rs:315-335 | a truncation cut short after n removals leaves no hole if and only if n is none or all |
| LogRefinement.PurgeRefines | src/replicator/storage.rs:337-365 | a purge keeps exactly the entries above its id, also when it reaches past the end |
| LogRefinement.PurgeCrashIsSafe | src/replicator/storage.rs:337-365 | after any prefix of the writes of a purge that does not go back, no entry above the recorded last-purged index is missing |
| LogRefinement.LogRefinesSequence | src/replicator/storage.rs:290-365 | after every legal run of appends, truncations and purges the tree is the sequence above last-purged, without a hole |
| LogRefinement.ReportedLastId | src/replicator/storage.rs:244-264 | the id at the greatest key is that of the last entry; it equals "last entry or else last purged" if and only if the log is not empty or never was purged |
| LogRefinement.RangeReadOfSequence | src/replicator/storage.rs:155-198 | over a refined log a range read returns precisely the slice of the sequence within bounds |
| Recovery.RestartRecovers | src/replicator/storage.rs:52-77 | after every run of completed operations reopening gives exactly the state in memory, the last applied id, the latest membership, the last vote saved, the last purged id and the last snapshot number of a reference that never loses anything |
| Recovery.BatchEffect | src/replicator/storage.rs:379-411 | a batch leaves the id of its last entry and the last membership it contains |
| Crash.MomentIs | src/replicator/storage.rs:379-422 | after any number of moves of an apply, memory and membership are those of the entries that are through and last-applied is that of the entries begun |
| Crash.CrashIsMoment | src/replicator/storage.rs:379-422 | every prefix of the writes of an apply leaves the disk of some moment |
| Crash.MomentIsCrash | src/replicator/storage.rs:379-422 | the disk of every moment is left by some prefix of the writes |
| Crash.CrashInBatch | src/replicator/storage.rs:379-422 | what reopens after a crash at any moment: the old state, last-applied of the entries begun, membership of the entries through, at most one entry between these two |
| Crash.CrashInBatchIsHarmlessIff | src/replicator/storage.rs:379-422 | for every replica and history, the store reopened after a crash holds state, last-applied and membership of what it claims, if and only if no begun entry carries a command and none is half done, or the batch is saved |
| Torn.TornIsBuiltBeside | src/replicator/storage.rs:202-237 | a builder beside which the moves of an apply run reads the three cells at three of its moments |
| Torn.TornSnapshotIsExactIff | src/replicator/storage.rs:202-237 | a snapshot whose three reads fall at any moments of an apply gives every target state, last-applied and membership of what it claims, for every history, if and only if what its state misses has no net effect after what it contains and no membership lies between claim and third read |
| Torn.OneMomentExactIff | src/replicator/storage.rs:202-237 | a build in one go inside an apply is exact if and only if no entry is then half done that is a membership or changes something after those before it |
| Spanning.SpanningIsTorn | src/replicator/storage.rs:202-422 | a builder that goes on over any number of applies builds what it would have built beside one apply of all their entries, at the corresponding moments |
| Spanning.SpanningSnapshotIsExactIff | src/replicator/storage.rs:202-422 | its snapshot is exact, for every history and target, if and only if those reads match |
| Torn.AnyMomentsExactIff | src/replicator/storage.rs:202-237 | all read moments give an exact snapshot if and only if every entry of the batch is blank |
| Torn.CrashInInstall | src/replicator/storage.rs:440-483 | what reopens after each write of an install: last-applied first, then membership, then state |
| Torn.InstallCrashIsHarmlessIff | src/replicator/storage.rs:440-483 | a cut install is harmless, for every donor, target and history, if and only if it is at its start or end or the snapshot brings no command and, after the first write, no membership |
| Recovery.InstallHoldsIff | src/replicator/storage.rs:440-483 | an installed snapshot makes the target hold what the donor held if and only if it has a last log id or the target never applied anything |
| Recovery.CatchUpEqualsReplay | src/replicator/storage.rs:202-483 | snapshot at any position plus the remaining entries gives the state, last-applied and membership of applying the whole log, for any two clocks and any target |
| Fleet.EveryReplicaHoldsAPrefix | src/replicator/storage.rs:202-483 | over all runs of applies, crashes at harmless points, snapshots shipped and installed anywhere, and restarts, every replica holds a prefix of the log, and replicas at one position agree |
| Gaps.NoGapsIsHolds | src/replicator/storage.rs:52-77 | without gaps "holds its position" means the same state, last-applied and membership as elsewhere |
| Gaps.CrashMakesGap | src/replicator/storage.rs:379-422 | a crash before the save leaves the log position of the begun entries, with exactly these skipped, their last id persisted and the half-done one missing from the membership |
| Gaps.StoreHoldsItsLogWithGaps | src/replicator/storage.rs:52-422 | over every run of batches, completed or cut short anywhere, the store holds its log position but for the skipped entries: last-applied is the id at the position, the membership the latest but for half-done entries, and each entry below is either skipped or completed, never both |
| Gaps.StoresHoldTheirLogs | src/replicator/storage.rs:52-483 | so does every one of many stores that also send each other snapshots and install them at any point, the gaps of the donor included |
| Gaps.OwnEntriesStayIff | src/replicator/storage.rs:379-483 | stores never miss what they completed themselves, at any point of a run, if and only if every snapshot that arrives contains what its target completed |
| Gaps.StoreIsWhatItsNodeSees | src/replicator/state_machine.rs:72-81 | then a node of the step system at this position and with these gaps sees its store's state and misses none of its own entries |
| Views.LookupsAgree | src/executor/validator.rs:78-104 | for every iteration order a linear lookup by id over the view is a map lookup |
| Views.IdsAreUnique | src/replicator/state_machine.rs:72-81 | for every iteration order ids are unique in all four flattened lists |
| Views.TaskFiltersAgree | src/types.rs:141-153 | for every iteration order a task filter selects exactly the matching keys, each once |
| Validator.ValidatePathAllowed | src/executor/validator.rs:148-170 | the loop with its early return accepts exactly the paths under no blocked prefix and, when there is an allow list, under an allowed one, and reports a block exactly when there is one |
| Validator.DecisionsCarryDown | src/executor/validator.rs:148-170 | everything below a blocked path is blocked, and below an admitted path exactly what a longer blocked prefix blocks is refused |
| Validator.PolicyDecides | src/executor/validator.rs:106-189 | the ordered checks of payload and attachment kind accept exactly what an order-free reading of the policy admits |
| Validator.ValidateDecides | src/executor/validator.rs:43-76 | the gate over the flattened view decides exactly what an order-free predicate over the maps permits |
| Validator.RefusalsTellWhy | src/executor/validator.rs:43-211 | the gate refuses for exactly the reason the maps give: of several things wrong the first in order, with the path, node or count in question |
| Protocol.StepFrame | src/executor/mod.rs:39-177 | a step issues at most one entry, from its own code path; the log grows by at most that entry or one from limbo; acknowledged prefixes only grow |
| Protocol.ShapeHolds | src/executor/mod.rs:39-177 | in every run tasks are put as Pending, a status comes with a result exactly when Completed, and applied prefixes lie within the log |
| Placement.TaskOrigin | src/replicator/state_machine.rs:42-55 | a task in a state is the task of its last PutTask, with status and result of the last later update |
| Placement.PendingIsUnused | src/daemon.rs:193-202 | a pending task in a node's view, whatever the view misses, comes from a PutTask that no execution has used |
| Placement.EachPlacementRunsAtMostOnce | src/daemon.rs:193-215 | in every interleaving, with lagging views and views with gaps, each PutTask entry is executed at most once, only by its target with its payload, and executions of a task never exceed its PutTask entries |
| Placement.StatusMatchesResult | src/executor/mod.rs:148-174 | in every interleaving, at every prefix and with any entries skipped, a task that is not Pending has a result exactly when it is Completed, and none is Scheduled |
| Placement.BatchIsAllPending | src/daemon.rs:193-215 | a batch is exactly the tasks that the state shows as pending on this node, each once |
| Causes.CausesHold | src/executor/mod.rs:39-177 | in every run every entry in the log or under way was issued by an enabled step of the run and says, field by field, what that step stands for; and what a planner is about to write was planned by its last validated plan, for a rebalance with its second view in between |
| Deeds.PlacementsArePlanned | src/executor/mod.rs:42-61 | every placement in the log is a schedule that its planner validated, with exactly this payload, target and priority, and its policy admits the payload |
| Deeds.AcknowledgedActionIsDone | src/executor/mod.rs:42-133 | a committed write changes the maps as its planned and permitted action asked, and nothing else: a new pending task, a cancelled one otherwise unchanged, a moved one that keeps payload, priority, creation time and result, a degraded node with its reason, a new attachment, a dropped one |
| Deeds.EntryDoes | src/replicator/state_machine.rs:21-70 | the same for appending such an entry to any log, under any clock |
| Deeds.HousekeepingDoes | src/replicator/state_machine.rs:21-70 | registrations, removals and goals change their own cell as given and nothing else |
| Deeds.StatusTellsHowItEnded | src/executor/mod.rs:148-174 | in every run, at every prefix and with any entries skipped, a Completed task carries the value that a recorded execution of it finished with, a Failed one the error, a Running one was started and a Cancelled one cancelled through the gate |
| LoadBound.LoadStep | src/replicator/state_machine.rs:42-55 | one entry adds at most one active task to a node, and only as a put into it or a revival on it |
| LoadBound.LoadStaysBounded | src/executor/validator.rs:191-211 | over every run, at every prefix of the log, the active tasks on a node never exceed the limit plus the entries on it that have one of the six causes |
| LoadBound.SeenLoadStaysBounded | src/executor/validator.rs:191-211 | in every node's view, whatever it misses, the active tasks on a node exceed that bound by at most the skipped entries about tasks |
| LoadBound.NoUncheckedNoSurplus | src/executor/validator.rs:191-211 | without such entries the surplus is zero |
| LoadBound.OnePlannerHoldsTheLimit | src/executor/validator.rs:191-211 | with one scheduling node that skips no entry and whose failed writes stay failed, and no rebalance, submission or revival on the node, the limit holds |
| Excess.EachCauseExceeds | src/executor/mod.rs:42-82 | for each of the six causes a run that uses this cause alone and puts two active tasks on a node with limit one |
| Excess.LimitHoldsIffNoCause | src/executor/validator.rs:191-211 | the plain limit holds in every run that uses only a given set of causes if and only if the set is empty |
| Integrity.ExecutorOnlyRunsStayIntegral | src/executor/mod.rs:39-133 | without submissions and node removals every task and attachment, at every prefix, names a registered node and passes some node's policy, rebalances included |
| Integrity.SeenTaskIsAdmissible | src/executor/mod.rs:71-82 | whatever entries a view misses, a task in it carries a payload that passes some policy |
| Integrity.DisabledArmsAreNeverReached | src/executor/runner.rs:44-50 | in such runs no executed payload is a command or a custom tool |
| Executor.HiveExecutor.RunTask | src/executor/mod.rs:138-177 | the method is the protocol steps Start and Finish, with any steps of others before each; it returns a value exactly when the target is right, the payload succeeded and both writes were acknowledged; and then the state records that value, or the error of a payload that failed |
| Executor.HiveExecutor.RunBatch | src/daemon.rs:204-215 | the loop over a stale batch is the run of all its steps and of any steps of others between them, whatever became of each task |
| Executor.HiveExecutor.Execute | src/executor/mod.rs:39-136 | a refused action changes nothing; an accepted one is the protocol run plan, reread for a rebalance, commit, with any steps of others between them; it succeeds exactly when its write does or there is nothing to write, and after an acknowledged write the action is done to the maps as they are then |
| Executor.HiveExecutor.Act | src/executor/mod.rs:42-133 | every arm is the rest of that run: at most one write, which does the action |
| Executor.HiveExecutor.Rebalance | src/executor/mod.rs:71-82 | uses the second view, which may have changed, and writes nothing when the task is gone from it |
| Executor.HiveExecutor.OthersSpare | src/executor/mod.rs:39-136 | whatever the others do, a node's planned write, or its batch and the task it is executing, stay as they are |
| Tracker.SimilarIffSameSubject | src/brain/tracker.rs:273-293 | two actions are similar exactly when they are of one comparable kind and agree on node and payload constructor, on the task, on the task, or on the node |
| Tracker.OnlyTheSubjectMatters | src/brain/tracker.rs:273-293 | priority, payload arguments, destination and reason never change the answer, another subject always does |
| Tracker.SimilarityIsPartialEquivalence | src/brain/tracker.rs:273-293 | similarity is symmetric and transitive, and reflexive exactly on the four comparable kinds |
| Tracker.RecentActionsAreNewest | src/brain/tracker.rs:220-229 | the recent actions are the newest ones up to the limit, newest first |
| Tracker.FailuresAreTheFailed | src/brain/tracker.rs:208-218 | the failures of a list are its failed actions, each as often as it occurs |
| Tracker.RecentActionsRefine | src/brain/tracker.rs:220-229 | for limits up to 1000 the query on the bounded history is the query on everything that finished |
| Tracker.RecentFailuresRefine | src/brain/tracker.rs:208-218 | recent failures are a prefix of all failures newest first, and the unbounded answer exactly when the limit is reached or no failure was evicted |
| Tracker.PushKeepsBound | src/brain/tracker.rs:125-132 | the history stays the last 1000 of everything that finished |
| Tracker.ProgressCounts | src/brain/tracker.rs:171-202 | over every sequence of updates a goal has a record exactly when updated, its 32-bit counts are the numbers of its updates, and its notes are its last fifty |
| Tracker.LastPlannedIsLastUpdate | src/brain/tracker.rs:183 | the record carries the time of the goal's last update |
| Tracker.EstimateIsShare | src/brain/tracker.rs:199-201 | until the counters wrap, the estimate is the percentage of completed updates, truncated, up to one part in ten thousand; it is at most 100, 100 when none failed and 0 when none completed |
| Single.NearestMultiple | src/brain/tracker.rs:199-201 | a number in [1, 2) is rounded to the nearest multiple of 2^-23, of two the even one |
| Single.PercentIsClose | src/brain/tracker.rs:199-201 | three single-precision operations, each rounded to nearest even, keep that accuracy for all counts |
| Tracker.ActionTracker.TrackAction | src/brain/tracker.rs:65-78 | the action becomes live as Proposed under its fresh id |
| Tracker.ActionTracker.MarkExecuting | src/brain/tracker.rs:80-84 | a live action becomes Executing and is otherwise unchanged; an unknown id changes nothing |
| Tracker.ActionTracker.MarkCompleted | src/brain/tracker.rs:86-99 | a live action moves to the history as Completed with its result; an unknown id changes nothing |
| Tracker.ActionTracker.MarkFailed | src/brain/tracker.rs:101-123 | counts the failure; the first two leave it live as Proposed; the third moves it to the history as Failed with the message; the answer says exactly which |
| Tracker.ActionTracker.AddToHistory | src/brain/tracker.rs:125-132 | pushes, then drops the oldest until at most 1000 are left |
| Tracker.ActionTracker.CleanupStale | src/brain/tracker.rs:144-169 | exactly the actions Executing for more than five minutes leave, each recorded once as Failed with a timeout at that time, in iteration order; every other one stays as it is |
| Tracker.ActionTracker.UpdateGoalProgress | src/brain/tracker.rs:171-202 | the stored record is the specified one |
| Tracker.ActionTracker.HasSimilarPending | src/brain/tracker.rs:231-237 | true exactly when some live action is similar |
| TrackerLocks.ExactlyOnePlace | src/brain/tracker.rs:86-169 | in every lock-level interleaving live, carried, kept and evicted actions sum to the ids issued, each is in one place, and none enters the history twice even when completion or failure races cleanup |
| TrackerLocks.StatsAddUp | src/brain/tracker.rs:239-255 | the four counts and the ids carried or evicted sum to the ids issued, and history is completed plus failed |
| TrackerLocks.ExclusionHolds | src/brain/tracker.rs:44-51 | no run lets two calls hold one lock incompatibly |
| TrackerLocks.NoDeadlock | src/brain/tracker.rs:86-255 | in every state with an unfinished call some call can step |
| TrackerLocks.AdvanceLeavesLess | src/brain/tracker.rs:86-169 | every step leaves less of its call, the relocking loop included |
| TrackerLocks.AllCallsFinish | src/brain/tracker.rs:86-255 | from every state the calls under way can all finish |
| TrackerLocks.MarksAloneAreSequential | src/brain/tracker.rs:65-123 | track and mark calls running alone do what the one-caller specification says |
| TrackerLocks.CleanupAloneIsSequential | src/brain/tracker.rs:144-169 | a cleanup running alone, through all its relocking, times out its list as specified |
| CleanupRace.CleanupAmongOthers | src/brain/tracker.rs:144-169 | in every lock-level run, once a cleanup is over, an action that no other call was about is gone and recorded exactly once as timed out if it was Executing for more than five minutes, and otherwise live, unchanged and not recorded |
| PlannerLoop.Daemon.Attempt | src/daemon.rs:276-305 | tracking, executing and recording one action give the specified tracker |
| PlannerLoop.Daemon.RunTick | src/daemon.rs:240-307 | one tick, with its early exits, is the specified tick |
| PlannerLoop.TickKeepsSteady | src/daemon.rs:240-307 | between ticks cleanup does nothing and the recent-failure check never holds an action back, so similarity decides alone |
| PlannerLoop.TickBoundary | src/daemon.rs:240-307 | over every run live actions are pairwise dissimilar, Proposed, with one failure counted; the next cleanup changes nothing and sees no failure |
| PlannerLoop.FirstFailureIsLast | src/daemon.rs:264-274 | an action is held back exactly when an attempt of its kind on its subject failed before, so never because of another task or node; and after a failure nothing on that subject was ever attempted again |
| PlannerLoop.HeldBackIff | src/daemon.rs:251-274 | from any memory, an action is held back exactly when a live action or one of the ten newest failures of the history is of its kind on its subject |
| PlannerLoop.HistoryAndProgressAreAttempts | src/daemon.rs:276-305 | the history is the last 1000 successful attempts in order; a goal has a record exactly when an attempt named it; until the counters wrap its counts are the numbers of such attempts that succeeded and failed; its notes are the last fifty replies to the latter and its time that of the last attempt |
| PlannerLoop.StatsAreAttempts | src/brain/tracker.rs:239-255 | at a tick the statistics are the failed attempts as pending, the kept successes as completed, and nothing else |
| Summary.Summarize | src/brain/planner.rs:128-178 | the loop fills the two lists and the counts as specified |
| Summary.ListsPartitionNodes | src/brain/planner.rs:131-158 | the two lists together have every node once, and each holds exactly the summaries of the nodes of its health, which carry the node's own id, hostname, tags and metrics and the number of its pending and running tasks |
| Summary.CountedBothWays | src/brain/planner.rs:131-149 | the sum over nodes counts every active task once for each node that carries its target's id, repeated ids included |
| Summary.CountsAddUp | src/brain/planner.rs:131-178 | with unique node ids the counts and the active tasks without a known node sum to pending plus running; equality if and only if every active task targets a known node |
| Summary.ExecutorOnlyViewsCount | src/brain/planner.rs:131-178 | in executor-only runs, in every node's view, whatever it misses, and every order, the counts are at most pending plus running, and equal if and only if no active task has a target all of whose registrations are skipped |
| Summary.ExecutorOnlyCountsAreExact | src/brain/planner.rs:131-178 | in executor-only runs, in the state at every prefix and in every order, the counts sum to exactly pending plus running |
| Summary.GapHidesACount | src/brain/planner.rs:131-178 | an executor-only run after which a node's view has one active task and counts none |
| RaftId.PackRaftId | src/daemon.rs:34-41 | filling the array byte by byte gives the padded first eight bytes, read little-endian |
| RaftId.BytesOfRaftId | src/daemon.rs:34-41 | byte i of the name is digit i of the raft id to the base 256, a missing byte is zero |
| RaftId.RaftIdsEqualIff | src/daemon.rs:34-41 | raft ids are 64-bit and equal if and only if the padded first eight bytes are |
| RaftId.NamesCollideIff | src/daemon.rs:34-41 | names without a zero byte collide if and only if their leading eight bytes are the same |
| RaftId.DistinctNamesMayCollide | src/daemon.rs:34-41 | two distinct names with one raft id |

## Left out

- Raft itself: elections, replication, openraft's adaptor and the network. They appear as one committed log, local prefixes and the outcomes of a write.
- JSON, bincode and sled internals, and disk writes that fail: stored cells are values, trees are ordered maps.
- The processes that the runner starts: an arbitrary success or failure. Only its two disabled arms are modelled.
- The language model client, the prompt and `parse_action`: the brain may propose any list of actions.
- Certificates, enrolment tokens, configuration, the command line tool and the HTTP routes, apart from task submission as a source of tasks that passes no gate.
- The attachment registry, and the goal and attachment parts of the summary: plain maps and filters.
- `healthy_nodes` and `nodes_with_tag`: one-line filters like those that are modelled.
- `HiveState.last_applied_index`: carried by the state and its snapshots; the storage code never sets it.
- Fleet.EveryReplicaHoldsAPrefix: crashes only at harmless points, since after any other the replica does not hold a prefix; `StoresHoldTheirLogs` covers all crashes.
- `get_current_snapshot` always answers none (storage.rs:485-489), so the adaptor is never handed a stored snapshot to send: `Fleet`, `CatchUpEqualsReplay` and the snapshots in `Gaps` are about the build and install calls, whoever makes them.
- PlannerLoop.Daemon.RunTick: the executor's reply is an input, not a call into the executor model, so every reply is covered. `get_stats` only feeds a log line there.
- TrackerLocks.NoDeadlock: a lock is granted when no holder excludes it; queueing order and poisoned locks are not modelled.
- TrackerLocks.AllCallsFinish: new calls may start at any time, so fairness between calls is not promised.
- Notes of a goal keep the time and text that their string is formatted from.
- The format of a snapshot id string: the pair it is made of stands for it.
- Sums and differences of clock readings do not overflow.
