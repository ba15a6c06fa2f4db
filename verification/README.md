# A verified model of the swim-lane consumer

The engine in `internal/engine` consumes a partition with many workers, keeps the messages of one
key serial, and commits only the offset up to which everything is settled. This project models that
engine and proves what it promises: at-least-once consumption over whole runs with crashes, the
order of each key across retries, no lost wakeup in a lane, conservation of slots, messages and
counters, what a drain commits, and who may pause a partition.

## How it is built

- `Types`, `Sums`: messages, configuration, key routing; sums over sequences and maps.
- `Tracker` (modules `TrackerSpec` and `TrackerObject`): the contiguous pointer, first as a function
  on values with its laws, then as a class with its scan loop. A ghost set holds what completed.
- `Backoff`: the retry delay in wrapping 64-bit arithmetic against doubling without a word size.
- `LaneMachine`: one lane as a state machine. Every mutex section, channel operation and atomic add
  is one event, so everything proved holds under every interleaving of pushes, closing and the
  worker. `LaneStock`, `LaneInvariant` and `LaneSerial` hold its invariants; `LaneTheorems` the
  results, and `LaneDrain` the measure that every step of the worker lowers.
- `PartitionMachine`: one partition worker. The poll goroutine takes the steps of `route` and `drain`
  one by one, between those of the lane workers or, in Unordered mode, of one goroutine per message.
  `PartitionSums`, `PartitionInvariant`, `PartitionShared`, `PartitionHistory`, `PartitionOrder`,
  `PartitionLog` and `PartitionRuns` hold the invariants; `PartitionTheorems` the results,
  `PartitionDrain` how a drain ends, and `PartitionPaths` and `PartitionWitness` runs in which the
  worker does what it is not expected to do.
- `EngineMachine`: the consumer with every worker ever assigned, the run loop, rebalances, the
  committer, the broker's committed positions, and crashes. A commit that was sent may reach the
  broker at any later time, entry by entry, or never. `EngineInvariant` holds the
  invariant, `EngineTheorems`, `EngineErrors`, `EngineMarks` and `EnginePausing` the results, and
  `EngineWitness` runs in which the consumer does less than it says. `Projections` carries what holds of
  lanes and of workers over to the runs of what they are part of.
- `Pausing`: the pause flags of the user and of backpressure, and the transport's own set.
- `LaneObject`, `WorkerObject`, `ConsumerObject`: the lane, the partition worker and the consumer as
  classes; `LaneOrder` has the laws for the lane's. Their methods follow the loops and updates of the source, and each is proved against the
  functions that the state machines use for the same step.

Handler and OnDiscard results, contexts, time, the order in which a map is scanned, and which ready
branch a select takes are free choices of every step. Time only has to be a number that does not go
back. A panic counts as an error. A message that leaves goes through named stages (`Tally`,
`Complete`, `Forget`, `FreeSlot`, `DropCount` and so on), and each stage is an event of its own; the
predicates `OPEN`, `SLOTTED`, `COUNTED` and the like say until which stage a message counts for a sum.

## Assumptions

- Rebalance callbacks run on the poll goroutine and never inside `route`.
- An ownership period starts polling at the committed position, delivers no record twice from an
  earlier one, and first finds the first record at or after that position.
- The key extractor and the hash are functions of their argument.
- The configuration passed validation (`ValidConfig`).
- `DupFree` means that no offset is delivered twice in one ownership period; `GapFree` that the
  delivered offsets are consecutive. A result needs them only where it says so.

## Where the code does less than its comments say

- A successful commit marks the pointer as it is then, not the value sent, and marks it in whatever
  worker holds the partition by then. So an advance during the commit can be forgotten (`MarkForgets`),
  and so can all progress of a worker that was assigned meanwhile (`MarkForgetsLater`).
  `MarkForgetsExactly` says when, for every mark of every run, and `ForgottenStays` for how long.
- A commit that was read before a revoke can land after the revoke's own, and the position at the
  broker goes back (`PositionGoesBack`, `PositionBackExactly`).
- A failed final commit of a revoke should make `Run` return an error. It does so exactly unless the
  Poll that ran the callback itself ends the run loop without an error and shutdown finds no other
  (`RevokeFailureSurfaces`, `RevokeFailureLost`).
- A duplicate that is skipped is never taken out of the consumer-wide in-flight count again.
  `CounterConservation` states the exact surplus, `DuplicateStaysCounted` is a run.
- An offset that completed out of order and is delivered again is handled again
  (`DuplicatesRunAgain`, `CompletedRunsAgain`).
- A worker that leaves because its context ended leaves its lane open, and a push that races with it
  strands its message (`PushAfterExit`, `StrandedAfterCancel`). Exactly the messages pushed after the worker gathered what was
  queued are stranded (`StrandedExactly`), and then no drain ends cleanly any more
  (`StrandedBlocksDrain`, `OnlyStrandedWait`). When every lane was closed before its worker left, it
  does (`DrainEndsClean`).
- A closed lane does not abandon what is queued; its worker handles it all (`LaneObject.Lane.Run`, `DrainBounded`).
- In Unordered mode a message that finds no room before the context ends stays in the pending set
  (`OnlyEntrantsCount`).
- `Resume` does not clear the flag of backpressure, which then ignores a full partition
  (`FlagAgreesStep`, `StaleFlagReached`, `StaleFlagBlinds`). Calls that overlap each other, a rebalance
  or backpressure can leave a pause that nobody owns, or lose one (`PauseRacesRevoke`,
  `RevokeRacesPause`, `PauseRacesResume`, `ResumeRacesPause`, `BackpressureRacesPause`).
- The cap on shifts does not keep the backoff from overflowing unseen. `BackoffExactIff` and
  `BackoffMonotoneIff` say for every policy when the delay is the intended one, and when later attempts
  never wait less; `BackoffNotMonotone` is a policy for which they do.
- The ceiling that blocking in `route` is said to enforce can be passed (`NaturalCapExceeded`), exactly
  when more lane workers are between freeing a slot and dropping the count than there are slots that
  no message holds (`CapPassedExactly`).

## Model

| member | source | states |
|---|---|---|
| TrackerSpec.CompleteTracks | internal/engine/offsettracker.go:36-55 | One completion, repeated, out of order or below the seed, keeps the pointer at the least offset from the seed on that has not completed and the done set at exactly the completed offsets above it; the pointer never goes back |
| TrackerSpec.CompleteUnseeded | internal/engine/offsettracker.go:39-42 | A completion before any seed makes its own offset the seed and leaves the commit baseline unset |
| TrackerSpec.CompleteAllTracks | internal/engine/offsettracker.go:20-55 | The same after any sequence of completions |
| TrackerSpec.Confluence | internal/engine/offsettracker.go:36-55 | Two sequences that complete the same offsets, in any order and with any repetitions, reach the same state |
| TrackerSpec.ScanCost | internal/engine/offsettracker.go:46-54 | Over a run of completions the pointer moves at most once per call, and its steps and the done set together are exactly the distinct completions from the seed on |
| TrackerObject.OffsetTracker.constructor | internal/engine/offsettracker.go:16-18 | A new tracker has no pointer and nothing done |
| TrackerObject.OffsetTracker.Seed | internal/engine/offsettracker.go:20-33 | The first offset starts the pointer and the baseline; later calls change nothing |
| TrackerObject.OffsetTracker.Complete | internal/engine/offsettracker.go:35-55 | The result is the least offset from the first on that has not completed, it never goes back, and all scans together never exceed the calls |
| TrackerObject.OffsetTracker.Scan | internal/engine/offsettracker.go:47-53 | The loop reaches the specification's advance and takes one iteration per step of the pointer |
| TrackerObject.OffsetTracker.BaseOffset | internal/engine/offsettracker.go:57-62 | The value offered for commit is the least offset from the first on that has not completed |
| TrackerObject.OffsetTracker.MarkCommitted | internal/engine/offsettracker.go:79-86 | The baseline becomes the pointer as it is now; nothing else changes |
| Backoff.BackoffBounds | internal/engine/retry.go:13-28 | For every policy the delay is positive unless the initial one is not, never above a positive maximum, and otherwise never below the initial one |
| Backoff.BackoffExactIff | internal/engine/retry.go:8-28 | For every policy with a positive initial backoff the delay is the initial one doubled once per attempt, at most 20 times, cut off at the largest duration and at a positive maximum, exactly unless the product wraps to a value no less than the initial one and below the maximum, if there is one |
| Backoff.NeverTooShort | internal/engine/retry.go:8-28 | Below 2^44 nanoseconds that never happens |
| Backoff.BackoffMonotoneIff | internal/engine/retry.go:13-28 | For every policy with a positive initial backoff, later attempts never wait less exactly when no delay is too short in that sense |
| Backoff.BackoffNotMonotone | internal/engine/retry.go:20-23 | A policy just above 2^44 nanoseconds whose twentieth retry waits less than the nineteenth |
| LaneTheorems.LaneInvStep | internal/engine/lane.go:56-298 | Every event of the lane keeps the structure of its chains, the slot count, the wakeup condition and the per-key history |
| LaneTheorems.NoLostWakeup | internal/engine/lane.go:131-181 | In every run, for a parked worker the token is there, or a push or close has still to signal, or the lane is not closed and empty and the timer is set no later than the deadline of every head; so a due head always finds the worker about to run |
| LaneTheorems.ParksArmed | internal/engine/lane.go:157-171 | The worker parks with work queued only with its timer set to a later deadline; the final wait without a timer is never reached |
| LaneTheorems.Conservation | internal/engine/lane.go:56-78 | In every run the slots taken are the queued messages, the one in hand, the abandoned ones and the pushes under way; they never exceed the queue size, nor do the chains exceed them |
| LaneTheorems.SlotsNeverBlock | internal/engine/lane.go:288-290 | Releasing or giving back a slot never blocks |
| LaneTheorems.CooldownStructure | internal/engine/lane.go:193-265 | A chain cools down exactly while its head has failed before, nothing behind a head has, no chain is empty while the worker holds nothing, and the vanished-chain branch is never taken |
| LaneSerial.SerialOrder | internal/engine/lane.go:16-22 | In a history of the one-at-a-time processor each attempt begins after exactly the earlier messages were done and while none is running |
| LaneSerial.ServeExtended | internal/engine/lane.go:16-22 | Messages that arrive later do not change what the one-at-a-time processor did |
| LaneTheorems.PerKeySerial | internal/engine/lane.go:97-246 | In every run of a lane the attempts on one key are a history of the one-at-a-time processor over that key's messages in the order in which they arrived |
| LaneTheorems.ClosedLaneBudget | internal/engine/lane.go:87-149 | Once a lane is closed the rest of the run calls the handler at most as often as the queued and running messages may still ask for |
| LaneDrain.OwnEventLowers | internal/engine/lane.go:97-181 | Every event of the worker, be it a handler call, a wakeup or a stage of a message that leaves, strictly lowers a measure of the lane |
| LaneDrain.ClosedLaneMoves | internal/engine/lane.go:97-181 | Until it is gone the worker of a closed lane has an event of its own to do, or a signal is on its way, or it waits for a deadline still to come |
| PartitionDrain.DrainBounded | internal/engine/partition.go:162-188 | In every run, once a lane is closed its worker takes at most as many steps of its own as its measure says, whatever else happens, and so does the goroutine of a message from its start on |
| PartitionDrain.DrainMoves | internal/engine/partition.go:162-188 | Until it is gone such a worker or goroutine is never stuck: it can move, or the poll goroutine can take its next step now and that step signals it, or it waits for a deadline still to come |
| PartitionDrain.WakeupComes | internal/engine/lane.go:80-95 | In every run, for a parked worker of an open or closed lane the token is there, or the poll goroutine can take its next step now and that step signals it, or the worker has a reason to wait |
| PartitionDrain.DrainEndsClean | internal/engine/partition.go:162-188 | In every run, when each lane was closed before its worker left and all workers are gone, the wait group is zero and the drain that waits for it succeeds |
| LaneTheorems.PushAfterExit | internal/engine/lane.go:56-109 | A run in which a push that races with a leaving worker is queued in an open lane that nobody serves |
| LaneTheorems.StrandedExactly | internal/engine/lane.go:56-109 | In every run, after the worker gathered what was queued it is on its way out or gone, and the chains hold exactly the messages pushed since |
| LaneTheorems.ClosedStrandsNothing | internal/engine/lane.go:87-111 | If the lane was closed before, its chains stay empty |
| PartitionWitness.StrandedAfterCancel | internal/engine/lane.go:56-109 | A run of a partition worker in which a message is accepted after the context ended, by a lane whose worker is gone |
| PartitionDrain.StrandedBlocksDrain | internal/engine/partition.go:178-187 | In every run, once a worker is gone while a message is queued in its lane, the wait group is positive for good, and a drain that waits can only time out |
| PartitionDrain.OnlyStrandedWait | internal/engine/partition.go:178-187 | In every run, once every worker is gone, outside route the wait group is exactly the number of stranded messages, so it is zero if and only if there are none |
| LaneObject.Lane.constructor | internal/engine/lane.go:42-51 | A new lane is empty, open and accepting |
| LaneObject.Lane.Push | internal/engine/lane.go:53-78 | The message is appended to its key's chain and one slot taken exactly when a slot was got and the lane accepts; otherwise the lane is as before |
| LaneObject.Lane.CloseLane | internal/engine/lane.go:87-95 | The lane accepts nothing more, what is queued stays, and the worker is signalled |
| LaneObject.Lane.HasQueuedLocked | internal/engine/lane.go:183-191 | True exactly when some chain holds a message |
| LaneObject.Lane.PickLocked | internal/engine/lane.go:193-210 | Whenever any key's head is due, whatever the cooldowns of the others, a due head is taken; otherwise only empty chains go |
| LaneObject.Lane.EarliestRetryLocked | internal/engine/lane.go:212-221 | The soonest deadline of a chain that holds messages |
| LaneObject.Lane.FinishHead | internal/engine/lane.go:223-229 | The chain goes if it is empty, one slot is freed, the message is counted out once everywhere, and the worker is signalled |
| LaneObject.Lane.CooldownHead | internal/engine/lane.go:231-246 | The failed message is put back at the head of its chain with its deadline and keeps its slot |
| LaneObject.Lane.RemoveChainIfEmpty | internal/engine/lane.go:257-265 | Exactly the chain of this message goes, if it is empty |
| LaneObject.Lane.AbandonAll | internal/engine/lane.go:267-298 | Every queued message is listed once, chain by chain, every chain is gone, and each message is forgotten, frees its slot and is counted out once |
| LaneObject.Lane.TakeNext | internal/engine/lane.go:131-181 | In an open or a closed lane, with messages pushed, the lane closed or the context ended during its waits: the worker gets a due head, or nothing once nothing is queued in a closed lane or the context ends, or waits on in an empty open lane |
| LaneObject.Lane.RunWork | internal/engine/lane.go:113-129 | After one handler call, during which others may push or close, the message is out and counted out, or back at the head of its chain with one more attempt and before what arrived; the slots match the queued messages and the pushes again |
| LaneObject.Lane.Run | internal/engine/lane.go:97-111 | In an open or a closed lane, whatever others push, close or end while the worker runs a handler or waits: it makes at most as many handler calls as the messages queued at first and those that arrived may ask for, and in the end it is gone or waits in an open lane, with every chain empty, no slot taken but those of pushes, and every message counted out and forgotten once; each key's messages leave in order, finished ones before dropped ones, and none is dropped when discarding always works and no context ends |
| PartitionRuns.PartInvStep | internal/engine/partition.go:89-254 | Every step of routing, draining, a lane worker, a message goroutine or the committer keeps the invariant of the partition worker |
| PartitionTheorems.OneFate | internal/engine/partition.go:89-138 | In every run each admission of an offset is still open, completed or let go, never two of these; without duplicates it is exactly one, and what was let go is never behind the pointer |
| PartitionTheorems.FatalContainment | internal/engine/partition.go:217-232 | Once a message failed fatally the pointer, and with it every value committed for this worker, never passes it |
| Projections.LaneRunOf | internal/engine/partition.go:79-85 | The states of a lane at two points of a run of its worker are states of one run of the lane alone |
| Projections.PartRunOf | internal/engine/consumer.go:221-240 | The states of a worker at two points of a run of the consumer are states of one run of the worker alone |
| PartitionTheorems.PointerRuns | internal/engine/partition.go:89-93 | In every run the pointer is the least offset from the first delivered one on that has not completed, and never goes back |
| PartitionTheorems.CounterConservation | internal/engine/partition.go:202-233 | When nobody is in the middle of an update, processed plus discarded is the number of completions, without duplicates the progress of the tracker, and the share of the consumer-wide count exceeds the in-flight count by exactly the skipped duplicates |
| PartitionWitness.DuplicateStaysCounted | internal/engine/partition.go:95-104 | A run after which, with nobody in the middle of an update, the consumer-wide count is above what is in flight |
| PartitionTheorems.CountersNonNegative | internal/engine/partition.go:110-137 | The wait group and the in-flight counts never go negative |
| PartitionTheorems.InFlightBound | internal/engine/partition.go:110-137 | The in-flight count is at most Lanes times QueueSize plus Lanes, or Concurrency, plus one inside route; the natural cap holds unless a lane worker is between freeing its slot and dropping the count |
| PartitionTheorems.CapPassedExactly | internal/engine/lane.go:224-229 | Outside route in KeyOrdered mode the in-flight count is the slots that messages hold plus the workers that freed one and have not dropped the count; it passes the natural cap exactly when those workers outnumber the slots that no message holds |
| PartitionWitness.NaturalCapExceeded | internal/engine/partition.go:43-44 | With one lane and one slot a run exists in which two messages are in flight outside route |
| PartitionTheorems.PerKeyOrder | internal/engine/partition.go:149-160 | In every run the attempts on one key, over all lanes and retries, are a history of the one-at-a-time processor over the accepted messages, which keep the order of delivery |
| PartitionTheorems.NeverAhead | internal/engine/lane.go:16-22 | When an attempt on a message begins, exactly the earlier accepted messages of its key have succeeded or been discarded |
| PartitionTheorems.CallsPerMessage | internal/engine/partition.go:202-233 | In every run in KeyOrdered mode each accepted message gets at most MaxAttempts handler calls, over all retries |
| PartitionTheorems.DiscardsLast | internal/engine/partition.go:214-228 | In both modes OnDiscard is called only for a message that has used up its attempts |
| PartitionTheorems.UnorderedAttempts | internal/engine/partition.go:235-254 | A message goroutine calls the handler at most the allowed number of times and OnDiscard only after all of them |
| PartitionTheorems.DrainComplete | internal/engine/partition.go:162-188 | With consecutive deliveries, when nothing is in flight the pointer is one past the last message exactly when none was let go or refused, and it is always the least offset that has not completed |
| EngineInvariant.EngineInvStep | internal/engine/consumer.go:221-377 | Every step of the run loop, a rebalance, the committer, a worker, a commit that lands late or a crash keeps every value in a commit covered by completed records |
| EngineTheorems.AtLeastOnce | internal/engine/consumer.go:305-339 | In every run, crashes and late commits included, for every record from the start of a partition up to its committed position the attempt history of some worker holds an attempt that ended well: its handler succeeded or OnDiscard returned |
| EngineTheorems.FinalCommitCarries | internal/engine/consumer.go:257-264 | In every run the value that a revoke or the shutdown takes from a drained worker is the least offset that has not completed, at most any offset that failed fatally, and once nothing is in flight one past the last message exactly when none was let go or refused |
| EngineTheorems.PeriodicCommitCarries | internal/engine/consumer.go:308-320 | The same of each value that the committer collects, and it collects exactly the pointers that the mode asks for |
| EngineTheorems.CommitsCarry | internal/engine/consumer.go:271-277 | In every run each value that is collected, sent, under way or at the broker, of whatever commit, was taken like that from some worker of its partition before |
| EngineTheorems.PositionBackExactly | internal/engine/consumer.go:324-327 | In every run the position of a partition goes back exactly when a commit lands that holds a smaller value for it |
| EngineMarks.PointerMovesExactly | internal/engine/offsettracker.go:36-55 | Between two points of a run the pointer of a worker moved exactly when some event between them completed the offset it stood at |
| EngineMarks.MarkForgetsExactly | internal/engine/consumer.go:318-337 | For every mark of every run: its value was collected earlier in the same commit, from the worker assigned then; the tracker of the worker assigned now reports no uncommitted progress afterwards; and that hides some exactly when, if it is still the same worker, some event since completed the offset at its pointer, and if it is another one, its first offset has completed |
| EngineMarks.ForgottenStays | internal/engine/consumer.go:315-317 | In every run, once a tracker reports no progress, commit-on-advance mode skips its partition until some event completes the offset at the pointer |
| EngineWitness.MarkForgets | internal/engine/consumer.go:318-337 | A run of commit-on-advance mode in which the second record completes while the pointer behind the first is being committed: that advance is sent nowhere and reported by nobody |
| EngineWitness.MarkForgetsLater | internal/engine/consumer.go:333-336 | A run in which the partition is revoked and comes back while a commit is under way: the mark hits the new worker, whose pointer was in no commit, and it reports no progress |
| EngineWitness.PositionGoesBack | internal/engine/consumer.go:318-327 | A run in which the final commit of a revoke lands before one that the committer had read earlier, and the position goes back |
| EngineTheorems.ConsumerCounters | internal/engine/consumer.go:292-303 | Over all workers of a process, when none is in the middle of an update and without duplicates, processed plus discarded is the progress of all trackers, and the consumer-wide count is what is in flight plus what was skipped |
| EnginePausing.NeverPauses | internal/engine/consumer.go:387-410 | In every run, with MaxInFlight above the bound on messages in flight, backpressure at the top of the run loop finds no partition to pause |
| EngineTheorems.FatalSurfaces | internal/engine/consumer.go:420-467 | A fatal error reported before shutdown looks for one makes Run return an error, whichever way the run loop was left |
| Projections.FatalContained | internal/engine/partition.go:217-232 | In every run of the consumer no worker's pointer ever passes a message that failed fatally there |
| EngineErrors.RunReturns | internal/engine/consumer.go:87-119 | Run returns an error exactly when the run loop was left with one, or shutdown finds a fatal one, or its own commit fails |
| EngineErrors.RevokeFailureSurfaces | internal/engine/consumer.go:279-286 | When the final commit of a revoke failed, Run returns an error exactly unless the loop was left by a Poll that ends it without one and shutdown finds no other |
| EngineWitness.RevokeFailureLost | internal/engine/consumer.go:103-114 | A run in which the final commit of a revoke fails and Run returns no error |
| Pausing.PausesOwned | internal/engine/consumer.go:138-163 | Over every history what the user paused is paused at the transport, and what is paused there is owned by the user or by backpressure, which owns only assigned partitions |
| Pausing.BackpressureDecides | internal/engine/consumer.go:387-418 | After backpressure a partition the user does not own is paused exactly when it has just reached MaxInFlight, or was paused and is still above four fifths of it |
| Pausing.BackpressureSettles | internal/engine/consumer.go:402-409 | For every positive MaxInFlight the thresholds never touch: a second look at the same counts changes nothing |
| Pausing.FlagAgreesStep | internal/engine/consumer.go:151-163 | The flag of backpressure goes on agreeing with the transport exactly unless a Resume call names a partition that backpressure paused |
| Pausing.FlagAgrees | internal/engine/consumer.go:387-410 | It agrees over every history without such a call |
| Pausing.StaleFlagBlinds | internal/engine/consumer.go:403 | A full partition is paused by backpressure exactly when its flag is not stale |
| Pausing.StaleFlagReached | internal/engine/consumer.go:151-163 | A history that leaves a stale flag: backpressure pauses a partition and the user resumes it |
| Pausing.PauseRacesRevoke | internal/engine/consumer.go:143-148 | A revoke between the two halves of Pause leaves a pause nobody owns exactly when it takes a named partition |
| Pausing.RevokeRacesPause | internal/engine/consumer.go:245-270 | A Pause between the two halves of a revoke is flagged but not in force exactly when it names a revoked partition |
| Pausing.PauseRacesResume | internal/engine/consumer.go:138-163 | A Resume between the two halves of Pause leaves a pause nobody owns, exactly unless backpressure owns every partition that both name |
| Pausing.ResumeRacesPause | internal/engine/consumer.go:138-163 | A Pause between the two halves of Resume is not in force exactly when both name some partition |
| Pausing.BackpressureRacesPause | internal/engine/consumer.go:411-417 | A Pause between the two halves of backpressure loses its effect exactly when backpressure is about to resume a named partition |
| WorkerObject.SettledInStages | internal/engine/partition.go:202-305 | The stages of a message that leaves, taken in a row, amount to one tally, one completion or none, and the offset out of pending; a fatal failure is also reported and cancels |
| WorkerObject.RoutedInSteps | internal/engine/partition.go:89-139 | The steps of route, taken in a row, amount to one of five outcomes and its bookkeeping |
| WorkerObject.OnlyEntrantsCount | internal/engine/partition.go:91-137 | Only a message that enters changes the in-flight counts and pending, but for two exceptions: a skipped one stays in the consumer-wide count, and one left behind in Unordered mode stays in pending |
| WorkerObject.DuplicatesRunAgain | internal/engine/partition.go:91-104 | In every run a completed offset that is delivered again is skipped exactly unless it waits in the done set |
| PartitionWitness.CompletedRunsAgain | internal/engine/partition.go:91-104 | A run after which an offset has completed, and routing it again puts it into a lane |
| WorkerObject.PartitionWorker.constructor | internal/engine/partition.go:50-71 | A new worker has a fresh tracker, distinct empty lanes, and nothing in flight |
| WorkerObject.PartitionWorker.Route | internal/engine/partition.go:87-139 | The worker, its tracker and the home lane end as the outcome says; true means that the message was taken or is a duplicate, and no other lane changes |
| WorkerObject.PartitionWorker.CloseLanes | internal/engine/partition.go:163-177 | The first call closes every lane and leaves what is queued; a second one changes nothing |
| WorkerObject.PartitionWorker.RunMessage | internal/engine/partition.go:198-233 | One attempt settles the message as done, discarded, fatal or stopped, or asks for a retry and changes nothing |
| WorkerObject.PartitionWorker.RunUnordered | internal/engine/partition.go:235-254 | The goroutine makes at most the allowed number of calls, all but the last of which only asked for a retry, and its message leaves with exactly one fate |
| ConsumerObject.Consumer.Pause | internal/engine/consumer.go:134-149 | The named partitions, or all assigned ones, are flagged and paused at the transport; no other flag changes |
| ConsumerObject.Consumer.Resume | internal/engine/consumer.go:151-163 | The named partitions, or all the user paused, are unflagged and resumed; the flags of backpressure stay |
| ConsumerObject.Consumer.ApplyBackpressure | internal/engine/consumer.go:387-418 | Looking at the workers in any order decides as looking at all at once, and the transport follows |
| ConsumerObject.Consumer.OnAssigned | internal/engine/consumer.go:221-240 | Each new partition gets a fresh worker, and one that has a worker keeps it |
| ConsumerObject.Consumer.TakeVictims | internal/engine/consumer.go:242-253 | The revoked partitions lose their workers and both flags, and each of their workers is handed over once |
| ConsumerObject.Consumer.FinishRevoke | internal/engine/consumer.go:266-287 | Each drained worker's position becomes the least offset that it has not completed, other positions stay, the transport forgets the pauses, and a failed commit is kept for Run |
| ConsumerObject.Consumer.Snapshot | internal/engine/consumer.go:308-320 | A commit holds exactly the partitions with a pointer, or with one that moved since the last commit, each with the least offset it has not completed |
| ConsumerObject.Consumer.CommitAll | internal/engine/consumer.go:305-339 | With completions, revokes and assignments while the commit is under way: what is sent is the pointers that the mode asks for, as they were read; a commit that succeeds leaves no worker of these partitions reporting progress; and the pointer of a worker that was read is beyond the value sent exactly if that offset has completed since, never if nobody else ran |
| ConsumerObject.Consumer.FinishCommit | internal/engine/consumer.go:324-338 | Whatever happened to the workers since the snapshot, a commit that succeeds puts its values at the backend and marks the workers now assigned with their pointers as they are now; one that fails changes nothing |
| ConsumerObject.ReadPointers | internal/engine/consumer.go:258-264 | Of the drained workers exactly those with a pointer are listed, each with the least offset it has not completed |

## Left out

- The Kafka backend: the broker is a map of committed positions, a log of delivered messages and a
  set of paused partitions. Backend calls to pause and resume succeed.
- Offsets are unbounded integers; positions near 2^63 do not occur.
- `jitteredBackoff`: a retry waits any nonnegative time. The factor 0.8 is `4 * max / 5` on integers.
- Tickers, timeouts and contexts: time only goes on, and a context may end at any moment. In the
  state machine of the engine the end of the shared work context reaches each worker on its own,
  which allows more runs than there are.
- The signal from a worker to the committer: the committer may start a commit at any time.
- `withDefaults`, `Stats`, `Subscribe`, the single-use guard and the getters.
- Chains and queued work are values in a map field, not shared objects; aliasing of a chain between
  a lookup and its update under the same mutex is not captured.
- In the class of the lane others come in while the worker runs a handler or waits, not between two
  steps of its own; the state machine of the lane has every interleaving.
- ConsumerObject.Consumer.FinishRevoke: the wait for the workers to drain lies between it and
  `TakeVictims`; what happens during that wait is covered by the state machine of the engine.
- EngineTheorems.AtLeastOnce: says nothing about progress. Offsets with gaps stop the pointer, and a
  position may go back (`EngineWitness.PositionGoesBack`).
- PartitionTheorems.DrainComplete: needs consecutive deliveries, since the tracker takes a gap for a hole.
- A message that is routed after its partition was revoked: the consumer drops it before any worker
  sees it.
