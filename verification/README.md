# Verified model of the rocketmq-rust broker core

This project models the parts of rocketmq-rust that carry its guarantees and proves what they
keep, over every input or every run. `dafny verify dfyconfig.toml` checks all of it.

**POP consumption.** A pop takes the timed lock of one (topic, group, queue), tests the in-flight
threshold, computes its start offset from the committed offset, the buffered offset and a pending
reset, reads, records a checkpoint, and only then hands the messages out and counts them.
Acknowledgements, visibility changes, the scan of the merge service, the lock cleaner and the clock
run beside it.

- `PopQueue` is one queue as a sequential machine: the phases of a worker inside the lock, and the
  events outside it. What the store returns and whether a put succeeds is carried by the event.
- `PopBroker` is the whole broker: any number of workers and queues over one lock cache, with the
  two-phase lock attempt, unlock, holders that walk away, cleaner and clock interleaved freely.
  Within the lock lease it refines `PopQueue` queue by queue.
- `PopShape`, `FlowBound`, `DisjointDelivery`, `Coverage`, `Conservation` are invariants of one
  queue; `PopRuns` lifts them to all runs of the broker; `Limits` shows where they end, `Progress`
  what the steps achieve beside what they keep.
- `Checkpoint`, `LockTable`, `Inflight`, `InflightCounter`, `Keys`, `AckBatch`, `Rotation`,
  `PopRequest`, `Notification` are the components, in the imperative form of the source where it
  updates state, each proved against a specification.

**The asynchronous blocking queue** (`BlockingQueue`) as interleaved steps over a mutex and one
shared `Notify`, timeouts included. **The header codec macro** (`HeaderCodec`, `WireNames`,
`Decimal`) as two interpreters over a schema. **Subscription reconciliation** (`Subscription`) and
**end transaction** (`EndTransaction`).

## Where the code falls short of its purpose

The model follows the code. Each of these has a lemma with the exact condition or a concrete run.

- The cleaner evicts locks by age without looking at the lock bit, so exclusion holds for the
  length of the lease only (`CleanIsSafeIffInLease`, `OverLeaseBreaksExclusion`).
- `scan_garbage` drops the offset deque of groups that DO exist, so a message can be delivered
  twice (`GarbageKeepsStartIff`, `GarbageRepeatsIff`, `GarbageDeliversTwice`).
- `index_of_ack` reads the diff at a position instead of searching for it, so a checkpoint with a
  gap never counts as done, although a done one is always fully acknowledged
  (`AllAckedIsDoneIffGapFree`, `DoneMeansAllAcked`). `is_ck_done_for_finish` succeeds only while
  nothing was stored (`FinishTestIsDoneWithNothingStored`).
- The same lookup marks another message than the acknowledged one in some batches with gaps, which
  message filters produce. With offsets 0, 2, 3, 4 the acknowledgement of 2 marks 4, and the revive
  service, which raises its bits by the same lookup, never brings 4 back (`MarksExactlyIff`,
  `StruckElsewhere`, `CoveredIffOwn`, `StruckIsUncovered`). With diffs 0, 2, 40 the acknowledgement
  of the second message panics on the width of the mark word (`AckPanicsIffTooWide`,
  `WideGapPanics`).
- A counter that was overdrawn stays short until it is removed (`OverdraftIsRemembered`), and names
  with an `@` share counters and are missed by the clears (`SharesKeyIffNotPlain`,
  `ClearReachesIffPlain`).
- The ordered visibility change locks (group, topic) instead of (topic, group)
  (`SwappedLockIsAnother`); it and the ordered acknowledgement can return with the lock held, which
  only the cleaner repairs (`LeaseRecovers`).
- Producers and consumers share one `Notify`, and a timeout at the mutex loses a wake-up
  (`BlockedProducersStrand`, `TimeoutAtTheMutexStrands`, `WakeUpsKeptIff`).
- An absent optional flattened group that holds a required field makes the header undecodable
  (`AbsentGroupDecodesIffNothingRequired`).
- A commit stores the final message when the check failed and not when it succeeded
  (`CommitStoresIffCheckFailed`); a commit of an unknown half message is answered Success
  (`RefusedChangesNothing`); the stored property text is rendered too early
  (`RenderedTextKeepsBookkeeping`).

The in-flight bound is max(threshold, 0) + 32 today, because every unit of a consume queue holds
one message (rocketmq-store/src/queue.rs:59). The bound is proved for units of any size; that it
would exceed 32 for larger ones (`WithinOnePageIffSmallUnits`) concerns only batch consume queues,
whose iterators are not implemented (rocketmq-store/src/queue/batch_consume_queue.rs:334-344).

## Assumptions

- The local file store, as `PopQueue.ReadOk` says: at most the requested number of messages,
  ascending offsets between the start and the next offset, room for every message of every unit
  before the next offset, corrected next offsets at the ends of
  the queue, minimum and maximum that only grow, and diffs within i32.
- A queue is popped either always in order or never.
- Where a pending offset reset comes from is left open (event `SetReset`); nothing in the repository
  fills the table it is read from, and the read passes its arguments in another order.
- The scan holds the mutex of a queue's offset deque from finding the front ready until it has
  removed it; a pop waits for that mutex. A lock attempt holds the cache guard, so the lock bit and
  its time change together.
- `Notify` follows tokio: one permit, waiters in order, a dropped woken waiter passes its wake-up on.

## Model

| member | source | states |
|---|---|---|
| `PopRuns.MutualExclusion` | rocketmq-broker/src/processor/pop_message_processor.rs:1581-1597 | In every run of the broker (any workers, queues, interleaving) in which no hold outlives the lease when the cleaner passes, no two workers are ever inside the same queue. |
| `PopRuns.InFlightBounded` | rocketmq-broker/src/processor/pop_message_processor.rs:1283-1296 | With the threshold enabled, at every point of every such run the reported in-flight number of every queue is at most max(threshold, 0) plus one pop (32 messages, or one larger batch unit). |
| `PopRuns.DeliveredIsCovered` | rocketmq-broker/src/processor/pop_message_processor.rs:1043-1136 | At every point of every such run, the offsets of each delivery are exactly start offset plus the diffs of its checkpoint, `num` is their number with no truncation and at most 32, and every one of them that the client has not acknowledged and no other message of the batch strikes is held by a checkpoint in the buffer or in the revive log whose bits, those raised in the buffer and those the revive service raises for the logged acknowledgements, do not mark it. |
| `PopRuns.ExactBatchIsCovered` | rocketmq-broker/src/processor/processor_service/pop_revive_service.rs:540-594 | The same for every unacknowledged message of a batch whose diffs pass the test of `MarksExactlyIff`, batches without gaps among them. |
| `PopRuns.NoDoubleDelivery` | rocketmq-broker/src/processor/pop_message_processor.rs:924-934 | Between two resets, over the whole run, every message of a later non-order delivery of a queue lies after every message of an earlier one, provided the offset deque is only thrown away when everything in it is committed. |
| `PopRuns.LogOnlyGrows` | rocketmq-broker/src/processor/pop_message_processor.rs:1086-1099 | The list of deliveries the previous theorems speak about is the history: no step of a run, lease kept or not, removes or alters an entry. |
| `PopRuns.CounterIsBalance` | rocketmq-broker/src/processor/pop_message_processor.rs:1194-1201 | In every run in which each delivered message of a non-order queue is acknowledged at most once, the counter is the number of messages handed out minus the number acknowledged, for any split into single and batch acknowledgements, merged or stored, through any visibility changes. |
| `PopRuns.HeldSinceTaken` | rocketmq-broker/src/processor/pop_message_processor.rs:1581-1593 | The time on a held lock is the time of a successful acquisition; failed attempts never refresh it (in every run, lease kept or not). |
| `PopRuns.LeaseRecovers` | rocketmq-broker/src/processor/pop_message_processor.rs:1677-1698 | In every run, even with holders that returned without unlocking, a cleaning pass later than the lease after the last acquisition leaves the key free and the next attempt gets it. |
| `PopRuns.FreeIsAcquirable` | rocketmq-broker/src/processor/pop_message_processor.rs:1649-1658 | A two-phase attempt with nothing in between gets the queue if and only if nobody holds its key. |
| `PopRuns.NextKeepsSafe` | rocketmq-broker/src/processor/pop_message_processor.rs:860-1207 | One step of the broker keeps the lock invariant and, on every queue, the shape, flow-control and coverage invariants together. |
| `PopRuns.FinishMakesRoom` | rocketmq-broker/src/processor/pop_message_processor.rs:1205 | A worker that finishes makes room: the next attempt on its queue gets in. |
| `PopRuns.HeldIffOccupied` | rocketmq-broker/src/processor/pop_message_processor.rs:1649-1675 | Over all runs within the lease, a queue from which no holder returns without unlocking is locked if and only if somebody is inside it. |
| `PopRuns.HeldIsRefused` | rocketmq-broker/src/processor/pop_message_processor.rs:1581-1593 | An attempt on a held key ends outside and changes nothing. |
| `PopRuns.HeldRefusesRetry` | rocketmq-broker/src/processor/pop_message_processor.rs:1654-1657 | So does the second phase of an attempt. |
| `PopRuns.LeaseRunsOut` | rocketmq-broker/src/processor/pop_message_processor.rs:1677-1682 | However a key came to be held, enough time and one pass over it free it and no other. |
| `PopBroker.Refines` | rocketmq-broker/src/processor/pop_message_processor.rs:896-1207 | Within the lease, every step of the concurrent broker is on each queue one step of the sequential machine of that queue, or nothing. |
| `PopBroker.NextKeepsLockInv` | rocketmq-broker/src/processor/pop_message_processor.rs:1649-1682 | Every step within the lease keeps exclusion and keeps each holder backed by a raised lock carrying the time it was taken. |
| `PopBroker.CleanIsSafeIffInLease` | rocketmq-broker/src/processor/pop_message_processor.rs:1677-1682 | A sweep of the cleaner, which does not look at the lock bit, leaves every holder its lock if and only if no swept hold is over the lease. |
| `PopBroker.OverLeaseBreaksExclusion` | rocketmq-broker/src/processor/pop_message_processor.rs:1680 | From any state with a hold over the lease, one sweep and one attempt put a second worker inside the same queue. |
| `PopBroker.LocksRefine` | rocketmq-broker/src/processor/pop_message_processor.rs:1649-1682 | Every step of the broker, lease kept or not, does to the holds exactly what the atomic lock does: test-and-set, release by who finishes, sweep by age; who returns without unlocking leaves the key held. |
| `PopBroker.FinishReleases` | rocketmq-broker/src/processor/pop_message_processor.rs:1205 | A worker that finishes gives its own lock back and every other hold is as before. |
| `PopBroker.Realises` | rocketmq-broker/src/processor/pop_message_processor.rs:896-1207 | The other direction of the refinement: every step of the sequential machine of a queue is a step of the broker, an entry when nobody holds the lock. |
| `PopShape.StepKeepsShape` | rocketmq-broker/src/processor/pop_message_processor.rs:860-1281 | Every step keeps each checkpoint well formed (ascending non-negative diffs, `num` their number, marks exactly those of the merged acknowledgements) and each phase within the 32-message limit. |
| `FlowBound.StepKeepsInv` | rocketmq-broker/src/processor/pop_message_processor.rs:910-923 | Every step keeps the in-flight bound, and keeps the number at or below the threshold from the test until the count. |
| `Coverage.StepKeepsInv` | rocketmq-broker/src/processor/pop_message_processor.rs:1071-1099 | Every step keeps each delivered, unacknowledged, unstruck message guarded by a live checkpoint that does not mark it, and each delivery equal to what its checkpoint reconstructs. |
| `Coverage.EvictKeeps` | rocketmq-broker/src/processor/processor_service/pop_buffer_merge_service.rs:418-428 | A checkpoint that was not stored leaves the buffer only when every one of its messages was acknowledged, and no guard is lost. |
| `Coverage.AckPreserves` | rocketmq-broker/src/processor/processor_service/pop_buffer_merge_service.rs:317-330 | Acknowledging some messages of a checkpoint, through the buffer or the log, marks no other message that is not struck. |
| `Coverage.EndExtendPreserves` | rocketmq-broker/src/processor/change_invisible_time_processor.rs:209-251 | A visibility change acknowledges the old checkpoint only after the new one was accepted, so the message stays guarded whatever becomes of the second put, and no other unstruck message of the old checkpoint is marked. |
| `Coverage.StoreAcksPreserves` | rocketmq-broker/src/processor/processor_service/pop_buffer_merge_service.rs:471-512 | Writing raised bits out to the revive log as the offsets at their positions marks no message there that was neither marked nor struck. |
| `Coverage.AcceptKeepsInv` | rocketmq-broker/src/processor/pop_message_processor.rs:1228-1281 | A delivery is guarded by its own checkpoint from the moment it is recorded. |
| `DisjointDelivery.StepKeepsInv` | rocketmq-broker/src/processor/pop_message_processor.rs:1298-1331 | Every step other than a harmful garbage pass keeps the logged ranges apart and increasing and the next start at or after the last end. |
| `DisjointDelivery.PositionKeepsInv` | rocketmq-broker/src/processor/pop_message_processor.rs:1391-1419 | Computing the start offset inside the lock, with a pending reset or without, starts at or after everything delivered since the last reset. |
| `DisjointDelivery.FetchKeepsInv` | rocketmq-broker/src/processor/pop_message_processor.rs:987-1030 | Committing a corrected offset and reading once more from the old one never lets the queue start before the end of the last delivery. |
| `DisjointDelivery.CommitKeepsInv` | rocketmq-broker/src/processor/processor_service/pop_buffer_merge_service.rs:667-705 | Committing the front of the offset deque keeps the next start at or after the last delivery. |
| `DisjointDelivery.ApartMessages` | rocketmq-broker/src/processor/pop_message_processor.rs:1298-1331 | Read off the invariant: of two deliveries of one epoch, the later one has only later messages. |
| `DisjointDelivery.GarbageKeepsStartIff` | rocketmq-broker/src/processor/processor_service/pop_buffer_merge_service.rs:552-581 | With an offset committed, throwing the deque of a live group away leaves the next start where it was if and only if the deque is empty or its last offset is already committed; otherwise the start moves back. |
| `Conservation.StepKeepsInv` | rocketmq-broker/src/processor/ack_message_processor.rs:391-405 | Every step with once-only counted acknowledgements keeps counter = handed out minus acknowledged and keeps every handle pointing at handed-out messages. |
| `Conservation.AckBalancedIffOnce` | rocketmq-broker/src/processor/ack_message_processor.rs:464-472 | One counted acknowledgement keeps the balance if and only if it repeats no message, or the counter was already 0. |
| `Conservation.CountAddsMessages` | rocketmq-broker/src/processor/pop_message_processor.rs:1194-1201 | Counting a recorded delivery adds exactly its messages to what was handed out. |
| `Limits.WithinOnePageIffSmallUnits` | rocketmq-store/src/message_store/local_file_message_store.rs:998-1005 | Over all runs of a queue, the in-flight number stays within threshold + 32 if and only if no store unit holds more than 32 messages; units hold one today. |
| `Limits.Fill` | rocketmq-broker/src/processor/pop_message_processor.rs:1283-1296 | Every value of the counter up to one past the threshold is reached by some run. |
| `Limits.GarbageDeliversTwice` | rocketmq-broker/src/processor/processor_service/pop_buffer_merge_service.rs:552-581 | Such states are reached: a pop, and then a garbage pass and another pop deliver its message again without a reset. |
| `Limits.PopGoesThrough` | rocketmq-broker/src/processor/pop_message_processor.rs:860-1207 | From any idle queue under the threshold, every read the store may return is delivered and counted. |
| `Limits.PopReadsFromStart` | rocketmq-broker/src/processor/pop_message_processor.rs:924-986 | And whatever such a pop delivers is a read from its start offset. |
| `Limits.CoveredIffOwn` | rocketmq-broker/src/processor/processor_service/pop_revive_service.rs:540-594 | For every batch and every message of it: the message is covered in every run until it is acknowledged if and only if no other message of the batch strikes it. |
| `Limits.StruckIsUncovered` | rocketmq-broker/src/processor/processor_service/pop_revive_service.rs:880-883 | The failing run, for every batch with a struck message: pop it, acknowledge the striking message through the log, and the struck one has no checkpoint left. |
| `Limits.GarbageRepeatsIff` | rocketmq-broker/src/processor/processor_service/pop_buffer_merge_service.rs:552-581 | From every idle state under the threshold that keeps the invariants, a garbage pass and one pop can deliver a message again if and only if a message delivered since the last reset lies at or after the committed offset, within reach of a read. |
| `Progress.MinModeMissesNothing` | rocketmq-broker/src/processor/pop_message_processor.rs:1343-1349 | A new group in MIN mode starts at or before every stored message, at one if there is any, and commits that start. |
| `Progress.MaxModeStartsAtLast` | rocketmq-broker/src/processor/pop_message_processor.rs:1369-1379 | A new group in MAX mode starts at the last stored message, at 0 if there never was one, and commits that start. |
| `Progress.InMemoryStartsAtFirst` | rocketmq-broker/src/processor/pop_message_processor.rs:1350-1368 | In MAX mode with the memory test passed it starts at 0 and misses nothing. |
| `Progress.ResetIsTheStart` | rocketmq-broker/src/processor/pop_message_processor.rs:1391-1419 | A pending reset is the start, is committed, is erased, and the deque is gone. |
| `Progress.ResetTakesEffect` | rocketmq-broker/src/processor/pop_message_processor.rs:1391-1419 | From the request to the pop: after a reset is asked for, the next pop under the threshold reads from there. |
| `Progress.GoesOnAfterBoth` | rocketmq-broker/src/processor/pop_message_processor.rs:1298-1331 | Otherwise a pop starts at the larger of the committed and the buffered offset and moves neither. |
| `Progress.SkippingMovesOn` | rocketmq-broker/src/processor/pop_message_processor.rs:1100-1136 | A whole pop that matched nothing delivers and counts nothing, and the next pop starts behind what it passed over. |
| `Progress.CorrectionIsCommitted` | rocketmq-broker/src/processor/pop_message_processor.rs:992-1009 | An offset outside the queue: the corrected one is committed and the next pop starts there or behind the buffer. |
| `Progress.TrimmedIsCorrected` | rocketmq-broker/src/processor/pop_message_processor.rs:992-1009 | When the store trims the beginning of a queue away, the next pop moves the group to the new beginning. |
| `Progress.RereadCounts` | rocketmq-broker/src/processor/pop_message_processor.rs:1010-1025 | After a correction the result of the second read counts. |
| `Progress.EndOfQueueMovesNothing` | rocketmq-broker/src/processor/pop_message_processor.rs:1100-1136 | A pop at the end of the queue changes nothing at all. |
| `Progress.SkippedIsSettled` | rocketmq-broker/src/processor/processor_service/pop_buffer_merge_service.rs:707-740 | The empty results that move on, all four of them, enter the deque only and are settled at once. |
| `Progress.SettledAtOnceIff` | rocketmq-broker/src/processor/processor_service/pop_buffer_merge_service.rs:109-240 | Of the two forms of a checkpoint only the stored offset is settled at once. |
| `Progress.ConflictLeavesNothing` | rocketmq-broker/src/processor/pop_message_processor.rs:1083-1087 | When neither form of a checkpoint is accepted, nothing of the queue is delivered, counted or changed. |
| `Progress.StepMarks` | rocketmq-broker/src/processor/processor_service/pop_buffer_merge_service.rs:317-330 | What a step marks in a checkpoint is exactly what it acknowledges there, through the buffer or through the log. |
| `Progress.RunMarks` | rocketmq-broker/src/processor/processor_service/pop_buffer_merge_service.rs:317-330 | Over every run, the bits of a checkpoint are exactly those of the acknowledgements it got, and its log entries likewise. |
| `Progress.AckedIsMarked` | rocketmq-broker/src/processor/processor_service/pop_buffer_merge_service.rs:317-330 | Every acknowledgement that finds a position leaves the message there marked, over every run. |
| `Progress.AckedIsUnguarded` | rocketmq-broker/src/processor/processor_service/pop_buffer_merge_service.rs:317-330 | In a batch without gaps every acknowledged message is no longer guarded by its checkpoint. |
| `Progress.FullyMergedIsSettled` | rocketmq-broker/src/processor/processor_service/pop_buffer_merge_service.rs:418-428 | Once all messages of a batch without gaps were acknowledged through the buffer, it is settled and the scan can drop it. |
| `Progress.FullyAckedIsSettled` | rocketmq-broker/src/processor/processor_service/pop_buffer_merge_service.rs:888-896 | The same in terms of what the client acknowledged: all of the messages, all through the buffer. |
| `Progress.FinishedIsSettled` | rocketmq-broker/src/processor/processor_service/pop_buffer_merge_service.rs:645-650 | A stored checkpoint that passes the finish test is settled. |
| `Progress.FinishTestNeverDecides` | rocketmq-broker/src/processor/processor_service/pop_buffer_merge_service.rs:645-650 | As long as only raised bits are stored, whatever the finish test finds settled the done test finds settled too. |
| `Progress.ScanWritesOut` | rocketmq-broker/src/processor/processor_service/pop_buffer_merge_service.rs:457-512 | A buffered checkpoint can be stored and its raised bits written out; after that the finish test can no longer succeed. |
| `Progress.SettledFrontIsCommitted` | rocketmq-broker/src/processor/processor_service/pop_buffer_merge_service.rs:633-705 | A settled front of the deque: its offset is committed, it leaves the deque, and nothing else changes. |
| `Progress.UnsettledFrontStays` | rocketmq-broker/src/processor/processor_service/pop_buffer_merge_service.rs:645-657 | A front that is not settled keeps the scan from committing. |
| `Progress.AbortedScanLeavesNothing` | rocketmq-broker/src/processor/processor_service/pop_buffer_merge_service.rs:673-679 | A scan that does not get the queue lock changes nothing. |
| `Progress.WholeLife` | rocketmq-broker/src/processor/pop_message_processor.rs:860-1207 | For every start and size: a batch is handed out, acknowledged in one go, dropped and committed; the counter is back at 0 and the next pop starts behind it. |
| `Progress.ExtensionHandsOver` | rocketmq-broker/src/processor/change_invisible_time_processor.rs:209-251 | A visibility change gives the client a new handle that guards the message, acknowledges the old checkpoint for this message, and leaves the counter alone. |
| `Progress.ExtendedCanBeAcked` | rocketmq-broker/src/processor/change_invisible_time_processor.rs:209-251 | The new handle can be acknowledged and extended again. |
| `Progress.BlockedPopChangesNothing` | rocketmq-broker/src/processor/pop_message_processor.rs:935-951 | While earlier messages are out, an ordered pop changes nothing. |
| `Progress.OrderedPopDelivers` | rocketmq-broker/src/processor/pop_message_processor.rs:952-1067 | An ordered pop starts the counter anew with what it hands out, leaves no checkpoint and does not move the offset. |
| `Progress.OrderedSkipMovesOn` | rocketmq-broker/src/processor/pop_message_processor.rs:1105-1118 | An ordered pop that passes over messages commits what is behind them. |
| `Progress.OrderedAckMovesOn` | rocketmq-broker/src/processor/ack_message_processor.rs:517-589 | An ordered acknowledgement commits the next offset, counts down by one, and the next pop starts there. |
| `Progress.LateOrderedAckWalksAway` | rocketmq-broker/src/processor/ack_message_processor.rs:502-516 | An acknowledgement behind the committed offset ends without unlocking, changes nothing, and can do nothing else. |
| `Progress.OrderedExtensionLeavesQueue` | rocketmq-broker/src/processor/change_invisible_time_processor.rs:401-467 | The ordered visibility change, through or without unlocking, leaves the modelled queue alone. |
| `Checkpoint.BuildPoint` | rocketmq-broker/src/processor/pop_message_processor.rs:1239-1256 | The loop over the read offsets builds the checkpoint of the specification, with its u8 and i32 casts. |
| `Checkpoint.PointReconstructs` | rocketmq-broker/src/processor/pop_message_processor.rs:1239-1256 | Start offset plus diffs gives back exactly the offsets that were read; `num` survives the u8 cast if and only if there are fewer than 256. |
| `Checkpoint.IndexRoundTripIffGapFree` | rocketmq-store/src/pop/pop_check_point.rs:61-88 | `index_of_ack` undoes `ack_offset_by_index` on every index if and only if the batch has no gap. |
| `Checkpoint.DoneMeansAllAcked` | rocketmq-broker/src/processor/processor_service/pop_buffer_merge_service.rs:888-896 | If every bit is up, every message of the checkpoint was acknowledged, in spite of the positional lookup. |
| `Checkpoint.AllAckedIsDoneIffGapFree` | rocketmq-broker/src/processor/processor_service/pop_buffer_merge_service.rs:888-896 | With every message acknowledged through the buffer, the checkpoint counts as done if and only if the batch has no gap. |
| `Checkpoint.GapNeverDone` | rocketmq-store/src/pop/pop_check_point.rs:61-79 | Two messages with a gap, both acknowledged, are never done. |
| `Checkpoint.FinishTestIsDoneWithNothingStored` | rocketmq-broker/src/processor/processor_service/pop_buffer_merge_service.rs:898-908 | The finish test holds if and only if all bits are up and none of them was stored. |
| `Checkpoint.OwnMarkMeansAcked` | rocketmq-broker/src/processor/processor_service/pop_buffer_merge_service.rs:317-330 | The mark of a message that no other one strikes goes up only if the message itself was acknowledged. |
| `Checkpoint.MarksExactlyIff` | rocketmq-store/src/pop/pop_check_point.rs:61-88 | Every message of a batch raises its own mark or none if and only if each diff that is a position of the batch finds itself there, or a diff that is no position. |
| `Checkpoint.StruckElsewhere` | rocketmq-store/src/pop/pop_check_point.rs:75-79 | A diff that finds another position makes the acknowledgement of its message mark a later, different message. |
| `Checkpoint.GapFreeMarksExactly` | rocketmq-store/src/pop/pop_check_point.rs:75-79 | A batch without gaps passes that test. |
| `Checkpoint.AckPanicsIffTooWide` | rocketmq-broker/src/processor/processor_service/pop_buffer_merge_service.rs:373-388 | Acknowledging a message fails the width check of the mark word if and only if its diff is a position of the batch whose own diff is 32 or more; never in a batch without gaps. |
| `Checkpoint.WideGapPanics` | rocketmq-broker/src/processor/processor_service/pop_buffer_merge_service.rs:373-388 | Three messages with diffs 0, 2, 40: acknowledging the second one fails. |
| `Checkpoint.ToI32Wraps` | rocketmq-broker/src/processor/pop_message_processor.rs:1253 | The cast of a diff keeps its low 32 bits and is exact if and only if the diff is in the range of i32. |
| `Checkpoint.OldFormRoundTrip` | rocketmq-store/src/pop/pop_check_point.rs:66-72 | For a checkpoint without diffs the two lookups undo each other on exactly its `num` offsets. |
| `LockTable.InsertAndTryRefines` | rocketmq-broker/src/processor/pop_message_processor.rs:1654-1657 | The second phase is one atomic test-and-set, whatever happened since the first. |
| `LockTable.LookupRefines` | rocketmq-broker/src/processor/pop_message_processor.rs:1650-1653 | The first phase is an atomic test-and-set when it finds an entry and no step otherwise. |
| `LockTable.UnlockRefines` | rocketmq-broker/src/processor/pop_message_processor.rs:1670-1675 | Unlocking releases the key and nothing else. |
| `LockTable.EvictRefines` | rocketmq-broker/src/processor/pop_message_processor.rs:1677-1682 | The cleaner drops exactly the holds older than the expiry. |
| `LockTable.SecondAttemptFails` | rocketmq-broker/src/processor/pop_message_processor.rs:1581-1593 | A second attempt on a taken key fails and changes nothing, not even the lock time. |
| `LockTable.QueueLockManager.constructor` | rocketmq-broker/src/processor/pop_message_processor.rs:1614-1620 | A new manager holds no lock. |
| `LockTable.QueueLockManager.TryLockWithKey` | rocketmq-broker/src/processor/pop_message_processor.rs:1649-1658 | Succeeds exactly when nobody holds the key, leaves it held at the current time, touches no other key and changes nothing on failure. |
| `LockTable.QueueLockManager.UnlockWithKey` | rocketmq-broker/src/processor/pop_message_processor.rs:1670-1675 | The key is no longer held, every other hold is kept, no entry disappears. |
| `LockTable.QueueLockManager.CleanUnusedLocks` | rocketmq-broker/src/processor/pop_message_processor.rs:1677-1682 | Exactly the entries within the expiry survive, unchanged; the result is the size before. |
| `Keys.SplitUndoesBuildIffPlain` | rocketmq-broker/src/processor/pop_inflight_message_counter.rs:188-199 | `split_key` undoes `build_key` if and only if neither name holds the separator; otherwise it gives nothing. |
| `Keys.SharesKeyIffNotPlain` | rocketmq-broker/src/processor/pop_inflight_message_counter.rs:197-199 | Two different (topic, group) pairs share a counter key with a given pair if and only if one of its names holds the separator. |
| `Keys.LockKeyInjective` | rocketmq-broker/src/processor/pop_message_processor.rs:1623-1636 | On names without separator the lock key determines topic, group and queue. |
| `Keys.SwappedLockIsAnother` | rocketmq-broker/src/processor/change_invisible_time_processor.rs:418-427 | The ordered visibility change, which swaps topic and group, takes the lock of pop and ack if and only if the two names are equal. |
| `Inflight.Sandwich` | rocketmq-broker/src/processor/pop_inflight_message_counter.rs:46-110 | For every history of one entry the reported number lies between the clipped net and a saturating counter fed the same history. |
| `Inflight.SandwichMeets` | rocketmq-broker/src/processor/pop_inflight_message_counter.rs:46-110 | Both ends meet as long as acknowledgements never exceed deliveries. |
| `Inflight.OverdraftIsRemembered` | rocketmq-broker/src/processor/pop_inflight_message_counter.rs:91-110 | After one overdraft the saturating counter is ahead by exactly the overdraft. |
| `Inflight.OverdraftIsForgotten` | rocketmq-broker/src/processor/pop_inflight_message_counter.rs:101-105 | The next effective decrement of a spent entry forgets the overdraft: counting starts anew. |
| `Inflight.EarlyAcksDoNotCount` | rocketmq-broker/src/processor/pop_inflight_message_counter.rs:65-77 | Messages popped before the start time do not count down. |
| `InflightCounter.PopInflightMessageCounter.constructor` | rocketmq-broker/src/processor/pop_inflight_message_counter.rs:39-44 | A new counter is empty and keeps the given start time. |
| `InflightCounter.PopInflightMessageCounter.Increment` | rocketmq-broker/src/processor/pop_inflight_message_counter.rs:46-63 | A positive number is added to the one entry, every other entry is kept, no inner map is left empty. |
| `InflightCounter.PopInflightMessageCounter.Decrement` | rocketmq-broker/src/processor/pop_inflight_message_counter.rs:65-77 | Messages popped before the start time change nothing; otherwise the one entry is decremented or, once spent, removed. |
| `InflightCounter.PopInflightMessageCounter.DecrementInternal` | rocketmq-broker/src/processor/pop_inflight_message_counter.rs:91-110 | The one entry follows the decrement rule, others are kept, no inner map is left empty. |
| `InflightCounter.PopInflightMessageCounter.Clear` | rocketmq-broker/src/processor/pop_inflight_message_counter.rs:156-170 | The one entry is gone, every other entry is kept, no inner map is left empty. |
| `InflightCounter.PopInflightMessageCounter.ClearByGroup` | rocketmq-broker/src/processor/pop_inflight_message_counter.rs:112-132 | With any pops and acknowledgements of other requests between the snapshot and the removals: an entry of the group holds nothing but what happened after some moment of the call, every other entry all of it; with none, exactly the keys of the group are gone. The substring test hides no key. |
| `InflightCounter.PopInflightMessageCounter.ClearByTopic` | rocketmq-broker/src/processor/pop_inflight_message_counter.rs:134-154 | The same for the keys of a topic. |
| `InflightCounter.PopInflightMessageCounter.Get` | rocketmq-broker/src/processor/pop_inflight_message_counter.rs:172-186 | The entry clipped at 0, and 0 when there is none. |
| `InflightCounter.ClearReachesIffPlain` | rocketmq-broker/src/processor/pop_inflight_message_counter.rs:112-154 | The clears reach the entries of (topic, group) if and only if neither name holds the separator. |
| `InflightCounter.SplitImpliesContains` | rocketmq-broker/src/processor/pop_inflight_message_counter.rs:116-121 | The substring test in front of the split never hides a matching key. |
| `AckBatch.CollectOffsets` | rocketmq-broker/src/processor/ack_message_processor.rs:338-362 | The loop collects the offsets of the raised bits that the queue holds. |
| `AckBatch.SelectedOffsetsExact` | rocketmq-broker/src/processor/ack_message_processor.rs:338-362 | An offset of the batch is collected if and only if its bit is raised and it lies in [min, max]. |
| `AckBatch.SelectedOffsetsAscend` | rocketmq-broker/src/processor/ack_message_processor.rs:338-362 | The collected offsets ascend, so that none comes twice. |
| `AckBatch.SelectedOffsetsWithin` | rocketmq-broker/src/processor/ack_message_processor.rs:338-362 | They all lie within the batch. |
| `AckBatch.NothingCountedIff` | rocketmq-broker/src/processor/ack_message_processor.rs:330-366 | A batch takes nothing off the counter if and only if the queue is unknown, the batch is ordered, or no raised bit is in range. |
| `AckBatch.AppendBatch` | rocketmq-broker/src/processor/ack_message_processor.rs:312-405 | A batch takes off its own entry exactly the number of raised bits whose offset is in [min, max], on both paths alike, nothing for an unknown queue, and hands ordered batches over one by one. |
| `AckBatch.ProcessBatchAck` | rocketmq-broker/src/processor/ack_message_processor.rs:224-249 | A list of batches changes every entry as the batches in order do. |
| `AckBatch.SplitDoesNotMatter` | rocketmq-broker/src/processor/ack_message_processor.rs:312-379 | However messages are split into batches, as long as they do not overdraw the entry, it loses exactly their number. |
| `Rotation.StopsDiffer` | rocketmq-broker/src/processor/pop_message_processor.rs:795-797 | No queue comes twice in one rotation, for every random start. |
| `Rotation.StopOf` | rocketmq-broker/src/processor/pop_message_processor.rs:795-797 | One rotation reaches every queue, for every random start. |
| `PopRequest.Response.constructor` | rocketmq-broker/src/processor/pop_message_processor.rs:497-499 | A new response has visited nothing and holds nothing. |
| `PopRequest.Response.PopFromQueue` | rocketmq-broker/src/processor/pop_message_processor.rs:958-986 | A visit never takes the response over the requested number and reads nothing once it is full. |
| `PopRequest.Response.PopFromTopic` | rocketmq-broker/src/processor/pop_message_processor.rs:779-817 | Visits the queues of the topic in rotation order and keeps the total within the request. |
| `PopRequest.Response.PopRetry` | rocketmq-broker/src/processor/pop_message_processor.rs:538-584 | Visits one kind of retry topic, v1 or current, or none when it does not exist. |
| `PopRequest.Response.ProcessRequest` | rocketmq-broker/src/processor/pop_message_processor.rs:501-677 | Refuses more than 32 or an illegal queue before any visit; otherwise retry first, or main then retry if not full, never retry when ordered; the total never exceeds the request and no (retry flag, queue) is visited twice. |
| `PopRequest.OneVisitPerSlot` | rocketmq-broker/src/processor/pop_message_processor.rs:501-508 | For every draw and retry setting, no order of visits repeats a (retry flag, queue). |
| `PopRequest.EveryQueueOnce` | rocketmq-broker/src/processor/pop_message_processor.rs:795-815 | An all-queue pop visits each queue of the topic exactly once. |
| `PopRequest.EveryRetryQueueOnce` | rocketmq-broker/src/processor/pop_message_processor.rs:538-584 | The retry round visits each queue of the picked retry topic exactly once; v1 is picked only with both flags on and an even draw. |
| `PopRequest.RetryRoundSize` | rocketmq-broker/src/processor/pop_message_processor.rs:838-844 | It visits nothing else, and nothing when there is no such topic. |
| `PopRequest.RetryShare` | rocketmq-broker/src/processor/pop_message_processor.rs:511-516 | Of the possible draws, exactly the configured number looks at the retry topic first. |
| `Notification.HasMsgFromTopic` | rocketmq-broker/src/processor/notification_processor.rs:110-132 | True if and only if some queue of the topic has a message, for every random start. |
| `Notification.HasMsgFromRetry` | rocketmq-broker/src/processor/notification_processor.rs:312-335 | True if and only if the retry topic, or with both flags the v1 retry topic, has a message. |
| `Notification.Search` | rocketmq-broker/src/processor/notification_processor.rs:307-375 | The answer is the same for every random number: some queue of the main target, of the retry topic or (both flags on) of the v1 retry topic has a message. |
| `Notification.NotificationIsComplete` | rocketmq-broker/src/processor/notification_processor.rs:134-197 | Whenever a pop would start at an offset with a stored message at or after it, the notification answers true, for every init mode and buffered offset. |
| `Notification.NotificationIsExact` | rocketmq-broker/src/processor/notification_processor.rs:134-197 | On a queue that is not empty, committed offset or not, it answers true if and only if a pop would have such a message. |
| `BlockingQueue.BlockingQueue.constructor` | rocketmq/src/blocking_queue.rs:48-54 | A new queue is empty, with no permit and no waiter, and nothing has entered or left. |
| `BlockingQueue.BlockingQueue.NotifyOneWaiter` | rocketmq/src/blocking_queue.rs:69 | One signal, never lost: the longest waiter leaves the line with it or it stays as the permit; nobody ever waits beside a permit, and the items are untouched. |
| `BlockingQueue.BlockingQueue.PutRound` | rocketmq/src/blocking_queue.rs:63-75 | The item is the last to have entered if and only if fewer than the capacity are inside, one signal goes out with it, and otherwise nothing changes; what entered is always what left followed by the content. |
| `BlockingQueue.BlockingQueue.TakeRound` | rocketmq/src/blocking_queue.rs:101-112 | If something has entered that has not left, the oldest of it comes out with one signal; otherwise nothing changes. |
| `BlockingQueue.BlockingQueue.TryPoll` | rocketmq/src/blocking_queue.rs:138-145 | The same item comes out but no signal is given and no waiter moves; the signal goes out when there was nothing to take. |
| `BlockingQueue.FifoConservation` | rocketmq/src/blocking_queue.rs:63-145 | In every run with any interleaving and any timeouts, items put = items taken followed by the content, never more than the capacity, each finished call moved exactly its item once, and a call that gave up moved nothing. |
| `BlockingQueue.NoLostWakeUp` | rocketmq/src/blocking_queue.rs:63-112 | In every run in which no producer finds the queue full and no consumer times out while queueing for the mutex, a consumer asleep or about to sleep on a non-empty queue has a stored permit or another consumer about to look; for any number of consumers. |
| `BlockingQueue.NextKeepsRegistered` | rocketmq/src/blocking_queue.rs:74 | Every step keeps the waiter list equal to the sleeping tasks, each once, and never stores a permit while somebody waits. |
| `BlockingQueue.NextKeepsWakeUp` | rocketmq/src/blocking_queue.rs:63-112 | Every benign step keeps the pending wake-up. |
| `BlockingQueue.PermitAdmitsOne` | rocketmq/src/blocking_queue.rs:74 | A stored permit lets one call through and no second one. |
| `BlockingQueue.PollAnswersAtOnce` | rocketmq/src/blocking_queue.rs:138-145 | A call that only looks takes the front or gives up at once. |
| `BlockingQueue.TimeoutAtTheMutexStrands` | rocketmq/src/blocking_queue.rs:126-128 | At every capacity, a state is reached in which a timeout at the mutex lost the wake-up: an item is there, a consumer sleeps and nobody will move. |
| `BlockingQueue.BlockedProducersStrand` | rocketmq/src/blocking_queue.rs:69-74 | At every capacity, without any timeout, a state is reached in which blocked producers absorbed the wake-up of a sleeping consumer. |
| `BlockingQueue.WakeUpsKeptIff` | rocketmq/src/blocking_queue.rs:63-112 | For every capacity: all runs keep the pending wake-up if and only if no producer may find the queue full and no consumer may time out at the mutex, or the queue has no room at all. |
| `WireNames.SnakeToCamelCase` | rocketmq-macros/src/lib.rs:44-60 | The loop computes the camel-case name of the specification. |
| `WireNames.RoundTripIffProper` | rocketmq-macros/src/lib.rs:44-60 | A field name is recovered from its wire name if and only if it has no capitals and every underscore precedes a small letter. |
| `WireNames.WireNamesDistinct` | rocketmq-macros/src/lib.rs:44-60 | Distinct such names have distinct wire names. |
| `WireNames.ImproperNamesCollide` | rocketmq-macros/src/lib.rs:44-60 | Outside that class two field names can share a wire name. |
| `Decimal.RoundTrip` | rocketmq-macros/src/request_header_custom.rs:151-244 | The printed text of an integer of the field type parses back to it. |
| `Decimal.ParseIffSpells` | rocketmq-macros/src/request_header_custom.rs:151-244 | Parsing gives a value if and only if the text is an optional sign, a minus only for signed types, and digits that spell that value within the range of the type. |
| `Decimal.TextIsCanonical` | rocketmq-macros/src/request_header_custom.rs:82-148 | Printing gives the spelling without leading zeros, with a sign only for negative numbers. |
| `Decimal.CanonicalIsPrinted` | rocketmq-macros/src/request_header_custom.rs:82-148 | There is no other such spelling: it is what printing its value gives. |
| `HeaderCodec.ToMap` | rocketmq-macros/src/request_header_custom.rs:254-266 | The generated insertions, in field order with later ones winning, produce the encoding of the specification. |
| `HeaderCodec.RoundTrip` | rocketmq-macros/src/request_header_custom.rs:254-273 | For every schema with distinct wire names, nested groups included, decoding the encoding among any other keys gives back the header with absent groups made blank if and only if no required field is missing; otherwise it fails. |
| `HeaderCodec.ExactRoundTrip` | rocketmq-macros/src/request_header_custom.rs:254-273 | The header itself comes back if and only if it is complete and leaves no optional group out. |
| `HeaderCodec.DecodeEncoded` | rocketmq-macros/src/request_header_custom.rs:151-244 | The round trip on any map that agrees with the encoding on the names of the schema, whatever else it holds. |
| `HeaderCodec.DecodeIsLeafwise` | rocketmq-macros/src/request_header_custom.rs:151-244 | For every map, against a flat reading of the leaves: decoding succeeds if and only if every required leaf at any depth is on the wire with readable text, and then each leaf holds what the wire says, or is absent, or is empty text, 0 or false; otherwise the first bad leaf is named, as missing or as malformed. |
| `HeaderCodec.DecodesIffNothingBad` | rocketmq-macros/src/request_header_custom.rs:151-244 | A header is accepted if and only if no required leaf is missing or unreadable. |
| `HeaderCodec.EncodeIsLeafwise` | rocketmq-macros/src/request_header_custom.rs:82-148 | The encoding holds each set leaf under its camel-case name with canonical text, and nothing else. |
| `HeaderCodec.DecodeBlank` | rocketmq-macros/src/request_header_custom.rs:151-244 | Decoding a map with none of the names gives the blank struct, or fails, exactly as something is required. |
| `HeaderCodec.LeafRoundTrip` | rocketmq-macros/src/request_header_custom.rs:82-148 | Printing and parsing one string, integer or bool field gives the value back. |
| `HeaderCodec.AbsentGroupDecodesIffNothingRequired` | rocketmq-macros/src/request_header_custom.rs:151-244 | A header that leaves out its optional group can be decoded if and only if the group requires nothing. |
| `Subscription.ConsumerGroupInfo.constructor` | rocketmq-broker/src/client/consumer_group_info.rs:47-62 | A new group has no subscriptions. |
| `Subscription.ConsumerGroupInfo.UpdateSubscription` | rocketmq-broker/src/client/consumer_group_info.rs:187-228 | For any iteration order: topics are exactly those of the set, each entry is a newest one (the old one unless something is strictly newer), and the result is true exactly when the topic set changed. |
| `Subscription.ConsumerGroupInfo.Retain` | rocketmq-broker/src/client/consumer_group_info.rs:214-225 | Keeps exactly the named topics with their entries and reports whether something was dropped. |
| `Subscription.OrderDoesNotMatter` | rocketmq-broker/src/client/consumer_group_info.rs:187-228 | Two reconciliations of the same set in any order agree on topics, versions and result. |
| `Subscription.Idempotent` | rocketmq-broker/src/client/consumer_group_info.rs:187-228 | Sending the same set again changes nothing and reports nothing. |
| `Subscription.VersionsNeverDecrease` | rocketmq-broker/src/client/consumer_group_info.rs:192 | Over any run, the version of a topic that stays subscribed never goes back. |
| `EndTransaction.TransactionStore.CheckPrepareMessage` | rocketmq-broker/src/processor/end_transaction_processor.rs:229-266 | Success if and only if producer group, state-table offset and commit-log offset all match. |
| `EndTransaction.TransactionStore.constructor` | rocketmq-broker/src/processor/end_transaction_processor.rs:78-87 | A store of half messages with nothing finished and nothing deleted. |
| `EndTransaction.TransactionStore.ProcessRequest` | rocketmq-broker/src/processor/end_transaction_processor.rs:78-202 | Keeps every deletion justified. A final message is added if and only if the request is not refused, its half message is known, and it is a commit whose check failed and whose put was accepted. A deletion is added if and only if the delete succeeds and it is such a commit or a rollback that matches; it names the half message and its reason. A request not answered Success changes nothing. |
| `EndTransaction.NoLostHalfMessage` | rocketmq-broker/src/processor/end_transaction_processor.rs:88-202 | In every run with any outcome of the writes, every deleted half message had its final message stored with the same body, or was rolled back with all three respects matching. |
| `EndTransaction.RefusedChangesNothing` | rocketmq-broker/src/processor/end_transaction_processor.rs:88-118 | A slave broker, an unknown flag, a request out of its time and an unknown half message change nothing; only the unknown commit is still answered Success. |
| `EndTransaction.CommitStoresIffCheckFailed` | rocketmq-broker/src/processor/end_transaction_processor.rs:133-161 | A commit that reaches the check stores the final message if and only if the check FAILED and the put was accepted; when it matches, nothing happens and Success is answered. |
| `EndTransaction.AnsweredSuccessIff` | rocketmq-broker/src/processor/end_transaction_processor.rs:112-202 | Exactly which requests that are not refused are answered Success. |
| `EndTransaction.LateProducerIsRefused` | rocketmq-broker/src/processor/end_transaction_processor.rs:204-227 | A request for a known half message is refused as illegal if and only if it is the producer's own and the immunity time is over. |
| `EndTransaction.SlowPutIsStored` | rocketmq-broker/src/processor/end_transaction_processor.rs:268-361 | A put that was only slow to flush or replicate counts as stored; every other outcome stores nothing and is reported as the source reports it. |
| `EndTransaction.LostBookkeepingDefaults` | rocketmq-broker/src/processor/end_transaction_processor.rs:366-379 | A half message without its bookkeeping goes to the empty topic and queue 0. |
| `EndTransaction.ParkHides` | rocketmq-broker/src/transaction/queue/transactional_message_bridge.rs:284-317 | A parked message is under the system topic and queue 0 with its transaction bits cleared, and nothing else of it is lost. |
| `EndTransaction.FinalRemembersHalf` | rocketmq-broker/src/processor/end_transaction_processor.rs:136-151 | The final message carries the offsets of the request, the store time of its half and the commit bits. |
| `EndTransaction.CommitRestoresMessage` | rocketmq-broker/src/processor/end_transaction_processor.rs:364-415 | The final message of a parked message has the producer's topic, queue, body, times and properties. |
| `EndTransaction.RenderedTextKeepsBookkeeping` | rocketmq-broker/src/processor/end_transaction_processor.rs:409-413 | The rendered property text still carries the bookkeeping properties that were cleared from the map. |
| `EndTransaction.ResetTouchesTwoBits` | rocketmq-common/src/common/sys_flag/message_sys_flag.rs:43-45 | The two transaction bits become the requested ones, all other bits of the flag are kept. |

## Left out

- PopRuns.DeliveredIsCovered: leaves out messages that another message of their batch strikes, because coverage is false for them; `Limits.CoveredIffOwn` is the exact condition.
- PopRuns.NoDoubleDelivery: takes that a garbage pass finds everything in the deque committed, because the property is false otherwise; `DisjointDelivery.GarbageKeepsStartIff` and `Limits.GarbageRepeatsIff` are the exact conditions for one pass.
- PopRuns.CounterIsBalance: takes one message per store unit, which is what the store yields; with larger units the counter would add the messages of a unit and an acknowledgement take off one per offset.
- BlockingQueue.NoLostWakeUp: takes that no producer finds the queue full and no consumer times out at the mutex; `BlockingQueue.WakeUpsKeptIff` says that nothing less will do.
- PopRequest.Response.PopFromQueue: leaves what a visit finds open, up to what the store promises, and takes one message per decoded buffer on the retry path.
- An acknowledgement that panics on the width of the mark word ends its request; what was marked before it is an acknowledgement of fewer messages, and the rest is no event of the machine.
- Integer overflow of offsets and counters (i64) is not modelled; the u8 and i32 casts of checkpoints and the parse ranges of header fields are.
- The revive service beyond the bits it raises for logged acknowledgements: a stored checkpoint is a flag, and re-delivery is not modelled. With it go the tag under which a visibility change stores its new checkpoint and the queue an acknowledgement is stored to.
- The order-info manager: blocking and the next offset of ordered acknowledgements are carried by events; that the ordered visibility change takes another lock is stated in `Keys` and not in the machine.
- A broker that turns slave clears the checkpoint buffer and the deques; role changes are not modelled.
- `decrement_in_flight_message_num_checkpoint`, a one-line call of the internal decrement.
- The remaining-number arithmetic, response texts, long polling, statistics, hooks, permissions and message filters of pop and notification.
- `update_channel`, `unregister_channel` and `handle_channel_close_event`: single table updates that would add easy members.
- `String`, floating-point and unflattened struct fields of the codec macro, and the syntax tests that classify a field's type.
- The transaction check service, half-message queues and how the transaction bridge writes a deletion.
- Networking, remoting commands, name server, bootstrap, command-line tools, `CountDownLatch` and other thin wrappers.
