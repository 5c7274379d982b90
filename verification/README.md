# Verified model of the ZY100 host

A Dafny 4.11 model of the parts of the host application where a mistake loses data: the crash-safe
offline session store, the GATT executor, saving and acknowledging online records, CLEAR_FLASH, the
connection recovery, calibration records and their reassembly, the stress report, and the summaries
and fences beside them. `dafny verify dfyconfig.toml` checks everything.

## How it is built

- Code that updates fields or files in place is a class or a method with a loop, proved equal to a
  specification function or predicate (`OfflineStore`, `GattQueue`, `StorageWorker`, `OnlineAck`,
  `ClearFlash`, `Recovery`, `CalibrationReceiver`, `Backlog`, `StressReport`, `RevisionFence`,
  `Percentile`). Its `Valid()` is the invariant the theorems rest on, where there is one. The theorems
  are lemmas about those specifications, over every input and every run.
- Coroutines are interleaved steps: what stands between two awaits is one atomic step, and an event
  says which coroutine goes on and how its await ended. Awaited foreign calls, the user, timers and
  the device are arbitrary events.
- The disk (`OfflineDisk`) loses power between any two file operations. Renames, unlinks and atomic
  writes are durable when they return; bytes appended and not fsynced survive up to any length.
- Bytes are `bv8`, 32-bit words `bv32`. The CRC is the table-free update of section 8 of RFC 1952, so
  that chaining is proved, not assumed.

| files | what they model |
|---|---|
| `Crc32`, `Bytes`, `Wrappers` | CRC, little-endian fields, `Option` |
| `OfflineProtocol`, `OfflineDisk`, `OfflineStoreSpec`, `OfflineStore` | records, disk, and the store's operations |
| `OfflineCrashSafety`, `OfflineRuns`, `OfflineCommit`, `OfflineMarks`, `OfflineAssembly` | what every run of the store keeps |
| `GattQueueSpec`, `GattQueueSafety`, `GattQueueOrder`, `GattQueueOutcome`, `GattQueue` | the GATT executor and connection tokens |
| `StorageWorkerSpec`, `StorageWorker` | the single-writer storage worker |
| `OnlineAckSpec`, `OnlineAckSafety`, `OnlineAckWired`, `OnlineAck` | saving before acknowledging, and its invariant |
| `OnlineAckFaults`, `OnlineAckFlush`, `OnlineAckQueue`, `OnlineAckOverlap`, `OnlineAckWritten`, `OnlineAckLost` | failed saves, epochs, and lost or skipped summaries |
| `ClearFlashSpec`, `ClearFlashSafety`, `ClearFlashOutcome`, `ClearFlash` | the CLEAR_FLASH transaction |
| `RecoverySpec`, `Recovery` | bounded, consent-bound recovery |
| `CalibrationRecord`, `CalibrationSplice`, `CalibrationReceiver` | TLV records, splicing, reassembly |
| `StressStream`, `Backlog`, `StressReport` | the stress stream, the backlog detector, the verdict |
| `RevisionFence`, `Percentile` | wrapping counters, bucketed percentiles |

## Where the code does not do what it is for

Each of these is stated with the condition under which the promise holds.

- "No data ACK after a failed save" (the comment at `host/ble/ble_manager.py:7971`) fails when
  `ack_metadata_exhausted` was recorded before: the failed save then only ends the draining, the epoch
  stays, and a summary that was waiting still goes out. It names only saved records.
  `FailedSaveSilencesExactly` proves, for every run, that an ACK can follow exactly when a fault was
  already recorded and something is pending or on its way; `FailedSaveIsFollowedByAnAck` is such a run.
- Once `_safe_disconnect` has begun, the epoch has moved on but the pending list and the session are
  still there, so an ACK of the new epoch can name records of the old one: after any run, exactly if
  the session was active with a summary pending (`AckOutlivesItsEpoch`). Without a begun disconnect
  the epochs agree (`SaveBeforeAck`).
- A full ACK deletes its records from the pending list whenever the send "succeeded". The check under
  the control lock returns without an exception when the link is lost or the token moved, and that
  counts as success. In every run a released batch was never written exactly if its coroutine got the
  lock that way (`ReleasedExactlyWhenWritten`); `BatchReleasedUnwritten` is a run that does it.
- Cancelling a summary ACK does not stop an operation that the executor has already taken: after END,
  which cancels without moving the epoch, its ACK can still be written (`CancelledAckGoesOut`). It names
  only saved records all the same.
- A full ACK deletes as many summaries as it named, from wherever the list begins by then. Nothing is
  lost, repeated or reordered exactly if each full ACK finds its own records still at the head
  (`ConservedExactly`). With first-in first-out scheduling it always does (`SummariesConserved`). But
  the `finally` of a cancelled full ACK clears the reference even if it names a newer one: if it came
  late, two full ACKs could run at once and delete a summary nobody acknowledged
  (`OverlapLosesASummary`, a run from the start).
- The store does not refuse an `append` after `mark_capture_preempted`; `AppendAfterMarkMixes` is a run
  that mixes. In every run an append mixes exactly if the session had received bytes when the capture
  was last marked (`AppendMixesExactlyWhen`). A controller that prepares again after each mark can read
  this off the store: a mark is pending and the received offset is not zero (`PendingMarkGuard`).
- An operation whose connection token went stale never delivers its result, but an exception reaches the
  caller: in every run, exactly if its body raised one and the caller was still waiting
  (`StaleOperationOutcome`); `StaleExceptionIsDelivered` is such a run.
- A failed CLEAR_FLASH quarantine is reported as clear_failed at once and again at the end. A
  transaction is reported twice exactly if its quarantine raised while it was current and it has ended,
  and never more often (`FailedQuarantineIsReportedTwice`, `TwoReportsHappen`).
- A cancel during the last disconnect of a recovery skips the end of its `finally`: the recovery stays
  marked as running and ignores every later request (`CancelledClosingRefusesForEver`). `Run` states
  exactly when: the run has neither succeeded nor preserved its business, and the await of that
  disconnect was interrupted.
- The revision fence judges snapshots correctly from 128 behind to 127 ahead; `WindowIsTight` says of
  every distance whether it is judged right, and one step outside the window it is not. Generation 0
  means "none yet" and fences nothing (`ForeignGenerations`).

## Model

| member | source | states |
|---|---|---|
| Crc32.CrcChain | host/ble/offline_v2_protocol.py:303-304 | the CRC of a prefix as start value continues to the CRC of the whole, for all splits and start values |
| Crc32.CheckValue | host/ble/offline_v2_protocol.py:303-304 | the published check value of IEEE CRC-32 |
| OfflineProtocol.Crc32FilePrefix | host/ble/offline_v2_store.py:583-595 | the block-wise loop yields the one-shot CRC of the prefix, and fails exactly when the file is shorter |
| OfflineProtocol.ValidateAllRecords | host/ble/offline_v2_store.py:598-620 | accepts exactly the files whose every slot is a valid record with its own index |
| OfflineProtocol.ValidateCompletedData | host/ble/offline_v2_store.py:723-728 | accepts exactly the complete data of a manifest: length, CRC and all records |
| OfflineStore.OfflineV2SessionStore.PrepareSession | host/ble/offline_v2_store.py:117-204 | result, file operations, directory and memory are those of the specification |
| OfflineStore.OfflineV2SessionStore.FitPart | host/ble/offline_v2_store.py:167-178 | dropping or truncating the part file, as the recorded checkpoint requires |
| OfflineStore.OfflineV2SessionStore.AppendChunk | host/ble/offline_v2_store.py:206-241 | fresh, duplicate and every refusal, with the new offsets, CRC and file |
| OfflineStore.OfflineV2SessionStore.CheckpointNow | host/ble/offline_v2_store.py:243-252 | fsync first, then the published checkpoint |
| OfflineStore.OfflineV2SessionStore.FinalizeSession | host/ble/offline_v2_store.py:254-302 | every refusal, and the order of the commit's renames and unlinks |
| OfflineStore.OfflineV2SessionStore.MarkCapturePreempted | host/ble/offline_v2_store.py:103-115 | one durable write, and nothing else changes |
| OfflineStore.OfflineV2SessionStore.ValidateActiveCheckpoint | host/ble/offline_v2_store.py:86-101 | answers the durable checkpoint exactly when the part file still carries it |
| OfflineCrashSafety.TransferSafe | host/ble/offline_v2_store.py:156-204 | every file operation of a prepare keeps the disk invariant, and it ends at a covered prefix |
| OfflineRuns.CrashSafeResume | host/ble/offline_v2_store.py:156-204 | after any crashes the resumed part file is exactly the returned prefix of the accepted bytes, with its CRC |
| OfflineRuns.ShortPartFileIsEmpty | host/ble/offline_v2_store.py:169-171 | the branch that drops a checkpoint without truncating is only reached with an empty part file |
| OfflineRuns.FreshAppend | host/ble/offline_v2_store.py:230-241 | a fresh append sits at the end of the accepted stream and its CRC is that of the whole |
| OfflineCommit.CommitAtomicity | host/ble/offline_v2_store.py:254-302 | at every crash point the next prepare finds a complete record or loses no checkpointed byte |
| OfflineCommit.CommittedRecordStaysValid | host/ble/offline_v2_store.py:266-302 | metadata only ever stands beside a final file that is complete in every surviving image |
| OfflineCommit.CommittedStaysCommitted | host/ble/offline_v2_store.py:150-154 | no later event or crash, not even a forced re-transfer, takes a committed record away |
| OfflineCommit.FinalizedIsComplete | host/ble/offline_v2_store.py:254-265 | passing the checks of finalize means the accepted bytes are the complete record |
| OfflineCommit.SettlesAbove | host/ble/offline_v2_store.py:163-197 | without a forced restart a prepare settles on at least every promised byte |
| OfflineMarks.PreemptedTransfersNeverMix | host/ble/offline_v2_store.py:103-160 | with no fresh append to stale bytes an open part file never joins both sides of a mark; a resumed prefix never does, in every run |
| OfflineMarks.AppendMixesExactlyWhen | host/ble/offline_v2_store.py:103-241 | in every run for one device a fresh append mixes if and only if bytes had been received when the capture was last marked |
| OfflineMarks.PendingMarkGuard | host/ble/offline_v2_store.py:103-241 | when no chunk was taken under a pending mark so far: the next fresh append is unmixed if and only if no mark is pending or nothing was received |
| OfflineMarks.AppendAfterMarkMixes | host/ble/offline_v2_store.py:103-241 | prepare, append, mark, append mixes, for every manifest and any two chunks that fit |
| OfflineMarks.MarkOutlivesUntilZero | host/ble/offline_v2_store.py:199-201 | a mark only disappears when a zero checkpoint and an empty part file are durable, for its own device |
| OfflineMarks.ForcedPlan | host/ble/offline_v2_store.py:150-201 | a forced prepare empties the file, publishes zero, and drops the mark last |
| OfflineMarks.ResumesExactlyWhen | host/ble/offline_v2_store.py:132-197 | when a prepare resumes instead of starting over, if and only if |
| OfflineAssembly.AppendMeaning | host/ble/offline_v2_store.py:206-241 | fresh and duplicate said about the accepted stream, both directions |
| OfflineAssembly.PartFileIsAssembly | host/ble/offline_v2_store.py:206-252 | after any calls the part file is its old content followed by the fresh payloads, with bounds and CRC |
| OfflineAssembly.AssemblesOnlyTheSource | host/ble/offline_v2_store.py:206-241 | slices of one stream in any order only ever assemble a prefix of it |
| OfflineAssembly.NextChunkIsTaken | host/ble/offline_v2_store.py:206-241 | the chunk at the received offset is always taken |
| GattQueue.GattOperationQueue.SubmitOperation | host/ble/gatt_operation_queue.py:40-59 | the new queue state, and a refusal exactly for a stale token |
| GattQueue.GattOperationQueue.CancelStaleOperations | host/ble/gatt_operation_queue.py:61-78 | the filter loop, the cancelled futures and the cancelled running operation |
| GattQueue.GattOperationQueue.RunnerTurn | host/ble/gatt_operation_queue.py:169-193 | the loop from one await to the next |
| GattQueue.ConnectionCoordinator.Begin | host/ble/connection_coordinator.py:141-148 | a fresh token, and everything stale cancelled in the same step |
| GattQueueSafety.SingleFlight | host/ble/gatt_operation_queue.py:40-193 | in every interleaving: one body at a time, none stale, no stale result, each future settled once |
| GattQueueSafety.SerialMeansDisjoint | host/ble/gatt_operation_queue.py:169-193 | between two starts the earlier body has ended |
| GattQueueSafety.StaleForever | host/ble/connection_coordinator.py:141-158 | a stale token never becomes current again |
| GattQueueSafety.GuardedUntilConnectionChanges | host/ble/connection_coordinator.py:141-169 | a bound callback still runs if and only if no connection change came since, and never again after one |
| GattQueueSafety.CancelStaleKeeps | host/ble/gatt_operation_queue.py:61-78 | cancelling restores the fence after a token change |
| GattQueueOutcome.OutcomeReachesItsCaller | host/ble/gatt_operation_queue.py:169-193 | in every run each caller gets the outcome of its own body, after it ended: what becomes of it as a function of how it ended, whether the caller gave up, and whether the token went stale |
| GattQueueOutcome.StaleOperationOutcome | host/ble/gatt_operation_queue.py:180-193 | in every run an operation that went stale delivers no result, and an exception if and only if its body raised and its caller still waited |
| GattQueueOutcome.StaleExceptionIsDelivered | host/ble/gatt_operation_queue.py:180-193 | a run from the start in which a stale operation's exception is delivered |
| GattQueueOrder.PopOrderIsSorting | host/ble/gatt_operation_queue.py:19-26 | popping yields the same operations in increasing (priority, submission) order |
| GattQueueOrder.EqualPriorityIsFifo | host/ble/gatt_operation_queue.py:19-59 | equal priorities leave in the order of submission |
| GattQueueOrder.CancelStaleKeepsOrder | host/ble/gatt_operation_queue.py:61-70 | survivors, all tokenless cleanups among them, keep their relative order |
| GattQueueOrder.UnsettledMeansEnabled | host/ble/gatt_operation_queue.py:52-59 | while a future is unsettled the executor has a turn it can take |
| GattQueueOrder.InternalStepShrinks | host/ble/gatt_operation_queue.py:169-193 | each such turn brings the executor closer to rest |
| GattQueueOrder.EveryFutureSettles | host/ble/gatt_operation_queue.py:52-193 | no lost wakeup: without new calls every future settles within a computed number of turns |
| StorageWorker.OnlineStorageWorker.SubmitRequest | host/ble/online_storage_worker.py:62-76 | admission under the two limits, and the refusals |
| StorageWorker.OnlineStorageWorker.RunTaken | host/ble/online_storage_worker.py:82-93 | one operation applied to its store, a late disconnect abort skipped |
| StorageWorkerSpec.SnapshotsLinearize | host/ble/online_storage_worker.py:55-110 | every snapshot is the initial state folded with a whole prefix of the accepted operations |
| StorageWorkerSpec.DrainedMeansAllApplied | host/ble/online_storage_worker.py:104-110 | with nothing pending every accepted operation shows |
| StorageWorkerSpec.AbortsHaveRoom | host/ble/online_storage_worker.py:46-76 | at most 16 pending, 14 of them no aborts; a refused abort is at least the third |
| StorageWorkerSpec.LateDisconnectAbortIsVoid | host/ble/online_storage_worker.py:88-90 | a disconnect abort after the end changes no later state |
| OnlineAckSafety.SaveBeforeAck | host/ble/ble_manager.py:7605-7679 | in every run each written ACK names records saved before it, in its session, and in its epoch if no disconnect began |
| OnlineAckSafety.StepSound | host/ble/ble_manager.py:7714-7725 | every step keeps what is pending, being sent and written within what was saved |
| OnlineAckWired.StepWired | host/ble/ble_manager.py:7605-7679 | every step keeps the reference of the full ACK, the session of an active flow and the captured tokens in order |
| OnlineAckFaults.RunMuted | host/ble/ble_manager.py:8328-8345 | once no send is left to write and no active session can start one, nothing is written until the next START, in every interleaving |
| OnlineAckFlush.ErrorSilences | host/ble/ble_manager.py:8328-8345 | after any run, an online error stops all data ACKs until the next START |
| OnlineAckFlush.FailedSaveSilencesExactly | host/ble/ble_manager.py:7800-7817 | after any run, an ACK can follow a failed save before the next START if and only if a fault was already recorded and something waits or is on its way |
| OnlineAckFlush.FailedSaveIsFollowedByAnAck | host/ble/ble_manager.py:7800-7835 | a run from the start in which an ACK follows a failed save |
| OnlineAckFlush.DisconnectFlushes | host/ble/ble_manager.py:8246-8326 | whatever coroutine is running, the pending list of an active session can go out after a begun disconnect, head first |
| OnlineAckFlush.AckOutlivesItsEpoch | host/ble/ble_manager.py:10488-10500 | after any run, an ACK of older records can follow a begun disconnect if and only if the session was active with a summary pending |
| OnlineAckOverlap.ConservedExactly | host/ble/ble_manager.py:8231-8273 | for any scheduling: all along a run saved summaries are the released and then the pending ones if and only if each full ACK finds its records at the head |
| OnlineAckOverlap.StepConservesExactly | host/ble/ble_manager.py:8246-8273 | the one kind of step that breaks this, if and only if |
| OnlineAckOverlap.OverlapLosesASummary | host/ble/ble_manager.py:8246-8326 | a run from the start in which two full ACKs overlap and a saved summary is dropped that no ACK named |
| OnlineAckQueue.SummariesConserved | host/ble/ble_manager.py:8231-8273 | when cancelled full ACKs end first: nothing lost, repeated or reordered, and one full ACK at a time |
| OnlineAckQueue.StepQueue | host/ble/ble_manager.py:8246-8326 | every prompt step keeps one running full ACK, which names the head of the list |
| OnlineAckLost.ReleasedExactlyWhenWritten | host/ble/ble_manager.py:5687-5694 | in every run a released batch was named on the wire if and only if its coroutine never got the lock with its link lost or its token moved |
| OnlineAckLost.BatchReleasedUnwritten | host/ble/ble_manager.py:8251-8273 | a run from the start that releases a batch without any ACK |
| OnlineAckLost.CancelledAckGoesOut | host/ble/ble_manager.py:8086-8087 | a run from the start in which END cancels a full ACK whose operation is written afterwards |
| OnlineAck.OnlineRecordFlow.SendOnlineRecordAck | host/ble/ble_manager.py:7605-7636 | the refusals and the values captured before the first await |
| OnlineAck.OnlineRecordFlow.OnSaveCompleted | host/ble/ble_manager.py:8187-8244 | stale, failed and finished saves, and the direct or batched ACK; keeps the invariant |
| OnlineAck.OnlineRecordFlow.OnWoken | host/ble/ble_manager.py:8250-8326 | which head of the list a woken summary ACK sends; keeps the invariant |
| OnlineAck.OnlineRecordFlow.OnLockGranted | host/ble/ble_manager.py:5687-5694 | queued, skipped or refused under the control lock; keeps the invariant |
| OnlineAck.OnlineRecordFlow.OnGattWrite | host/ble/ble_manager.py:7640-7646 | written only while client, epoch, session and token are those captured, also by an operation that outlived its coroutine |
| OnlineAck.OnlineRecordFlow.OnCancelled | host/ble/ble_manager.py:8266-8270 | the `finally` of a cancelled coroutine, which clears the reference whichever it names |
| OnlineAck.OnlineRecordFlow.FullAckEnds | host/ble/ble_manager.py:8259-8273 | deletion, cleared reference and rescheduling |
| OnlineAck.OnlineRecordFlow.OnFault | host/ble/ble_manager.py:7800-7817 | first fault, later faults, and the draining exception; keeps the invariant |
| OnlineAck.OnlineRecordFlow.OnStart | host/ble/ble_manager.py:7994-8008 | a new epoch and session with an empty list; keeps the invariant |
| OnlineAck.OnlineRecordFlow.OnFlushRequested | host/ble/ble_manager.py:8275-8289 | which ACK coroutine a forced flush starts; keeps the invariant |
| ClearFlashOutcome.OneOutcomeAndItIsTrue | host/ble/ble_manager.py:9050-9163 | one terminal report per transaction; clear_ok exactly when an empty LIST was verified, after acceptance and quarantine |
| ClearFlashOutcome.SupersededStepsAreInert | host/ble/ble_manager.py:8957-8966 | a step of a superseded transaction resets nothing and reports nothing |
| ClearFlashOutcome.SupersededForever | host/ble/ble_manager.py:8957-8960 | once superseded, never current again and never reported again, in every run |
| ClearFlashOutcome.ReportsAreCurrent | host/ble/ble_manager.py:9149-9163 | only the current transaction reports |
| ClearFlashOutcome.FailedQuarantineIsReportedTwice | host/ble/ble_manager.py:9088-9163 | in every run a transaction is reported at most twice, and twice if and only if its quarantine raised while current and it has ended |
| ClearFlashOutcome.TwoReportsHappen | host/ble/ble_manager.py:9050-9163 | a run from the start with two reports of one transaction |
| ClearFlashSafety.StepInv | host/ble/ble_manager.py:8957-9234 | every step keeps one sender, one quarantine and one ending coroutine per transaction |
| ClearFlash.ClearFlashContext.HandleClearFlashAck | host/ble/ble_manager.py:9050-9076 | which ACKs count, and which coroutines they start |
| ClearFlash.ClearFlashContext.OnSendFailed | host/ble/ble_manager.py:5029-5037 | a send failure ends the transaction only if no ACK was received |
| ClearFlash.ClearFlashContext.OnAcceptReturned | host/ble/ble_manager.py:9078-9093 | the quarantine's two ends, ignored when superseded |
| ClearFlash.ClearFlashContext.OnListed | host/ble/ble_manager.py:9110-9121 | the three answers of the verification |
| ClearFlash.ClearFlashContext.OnMetadataWritten | host/ble/ble_manager.py:9123-9224 | the metadata loops, rechecked at every await, and the report |
| Recovery.ConnectionRecovery.Run | host/ble/connection_recovery.py:98-287 | at most six attempts and one unpair, a lawful log, no approval left; marked as running afterwards if and only if the last disconnect was awaited and interrupted |
| Recovery.CancelledClosingRefusesForEver | host/ble/connection_recovery.py:98-104 | a cancel while closing, after which every later request changes nothing |
| Recovery.ConnectionRecovery.OfferRepair | host/ble/connection_recovery.py:231-259 | from qualification over consent to the one unpair |
| Recovery.ConnectionRecovery.Confirm | host/ble/connection_recovery.py:68-78 | approval means the log's consent is for exactly this endpoint, uncancelled |
| Recovery.ConnectionRecovery.UseApproval | host/ble/ble_manager.py:1127-1136 | only an unchanged, still paired endpoint uses the approval up |
| RecoverySpec.LawfulMeans | host/ble/ble_manager.py:1113-1139 | every unpair in a lawful log follows an approved question for the endpoint resolved just before, uncancelled and qualified |
| RecoverySpec.GivenMeans | host/ble/connection_recovery.py:36-78 | standing consent is a question and its approval with nothing in between that undoes it |
| RecoverySpec.ActAllKeeps | host/ble/connection_recovery.py:36-59 | replies and cancels during an await keep fields and consent tied together |
| CalibrationReceiver.CountIsUnion | host/ble/calibration_protocol.py:792-803 | consistent fragments in any order: the count is the size of the union and the bytes agree with all |
| CalibrationReceiver.PermutationsAgree | host/ble/calibration_protocol.py:792-799 | any permutation leaves the same bytes and the same map |
| CalibrationReceiver.EndCompletesExactly | host/ble/calibration_protocol.py:750-832 | END completes if and only if the union covers everything and the content is accepted with the announced CRC |
| CalibrationReceiver.StepKeeps | host/ble/calibration_protocol.py:750-832 | no frame, conflicting ones included, changes a byte already received in a transfer |
| CalibrationReceiver.ParseFrame | host/ble/calibration_protocol.py:579-609 | an accepted frame lies inside its transfer, and only DATA carries bytes |
| CalibrationReceiver.AgreeingAll | host/ble/calibration_protocol.py:793-795 | a frame is refused exactly when some received byte differs |
| CalibrationReceiver.Receiver.OnNotify | host/ble/calibration_protocol.py:750-832 | the in-place receiver is the specification, frame by frame |
| CalibrationRecord.AcceptedIsItsPrinting | host/ble/calibration_protocol.py:617-691 | an accepted record is its own header followed by its re-emitted TLVs |
| CalibrationRecord.ParseOfPrint | host/ble/calibration_protocol.py:645-668 | printed TLVs parse back to themselves |
| CalibrationRecord.PrintOfParse | host/ble/calibration_protocol.py:645-668 | what parses is exactly the printing of its TLVs |
| CalibrationRecord.ParseTlvList | host/ble/calibration_protocol.py:641-668 | the loop accepts exactly the well-formed lists, with their flags |
| CalibrationRecord.ParseCalibrationRecord | host/ble/calibration_protocol.py:617-691 | the loop form equals the recursive parser |
| CalibrationSplice.SpliceIsAccepted | host/ble/calibration_protocol.py:499-548 | a spliced record that fits is accepted: one MAG TLV, the others unchanged in order, flags and CRC right |
| CalibrationSplice.BuildFullMagRecord | host/ble/calibration_protocol.py:499-548 | the list loop, the size limit and the final parse |
| CalibrationSplice.CrcIgnoresItself | host/ble/calibration_protocol.py:612-614 | the self-excluding CRC does not depend on the value stored in its own field |
| StressStream.PatternSplit | host/ble/online_stress.py:57-59 | adjacent pieces of the stream are one piece |
| StressStream.ParseStressSource | host/ble/online_stress.py:62-84 | the checks in order accept exactly the well-formed records |
| StressStream.AcceptedCarriesTheStream | host/ble/online_stress.py:62-84 | an accepted record holds the stream at its own offset |
| StressReport.TallyFiles | host/ble/online_stress_report.py:22-53 | the file loop with its partial counting on errors |
| StressReport.FilesHoldTheStream | host/ble/online_stress_report.py:22-53 | without a failed file the data areas are the stream from its first byte, gapless, once |
| StressReport.BuildStressReport | host/ble/online_stress_report.py:13-124 | fails and passes exactly under the stated conditions |
| StressReport.PassMeansWholeStream | host/ble/online_stress_report.py:61-124 | pass means the whole stream of the elapsed blocks is on disk and acknowledged |
| Backlog.AssessBacklog | host/ble/online_stress.py:102-125 | both answers mean what they should, if and only if |
| Backlog.OrderDoesNotMatter | host/ble/online_stress.py:102-125 | permuting the samples changes neither answer |
| Backlog.GapsOkMeans | host/ble/online_stress.py:110-115 | gaps between time-sorted neighbours are exactly the holes |
| RevisionFence.StateIsTheLastMaximum | host/ble/ble_manager.py:9474-9501 | within one generation the state is that of the last delivery of the running maximum |
| RevisionFence.AcceptedExactlyWhenNotOlder | host/ble/ble_manager.py:9483-9491 | inside the window a snapshot is accepted exactly when it is not older |
| RevisionFence.WindowIsTight | host/ble/ble_manager.py:9483-9486 | at which distances the wrapped comparison is right, if and only if: all of the window, and neither step beyond it |
| RevisionFence.ForeignGenerations | host/ble/ble_manager.py:9474-9482 | foreign snapshots change nothing, unless the known generation is 0 |
| RevisionFence.BootstrapFence.OnSnapshot | host/ble/ble_manager.py:9474-9501 | the fields after an accepted and after a refused snapshot |
| RevisionFence.NewerNoticeWins | host/ble/ble_manager.py:9307-9317 | a timeout notice replaces the held one exactly when its transaction is not older |
| Percentile.MaxMetric.Note | host/ble/online_diagnostics.py:20-28 | the bins keep counting exactly the noted values |
| Percentile.MaxMetric.BinsSum | host/ble/online_diagnostics.py:20-28 | the bin counts add up to the count of noted values |
| Percentile.MaxMetric.PercentileBound | host/ble/online_diagnostics.py:30-37 | the bound of the first bin that reaches the target, 0 when there is none |
| Percentile.TargetIsNearestRank | host/ble/online_diagnostics.py:31 | the rounded target is the nearest rank, for whole percents |
| Percentile.BoundCoversThePercentile | host/ble/online_diagnostics.py:30-37 | the bound is the least one not below the nearest-rank value of the sorted list |

## Left out

- One session directory per key: sessions are told apart by the key, and the model follows one of them.
- `tmp` files of atomic writes, CSV and ZIP files, listing, deletion and reclaim status of sessions.
- JSON that does not parse: resume, metadata and restart files are only ever replaced atomically.
- Device addresses compare as given; letter case is not modelled.
- Write errors without a crash inside `append`: a write completes or the process stops.
- The wire parsers of manifest, chunk and session list; the store receives parsed values.
- The heap behind the GATT queue is a sequence whose least element is popped.
- An exception from `queued.operation()` itself, which the code calls outside its `try`.
- The operations of the online store: the storage worker folds an arbitrary semantics over them.
- The notification worker may take the next record while START is still being stored; the model allows more interleavings here than the code.
- The END acknowledgement, storage of START, STRESS status and END, and the text of log and UI events.
- OnlineAckQueue.SummariesConserved: assumes that a cancelled full-ACK coroutine has ended before the next is scheduled, because events do not carry the event loop's ready queue; `ConservedExactly` needs no such assumption.
- OnlineAckQueue.StepQueue: the same assumption, for one step.
- OfflineMarks.PreemptedTransfersNeverMix: its first half is for runs with no fresh append to stale bytes, because the store alone does not enforce it; `AppendMixesExactlyWhen` covers the rest.
- OfflineMarks.PendingMarkGuard: for runs that took no fresh chunk under a pending mark, because afterwards the store no longer tells old bytes from new; `AppendMixesExactlyWhen` covers every run.
- Discovery, initialisation, pairing queries and scans: their answers are arbitrary; so is the clock of the return window.
- Floats are words with a finiteness test; the percentile metric uses exact numbers.
- The search for a baseline report and the RAW section parser: their results are parameters of the stress report.
- Connection bootstrap, OTA entry, feature configuration and host connection-interval negotiation: guards whose claims are read off one branch.
