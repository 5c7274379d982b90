/**
 * The fields of the BLE manager that saving and acknowledging online records change in place. Every
 * piece of code between two awaits keeps the invariant that the promises about ACKs rest on.
 */
module OnlineAck {
  import opened OnlineAckSafety
  import opened OnlineAckSpec
  import opened OnlineAckWired
  import opened Wrappers

  class OnlineRecordFlow {
    var epoch: nat
    var session: Option<nat>
    var client: nat
    var up: bool
    var token: nat
    var active: bool
    var batch: nat
    var fault: Fault
    var worker: Worker
    var pending: seq<Saved>
    var tasks: seq<Task>
    var fullRef: Option<nat>
    var partialRef: Option<nat>
    // what has happened so far
    ghost var saved: seq<Saved>
    ghost var acks: seq<Ack>
    ghost var mark: nat
    ghost var releases: seq<Release>

    ghost function Value(): State
      reads this
    {
      State(epoch, session, client, up, token, active, batch, fault, worker, pending, tasks, fullRef, partialRef,
            saved, acks, mark, releases)
    }

    /** What is pending, being sent and written was saved before, and references name what they should. */
    ghost predicate Valid()
      reads this
    {
      Inv(Value())
    }

    constructor ()
      ensures Valid() && Value() == Initial()
    {
      epoch, session, client, up, token := 0, None, 0, false, 0;
      active, batch, fault, worker := false, DEFAULT_BATCH, NoFault, Idle;
      pending, tasks, fullRef, partialRef := [], [], None, None;
      saved, acks, mark, releases := [], [], 0, [];
      new;
      InitialSound(None);
      InitialWired();
    }

    twostate lemma Kept(e: Event)
      requires old(Valid()) && Value() == Next(old(Value()), e)
      ensures Valid()
    {
      hide Next, Sound, Wired, Value;
      StepSound(old(Value()), e, None);
      StepWired(old(Value()), e);
    }

    // ----- pieces of the handlers -----

    method Cancel(ref: Option<nat>)
      modifies `tasks
      ensures tasks == CancelTask(old(tasks), ref)
    {
      if ref.Some? && ref.value < |tasks| && !Done(tasks[ref.value]) {
        tasks := tasks[ref.value := tasks[ref.value].(cancelled := true)];
      }
    }

    /** `_cancel_online_summary_ack_tasks`. */
    method CancelOnlineSummaryAckTasks()
      modifies this
      ensures Value() == CancelSummaryTasks(old(Value()))
    {
      Cancel(fullRef);
      Cancel(partialRef);
      fullRef := None;
      partialRef := None;
    }

    method ClearPending()
      modifies this
      ensures Value() == EmptyPending(old(Value()))
    {
      pending := [];
      mark := |saved|;
      releases := [];
    }

    /** `_schedule_online_summary_full_ack`. */
    method ScheduleOnlineSummaryFullAck()
      modifies this
      ensures Value() == ScheduleFull(old(Value()))
    {
      if fullRef.Some? && fullRef.value < |tasks| && !Done(tasks[fullRef.value]) {
        return;
      }
      fullRef := Some(|tasks|);
      tasks := tasks + [Task(Full, false, Sleeping)];
    }

    /** `_schedule_online_summary_partial_ack(force=True)`. */
    method ScheduleOnlineSummaryPartialAck()
      modifies this
      ensures Value() == SchedulePartial(old(Value()))
    {
      if pending == [] {
        return;
      }
      if |pending| >= batch {
        ScheduleOnlineSummaryFullAck();
      } else if partialRef.Some? && partialRef.value < |tasks| && !Done(tasks[partialRef.value]) {
        tasks := tasks + [Task(PartialOnce, false, Sleeping)];
      } else {
        partialRef := Some(|tasks|);
        tasks := tasks + [Task(PartialLoop, false, Sleeping)];
      }
    }

    method BumpEpoch()
      modifies `epoch
      ensures Value() == old(Value()).(epoch := old(Value()).epoch + 1)
    {
      epoch := epoch + 1;
    }

    /** `_handle_online_error`. */
    method HandleOnlineError()
      modifies this
      ensures Value() == OnlineFailed(old(Value()))
    {
      active := false;
      ClearPending();
      CancelOnlineSummaryAckTasks();
      BumpEpoch();
    }

    /** `_begin_online_fault`. */
    method BeginOnlineFault(metadata: bool)
      modifies this
      ensures Value() == BeginFault(old(Value()), metadata)
    {
      if fault != NoFault {
        if !metadata {
          fault := Closed;
        }
        return;
      }
      fault := if metadata then Draining else Closed;
      if !metadata {
        HandleOnlineError();
      }
    }

    method OpenSession(newSession: nat, ackBatch: nat)
      modifies `fault, `active, `session, `batch
      ensures Value() == old(Value()).(fault := NoFault, active := true, session := Some(newSession),
                                       batch := if ackBatch == 0 then DEFAULT_BATCH else ackBatch)
    {
      fault := NoFault;
      active := true;
      session := Some(newSession);
      batch := if ackBatch == 0 then DEFAULT_BATCH else ackBatch;
    }

    method Restart(newSession: nat, ackBatch: nat)
      modifies this
      ensures Value() == Started(old(Value()), newSession, ackBatch)
    {
      hide CancelSummaryTasks, Value;
      BumpEpoch();
      CancelOnlineSummaryAckTasks();
      OpenSession(newSession, ackBatch);
      ClearPending();
    }

    method CloseSession()
      modifies `fault, `active, `session, `batch
      ensures Value() == old(Value()).(fault := NoFault, active := false, session := None, batch := DEFAULT_BATCH)
    {
      fault, active, session, batch := NoFault, false, None, DEFAULT_BATCH;
    }

    /** What `_clear_control_state` does to these fields. */
    method ClearControlState()
      modifies this
      ensures Value() == ControlCleared(old(Value()))
    {
      hide CancelSummaryTasks, Value;
      BumpEpoch();
      CancelOnlineSummaryAckTasks();
      CloseSession();
      ClearPending();
    }

    method MoveTo(t: nat, phase: Phase)
      requires t < |tasks|
      modifies `tasks
      ensures Value() == SetPhase(old(Value()), t, phase)
    {
      tasks := tasks[t := tasks[t].(phase := phase)];
    }

    /** How `_online_summary_full_ack_after_delay` goes on once its send is over. */
    method FullAckEnds(t: nat, send: Send, skipped: bool, outcome: Outcome)
      requires t < |tasks| && tasks[t].kind == Full
      modifies this
      ensures Value() == Conclude(old(Value()), t, send, skipped, outcome)
    {
      var needFull := false;
      if outcome == Sent {
        var n := if |send.names| <= |pending| then |send.names| else |pending|;
        pending := pending[n..];
        releases := releases + [Release(t, send.names, skipped)];
        needFull := |pending| >= send.batch;
      }
      MoveTo(t, Finished(None));
      fullRef := None;
      if needFull {
        ScheduleOnlineSummaryFullAck();
      }
    }

    method SendEnds(t: nat, send: Send, skipped: bool, outcome: Outcome)
      requires t < |tasks|
      modifies this
      ensures Value() == Conclude(old(Value()), t, send, skipped, outcome)
    {
      match tasks[t].kind {
        case Full => FullAckEnds(t, send, skipped, outcome);
        case Direct =>
          MoveTo(t, Finished(None));
          if worker == Acking(t) {
            worker := Idle;
          }
        case PartialOnce => MoveTo(t, Finished(None));
        case PartialLoop =>
          if outcome == Interrupted {
            MoveTo(t, Finished(None));
            partialRef := None;
          } else {
            MoveTo(t, Sleeping);
          }
      }
    }

    /** `_send_online_record_ack` up to the control lock. */
    method SendOnlineRecordAck(t: nat, names: seq<Saved>)
      requires t < |tasks| && names != []
      modifies this
      ensures Value() == BeginSend(old(Value()), t, names)
    {
      if !active || session == None || !up {
        SendEnds(t, Send(names, client, token, epoch, 0, batch), false, NotSent);
        return;
      }
      MoveTo(t, AtLock(Send(names, client, token, epoch, session.value, batch)));
    }

    /** The bytes of an ACK reach the link. */
    method PutOnWire(t: nat, send: Send, phase: Phase)
      requires t < |tasks| && send.names != []
      modifies this
      ensures Value() == SetPhase(Written(old(Value()), t, send), t, phase)
    {
      acks := acks + [Ack(t, send.names[|send.names| - 1].id, |send.names|, send.names, send.epoch, send.session,
                          |saved|)];
      MoveTo(t, phase);
    }

    predicate IsCurrent(send: Send)
      reads this
    {
      client == send.client && epoch == send.epoch && session == Some(send.session)
    }

    predicate MayBeWritten(send: Send)
      reads this
    {
      IsCurrent(send) && token == send.token
    }

    method CancelWorkerTask()
      modifies `worker, `tasks
      ensures Value() == WorkerCancelled(old(Value()))
    {
      if worker.Acking? && worker.task < |tasks| && !Done(tasks[worker.task]) {
        tasks := tasks[worker.task := tasks[worker.task].(cancelled := true)];
      }
      worker := Idle;
    }

    // ----- the notification worker -----

    /** A complete record, admitted by the storage worker or not. */
    method OnRecord(id: nat, kind: RecordType, admitted: bool)
      requires Valid()
      modifies this
      ensures Valid() && Value() == Next(old(Value()), Deliver(id, kind, admitted))
    {
      if worker == Idle && active && fault != Closed {
        if admitted {
          worker := Saving(id, kind, epoch, client);
        } else {
          BeginOnlineFault(false);
        }
      }
      Kept(Deliver(id, kind, admitted));
    }

    /** `_handle_online_completed_record` once `save_record` has come back. */
    method OnSaveCompleted(ok: bool)
      requires Valid() && worker.Saving?
      modifies this
      ensures Valid() && Value() == Next(old(Value()), SaveDone(ok))
    {
      hide Conclude, OnlineFailed, BeginFault, BeginSend, ScheduleFull, Inv;
      var w := worker;
      worker := Idle;
      if w.epoch == epoch && w.client == client {
        if ok {
          RecordSaved(w.id, w.kind);
        } else {
          BeginOnlineFault(false);
        }
      }
      Kept(SaveDone(ok));
    }

    /** The rest of it after a save that is neither stale nor failed. */
    method RecordSaved(id: nat, kind: RecordType)
      requires worker == Idle
      modifies this
      ensures var r := Saved(id, kind, old(epoch), old(session));
              Value() == AfterSave(old(Value()).(saved := old(saved) + [r]), r)
    {
      hide Conclude, OnlineFailed, BeginSend, ScheduleFull;
      var record := Saved(id, kind, epoch, session);
      saved := saved + [record];
      if kind == Unsupported {
        HandleOnlineError();
      } else if kind == Summary && batch > 1 {
        pending := pending + [record];
        if |pending| >= batch {
          ScheduleOnlineSummaryFullAck();
        }
      } else {
        worker := Acking(|tasks|);
        tasks := tasks + [Task(Direct, false, Sleeping)];
        SendOnlineRecordAck(|tasks| - 1, [record]);
      }
    }

    // ----- the ACK coroutines -----

    /** The sleep of a summary ACK is over. */
    method OnWoken(t: nat)
      requires Valid() && LiveTask(Value(), t) && tasks[t].phase.Sleeping?
      modifies this
      ensures Valid() && Value() == Next(old(Value()), Wake(t))
    {
      hide Conclude, BeginSend, Inv;
      match tasks[t].kind {
        case Direct =>
        case Full =>
          var n := if batch <= |pending| then batch else |pending|;
          if n == 0 {
            MoveTo(t, Finished(None));
            fullRef := None;
          } else {
            SendOnlineRecordAck(t, pending[..n]);
          }
        case PartialOnce =>
          if pending == [] || |pending| >= batch {
            MoveTo(t, Finished(None));
          } else {
            SendOnlineRecordAck(t, pending);
          }
        case PartialLoop =>
          if pending == [] || |pending| >= batch {
            MoveTo(t, Finished(None));
            partialRef := None;
          } else {
            SendOnlineRecordAck(t, pending);
          }
      }
      Kept(Wake(t));
    }

    /** `_write_central_control_frame` has the control lock. */
    method OnLockGranted(t: nat)
      requires Valid() && LiveTask(Value(), t) && tasks[t].phase.AtLock?
      modifies this
      ensures Valid() && Value() == Next(old(Value()), LockGranted(t))
    {
      hide Conclude, Inv;
      var send := tasks[t].phase.send;
      if token == send.token && up && IsCurrent(send) {
        MoveTo(t, Queued(send));
      } else if IsCurrent(send) {
        MoveTo(t, Noting(send, true));
      } else {
        SendEnds(t, send, true, NotSent);
      }
      Kept(LockGranted(t));
    }

    /** The executor takes the operation from its queue. */
    method OnGattPopped(t: nat)
      requires Valid() && LiveTask(Value(), t) && tasks[t].phase.Queued? && token == tasks[t].phase.send.token
      modifies this
      ensures Valid() && Value() == Next(old(Value()), GattPopped(t))
    {
      hide Inv;
      MoveTo(t, Popped(tasks[t].phase.send));
      Kept(GattPopped(t));
    }

    /** The executor reaches the write of a coroutine, or the operation a cancelled one left behind. */
    method OnGattWrite(t: nat)
      requires Valid() && t < |tasks|
      requires tasks[t].phase.Popped? || (tasks[t].phase.Writing? && !tasks[t].phase.second)
               || (tasks[t].phase.Finished? && tasks[t].phase.orphan.Some?)
      modifies this
      ensures Valid() && Value() == Next(old(Value()), GattWrite(t))
    {
      NamesSomething(t);
      hide Conclude, SetPhase, Written, Inv;
      match tasks[t].phase {
        case Popped(send) =>
          if MayBeWritten(send) {
            PutOnWire(t, send, Writing(send, false));
          } else if !tasks[t].cancelled {
            SendEnds(t, send, false, Interrupted);
          }
        case Writing(send, _) =>
          if MayBeWritten(send) {
            PutOnWire(t, send, Writing(send, true));
          } else if tasks[t].cancelled {
            MoveTo(t, Writing(send, true));
          } else {
            SendEnds(t, send, false, Interrupted);
          }
        case Finished(orphan) =>
          var rest := orphan.value;
          if MayBeWritten(rest.send) {
            PutOnWire(t, rest.send, Finished(if rest.second then None else Some(rest.(second := true))));
          } else {
            MoveTo(t, Finished(None));
          }
      }
      Kept(GattWrite(t));
    }

    lemma NamesSomething(t: nat)
      requires Valid() && t < |tasks| && SendIn(tasks[t].phase).Some?
      ensures SendIn(tasks[t].phase).value.names != []
    {
      SendIsOk(Value(), t, None);
    }

    method OnWriteReturned(t: nat)
      requires Valid() && LiveTask(Value(), t) && tasks[t].phase.Writing?
      modifies this
      ensures Valid() && Value() == Next(old(Value()), GattReturned(t))
    {
      hide Inv;
      MoveTo(t, Returned(tasks[t].phase.send));
      Kept(GattReturned(t));
    }

    /** Both tries of the write have failed. */
    method OnWriteFailed(t: nat)
      requires Valid() && LiveTask(Value(), t) && tasks[t].phase.Writing? && tasks[t].phase.second
      modifies this
      ensures Valid() && Value() == Next(old(Value()), GattFailed(t))
    {
      hide Conclude, Inv;
      SendEnds(t, tasks[t].phase.send, false, NotSent);
      Kept(GattFailed(t));
    }

    /** The executor drops the operation: its connection token went stale. */
    method OnWriteCancelled(t: nat)
      requires Valid() && LiveTask(Value(), t) && (tasks[t].phase.Queued? || tasks[t].phase.Popped? || tasks[t].phase.Writing?)
      modifies this
      ensures Valid() && Value() == Next(old(Value()), GattCancelled(t))
    {
      hide Conclude, Inv;
      SendEnds(t, tasks[t].phase.send, false, Interrupted);
      Kept(GattCancelled(t));
    }

    /** The rest of `_send_online_record_ack` once the write has come back. */
    method OnSendResumed(t: nat)
      requires Valid() && LiveTask(Value(), t) && tasks[t].phase.Returned?
      modifies this
      ensures Valid() && Value() == Next(old(Value()), SendResumed(t))
    {
      hide Conclude, Inv;
      var send := tasks[t].phase.send;
      if IsCurrent(send) {
        MoveTo(t, Noting(send, false));
      } else {
        SendEnds(t, send, false, NotSent);
      }
      Kept(SendResumed(t));
    }

    /** The ACK is counted in the metadata, unless epoch or client moved on meanwhile. */
    method OnAckNoted(t: nat)
      requires Valid() && LiveTask(Value(), t) && tasks[t].phase.Noting?
      modifies this
      ensures Valid() && Value() == Next(old(Value()), NoteDone(t))
    {
      hide Conclude, Inv;
      var send, skipped := tasks[t].phase.send, tasks[t].phase.skipped;
      SendEnds(t, send, skipped, if epoch == send.epoch && client == send.client then Sent else Interrupted);
      Kept(NoteDone(t));
    }

    /** The `finally` of a cancelled coroutine. */
    method OnCancelled(t: nat)
      requires Valid() && t < |tasks| && tasks[t].cancelled && !Done(tasks[t])
      modifies this
      ensures Valid() && Value() == Next(old(Value()), CancelRuns(t))
    {
      hide Inv;
      MoveTo(t, Finished(Remainder(tasks[t].phase)));
      match tasks[t].kind {
        case Full => fullRef := None;
        case PartialLoop => partialRef := None;
        case _ =>
      }
      Kept(CancelRuns(t));
    }

    /** A PAUSE, or a draining fault, asks for what is pending. */
    method OnFlushRequested()
      requires Valid()
      modifies this
      ensures Valid() && Value() == Next(old(Value()), PartialRequested)
    {
      hide SchedulePartial, Inv;
      ScheduleOnlineSummaryPartialAck();
      Kept(PartialRequested);
    }

    // ----- faults and session changes -----

    method OnFault(metadata: bool)
      requires Valid()
      modifies this
      ensures Valid() && Value() == Next(old(Value()), if metadata then MetadataExhausted else OtherFault)
    {
      hide BeginFault, Inv;
      BeginOnlineFault(metadata);
      Kept(if metadata then MetadataExhausted else OtherFault);
    }

    /** The fault task has seen the terminal event of a session that is over. */
    method OnFaultSettled()
      requires Valid() && !active
      modifies this
      ensures Valid() && Value() == Next(old(Value()), FaultSettled)
    {
      hide Inv;
      fault := NoFault;
      Kept(FaultSettled);
    }

    /** START is refused by the device, or its final ACK does not come in time. */
    method OnStartFailed(refused: bool)
      requires Valid()
      modifies this
      ensures Valid() && Value() == Next(old(Value()), if refused then StartRefused else StartTimedOut)
    {
      hide Inv;
      active := false;
      if refused {
        session := None;
      }
      Kept(if refused then StartRefused else StartTimedOut);
    }

    method OnDeviceAbort()
      requires Valid()
      modifies this
      ensures Valid() && Value() == Next(old(Value()), DeviceAborted)
    {
      hide OnlineFailed, Inv;
      HandleOnlineError();
      Kept(DeviceAborted);
    }

    /** The START branch of `_process_online_event`. */
    method OnStart(newSession: nat, ackBatch: nat)
      requires Valid()
      modifies this
      ensures Valid() && Value() == Next(old(Value()), StartFrame(newSession, ackBatch))
    {
      hide Started, Inv;
      if worker == Idle && fault == NoFault {
        Restart(newSession, ackBatch);
      }
      Kept(StartFrame(newSession, ackBatch));
    }

    /** The END branch of `_process_online_event`, as far as summaries go. */
    method OnEnd()
      requires Valid()
      modifies this
      ensures Valid() && Value() == Next(old(Value()), EndFrame)
    {
      hide CancelSummaryTasks, Inv;
      if worker == Idle && fault != Closed {
        ClearPending();
        CancelOnlineSummaryAckTasks();
      }
      Kept(EndFrame);
    }

    /** `_safe_disconnect` up to its first await. */
    method OnDisconnectBegins()
      requires Valid()
      modifies this
      ensures Valid() && Value() == Next(old(Value()), DisconnectBegins)
    {
      hide Inv;
      BumpEpoch();
      CancelWorkerTask();
      Kept(DisconnectBegins);
    }

    /** `_clear_control_state`. */
    method OnClearControl()
      requires Valid()
      modifies this
      ensures Valid() && Value() == Next(old(Value()), ClearControl)
    {
      hide ControlCleared, WorkerCancelled, Inv;
      CancelWorkerTask();
      ClearControlState();
      Kept(ClearControl);
    }
  }
}
