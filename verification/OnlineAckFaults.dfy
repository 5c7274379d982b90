/** When a failed save really stops the ACKs, and when it does not. */
module OnlineAckFaults {
  import opened OnlineAckSafety
  import opened OnlineAckSpec
  import opened OnlineAckWired
  import opened Wrappers

  /** A send on its way that can still be written without a new START. */
  predicate MayWrite(s: State, task: Task) {
    match task.phase
    case AtLock(send) => !task.cancelled && Writable(s, send)
    case Queued(send) => !task.cancelled && Writable(s, send)
    case Popped(send) => Writable(s, send)
    case Writing(send, second) => !second && Writable(s, send)
    case Finished(orphan) => orphan.Some? && Writable(s, orphan.value.send)
    case _ => false
  }

  /** No send is left to write, and in an active session nothing is left to start one. */
  predicate Muted(s: State) {
    && Wired(s)
    && (forall t :: 0 <= t < |s.tasks| ==> !MayWrite(s, s.tasks[t]))
    && (s.active ==> s.fault == Closed && s.pending == [] && !s.worker.Saving?)
  }

  /** `r` is still muted and nothing was written on the way from `s`. */
  predicate Quiet(s: State, r: State) {
    Muted(r) && r.acks == s.acks
  }

  predicate TasksAge(before: seq<Task>, after: seq<Task>) {
    && |after| == |before|
    && forall t :: 0 <= t < |before| ==>
         after[t].phase == before[t].phase && (before[t].cancelled ==> after[t].cancelled)
  }

  /** Whatever changes, no send becomes current again and no coroutine is revived. */
  predicate OnlyAges(s: State, r: State) {
    && TasksAge(s.tasks, r.tasks) && s.client <= r.client && s.token <= r.token && s.epoch <= r.epoch
    && (r.session == s.session || r.session == None)
    && (r.active ==> s.active && r.fault == Closed && r.pending == [] && !r.worker.Saving?)
  }

  /** The epochs of the sends are the present one or earlier ones. */
  predicate EpochsPast(s: State) {
    forall t :: 0 <= t < |s.tasks| && SendIn(s.tasks[t].phase).Some? ==>
      SendIn(s.tasks[t].phase).value.epoch <= s.epoch
  }

  lemma SoundEpochs(s: State)
    requires Sound(s, None)
    ensures EpochsPast(s)
  {
    forall t | 0 <= t < |s.tasks| && SendIn(s.tasks[t].phase).Some?
      ensures SendIn(s.tasks[t].phase).value.epoch <= s.epoch
    {
      SendIsOk(s, t, None);
    }
  }

  lemma MutedAges(s: State, r: State)
    requires Muted(s) && EpochsPast(s) && OnlyAges(s, r) && Wired(r)
    ensures Muted(r)
  {
    forall t | 0 <= t < |r.tasks| ensures !MayWrite(r, r.tasks[t]) {
      assert !MayWrite(s, s.tasks[t]) && InTime(s, s.tasks[t].phase);
    }
  }

  lemma MutedMove(s: State, t: nat, phase: Phase)
    requires Muted(s) && t < |s.tasks| && InTime(s, phase) && !MayWrite(s, s.tasks[t].(phase := phase))
    ensures Quiet(s, SetPhase(s, t, phase)) && Quiet(s, SetPhase(s, t, phase).(fullRef := None))
    ensures Quiet(s, SetPhase(s, t, phase).(partialRef := None))
  {
    WiredSetPhase(s, t, phase);
  }

  lemma MutedSpawn(s: State, kind: TaskKind)
    requires Muted(s)
    ensures Quiet(s, Spawn(s, kind)) && (kind == Full ==> Quiet(s, Spawn(s, kind).(fullRef := Some(|s.tasks|))))
    ensures Quiet(s, Spawn(s, kind).(partialRef := Some(|s.tasks|)))
  {
    WiredSpawn(s, kind);
  }

  lemma MutedSchedule(s: State)
    requires Muted(s)
    ensures Quiet(s, ScheduleFull(s)) && Quiet(s, SchedulePartial(s))
  {
    hide Spawn, Muted;
    MutedSpawn(s, Full);
    MutedSpawn(s, PartialOnce);
    MutedSpawn(s, PartialLoop);
  }

  lemma MutedFields(s: State, r: State)
    requires Muted(s) && r == s.(worker := r.worker, pending := r.pending, fullRef := r.fullRef,
                                releases := r.releases, saved := r.saved)
    requires r.worker == s.worker || !r.worker.Saving?
    requires r.pending == [] || r.pending == s.pending || !s.active
    requires r.fullRef == s.fullRef || r.fullRef == None
    ensures Muted(r)
  {
    WiredLater(s, r);
  }

  lemma MutedConclude(s: State, t: nat, send: Send, skipped: bool, outcome: Outcome)
    requires Muted(s) && t < |s.tasks|
    ensures Quiet(s, Conclude(s, t, send, skipped, outcome))
  {
    var n := if |send.names| <= |s.pending| then |send.names| else |s.pending|;
    var ended := SetPhase(s, t, Finished(None));
    var freed := ended.(
      pending := s.pending[n..], fullRef := None, releases := s.releases + [Release(t, send.names, skipped)]);
    assert !s.active || s.pending[n..] == [];
    MutedMove(s, t, Finished(None));
    MutedMove(s, t, Sleeping);
    assert ended == s.(tasks := ended.tasks) by { PhaseOnly(s, t); }
    hide ScheduleFull, SetPhase, Muted;
    MutedFields(ended, ended.(worker := Idle));
    MutedFields(ended, freed);
    MutedSchedule(freed);
  }

  lemma MutedBeginSend(s: State, t: nat, names: seq<Saved>)
    requires Muted(s) && t < |s.tasks| && names != [] && !s.active
    ensures Quiet(s, BeginSend(s, t, names))
  {
    hide Conclude;
    MutedConclude(s, t, Send(names, s.client, s.token, s.epoch, 0, s.batch), false, NotSent);
  }

  lemma MutedWoken(s: State, t: nat)
    requires Muted(s) && t < |s.tasks|
    ensures Quiet(s, Woken(s, t))
  {
    hide BeginSend;
    MutedMove(s, t, Finished(None));
    if s.pending != [] {
      MutedBeginSend(s, t, s.pending);
      var n := if s.batch <= |s.pending| then s.batch else |s.pending|;
      if n > 0 {
        MutedBeginSend(s, t, s.pending[..n]);
      }
    }
  }

  lemma MutedTryWrite(s: State, t: nat)
    requires Muted(s) && t < |s.tasks|
    ensures Quiet(s, TryWrite(s, t))
  {
    assert !MayWrite(s, s.tasks[t]) && InTime(s, s.tasks[t].phase);
    MutedMove(s, t, Finished(None));
    hide Conclude, Written, SetPhase, Muted;
    var p := s.tasks[t].phase;
    if SendIn(p).Some? {
      var send := SendIn(p).value;
      MutedConclude(s, t, send, false, Interrupted);
      MutedMove(s, t, Writing(send, true));
    }
  }

  lemma MutedLock(s: State, t: nat)
    requires Muted(s) && LiveTask(s, t) && s.tasks[t].phase.AtLock?
    ensures Quiet(s, LockTaken(s, t, s.tasks[t].phase.send))
  {
    assert !MayWrite(s, s.tasks[t]) && InTime(s, s.tasks[t].phase);
    hide Conclude, SetPhase, Muted;
    var send := s.tasks[t].phase.send;
    MutedMove(s, t, Noting(send, true));
    MutedConclude(s, t, send, true, NotSent);
  }

  lemma MutedCancelRuns(s: State, t: nat)
    requires Muted(s) && t < |s.tasks| && s.tasks[t].cancelled && !Done(s.tasks[t])
    ensures Quiet(s, CancelledTaskRuns(s, t))
  {
    assert !MayWrite(s, s.tasks[t]) && InTime(s, s.tasks[t].phase);
    hide SetPhase, Muted;
    var p := s.tasks[t].phase;
    MutedMove(s, t, Finished(Remainder(p)));
  }

  lemma MutedTaskEvent(s: State, e: Event)
    requires Muted(s) && OfTask(e)
    ensures Quiet(s, Next(s, e))
  {
    hide Conclude, TryWrite, Woken, SetPhase, LockTaken, CancelledTaskRuns, Muted;
    var t := e.task;
    if t < |s.tasks| {
      MutedWoken(s, t);
      MutedTryWrite(s, t);
      var p := s.tasks[t].phase;
      if e.CancelRuns? && s.tasks[t].cancelled && !Done(s.tasks[t]) {
        MutedCancelRuns(s, t);
      } else if LiveTask(s, t) && p.AtLock? {
        MutedLock(s, t);
      } else if LiveTask(s, t) && p.Queued? {
        MutedQueued(s, t);
        MutedConclude(s, t, p.send, false, Interrupted);
      } else if SendIn(p).Some? {
        var send := SendIn(p).value;
        assert InTime(s, p) by { MutedInTime(s, t); }
        MutedMove(s, t, Returned(send));
        MutedMove(s, t, Noting(send, false));
        MutedConclude(s, t, send, false, NotSent);
        MutedConclude(s, t, send, false, Interrupted);
        MutedConclude(s, t, send, p.Noting? && p.skipped, Sent);
        MutedConclude(s, t, send, p.Noting? && p.skipped, Interrupted);
      }
    }
  }

  lemma MutedQueued(s: State, t: nat)
    requires Muted(s) && LiveTask(s, t) && s.tasks[t].phase.Queued?
    ensures !Writable(s, s.tasks[t].phase.send)
            && Quiet(s, SetPhase(s, t, Popped(s.tasks[t].phase.send)))
  {
    assert !MayWrite(s, s.tasks[t]) && InTime(s, s.tasks[t].phase);
    hide SetPhase, Muted;
    MutedMove(s, t, Popped(s.tasks[t].phase.send));
  }

  lemma MutedInTime(s: State, t: nat)
    requires Muted(s) && t < |s.tasks|
    ensures InTime(s, s.tasks[t].phase)
  {
  }

  lemma MutedAfterSave(s: State, r: Saved)
    requires Muted(s) && !s.active && EpochsPast(s)
    ensures Quiet(s, AfterSave(s, r))
  {
    hide BeginSend, OnlineFailed, ScheduleFull, Spawn, Muted;
    var queued := s.(worker := Idle, pending := s.pending + [r]);
    MutedFields(s, s.(worker := Idle));
    MutedFailed(s.(worker := Idle));
    MutedFields(s, queued);
    MutedSchedule(queued);
    MutedSpawn(s, Direct);
    SpawnKeeps(s, Direct);
    var direct := Spawn(s, Direct).(worker := Acking(|s.tasks|));
    MutedFields(Spawn(s, Direct), direct);
    MutedBeginSend(direct, |s.tasks|, [r]);
  }

  /** A step that starts no coroutine and moves none on. */
  lemma MutedStep(s: State, e: Event)
    requires Muted(s) && EpochsPast(s) && OnlyAges(s, Next(s, e)) && Next(s, e).acks == s.acks
    ensures Quiet(s, Next(s, e))
  {
    hide Next, Muted;
    assert Wired(s) by { MutedWired(s); }
    StepWired(s, e);
    MutedAges(s, Next(s, e));
  }

  lemma MutedWired(s: State)
    requires Muted(s)
    ensures Wired(s)
  {
  }

  lemma MutedFailed(s: State)
    requires Muted(s) && EpochsPast(s)
    ensures Quiet(s, OnlineFailed(s))
  {
    MutedStep(s, DeviceAborted);
  }

  lemma MutedSaveCompleted(s: State, ok: bool)
    requires Muted(s) && EpochsPast(s) && s.worker.Saving?
    ensures Quiet(s, SaveCompleted(s, ok))
  {
    assert !s.active && s.worker != Idle;
    var idle := s.(worker := Idle);
    var kept := s.(saved := s.saved + [Saved(s.worker.id, s.worker.kind, s.epoch, s.session)]);
    MutedFields(s, idle);
    MutedFields(s, kept);
    MutedFault(idle);
    hide AfterSave, BeginFault, Muted;
    MutedAfterSave(kept, kept.saved[|s.saved|]);
  }

  lemma MutedFault(s: State)
    requires Muted(s) && EpochsPast(s)
    ensures Quiet(s, BeginFault(s, false))
  {
    MutedStep(s, OtherFault);
  }

  lemma MutedOther(s: State, e: Event)
    requires Muted(s) && EpochsPast(s) && !OfTask(e) && !e.StartFrame? && !e.SaveDone?
    ensures Quiet(s, Next(s, e))
  {
    if e.PartialRequested? {
      MutedSchedule(s);
    } else if e.MetadataExhausted? || e.OtherFault? || e.FaultSettled? || e.DeviceAborted? || e.Deliver? {
      MutedFaultEvent(s, e);
    } else if e.EndFrame? || e.DisconnectBegins? || e.ClearControl? {
      MutedSessionEvent(s, e);
    } else {
      MutedLinkEvent(s, e);
    }
  }

  lemma MutedFaultEvent(s: State, e: Event)
    requires Muted(s) && EpochsPast(s)
    requires e.MetadataExhausted? || e.OtherFault? || e.FaultSettled? || e.DeviceAborted? || e.Deliver?
    ensures Quiet(s, Next(s, e))
  {
    MutedStep(s, e);
  }

  lemma CancelAges(tasks: seq<Task>, one: Option<nat>, other: Option<nat>)
    ensures TasksAge(tasks, CancelTask(CancelTask(tasks, one), other))
  {
  }

  lemma WorkerAges(s: State)
    ensures TasksAge(s.tasks, WorkerCancelled(s).tasks)
    ensures WorkerCancelled(s) == s.(worker := Idle, tasks := WorkerCancelled(s).tasks)
  {
  }

  lemma MutedSessionEvent(s: State, e: Event)
    requires Muted(s) && EpochsPast(s)
    requires e.EndFrame? || e.DisconnectBegins? || e.ClearControl?
    ensures Quiet(s, Next(s, e))
  {
    assert OnlyAges(s, Next(s, e)) && Next(s, e).acks == s.acks by {
      CancelAges(s.tasks, s.fullRef, s.partialRef);
      CancelAges(WorkerCancelled(s).tasks, s.fullRef, s.partialRef);
      WorkerAges(s);
      hide Wired, MayWrite, EpochsPast, CancelTask, WorkerCancelled;
    }
    hide Next, Muted, OnlyAges, EpochsPast;
    MutedStep(s, e);
  }

  lemma MutedLinkEvent(s: State, e: Event)
    requires Muted(s) && EpochsPast(s)
    requires e.CancelWorker? || e.StartRefused? || e.StartTimedOut? || e.LinkChanged? || e.ClientReplaced?
             || e.TokenMoved?
    ensures Quiet(s, Next(s, e))
  {
    assert OnlyAges(s, Next(s, e)) && Next(s, e).acks == s.acks by {
      hide Wired, MayWrite, EpochsPast;
    }
    hide Next, Muted, OnlyAges, EpochsPast;
    MutedStep(s, e);
  }

  lemma StepMuted(s: State, e: Event)
    requires Muted(s) && Sound(s, None) && !e.StartFrame?
    ensures Quiet(s, Next(s, e)) && Sound(Next(s, e), None)
  {
    StepSound(s, e, None);
    SoundEpochs(s);
    hide SaveCompleted, Muted, Sound, EpochsPast;
    if OfTask(e) {
      MutedTaskEvent(s, e);
    } else if e.SaveDone? {
      if s.worker.Saving? {
        MutedSaveCompleted(s, e.ok);
      }
    } else {
      MutedOther(s, e);
    }
  }

  predicate NoStart(es: seq<Event>) {
    forall i :: 0 <= i < |es| ==> !es[i].StartFrame?
  }

  /** Once muted, nothing is written until the next START, in any interleaving. */
  lemma {:induction false} RunMuted(s: State, es: seq<Event>)
    requires Muted(s) && Sound(s, None) && NoStart(es)
    ensures Quiet(s, Run(s, es)) && Sound(Run(s, es), None)
    decreases |es|
  {
    hide Next, Muted, Sound;
    if es != [] {
      var init := es[..|es| - 1];
      RunMuted(s, init);
      StepMuted(Run(s, init), es[|es| - 1]);
    }
  }
}
