/** What holds in every state a run can reach, whatever the scheduling. */
module OnlineAckWired {
  import opened OnlineAckSafety
  import opened OnlineAckSpec
  import opened Wrappers

  /** The captured client and token of a send are the present ones or earlier ones. */
  predicate InTime(s: State, p: Phase) {
    SendIn(p).Some? ==> SendIn(p).value.client <= s.client && SendIn(p).value.token <= s.token
  }

  predicate FullRefOk(s: State) {
    s.fullRef.Some? ==> s.fullRef.value < |s.tasks| && s.tasks[s.fullRef.value].kind == Full
  }

  predicate Wired(s: State) {
    && FullRefOk(s) && (s.active ==> s.session.Some?) && s.batch > 0
    && forall t :: 0 <= t < |s.tasks| ==> InTime(s, s.tasks[t].phase)
  }

  /** The invariant of the state machine. */
  predicate Inv(s: State) {
    Sound(s, None) && Wired(s)
  }

  /** Fields change, references are given up, and coroutines are at most cancelled. */
  predicate OnlyCancels(s: State, r: State) {
    && |r.tasks| == |s.tasks| && (r.fullRef == None || r.fullRef == s.fullRef)
    && (r.active ==> r.session.Some?) && r.batch > 0 && s.client <= r.client && s.token <= r.token
    && forall t :: 0 <= t < |s.tasks| ==>
         r.tasks[t].kind == s.tasks[t].kind && r.tasks[t].phase == s.tasks[t].phase
  }

  lemma WiredLater(s: State, r: State)
    requires Wired(s) && OnlyCancels(s, r)
    ensures Wired(r)
  {
    assert forall t :: 0 <= t < |s.tasks| ==> InTime(s, s.tasks[t].phase);
  }

  lemma WiredSetPhase(s: State, t: nat, phase: Phase)
    requires Wired(s) && t < |s.tasks| && InTime(s, phase)
    ensures Wired(SetPhase(s, t, phase)) && Wired(SetPhase(s, t, phase).(fullRef := None))
  {
  }

  lemma WiredSpawn(s: State, kind: TaskKind)
    requires Wired(s)
    ensures Wired(Spawn(s, kind)) && (kind == Full ==> Wired(Spawn(s, kind).(fullRef := Some(|s.tasks|))))
  {
  }

  lemma WiredSchedule(s: State)
    requires Wired(s)
    ensures Wired(ScheduleFull(s)) && Wired(SchedulePartial(s))
  {
    WiredSpawn(s, Full);
    WiredSpawn(s, PartialOnce);
    WiredSpawn(s, PartialLoop);
    var looping := Spawn(s, PartialLoop);
    assert OnlyCancels(looping, looping.(partialRef := Some(|s.tasks|)));
    WiredLater(looping, looping.(partialRef := Some(|s.tasks|)));
    hide Wired, Spawn;
  }

  lemma PhaseOnly(s: State, t: nat)
    requires t < |s.tasks|
    ensures var r := SetPhase(s, t, Finished(None)); r == s.(tasks := r.tasks)
  {
  }

  lemma WiredConclude(s: State, t: nat, send: Send, skipped: bool, outcome: Outcome)
    requires Wired(s) && t < |s.tasks|
    ensures Wired(Conclude(s, t, send, skipped, outcome))
  {
    assert (s.active ==> s.session.Some?) && s.batch > 0;
    hide ScheduleFull, SetPhase, Wired;
    WiredSetPhase(s, t, Finished(None));
    WiredSetPhase(s, t, Sleeping);
    var n := if |send.names| <= |s.pending| then |send.names| else |s.pending|;
    var ended := SetPhase(s, t, Finished(None));
    var freed := ended.(
      pending := s.pending[n..], fullRef := None, releases := s.releases + [Release(t, send.names, skipped)]);
    assert ended == s.(tasks := ended.tasks) by { PhaseOnly(s, t); }
    WiredLater(ended, ended.(partialRef := None));
    WiredLater(ended, ended.(worker := Idle));
    WiredLater(ended, freed);
    WiredSchedule(freed);
  }

  lemma WiredBeginSend(s: State, t: nat, names: seq<Saved>)
    requires Wired(s) && t < |s.tasks| && names != []
    ensures Wired(BeginSend(s, t, names))
  {
    hide Conclude, SetPhase;
    WiredConclude(s, t, Send(names, s.client, s.token, s.epoch, 0, s.batch), false, NotSent);
    if s.session.Some? {
      WiredSetPhase(s, t, AtLock(Send(names, s.client, s.token, s.epoch, s.session.value, s.batch)));
    }
  }

  lemma WiredWoken(s: State, t: nat)
    requires Wired(s) && t < |s.tasks|
    ensures Wired(Woken(s, t))
  {
    hide BeginSend;
    WiredSetPhase(s, t, Finished(None));
    if s.pending != [] {
      WiredBeginSend(s, t, s.pending);
      WiredBeginSend(s, t, s.pending[..if s.batch <= |s.pending| then s.batch else |s.pending|]);
    }
  }

  lemma WiredTryWrite(s: State, t: nat)
    requires Wired(s) && t < |s.tasks|
    ensures Wired(TryWrite(s, t))
  {
    hide Conclude, SetPhase, Written;
    WiredSetPhase(s, t, Finished(None));
    var p := s.tasks[t].phase;
    if SendIn(p).Some? && SendIn(p).value.names != [] {
      var send := SendIn(p).value;
      assert InTime(s, p);
      var r := Written(s, t, send);
      assert r == s.(acks := r.acks) by { WrittenWrites(s, t, send); }
      WiredLater(s, r);
      WiredConclude(s, t, send, false, Interrupted);
      WiredSetPhase(s, t, Writing(send, true));
      WiredSetPhase(r, t, Writing(send, true));
      WiredSetPhase(r, t, Writing(send, false));
      WiredSetPhase(r, t, Finished(None));
      WiredSetPhase(r, t, Finished(Some(Orphan(send, true))));
    }
  }

  lemma WrittenWrites(s: State, t: nat, send: Send)
    requires send.names != []
    ensures Written(s, t, send) == s.(acks := Written(s, t, send).acks)
  {
  }

  lemma WiredCancelRuns(s: State, t: nat)
    requires Wired(s) && t < |s.tasks|
    ensures Wired(CancelledTaskRuns(s, t))
  {
    hide Wired;
    var p := s.tasks[t].phase;
    assert InTime(s, p) && (s.active ==> s.session.Some?) && s.batch > 0 by { PhaseInTime(s, t); }
    WiredSetPhase(s, t, Finished(Remainder(p)));
    var ended := SetPhase(s, t, Finished(Remainder(p)));
    WiredLater(ended, ended.(partialRef := None));
  }

  lemma PhaseInTime(s: State, t: nat)
    requires Wired(s) && t < |s.tasks|
    ensures InTime(s, s.tasks[t].phase) && (s.active ==> s.session.Some?) && s.batch > 0
  {
  }

  lemma WiredTaskEvent(s: State, e: Event)
    requires Wired(s) && OfTask(e)
    ensures Wired(Next(s, e))
  {
    hide Conclude, TryWrite, Woken, SetPhase, CancelledTaskRuns;
    var t := e.task;
    if t < |s.tasks| {
      WiredWoken(s, t);
      WiredTryWrite(s, t);
      WiredCancelRuns(s, t);
      var p := s.tasks[t].phase;
      if SendIn(p).Some? {
        var send := SendIn(p).value;
        assert InTime(s, p);
        WiredSetPhase(s, t, Queued(send));
        WiredSetPhase(s, t, Popped(send));
        WiredSetPhase(s, t, Returned(send));
        WiredSetPhase(s, t, Noting(send, true));
        WiredSetPhase(s, t, Noting(send, false));
        WiredConclude(s, t, send, true, NotSent);
        WiredConclude(s, t, send, false, NotSent);
        WiredConclude(s, t, send, false, Interrupted);
        WiredConclude(s, t, send, true, Interrupted);
        WiredConclude(s, t, send, true, Sent);
        WiredConclude(s, t, send, false, Sent);
      }
    }
  }

  lemma WiredFailed(s: State)
    requires Wired(s)
    ensures Wired(OnlineFailed(s))
  {
    WiredLater(s, OnlineFailed(s));
  }

  lemma WiredFault(s: State, metadata: bool)
    requires Wired(s)
    ensures Wired(BeginFault(s, metadata))
  {
    assert (s.active ==> s.session.Some?) && s.batch > 0;
    hide OnlineFailed, Wired;
    WiredLater(s, s.(fault := Closed));
    WiredLater(s, s.(fault := Draining));
    WiredFailed(s.(fault := Closed));
  }

  lemma WiredAfterSave(s: State, r: Saved)
    requires Wired(s)
    ensures Wired(AfterSave(s, r))
  {
    assert (s.active ==> s.session.Some?) && s.batch > 0;
    hide OnlineFailed, BeginSend, ScheduleFull, Spawn, Wired;
    var queued := s.(worker := Idle, pending := s.pending + [r]);
    WiredLater(s, s.(worker := Idle));
    WiredFailed(s.(worker := Idle));
    WiredLater(s, queued);
    WiredSchedule(queued);
    WiredSpawn(s, Direct);
    SpawnKeeps(s, Direct);
    var direct := Spawn(s, Direct).(worker := Acking(|s.tasks|));
    WiredLater(Spawn(s, Direct), direct);
    WiredBeginSend(direct, |s.tasks|, [r]);
  }

  lemma WiredSaveCompleted(s: State, ok: bool)
    requires Wired(s) && s.worker.Saving?
    ensures Wired(SaveCompleted(s, ok))
  {
    assert (s.active ==> s.session.Some?) && s.batch > 0;
    hide BeginFault, AfterSave, Wired;
    var r := Saved(s.worker.id, s.worker.kind, s.epoch, s.session);
    WiredLater(s, s.(worker := Idle));
    WiredFault(s.(worker := Idle), false);
    WiredLater(s, s.(saved := s.saved + [r]));
    WiredAfterSave(s.(saved := s.saved + [r]), r);
  }

  lemma WiredWorkerCancelled(s: State)
    requires Wired(s)
    ensures OnlyCancels(s, WorkerCancelled(s))
  {
  }

  lemma WiredOther(s: State, e: Event)
    requires Wired(s) && !OfTask(e) && !e.SaveDone?
    ensures Wired(Next(s, e))
  {
    hide BeginFault, SchedulePartial, WorkerCancelled, OnlineFailed, Started, ControlCleared;
    WiredFault(s, true);
    WiredFault(s, false);
    WiredFailed(s);
    WiredSchedule(s);
    WiredWorkerCancelled(s);
    WiredLater(s, WorkerCancelled(s));
    WiredCleared(WorkerCancelled(s));
    match e {
      case StartFrame(session, batch) => WiredStarted(s, session, batch);
      case EndFrame => WiredEmptied(s);
      case DisconnectBegins => WiredLater(s, Next(s, e));
      case _ =>
    }
  }

  lemma WiredEmptied(s: State)
    requires Wired(s)
    ensures Wired(CancelSummaryTasks(EmptyPending(s)))
  {
    WiredLater(s, CancelSummaryTasks(EmptyPending(s)));
  }

  lemma WiredStarted(s: State, session: nat, batch: nat)
    requires Wired(s)
    ensures Wired(Started(s, session, batch))
  {
    WiredLater(s, Started(s, session, batch));
  }

  lemma WiredCleared(s: State)
    requires Wired(s)
    ensures Wired(ControlCleared(s))
  {
    WiredLater(s, ControlCleared(s));
  }

  lemma StepWired(s: State, e: Event)
    requires Wired(s)
    ensures Wired(Next(s, e))
  {
    hide Wired, SaveCompleted;
    if OfTask(e) {
      WiredTaskEvent(s, e);
    } else if e.SaveDone? {
      if s.worker.Saving? {
        WiredSaveCompleted(s, e.ok);
      }
    } else {
      WiredOther(s, e);
    }
  }

  lemma {:induction false} RunWired(es: seq<Event>)
    ensures Inv(Run(Initial(), es))
    decreases |es|
  {
    hide Next, Sound, Wired;
    RunSound(es, None);
    if es == [] {
      InitialWired();
    } else {
      RunWired(es[..|es| - 1]);
      StepWired(Run(Initial(), es[..|es| - 1]), es[|es| - 1]);
    }
  }

  lemma InitialWired()
    ensures Wired(Initial())
  {
  }
}
