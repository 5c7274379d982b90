/** What every interleaving of saving and acknowledging keeps. */
module OnlineAckSafety {
  import opened OnlineAckSpec
  import opened Wrappers

  // ----- only saved records are named -----

  function SendIn(p: Phase): Option<Send> {
    match p
    case Sleeping => None
    case Finished(orphan) => if orphan.Some? then Some(orphan.value.send) else None
    case AtLock(send) => Some(send)
    case Queued(send) => Some(send)
    case Popped(send) => Some(send)
    case Writing(send, _) => Some(send)
    case Returned(send) => Some(send)
    case Noting(send, _) => Some(send)
  }

  /** All were saved in `session`, and in `epoch` itself or at least not after it. */
  predicate AllSaved(saved: seq<Saved>, names: seq<Saved>, epoch: nat, session: Option<nat>, exact: bool) {
    forall i :: 0 <= i < |names| ==>
      names[i] in saved && names[i].epoch <= epoch && (exact ==> names[i].epoch == epoch)
      && (session.Some? ==> names[i].session == session)
  }

  predicate SendOk(saved: seq<Saved>, epoch: nat, send: Send, exact: bool) {
    send.names != [] && send.epoch <= epoch && AllSaved(saved, send.names, send.epoch, Some(send.session), exact)
  }

  /** An ACK on the wire names the last of `count` records, all saved in its session before it was written. */
  predicate AckOk(saved: seq<Saved>, a: Ack, exact: bool) {
    && a.savedBefore <= |saved| && a.count == |a.names| > 0 && a.recordId == a.names[a.count - 1].id
    && AllSaved(saved[..a.savedBefore], a.names, a.epoch, Some(a.session), exact)
  }

  /** A send of the present epoch names records of exactly that epoch when `strict` asks for it. */
  predicate SendFits(saved: seq<Saved>, epoch: nat, send: Send, strict: Option<nat>) {
    SendOk(saved, epoch, send, strict.Some? && send.epoch == epoch)
  }

  predicate TasksOk(saved: seq<Saved>, epoch: nat, tasks: seq<Task>, strict: Option<nat>) {
    forall t :: 0 <= t < |tasks| && SendIn(tasks[t].phase).Some? ==>
      SendFits(saved, epoch, SendIn(tasks[t].phase).value, strict)
  }

  predicate AcksOk(saved: seq<Saved>, acks: seq<Ack>, strict: Option<nat>) {
    forall k :: 0 <= k < |acks| ==> AckOk(saved, acks[k], strict.Some? && strict.value <= k)
  }

  /**
   * What is pending, being sent and written was saved before. `Some(n)` says more: what is pending,
   * the sends of the present epoch and every ACK from the n-th on name records of exactly their epoch.
   */
  predicate Sound(s: State, strict: Option<nat>) {
    && AllSaved(s.saved, s.pending, s.epoch, s.session, strict.Some?)
    && TasksOk(s.saved, s.epoch, s.tasks, strict) && AcksOk(s.saved, s.acks, strict)
  }

  lemma SoundSetPhase(s: State, t: nat, phase: Phase, strict: Option<nat>)
    requires Sound(s, strict) && t < |s.tasks|
    requires SendIn(phase).Some? ==> SendFits(s.saved, s.epoch, SendIn(phase).value, strict)
    ensures Sound(SetPhase(s, t, phase), strict)
  {
  }

  lemma SoundSpawn(s: State, kind: TaskKind, strict: Option<nat>)
    requires Sound(s, strict)
    ensures Sound(Spawn(s, kind), strict)
  {
  }

  lemma SoundSchedule(s: State, strict: Option<nat>)
    requires Sound(s, strict)
    ensures Sound(ScheduleFull(s), strict) && Sound(SchedulePartial(s), strict)
  {
    hide Spawn, Sound;
    SoundSpawn(s, Full, strict);
    SoundSpawn(s, PartialOnce, strict);
    SoundSpawn(s, PartialLoop, strict);
    SpawnKeeps(s, Full);
    SpawnKeeps(s, PartialLoop);
    SoundLater(Spawn(s, Full), Spawn(s, Full).(fullRef := Some(|s.tasks|)), strict);
    SoundLater(Spawn(s, PartialLoop), Spawn(s, PartialLoop).(partialRef := Some(|s.tasks|)), strict);
  }

  lemma SpawnKeeps(s: State, kind: TaskKind)
    ensures Spawn(s, kind) == s.(tasks := Spawn(s, kind).tasks) && |Spawn(s, kind).tasks| == |s.tasks| + 1
  {
  }

  lemma SoundConclude(s: State, t: nat, send: Send, skipped: bool, outcome: Outcome, strict: Option<nat>)
    requires Sound(s, strict) && t < |s.tasks|
    ensures Sound(Conclude(s, t, send, skipped, outcome), strict)
  {
    SoundSetPhase(s, t, Finished(None), strict);
    SoundSetPhase(s, t, Sleeping, strict);
    if s.tasks[t].kind == Full && outcome == Sent {
      var n := if |send.names| <= |s.pending| then |send.names| else |s.pending|;
      var freed := SetPhase(s, t, Finished(None)).(
        pending := s.pending[n..], fullRef := None, releases := s.releases + [Release(t, send.names, skipped)]);
      assert Sound(freed, strict);
      SoundSchedule(freed, strict);
    }
  }

  lemma SoundBeginSend(s: State, t: nat, names: seq<Saved>, strict: Option<nat>)
    requires Sound(s, strict) && t < |s.tasks| && names != [] && AllSaved(s.saved, names, s.epoch, s.session, strict.Some?)
    ensures Sound(BeginSend(s, t, names), strict)
  {
    hide Conclude, SetPhase;
    if !s.active || s.session == None || !s.up {
      SoundConclude(s, t, Send(names, s.client, s.token, s.epoch, 0, s.batch), false, NotSent, strict);
    } else {
      SoundSetPhase(s, t, AtLock(Send(names, s.client, s.token, s.epoch, s.session.value, s.batch)), strict);
    }
  }

  lemma SoundWoken(s: State, t: nat, strict: Option<nat>)
    requires Sound(s, strict) && t < |s.tasks|
    ensures Sound(Woken(s, t), strict)
  {
    hide BeginSend;
    SoundSetPhase(s, t, Finished(None), strict);
    var n := if s.batch <= |s.pending| then s.batch else |s.pending|;
    if s.pending != [] {
      SoundBeginSend(s, t, s.pending, strict);
      if n > 0 {
        SoundBeginSend(s, t, s.pending[..n], strict);
      }
    }
  }

  lemma SoundWritten(s: State, t: nat, send: Send, strict: Option<nat>)
    requires Sound(s, strict) && send.epoch == s.epoch && SendFits(s.saved, s.epoch, send, strict)
    ensures Sound(Written(s, t, send), strict)
  {
    assert s.saved[..|s.saved|] == s.saved;
  }

  lemma SoundTryWrite(s: State, t: nat, strict: Option<nat>)
    requires Sound(s, strict) && t < |s.tasks|
    ensures Sound(TryWrite(s, t), strict)
  {
    hide Conclude, SetPhase, Written, AllSaved, AcksOk;
    var p := s.tasks[t].phase;
    SoundSetPhase(s, t, Finished(None), strict);
    if SendIn(p).Some? {
      var send := SendIn(p).value;
      SoundConclude(s, t, send, false, Interrupted, strict);
      SoundSetPhase(s, t, Writing(send, true), strict);
      if Current(s, send) {
        SoundWritten(s, t, send, strict);
        WrittenKeepsTasks(s, t, send);
        SoundSetPhase(Written(s, t, send), t, Writing(send, false), strict);
        SoundSetPhase(Written(s, t, send), t, Writing(send, true), strict);
        SoundSetPhase(Written(s, t, send), t, Finished(None), strict);
        SoundSetPhase(Written(s, t, send), t, Finished(Some(Orphan(send, true))), strict);
      }
    }
  }

  lemma WrittenKeepsTasks(s: State, t: nat, send: Send)
    requires send.names != []
    ensures Written(s, t, send).tasks == s.tasks && Written(s, t, send).saved == s.saved
    ensures Written(s, t, send).epoch == s.epoch
  {
  }

  lemma SoundCancelTasks(s: State, strict: Option<nat>)
    requires Sound(s, strict)
    ensures Sound(CancelSummaryTasks(s), strict) && Sound(EmptyPending(s), strict)
  {
  }

  /** The state with the pending list gone: epoch, session and the rest may move on. */
  lemma SoundLater(s: State, r: State, strict: Option<nat>)
    requires Sound(s, strict) && r.saved == s.saved && r.acks == s.acks && r.tasks == s.tasks && s.epoch <= r.epoch
    requires strict.Some? && r.pending != [] ==> r.epoch == s.epoch
    requires r.pending == [] || (r.pending == s.pending && (r.session == s.session || r.session == None))
    ensures Sound(r, strict)
  {
  }

  lemma SoundFailed(s: State, strict: Option<nat>)
    requires Sound(s, strict)
    ensures Sound(OnlineFailed(s), strict)
  {
    var quiet := s.(active := false);
    SoundLater(s, quiet, strict);
    SoundCancelTasks(quiet, strict);
    SoundCancelTasks(EmptyPending(quiet), strict);
    SoundLater(CancelSummaryTasks(EmptyPending(quiet)), OnlineFailed(s), strict);
  }

  lemma SoundFault(s: State, metadata: bool, strict: Option<nat>)
    requires Sound(s, strict)
    ensures Sound(BeginFault(s, metadata), strict)
  {
    hide OnlineFailed, Sound;
    assert Sound(s.(fault := Closed), strict) && Sound(s.(fault := Draining), strict) by {
      SoundLater(s, s.(fault := Closed), strict);
      SoundLater(s, s.(fault := Draining), strict);
    }
    SoundFailed(s.(fault := Closed), strict);
  }

  lemma SoundRestart(s: State, session: nat, batch: nat, strict: Option<nat>)
    requires Sound(s, strict)
    ensures Sound(Started(s, session, batch), strict) && Sound(ControlCleared(s), strict)
  {
    SoundCancelTasks(s, strict);
    SoundCancelTasks(CancelSummaryTasks(s), strict);
    var empty := EmptyPending(CancelSummaryTasks(s));
    SoundLater(empty, Started(s, session, batch), strict);
    SoundLater(empty, ControlCleared(s), strict);
  }

  lemma SavedGrows(s: State, r: Saved, strict: Option<nat>)
    requires Sound(s, strict)
    ensures Sound(s.(saved := s.saved + [r]), strict)
  {
    var grown := s.saved + [r];
    forall k | 0 <= k < |s.acks| ensures AckOk(grown, s.acks[k], strict.Some? && strict.value <= k) {
      var a := s.acks[k];
      assert AckOk(s.saved, a, strict.Some? && strict.value <= k);
      assert grown[..a.savedBefore] == s.saved[..a.savedBefore];
    }
    forall t | 0 <= t < |s.tasks| && SendIn(s.tasks[t].phase).Some?
      ensures SendFits(grown, s.epoch, SendIn(s.tasks[t].phase).value, strict)
    {
      assert SendFits(s.saved, s.epoch, SendIn(s.tasks[t].phase).value, strict);
    }
  }

  lemma SoundAfterSave(s: State, r: Saved, strict: Option<nat>)
    requires Sound(s, strict) && r in s.saved && r.epoch == s.epoch && r.session == s.session
    ensures Sound(AfterSave(s, r), strict)
  {
    hide BeginSend, OnlineFailed, ScheduleFull;
    SoundLater(s, s.(worker := Idle), strict);
    SoundFailed(s.(worker := Idle), strict);
    var queued := s.(worker := Idle, pending := s.pending + [r]);
    assert Sound(queued, strict);
    SoundSchedule(queued, strict);
    SoundSpawn(s, Direct, strict);
    var direct := Spawn(s, Direct).(worker := Acking(|s.tasks|));
    SoundLater(Spawn(s, Direct), direct, strict);
    SoundBeginSend(direct, |s.tasks|, [r], strict);
  }

  lemma SoundSaveCompleted(s: State, ok: bool, strict: Option<nat>)
    requires Sound(s, strict) && s.worker.Saving?
    ensures Sound(SaveCompleted(s, ok), strict)
  {
    hide AfterSave, BeginFault;
    var r := Saved(s.worker.id, s.worker.kind, s.epoch, s.session);
    assert Sound(s.(worker := Idle), strict) by {
      SoundLater(s, s.(worker := Idle), strict);
    }
    SoundFault(s.(worker := Idle), false, strict);
    SavedGrows(s, r, strict);
    SoundAfterSave(s.(saved := s.saved + [r]), r, strict);
  }

  lemma SoundWorkerCancelled(s: State, strict: Option<nat>)
    requires Sound(s, strict)
    ensures Sound(WorkerCancelled(s), strict)
  {
  }

  /** Events that concern one task. */
  predicate OfTask(e: Event) {
    e.Wake? || e.LockGranted? || e.GattPopped? || e.GattWrite? || e.GattReturned? || e.GattFailed? || e.GattCancelled?
    || e.SendResumed? || e.NoteDone? || e.CancelRuns?
  }

  lemma SoundTaskEvent(s: State, e: Event, strict: Option<nat>)
    requires Sound(s, strict) && OfTask(e)
    ensures Sound(Next(s, e), strict)
  {
    hide Conclude, TryWrite, Woken, AllSaved, AcksOk, SetPhase;
    var t := e.task;
    if t < |s.tasks| {
      SoundWoken(s, t, strict);
      SoundTryWrite(s, t, strict);
      SoundSetPhase(s, t, Finished(None), strict);
      var p := s.tasks[t].phase;
      if SendIn(p).Some? {
        var send := SendIn(p).value;
        SoundSetPhase(s, t, Queued(send), strict);
        SoundSetPhase(s, t, Popped(send), strict);
        SoundSetPhase(s, t, Returned(send), strict);
        SoundSetPhase(s, t, Noting(send, true), strict);
        SoundSetPhase(s, t, Noting(send, false), strict);
        SoundConclude(s, t, send, true, NotSent, strict);
        SoundConclude(s, t, send, false, NotSent, strict);
        SoundConclude(s, t, send, false, Interrupted, strict);
        if p.Noting? {
          SoundConclude(s, t, send, p.skipped, Sent, strict);
          SoundConclude(s, t, send, p.skipped, Interrupted, strict);
        }
      }
      if e.CancelRuns? {
        SoundCancelRuns(s, t, strict);
      }
    }
  }

  lemma SoundCancelRuns(s: State, t: nat, strict: Option<nat>)
    requires Sound(s, strict) && t < |s.tasks|
    ensures Sound(CancelledTaskRuns(s, t), strict)
  {
    hide Sound;
    var p := s.tasks[t].phase;
    if SendIn(p).Some? {
      assert SendFits(s.saved, s.epoch, SendIn(p).value, strict) by { SendIsOk(s, t, strict); }
    }
    SoundSetPhase(s, t, Finished(Remainder(p)), strict);
    var ended := SetPhase(s, t, Finished(Remainder(p)));
    SoundLater(ended, ended.(fullRef := None), strict);
    SoundLater(ended, ended.(partialRef := None), strict);
  }

  lemma SendIsOk(s: State, t: nat, strict: Option<nat>)
    requires Sound(s, strict) && t < |s.tasks| && SendIn(s.tasks[t].phase).Some?
    ensures SendFits(s.saved, s.epoch, SendIn(s.tasks[t].phase).value, strict)
  {
  }

  lemma SoundWorkerEvent(s: State, e: Event, strict: Option<nat>)
    requires Sound(s, strict) && (e.Deliver? || e.SaveDone? || e.CancelWorker?)
    ensures Sound(Next(s, e), strict)
  {
    hide SaveCompleted, BeginFault, WorkerCancelled, AllSaved, AcksOk, TasksOk;
    SoundFault(s, false, strict);
    SoundWorkerCancelled(s, strict);
    if e.SaveDone? && s.worker.Saving? {
      SoundSaveCompleted(s, e.ok, strict);
    }
  }

  lemma SoundSessionEvent(s: State, e: Event, strict: Option<nat>)
    requires Sound(s, strict) && !(strict.Some? && e.DisconnectBegins?)
    requires (e.StartFrame? || e.EndFrame? || e.DisconnectBegins? || e.ClearControl? || e.StartRefused?)
    ensures Sound(Next(s, e), strict)
  {
    hide Started, ControlCleared, CancelSummaryTasks, EmptyPending, WorkerCancelled, Sound;
    SoundWorkerCancelled(s, strict);
    SoundCancelTasks(s, strict);
    SoundCancelTasks(EmptyPending(s), strict);
    match e {
      case StartFrame(session, batch) => SoundRestart(s, session, batch, strict);
      case ClearControl => SoundRestart(WorkerCancelled(s), 0, 0, strict);
      case DisconnectBegins => SoundLater(WorkerCancelled(s), WorkerCancelled(s).(epoch := s.epoch + 1), strict) by {
        assert WorkerCancelled(s).epoch == s.epoch by { WorkerCancelledKeeps(s); }
      }
      case StartRefused => SoundLater(s, s.(active := false, session := None), strict);
      case EndFrame =>
    }
  }

  lemma WorkerCancelledKeeps(s: State)
    ensures var r := WorkerCancelled(s);
            r == s.(worker := Idle, tasks := r.tasks) && |r.tasks| == |s.tasks|
  {
  }

  lemma SoundFaultEvent(s: State, e: Event, strict: Option<nat>)
    requires Sound(s, strict)
    requires e.MetadataExhausted? || e.OtherFault? || e.FaultSettled? || e.DeviceAborted?
    ensures Sound(Next(s, e), strict)
  {
    hide BeginFault, OnlineFailed, Sound;
    SoundFault(s, true, strict);
    SoundFault(s, false, strict);
    SoundFailed(s, strict);
    SoundLater(s, s.(fault := NoFault), strict);
  }

  /** Save before ACK, one step. */
  lemma StepSound(s: State, e: Event, strict: Option<nat>)
    requires Sound(s, strict) && !(strict.Some? && e.DisconnectBegins?)
    ensures Sound(Next(s, e), strict)
  {
    hide Next, Sound;
    if OfTask(e) {
      SoundTaskEvent(s, e, strict);
    } else if e.Deliver? || e.SaveDone? || e.CancelWorker? {
      SoundWorkerEvent(s, e, strict);
    } else if e.StartFrame? || e.EndFrame? || e.DisconnectBegins? || e.ClearControl? || e.StartRefused? {
      SoundSessionEvent(s, e, strict);
    } else if e.MetadataExhausted? || e.OtherFault? || e.FaultSettled? || e.DeviceAborted? {
      SoundFaultEvent(s, e, strict);
    } else {
      SoundRest(s, e, strict);
    }
  }

  lemma SoundRest(s: State, e: Event, strict: Option<nat>)
    requires Sound(s, strict)
    requires e.StartTimedOut? || e.PartialRequested? || e.LinkChanged? || e.ClientReplaced? || e.TokenMoved?
    ensures Sound(Next(s, e), strict)
  {
    hide SchedulePartial;
    SoundSchedule(s, strict);
    SoundLater(s, s.(active := false), strict);
  }

  /** No disconnect was begun with its epoch bumped and its pending list left alone. */
  predicate NoTeardown(es: seq<Event>) {
    forall i :: 0 <= i < |es| ==> !es[i].DisconnectBegins?
  }

  lemma {:induction false} RunSound(es: seq<Event>, strict: Option<nat>)
    requires strict.Some? ==> NoTeardown(es)
    ensures Sound(Run(Initial(), es), strict)
    decreases |es|
  {
    hide Next, Sound;
    if es == [] {
      InitialSound(strict);
    } else {
      RunSound(es[..|es| - 1], strict);
      StepSound(Run(Initial(), es[..|es| - 1]), es[|es| - 1], strict);
    }
  }

  lemma InitialSound(strict: Option<nat>)
    ensures Sound(Initial(), strict)
  {
  }

  /**
   * Save before ACK: in every run, each ACK that reaches the link names the last `count` records up
   * to its record id, all of them among the saves that had finished before it was written, in the
   * session of the ACK and not after its epoch; in the very same epoch when no disconnect has begun.
   */
  lemma SaveBeforeAck(es: seq<Event>)
    ensures forall a :: a in Run(Initial(), es).acks ==>
              && a.count == |a.names| > 0 && a.recordId == a.names[a.count - 1].id
              && a.savedBefore <= |Run(Initial(), es).saved|
              && forall r :: r in a.names ==>
                   && r in Run(Initial(), es).saved[..a.savedBefore]
                   && r.session == Some(a.session) && r.epoch <= a.epoch
                   && (NoTeardown(es) ==> r.epoch == a.epoch)
  {
    hide Next;
    var s := Run(Initial(), es);
    RunSound(es, None);
    if NoTeardown(es) {
      RunSound(es, Some(0));
    }
    forall a | a in s.acks
      ensures AckOk(s.saved, a, false) && (NoTeardown(es) ==> AckOk(s.saved, a, true))
    {
      var k :| 0 <= k < |s.acks| && s.acks[k] == a;
    }
  }
}
