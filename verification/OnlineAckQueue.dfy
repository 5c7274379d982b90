/** The pending summaries: none is dropped, repeated or reordered while one full-ACK task runs at a time. */
module OnlineAckQueue {
  import opened OnlineAckSafety
  import opened OnlineAckSpec
  import opened Wrappers

  function Summaries(rs: seq<Saved>): seq<Saved>
    decreases |rs|
  {
    if rs == [] then []
    else Summaries(rs[..|rs| - 1]) + if rs[|rs| - 1].kind == Summary then [rs[|rs| - 1]] else []
  }

  function Named(releases: seq<Release>): seq<Saved>
    decreases |releases|
  {
    if releases == [] then [] else Named(releases[..|releases| - 1]) + releases[|releases| - 1].names
  }

  /** Summaries saved for batched acknowledgement since the list was last emptied. */
  function Batched(s: State): seq<Saved> {
    if s.batch > 1 && s.mark <= |s.saved| then Summaries(s.saved[s.mark..]) else []
  }

  /** A full-ACK task that was cancelled and has not run its `finally` yet. */
  predicate Dying(t: Task) {
    t.kind == Full && t.cancelled && !Done(t)
  }

  predicate NoneDying(tasks: seq<Task>) {
    forall t :: 0 <= t < |tasks| ==> !Dying(tasks[t])
  }

  predicate LiveFull(t: Task) {
    t.kind == Full && !t.cancelled && !Done(t)
  }

  predicate RefsOk(s: State) {
    && (s.fullRef.Some? ==> s.fullRef.value < |s.tasks| && s.tasks[s.fullRef.value].kind == Full)
    && (s.partialRef.Some? ==> s.partialRef.value < |s.tasks| && s.tasks[s.partialRef.value].kind == PartialLoop)
    && (s.worker.Acking? ==> s.worker.task < |s.tasks| && s.tasks[s.worker.task].kind == Direct)
  }

  /** One full-ACK task at a time, and the reference names it. */
  predicate OneFull(s: State) {
    && (forall t :: 0 <= t < |s.tasks| && LiveFull(s.tasks[t]) ==> s.fullRef == Some(t))
    && (s.fullRef.Some? && s.fullRef.value < |s.tasks| && LiveFull(s.tasks[s.fullRef.value]) ==> NoneDying(s.tasks))
    && (s.fullRef.Some? && s.fullRef.value < |s.tasks| ==> !Dying(s.tasks[s.fullRef.value]))
  }

  /** The running full ACK names the head of the pending list. */
  predicate HeadNamed(s: State) {
    forall t :: 0 <= t < |s.tasks| && LiveFull(s.tasks[t]) && SendIn(s.tasks[t].phase).Some? ==>
      SendIn(s.tasks[t].phase).value.names <= s.pending
  }

  predicate Conserved(s: State) {
    s.mark <= |s.saved| && s.batch > 0 && Batched(s) == Named(s.releases) + s.pending
  }

  predicate Queue(s: State) {
    RefsOk(s) && OneFull(s) && HeadNamed(s) && Conserved(s)
  }

  lemma ConservedFrame(s: State, r: State)
    requires Conserved(s) && r.pending == s.pending && r.releases == s.releases && r.saved == s.saved
    requires r.mark == s.mark && r.batch == s.batch
    ensures Conserved(r)
  {
  }

  lemma NoneLive(s: State)
    requires OneFull(s) && !RefRuns(s, s.fullRef)
    ensures forall t :: 0 <= t < |s.tasks| ==> !LiveFull(s.tasks[t])
  {
  }

  lemma QueueSpawn(s: State, kind: TaskKind)
    requires Queue(s) && kind != Full
    ensures Queue(Spawn(s, kind))
  {
  }

  lemma QueueScheduleFull(s: State)
    requires Queue(s) && NoneDying(s.tasks)
    ensures Queue(ScheduleFull(s))
  {
    if !RefRuns(s, s.fullRef) {
      NoneLive(s);
    }
  }

  lemma QueueSchedule(s: State)
    requires Queue(s) && NoneDying(s.tasks)
    ensures Queue(SchedulePartial(s))
  {
    hide ScheduleFull, Conserved;
    QueueScheduleFull(s);
    QueueSpawn(s, PartialOnce);
    QueueSpawn(s, PartialLoop);
    var looping := Spawn(s, PartialLoop).(partialRef := Some(|s.tasks|));
    ConservedFrame(s, looping);
  }

  /** A task that is not a full ACK moves on, or a full ACK goes on with the same names. */
  lemma QueueSetPhase(s: State, t: nat, phase: Phase)
    requires Queue(s) && t < |s.tasks|
    requires s.tasks[t].kind != Full
             || (LiveTask(s, t) && !phase.Finished? && SendIn(phase) == SendIn(s.tasks[t].phase))
    ensures Queue(SetPhase(s, t, phase))
  {
  }

  /** A full ACK starts sending the head of the list. */
  lemma QueueHead(s: State, t: nat, phase: Phase)
    requires Queue(s) && LiveTask(s, t) && !phase.Finished? && SendIn(phase).Some?
    requires SendIn(phase).value.names <= s.pending
    ensures Queue(SetPhase(s, t, phase))
  {
  }

  /** A full ACK ends and gives up the reference. */
  lemma QueueEnds(s: State, t: nat, orphan: Option<Orphan>)
    requires Queue(s) && t < |s.tasks| && s.tasks[t].kind == Full && !Done(s.tasks[t])
    ensures Queue(SetPhase(s, t, Finished(orphan)).(fullRef := None))
    ensures LiveFull(s.tasks[t]) ==> NoneDying(SetPhase(s, t, Finished(orphan)).tasks)
  {
  }

  lemma NamedAppend(rs: seq<Release>, r: Release)
    ensures Named(rs + [r]) == Named(rs) + r.names
  {
    assert (rs + [r])[..|rs|] == rs;
  }

  /** An acknowledged head leaves the list for the releases. */
  lemma ReleaseConserves(s: State, r: Release)
    requires Conserved(s) && r.names <= s.pending
    ensures Conserved(s.(pending := s.pending[|r.names|..], releases := s.releases + [r]))
  {
    NamedAppend(s.releases, r);
    assert s.pending == r.names + s.pending[|r.names|..];
  }

  lemma QueueSent(s: State, t: nat, send: Send, skipped: bool)
    requires Queue(s) && LiveTask(s, t) && s.tasks[t].kind == Full && SendIn(s.tasks[t].phase) == Some(send)
    ensures Queue(Conclude(s, t, send, skipped, Sent))
  {
    hide ScheduleFull, Conserved;
    var r := Release(t, send.names, skipped);
    QueueEnds(s, t, None);
    assert send.names <= s.pending;
    ReleaseConserves(s, r);
    var freed := SetPhase(s, t, Finished(None)).(
      pending := s.pending[|send.names|..], fullRef := None, releases := s.releases + [r]);
    assert Conserved(freed) by {
      ConservedFrame(s.(pending := s.pending[|r.names|..], releases := s.releases + [r]), freed);
    }
    QueueScheduleFull(freed);
  }

  lemma QueueConclude(s: State, t: nat, send: Send, skipped: bool, outcome: Outcome)
    requires Queue(s) && LiveTask(s, t)
    requires s.tasks[t].kind == Full && outcome == Sent ==> SendIn(s.tasks[t].phase) == Some(send)
    ensures Queue(Conclude(s, t, send, skipped, outcome))
  {
    if s.tasks[t].kind == Full {
      if outcome == Sent {
        QueueSent(s, t, send, skipped);
      } else {
        QueueEnds(s, t, None);
      }
    } else {
      QueueSetPhase(s, t, Finished(None));
      QueueSetPhase(s, t, Sleeping);
    }
  }

  lemma QueueBeginSend(s: State, t: nat, names: seq<Saved>)
    requires Queue(s) && LiveTask(s, t) && names != [] && (s.tasks[t].kind == Full ==> names <= s.pending)
    ensures Queue(BeginSend(s, t, names))
  {
    hide Conclude;
    QueueConclude(s, t, Send(names, s.client, s.token, s.epoch, 0, s.batch), false, NotSent);
    if s.session.Some? {
      var phase := AtLock(Send(names, s.client, s.token, s.epoch, s.session.value, s.batch));
      if s.tasks[t].kind == Full {
        QueueHead(s, t, phase);
      } else {
        QueueSetPhase(s, t, phase);
      }
    }
  }

  lemma QueueWoken(s: State, t: nat)
    requires Queue(s) && LiveTask(s, t)
    ensures Queue(Woken(s, t))
  {
    hide BeginSend, Conserved;
    if s.tasks[t].kind == Full {
      var n := if s.batch <= |s.pending| then s.batch else |s.pending|;
      QueueEnds(s, t, None);
      if n > 0 {
        QueueBeginSend(s, t, s.pending[..n]);
      }
    } else {
      QueueSetPhase(s, t, Finished(None));
      ConservedFrame(s, SetPhase(s, t, Finished(None)).(partialRef := None));
      if s.pending != [] {
        QueueBeginSend(s, t, s.pending);
      }
    }
  }

  /** Writing an ACK changes no field the queue depends on. */
  lemma QueueWritten(s: State, t: nat, send: Send)
    requires Queue(s) && send.names != []
    ensures Queue(Written(s, t, send)) && Written(s, t, send).tasks == s.tasks
  {
  }

  lemma QueueOrphan(s: State, t: nat, phase: Phase)
    requires Queue(s) && t < |s.tasks| && (s.tasks[t].cancelled || Done(s.tasks[t]))
    requires Done(s.tasks[t]) <==> phase.Finished?
    ensures Queue(SetPhase(s, t, phase))
  {
  }

  lemma QueueTryWrite(s: State, t: nat)
    requires Queue(s) && t < |s.tasks|
    ensures Queue(TryWrite(s, t))
  {
    hide Conclude, Written, SetPhase, OneFull, RefsOk, HeadNamed, Conserved;
    var task := s.tasks[t];
    if SendIn(task.phase).Some? && SendIn(task.phase).value.names != [] {
      var send := SendIn(task.phase).value;
      QueueWritten(s, t, send);
      if LiveTask(s, t) {
        QueueConclude(s, t, send, false, Interrupted);
        QueueSetPhase(s, t, Writing(send, true));
        QueueSetPhase(Written(s, t, send), t, Writing(send, false));
        QueueSetPhase(Written(s, t, send), t, Writing(send, true));
      } else if Done(task) {
        QueueOrphan(s, t, Finished(None));
        QueueOrphan(Written(s, t, send), t, Finished(None));
        QueueOrphan(Written(s, t, send), t, Finished(Some(Orphan(send, true))));
      } else {
        QueueOrphan(s, t, Writing(send, true));
        QueueOrphan(Written(s, t, send), t, Writing(send, false));
        QueueOrphan(Written(s, t, send), t, Writing(send, true));
      }
    } else if Done(task) {
      QueueOrphan(s, t, Finished(None));
    }
  }

  lemma QueueCancelRuns(s: State, t: nat)
    requires Queue(s) && t < |s.tasks| && s.tasks[t].cancelled && !Done(s.tasks[t])
    ensures Queue(CancelledTaskRuns(s, t))
  {
    hide Conserved;
    var p := s.tasks[t].phase;
    var left := Remainder(p);
    if s.tasks[t].kind == Full {
      QueueEnds(s, t, left);
    } else {
      QueueSetPhase(s, t, Finished(left));
    }
    ConservedFrame(s, CancelledTaskRuns(s, t));
  }

  lemma QueueTaskEvent(s: State, e: Event)
    requires Queue(s) && OfTask(e)
    ensures Queue(Next(s, e))
  {
    hide Conclude, TryWrite, Woken, SetPhase, CancelledTaskRuns, RefsOk, OneFull, HeadNamed, Conserved;
    var t := e.task;
    if e.GattWrite? {
      if t < |s.tasks| {
        QueueTryWrite(s, t);
      }
    } else if e.CancelRuns? {
      if t < |s.tasks| && s.tasks[t].cancelled && !Done(s.tasks[t]) {
        QueueCancelRuns(s, t);
      }
    } else if LiveTask(s, t) {
      QueueWoken(s, t);
      var p := s.tasks[t].phase;
      if SendIn(p).Some? {
        var send := SendIn(p).value;
        QueueSetPhase(s, t, Queued(send));
        QueueSetPhase(s, t, Popped(send));
        QueueSetPhase(s, t, Returned(send));
        QueueSetPhase(s, t, Noting(send, true));
        QueueSetPhase(s, t, Noting(send, false));
        QueueConclude(s, t, send, true, NotSent);
        QueueConclude(s, t, send, false, NotSent);
        QueueConclude(s, t, send, false, Interrupted);
        QueueConclude(s, t, send, true, Interrupted);
        QueueConclude(s, t, send, true, Sent);
        QueueConclude(s, t, send, false, Sent);
      }
    }
  }

  /** Cancelling the running ACK coroutines and emptying the list, whatever else changes with it. */
  lemma QueueEmptied(s: State, r: State)
    requires RefsOk(s) && OneFull(s)
    requires r.pending == [] && r.releases == [] && r.mark == |r.saved| && r.batch > 0
    requires r.tasks == CancelSummaryTasks(s).tasks && r.fullRef == None && r.partialRef == None
    requires r.worker == s.worker || r.worker == Idle
    ensures Queue(r)
  {
    assert r.saved[r.mark..] == [];
  }

  lemma QueueFailed(s: State)
    requires Queue(s)
    ensures Queue(OnlineFailed(s))
  {
    QueueEmptied(s, OnlineFailed(s));
  }

  lemma QueueFault(s: State, metadata: bool)
    requires Queue(s)
    ensures Queue(BeginFault(s, metadata))
  {
    hide OnlineFailed;
    ConservedFrame(s, s.(fault := Closed));
    ConservedFrame(s, s.(fault := Draining));
    QueueFailed(s.(fault := Closed));
  }

  lemma QueueRestart(s: State, session: nat, batch: nat)
    requires Queue(s)
    ensures Queue(Started(s, session, batch)) && Queue(ControlCleared(s)) && Queue(CancelSummaryTasks(EmptyPending(s)))
  {
    QueueEmptied(s, Started(s, session, batch));
    QueueEmptied(s, ControlCleared(s));
    QueueEmptied(s, CancelSummaryTasks(EmptyPending(s)));
  }

  lemma QueueWorkerCancelled(s: State)
    requires Queue(s)
    ensures Queue(WorkerCancelled(s))
  {
    ConservedFrame(s, WorkerCancelled(s));
    hide Conserved;
  }

  lemma SummariesAppend(rs: seq<Saved>, r: Saved)
    ensures Summaries(rs + [r]) == Summaries(rs) + if r.kind == Summary then [r] else []
  {
    assert (rs + [r])[..|rs|] == rs;
  }

  lemma QueueSaved(s: State, r: Saved)
    requires Queue(s)
    ensures var kept := s.(saved := s.saved + [r], worker := Idle);
            Queue(if r.kind == Summary && s.batch > 1 then kept.(pending := s.pending + [r]) else kept)
  {
    ConservedSaved(s, r);
    hide Conserved, OneFull;
  }

  lemma ConservedSaved(s: State, r: Saved)
    requires Conserved(s)
    ensures var kept := s.(saved := s.saved + [r], worker := Idle);
            Conserved(if r.kind == Summary && s.batch > 1 then kept.(pending := s.pending + [r]) else kept)
  {
    SummariesAppend(s.saved[s.mark..], r);
    assert (s.saved + [r])[s.mark..] == s.saved[s.mark..] + [r];
  }

  lemma QueueSaveCompleted(s: State, ok: bool)
    requires Queue(s) && s.worker.Saving? && NoneDying(s.tasks)
    ensures Queue(SaveCompleted(s, ok))
  {
    hide BeginFault, OnlineFailed, BeginSend, ScheduleFull, Conserved, HeadNamed, OneFull;
    var r := Saved(s.worker.id, s.worker.kind, s.epoch, s.session);
    assert Queue(s.(worker := Idle)) by { QueueFrame(s, s.(worker := Idle)); }
    QueueFault(s.(worker := Idle), false);
    QueueSaved(s, r);
    var kept := s.(saved := s.saved + [r], worker := Idle);
    if r.kind == Summary && s.batch > 1 {
      QueueScheduleFull(kept.(pending := s.pending + [r]));
    } else if r.kind == Unsupported {
      QueueFailed(kept);
    } else {
      QueueDirect(kept, r);
      assert s.(saved := s.saved + [r]).(worker := Acking(|s.tasks|)) == kept.(worker := Acking(|s.tasks|));
      SpawnSame(s.(saved := s.saved + [r]), kept);
    }
  }

  lemma SpawnSame(s: State, kept: State)
    requires kept == s.(worker := Idle)
    ensures Spawn(s, Direct).(worker := Acking(|s.tasks|)) == Spawn(kept, Direct).(worker := Acking(|s.tasks|))
  {
  }

  lemma QueueFrame(s: State, r: State)
    requires Queue(s)
    requires r.pending == s.pending && r.releases == s.releases && r.saved == s.saved && r.mark == s.mark
    requires r.batch == s.batch && r.tasks == s.tasks && r.fullRef == s.fullRef && r.partialRef == s.partialRef
    requires r.worker == s.worker || !r.worker.Acking?
    ensures Queue(r)
  {
  }

  lemma QueueDirect(s: State, r: Saved)
    requires Queue(s)
    ensures Queue(BeginSend(Spawn(s, Direct).(worker := Acking(|s.tasks|)), |s.tasks|, [r]))
  {
    hide BeginSend;
    var direct := Spawn(s, Direct).(worker := Acking(|s.tasks|));
    QueueSpawn(s, Direct);
    assert Queue(direct);
    QueueBeginSend(direct, |s.tasks|, [r]);
  }

  lemma QueueOther(s: State, e: Event)
    requires Queue(s) && !OfTask(e) && !e.SaveDone? && (e.PartialRequested? ==> NoneDying(s.tasks))
    ensures Queue(Next(s, e))
  {
    hide BeginFault, OnlineFailed, Started, ControlCleared, SchedulePartial, WorkerCancelled, CancelSummaryTasks,
         EmptyPending, Queue;
    QueueFault(s, true);
    QueueFault(s, false);
    QueueFailed(s);
    QueueWorkerCancelled(s);
    QueueRestart(WorkerCancelled(s), 0, 0);
    match e {
      case PartialRequested => QueueSchedule(s);
      case StartFrame(session, batch) => QueueRestart(s, session, batch);
      case EndFrame => QueueRestart(s, 0, 0);
      case DisconnectBegins =>
        QueueFrame(WorkerCancelled(s), WorkerCancelled(s).(epoch := s.epoch + 1));
      case ClearControl =>
      case Deliver(id, kind, _) => QueueFrame(s, s.(worker := Saving(id, kind, s.epoch, s.client)));
      case FaultSettled => QueueFrame(s, s.(fault := NoFault));
      case StartRefused => QueueFrame(s, s.(active := false, session := None));
      case StartTimedOut => QueueFrame(s, s.(active := false));
      case LinkChanged(isUp) => QueueFrame(s, s.(up := isUp));
      case ClientReplaced => QueueFrame(s, s.(client := s.client + 1));
      case TokenMoved => QueueFrame(s, s.(token := s.token + 1));
      case _ =>
    }
  }

  /**
   * The `finally` of a cancelled full-ACK task has run before the worker or a PAUSE can schedule
   * the next one: this is what first-in first-out scheduling of ready tasks provides.
   */
  predicate Prompt(s: State, e: Event) {
    e.SaveDone? || e.PartialRequested? ==> NoneDying(s.tasks)
  }

  lemma StepQueue(s: State, e: Event)
    requires Queue(s) && Prompt(s, e)
    ensures Queue(Next(s, e))
  {
    hide Queue, SaveCompleted;
    if OfTask(e) {
      QueueTaskEvent(s, e);
    } else if e.SaveDone? {
      if s.worker.Saving? {
        QueueSaveCompleted(s, e.ok);
      }
    } else {
      QueueOther(s, e);
    }
  }

  predicate PromptRun(es: seq<Event>)
    decreases |es|
  {
    es == [] || (PromptRun(es[..|es| - 1]) && Prompt(Run(Initial(), es[..|es| - 1]), es[|es| - 1]))
  }

  lemma {:induction false} RunQueue(es: seq<Event>)
    requires PromptRun(es)
    ensures Queue(Run(Initial(), es))
    decreases |es|
  {
    hide Next, Queue;
    if es == [] {
      InitialQueue();
    } else {
      RunQueue(es[..|es| - 1]);
      StepQueue(Run(Initial(), es[..|es| - 1]), es[|es| - 1]);
    }
  }

  lemma InitialQueue()
    ensures Queue(Initial())
  {
  }

  /**
   * Nothing is lost, repeated or reordered: after every such run the summaries saved since the
   * pending list was last emptied are the released ones followed by the pending ones, in the order
   * of saving, and at most one full ACK is running.
   */
  lemma SummariesConserved(es: seq<Event>)
    requires PromptRun(es)
    ensures var s := Run(Initial(), es);
            && (s.batch > 1 ==>
                  s.mark <= |s.saved| && Summaries(s.saved[s.mark..]) == Named(s.releases) + s.pending)
            && (forall t, u :: 0 <= t < |s.tasks| && 0 <= u < |s.tasks| && LiveFull(s.tasks[t]) && LiveFull(s.tasks[u])
                  ==> t == u)
  {
    hide Next;
    RunQueue(es);
  }
}
