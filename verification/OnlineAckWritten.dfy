/** What the progress of a full ACK and its release say about what it has written. */
module OnlineAckWritten {
  import opened OnlineAckQueue
  import opened OnlineAckSafety
  import opened OnlineAckSpec
  import opened Wrappers

  predicate Wrote(acks: seq<Ack>, t: nat) {
    exists k :: 0 <= k < |acks| && acks[k].task == t
  }

  predicate WroteNames(acks: seq<Ack>, t: nat, names: seq<Saved>) {
    exists k :: 0 <= k < |acks| && acks[k].task == t && acks[k].names == names
  }

  /** What the phase of a full-ACK task says about its writes. */
  predicate TaskHonest(acks: seq<Ack>, t: nat, task: Task) {
    task.kind == Full ==>
      match task.phase
      case Writing(send, _) => WroteNames(acks, t, send.names)
      case Returned(send) => WroteNames(acks, t, send.names)
      case Noting(send, skipped) => if skipped then !Wrote(acks, t) else WroteNames(acks, t, send.names)
      case Finished(_) => true
      case _ => !Wrote(acks, t)
  }

  predicate ReleaseHonest(acks: seq<Ack>, tasks: seq<Task>, r: Release) {
    && r.task < |tasks| && tasks[r.task].kind == Full && tasks[r.task].phase == Finished(None)
    && (if r.skipped then !Wrote(acks, r.task) else WroteNames(acks, r.task, r.names))
  }

  predicate Honest(s: State) {
    && (forall k :: 0 <= k < |s.acks| ==> s.acks[k].task < |s.tasks|)
    && (forall t :: 0 <= t < |s.tasks| ==> TaskHonest(s.acks, t, s.tasks[t]))
    && (forall k :: 0 <= k < |s.releases| ==> ReleaseHonest(s.acks, s.tasks, s.releases[k]))
  }

  /** Nothing was written, and no full-ACK task moved. */
  predicate FullsStay(s: State, r: State) {
    && r.acks == s.acks && |s.tasks| <= |r.tasks| && (r.releases == s.releases || r.releases == [])
    && (forall t :: 0 <= t < |s.tasks| ==>
          r.tasks[t].kind == s.tasks[t].kind && (r.tasks[t].kind == Full ==> r.tasks[t].phase == s.tasks[t].phase))
    && (forall t :: |s.tasks| <= t < |r.tasks| && r.tasks[t].kind == Full ==> r.tasks[t].phase == Sleeping)
  }

  lemma HonestStay(s: State, r: State)
    requires Honest(s) && FullsStay(s, r)
    ensures Honest(r)
  {
    forall k | 0 <= k < |r.releases| ensures ReleaseHonest(r.acks, r.tasks, r.releases[k]) {
      assert ReleaseHonest(s.acks, s.tasks, s.releases[k]);
    }
    forall t | 0 <= t < |r.tasks| ensures TaskHonest(r.acks, t, r.tasks[t]) {
      assert t < |s.tasks| ==> TaskHonest(s.acks, t, s.tasks[t]);
    }
  }

  /** A task moves on without writing, and other tasks may be added. */
  lemma HonestMove(s: State, t: nat, phase: Phase)
    requires Honest(s) && t < |s.tasks| && TaskHonest(s.acks, t, s.tasks[t].(phase := phase))
    requires s.tasks[t].kind == Full ==> s.tasks[t].phase != Finished(None) || phase == Finished(None)
    ensures Honest(SetPhase(s, t, phase))
  {
    var r := SetPhase(s, t, phase);
    forall k | 0 <= k < |r.releases| ensures ReleaseHonest(r.acks, r.tasks, r.releases[k]) {
      assert ReleaseHonest(s.acks, s.tasks, s.releases[k]);
    }
  }

  lemma OtherWrites(acks: seq<Ack>, a: Ack, t: nat, names: seq<Saved>)
    requires a.task != t
    ensures Wrote(acks + [a], t) == Wrote(acks, t)
    ensures WroteNames(acks + [a], t, names) == WroteNames(acks, t, names)
  {
    if Wrote(acks, t) {
      var k :| 0 <= k < |acks| && acks[k].task == t;
      assert (acks + [a])[k].task == t;
    }
    if WroteNames(acks, t, names) {
      var k :| 0 <= k < |acks| && acks[k].task == t && acks[k].names == names;
      assert (acks + [a])[k].names == names;
    }
  }

  /** A write by a task that has not finished, or that left an operation behind. */
  lemma HonestWrite(s: State, t: nat, send: Send, phase: Phase)
    requires Honest(s) && t < |s.tasks| && send.names != [] && s.tasks[t].phase != Finished(None)
    requires phase.Finished? || (phase.Writing? && phase.send == send)
    ensures Honest(SetPhase(Written(s, t, send), t, phase))
  {
    var r := SetPhase(Written(s, t, send), t, phase);
    var a := r.acks[|s.acks|];
    assert WroteNames(r.acks, t, send.names);
    forall u | 0 <= u < |r.tasks| ensures TaskHonest(r.acks, u, r.tasks[u]) {
      if u != t {
        assert TaskHonest(s.acks, u, s.tasks[u]);
        if SendIn(s.tasks[u].phase).Some? {
          OtherWrites(s.acks, a, u, SendIn(s.tasks[u].phase).value.names);
        } else {
          OtherWrites(s.acks, a, u, []);
        }
      }
    }
    forall k | 0 <= k < |r.releases| ensures ReleaseHonest(r.acks, r.tasks, r.releases[k]) {
      assert ReleaseHonest(s.acks, s.tasks, s.releases[k]);
      OtherWrites(s.acks, a, r.releases[k].task, r.releases[k].names);
    }
  }

  lemma HonestSent(s: State, t: nat, send: Send, skipped: bool)
    requires Honest(s) && t < |s.tasks| && s.tasks[t].kind == Full && s.tasks[t].phase == Noting(send, skipped)
    ensures Honest(Conclude(s, t, send, skipped, Sent))
  {
    var n := if |send.names| <= |s.pending| then |send.names| else |s.pending|;
    var freed := SetPhase(s, t, Finished(None)).(
      pending := s.pending[n..], fullRef := None, releases := s.releases + [Release(t, send.names, skipped)]);
    assert TaskHonest(s.acks, t, s.tasks[t]);
    HonestMove(s, t, Finished(None));
    assert Honest(freed);
    HonestStay(freed, ScheduleFull(freed));
  }

  lemma HonestConclude(s: State, t: nat, send: Send, skipped: bool, outcome: Outcome)
    requires Honest(s) && t < |s.tasks| && s.tasks[t].phase != Finished(None)
    requires s.tasks[t].kind == Full && outcome == Sent ==> s.tasks[t].phase == Noting(send, skipped)
    ensures Honest(Conclude(s, t, send, skipped, outcome))
  {
    if s.tasks[t].kind == Full {
      if outcome == Sent {
        HonestSent(s, t, send, skipped);
      } else {
        HonestMove(s, t, Finished(None));
        HonestStay(SetPhase(s, t, Finished(None)), Conclude(s, t, send, skipped, outcome));
      }
    } else {
      HonestStay(s, Conclude(s, t, send, skipped, outcome));
    }
  }

  lemma HonestBeginSend(s: State, t: nat, names: seq<Saved>)
    requires Honest(s) && t < |s.tasks| && s.tasks[t].phase == Sleeping && names != []
    ensures Honest(BeginSend(s, t, names))
  {
    hide Conclude;
    HonestConclude(s, t, Send(names, s.client, s.token, s.epoch, 0, s.batch), false, NotSent);
    if s.session.Some? {
      HonestMove(s, t, AtLock(Send(names, s.client, s.token, s.epoch, s.session.value, s.batch)));
    }
  }

  lemma HonestWoken(s: State, t: nat)
    requires Honest(s) && t < |s.tasks| && s.tasks[t].phase == Sleeping
    ensures Honest(Woken(s, t))
  {
    hide BeginSend;
    var n := if s.batch <= |s.pending| then s.batch else |s.pending|;
    HonestMove(s, t, Finished(None));
    HonestStay(SetPhase(s, t, Finished(None)), SetPhase(s, t, Finished(None)).(fullRef := None));
    HonestStay(SetPhase(s, t, Finished(None)), SetPhase(s, t, Finished(None)).(partialRef := None));
    if s.pending != [] {
      HonestBeginSend(s, t, s.pending);
      if n > 0 {
        HonestBeginSend(s, t, s.pending[..n]);
      }
    }
  }

  lemma HonestLock(s: State, t: nat, send: Send)
    requires Honest(s) && t < |s.tasks| && s.tasks[t].phase == AtLock(send)
    ensures Honest(LockTaken(s, t, send))
  {
    hide Conclude;
    HonestMove(s, t, Queued(send));
    HonestMove(s, t, Noting(send, true));
    HonestConclude(s, t, send, true, NotSent);
  }

  lemma HonestTryWrite(s: State, t: nat)
    requires Honest(s) && t < |s.tasks|
    ensures Honest(TryWrite(s, t))
  {
    hide Conclude, Written, SetPhase, Honest, TaskHonest;
    var p := s.tasks[t].phase;
    if p != Finished(None) {
      assert TaskHonest(s.acks, t, s.tasks[t]) by { TaskIsHonest(s, t); }
      FinishedIsHonest(s, t);
      HonestMove(s, t, Finished(None));
      if SendIn(p).Some? {
        var send := SendIn(p).value;
        if send.names != [] {
          HonestWrite(s, t, send, Writing(send, false));
          HonestWrite(s, t, send, Writing(send, true));
          HonestWrite(s, t, send, Finished(None));
          HonestWrite(s, t, send, Finished(Some(Orphan(send, true))));
        }
        HonestConclude(s, t, send, false, Interrupted);
        if p.Writing? {
          SecondTry(s, t);
          HonestMove(s, t, Writing(send, true));
        }
      }
    } else {
      SamePhase(s, t);
    }
  }

  lemma TaskIsHonest(s: State, t: nat)
    requires Honest(s) && t < |s.tasks|
    ensures TaskHonest(s.acks, t, s.tasks[t])
  {
  }

  lemma FinishedIsHonest(s: State, t: nat)
    requires t < |s.tasks|
    ensures TaskHonest(s.acks, t, s.tasks[t].(phase := Finished(None)))
  {
  }

  lemma SecondTry(s: State, t: nat)
    requires t < |s.tasks| && s.tasks[t].phase.Writing? && TaskHonest(s.acks, t, s.tasks[t])
    ensures TaskHonest(s.acks, t, s.tasks[t].(phase := Writing(s.tasks[t].phase.send, true)))
  {
  }

  lemma SamePhase(s: State, t: nat)
    requires t < |s.tasks|
    ensures SetPhase(s, t, s.tasks[t].phase) == s
  {
  }

  lemma HonestCancelRuns(s: State, t: nat)
    requires Honest(s) && t < |s.tasks| && !Done(s.tasks[t])
    ensures Honest(CancelledTaskRuns(s, t))
  {
    var p := s.tasks[t].phase;
    var left := Remainder(p);
    HonestMove(s, t, Finished(left));
    HonestStay(SetPhase(s, t, Finished(left)), CancelledTaskRuns(s, t));
  }

  lemma HonestTaskEvent(s: State, e: Event)
    requires Honest(s) && OfTask(e)
    ensures Honest(Next(s, e))
  {
    hide Conclude, TryWrite, Woken, SetPhase, CancelledTaskRuns, LockTaken, Honest, Current;
    var t := e.task;
    if t < |s.tasks| {
      var p := s.tasks[t].phase;
      TaskIsHonest(s, t);
      match e {
        case GattPopped(_) => if p.Queued? { HonestMove(s, t, Popped(p.send)); }
        case GattWrite(_) => HonestTryWrite(s, t);
        case CancelRuns(_) => if !Done(s.tasks[t]) { HonestCancelRuns(s, t); }
        case Wake(_) => if p.Sleeping? { HonestWoken(s, t); }
        case LockGranted(_) => if p.AtLock? { HonestLock(s, t, p.send); }
        case GattReturned(_) => if p.Writing? { HonestMove(s, t, Returned(p.send)); }
        case GattFailed(_) => if p.Writing? { HonestConclude(s, t, p.send, false, NotSent); }
        case GattCancelled(_) => if p.Queued? || p.Popped? || p.Writing? { HonestConclude(s, t, p.send, false, Interrupted); }
        case SendResumed(_) =>
          if p.Returned? {
            HonestMove(s, t, Noting(p.send, false));
            HonestConclude(s, t, p.send, false, NotSent);
          }
        case NoteDone(_) =>
          if p.Noting? {
            HonestConclude(s, t, p.send, p.skipped, Sent);
            HonestConclude(s, t, p.send, p.skipped, Interrupted);
          }
      }
    }
  }

  lemma StayAfterSave(s: State, r: Saved)
    ensures FullsStay(s, AfterSave(s, r))
  {
  }

  lemma StaySession(s: State, session: nat, batch: nat)
    ensures FullsStay(s, OnlineFailed(s)) && FullsStay(s, Started(s, session, batch))
    ensures FullsStay(s, CancelSummaryTasks(EmptyPending(s)))
  {
  }

  lemma StayTwice(s: State, q: State, r: State)
    requires FullsStay(s, q) && FullsStay(q, r)
    ensures FullsStay(s, r)
  {
  }

  lemma StayCleared(s: State)
    ensures FullsStay(s, WorkerCancelled(s)) && FullsStay(s, ControlCleared(s))
  {
  }

  lemma StaySchedule(s: State)
    ensures FullsStay(s, SchedulePartial(s))
  {
  }

  lemma StayFault(s: State, metadata: bool)
    ensures FullsStay(s, BeginFault(s, metadata))
  {
    hide OnlineFailed;
    StaySession(s.(fault := Closed), 0, 0);
    StaySame(s, s.(fault := Closed));
    StaySame(s, s.(fault := Draining));
  }

  lemma StayOther(s: State, e: Event)
    requires !OfTask(e) && !e.SaveDone?
    ensures FullsStay(s, Next(s, e))
  {
    hide BeginFault, OnlineFailed, Started, ControlCleared, SchedulePartial, WorkerCancelled, CancelSummaryTasks,
         EmptyPending;
    StaySchedule(s);
    StayFault(s, true);
    StayFault(s, false);
    StayCleared(s);
    StayCleared(WorkerCancelled(s));
    StayTwice(s, WorkerCancelled(s), ControlCleared(WorkerCancelled(s)));
    StaySession(s, 0, 0);
    if e.StartFrame? {
      StaySession(s, e.newSession, e.ackBatch);
    }
  }

  lemma StepHonest(s: State, e: Event)
    requires Honest(s)
    ensures Honest(Next(s, e))
  {
    hide Honest, FullsStay, AfterSave, OnlineFailed;
    if OfTask(e) {
      HonestTaskEvent(s, e);
    } else if e.SaveDone? {
      if s.worker.Saving? {
        var r := Saved(s.worker.id, s.worker.kind, s.epoch, s.session);
        var kept := s.(saved := s.saved + [r]);
        HonestStay(s, kept) by { StaySame(s, kept); }
        StayAfterSave(kept, r);
        HonestStay(kept, AfterSave(kept, r));
        HonestSaveFailed(s, e.ok);
      }
    } else {
      StayOther(s, e);
      HonestStay(s, Next(s, e));
    }
  }

  lemma StaySame(s: State, r: State)
    requires r.acks == s.acks && r.tasks == s.tasks && r.releases == s.releases
    ensures FullsStay(s, r)
  {
  }

  lemma HonestSaveFailed(s: State, ok: bool)
    requires Honest(s) && s.worker.Saving?
    ensures Honest(s.(worker := Idle)) && Honest(BeginFault(s.(worker := Idle), false))
  {
    hide BeginFault, Honest;
    HonestStay(s, s.(worker := Idle));
    StayFault(s.(worker := Idle), false);
    HonestStay(s.(worker := Idle), BeginFault(s.(worker := Idle), false));
  }

  lemma {:induction false} RunHonest(es: seq<Event>)
    ensures Honest(Run(Initial(), es))
    decreases |es|
  {
    hide Next;
    if es != [] {
      RunHonest(es[..|es| - 1]);
      StepHonest(Run(Initial(), es[..|es| - 1]), es[|es| - 1]);
    }
  }
}
