/** Exactly which released summaries were never written, and runs that show it. */
module OnlineAckLost {
  import opened OnlineAckFlush
  import opened OnlineAckOverlap
  import opened OnlineAckQueue
  import opened OnlineAckSafety
  import opened OnlineAckSpec
  import opened OnlineAckWritten
  import opened Wrappers

  /** The lock goes to a send that is still current, but whose link is lost or whose token moved. */
  predicate LosesLock(s: State, e: Event) {
    && e.LockGranted? && LiveTask(s, e.task) && s.tasks[e.task].phase.AtLock?
    && var send := s.tasks[e.task].phase.send; Current(s, send) && (s.token != send.token || !s.up)
  }

  function LostBy(s: State, e: Event): set<nat> {
    if LosesLock(s, e) then {e.task} else {}
  }

  /** The coroutines to which that happened in the run. */
  function Lost(es: seq<Event>): set<nat>
    decreases |es|
  {
    if es == [] then {}
    else Lost(es[..|es| - 1]) + LostBy(Run(Initial(), es[..|es| - 1]), es[|es| - 1])
  }

  /** A full ACK that has not ended takes its send for skipped exactly if it lost the lock. */
  predicate TaskTraced(t: nat, task: Task, lost: set<nat>) {
    task.kind == Full ==>
      match task.phase
      case Noting(_, skipped) => skipped <==> t in lost
      case Finished(_) => true
      case _ => t !in lost
  }

  predicate EndedFull(task: Task) {
    task.kind == Full && Done(task)
  }

  predicate Traced(s: State, lost: set<nat>) {
    && (forall t :: t in lost ==> t < |s.tasks|)
    && (forall t :: 0 <= t < |s.tasks| ==> TaskTraced(t, s.tasks[t], lost))
    && (forall k :: 0 <= k < |s.releases| ==>
          s.releases[k].task < |s.tasks| && EndedFull(s.tasks[s.releases[k].task])
          && (s.releases[k].skipped <==> s.releases[k].task in lost))
  }

  lemma TracedStay(s: State, r: State, lost: set<nat>)
    requires Traced(s, lost) && FullsStay(s, r)
    ensures Traced(r, lost)
  {
    forall t | 0 <= t < |r.tasks| ensures TaskTraced(t, r.tasks[t], lost) {
      assert t < |s.tasks| ==> TaskTraced(t, s.tasks[t], lost);
    }
  }

  // ----- one coroutine moves on -----

  predicate PhaseStep(p: Phase, q: Phase, loses: bool) {
    && (p.Finished? ==> q.Finished?) && (p.Noting? ==> q == p || q.Finished?)
    && (q.Noting? ==> q == p || (q.skipped <==> loses))
    && (loses ==> !p.Finished? && q.Noting? && q != p)
  }

  /** The coroutine itself moves, others stay, and only its send may be released. */
  predicate OneMoves(s: State, r: State, t: nat, loses: bool)
    requires t < |s.tasks|
  {
    && |s.tasks| <= |r.tasks|
    && (forall u :: 0 <= u < |s.tasks| && u != t ==>
          r.tasks[u].kind == s.tasks[u].kind && r.tasks[u].phase == s.tasks[u].phase)
    && (forall u :: |s.tasks| <= u < |r.tasks| && r.tasks[u].kind == Full ==> r.tasks[u].phase == Sleeping)
    && r.tasks[t].kind == s.tasks[t].kind
    && (s.tasks[t].kind == Full ==> PhaseStep(s.tasks[t].phase, r.tasks[t].phase, loses))
    && (r.releases == s.releases || ReleasesOwn(s, r, t))
  }

  predicate ReleasesOwn(s: State, r: State, t: nat)
    requires t < |s.tasks| <= |r.tasks|
  {
    && |r.releases| == |s.releases| + 1 && r.releases[..|s.releases|] == s.releases
    && s.tasks[t].kind == Full && s.tasks[t].phase.Noting? && Done(r.tasks[t])
    && r.releases[|s.releases|].task == t && r.releases[|s.releases|].skipped == s.tasks[t].phase.skipped
  }

  lemma TracedMoves(s: State, r: State, t: nat, loses: bool, lost: set<nat>)
    requires Traced(s, lost) && t < |s.tasks| && OneMoves(s, r, t, loses)
    ensures Traced(r, lost + if loses then {t} else {})
  {
    var after := lost + if loses then {t} else {};
    forall u | 0 <= u < |r.tasks| ensures TaskTraced(u, r.tasks[u], after) {
      assert u < |s.tasks| ==> TaskTraced(u, s.tasks[u], lost);
    }
    forall k | 0 <= k < |r.releases|
      ensures r.releases[k].task < |r.tasks| && EndedFull(r.tasks[r.releases[k].task])
              && (r.releases[k].skipped <==> r.releases[k].task in after)
    {
      if k < |s.releases| {
        assert r.releases[k] == s.releases[k];
      } else {
        assert TaskTraced(t, s.tasks[t], lost);
      }
    }
  }

  lemma ConcludeMoves(s: State, t: nat, send: Send, skipped: bool, outcome: Outcome)
    requires t < |s.tasks| && !Done(s.tasks[t])
    requires s.tasks[t].kind == Full && outcome == Sent ==> s.tasks[t].phase == Noting(send, skipped)
    ensures OneMoves(s, Conclude(s, t, send, skipped, outcome), t, false)
  {
  }

  lemma PhaseMoves(s: State, t: nat, phase: Phase, loses: bool)
    requires t < |s.tasks| && PhaseStep(s.tasks[t].phase, phase, loses)
    ensures OneMoves(s, SetPhase(s, t, phase), t, loses)
    ensures OneMoves(s, SetPhase(s, t, phase).(fullRef := None), t, loses)
    ensures OneMoves(s, SetPhase(s, t, phase).(partialRef := None), t, loses)
  {
  }

  lemma WriteMoves(s: State, t: nat, send: Send, phase: Phase)
    requires t < |s.tasks| && PhaseStep(s.tasks[t].phase, phase, false) && send.names != []
    ensures OneMoves(s, SetPhase(Written(s, t, send), t, phase), t, false)
  {
  }

  lemma NothingMoves(s: State, t: nat)
    requires t < |s.tasks|
    ensures OneMoves(s, s, t, false)
  {
  }

  lemma WokenMoves(s: State, t: nat)
    requires t < |s.tasks| && s.tasks[t].phase.Sleeping?
    ensures OneMoves(s, Woken(s, t), t, false)
  {
    NothingMoves(s, t);
    PhaseMoves(s, t, Finished(None), false);
    if s.pending != [] {
      SendMoves(s, t, s.pending);
      var n := if s.batch <= |s.pending| then s.batch else |s.pending|;
      if n > 0 {
        SendMoves(s, t, s.pending[..n]);
      }
    }
    hide BeginSend, OneMoves, SetPhase;
  }

  lemma SendMoves(s: State, t: nat, names: seq<Saved>)
    requires t < |s.tasks| && s.tasks[t].phase.Sleeping? && names != []
    ensures OneMoves(s, BeginSend(s, t, names), t, false)
  {
    ConcludeMoves(s, t, Send(names, s.client, s.token, s.epoch, 0, s.batch), false, NotSent);
    if s.session.Some? {
      PhaseMoves(s, t, AtLock(Send(names, s.client, s.token, s.epoch, s.session.value, s.batch)), false);
    }
    hide Conclude, OneMoves, SetPhase;
  }

  /** The lock makes a send skipped, which later counts as sent, exactly if it is lost this way. */
  lemma SkippedExactly(s: State, t: nat)
    requires LiveTask(s, t) && s.tasks[t].phase.AtLock?
    ensures Next(s, LockGranted(t)).tasks[t].phase == Noting(s.tasks[t].phase.send, true)
            <==> LosesLock(s, LockGranted(t))
  {
  }

  lemma LockMoves(s: State, t: nat)
    requires LiveTask(s, t) && s.tasks[t].phase.AtLock?
    ensures OneMoves(s, LockTaken(s, t, s.tasks[t].phase.send), t, LosesLock(s, LockGranted(t)))
  {
    var send := s.tasks[t].phase.send;
    PhaseMoves(s, t, Queued(send), false);
    PhaseMoves(s, t, Noting(send, true), true);
    ConcludeMoves(s, t, send, true, NotSent);
    hide Conclude, OneMoves, SetPhase;
  }

  lemma TryWriteMoves(s: State, t: nat)
    requires t < |s.tasks|
    ensures OneMoves(s, TryWrite(s, t), t, false)
  {
    NothingMoves(s, t);
    var p := s.tasks[t].phase;
    if SendIn(p).Some? && (p.Popped? || p.Writing? || p.Finished?) {
      var send := SendIn(p).value;
      if p.Finished? {
        PhaseMoves(s, t, Finished(None), false);
      } else {
        PhaseMoves(s, t, Writing(send, true), false);
        ConcludeMoves(s, t, send, false, Interrupted);
      }
      if send.names != [] {
        if p.Finished? {
          WriteMoves(s, t, send, Finished(None));
          WriteMoves(s, t, send, Finished(Some(Orphan(send, true))));
        } else {
          WriteMoves(s, t, send, Writing(send, false));
          WriteMoves(s, t, send, Writing(send, true));
        }
      }
    } else if p.Finished? {
      PhaseMoves(s, t, Finished(None), false);
    }
    hide Conclude, OneMoves, SetPhase, Written, Writable;
  }

  lemma CancelRunsMoves(s: State, t: nat)
    requires t < |s.tasks| && !Done(s.tasks[t])
    ensures OneMoves(s, CancelledTaskRuns(s, t), t, false)
  {
    PhaseMoves(s, t, Finished(Remainder(s.tasks[t].phase)), false);
  }

  lemma TaskEventMoves(s: State, e: Event)
    requires OfTask(e) && e.task < |s.tasks|
    ensures OneMoves(s, Next(s, e), e.task, LosesLock(s, e))
  {
    hide OneMoves, Conclude, TryWrite, Woken, LockTaken, CancelledTaskRuns, SetPhase, Current;
    var t := e.task;
    var p := s.tasks[t].phase;
    NothingMoves(s, t);
    match e {
      case Wake(_) => if p.Sleeping? { WokenMoves(s, t); }
      case LockGranted(_) => if LiveTask(s, t) && p.AtLock? { LockMoves(s, t); }
      case GattPopped(_) => if p.Queued? { PhaseMoves(s, t, Popped(p.send), false); }
      case GattWrite(_) => TryWriteMoves(s, t);
      case GattReturned(_) => if p.Writing? { PhaseMoves(s, t, Returned(p.send), false); }
      case GattFailed(_) => if p.Writing? { ConcludeMoves(s, t, p.send, false, NotSent); }
      case GattCancelled(_) =>
        if p.Queued? || p.Popped? || p.Writing? { ConcludeMoves(s, t, p.send, false, Interrupted); }
      case SendResumed(_) =>
        if p.Returned? {
          PhaseMoves(s, t, Noting(p.send, false), false);
          ConcludeMoves(s, t, p.send, false, NotSent);
        }
      case NoteDone(_) =>
        if p.Noting? {
          ConcludeMoves(s, t, p.send, p.skipped, Sent);
          ConcludeMoves(s, t, p.send, p.skipped, Interrupted);
        }
      case CancelRuns(_) => if !Done(s.tasks[t]) { CancelRunsMoves(s, t); }
    }
  }

  lemma StepTraced(s: State, e: Event, lost: set<nat>)
    requires Traced(s, lost)
    ensures Traced(Next(s, e), lost + LostBy(s, e))
  {
    hide Traced, FullsStay, OneMoves, SaveCompleted;
    if OfTask(e) {
      if e.task < |s.tasks| {
        TaskEventMoves(s, e);
        TracedMoves(s, Next(s, e), e.task, LosesLock(s, e), lost);
      } else {
        assert lost + {} == lost;
      }
    } else {
      assert lost + LostBy(s, e) == lost;
      if !e.SaveDone? {
        StayOther(s, e);
      } else if s.worker.Saving? {
        StaySaveCompleted(s, e.ok);
      } else {
        StaySame(s, s);
      }
      TracedStay(s, Next(s, e), lost);
    }
  }

  lemma StaySaveCompleted(s: State, ok: bool)
    requires s.worker.Saving?
    ensures FullsStay(s, SaveCompleted(s, ok))
  {
    hide FullsStay, BeginFault, AfterSave;
    var idle := s.(worker := Idle);
    var kept := s.(saved := s.saved + [Saved(s.worker.id, s.worker.kind, s.epoch, s.session)]);
    StaySame(s, idle);
    StayFault(idle, false);
    StayTwice(s, idle, BeginFault(idle, false));
    StaySame(s, kept);
    StayAfterSave(kept, kept.saved[|s.saved|]);
    StayTwice(s, kept, AfterSave(kept, kept.saved[|s.saved|]));
  }

  lemma {:induction false} RunTraced(es: seq<Event>)
    ensures Traced(Run(Initial(), es), Lost(es))
    decreases |es|
  {
    hide Next, LostBy;
    if es != [] {
      RunTraced(es[..|es| - 1]);
      StepTraced(Run(Initial(), es[..|es| - 1]), es[|es| - 1], Lost(es[..|es| - 1]));
    }
  }

  /**
   * In every run, of any scheduling: a batch that a full ACK took off the pending list was named by an
   * ACK on the wire if and only if that coroutine never got the control lock with its link lost or its
   * token moved. The check there returns without an exception, and that counts as sent.
   */
  lemma ReleasedExactlyWhenWritten(es: seq<Event>)
    ensures var s := Run(Initial(), es);
            forall k :: 0 <= k < |s.releases| ==>
              (WroteNames(s.acks, s.releases[k].task, s.releases[k].names) <==> s.releases[k].task !in Lost(es))
  {
    hide Next, Run, Lost;
    RunTraced(es);
    RunHonest(es);
    var s := Run(Initial(), es);
    forall k | 0 <= k < |s.releases|
      ensures WroteNames(s.acks, s.releases[k].task, s.releases[k].names) <==> s.releases[k].task !in Lost(es)
    {
      assert ReleaseHonest(s.acks, s.tasks, s.releases[k]);
    }
  }

  // ----- runs -----

  const LOSE_LINK := [Wake(0), LinkChanged(false)]
  const SKIP := [LockGranted(0), NoteDone(0)]
  const SKIPPING_RUN := OPENING + FILLING + LOSE_LINK + SKIP

  const UNLINKED :=
    FULL.(up := false, tasks := [Task(Full, false, AtLock(Send(OLD, 0, 0, 1, 7, 2)))])

  const SKIPPED :=
    UNLINKED.(tasks := [DONE], pending := [], fullRef := None, releases := [Release(0, OLD, true)])

  lemma LinkIsLost()
    ensures Run(FULL, LOSE_LINK) == UNLINKED
  {
    assert OLD[..2] == OLD;
    RunTwo(FULL, Wake(0), LinkChanged(false));
    hide Run;
  }

  lemma SendIsSkipped()
    ensures Run(UNLINKED, SKIP) == SKIPPED
  {
    RunTwo(UNLINKED, LockGranted(0), NoteDone(0));
    hide Run;
  }

  /**
   * A run that loses a batch this way: two summaries are saved and pending, the link is lost before
   * the full ACK gets the lock, and the batch leaves the list of the active session without any ACK.
   */
  lemma BatchReleasedUnwritten()
    ensures var s := Run(Initial(), SKIPPING_RUN);
            && s.active && s.saved == OLD && s.pending == [] && s.acks == []
            && s.releases == [Release(0, OLD, true)] && 0 in Lost(SKIPPING_RUN)
  {
    hide Next, Run, Lost;
    OpeningRuns();
    FillingRuns();
    LinkIsLost();
    SendIsSkipped();
    RunAppend(Initial(), OPENING, FILLING);
    RunAppend(Initial(), OPENING + FILLING, LOSE_LINK);
    RunAppend(Initial(), OPENING + FILLING + LOSE_LINK, SKIP);
    RunTraced(SKIPPING_RUN);
    assert Run(Initial(), SKIPPING_RUN).releases[0].skipped;
  }

  const POPPING := [Wake(0), LockGranted(0), GattPopped(0)]
  const END_CANCELS := [EndFrame, CancelRuns(0), GattWrite(0)]
  const LATE_ACK_RUN := OPENING + FILLING + POPPING + END_CANCELS

  const SENDING_OLD := Send(OLD, 0, 0, 1, 7, 2)
  const POPPED := FULL.(tasks := [Task(Full, false, Popped(SENDING_OLD))])

  const ACKED_LATE :=
    FULL.(tasks := [Task(Full, true, Finished(Some(Orphan(SENDING_OLD, true))))], pending := [], fullRef := None,
          acks := [Ack(0, 2, 2, OLD, 1, 7, 2)], mark := 2)

  lemma PoppingRuns()
    ensures Run(FULL, POPPING) == POPPED
  {
    assert OLD[..2] == OLD;
    RunThree(FULL, Wake(0), LockGranted(0), GattPopped(0));
    hide Run;
  }

  const CANCELLED_POPPED :=
    FULL.(tasks := [Task(Full, true, Popped(SENDING_OLD))], pending := [], fullRef := None, mark := 2)

  lemma EndCancels()
    ensures Next(POPPED, EndFrame) == CANCELLED_POPPED
  {
  }

  lemma CoroutineEnds()
    ensures Next(CANCELLED_POPPED, CancelRuns(0))
            == CANCELLED_POPPED.(tasks := [Task(Full, true, Finished(Some(Orphan(SENDING_OLD, false))))])
  {
  }

  lemma OperationGoesOn()
    ensures Next(CANCELLED_POPPED.(tasks := [Task(Full, true, Finished(Some(Orphan(SENDING_OLD, false))))]),
                 GattWrite(0)) == ACKED_LATE
  {
  }

  lemma EndCancelsRuns()
    ensures Run(POPPED, END_CANCELS) == ACKED_LATE
  {
    hide Next, Run;
    EndCancels();
    CoroutineEnds();
    OperationGoesOn();
    RunThree(POPPED, EndFrame, CancelRuns(0), GattWrite(0));
  }

  /**
   * Cancelling a full ACK does not stop an operation the executor has taken: END empties the list and
   * cancels the coroutine, which ends, and then the ACK of its batch is written all the same.
   */
  lemma CancelledAckGoesOut()
    ensures var s := Run(Initial(), LATE_ACK_RUN);
            && Run(Initial(), OPENING + FILLING + POPPING).acks == []
            && s.pending == [] && s.tasks == [Task(Full, true, Finished(Some(Orphan(SENDING_OLD, true))))]
            && |s.acks| == 1 && s.acks[0].names == s.saved == OLD
  {
    hide Next, Run;
    OpeningRuns();
    FillingRuns();
    PoppingRuns();
    EndCancelsRuns();
    RunAppend(Initial(), OPENING, FILLING);
    RunAppend(Initial(), OPENING + FILLING, POPPING);
    RunAppend(Initial(), OPENING + FILLING + POPPING, END_CANCELS);
  }
}
