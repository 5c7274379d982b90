/** When overlapping full-ACK tasks lose a summary: the exact condition, and a run that does. */
module OnlineAckOverlap {
  import opened OnlineAckFlush
  import opened OnlineAckQueue
  import opened OnlineAckSafety
  import opened OnlineAckSpec
  import opened Wrappers

  /** A full ACK returns from its send as written, but its records are not the head of the list. */
  predicate Misplaced(s: State, e: Event) {
    && e.NoteDone? && LiveTask(s, e.task) && s.tasks[e.task].kind == Full && s.tasks[e.task].phase.Noting?
    && var send := s.tasks[e.task].phase.send;
       send.epoch == s.epoch && send.client == s.client && !(send.names <= s.pending)
  }

  /** Nothing happened to the list or to what is saved and released. */
  predicate ListStays(s: State, r: State) {
    r.pending == s.pending && r.releases == s.releases && r.saved == s.saved && r.mark == s.mark && r.batch == s.batch
  }

  lemma ScheduleStays(s: State)
    ensures ListStays(s, ScheduleFull(s)) && ListStays(s, SchedulePartial(s))
  {
  }

  lemma ConcludeStays(s: State, t: nat, send: Send, skipped: bool, outcome: Outcome)
    requires t < |s.tasks| && (s.tasks[t].kind != Full || outcome != Sent)
    ensures ListStays(s, Conclude(s, t, send, skipped, outcome))
  {
  }

  lemma SameRest(named: seq<Saved>, names: seq<Saved>, rest: seq<Saved>, pending: seq<Saved>)
    ensures named + names + rest == named + pending <==> names + rest == pending
  {
    assert (named + names + rest)[|named|..] == names + rest && (named + pending)[|named|..] == pending;
    if names + rest == pending {
      assert named + names + rest == named + (names + rest);
    }
  }

  lemma HeadOrNot(names: seq<Saved>, pending: seq<Saved>)
    ensures var n := if |names| <= |pending| then |names| else |pending|;
            names + pending[n..] == pending <==> names <= pending
  {
    var n := if |names| <= |pending| then |names| else |pending|;
    var joined := names + pending[n..];
    assert joined[..|names|] == names;
    if names <= pending {
      assert joined == pending;
    }
  }

  /** A batch leaves the list: all is as it should be exactly if the batch was its head. */
  lemma ReleaseConservesExactly(s: State, r: Release)
    requires Conserved(s)
    ensures var n := if |r.names| <= |s.pending| then |r.names| else |s.pending|;
            Conserved(s.(pending := s.pending[n..], releases := s.releases + [r])) <==> r.names <= s.pending
  {
    var n := if |r.names| <= |s.pending| then |r.names| else |s.pending|;
    var rest := s.pending[n..];
    var after := s.(pending := rest, releases := s.releases + [r]);
    NamedAppend(s.releases, r);
    SameRest(Named(s.releases), r.names, rest, s.pending);
    HeadOrNot(r.names, s.pending);
    assert Batched(after) == Batched(s);
    hide Named, Batched;
  }

  lemma SentConservesExactly(s: State, t: nat, send: Send, skipped: bool)
    requires Conserved(s) && t < |s.tasks| && s.tasks[t].kind == Full
    ensures Conserved(Conclude(s, t, send, skipped, Sent)) <==> send.names <= s.pending
  {
    var r := Release(t, send.names, skipped);
    var n := if |send.names| <= |s.pending| then |send.names| else |s.pending|;
    var released := s.(pending := s.pending[n..], releases := s.releases + [r]);
    var freed := SetPhase(s, t, Finished(None)).(
      pending := s.pending[n..], fullRef := None, releases := s.releases + [r]);
    assert ListStays(released, freed);
    hide SetPhase, ScheduleFull, Conserved;
    ReleaseConservesExactly(s, r);
    ScheduleStays(freed);
    ConservedAlike(released, freed);
    ConservedAlike(freed, ScheduleFull(freed));
  }

  lemma ConservedAlike(s: State, r: State)
    requires ListStays(s, r)
    ensures Conserved(r) <==> Conserved(s)
  {
  }

  lemma WokenStays(s: State, t: nat)
    requires t < |s.tasks|
    ensures ListStays(s, Woken(s, t))
  {
    hide Conclude;
    ConcludeStays(s, t, Send(s.pending, s.client, s.token, s.epoch, 0, s.batch), false, NotSent);
    var n := if s.batch <= |s.pending| then s.batch else |s.pending|;
    ConcludeStays(s, t, Send(s.pending[..n], s.client, s.token, s.epoch, 0, s.batch), false, NotSent);
  }

  lemma PhaseStays(s: State, t: nat)
    requires t < |s.tasks|
    ensures forall phase :: ListStays(s, SetPhase(s, t, phase))
    ensures forall phase, send: Send | send.names != [] :: ListStays(s, SetPhase(Written(s, t, send), t, phase))
  {
  }

  lemma TaskStays(s: State, e: Event)
    requires OfTask(e) && !e.NoteDone?
    ensures ListStays(s, Next(s, e))
  {
    hide Conclude, Woken, Current, SetPhase;
    var t := e.task;
    if t < |s.tasks| {
      WokenStays(s, t);
      PhaseStays(s, t);
      var p := s.tasks[t].phase;
      if SendIn(p).Some? {
        ConcludeStays(s, t, SendIn(p).value, true, NotSent);
        ConcludeStays(s, t, SendIn(p).value, false, NotSent);
        ConcludeStays(s, t, SendIn(p).value, false, Interrupted);
      }
    }
  }

  lemma NoteConservesExactly(s: State, e: Event)
    requires Conserved(s) && e.NoteDone?
    ensures Conserved(Next(s, e)) <==> !Misplaced(s, e)
  {
    hide Conclude, Conserved;
    if LiveTask(s, e.task) && s.tasks[e.task].phase.Noting? {
      var p := s.tasks[e.task].phase;
      if s.tasks[e.task].kind == Full && s.epoch == p.send.epoch && s.client == p.send.client {
        SentConservesExactly(s, e.task, p.send, p.skipped);
      } else {
        var outcome := if s.epoch == p.send.epoch && s.client == p.send.client then Sent else Interrupted;
        ConcludeStays(s, e.task, p.send, p.skipped, outcome);
        ConservedAlike(s, Conclude(s, e.task, p.send, p.skipped, outcome));
      }
    }
  }

  lemma SaveConserves(s: State, ok: bool)
    requires Conserved(s) && s.worker.Saving?
    ensures Conserved(SaveCompleted(s, ok))
  {
    assert s.batch > 0;
    hide BeginFault, OnlineFailed, BeginSend, ScheduleFull, Conserved;
    var idle := s.(worker := Idle);
    ConservedAlike(s, idle);
    FaultConserves(idle, false);
    var r := Saved(s.worker.id, s.worker.kind, s.epoch, s.session);
    ConservedSaved(s, r);
    var kept := idle.(saved := s.saved + [r]);
    if r.kind == Summary && s.batch > 1 {
      ScheduleStays(kept.(pending := s.pending + [r]));
      ConservedAlike(kept.(pending := s.pending + [r]), ScheduleFull(kept.(pending := s.pending + [r])));
    } else if r.kind == Unsupported {
      EmptiedConserves(kept, 0, 0);
    } else if ok && SavingNow(s) {
      DirectStays(s.(saved := s.saved + [r]), r);
      ConservedAlike(kept, SaveCompleted(s, true));
    }
  }

  lemma DirectStays(s: State, r: Saved)
    ensures ListStays(s, BeginSend(Spawn(s, Direct).(worker := Acking(|s.tasks|)), |s.tasks|, [r]))
  {
  }

  lemma EmptiedConserves(s: State, session: nat, batch: nat)
    requires s.batch > 0
    ensures Conserved(OnlineFailed(s)) && Conserved(Started(s, session, batch)) && Conserved(ControlCleared(s))
    ensures Conserved(CancelSummaryTasks(EmptyPending(s)))
  {
    assert s.saved[|s.saved|..] == [];
    hide CancelTask;
  }

  lemma FaultConserves(s: State, metadata: bool)
    requires Conserved(s)
    ensures Conserved(BeginFault(s, metadata))
  {
    hide OnlineFailed;
    EmptiedConserves(s.(fault := Closed), 0, 0);
    ConservedAlike(s, s.(fault := Closed));
    ConservedAlike(s, s.(fault := Draining));
  }

  lemma FaultEventConserves(s: State, e: Event)
    requires Conserved(s) && (e.MetadataExhausted? || e.OtherFault? || e.FaultSettled? || e.DeviceAborted? || e.Deliver?)
    ensures Conserved(Next(s, e))
  {
    FaultConserves(s, true);
    FaultConserves(s, false);
    EmptiedConserves(s, 0, 0);
    hide BeginFault, OnlineFailed;
  }

  lemma SessionConserves(s: State, e: Event)
    requires Conserved(s) && (e.StartFrame? || e.EndFrame? || e.DisconnectBegins? || e.ClearControl? || e.CancelWorker?)
    ensures Conserved(Next(s, e))
  {
    var w := WorkerCancelled(s);
    assert ListStays(s, w) && s.batch > 0;
    hide Conserved, Started, ControlCleared, CancelSummaryTasks, EmptyPending, WorkerCancelled;
    ConservedAlike(s, w);
    EmptiedConserves(s, 0, 0);
    EmptiedConserves(w, 0, 0);
    if e.StartFrame? {
      EmptiedConserves(s, e.newSession, e.ackBatch);
    } else if e.DisconnectBegins? {
      ConservedAlike(w, Next(s, e));
    }
  }

  lemma OtherConserves(s: State, e: Event)
    requires Conserved(s) && !OfTask(e) && !e.SaveDone?
    ensures Conserved(Next(s, e))
  {
    if e.MetadataExhausted? || e.OtherFault? || e.FaultSettled? || e.DeviceAborted? || e.Deliver? {
      FaultEventConserves(s, e);
    } else if e.StartFrame? || e.EndFrame? || e.DisconnectBegins? || e.ClearControl? || e.CancelWorker? {
      SessionConserves(s, e);
    } else {
      ScheduleStays(s);
      hide SchedulePartial, Conserved;
      ConservedAlike(s, Next(s, e));
    }
  }

  /** Which steps keep the saved summaries apart into released and pending ones, whatever the scheduling. */
  lemma StepConservesExactly(s: State, e: Event)
    requires Conserved(s)
    ensures Conserved(Next(s, e)) <==> !Misplaced(s, e)
  {
    hide Conserved, SaveCompleted;
    if e.NoteDone? {
      NoteConservesExactly(s, e);
    } else if OfTask(e) {
      TaskStays(s, e);
      ConservedAlike(s, Next(s, e));
    } else if e.SaveDone? {
      if s.worker.Saving? {
        SaveConserves(s, e.ok);
      }
    } else {
      OtherConserves(s, e);
    }
  }

  predicate AlwaysConserved(es: seq<Event>) {
    forall k :: 0 <= k <= |es| ==> Conserved(Run(Initial(), es[..k]))
  }

  predicate NeverMisplaced(es: seq<Event>) {
    forall k :: 0 <= k < |es| ==> !Misplaced(Run(Initial(), es[..k]), es[k])
  }

  /**
   * With no assumption on scheduling: all along a run the summaries saved since the list was last
   * emptied are the released ones followed by the pending ones, exactly when each full ACK that
   * comes back as written finds its own records still at the head of the list.
   */
  lemma {:induction false} ConservedExactly(es: seq<Event>)
    ensures AlwaysConserved(es) <==> NeverMisplaced(es)
    decreases |es|
  {
    hide Next, Conserved, Misplaced, Run;
    if es == [] {
      assert Conserved(Run(Initial(), [])) by { InitialConserved(); }
      assert es[..0] == [];
    } else {
      var n := |es| - 1;
      var init := es[..n];
      ConservedExactly(init);
      assert forall k :: 0 <= k <= n ==> init[..k] == es[..k];
      assert es[..|es|] == es;
      LastStep(es);
      if Conserved(Run(Initial(), init)) {
        StepConservesExactly(Run(Initial(), init), es[n]);
      }
      assert AlwaysConserved(es) <==> AlwaysConserved(init) && Conserved(Run(Initial(), es));
      assert NeverMisplaced(es) <==> NeverMisplaced(init) && !Misplaced(Run(Initial(), init), es[n]);
      assert init[..n] == init;
    }
  }

  lemma LastStep(es: seq<Event>)
    requires es != []
    ensures Run(Initial(), es) == Next(Run(Initial(), es[..|es| - 1]), es[|es| - 1])
  {
    hide Next;
  }

  lemma InitialConserved()
    ensures Conserved(Run(Initial(), []))
  {
  }

  // ----- a run that loses a summary -----

  lemma RunJoin(s: State, a: seq<Event>, b: seq<Event>, q: State, r: State)
    requires Run(s, a) == q && Run(q, b) == r
    ensures Run(s, a + b) == r
  {
    hide Next, Run;
    RunAppend(s, a, b);
  }

  /** The way of a full ACK from its sleep to the metadata write after its send. */
  function FullSend(t: nat): seq<Event> {
    ToTheWire(t) + [GattReturned(t), SendResumed(t)]
  }

  function AfterFullSend(s: State, t: nat): State
    requires s.session.Some? && t < |s.tasks| && Head(s) != []
  {
    SetPhase(Written(s, t, Captured(s)), t, Noting(Captured(s), false))
  }

  lemma FullSendRuns(s: State, t: nat)
    requires Open(s) && LiveTask(s, t) && s.tasks[t] == Task(Full, false, Sleeping)
    ensures Head(s) != [] && Run(s, FullSend(t)) == AfterFullSend(s, t)
  {
    hide Next, Run;
    SleeperWrites(s, t);
    var writing := SetPhase(Written(s, t, Captured(s)), t, Writing(Captured(s), false));
    SendReturns(s, t, Captured(s));
    RunTwo(writing, GattReturned(t), SendResumed(t));
    RunJoin(s, ToTheWire(t), [GattReturned(t), SendResumed(t)], writing, AfterFullSend(s, t));
  }

  lemma SendReturns(s: State, t: nat, send: Send)
    requires t < |s.tasks| && s.tasks[t] == Task(Full, false, Sleeping) && send.names != [] && Current(s, send)
    ensures Next(Next(SetPhase(Written(s, t, send), t, Writing(send, false)), GattReturned(t)), SendResumed(t))
            == SetPhase(Written(s, t, send), t, Noting(send, false))
  {
    var returned := SetPhase(Written(s, t, send), t, Returned(send));
    assert Next(SetPhase(Written(s, t, send), t, Writing(send, false)), GattReturned(t)) == returned;
  }

  function Rec(id: nat, epoch: nat, session: nat): Saved {
    Saved(id, Summary, epoch, Some(session))
  }

  const OLD := [Rec(1, 1, 7), Rec(2, 1, 7)]
  const NEW := [Rec(3, 3, 8), Rec(4, 3, 8), Rec(5, 3, 8)]

  const ASLEEP := Task(Full, false, Sleeping)

  /** In session 8 with batch 2, after the events before it. */
  function Restarted(worker: Worker, n: nat, tasks: seq<Task>, fullRef: Option<nat>): State
    requires n <= 3
  {
    State(3, Some(8), 0, true, 0, true, 2, NoFault, worker, NEW[..n], tasks, fullRef, None, OLD + NEW[..n], [], 2, [])
  }

  const OPENED :=
    State(1, Some(7), 0, true, 0, true, 2, NoFault, Saving(1, Summary, 1, 0), [], [], None, None, [], [], 0, [])

  const FULL :=
    State(1, Some(7), 0, true, 0, true, 2, NoFault, Idle, OLD, [ASLEEP], Some(0), None, OLD, [], 0, [])

  const REOPENED := Restarted(Saving(3, Summary, 3, 0), 0, [Task(Full, true, Sleeping)], None)
  const REFILLED := Restarted(Idle, 2, [Task(Full, true, Sleeping), ASLEEP], Some(1))
  const OVERLAP := Restarted(Idle, 3, [Task(Full, true, Finished(None)), ASLEEP, ASLEEP], Some(2))

  const OPENING := [LinkChanged(true), StartFrame(7, 2), Deliver(1, Summary, true)]
  const FILLING := [SaveDone(true), Deliver(2, Summary, true), SaveDone(true)]
  const RESTART := [DeviceAborted, StartFrame(8, 2), Deliver(3, Summary, true)]
  const REFILLING := [SaveDone(true), Deliver(4, Summary, true), SaveDone(true)]
  const LATE_FINALLY := [CancelRuns(0), Deliver(5, Summary, true), SaveDone(true)]

  lemma OpeningRuns()
    ensures Run(Initial(), OPENING) == OPENED
  {
    RunThree(Initial(), LinkChanged(true), StartFrame(7, 2), Deliver(1, Summary, true));
    hide Run;
  }

  lemma FillingRuns()
    ensures Run(OPENED, FILLING) == FULL
  {
    RunThree(OPENED, SaveDone(true), Deliver(2, Summary, true), SaveDone(true));
    hide Run;
  }

  lemma RestartRuns()
    ensures Run(FULL, RESTART) == REOPENED
  {
    RunThree(FULL, DeviceAborted, StartFrame(8, 2), Deliver(3, Summary, true));
    hide Run;
  }

  lemma RefillingRuns()
    ensures Run(REOPENED, REFILLING) == REFILLED
  {
    RunThree(REOPENED, SaveDone(true), Deliver(4, Summary, true), SaveDone(true));
    hide Run;
  }

  lemma LateFinallyRuns()
    ensures Run(REFILLED, LATE_FINALLY) == OVERLAP
  {
    RunThree(REFILLED, CancelRuns(0), Deliver(5, Summary, true), SaveDone(true));
    hide Run;
  }

  const SENDING := Send(NEW[..2], 0, 0, 3, 8, 2)
  const NOTING := Task(Full, false, Noting(SENDING, false))
  const DONE := Task(Full, false, Finished(None))
  const CANCELLED := Task(Full, true, Finished(None))

  const SENT_ONE :=
    OVERLAP.(tasks := [CANCELLED, NOTING, ASLEEP], acks := [Ack(1, 4, 2, NEW[..2], 3, 8, 5)])

  const SENT_TWO :=
    OVERLAP.(tasks := [CANCELLED, NOTING, NOTING],
             acks := [Ack(1, 4, 2, NEW[..2], 3, 8, 5), Ack(2, 4, 2, NEW[..2], 3, 8, 5)])

  lemma FirstSendRuns()
    ensures Run(OVERLAP, FullSend(1)) == SENT_ONE
  {
    FullSendRuns(OVERLAP, 1) by { hide Next, Run; }
    assert Captured(OVERLAP) == SENDING;
    hide Next, Run;
  }

  lemma SecondSendRuns()
    ensures Run(SENT_ONE, FullSend(2)) == SENT_TWO
  {
    FullSendRuns(SENT_ONE, 2) by { hide Next, Run; }
    assert Captured(SENT_ONE) == SENDING;
    hide Next, Run;
  }

  lemma BothNotesRun()
    ensures Run(SENT_TWO, [NoteDone(1)] + [NoteDone(2)])
            == SENT_TWO.(tasks := [CANCELLED, DONE, DONE], pending := [], fullRef := None,
                         releases := [Release(1, NEW[..2], false), Release(2, NEW[..2], false)])
  {
    var one := SENT_TWO.(tasks := [CANCELLED, DONE, NOTING], pending := NEW[2..], fullRef := None,
                         releases := [Release(1, NEW[..2], false)]);
    assert Next(SENT_TWO, NoteDone(1)) == one;
    RunOne(SENT_TWO, NoteDone(1));
    RunOne(one, NoteDone(2));
    hide Run;
    RunJoin(SENT_TWO, [NoteDone(1)], [NoteDone(2)], one, Next(one, NoteDone(2)));
  }

  const OVERLAPPING_RUN := OPENING + FILLING + RESTART + REFILLING + LATE_FINALLY + FullSend(1) + FullSend(2)
                           + ([NoteDone(1)] + [NoteDone(2)])

  lemma OverlappingRunEnds()
    ensures Run(Initial(), OVERLAPPING_RUN)
            == OVERLAP.(tasks := [CANCELLED, DONE, DONE], pending := [], fullRef := None,
                        acks := [Ack(1, 4, 2, NEW[..2], 3, 8, 5), Ack(2, 4, 2, NEW[..2], 3, 8, 5)],
                        releases := [Release(1, NEW[..2], false), Release(2, NEW[..2], false)])
  {
    hide Next, Run, FullSend, Restarted;
    OpeningRuns();
    FillingRuns();
    RestartRuns();
    RefillingRuns();
    LateFinallyRuns();
    FirstSendRuns();
    SecondSendRuns();
    BothNotesRun();
    RunAppend(Initial(), OPENING, FILLING);
    RunAppend(Initial(), OPENING + FILLING, RESTART);
    RunAppend(Initial(), OPENING + FILLING + RESTART, REFILLING);
    RunAppend(Initial(), OPENING + FILLING + RESTART + REFILLING, LATE_FINALLY);
    RunAppend(Initial(), OPENING + FILLING + RESTART + REFILLING + LATE_FINALLY, FullSend(1));
    RunAppend(Initial(), OPENING + FILLING + RESTART + REFILLING + LATE_FINALLY + FullSend(1), FullSend(2));
    RunAppend(Initial(), OPENING + FILLING + RESTART + REFILLING + LATE_FINALLY + FullSend(1) + FullSend(2),
              [NoteDone(1)] + [NoteDone(2)]);
  }

  lemma {:induction false} SummariesShorter(rs: seq<Saved>)
    ensures |Summaries(rs)| <= |rs|
    decreases |rs|
  {
    if rs != [] {
      SummariesShorter(rs[..|rs| - 1]);
    }
  }

  /**
   * Such a run: an abort and a new START leave a cancelled full ACK, whose `finally` comes after the
   * next one was scheduled and clears its reference. A third summary starts a second full ACK beside
   * the first, both send the same head, and each deletes two summaries. The third is saved, belongs
   * to the active session, is pending no more, no coroutine is left, and no ACK ever named it.
   */
  lemma OverlapLosesASummary()
    ensures var s := Run(Initial(), OVERLAPPING_RUN);
            && s.active && s.mark <= |s.saved| && NEW[2] in s.saved[s.mark..] && NEW[2].kind == Summary && NEW[2].session == s.session
            && s.pending == [] && (forall t :: 0 <= t < |s.tasks| ==> s.tasks[t].phase == Finished(None))
            && (forall k :: 0 <= k < |s.acks| ==> NEW[2] !in s.acks[k].names)
            && !Conserved(s)
  {
    hide Next, Run;
    OverlappingRunEnds();
    var s := Run(Initial(), OVERLAPPING_RUN);
    assert s.saved[s.mark..] == NEW && NEW[2] !in NEW[..2];
    SummariesShorter(s.saved[s.mark..]);
    NamedAppend([], Release(1, NEW[..2], false));
    NamedAppend([Release(1, NEW[..2], false)], Release(2, NEW[..2], false));
    assert s.releases == [] + [Release(1, NEW[..2], false)] + [Release(2, NEW[..2], false)];
    assert |Named(s.releases)| == 4;
  }
}
