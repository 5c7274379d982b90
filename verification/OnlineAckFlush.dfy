/** Exactly when an ACK follows a failed save, and exactly when an ACK outlives the epoch of its records. */
module OnlineAckFlush {
  import opened OnlineAckFaults
  import opened OnlineAckSafety
  import opened OnlineAckSpec
  import opened OnlineAckWired
  import opened Wrappers

  // ----- runs -----

  lemma {:induction false} RunAppend(s: State, a: seq<Event>, b: seq<Event>)
    ensures Run(s, a + b) == Run(Run(s, a), b)
    decreases |b|
  {
    hide Next;
    if b == [] {
      assert a + b == a;
    } else {
      RunAppend(s, a, b[..|b| - 1]);
      assert (a + b)[..|a + b| - 1] == a + b[..|b| - 1];
    }
  }

  lemma RunOne(s: State, e: Event)
    ensures Run(s, [e]) == Next(s, e)
  {
    hide Next;
    assert [e][..0] == [];
    assert Run(s, []) == s;
  }

  lemma RunCons(s: State, e: Event, es: seq<Event>)
    ensures Run(s, [e] + es) == Run(Next(s, e), es)
  {
    hide Next;
    RunAppend(s, [e], es);
    RunOne(s, e);
  }

  lemma RunTwo(s: State, a: Event, b: Event)
    ensures Run(s, [a, b]) == Next(Next(s, a), b)
  {
    hide Next, Run;
    assert [a, b] == [a] + [b];
    RunCons(s, a, [b]);
    RunOne(Next(s, a), b);
  }

  lemma RunThree(s: State, a: Event, b: Event, c: Event)
    ensures Run(s, [a, b, c]) == Next(Next(Next(s, a), b), c)
  {
    hide Next, Run;
    assert [a, b, c] == [a] + ([b] + [c]);
    RunCons(s, a, [b] + [c]);
    RunCons(Next(s, a), b, [c]);
    RunOne(Next(Next(s, a), b), c);
  }

  // ----- from a pending list to the wire -----

  /** Every send on its way is of an earlier epoch. */
  predicate SendsOld(s: State) {
    forall t :: 0 <= t < |s.tasks| && SendIn(s.tasks[t].phase).Some? ==>
      SendIn(s.tasks[t].phase).value.epoch < s.epoch
  }

  /** Nothing stands in the way of a summary ACK. */
  predicate Open(s: State) {
    Wired(s) && s.active && s.up && s.pending != []
  }

  predicate Ready(s: State) {
    Open(s) && SendsOld(s)
  }

  function Head(s: State): seq<Saved> {
    if s.batch <= |s.pending| then s.pending[..s.batch] else s.pending
  }

  /** These events, none of them a START or a disconnect, write one ACK: for the head of the list. */
  predicate Flushes(s: State, es: seq<Event>) {
    && NoStart(es) && NoTeardown(es)
    && var acks := Run(s, es).acks;
       |acks| == |s.acks| + 1 && acks[|s.acks|].names == Head(s) && acks[|s.acks|].epoch == s.epoch
  }

  function Captured(s: State): Send
    requires s.session.Some?
  {
    Send(Head(s), s.client, s.token, s.epoch, s.session.value, s.batch)
  }

  /** The way of a summary ACK from its sleep to the wire. */
  function ToTheWire(t: nat): seq<Event> {
    [Wake(t), LockGranted(t), GattPopped(t)] + [GattWrite(t)]
  }

  lemma SleeperSteps(s: State, t: nat)
    requires Open(s) && LiveTask(s, t) && s.tasks[t].phase == Sleeping
    requires s.tasks[t].kind == Full || (s.tasks[t].kind != Direct && |s.pending| < s.batch)
    ensures Next(s, Wake(t)) == SetPhase(s, t, AtLock(Captured(s)))
    ensures Next(SetPhase(s, t, AtLock(Captured(s))), LockGranted(t)) == SetPhase(s, t, Queued(Captured(s)))
    ensures Next(SetPhase(s, t, Queued(Captured(s))), GattPopped(t)) == SetPhase(s, t, Popped(Captured(s)))
  {
    assert s.pending[..|s.pending|] == s.pending;
  }

  lemma PoppedWrites(s: State, t: nat, send: Send)
    requires t < |s.tasks| && send.names != [] && Writable(s, send)
    ensures Next(SetPhase(s, t, Popped(send)), GattWrite(t))
            == SetPhase(Written(s, t, send), t, Writing(send, false))
  {
    assert s.tasks[t := s.tasks[t].(phase := Popped(send))][t := s.tasks[t].(phase := Writing(send, false))]
           == s.tasks[t := s.tasks[t].(phase := Writing(send, false))];
    hide Conclude;
  }

  lemma SleeperWrites(s: State, t: nat)
    requires Open(s) && LiveTask(s, t) && s.tasks[t].phase == Sleeping
    requires s.tasks[t].kind == Full || (s.tasks[t].kind != Direct && |s.pending| < s.batch)
    ensures Run(s, ToTheWire(t)) == SetPhase(Written(s, t, Captured(s)), t, Writing(Captured(s), false))
  {
    hide Next, Run;
    PoppedWrites(s, t, Captured(s));
    SleeperSteps(s, t);
    RunThree(s, Wake(t), LockGranted(t), GattPopped(t));
    RunOne(SetPhase(s, t, Popped(Captured(s))), GattWrite(t));
    RunAppend(s, [Wake(t), LockGranted(t), GattPopped(t)], [GattWrite(t)]);
  }

  lemma SleeperFlushes(s: State, t: nat)
    requires Open(s) && LiveTask(s, t) && s.tasks[t].phase == Sleeping
    requires s.tasks[t].kind == Full || (s.tasks[t].kind != Direct && |s.pending| < s.batch)
    ensures Flushes(s, ToTheWire(t))
  {
    SleeperWrites(s, t);
    hide Next, Run;
  }

  /** A flush request starts a coroutine unless a full ACK is already running. */
  lemma RequestSpawns(s: State)
    requires Ready(s) && (|s.pending| >= s.batch ==> !RefRuns(s, s.fullRef))
    ensures var r := Next(s, PartialRequested); var t := |s.tasks|;
            && Ready(r) && Open(r) && LiveTask(r, t) && r.tasks[t].phase == Sleeping
            && (r.tasks[t].kind == Full || (r.tasks[t].kind != Direct && |r.pending| < r.batch))
            && r == s.(tasks := r.tasks, fullRef := r.fullRef, partialRef := r.partialRef)
  {
    WiredSchedule(s);
    hide Wired;
  }

  lemma FlushesAfter(s: State, e: Event, es: seq<Event>)
    requires !e.StartFrame? && !e.DisconnectBegins? && Flushes(Next(s, e), es)
    requires Next(s, e).acks == s.acks && Head(Next(s, e)) == Head(s) && Next(s, e).epoch == s.epoch
    ensures Flushes(s, [e] + es)
  {
    hide Next;
    RunCons(s, e, es);
  }

  lemma RequestFlushes(s: State) returns (es: seq<Event>)
    requires Ready(s) && (|s.pending| >= s.batch ==> !RefRuns(s, s.fullRef))
    ensures Flushes(s, es)
  {
    hide Next, Ready, Flushes;
    RequestSpawns(s);
    var r := Next(s, PartialRequested);
    var t := |s.tasks|;
    SleeperFlushes(r, t);
    es := [PartialRequested] + ToTheWire(t);
    FlushesAfter(s, PartialRequested, ToTheWire(t));
  }

  /** What ends a full ACK whose send is of an earlier epoch. */
  function Ending(task: Task, t: nat): Event {
    if task.cancelled then CancelRuns(t)
    else
      match task.phase
      case AtLock(_) => LockGranted(t)
      case Returned(_) => SendResumed(t)
      case Noting(_, _) => NoteDone(t)
      case _ => GattCancelled(t)
  }

  lemma EndingEnds(s: State, t: nat)
    requires Ready(s) && t < |s.tasks| && s.tasks[t].kind == Full && !Done(s.tasks[t])
    requires s.tasks[t].cancelled || s.tasks[t].phase != Sleeping
    ensures var r := Next(s, Ending(s.tasks[t], t)); Ready(r) && r == s.(tasks := r.tasks, fullRef := None)
  {
    var p := s.tasks[t].phase;
    if SendIn(p).Some? {
      assert SendIn(p).value.epoch < s.epoch && InTime(s, p);
      WiredSetPhase(s, t, Finished(Remainder(p)));
    }
    WiredSetPhase(s, t, Finished(None));
  }

  lemma ReadyFlushes(s: State) returns (es: seq<Event>)
    requires Ready(s)
    ensures Flushes(s, es)
  {
    hide Next, Flushes;
    if |s.pending| >= s.batch && RefRuns(s, s.fullRef) {
      var t := s.fullRef.value;
      if s.tasks[t].phase == Sleeping && !s.tasks[t].cancelled {
        es := ToTheWire(t);
        SleeperFlushes(s, t);
      } else {
        var e := Ending(s.tasks[t], t);
        EndingEnds(s, t);
        var rest := RequestFlushes(Next(s, e));
        FlushesAfter(s, e, rest);
        es := [e] + rest;
      }
    } else {
      es := RequestFlushes(s);
    }
  }

  /** Once a disconnect has begun, the list of an active session can still go out, under the next epoch. */
  lemma DisconnectFlushes(s: State) returns (es: seq<Event>)
    requires Inv(s) && s.active && s.pending != []
    ensures Flushes(Next(s, DisconnectBegins), es) && Head(Next(s, DisconnectBegins)) == Head(s)
  {
    hide Next, Sound;
    StepWired(s, DisconnectBegins);
    SoundEpochs(s);
    var gone := Next(s, DisconnectBegins);
    GoneIsReady(s);
    StepWired(gone, LinkChanged(true));
    var rest := ReadyFlushes(Next(gone, LinkChanged(true)));
    FlushesAfter(gone, LinkChanged(true), rest);
    es := [LinkChanged(true)] + rest;
  }

  lemma GoneIsReady(s: State)
    requires Wired(s) && EpochsPast(s) && s.active && s.pending != []
    ensures var gone := Next(s, DisconnectBegins); var r := Next(gone, LinkChanged(true));
            && gone.epoch == s.epoch + 1 && gone.acks == s.acks
            && (Wired(r) ==> Ready(r)) && Head(r) == Head(gone) == Head(s) && r.acks == s.acks && r.epoch == gone.epoch
  {
    hide Wired;
  }

  // ----- a failed save -----

  /** The worker is in `save_record` and its completion will not be stale. */
  predicate SavingNow(s: State) {
    s.worker.Saving? && s.worker.epoch == s.epoch && s.worker.client == s.client
  }

  /** Some run without a new START writes a data ACK. */
  ghost predicate StillAcks(s: State) {
    exists es :: NoStart(es) && |Run(s, es).acks| > |s.acks|
  }

  /** A pending summary of an active session, or a send that the epoch does not stop. */
  predicate SomethingToSend(s: State) {
    (s.active && s.pending != []) || exists t :: 0 <= t < |s.tasks| && MayWrite(s, s.tasks[t])
  }

  lemma ErrorMutes(s: State)
    requires Inv(s)
    ensures Muted(OnlineFailed(s)) && Sound(OnlineFailed(s), None) && OnlineFailed(s).acks == s.acks
  {
    var failed := OnlineFailed(s);
    SoundEpochs(s);
    CancelAges(s.tasks, s.fullRef, s.partialRef);
    assert TasksAge(s.tasks, failed.tasks) && s.epoch < failed.epoch && !failed.active;
    hide Sound;
    SoundFailed(s, None);
    WiredFailed(s);
    OldSends(s, failed);
    hide Wired;
    OldIsMuted(failed);
  }

  /** After any run, an online error stops every data ACK until the next START, whatever happens in between. */
  lemma ErrorSilences(es: seq<Event>, more: seq<Event>)
    requires NoStart(more)
    ensures var s := Run(Initial(), es); Run(OnlineFailed(s), more).acks == s.acks
  {
    hide Next, Inv, Muted, Sound;
    var s := Run(Initial(), es);
    RunWired(es);
    ErrorMutes(s);
    RunMuted(OnlineFailed(s), more);
  }

  lemma FirstFailureMutes(s: State)
    requires Inv(s) && SavingNow(s) && s.fault == NoFault
    ensures Muted(Next(s, SaveDone(false)))
  {
    var closed := s.(worker := Idle, fault := Closed);
    assert Next(s, SaveDone(false)) == OnlineFailed(closed);
    SoundLater(s, closed, None);
    WiredLater(s, closed);
    ErrorMutes(closed);
  }

  lemma LaterFailureMutes(s: State)
    requires Inv(s) && SavingNow(s) && !SomethingToSend(s) && s.fault != NoFault
    ensures Muted(Next(s, SaveDone(false)))
  {
    StepWired(s, SaveDone(false));
    assert Next(s, SaveDone(false)) == s.(worker := Idle, fault := Closed);
  }

  /** The rest of the way of a send to the wire. */
  function Remaining(p: Phase, t: nat): seq<Event> {
    match p
    case AtLock(_) => [LinkChanged(true), LockGranted(t)] + ([GattPopped(t)] + [GattWrite(t)])
    case Queued(_) => [GattPopped(t)] + [GattWrite(t)]
    case _ => [GattWrite(t)]
  }

  /** In what a send may still write, its names are there. */
  predicate MayName(s: State, t: nat) {
    t < |s.tasks| && MayWrite(s, s.tasks[t]) && SendIn(s.tasks[t].phase).value.names != []
  }

  lemma WriterWrites(s: State, t: nat)
    requires MayName(s, t) && !s.tasks[t].phase.AtLock? && !s.tasks[t].phase.Queued?
    ensures |Run(s, [GattWrite(t)]).acks| == |s.acks| + 1
  {
    RunOne(s, GattWrite(t));
    hide SetPhase, Conclude, Run;
    PhaseKeepsAcks(Written(s, t, SendIn(s.tasks[t].phase).value), t);
  }

  lemma PhaseKeepsAcks(s: State, t: nat)
    requires t < |s.tasks|
    ensures forall phase :: SetPhase(s, t, phase).acks == s.acks
  {
  }

  lemma QueuedIsPopped(s: State, t: nat)
    requires MayName(s, t) && s.tasks[t].phase.Queued?
    ensures var r := Next(s, GattPopped(t)); MayName(r, t) && r.tasks[t].phase.Popped? && r.acks == s.acks
  {
  }

  lemma LockIsGranted(s: State, t: nat)
    requires MayName(s, t) && s.tasks[t].phase.AtLock?
    ensures var r := Next(Next(s, LinkChanged(true)), LockGranted(t));
            MayName(r, t) && r.tasks[t].phase.Queued? && r.acks == s.acks
  {
  }

  lemma QueuedGoesOut(s: State, t: nat)
    requires MayName(s, t) && s.tasks[t].phase.Queued?
    ensures |Run(s, [GattPopped(t)] + [GattWrite(t)]).acks| == |s.acks| + 1
  {
    hide Next, Run, MayName;
    QueuedIsPopped(s, t);
    WriterWrites(Next(s, GattPopped(t)), t);
    RunCons(s, GattPopped(t), [GattWrite(t)]);
  }

  lemma SendGoesOut(s: State, t: nat)
    requires MayName(s, t)
    ensures NoStart(Remaining(s.tasks[t].phase, t)) && |Run(s, Remaining(s.tasks[t].phase, t)).acks| == |s.acks| + 1
  {
    hide Next, Run;
    if s.tasks[t].phase.AtLock? {
      LockIsGranted(s, t);
      QueuedGoesOut(Next(Next(s, LinkChanged(true)), LockGranted(t)), t);
      RunTwo(s, LinkChanged(true), LockGranted(t));
      RunAppend(s, [LinkChanged(true), LockGranted(t)], [GattPopped(t)] + [GattWrite(t)]);
    } else if s.tasks[t].phase.Queued? {
      QueuedGoesOut(s, t);
    } else {
      WriterWrites(s, t);
    }
  }

  lemma SomethingGoesOut(s: State)
    requires Inv(s) && SomethingToSend(s)
    ensures StillAcks(s)
  {
    if s.active && s.pending != [] {
      hide Next;
      var more := DisconnectFlushes(s);
      RunCons(s, DisconnectBegins, more);
      assert Next(s, DisconnectBegins).acks == s.acks by { GoneIsReady(s) by { SoundEpochs(s); } }
      assert NoStart([DisconnectBegins] + more);
    } else {
      var t: nat :| t < |s.tasks| && MayWrite(s, s.tasks[t]);
      SendIsOk(s, t, None);
      SendGoesOut(s, t);
    }
  }

  /**
   * "None is sent after a failed save", for every run: it holds exactly when no fault was recorded
   * yet or there is nothing to send. With `ack_metadata_exhausted` already recorded, the failed save
   * only ends the draining: the session stays active in the same epoch, and what waits still goes out.
   */
  lemma FailedSaveSilencesExactly(es: seq<Event>)
    requires SavingNow(Run(Initial(), es))
    ensures var s := Run(Initial(), es);
            StillAcks(Next(s, SaveDone(false))) <==> s.fault != NoFault && SomethingToSend(s)
  {
    hide Run;
    var s := Run(Initial(), es);
    RunWired(es);
    StepSound(s, SaveDone(false), None);
    StepWired(s, SaveDone(false));
    var failed := Next(s, SaveDone(false));
    if s.fault != NoFault && SomethingToSend(s) {
      assert failed == s.(worker := Idle, fault := Closed);
      SameToSend(s, failed);
      hide Next, SomethingToSend;
      SomethingGoesOut(failed);
    } else {
      hide Next;
      if s.fault == NoFault {
        FirstFailureMutes(s);
      } else {
        LaterFailureMutes(s);
      }
      forall more | NoStart(more) ensures Run(failed, more).acks == failed.acks {
        RunMuted(failed, more);
      }
    }
  }

  /** A run that gets there: one summary waits in a batch of four when metadata cannot be flushed. */
  const DRAINING_RUN := [StartFrame(1, 4), LinkChanged(true), Deliver(1, Summary, true)]
                        + [SaveDone(true), Deliver(2, Summary, true), MetadataExhausted]

  const FIRST_SUMMARY := Saved(1, Summary, 1, Some(1))

  /** After the first three events: the first summary is being saved. */
  const FIRST_SAVING :=
    State(1, Some(1), 0, true, 0, true, 4, NoFault, Saving(1, Summary, 1, 0), [], [], None, None, [], [], 0, [])

  const DRAINING :=
    State(1, Some(1), 0, true, 0, true, 4, Draining, Saving(2, Summary, 1, 0), [FIRST_SUMMARY], [], None, None,
          [FIRST_SUMMARY], [], 0, [])

  lemma DrainingStarts()
    ensures Next(Next(Next(Initial(), StartFrame(1, 4)), LinkChanged(true)), Deliver(1, Summary, true)) == FIRST_SAVING
  {
  }

  lemma DrainingGoesOn()
    ensures Next(Next(Next(FIRST_SAVING, SaveDone(true)), Deliver(2, Summary, true)), MetadataExhausted) == DRAINING
  {
  }

  lemma FailedSaveIsFollowedByAnAck()
    ensures var s := Run(Initial(), DRAINING_RUN);
            && SavingNow(s) && s.fault == Draining && s.active && |s.pending| == 1
            && StillAcks(Next(s, SaveDone(false)))
  {
    hide Next, Run, StillAcks;
    DrainingStarts();
    DrainingGoesOn();
    RunThree(Initial(), StartFrame(1, 4), LinkChanged(true), Deliver(1, Summary, true));
    RunThree(FIRST_SAVING, SaveDone(true), Deliver(2, Summary, true), MetadataExhausted);
    RunAppend(Initial(), [StartFrame(1, 4), LinkChanged(true), Deliver(1, Summary, true)],
              [SaveDone(true), Deliver(2, Summary, true), MetadataExhausted]);
    FailedSaveSilencesExactly(DRAINING_RUN);
  }

  lemma SameToSend(s: State, r: State)
    requires r == s.(worker := r.worker, fault := r.fault) && SomethingToSend(s)
    ensures SomethingToSend(r)
  {
    if t: nat :| t < |s.tasks| && MayWrite(s, s.tasks[t]) {
      assert MayWrite(r, r.tasks[t]);
    }
  }

  // ----- the epoch of an ACK -----

  /** An ACK from the n-th on names a record of another epoch. */
  predicate OutOfEpoch(acks: seq<Ack>, n: nat) {
    exists k, i :: n <= k < |acks| && 0 <= i < |acks[k].names| && acks[k].names[i].epoch != acks[k].epoch
  }

  /** After a disconnect begins, some run without a further one writes an ACK that outlives its epoch. */
  ghost predicate OutlivesItsEpoch(s: State) {
    exists es :: NoTeardown(es) && OutOfEpoch(Run(Next(s, DisconnectBegins), es).acks, |s.acks|)
  }

  /** No ACK from the n-th on will be out of epoch: nothing is written, or what is written is exact. */
  predicate InEpoch(s: State, n: nat) {
    Sound(s, Some(n)) || (Sound(s, None) && Muted(s) && !s.active && |s.acks| == n)
  }

  lemma StepInEpoch(s: State, n: nat, e: Event)
    requires InEpoch(s, n) && !e.DisconnectBegins?
    ensures InEpoch(Next(s, e), n)
  {
    hide Sound, Muted, Next;
    if Sound(s, Some(n)) {
      StepSound(s, e, Some(n));
    } else if e.StartFrame? {
      RestartInEpoch(s, n, e.newSession, e.ackBatch);
      assert InEpoch(Next(s, e), n);
    } else {
      StepMuted(s, e);
      StaysInactive(s, e);
    }
  }

  lemma StaysInactive(s: State, e: Event)
    requires !s.active && !e.StartFrame?
    ensures !Next(s, e).active
  {
    if OfTask(e) {
      TaskStaysInactive(s, e);
    } else {
      OtherStaysInactive(s, e);
    }
  }

  lemma ConcludeKeepsActive(s: State, t: nat)
    requires t < |s.tasks|
    ensures forall send, skipped, outcome :: Conclude(s, t, send, skipped, outcome).active == s.active
  {
  }

  lemma TaskStaysInactive(s: State, e: Event)
    requires !s.active && OfTask(e)
    ensures !Next(s, e).active
  {
    hide Conclude, Current;
    if e.task < |s.tasks| {
      ConcludeKeepsActive(s, e.task);
    }
  }

  lemma OtherStaysInactive(s: State, e: Event)
    requires !s.active && !e.StartFrame? && !OfTask(e)
    ensures !Next(s, e).active
  {
    hide CancelTask;
  }

  lemma OldSends(s: State, r: State)
    requires EpochsPast(s) && TasksAge(s.tasks, r.tasks) && s.epoch < r.epoch
    ensures SendsOld(r)
  {
  }

  lemma BecomesExact(r: State, n: nat)
    requires Sound(r, None) && SendsOld(r) && r.pending == [] && |r.acks| == n
    ensures Sound(r, Some(n))
  {
    hide AllSaved;
    forall t | 0 <= t < |r.tasks| && SendIn(r.tasks[t].phase).Some?
      ensures SendFits(r.saved, r.epoch, SendIn(r.tasks[t].phase).value, Some(n))
    {
      assert SendFits(r.saved, r.epoch, SendIn(r.tasks[t].phase).value, None);
    }
    assert AllSaved(r.saved, r.pending, r.epoch, r.session, true) by { NothingSaved(r.saved, r.epoch, r.session); }
  }

  lemma NothingSaved(saved: seq<Saved>, epoch: nat, session: Option<nat>)
    ensures AllSaved(saved, [], epoch, session, true)
  {
  }

  lemma RestartInEpoch(s: State, n: nat, session: nat, batch: nat)
    requires InEpoch(s, n) && Sound(s, None)
    ensures |s.acks| == n ==> InEpoch(Next(s, StartFrame(session, batch)), n)
  {
    if s.worker == Idle && s.fault == NoFault && |s.acks| == n {
      var r := Started(s, session, batch);
      SoundRestart(s, session, batch, None);
      SoundEpochs(s);
      CancelAges(s.tasks, s.fullRef, s.partialRef);
      hide Sound, CancelTask;
      OldSends(s, r);
      BecomesExact(r, n);
    }
  }

  lemma {:induction false} RunInEpoch(s: State, n: nat, es: seq<Event>)
    requires InEpoch(s, n) && NoTeardown(es)
    ensures InEpoch(Run(s, es), n)
    decreases |es|
  {
    hide Next, InEpoch;
    if es != [] {
      RunInEpoch(s, n, es[..|es| - 1]);
      StepInEpoch(Run(s, es[..|es| - 1]), n, es[|es| - 1]);
    }
  }

  lemma InEpochIsExact(s: State, n: nat)
    requires InEpoch(s, n)
    ensures !OutOfEpoch(s.acks, n)
  {
    if Sound(s, Some(n)) {
      forall k | n <= k < |s.acks| ensures AckOk(s.saved, s.acks[k], true) {
      }
    }
  }

  /** Without an active session or without a pending summary, a disconnect ends the epoch for good. */
  lemma DisconnectEndsTheEpoch(s: State)
    requires Inv(s) && !(s.active && s.pending != [])
    ensures InEpoch(Next(s, DisconnectBegins), |s.acks|)
  {
    hide Sound, Wired, Muted;
    var gone := Next(s, DisconnectBegins);
    StepSound(s, DisconnectBegins, None);
    StepWired(s, DisconnectBegins);
    SoundEpochs(s);
    WorkerAges(s);
    OldSends(s, gone);
    if s.pending == [] {
      BecomesExact(gone, |s.acks|);
    } else {
      OldIsMuted(gone);
    }
  }

  lemma OldIsMuted(s: State)
    requires Wired(s) && SendsOld(s) && !s.active
    ensures Muted(s)
  {
  }

  /**
   * Once a disconnect has begun, the epoch has moved on but the pending list and the session are
   * still there. After every run: an ACK naming a record of an earlier epoch can follow, with no
   * further disconnect, exactly when the session was active and a summary was pending.
   */
  lemma AckOutlivesItsEpoch(es: seq<Event>)
    ensures var s := Run(Initial(), es); OutlivesItsEpoch(s) <==> s.active && s.pending != []
  {
    hide Next, Inv, InEpoch;
    var s := Run(Initial(), es);
    RunWired(es);
    if s.active && s.pending != [] {
      OutlivingRun(s);
    } else {
      DisconnectEndsTheEpoch(s);
      forall more | NoTeardown(more) ensures !OutOfEpoch(Run(Next(s, DisconnectBegins), more).acks, |s.acks|) {
        RunInEpoch(Next(s, DisconnectBegins), |s.acks|, more);
        InEpochIsExact(Run(Next(s, DisconnectBegins), more), |s.acks|);
      }
    }
  }

  lemma OutlivingRun(s: State)
    requires Inv(s) && s.active && s.pending != []
    ensures OutlivesItsEpoch(s)
  {
    var gone := Next(s, DisconnectBegins);
    assert gone.epoch == s.epoch + 1 && gone.acks == s.acks && s.batch > 0;
    assert s.pending[0].epoch <= s.epoch;
    hide Next, Inv;
    var more := DisconnectFlushes(s);
    var acks := Run(gone, more).acks;
    assert acks[|s.acks|].names == Head(s) && Head(s)[0] == s.pending[0];
    assert OutOfEpoch(acks, |s.acks|);
  }
}
