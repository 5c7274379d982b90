/** Which outcome of an operation reaches its caller, in every run of the executor. */
module GattQueueOutcome {
  import opened GattQueueSafety
  import opened GattQueueSpec
  import opened Wrappers

  // ----- what a caller can observe of a run -----

  function GaveUp(s: State, step: Step): set<nat> {
    if step.CallerStep? && FutureOf(s, step.sequence) == Pending then {step.sequence} else {}
  }

  /** The futures whose callers were cancelled while they were waiting. */
  function GivenUp(s: State, steps: seq<Step>): set<nat>
    requires IsRun(s, steps)
    decreases |steps|
  {
    if steps == [] then {} else GaveUp(s, steps[0]) + GivenUp(Next(s, steps[0]), steps[1..])
  }

  function StaleActive(s: State): set<nat> {
    if s.active.Some? && !Current(s.active.value.queued.token, s.token) then {s.active.value.queued.sequence} else {}
  }

  /** The operations that were active at some moment when their token was no longer current. */
  function WentStale(s: State, steps: seq<Step>): set<nat>
    requires IsRun(s, steps)
    decreases |steps|
  {
    StaleActive(s) + if steps == [] then {} else WentStale(Next(s, steps[0]), steps[1..])
  }

  /** What a caller gets: a result only over a link that stayed, but an exception in any case. */
  function Fate(outcome: Outcome, givenUp: bool, stale: bool): Future {
    if givenUp then WasCancelled
    else
      match outcome
      case Returned(v) => if stale then WasCancelled else HasResult(v)
      case Raised => HasException
      case Aborted => WasCancelled
  }

  // ----- the invariant -----

  ghost predicate EndedOk(s: State, n: nat, outcome: Outcome, gone: set<nat>, stale: set<nat>) {
    && n <= s.sequence && !InQueue(s.pending, n)
    && (ActiveIs(s, n) ==> s.active.value.phase == Finished(outcome))
    && (!ActiveIs(s, n) ==> FutureOf(s, n) == Fate(outcome, n in gone, n in stale))
  }

  ghost predicate AllEndedOk(s: State, gone: set<nat>, stale: set<nat>) {
    forall k :: 0 <= k < |s.log| && s.log[k].Ended? ==> EndedOk(s, s.log[k].sequence, s.log[k].outcome, gone, stale)
  }

  ghost predicate ActiveOk(s: State, gone: set<nat>, stale: set<nat>) {
    s.active.Some? ==>
      var task := s.active.value; var n := task.queued.sequence;
      && FutureOf(s, n) == (if n in gone then WasCancelled else Pending)
      && (n in stale <==> !Current(task.queued.token, s.token))
      && (task.queued.token.Some? ==> task.queued.token.value <= s.token)
      && (task.phase.Finished? && task.phase.outcome != Aborted ==> Ended(n, task.phase.outcome) in s.log)
  }

  ghost predicate MarksOk(s: State, gone: set<nat>, stale: set<nat>) {
    && (forall n :: n in gone ==> FutureOf(s, n) == WasCancelled && n <= s.sequence)
    && (forall n :: n in stale ==> n <= s.sequence && !InQueue(s.pending, n))
  }

  /** A delivered result or exception is the one with which that very body ended. */
  predicate Own(log: seq<Entry>, n: nat, f: Future) {
    match f
    case HasResult(v) => Ended(n, Returned(v)) in log
    case HasException => Ended(n, Raised) in log
    case _ => true
  }

  predicate FuturesOwn(s: State) {
    forall n :: n in s.futures ==> Own(s.log, n, s.futures[n])
  }

  predicate SettledOwn(log: seq<Entry>) {
    forall i :: 0 <= i < |log| && log[i].Settled? ==> Own(log[..i], log[i].sequence, log[i].future)
  }

  ghost predicate Fates(s: State, gone: set<nat>, stale: set<nat>) {
    && AllEndedOk(s, gone, stale) && ActiveOk(s, gone, stale) && MarksOk(s, gone, stale)
    && FuturesOwn(s) && SettledOwn(s.log)
  }

  // ----- steps that end no body and deliver nothing -----

  predicate OnlySettles(a: seq<Entry>, b: seq<Entry>) {
    && |a| <= |b| && b[..|a|] == a
    && forall k :: |a| <= k < |b| ==> b[k].Settled? && b[k].future == WasCancelled
  }

  /** Queued operations are dropped, their futures at most cancelled, and the token only grows. */
  ghost predicate Drops(s: State, r: State) {
    && OnlySettles(s.log, r.log) && s.sequence == r.sequence && s.token <= r.token
    && (forall n :: InQueue(r.pending, n) ==> InQueue(s.pending, n))
    && (s.active.Some? <==> r.active.Some?)
    && (s.active.Some? ==>
          r.active.value.queued == s.active.value.queued && r.active.value.phase == s.active.value.phase)
    && (forall n :: n in r.futures <==> n in s.futures)
    && (forall n :: n in s.futures ==>
          r.futures[n] == s.futures[n]
          || (InQueue(s.pending, n) && s.futures[n] == Pending && r.futures[n] == WasCancelled))
  }

  lemma OwnGrows(a: seq<Entry>, b: seq<Entry>, n: nat, f: Future)
    requires |a| <= |b| && b[..|a|] == a && Own(a, n, f)
    ensures Own(b, n, f)
  {
    assert forall e :: e in a ==> e in b;
  }

  lemma SettledGrows(a: seq<Entry>, b: seq<Entry>)
    requires SettledOwn(a) && OnlySettles(a, b)
    ensures SettledOwn(b)
  {
    forall i | 0 <= i < |b| && b[i].Settled? ensures Own(b[..i], b[i].sequence, b[i].future) {
      if i < |a| {
        assert b[i] == b[..|a|][i] == a[i] && b[..i] == a[..i];
        assert Own(a[..i], a[i].sequence, a[i].future);
      }
    }
  }

  lemma DropsFates(s: State, r: State, gone: set<nat>, stale: set<nat>)
    requires Tracked(s) && Fates(s, gone, stale) && Drops(s, r)
    ensures Fates(r, gone, stale + StaleActive(r))
  {
    DropsEnded(s, r, gone, stale);
    SettledGrows(s.log, r.log);
    forall n | n in r.futures ensures Own(r.log, n, r.futures[n]) {
      OwnGrows(s.log, r.log, n, s.futures[n]);
    }
    assert forall e :: e in s.log ==> e in r.log;
  }

  lemma DropsEnded(s: State, r: State, gone: set<nat>, stale: set<nat>)
    requires Tracked(s) && Fates(s, gone, stale) && Drops(s, r)
    ensures AllEndedOk(r, gone, stale + StaleActive(r))
  {
    forall k | 0 <= k < |r.log| && r.log[k].Ended?
      ensures EndedOk(r, r.log[k].sequence, r.log[k].outcome, gone, stale + StaleActive(r))
    {
      assert k < |s.log| && r.log[k] == r.log[..|s.log|][k] == s.log[k];
      assert EndedOk(s, s.log[k].sequence, s.log[k].outcome, gone, stale);
    }
  }

  // ----- the steps -----

  lemma SubmitFates(s: State, token: Option<nat>, priority: nat, gone: set<nat>, stale: set<nat>)
    requires Inv(s) && Fates(s, gone, stale)
    ensures Fates(Submit(s, token, priority), gone, stale)
  {
    if Current(token, s.token) {
      var r := Submit(s, token, priority);
      var q := Queued(priority, s.sequence + 1, token);
      forall n: nat ensures InQueue(r.pending, n) <==> InQueue(s.pending, n) || n == s.sequence + 1 {
        InQueueAppend(s.pending, q, n);
      }
      assert forall n: nat :: n <= s.sequence ==> FutureOf(r, n) == FutureOf(s, n);
      forall k | 0 <= k < |r.log| && r.log[k].Ended?
        ensures EndedOk(r, r.log[k].sequence, r.log[k].outcome, gone, stale)
      {
        assert EndedOk(s, s.log[k].sequence, s.log[k].outcome, gone, stale);
      }
    }
  }

  lemma {:induction false} CancelDroppedDrops(s: State, p: seq<Queued>)
    requires Tracked(s) && Held(s) && p <= s.pending
    ensures Drops(s, CancelDropped(s, p)) && CancelDropped(s, p).pending == s.pending
    ensures CancelDropped(s, p) == s.(futures := CancelDropped(s, p).futures, log := CancelDropped(s, p).log)
    decreases |p|
  {
    if p != [] {
      var q := p[|p| - 1];
      CancelDroppedDrops(s, p[..|p| - 1]);
      assert s.pending[|p| - 1] == q && InQueue(s.pending, q.sequence);
    }
  }

  lemma ConnectionDrops(s: State)
    requires Tracked(s) && Held(s)
    ensures Drops(s, ChangeConnection(s))
  {
    var moved := s.(token := s.token + 1);
    var dropped := CancelDropped(moved, s.pending);
    CancelDroppedDrops(moved, s.pending);
    SurvivorsQueued(s.pending, moved.token);
    var kept := dropped.(pending := Survivors(s.pending, moved.token));
    hide CancelDropped, InQueue, Tracked, Held, Survivors;
    assert Drops(s, kept);
    assert ChangeConnection(s) == CancelActive(kept);
  }

  lemma ConnectionFates(s: State, gone: set<nat>, stale: set<nat>)
    requires Inv(s) && Fates(s, gone, stale)
    ensures var r := ChangeConnection(s); Fates(r, gone, stale + StaleActive(r))
  {
    hide Fates, ChangeConnection;
    ConnectionDrops(s);
    DropsFates(s, ChangeConnection(s), gone, stale);
  }

  lemma SurvivorsQueued(p: seq<Queued>, current: nat)
    requires Distinct(p)
    ensures forall n :: InQueue(Survivors(p, current), n) ==> InQueue(p, n)
  {
    forall n | InQueue(Survivors(p, current), n) ensures InQueue(p, n) {
      SurvivorsOf(p, current, n);
    }
  }

  /** Only the active operation, or who waits for it, changes. */
  lemma StartFates(s: State, gone: set<nat>, stale: set<nat>)
    requires Inv(s) && Fates(s, gone, stale) && Enabled(s, StartStep)
    ensures Fates(StartTask(s), gone, stale)
  {
    var r := StartTask(s);
    forall k | 0 <= k < |r.log| && r.log[k].Ended?
      ensures EndedOk(r, r.log[k].sequence, r.log[k].outcome, gone, stale)
    {
      assert EndedOk(s, s.log[k].sequence, s.log[k].outcome, gone, stale);
    }
    OthersOwn(s, r);
  }

  lemma OthersOwn(s: State, r: State)
    requires FuturesOwn(s) && SettledOwn(s.log) && r.futures == s.futures
    requires r.log == s.log || (|r.log| == |s.log| + 1 && r.log[..|s.log|] == s.log && !r.log[|s.log|].Settled?)
    ensures FuturesOwn(r) && SettledOwn(r.log)
  {
    forall n | n in r.futures ensures Own(r.log, n, r.futures[n]) {
      assert r.log[..|s.log|] == s.log;
      OwnGrows(s.log, r.log, n, s.futures[n]);
    }
    forall i | 0 <= i < |r.log| && r.log[i].Settled? ensures Own(r.log[..i], r.log[i].sequence, r.log[i].future) {
      assert r.log[i] == s.log[i] && r.log[..i] == s.log[..i];
      assert Own(s.log[..i], s.log[i].sequence, s.log[i].future);
    }
  }

  lemma EndFates(s: State, outcome: Outcome, gone: set<nat>, stale: set<nat>)
    requires Inv(s) && Fates(s, gone, stale) && Enabled(s, EndStep(outcome))
    ensures Fates(EndTask(s, outcome), gone, stale)
  {
    var r := EndTask(s, outcome);
    forall k | 0 <= k < |r.log| && r.log[k].Ended?
      ensures EndedOk(r, r.log[k].sequence, r.log[k].outcome, gone, stale)
    {
      if k < |s.log| {
        assert EndedOk(s, s.log[k].sequence, s.log[k].outcome, gone, stale);
      }
    }
    OthersOwn(s, r);
  }

  lemma CallerFates(s: State, n: nat, gone: set<nat>, stale: set<nat>)
    requires Inv(s) && Fates(s, gone, stale)
    ensures Fates(CancelCaller(s, n), gone + GaveUp(s, CallerStep(n)), stale)
  {
    if FutureOf(s, n) == Pending {
      var r := CancelCaller(s, n);
      forall k | 0 <= k < |r.log| && r.log[k].Ended?
        ensures EndedOk(r, r.log[k].sequence, r.log[k].outcome, gone + {n}, stale)
      {
        assert EndedOk(s, s.log[k].sequence, s.log[k].outcome, gone, stale);
      }
      assert OnlySettles(s.log, r.log);
      SettledGrows(s.log, r.log);
      forall m | m in r.futures ensures Own(r.log, m, r.futures[m]) {
        OwnGrows(s.log, r.log, m, s.futures[m]);
      }
    } else {
      assert gone + {} == gone;
    }
  }

  lemma SettleFates(s: State, gone: set<nat>, stale: set<nat>)
    requires Inv(s) && Fates(s, gone, stale) && s.active.Some? && s.active.value.phase.Finished?
    ensures Fates(SettleActive(s), gone, stale)
  {
    var task := s.active.value;
    var n := task.queued.sequence;
    var r := SettleActive(s);
    var f := Fate(task.phase.outcome, false, n in stale);
    assert FutureOf(r, n) == Fate(task.phase.outcome, n in gone, n in stale);
    assert forall m :: m != n ==> FutureOf(r, m) == FutureOf(s, m);
    forall k | 0 <= k < |r.log| && r.log[k].Ended?
      ensures EndedOk(r, r.log[k].sequence, r.log[k].outcome, gone, stale)
    {
      assert EndedOk(s, s.log[k].sequence, s.log[k].outcome, gone, stale);
    }
    assert Own(s.log, n, f);
    SettleOwn(s, r, n, f);
  }

  lemma SettleOwn(s: State, r: State, n: nat, f: Future)
    requires FuturesOwn(s) && SettledOwn(s.log) && Own(s.log, n, f)
    requires (r.futures == s.futures && r.log == s.log)
             || (r.futures == s.futures[n := f] && exists t, c :: r.log == s.log + [Settled(n, f, t, c)])
    ensures FuturesOwn(r) && SettledOwn(r.log)
  {
    if r.log != s.log {
      forall m | m in r.futures ensures Own(r.log, m, r.futures[m]) {
        OwnGrows(s.log, r.log, m, r.futures[m]);
      }
      forall i | 0 <= i < |r.log| && r.log[i].Settled? ensures Own(r.log[..i], r.log[i].sequence, r.log[i].future) {
        if i < |s.log| {
          assert r.log[i] == s.log[i] && r.log[..i] == s.log[..i];
          assert Own(s.log[..i], s.log[i].sequence, s.log[i].future);
        } else {
          assert r.log[..i] == s.log;
        }
      }
    }
  }

  lemma ActivateFates(s: State, i: nat, gone: set<nat>, stale: set<nat>)
    requires Core(s) && Fates(s, gone, stale) && i < |s.pending| && s.active == None
    requires Current(s.pending[i].token, s.token) && FutureOf(s, s.pending[i].sequence) == Pending
    ensures Fates(Activated(s, i), gone, stale)
  {
    var r := Activated(s, i);
    WithoutDistinct(s.pending, i);
    forall n: nat ensures InQueue(r.pending, n) ==> InQueue(s.pending, n) {
      WithoutQueue(s.pending, i, n);
    }
    assert InQueue(s.pending, s.pending[i].sequence);
    forall k | 0 <= k < |r.log| && r.log[k].Ended?
      ensures EndedOk(r, r.log[k].sequence, r.log[k].outcome, gone, stale)
    {
      assert EndedOk(s, s.log[k].sequence, s.log[k].outcome, gone, stale);
    }
  }

  lemma {:induction false} RunLoopFates(s: State, gone: set<nat>, stale: set<nat>)
    requires Core(s) && Fates(s, gone, stale) && s.active == None
    requires forall i :: 0 <= i < |s.pending| ==> Current(s.pending[i].token, s.token)
    ensures Fates(RunLoop(s), gone, stale)
    decreases |s.pending|
  {
    hide Fates, Core;
    if s.pending == [] {
      DropsFates(s, s.(runner := NoRunner), gone, stale) by { CoreTracked(s); }
      assert stale + {} == stale;
    } else {
      var i := LeastIndex(s.pending);
      if FutureOf(s, s.pending[i].sequence) != Pending {
        var popped := s.(pending := Without(s.pending, i));
        DropSettled(s, i);
        forall n: nat ensures InQueue(popped.pending, n) ==> InQueue(s.pending, n) {
          WithoutQueue(s.pending, i, n);
        }
        DropsFates(s, popped, gone, stale) by { CoreTracked(s); }
        assert stale + {} == stale;
        RunLoopFates(popped, gone, stale);
      } else {
        ActivateFates(s, i, gone, stale);
        assert RunLoop(s) == Activated(s, i);
      }
    }
  }

  lemma CoreTracked(s: State)
    requires Core(s)
    ensures Tracked(s)
  {
  }

  lemma RunnerFates(s: State, gone: set<nat>, stale: set<nat>)
    requires Inv(s) && Fates(s, gone, stale) && CanResume(s)
    ensures Fates(ResumeRunner(s), gone, stale)
  {
    if s.runner == Scheduled {
      RunLoopFates(s, gone, stale);
    } else {
      SettleActiveKeeps(s);
      SettleFates(s, gone, stale);
      RunLoopFates(SettleActive(s), gone, stale);
    }
  }

  /** Between connection changes the stale operations stay the same. */
  lemma StaleKnown(s: State, gone: set<nat>, stale: set<nat>)
    requires Fates(s, gone, stale)
    ensures stale + StaleActive(s) == stale
  {
  }

  lemma StepFates(s: State, step: Step, gone: set<nat>, stale: set<nat>)
    requires Inv(s) && Fates(s, gone, stale) && Enabled(s, step)
    ensures Fates(Next(s, step), gone + GaveUp(s, step), stale + StaleActive(Next(s, step)))
  {
    hide Fates;
    var r := Next(s, step);
    if step.ConnectionStep? {
      ConnectionFates(s, gone, stale);
      assert gone + {} == gone;
    } else {
      assert !step.CallerStep? ==> gone + GaveUp(s, step) == gone;
      match step {
        case SubmitStep(token, priority) => SubmitFates(s, token, priority, gone, stale);
        case StartStep => StartFates(s, gone, stale);
        case EndStep(outcome) => EndFates(s, outcome, gone, stale);
        case RunnerStep => RunnerFates(s, gone, stale);
        case CallerStep(n) => CallerFates(s, n, gone, stale);
      }
      StaleKnown(r, gone + GaveUp(s, step), stale);
    }
  }

  lemma {:induction false} RunFates(s: State, steps: seq<Step>, gone: set<nat>, stale: set<nat>)
    requires Inv(s) && Fates(s, gone, stale) && IsRun(s, steps)
    ensures Fates(After(s, steps), gone + GivenUp(s, steps), stale + WentStale(s, steps))
    decreases |steps|
  {
    hide Fates, Inv, Next;
    StaleKnown(s, gone, stale);
    if steps == [] {
      assert gone + {} == gone && StaleActive(s) + {} == StaleActive(s);
    } else {
      var r := Next(s, steps[0]);
      StepKeeps(s, steps[0]);
      StepFates(s, steps[0], gone, stale);
      var gone1 := gone + GaveUp(s, steps[0]);
      var stale1 := stale + StaleActive(r);
      RunFates(r, steps[1..], gone1, stale1);
      assert gone1 + GivenUp(r, steps[1..]) == gone + GivenUp(s, steps);
      StaleFirst(r, steps[1..]);
      assert stale1 + WentStale(r, steps[1..]) == stale + WentStale(s, steps);
    }
  }

  lemma StaleFirst(s: State, steps: seq<Step>)
    requires IsRun(s, steps)
    ensures StaleActive(s) <= WentStale(s, steps)
  {
  }

  /**
   * For every run: once the body of an operation has ended and the executor has let it go, its caller
   * has got the outcome of that body: cancelled if it had given up waiting, the exception if it raised,
   * and the result unless the connection changed meanwhile. Nothing but an operation's own outcome is
   * ever delivered as its result or exception, and only after its body has ended.
   */
  lemma OutcomeReachesItsCaller(steps: seq<Step>)
    requires IsRun(INITIAL, steps)
    ensures var s := After(INITIAL, steps);
            && (forall n, outcome :: Ended(n, outcome) in s.log && !ActiveIs(s, n) ==>
                  FutureOf(s, n) == Fate(outcome, n in GivenUp(INITIAL, steps), n in WentStale(INITIAL, steps)))
            && (forall i :: 0 <= i < |s.log| && s.log[i].Settled? ==>
                  Own(s.log[..i], s.log[i].sequence, s.log[i].future))
  {
    hide Next;
    RunFates(INITIAL, steps, {}, {});
    var s := After(INITIAL, steps);
    var gone, stale := GivenUp(INITIAL, steps), WentStale(INITIAL, steps);
    assert {} + gone == gone && {} + stale == stale;
    forall n, outcome | Ended(n, outcome) in s.log && !ActiveIs(s, n)
      ensures FutureOf(s, n) == Fate(outcome, n in gone, n in stale)
    {
      var k :| 0 <= k < |s.log| && s.log[k] == Ended(n, outcome);
      assert EndedOk(s, n, outcome, gone, stale);
    }
  }

  /**
   * An operation whose token went stale while it was active never delivers a result. But it delivers
   * an exception if and only if its body raised one and its caller was still waiting, because only
   * results are checked again.
   */
  lemma StaleOperationOutcome(steps: seq<Step>, n: nat)
    requires IsRun(INITIAL, steps) && n in WentStale(INITIAL, steps) && !ActiveIs(After(INITIAL, steps), n)
    ensures var s := After(INITIAL, steps);
            && !FutureOf(s, n).HasResult?
            && (FutureOf(s, n) == HasException <==> Ended(n, Raised) in s.log && n !in GivenUp(INITIAL, steps))
  {
    hide Next, IsRun, After, GivenUp, WentStale;
    OutcomeReachesItsCaller(steps);
    DeliveredIsOwn(steps, n);
  }

  lemma DeliveredIsOwn(steps: seq<Step>, n: nat)
    requires IsRun(INITIAL, steps)
    ensures var s := After(INITIAL, steps); Own(s.log, n, FutureOf(s, n))
  {
    hide Next;
    RunFates(INITIAL, steps, {}, {});
  }

  /** A run in which the exception of a stale operation reaches its caller. */
  const STALE_RUN := [SubmitStep(Some(0), 0), RunnerStep, StartStep, ConnectionStep, EndStep(Raised), RunnerStep]

  lemma StaleExceptionIsDelivered()
    ensures IsRun(INITIAL, STALE_RUN)
    ensures var s := After(INITIAL, STALE_RUN);
            s.token == 1 && 1 in WentStale(INITIAL, STALE_RUN) && !ActiveIs(s, 1) && FutureOf(s, 1) == HasException
  {
  }
}
