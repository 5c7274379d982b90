/** What every interleaving of the GATT executor keeps. */
module GattQueueSafety {
  import opened GattQueueSpec
  import opened Wrappers

  // ----- the invariant -----

  predicate InQueue(p: seq<Queued>, n: nat) {
    exists i :: 0 <= i < |p| && p[i].sequence == n
  }

  predicate Distinct(p: seq<Queued>) {
    forall i, j :: 0 <= i < j < |p| ==> p[i].sequence != p[j].sequence
  }

  predicate ActiveIs(s: State, n: nat) {
    s.active.Some? && s.active.value.queued.sequence == n
  }

  /** Queued and active operations are distinct submissions of this executor. */
  ghost predicate Tracked(s: State) {
    && Distinct(s.pending)
    && (forall i :: 0 <= i < |s.pending| ==> 1 <= s.pending[i].sequence <= s.sequence)
    && (s.active.Some? ==>
          1 <= s.active.value.queued.sequence <= s.sequence && !InQueue(s.pending, s.active.value.queued.sequence))
  }

  /** No future is lost: an unsettled one belongs to a queued or to the active operation. */
  ghost predicate Held(s: State) {
    && (forall n: nat :: n in s.futures <==> 1 <= n <= s.sequence)
    && (forall n :: n in s.futures && s.futures[n] == Pending ==> InQueue(s.pending, n) || ActiveIs(s, n))
  }

  /** What a log entry says is still true of the state, or was true of its moment. */
  ghost predicate EntryOk(s: State, e: Entry) {
    match e
    case Started(q, current) =>
      && Current(q.token, current) && q.sequence <= s.sequence
      && !InQueue(s.pending, q.sequence)
      && (ActiveIs(s, q.sequence) ==> !s.active.value.phase.Created?)
    case Ended(_, _) => true
    case Settled(n, f, token, current) =>
      && (f.HasResult? ==> Current(token, current))
      && f != Pending && n in s.futures && s.futures[n] == f
  }

  ghost predicate LogOk(s: State) {
    forall i :: 0 <= i < |s.log| ==> EntryOk(s, s.log[i])
  }

  predicate SameKind(a: Entry, b: Entry) {
    || (a.Started? && b.Started? && a.queued.sequence == b.queued.sequence)
    || (a.Settled? && b.Settled? && a.sequence == b.sequence)
  }

  /** No operation starts twice and no future settles twice. */
  predicate Once(log: seq<Entry>) {
    forall i, j :: 0 <= i < j < |log| ==> !SameKind(log[i], log[j])
  }

  /** The operation whose body is running after `log`, if any. */
  function InFlight(log: seq<Entry>): Option<nat>
    decreases |log|
  {
    if log == [] then None
    else
      match log[|log| - 1]
      case Started(q, _) => Some(q.sequence)
      case Ended(_, _) => None
      case Settled(_, _, _, _) => InFlight(log[..|log| - 1])
  }

  /** A body only starts when none is running, and only the running one ends. */
  predicate Serial(log: seq<Entry>)
    decreases |log|
  {
    log == [] ||
    var before := log[..|log| - 1];
    Serial(before) &&
    match log[|log| - 1]
    case Started(_, _) => InFlight(before) == None
    case Ended(n, _) => InFlight(before) == Some(n)
    case Settled(_, _, _, _) => true
  }

  function RunningNow(s: State): Option<nat> {
    if s.active.Some? && s.active.value.phase.Running? then Some(s.active.value.queued.sequence) else None
  }

  ghost predicate Core(s: State) {
    && Tracked(s) && Held(s) && LogOk(s) && Once(s.log) && Serial(s.log)
    && InFlight(s.log) == RunningNow(s)
  }

  /** Queued operations carry the current token; a stale active one is being cancelled. */
  predicate Fenced(s: State) {
    && (forall i :: 0 <= i < |s.pending| ==> Current(s.pending[i].token, s.token))
    && (s.active.Some? && !Current(s.active.value.queued.token, s.token) && !s.active.value.phase.Finished? ==>
          s.active.value.cancelRequested)
  }

  /** A non-empty queue always has a live runner. */
  predicate Awake(s: State) {
    && (s.runner == Awaiting <==> s.active.Some?)
    && (s.pending != [] ==> s.runner != NoRunner)
  }

  ghost predicate Inv(s: State) {
    Core(s) && Fenced(s) && Awake(s)
  }

  // ----- log and futures -----

  lemma AppendEntry(log: seq<Entry>, e: Entry)
    ensures InFlight(log + [e]) ==
            match e case Started(q, _) => Some(q.sequence) case Ended(_, _) => None case _ => InFlight(log)
    ensures Serial(log + [e]) <==>
            Serial(log) &&
            match e
            case Started(_, _) => InFlight(log) == None
            case Ended(n, _) => InFlight(log) == Some(n)
            case _ => true
  {
    assert (log + [e])[..|log|] == log;
  }

  lemma AppendOnce(log: seq<Entry>, e: Entry)
    requires Once(log) && forall i :: 0 <= i < |log| ==> !SameKind(log[i], e)
    ensures Once(log + [e])
  {
  }

  lemma SettleFutureKeeps(s: State, n: nat, f: Future, token: Option<nat>)
    requires Core(s) && FutureOf(s, n) == Pending && f != Pending
    requires f.HasResult? ==> Current(token, s.token)
    ensures Core(s.(futures := s.futures[n := f], log := s.log + [Settled(n, f, token, s.token)]))
  {
    var e := Settled(n, f, token, s.token);
    AppendEntry(s.log, e);
    forall i | 0 <= i < |s.log| ensures !SameKind(s.log[i], e) {
      assert EntryOk(s, s.log[i]);
    }
    AppendOnce(s.log, e);
    var t := s.(futures := s.futures[n := f], log := s.log + [e]);
    forall i | 0 <= i < |t.log| ensures EntryOk(t, t.log[i]) {
      if i < |s.log| {
        assert EntryOk(s, s.log[i]);
      }
    }
  }

  lemma SettleKeeps(s: State, q: Queued, f: Future)
    requires Core(s) && f != Pending && (f.HasResult? ==> Current(q.token, s.token))
    ensures Core(Settle(s, q, f)) && FutureOf(Settle(s, q, f), q.sequence) != Pending
    ensures var t := Settle(s, q, f); t == s.(futures := t.futures, log := t.log)
    ensures forall n :: n != q.sequence ==> FutureOf(Settle(s, q, f), n) == FutureOf(s, n)
  {
    if FutureOf(s, q.sequence) == Pending {
      SettleFutureKeeps(s, q.sequence, f, q.token);
    }
  }

  // ----- popping -----

  lemma WithoutQueue(p: seq<Queued>, i: nat, n: nat)
    requires i < |p|
    ensures InQueue(Without(p, i), n) ==> InQueue(p, n)
    ensures InQueue(p, n) && p[i].sequence != n ==> InQueue(Without(p, i), n)
  {
    var r := Without(p, i);
    if InQueue(r, n) {
      var k :| 0 <= k < |r| && r[k].sequence == n;
      assert r[k] == p[if k < i then k else k + 1];
    }
    if InQueue(p, n) && p[i].sequence != n {
      var k :| 0 <= k < |p| && p[k].sequence == n;
      assert r[if k < i then k else k - 1] == p[k];
    }
  }

  lemma WithoutDistinct(p: seq<Queued>, i: nat)
    requires i < |p| && Distinct(p)
    ensures Distinct(Without(p, i)) && !InQueue(Without(p, i), p[i].sequence)
  {
    var r := Without(p, i);
    forall j | 0 <= j < |r| ensures r[j] == p[if j < i then j else j + 1] {
    }
  }

  lemma ShrunkLog(s: State, p: seq<Queued>)
    requires LogOk(s) && forall n :: InQueue(p, n) ==> InQueue(s.pending, n)
    ensures LogOk(s.(pending := p))
  {
    forall i | 0 <= i < |s.log| ensures EntryOk(s.(pending := p), s.log[i]) {
      assert EntryOk(s, s.log[i]);
    }
  }

  lemma DropSettled(s: State, i: nat)
    requires Core(s) && i < |s.pending| && FutureOf(s, s.pending[i].sequence) != Pending
    ensures Core(s.(pending := Without(s.pending, i)))
  {
    var r := Without(s.pending, i);
    WithoutDistinct(s.pending, i);
    forall n: nat ensures InQueue(r, n) ==> InQueue(s.pending, n) {
      WithoutQueue(s.pending, i, n);
    }
    forall n | n in s.futures && s.futures[n] == Pending ensures InQueue(r, n) || ActiveIs(s, n) {
      WithoutQueue(s.pending, i, n);
    }
    ShrunkLog(s, r);
  }

  function Activated(s: State, i: nat): State
    requires i < |s.pending|
  {
    s.(pending := Without(s.pending, i), active := Some(ActiveTask(s.pending[i], Created, false)), runner := Awaiting)
  }

  lemma ActivateKeeps(s: State, i: nat)
    requires Core(s) && i < |s.pending| && s.active == None
    ensures Core(Activated(s, i))
  {
    var t := Activated(s, i);
    WithoutDistinct(s.pending, i);
    forall n: nat ensures InQueue(t.pending, n) ==> InQueue(s.pending, n) {
      WithoutQueue(s.pending, i, n);
    }
    forall n | n in t.futures && t.futures[n] == Pending ensures InQueue(t.pending, n) || ActiveIs(t, n) {
      WithoutQueue(s.pending, i, n);
    }
    forall k | 0 <= k < |t.log| ensures EntryOk(t, t.log[k]) {
      assert EntryOk(s, s.log[k]);
    }
  }

  // ----- the runner -----

  lemma {:induction false} RunLoopKeeps(s: State)
    requires Core(s) && s.active == None
    requires forall i :: 0 <= i < |s.pending| ==> Current(s.pending[i].token, s.token)
    ensures Inv(RunLoop(s)) && RunLoop(s).token == s.token && RunLoop(s).sequence == s.sequence
    decreases |s.pending|
  {
    if s.pending != [] {
      var i := LeastIndex(s.pending);
      var q := s.pending[i];
      if FutureOf(s, q.sequence) != Pending {
        DropSettled(s, i);
        RunLoopKeeps(s.(pending := Without(s.pending, i)));
      } else {
        ActivateKeeps(s, i);
        assert RunLoop(s) == Activated(s, i);
      }
    } else {
      assert LogOk(s.(runner := NoRunner)) by {
        forall k | 0 <= k < |s.log| ensures EntryOk(s.(runner := NoRunner), s.log[k]) {
          assert EntryOk(s, s.log[k]);
        }
      }
    }
  }

  lemma ForgetActive(s: State)
    requires Core(s) && s.active.Some? && s.active.value.phase.Finished?
    requires FutureOf(s, s.active.value.queued.sequence) != Pending
    ensures Core(s.(active := None))
  {
    forall k | 0 <= k < |s.log| ensures EntryOk(s.(active := None), s.log[k]) {
      assert EntryOk(s, s.log[k]);
    }
  }

  lemma SettleActiveKeeps(s: State)
    requires Inv(s) && s.active.Some? && s.active.value.phase.Finished?
    ensures Core(SettleActive(s)) && SettleActive(s).active == None
    ensures SettleActive(s).pending == s.pending && SettleActive(s).token == s.token
  {
    var q := s.active.value.queued;
    var f :=
      match s.active.value.phase.outcome
      case Returned(v) => if Current(q.token, s.token) then HasResult(v) else WasCancelled
      case Aborted => WasCancelled
      case Raised => HasException;
    SettleKeeps(s, q, f);
    ForgetActive(Settle(s, q, f));
  }

  lemma RunnerKeeps(s: State)
    requires Inv(s) && CanResume(s)
    ensures Inv(ResumeRunner(s)) && ResumeRunner(s).token == s.token
  {
    if s.runner == Scheduled {
      RunLoopKeeps(s);
    } else {
      SettleActiveKeeps(s);
      RunLoopKeeps(SettleActive(s));
    }
  }

  // ----- submitting -----

  lemma SubmitKeeps(s: State, token: Option<nat>, priority: nat)
    requires Inv(s)
    ensures Inv(Submit(s, token, priority))
  {
    if Current(token, s.token) {
      var n := s.sequence + 1;
      var t := Submit(s, token, priority);
      var q := Queued(priority, n, token);
      forall m: nat ensures InQueue(t.pending, m) <==> InQueue(s.pending, m) || m == n {
        InQueueAppend(s.pending, q, m);
      }
      forall k | 0 <= k < |t.log| ensures EntryOk(t, t.log[k]) {
        assert EntryOk(s, s.log[k]);
      }
    }
  }

  lemma InQueueAppend(p: seq<Queued>, q: Queued, n: nat)
    ensures InQueue(p + [q], n) <==> InQueue(p, n) || q.sequence == n
  {
    if InQueue(p, n) {
      var i :| 0 <= i < |p| && p[i].sequence == n;
      assert (p + [q])[i] == p[i];
    }
    if q.sequence == n {
      assert (p + [q])[|p|] == q;
    }
  }

  // ----- changing the connection -----

  predicate Dropped(p: seq<Queued>, current: nat, n: nat) {
    exists i :: 0 <= i < |p| && p[i].sequence == n && !Current(p[i].token, current)
  }

  lemma {:induction false} SurvivorsOf(p: seq<Queued>, current: nat, n: nat)
    requires Distinct(p)
    ensures Distinct(Survivors(p, current))
    ensures forall i :: 0 <= i < |Survivors(p, current)| ==>
              Survivors(p, current)[i] in p && Current(Survivors(p, current)[i].token, current)
    ensures InQueue(Survivors(p, current), n) ==> InQueue(p, n)
    ensures InQueue(p, n) ==> InQueue(Survivors(p, current), n) || Dropped(p, current, n)
    decreases |p|
  {
    if p != [] {
      var before := p[..|p| - 1];
      var last := p[|p| - 1];
      assert p == before + [last];
      SurvivorsOf(before, current, n);
      InQueueAppend(before, last, n);
      InQueueAppend(Survivors(before, current), last, n);
      assert Survivors(before, current) + [] == Survivors(before, current);
      if Dropped(before, current, n) {
        var i :| 0 <= i < |before| && before[i].sequence == n && !Current(before[i].token, current);
        assert p[i] == before[i];
      }
      if last.sequence == n && !Current(last.token, current) {
        assert p[|p| - 1] == last;
      }
    }
  }

  lemma {:induction false} CancelDroppedKeeps(s: State, p: seq<Queued>)
    requires Core(s)
    ensures var t := CancelDropped(s, p);
            && Core(t) && t == s.(futures := t.futures, log := t.log)
            && (forall q :: q in p && !Current(q.token, s.token) ==> FutureOf(t, q.sequence) != Pending)
    decreases |p|
  {
    if p != [] {
      var before := p[..|p| - 1];
      var last := p[|p| - 1];
      assert p == before + [last];
      CancelDroppedKeeps(s, before);
      if !Current(last.token, s.token) {
        SettleKeeps(CancelDropped(s, before), last, WasCancelled);
      }
    }
  }

  lemma KeepSurvivors(s: State)
    requires Core(s)
    requires forall q :: q in s.pending && !Current(q.token, s.token) ==> FutureOf(s, q.sequence) != Pending
    ensures Core(s.(pending := Survivors(s.pending, s.token)))
    ensures forall q :: q in Survivors(s.pending, s.token) ==> Current(q.token, s.token)
  {
    var r := Survivors(s.pending, s.token);
    forall n: nat ensures InQueue(r, n) ==> InQueue(s.pending, n) {
      SurvivorsOf(s.pending, s.token, n);
    }
    SurvivorsOf(s.pending, s.token, 0);
    forall n | n in s.futures && s.futures[n] == Pending ensures InQueue(r, n) || ActiveIs(s, n) {
      SurvivorsOf(s.pending, s.token, n);
    }
    forall i | 0 <= i < |r| ensures 1 <= r[i].sequence <= s.sequence {
      assert r[i] in s.pending;
    }
    ShrunkLog(s, r);
  }

  lemma CancelActiveKeeps(s: State)
    requires Core(s)
    ensures Core(CancelActive(s))
  {
    var t := CancelActive(s);
    forall k | 0 <= k < |t.log| ensures EntryOk(t, t.log[k]) {
      assert EntryOk(s, s.log[k]);
    }
  }

  lemma ConnectionKeeps(s: State)
    requires Inv(s)
    ensures Inv(ChangeConnection(s))
  {
    TokenChangeKeepsCore(s);
    CancelStaleKeeps(s.(token := s.token + 1));
  }

  lemma TokenChangeKeepsCore(s: State)
    requires Core(s)
    ensures Core(s.(token := s.token + 1))
  {
    var a := s.(token := s.token + 1);
    forall k | 0 <= k < |a.log| ensures EntryOk(a, a.log[k]) {
      assert EntryOk(s, s.log[k]);
    }
  }

  /** `cancel_stale` restores the fence after a token change and empties nothing it should keep. */
  lemma CancelStaleKeeps(s: State)
    requires Core(s) && Awake(s)
    ensures Inv(CancelStale(s))
  {
    CancelDroppedKeeps(s, s.pending);
    var b := CancelDropped(s, s.pending);
    KeepSurvivors(b);
    CancelActiveKeeps(b.(pending := Survivors(b.pending, b.token)));
    if s.pending == [] {
      assert Survivors(s.pending, s.token) == [];
    }
  }

  // ----- bodies and callers -----

  lemma TaskKeeps(s: State, e: Entry, phase: Phase)
    requires Inv(s) && s.active.Some? && s.active.value.phase != phase && !phase.Created?
    requires !s.active.value.phase.Finished?
    requires if phase.Running?
             then s.active.value.phase.Created? && e == Started(s.active.value.queued, s.token)
                  && !s.active.value.cancelRequested
             else s.active.value.phase.Running? && e.Ended? && e.sequence == s.active.value.queued.sequence
    ensures Inv(s.(active := Some(s.active.value.(phase := phase)), log := s.log + [e]))
  {
    var t := s.(active := Some(s.active.value.(phase := phase)), log := s.log + [e]);
    AppendEntry(s.log, e);
    forall i | 0 <= i < |s.log| ensures !SameKind(s.log[i], e) {
      assert EntryOk(s, s.log[i]);
    }
    AppendOnce(s.log, e);
    forall k | 0 <= k < |t.log| ensures EntryOk(t, t.log[k]) {
      if k < |s.log| {
        assert EntryOk(s, s.log[k]);
      }
    }
  }

  lemma StartKeeps(s: State)
    requires Inv(s) && s.active.Some? && s.active.value.phase.Created?
    ensures Inv(StartTask(s))
  {
    if s.active.value.cancelRequested {
      var t := StartTask(s);
      forall k | 0 <= k < |t.log| ensures EntryOk(t, t.log[k]) {
        assert EntryOk(s, s.log[k]);
      }
    } else {
      TaskKeeps(s, Started(s.active.value.queued, s.token), Running);
    }
  }

  lemma StepKeeps(s: State, step: Step)
    requires Inv(s) && Enabled(s, step)
    ensures Inv(Next(s, step)) && s.token <= Next(s, step).token
  {
    match step
    case SubmitStep(token, priority) => SubmitKeeps(s, token, priority);
    case ConnectionStep =>
      ConnectionKeeps(s);
      CancelDroppedToken(s.(token := s.token + 1), s.pending);
    case StartStep => StartKeeps(s);
    case EndStep(outcome) => TaskKeeps(s, Ended(s.active.value.queued.sequence, outcome), Finished(outcome));
    case RunnerStep => RunnerKeeps(s);
    case CallerStep(n) =>
      if FutureOf(s, n) == Pending {
        SettleFutureKeeps(s, n, WasCancelled, None);
      }
  }

  lemma {:induction false} CancelDroppedToken(s: State, p: seq<Queued>)
    ensures CancelDropped(s, p).token == s.token
    decreases |p|
  {
    if p != [] {
      CancelDroppedToken(s, p[..|p| - 1]);
    }
  }

  lemma {:induction false} RunKeeps(s: State, steps: seq<Step>)
    requires Inv(s) && IsRun(s, steps)
    ensures Inv(After(s, steps)) && s.token <= After(s, steps).token
    decreases |steps|
  {
    if steps != [] {
      StepKeeps(s, steps[0]);
      RunKeeps(Next(s, steps[0]), steps[1..]);
    }
  }

  /**
   * Single flight with token fencing, for every interleaving of submissions, connection changes,
   * task turns, outcomes and caller cancellations: bodies never overlap, none starts under a stale
   * token, none starts twice, no future gets a result under a stale token, none settles twice.
   */
  lemma SingleFlight(steps: seq<Step>)
    requires IsRun(INITIAL, steps)
    ensures var log := After(INITIAL, steps).log;
            && Serial(log) && Once(log)
            && (forall i :: 0 <= i < |log| && log[i].Started? ==> Current(log[i].queued.token, log[i].current))
            && (forall i :: 0 <= i < |log| && log[i].Settled? && log[i].future.HasResult? ==>
                  Current(log[i].token, log[i].current))
  {
    RunKeeps(INITIAL, steps);
    var s := After(INITIAL, steps);
    forall i | 0 <= i < |s.log| ensures EntryOk(s, s.log[i]) {
    }
  }

  predicate Ends(e: Entry, n: nat) {
    e.Ended? && e.sequence == n
  }

  /** Until an operation's body ends, it is the one in flight. */
  lemma {:induction false} StillInFlight(log: seq<Entry>, i: nat)
    requires Serial(log) && i < |log| && log[i].Started?
    requires forall k :: i < k < |log| ==> !Ends(log[k], log[i].queued.sequence)
    ensures InFlight(log) == Some(log[i].queued.sequence)
    decreases |log|
  {
    if i < |log| - 1 {
      var before := log[..|log| - 1];
      assert forall k :: i < k < |before| ==> before[k] == log[k];
      StillInFlight(before, i);
    }
  }

  lemma {:induction false} SerialPrefix(log: seq<Entry>, n: nat)
    requires Serial(log) && n <= |log|
    ensures Serial(log[..n])
    decreases |log|
  {
    if n == |log| {
      assert log[..n] == log;
    } else {
      assert log[..|log| - 1][..n] == log[..n];
      SerialPrefix(log[..|log| - 1], n);
    }
  }

  /** What `Serial` means: between the starts of two bodies the earlier one has ended. */
  lemma SerialMeansDisjoint(log: seq<Entry>, i: nat, j: nat)
    requires Serial(log) && i < j < |log| && log[i].Started? && log[j].Started?
    ensures exists k :: i < k < j && Ends(log[k], log[i].queued.sequence)
  {
    SerialPrefix(log, j + 1);
    assert log[..j + 1][..j] == log[..j];
    if forall k :: i < k < j ==> !Ends(log[k], log[i].queued.sequence) {
      StillInFlight(log[..j], i);
    }
  }

  /** A token that is no longer current never becomes current again. */
  lemma StaleForever(s: State, steps: seq<Step>, token: nat)
    requires Inv(s) && IsRun(s, steps) && token < s.token
    ensures After(s, steps).token != token
  {
    RunKeeps(s, steps);
  }

  function Changes(steps: seq<Step>): nat
    decreases |steps|
  {
    if steps == [] then 0 else (if steps[0] == ConnectionStep then 1 else 0) + Changes(steps[1..])
  }

  lemma {:induction false} TokenCountsChanges(s: State, steps: seq<Step>)
    requires Inv(s) && IsRun(s, steps)
    ensures After(s, steps).token == s.token + Changes(steps)
    ensures Changes(steps) == 0 <==> ConnectionStep !in steps
    decreases |steps|
  {
    if steps != [] {
      StepKeeps(s, steps[0]);
      OneTokenPerChange(s, steps[0]);
      TokenCountsChanges(Next(s, steps[0]), steps[1..]);
      assert steps == [steps[0]] + steps[1..];
    }
  }

  lemma OneTokenPerChange(s: State, step: Step)
    requires Inv(s) && Enabled(s, step)
    ensures Next(s, step).token == s.token + if step == ConnectionStep then 1 else 0
  {
    match step
    case ConnectionStep => CancelDroppedToken(s.(token := s.token + 1), s.pending);
    case RunnerStep => if s.runner == Scheduled { RunLoopToken(s); } else { RunLoopToken(SettleActive(s)); }
    case _ =>
  }

  lemma {:induction false} RunLoopToken(s: State)
    ensures RunLoop(s).token == s.token
    decreases |s.pending|
  {
    if s.pending != [] {
      var q := s.pending[LeastIndex(s.pending)];
      var popped := s.(pending := Without(s.pending, LeastIndex(s.pending)));
      if FutureOf(s, q.sequence) != Pending {
        RunLoopToken(popped);
      } else if !Current(q.token, s.token) {
        RunLoopToken(Settle(popped, q, WasCancelled));
      }
    }
  }

  /**
   * A guarded callback compares its token when it is called. Whatever happens after it was bound, it
   * still runs if and only if the connection was never changed since, so never again after a change.
   */
  lemma GuardedUntilConnectionChanges(s: State, steps: seq<Step>, later: seq<Step>)
    requires Inv(s) && IsRun(s, steps) && IsRun(After(s, steps), later)
    ensures After(s, steps).token == s.token <==> ConnectionStep !in steps
    ensures ConnectionStep in steps ==> After(After(s, steps), later).token != s.token
  {
    RunKeeps(s, steps);
    TokenCountsChanges(s, steps);
    TokenCountsChanges(After(s, steps), later);
  }
}
