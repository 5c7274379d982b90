/**
 * The single-writer storage worker as an interleaving of its critical sections: callers read
 * snapshots and submit, one executor thread runs the accepted operations first in, first out.
 *
 * What an operation does to a store is not part of this model: it is the parameter `sem`.
 */
module StorageWorkerSpec {
  type StoreId = nat

  datatype Request = Abort(hostDisconnect: bool) | Call(name: string)

  /** `run` is the effect of a call, also one that raises part-way; `ended` reads the session status. */
  datatype Semantics<!S> = Semantics(run: (S, Request) -> S, ended: S -> bool)

  datatype Job = Job(store: StoreId, request: Request)

  const MAX_PENDING := 16

  /** Where the executor is with the job it took: about to run it, or about to publish its result. */
  datatype Working = Idle | Taken | Ran

  /**
   * Job numbers are positions in `accepted`. The first `finished` jobs are done; job `finished` is
   * the one being worked on. `live` is what the stores really hold, `states` what callers are shown.
   */
  datatype State<S> = State(
    accepted: seq<Job>, finished: nat, working: Working, pending: set<nat>, closed: bool,
    live: map<StoreId, S>, states: map<StoreId, S>, initial: map<StoreId, S>)

  function Effect<S>(sem: Semantics<S>, s: S, request: Request): S {
    if request == Abort(true) && sem.ended(s) then s else sem.run(s, request)
  }

  /** The operations of one store among the first `n` accepted, applied in submission order. */
  function Fold<S>(sem: Semantics<S>, start: S, accepted: seq<Job>, n: nat, store: StoreId): S
    requires n <= |accepted|
    decreases n
  {
    if n == 0 then start
    else
      var before := Fold(sem, start, accepted, n - 1, store);
      if accepted[n - 1].store == store then Effect(sem, before, accepted[n - 1].request) else before
  }

  function Limit(request: Request): nat {
    if request.Abort? then MAX_PENDING else MAX_PENDING - 2
  }

  datatype Step =
    | Seed(store: StoreId)         // snapshot(): the first look at a store
    | Admit(job: Job)              // submit() under the lock, after its own snapshot()
    | Take                         // the executor thread takes the next job
    | RunJob                       // the store method runs
    | Publish                      // the snapshot is stored, the future is done
    | Discard(number: nat)         // the done callback
    | Close

  predicate Admitted<S>(s: State<S>, job: Job) {
    !s.closed && |s.pending| < Limit(job.request)
  }

  predicate Enabled<S>(s: State<S>, step: Step) {
    match step
    case Seed(store) => store in s.live
    case Admit(job) => job.store in s.states
    case Take => s.working == Idle && s.finished < |s.accepted|
    case RunJob => s.working == Taken && s.finished < |s.accepted| && s.accepted[s.finished].store in s.live
    case Publish => s.working == Ran && s.finished < |s.accepted| && s.accepted[s.finished].store in s.live
    case Discard(job) => job < s.finished
    case Close => true
  }

  function Next<S>(sem: Semantics<S>, s: State<S>, step: Step): State<S>
    requires Enabled(s, step)
  {
    match step
    case Seed(store) =>
      if store in s.states then s
      else s.(states := s.states[store := s.live[store]], initial := s.initial[store := s.live[store]])
    case Admit(job) =>
      if Admitted(s, job) then s.(accepted := s.accepted + [job], pending := s.pending + {|s.accepted|}) else s
    case Take => s.(working := Taken)
    case RunJob =>
      var job := s.accepted[s.finished];
      s.(live := s.live[job.store := Effect(sem, s.live[job.store], job.request)], working := Ran)
    case Publish =>
      var store := s.accepted[s.finished].store;
      s.(states := s.states[store := s.live[store]], finished := s.finished + 1, working := Idle)
    case Discard(job) => s.(pending := s.pending - {job})
    case Close => s.(closed := true)
  }

  predicate IsRun<S>(sem: Semantics<S>, s: State<S>, steps: seq<Step>)
    decreases |steps|
  {
    steps == [] || (Enabled(s, steps[0]) && IsRun(sem, Next(sem, s, steps[0]), steps[1..]))
  }

  function After<S>(sem: Semantics<S>, s: State<S>, steps: seq<Step>): State<S>
    requires IsRun(sem, s, steps)
    decreases |steps|
  {
    if steps == [] then s else After(sem, Next(sem, s, steps[0]), steps[1..])
  }

  /** A worker before its first call, over stores that hold `live`. */
  function Fresh<S>(live: map<StoreId, S>): State<S> {
    State([], 0, Idle, {}, false, live, map[], map[])
  }

  // ----- the invariant -----

  ghost predicate Accounted<S>(s: State<S>) {
    && s.finished <= |s.accepted|
    && (s.working != Idle ==> s.finished < |s.accepted|)
    && (forall i :: 0 <= i < |s.accepted| ==> s.accepted[i].store in s.states)
    && s.states.Keys == s.initial.Keys && s.states.Keys <= s.live.Keys
    && (forall i :: i in s.pending ==> i < |s.accepted|)
    && (forall i :: s.finished <= i < |s.accepted| ==> i in s.pending)
  }

  /** Jobs whose effect is in the live stores. */
  function Executed<S>(s: State<S>): nat {
    if s.working == Ran then s.finished + 1 else s.finished
  }

  ghost predicate Linear<S>(sem: Semantics<S>, s: State<S>)
    requires Accounted(s)
  {
    forall store :: store in s.states ==>
      && s.states[store] == Fold(sem, s.initial[store], s.accepted, s.finished, store)
      && s.live[store] == Fold(sem, s.initial[store], s.accepted, Executed(s), store)
  }

  function NonAborts<S>(s: State<S>): set<nat> {
    set i | i in s.pending && i < |s.accepted| && !s.accepted[i].request.Abort?
  }

  ghost predicate Bounded<S>(s: State<S>) {
    |s.pending| <= MAX_PENDING && |NonAborts(s)| <= MAX_PENDING - 2
  }

  ghost predicate Inv<S>(sem: Semantics<S>, s: State<S>) {
    Accounted(s) && Linear(sem, s) && Bounded(s)
  }

  lemma {:induction false} FoldIgnoresLater<S>(
    sem: Semantics<S>, start: S, accepted: seq<Job>, job: Job, n: nat, store: StoreId)
    requires n <= |accepted|
    ensures Fold(sem, start, accepted + [job], n, store) == Fold(sem, start, accepted, n, store)
    decreases n
  {
    if n > 0 {
      FoldIgnoresLater(sem, start, accepted, job, n - 1, store);
    }
  }

  lemma {:induction false} FoldOfOthers<S>(sem: Semantics<S>, start: S, accepted: seq<Job>, n: nat, store: StoreId)
    requires n <= |accepted| && forall i :: 0 <= i < |accepted| ==> accepted[i].store != store
    ensures Fold(sem, start, accepted, n, store) == start
    decreases n
  {
    if n > 0 {
      FoldOfOthers(sem, start, accepted, n - 1, store);
    }
  }

  lemma SubsetSize(a: set<nat>, b: set<nat>)
    requires a <= b
    ensures |a| <= |b|
  {
    var rest := b - a;
    assert b == a + rest;
  }

  lemma AdmitLinear<S>(sem: Semantics<S>, s: State<S>, job: Job)
    requires Accounted(s) && Linear(sem, s) && job.store in s.states && Admitted(s, job)
    ensures var t := Next(sem, s, Admit(job)); Accounted(t) && Linear(sem, t)
  {
    var t := Next(sem, s, Admit(job));
    forall store | store in t.states
      ensures t.states[store] == Fold(sem, t.initial[store], t.accepted, t.finished, store)
              && t.live[store] == Fold(sem, t.initial[store], t.accepted, Executed(t), store)
    {
      FoldIgnoresLater(sem, s.initial[store], s.accepted, job, s.finished, store);
      FoldIgnoresLater(sem, s.initial[store], s.accepted, job, Executed(s), store);
    }
  }

  lemma AdmitBounded<S>(sem: Semantics<S>, s: State<S>, job: Job)
    requires Accounted(s) && Bounded(s) && job.store in s.states && Admitted(s, job)
    ensures Bounded(Next(sem, s, Admit(job)))
  {
    var t := Next(sem, s, Admit(job));
    if job.request.Abort? {
      assert NonAborts(t) == NonAborts(s);
    } else {
      SubsetSize(NonAborts(s), s.pending);
      assert NonAborts(t) == NonAborts(s) + {|s.accepted|};
    }
  }

  lemma AdmitKeeps<S>(sem: Semantics<S>, s: State<S>, job: Job)
    requires Inv(sem, s) && job.store in s.states && Admitted(s, job)
    ensures Inv(sem, Next(sem, s, Admit(job)))
  {
    AdmitLinear(sem, s, job);
    AdmitBounded(sem, s, job);
  }

  lemma SeedKeeps<S>(sem: Semantics<S>, s: State<S>, store: StoreId)
    requires Inv(sem, s) && store in s.live
    ensures Inv(sem, Next(sem, s, Seed(store)))
  {
    if store !in s.states {
      FoldOfOthers(sem, s.live[store], s.accepted, s.finished, store);
      FoldOfOthers(sem, s.live[store], s.accepted, Executed(s), store);
    }
    assert NonAborts(Next(sem, s, Seed(store))) == NonAborts(s);
  }

  lemma DiscardKeeps<S>(sem: Semantics<S>, s: State<S>, job: nat)
    requires Inv(sem, s) && job < s.finished
    ensures Inv(sem, Next(sem, s, Discard(job)))
  {
    var t := Next(sem, s, Discard(job));
    SubsetSize(t.pending, s.pending);
    SubsetSize(NonAborts(t), NonAborts(s));
  }

  lemma StepKeeps<S>(sem: Semantics<S>, s: State<S>, step: Step)
    requires Inv(sem, s) && Enabled(s, step)
    ensures Inv(sem, Next(sem, s, step))
  {
    match step
    case Seed(store) => SeedKeeps(sem, s, store);
    case Admit(job) => if Admitted(s, job) { AdmitKeeps(sem, s, job); }
    case Discard(job) => DiscardKeeps(sem, s, job);
    case Take => assert NonAborts(Next(sem, s, step)) == NonAborts(s);
    case RunJob => assert NonAborts(Next(sem, s, step)) == NonAborts(s);
    case Publish => assert NonAborts(Next(sem, s, step)) == NonAborts(s);
    case Close => assert NonAborts(Next(sem, s, step)) == NonAborts(s);
  }

  lemma {:induction false} RunKeeps<S>(sem: Semantics<S>, s: State<S>, steps: seq<Step>)
    requires Inv(sem, s) && IsRun(sem, s, steps)
    ensures Inv(sem, After(sem, s, steps))
    decreases |steps|
  {
    if steps != [] {
      StepKeeps(sem, s, steps[0]);
      RunKeeps(sem, Next(sem, s, steps[0]), steps[1..]);
    }
  }

  /**
   * Linearizability: in every run, what a caller is shown of a store is the store's initial state
   * with a whole prefix of its accepted operations applied in submission order, never part of one.
   */
  lemma SnapshotsLinearize<S>(sem: Semantics<S>, live: map<StoreId, S>, steps: seq<Step>, store: StoreId)
    requires IsRun(sem, Fresh(live), steps)
    requires store in After(sem, Fresh(live), steps).states
    ensures var s := After(sem, Fresh(live), steps);
            && store in s.initial && s.finished <= |s.accepted|
            && s.states[store] == Fold(sem, s.initial[store], s.accepted, s.finished, store)
  {
    RunKeeps(sem, Fresh(live), steps);
  }

  /** What `drain` waits for: with nothing pending every accepted operation shows in the snapshots. */
  lemma DrainedMeansAllApplied<S>(sem: Semantics<S>, live: map<StoreId, S>, steps: seq<Step>, store: StoreId)
    requires IsRun(sem, Fresh(live), steps)
    requires After(sem, Fresh(live), steps).pending == {} && store in After(sem, Fresh(live), steps).states
    ensures var s := After(sem, Fresh(live), steps);
            && store in s.initial
            && s.states[store] == Fold(sem, s.initial[store], s.accepted, |s.accepted|, store)
  {
    RunKeeps(sem, Fresh(live), steps);
    var s := After(sem, Fresh(live), steps);
    assert s.finished < |s.accepted| ==> s.finished in s.pending;
  }

  /**
   * Terminal cleanup always finds room: at most 16 operations are pending and at most 14 of them are
   * not aborts, so an abort that a full queue refuses is at least the third abort waiting.
   */
  lemma AbortsHaveRoom<S>(sem: Semantics<S>, live: map<StoreId, S>, steps: seq<Step>, job: Job)
    requires IsRun(sem, Fresh(live), steps)
    ensures var s := After(sem, Fresh(live), steps);
            && |s.pending| <= 16 && |NonAborts(s)| <= 14
            && (job.request.Abort? && !s.closed && !Admitted(s, job) ==> |s.pending - NonAborts(s)| >= 2)
  {
    RunKeeps(sem, Fresh(live), steps);
    var s := After(sem, Fresh(live), steps);
    assert s.pending == (s.pending - NonAborts(s)) + NonAborts(s);
  }

  /**
   * A host-disconnect abort that reaches a session after its end might as well never have been
   * submitted: dropping it from the accepted operations changes no later state of any store.
   */
  lemma {:induction false} LateDisconnectAbortIsVoid<S>(
    sem: Semantics<S>, start: S, accepted: seq<Job>, k: nat, n: nat, store: StoreId)
    requires k < n <= |accepted| && accepted[k].request == Abort(true)
    requires sem.ended(Fold(sem, start, accepted, k, store)) || accepted[k].store != store
    ensures Fold(sem, start, accepted, n, store)
            == Fold(sem, start, accepted[..k] + accepted[k + 1..], n - 1, store)
    decreases n
  {
    var others := accepted[..k] + accepted[k + 1..];
    if n == k + 1 {
      FoldOfSamePrefix(sem, start, accepted, others, k, store);
    } else {
      LateDisconnectAbortIsVoid(sem, start, accepted, k, n - 1, store);
      assert others[n - 2] == accepted[n - 1];
    }
  }

  lemma {:induction false} FoldOfSamePrefix<S>(
    sem: Semantics<S>, start: S, a: seq<Job>, b: seq<Job>, n: nat, store: StoreId)
    requires n <= |a| && n <= |b| && a[..n] == b[..n]
    ensures Fold(sem, start, a, n, store) == Fold(sem, start, b, n, store)
    decreases n
  {
    if n > 0 {
      assert a[..n - 1] == a[..n][..n - 1] && b[..n - 1] == b[..n][..n - 1];
      assert a[n - 1] == a[..n][n - 1] && b[n - 1] == b[..n][n - 1];
      FoldOfSamePrefix(sem, start, a, b, n - 1, store);
    }
  }
}
