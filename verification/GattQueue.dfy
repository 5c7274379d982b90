/** `GattOperationQueue` and the token side of `ConnectionCoordinator`, updating their fields in place. */
module GattQueue {
  import opened GattQueueSafety
  import opened GattQueueSpec
  import opened Wrappers

  /**
   * The executor. Each method is the code between two awaits; `current` is what the coordinator's
   * `is_current` compares with at that moment.
   */
  class GattOperationQueue {
    var pending: seq<Queued>
    var sequence: nat
    var runner: Runner
    var active: Option<ActiveTask>
    var futures: map<nat, Future>
    ghost var log: seq<Entry>

    ghost function View(current: nat): State
      reads this
    {
      State(current, sequence, pending, futures, runner, active, log)
    }

    /** What every interleaving keeps, the fence against stale tokens included. */
    ghost predicate Valid(current: nat)
      reads this
    {
      Inv(View(current))
    }

    constructor ()
      ensures Valid(0) && View(0) == INITIAL
    {
      pending, sequence, runner, active, futures, log := [], 0, NoRunner, None, map[], [];
    }

    method SettleFuture(q: Queued, f: Future, current: nat)
      modifies this
      ensures View(current) == Settle(old(View(current)), q, f)
    {
      if q.sequence in futures && futures[q.sequence] == Pending {
        futures := futures[q.sequence := f];
        log := log + [Settled(q.sequence, f, q.token, current)];
      }
    }

    /** `heapq.heappop` on the list of queued operations. */
    method PopLeast() returns (q: Queued)
      requires pending != []
      modifies this`pending
      ensures q == old(pending)[LeastIndex(old(pending))]
      ensures pending == Without(old(pending), LeastIndex(old(pending)))
    {
      var least := 0;
      for i := 1 to |pending|
        invariant least < i && least == LeastIndex(pending[..i])
      {
        assert pending[..i + 1][..i] == pending[..i];
        if Less(pending[i], pending[least]) {
          least := i;
        }
      }
      assert pending[..|pending|] == pending;
      q := pending[least];
      pending := Without(pending, least);
    }

    /** `submit` up to its await: the number of the new future, or nothing for a stale token. */
    method SubmitOperation(token: Option<nat>, priority: nat, current: nat) returns (future: Option<nat>)
      requires Valid(current)
      modifies this
      ensures Valid(current) && View(current) == Submit(old(View(current)), token, priority)
      ensures future == if Current(token, current) then Some(old(sequence) + 1) else None
    {
      StepKeeps(View(current), SubmitStep(token, priority));
      hide Inv;
      if token != None && token != Some(current) {
        return None;
      }
      sequence := sequence + 1;
      futures := futures[sequence := Pending];
      pending := pending + [Queued(priority, sequence, token)];
      if runner == NoRunner {
        runner := Scheduled;
      }
      return Some(sequence);
    }

    method CancelStaleOperations(current: nat)
      requires Core(View(current)) && Awake(View(current))
      modifies this
      ensures Valid(current) && View(current) == CancelStale(old(View(current)))
    {
      ghost var before := View(current);
      CancelStaleKeeps(before);
      hide Inv, Core, Awake;
      var retained := [];
      for i := 0 to |pending|
        invariant pending == before.pending && retained == Survivors(pending[..i], current)
        invariant View(current) == CancelDropped(before, pending[..i])
      {
        assert pending[..i + 1][..i] == pending[..i];
        var q := pending[i];
        if q.token != None && q.token != Some(current) {
          SettleFuture(q, WasCancelled, current);
        } else {
          retained := retained + [q];
        }
      }
      assert pending[..|pending|] == pending;
      pending := retained;
      if active.Some? && active.value.queued.token != None && active.value.queued.token != Some(current)
         && !active.value.phase.Finished? {
        active := Some(active.value.(cancelRequested := true));
      }
    }

    /** The rest of `_run` after an operation: settle its future, unless the link has changed. */
    method FinishOperation(current: nat)
      requires active.Some? && active.value.phase.Finished?
      modifies this
      ensures View(current) == SettleActive(old(View(current)))
    {
      var q := active.value.queued;
      match active.value.phase.outcome {
        case Returned(value) =>
          if q.token != None && q.token != Some(current) {
            SettleFuture(q, WasCancelled, current);
          } else {
            SettleFuture(q, HasResult(value), current);
          }
        case Aborted => SettleFuture(q, WasCancelled, current);
        case Raised => SettleFuture(q, HasException, current);
      }
      active := None;
    }

    /** One turn of `_run`: from the start or from a finished operation to the next await or the end. */
    method RunnerTurn(current: nat)
      requires Valid(current) && CanResume(View(current))
      modifies this
      ensures Valid(current) && View(current) == ResumeRunner(old(View(current)))
    {
      StepKeeps(View(current), RunnerStep);
      hide Inv;
      if runner == Awaiting {
        FinishOperation(current);
      }
      ghost var start := View(current);
      while pending != []
        invariant RunLoop(View(current)) == RunLoop(start)
        decreases |pending|
      {
        ghost var s := View(current);
        var q := PopLeast();
        if q.sequence !in futures || futures[q.sequence] != Pending {
          continue;
        }
        if q.token != None && q.token != Some(current) {
          SettleFuture(q, WasCancelled, current);
          continue;
        }
        active := Some(ActiveTask(q, Created, false));
        runner := Awaiting;
        assert View(current) == RunLoop(s);
        return;
      }
      runner := NoRunner;
    }

    method TaskTurn(current: nat)
      requires Valid(current) && active.Some? && active.value.phase.Created?
      modifies this
      ensures Valid(current) && View(current) == StartTask(old(View(current)))
    {
      StepKeeps(View(current), StartStep);
      hide Inv;
      if active.value.cancelRequested {
        active := Some(active.value.(phase := Finished(Aborted)));
      } else {
        log := log + [Started(active.value.queued, current)];
        active := Some(active.value.(phase := Running));
      }
    }

    method TaskEnds(outcome: Outcome, current: nat)
      requires Valid(current) && active.Some? && active.value.phase.Running?
      modifies this
      ensures Valid(current) && View(current) == EndTask(old(View(current)), outcome)
    {
      StepKeeps(View(current), EndStep(outcome));
      hide Inv;
      log := log + [Ended(active.value.queued.sequence, outcome)];
      active := Some(active.value.(phase := Finished(outcome)));
    }

    method CallerCancelled(n: nat, current: nat)
      requires Valid(current)
      modifies this
      ensures Valid(current) && View(current) == CancelCaller(old(View(current)), n)
    {
      StepKeeps(View(current), CallerStep(n));
      hide Inv;
      if n in futures && futures[n] == Pending {
        futures := futures[n := WasCancelled];
        log := log + [Settled(n, WasCancelled, None, current)];
      }
    }
  }

  class ConnectionCoordinator {
    var token: nat
    const queue: GattOperationQueue

    constructor ()
      ensures token == 0 && fresh(queue) && queue.Valid(token) && queue.View(token) == INITIAL
    {
      token := 0;
      queue := new GattOperationQueue();
    }

    /** `begin`, and in the same way `invalidate`: take a new token, then cancel what became stale. */
    method Begin() returns (current: nat)
      requires queue.Valid(token)
      modifies this, queue
      ensures queue.Valid(token) && token == old(token) + 1 && current == token
      ensures queue.View(token) == ChangeConnection(old(queue.View(token)))
    {
      TokenChangeKeepsCore(queue.View(token));
      assert Awake(queue.View(token + 1));
      hide Inv, Core, Awake;
      token := token + 1;
      queue.CancelStaleOperations(token);
      return token;
    }

    /** `guard_callback`: a callback bound to an older token is dropped. */
    method GuardedCall(bound: nat) returns (called: bool)
      ensures called <==> bound == token
    {
      return token == bound;
    }
  }
}
