/** `OnlineStorageWorker`: its critical sections, updating the worker's fields in place. */
module StorageWorker {
  import opened StorageWorkerSpec
  import opened Wrappers

  class OnlineStorageWorker<S> {
    const sem: Semantics<S>
    /** The executor's queue: jobs in submission order, `finished` of them done. */
    var accepted: seq<Job>
    var finished: nat
    var working: Working
    var pending: set<nat>
    var closed: bool
    var live: map<StoreId, S>
    var states: map<StoreId, S>
    ghost var initial: map<StoreId, S>

    ghost function View(): State<S>
      reads this
    {
      State(accepted, finished, working, pending, closed, live, states, initial)
    }

    /** Snapshots are folds of whole prefixes, and the queue is within its limits. */
    ghost predicate Valid()
      reads this
    {
      Inv(sem, View())
    }

    constructor (sem: Semantics<S>, live: map<StoreId, S>)
      ensures this.sem == sem && Valid() && View() == Fresh(live)
    {
      this.sem := sem;
      accepted, finished, working, pending, closed := [], 0, Idle, {}, false;
      this.live, states, initial := live, map[], map[];
    }

    /** `snapshot`: seed on the first look, then whatever the executor last published. */
    method Snapshot(store: StoreId) returns (shown: S)
      requires Valid() && store in live
      modifies this
      ensures Valid() && View() == Next(sem, old(View()), Seed(store))
      ensures store in states && shown == states[store]
      ensures shown == Fold(sem, initial[store], accepted, finished, store)
    {
      StepKeeps(sem, View(), Seed(store));
      if store !in states {
        states := states[store := live[store]];
        initial := initial[store := live[store]];
      }
      return states[store];
    }

    /** `submit`: the number of the accepted operation, or nothing when closing or full. */
    method SubmitRequest(store: StoreId, request: Request) returns (number: Option<nat>)
      requires Valid() && store in live
      modifies this
      ensures Valid()
      ensures var seeded := Next(sem, old(View()), Seed(store));
              && View() == Next(sem, seeded, Admit(Job(store, request)))
              && number == if Admitted(seeded, Job(store, request)) then Some(old(|accepted|)) else None
    {
      var _ := Snapshot(store);
      StepKeeps(sem, View(), Admit(Job(store, request)));
      hide Inv;
      if closed {
        return None;
      }
      var limit := if request.Abort? then MAX_PENDING else MAX_PENDING - 2;
      if |pending| >= limit {
        return None;
      }
      pending := pending + {|accepted|};
      accepted := accepted + [Job(store, request)];
      return Some(|accepted| - 1);
    }

    /** The executor thread takes the next queued operation. */
    method TakeJob()
      requires Valid() && Enabled(View(), Take)
      modifies this
      ensures Valid() && View() == Next(sem, old(View()), Take)
    {
      StepKeeps(sem, View(), Take);
      hide Inv;
      working := Taken;
    }

    /** `_execute` up to its `finally`. */
    method RunTaken()
      requires Valid() && Enabled(View(), RunJob)
      modifies this
      ensures Valid() && View() == Next(sem, old(View()), RunJob)
    {
      StepKeeps(sem, View(), RunJob);
      hide Inv;
      var job := accepted[finished];
      var s := live[job.store];
      if !(job.request == Abort(true) && sem.ended(s)) {
        s := sem.run(s, job.request);
      }
      live := live[job.store := s];
      working := Ran;
    }

    /** The `finally` of `_execute`: store the snapshot under the lock; the future is then done. */
    method PublishRan()
      requires Valid() && Enabled(View(), Publish)
      modifies this
      ensures Valid() && View() == Next(sem, old(View()), Publish)
    {
      StepKeeps(sem, View(), Publish);
      hide Inv;
      var store := accepted[finished].store;
      states := states[store := live[store]];
      finished := finished + 1;
      working := Idle;
    }

    /** `_completed`. */
    method Completed(number: nat)
      requires Valid() && number < finished
      modifies this
      ensures Valid() && View() == Next(sem, old(View()), Discard(number))
    {
      StepKeeps(sem, View(), Discard(number));
      hide Inv;
      pending := pending - {number};
    }

    method CloseWorker()
      requires Valid()
      modifies this
      ensures Valid() && View() == Next(sem, old(View()), Close)
    {
      StepKeeps(sem, View(), Close);
      hide Inv;
      closed := true;
    }
  }
}
