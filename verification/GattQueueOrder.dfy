/** In which order queued operations leave the heap, and that all of them do. */
module GattQueueOrder {
  import opened GattQueueSafety
  import opened GattQueueSpec
  import opened Wrappers

  // ----- pop order -----

  predicate Ordered(p: seq<Queued>) {
    forall i, j :: 0 <= i < j < |p| ==> Less(p[i], p[j])
  }

  lemma SplitAt(p: seq<Queued>, i: nat)
    requires i < |p|
    ensures multiset(p) == multiset(Without(p, i)) + multiset{p[i]}
  {
    assert p == p[..i] + [p[i]] + p[i + 1..];
  }

  /** Popping yields the same operations, each before everything that is greater. */
  lemma {:induction false} PopOrderIsSorting(p: seq<Queued>)
    requires Distinct(p)
    ensures multiset(PopOrder(p)) == multiset(p) && Ordered(PopOrder(p))
    decreases |p|
  {
    if p != [] {
      var i := LeastIndex(p);
      var rest := Without(p, i);
      WithoutDistinct(p, i);
      PopOrderIsSorting(rest);
      SplitAt(p, i);
      forall k | 0 <= k < |PopOrder(rest)| ensures Less(p[i], PopOrder(rest)[k]) {
        assert PopOrder(rest)[k] in multiset(rest);
        LeastIsLess(p, i, PopOrder(rest)[k]);
      }
    }
  }

  lemma LeastIsLess(p: seq<Queued>, i: nat, q: Queued)
    requires p != [] && i == LeastIndex(p) && Distinct(p) && q in Without(p, i)
    ensures Less(p[i], q)
  {
    var rest := Without(p, i);
    var j :| 0 <= j < |rest| && rest[j] == q;
    var k := if j < i then j else j + 1;
    assert rest[j] == p[k] && k != i;
  }

  lemma HeadsAgree(a: seq<Queued>, b: seq<Queued>)
    requires multiset(a) == multiset(b) && Ordered(a) && Ordered(b) && a != []
    ensures b != [] && a[0] == b[0]
  {
    assert a[0] in multiset(b);
    var i :| 0 <= i < |b| && b[i] == a[0];
    assert b[0] in multiset(a);
    var j :| 0 <= j < |a| && a[j] == b[0];
  }

  lemma TailMultiset(a: seq<Queued>)
    requires a != []
    ensures multiset(a[1..]) == multiset(a) - multiset{a[0]}
  {
    assert a == [a[0]] + a[1..];
  }

  /** There is only one way to order the operations of a queue. */
  lemma {:induction false} OrderedIsUnique(a: seq<Queued>, b: seq<Queued>)
    requires multiset(a) == multiset(b) && Ordered(a) && Ordered(b)
    ensures a == b
    decreases |a|
  {
    if a == [] {
      assert |multiset(b)| == |b|;
    } else {
      HeadsAgree(a, b);
      TailMultiset(a);
      TailMultiset(b);
      OrderedIsUnique(a[1..], b[1..]);
      assert a == [a[0]] + a[1..] && b == [b[0]] + b[1..];
    }
  }

  lemma {:induction false} SurvivorsCount(p: seq<Queued>, current: nat, q: Queued)
    ensures multiset(Survivors(p, current))[q] == if Current(q.token, current) then multiset(p)[q] else 0
    decreases |p|
  {
    if p != [] {
      var before := p[..|p| - 1];
      assert p == before + [p[|p| - 1]];
      SurvivorsCount(before, current, q);
      assert Survivors(before, current) + [] == Survivors(before, current);
    }
  }

  lemma {:induction false} SurvivorsStayOrdered(p: seq<Queued>, current: nat)
    requires Ordered(p)
    ensures Ordered(Survivors(p, current))
    ensures forall q :: q in Survivors(p, current) ==> q in p
    decreases |p|
  {
    if p != [] {
      var kept := Survivors(p[..|p| - 1], current);
      SurvivorsStayOrdered(p[..|p| - 1], current);
      assert kept + [] == kept;
      forall i | 0 <= i < |kept| ensures Less(kept[i], p[|p| - 1]) {
        assert kept[i] in p[..|p| - 1];
        var k :| 0 <= k < |p| - 1 && p[k] == kept[i];
      }
    }
  }

  /**
   * `cancel_stale` keeps the relative order: the survivors, which include every tokenless cleanup,
   * leave the heap in the order they would have left it in before.
   */
  lemma CancelStaleKeepsOrder(p: seq<Queued>, current: nat)
    requires Distinct(p)
    ensures PopOrder(Survivors(p, current)) == Survivors(PopOrder(p), current)
    ensures forall q :: q in Survivors(p, current) <==> q in p && Current(q.token, current)
  {
    PopOrderIsSorting(p);
    SurvivorsOf(p, current, 0);
    PopOrderIsSorting(Survivors(p, current));
    SurvivorsStayOrdered(PopOrder(p), current);
    forall q ensures multiset(PopOrder(Survivors(p, current)))[q] == multiset(Survivors(PopOrder(p), current))[q] {
      SurvivorsCount(p, current, q);
      SurvivorsCount(PopOrder(p), current, q);
    }
    OrderedIsUnique(PopOrder(Survivors(p, current)), Survivors(PopOrder(p), current));
    forall q ensures q in Survivors(p, current) <==> q in p && Current(q.token, current) {
      SurvivorsCount(p, current, q);
      assert q in multiset(p) <==> q in p;
      assert q in multiset(Survivors(p, current)) <==> q in Survivors(p, current);
    }
  }

  /** Operations of equal priority leave in the order they were submitted in. */
  lemma EqualPriorityIsFifo(p: seq<Queued>, i: nat, j: nat)
    requires Distinct(p) && i < j < |PopOrder(p)|
    requires PopOrder(p)[i].priority == PopOrder(p)[j].priority
    ensures PopOrder(p)[i].sequence < PopOrder(p)[j].sequence
  {
    PopOrderIsSorting(p);
  }

  // ----- no lost wakeup -----

  predicate Internal(step: Step) {
    step.StartStep? || step.EndStep? || step.RunnerStep?
  }

  function Weight(s: State): nat {
    4 * |s.pending|
    + (if s.runner == Scheduled then 1 else 0)
    + if s.active == None then 0
      else match s.active.value.phase case Created => 3 case Running => 2 case Finished(_) => 1
  }

  lemma {:induction false} RunLoopWeight(s: State)
    requires s.active == None
    ensures Weight(RunLoop(s)) <= 4 * |s.pending|
    decreases |s.pending|
  {
    if s.pending != [] {
      var i := LeastIndex(s.pending);
      var q := s.pending[i];
      var popped := s.(pending := Without(s.pending, i));
      if FutureOf(s, q.sequence) != Pending {
        RunLoopWeight(popped);
      } else if !Current(q.token, s.token) {
        RunLoopWeight(Settle(popped, q, WasCancelled));
      }
    }
  }

  /** Every turn the executor takes on its own brings it closer to rest. */
  lemma InternalStepShrinks(s: State, step: Step)
    requires Inv(s) && Internal(step) && Enabled(s, step)
    ensures Weight(Next(s, step)) < Weight(s)
  {
    if step.RunnerStep? {
      if s.runner == Scheduled {
        RunLoopWeight(s);
      } else {
        SettleActiveKeeps(s);
        RunLoopWeight(SettleActive(s));
      }
    }
  }

  /** While a future is unsettled the executor has a turn it can take. */
  lemma UnsettledMeansEnabled(s: State, n: nat)
    requires Inv(s) && FutureOf(s, n) == Pending
    ensures exists step :: Internal(step) && Enabled(s, step)
  {
    assert InQueue(s.pending, n) || ActiveIs(s, n);
    if s.runner == Scheduled {
      assert Enabled(s, RunnerStep);
    } else {
      assert s.active.Some?;
      match s.active.value.phase
      case Created => assert Enabled(s, StartStep);
      case Running => assert Enabled(s, EndStep(Raised));
      case Finished(_) => assert Enabled(s, RunnerStep);
    }
  }

  /**
   * No lost wakeup: from any state of any run, with no new calls from outside, the executor can take
   * at most `Weight` turns, and when it has none left every future is settled.
   */
  lemma {:induction false} EveryFutureSettles(s: State, steps: seq<Step>)
    requires Inv(s) && IsRun(s, steps) && forall step :: step in steps ==> Internal(step)
    ensures |steps| <= Weight(s)
    ensures (forall step :: Internal(step) ==> !Enabled(After(s, steps), step)) ==>
              forall n :: FutureOf(After(s, steps), n) != Pending
    decreases |steps|
  {
    if steps == [] {
      if forall step :: Internal(step) ==> !Enabled(s, step) {
        forall n ensures FutureOf(s, n) != Pending {
          if FutureOf(s, n) == Pending {
            UnsettledMeansEnabled(s, n);
          }
        }
      }
    } else {
      assert steps[0] in steps && forall step :: step in steps[1..] ==> step in steps;
      StepKeeps(s, steps[0]);
      InternalStepShrinks(s, steps[0]);
      EveryFutureSettles(Next(s, steps[0]), steps[1..]);
    }
  }
}
