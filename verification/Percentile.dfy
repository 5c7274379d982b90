/** The bucketed latency metric, in exact arithmetic, against the list of all values it was given. */
module Percentile {
  const BINS := 15

  /** The finite bounds; the last bin takes everything. */
  const BOUNDS: seq<real> :=
    [0.0, 1.0, 2.0, 5.0, 10.0, 20.0, 50.0, 100.0, 200.0, 500.0, 1000.0, 2000.0, 5000.0, 10000.0]

  datatype Limit = Finite(value: real) | Infinite

  /** A bound of the table. */
  function Bound(b: nat): Limit
    requires b < BINS
  {
    if b < |BOUNDS| then Finite(BOUNDS[b]) else Infinite
  }

  predicate AtMost(v: real, b: nat)
    requires b < BINS
  {
    b == |BOUNDS| || v <= BOUNDS[b]
  }

  /** The least bin from `b` on whose bound is not below `v`. */
  function BinFrom(v: real, b: nat): (r: nat)
    requires b < BINS
    ensures b <= r < BINS && AtMost(v, r) && forall i :: b <= i < r ==> !AtMost(v, i)
    decreases BINS - b
  {
    if AtMost(v, b) then b else BinFrom(v, b + 1)
  }

  /** `bin` is the first bin whose bound is not below `v`. */
  predicate LeastBound(v: real, bin: nat)
    requires bin < BINS
  {
    AtMost(v, bin) && forall b :: 0 <= b < bin ==> !AtMost(v, b)
  }

  function BinOf(v: real): (r: nat)
    ensures r < BINS && AtMost(v, r) && forall i :: 0 <= i < r ==> !AtMost(v, i)
  {
    BinFrom(v, 0)
  }

  function Clamped(v: real): real {
    if v < 0.0 then 0.0 else v
  }

  /** How many of the values are in bin `b`, and how many in a bin up to `b`. */
  function InBin(values: seq<real>, b: nat): nat
    decreases |values|
  {
    if values == [] then 0
    else InBin(values[..|values| - 1], b) + if BinOf(values[|values| - 1]) == b then 1 else 0
  }

  function UpToBin(values: seq<real>, b: int): (n: nat)
    ensures n <= |values|
    decreases |values|
  {
    if values == [] then 0
    else UpToBin(values[..|values| - 1], b) + if BinOf(values[|values| - 1]) <= b then 1 else 0
  }

  lemma {:induction false} UpToNext(values: seq<real>, b: int)
    requires b >= -1
    ensures UpToBin(values, b + 1) == UpToBin(values, b) + InBin(values, b + 1)
    decreases |values|
  {
    if values != [] {
      UpToNext(values[..|values| - 1], b);
    }
  }

  lemma {:induction false} UpToEdges(values: seq<real>)
    ensures UpToBin(values, -1) == 0 && UpToBin(values, BINS - 1) == |values|
    decreases |values|
  {
    if values != [] {
      UpToEdges(values[..|values| - 1]);
    }
  }

  // ----- the sorted list -----

  predicate Ascending(s: seq<real>) {
    forall i, j :: 0 <= i < j < |s| ==> s[i] <= s[j]
  }

  lemma BinIsMonotone(a: real, b: real)
    requires a <= b
    ensures BinOf(a) <= BinOf(b)
  {
    var r := BinOf(b);
    assert AtMost(a, r);
  }

  lemma {:induction false} UpToConcat(a: seq<real>, c: seq<real>, b: int)
    ensures UpToBin(a + c, b) == UpToBin(a, b) + UpToBin(c, b)
    decreases |c|
  {
    if c == [] {
      assert a + c == a;
    } else {
      assert (a + c)[..|a + c| - 1] == a + c[..|c| - 1];
      UpToConcat(a, c[..|c| - 1], b);
    }
  }

  /** Taking one value out of the middle. */
  lemma UpToWithout(c: seq<real>, k: nat, b: int)
    requires k < |c|
    ensures UpToBin(c, b) == UpToBin(c[..k] + c[k + 1..], b) + UpToBin([c[k]], b)
  {
    hide UpToBin;
    var before, one, after := c[..k], [c[k]], c[k + 1..];
    assert c == (before + one) + after;
    UpToConcat(before, after, b);
    UpToConcat(before + one, after, b);
    UpToConcat(before, one, b);
  }

  lemma MembersWithout(c: seq<real>, k: nat)
    requires k < |c|
    ensures multiset(c[..k] + c[k + 1..]) == multiset(c) - multiset{c[k]}
  {
    assert c == c[..k] + [c[k]] + c[k + 1..];
  }

  lemma Member(c: seq<real>, x: real) returns (k: nat)
    requires x in multiset(c)
    ensures k < |c| && c[k] == x
  {
    k :| 0 <= k < |c| && c[k] == x;
  }

  /** The counts do not depend on the order of the values. */
  lemma {:induction false} UpToPermutes(a: seq<real>, c: seq<real>, b: int)
    requires multiset(a) == multiset(c)
    ensures UpToBin(a, b) == UpToBin(c, b)
    decreases |a|
  {
    hide BinOf;
    if a == [] {
      assert |multiset(c)| == 0;
    } else {
      hide UpToBin;
      var last := |a| - 1;
      assert a[last] in a;
      var k := Member(c, a[last]);
      UpToWithout(a, last, b);
      UpToWithout(c, k, b);
      MembersWithout(a, last);
      MembersWithout(c, k);
      assert a[..last] + a[last + 1..] == a[..last];
      UpToPermutes(a[..last], c[..k] + c[k + 1..], b);
    }
  }

  /** In ascending order, the values of the bins up to `b` come first. */
  lemma {:induction false} UpToIsAPrefix(s: seq<real>, b: int, i: nat)
    requires Ascending(s) && i < |s|
    ensures BinOf(s[i]) <= b <==> i < UpToBin(s, b)
    decreases |s|
  {
    var init := s[..|s| - 1];
    if i < |init| {
      UpToIsAPrefix(init, b, i);
      BinIsMonotone(s[i], s[|s| - 1]);
      if BinOf(s[|s| - 1]) <= b {
        AllUpTo(s, b);
      }
    } else if init != [] {
      UpToIsAPrefix(init, b, |init| - 1);
      BinIsMonotone(s[|init| - 1], s[|s| - 1]);
      if BinOf(s[|s| - 1]) <= b {
        AllUpTo(s, b);
      }
    }
  }

  lemma {:induction false} AllUpTo(s: seq<real>, b: int)
    requires Ascending(s) && s != [] && BinOf(s[|s| - 1]) <= b
    ensures UpToBin(s, b) == |s|
    decreases |s|
  {
    if |s| > 1 {
      BinIsMonotone(s[|s| - 2], s[|s| - 1]);
      AllUpTo(s[..|s| - 1], b);
    } else {
      assert s[..0] == [];
    }
  }

  // ----- the rank -----

  /** `max(1, int(count * fraction + 0.999999))` with exact numbers. */
  function Target(count: nat, fraction: real): nat
    requires 0.0 <= fraction
  {
    var t := (count as real * fraction + 0.999999).Floor;
    if t < 1 then 1 else t
  }

  /** The target for whole percents; there is always at least one value to reach. */
  function TargetOf(count: nat, percent: nat): (t: nat)
    ensures t >= 1
  {
    Target(count, percent as real / 100.0)
  }

  /** The nearest rank: the least whole number that is not below `percent` hundredths of the count. */
  predicate NearestRank(count: nat, percent: nat, rank: nat) {
    rank * 100 >= count * percent && (rank == 0 || (rank - 1) * 100 < count * percent)
  }

  /** For whole percents the added 0.999999 rounds up exactly. */
  lemma TargetIsNearestRank(count: nat, percent: nat)
    requires count > 0 && 0 < percent <= 100
    ensures NearestRank(count, percent, TargetOf(count, percent))
    ensures 1 <= TargetOf(count, percent) <= count
  {
    var product := count * percent;
    var x := count as real * (percent as real / 100.0);
    ScaledProduct(count, percent);
    assert x * 100.0 == product as real;
    var t := (x + 0.999999).Floor;
    assert t as real <= x + 0.999999 < t as real + 1.0;
    assert (t as real) * 100.0 <= product as real + 99.9999;
    assert (t * 100) as real <= product as real + 99.9999;
    assert t * 100 <= product + 99;
    assert (t * 100) as real > product as real - 0.0001;
    assert t * 100 >= product;
    RankInRange(count, percent, t);
  }

  lemma ScaledProduct(count: nat, percent: nat)
    ensures count as real * (percent as real / 100.0) * 100.0 == (count * percent) as real
  {
    assert (percent as real / 100.0) * 100.0 == percent as real;
    RealProduct(count, percent);
  }

  lemma {:induction false} RealProduct(a: nat, b: nat)
    ensures a as real * b as real == (a * b) as real
    decreases a
  {
    if a > 0 {
      RealProduct(a - 1, b);
      assert a * b == (a - 1) * b + b;
    }
  }

  lemma RankInRange(count: nat, percent: nat, t: int)
    requires count > 0 && 0 < percent <= 100
    requires count * percent <= t * 100 <= count * percent + 99
    ensures 1 <= t <= count
  {
    assert count * percent > 0;
    assert count * percent <= count * 100;
  }

  /** The first bin by which the target number of values is reached. */
  predicate FirstReaching(values: seq<real>, percent: nat, bin: nat) {
    var target := TargetOf(|values|, percent);
    bin < BINS && UpToBin(values, bin) >= target && forall b :: 0 <= b < bin ==> UpToBin(values, b) < target
  }

  // ----- the metric -----

  class MaxMetric {
    var count: nat
    var total: real
    var max: real
    var bins: array<nat>
    ghost var values: seq<real>

    /** The bins count the clamped values noted since the last reset. */
    ghost predicate Valid()
      reads this, bins
    {
      bins.Length == BINS && count == |values| && forall b :: 0 <= b < BINS ==> bins[b] == InBin(values, b)
    }

    constructor ()
      ensures Valid() && values == [] && fresh(bins)
    {
      count, total, max := 0, 0.0, 0.0;
      bins := new nat[BINS](_ => 0);
      values := [];
    }

    method Note(v: real)
      requires Valid()
      modifies this, bins
      ensures Valid() && values == old(values) + [Clamped(v)] && bins == old(bins)
      ensures total == old(total) + Clamped(v)
      ensures max >= old(max) && max >= Clamped(v) && (max == old(max) || max == Clamped(v))
    {
      var value := if v < 0.0 then 0.0 else v;
      count := count + 1;
      total := total + value;
      max := if value > max then value else max;
      ghost var was := values;
      values := values + [value];
      assert values[..|was|] == was;
      var b := 0;
      while b < BINS && !(b == |BOUNDS| || value <= BOUNDS[b])
        invariant 0 <= b <= BOUNDS_TOP && forall i :: 0 <= i < b ==> !AtMost(value, i)
        invariant forall i :: 0 <= i < BINS ==> bins[i] == old(bins[i])
        invariant values == was + [value]
      {
        b := b + 1;
      }
      assert b == BinOf(value);
      bins[b] := bins[b] + 1;
    }

    method Reset()
      requires Valid()
      modifies this, bins
      ensures Valid() && values == [] && total == 0.0 && max == 0.0 && bins == old(bins)
    {
      count, total, max := 0, 0.0, 0.0;
      values := [];
      var b := 0;
      while b < BINS
        invariant bins == old(bins) && bins.Length == BINS
        invariant 0 <= b <= BINS && forall i :: 0 <= i < b ==> bins[i] == 0
        invariant values == [] && count == 0 && total == 0.0 && max == 0.0
      {
        bins[b] := 0;
        b := b + 1;
      }
    }

    /** The bin counts add up to the count. */
    lemma BinsSum()
      requires Valid()
      ensures UpToBin(values, BINS - 1) == count
    {
      UpToEdges(values);
    }

    /** `percentile_bound`: the bound of the first bin by which the target number of values is reached. */
    method PercentileBound(percent: nat) returns (bound: Limit)
      requires Valid() && 0 < percent <= 100
      ensures values == [] ==> bound == Finite(0.0)
      ensures values != [] ==> exists bin: nat :: FirstReaching(values, percent, bin) && bound == Bound(bin)
    {
      hide NearestRank, TargetOf, UpToBin, Bound;
      var target := TargetOf(count, percent);
      if values != [] {
        TargetIsNearestRank(|values|, percent);
      }
      var sum := 0;
      var b := 0;
      UpToEdges(values);
      while b < BINS
        invariant 0 <= b <= BINS && sum == UpToBin(values, b - 1)
        invariant forall i :: 0 <= i < b ==> UpToBin(values, i) < target
      {
        UpToNext(values, b - 1);
        sum := sum + bins[b];
        if sum >= target {
          assert values != [] ==> FirstReaching(values, percent, b);
          return Bound(b);
        }
        b := b + 1;
      }
      return Finite(0.0);
    }
  }

  const BOUNDS_TOP := 14

  /**
   * The bound found is the least one that is not below the nearest-rank percentile of all values:
   * the value at the nearest rank of the sorted list falls into exactly that bin.
   */
  lemma BoundCoversThePercentile(values: seq<real>, sorted: seq<real>, percent: nat, bin: nat)
    requires values != [] && 0 < percent <= 100 && FirstReaching(values, percent, bin)
    requires Ascending(sorted) && multiset(sorted) == multiset(values)
    ensures var rank := TargetOf(|values|, percent);
            && NearestRank(|values|, percent, rank) && 1 <= rank <= |sorted|
            && LeastBound(sorted[rank - 1], bin)
  {
    hide UpToBin, NearestRank;
    var rank := TargetOf(|values|, percent);
    TargetIsNearestRank(|values|, percent);
    hide TargetOf;
    assert |sorted| == |multiset(sorted)| == |values|;
    UpToPermutes(sorted, values, bin);
    UpToIsAPrefix(sorted, bin, rank - 1);
    if bin > 0 {
      UpToPermutes(sorted, values, bin - 1);
      UpToIsAPrefix(sorted, bin - 1, rank - 1);
    }
  }
}
