/** The backlog detector of a stress run against what it is meant to say. */
module Backlog {
  datatype Sample = Sample(elapsed: nat, pending: nat)

  const START_MS := 30000
  const WINDOW_MS := 30000
  const MIN_SECONDS := 28
  const MAX_GAP_MS := 2500

  // ----- what the two answers mean, for an unordered collection of samples -----

  predicate InWindow(s: Sample, w: nat) {
    s.elapsed >= START_MS && (s.elapsed - START_MS) / WINDOW_MS == w
  }

  function Seconds(samples: seq<Sample>, w: nat): set<nat> {
    set s | s in samples && InWindow(s, w) :: s.elapsed / 1000
  }

  predicate IsMinimum(samples: seq<Sample>, w: nat, m: nat) {
    (exists s :: s in samples && InWindow(s, w) && s.pending == m)
    && forall s :: s in samples && InWindow(s, w) ==> m <= s.pending
  }

  /** The window was sampled in enough distinct seconds, and `m` is its least backlog. */
  predicate HasMinimum(samples: seq<Sample>, w: nat, m: nat) {
    |Seconds(samples, w)| >= MIN_SECONDS && IsMinimum(samples, w, m)
  }

  /** Three consecutive windows whose minima strictly rise, by at least one maximum record in all. */
  predicate RisingFrom(samples: seq<Sample>, w: nat, a: nat, b: nat, c: nat, maxRecord: nat) {
    && HasMinimum(samples, w, a) && HasMinimum(samples, w + 1, b) && HasMinimum(samples, w + 2, c)
    && a < b < c && c - a >= maxRecord
  }

  ghost predicate Unsustainable(samples: seq<Sample>, maxRecord: nat) {
    exists w: nat, a: nat, b: nat, c: nat :: RisingFrom(samples, w, a, b, c, maxRecord)
  }

  /** Some later sample follows within the allowed gap. */
  predicate Followed(samples: seq<Sample>, s: Sample) {
    exists t :: t in samples && s.elapsed < t.elapsed <= s.elapsed + MAX_GAP_MS
  }

  predicate IsLast(samples: seq<Sample>, s: Sample) {
    forall t :: t in samples ==> t.elapsed <= s.elapsed
  }

  /** No hole: every sample but the last ones is followed in time. */
  predicate NoHole(samples: seq<Sample>) {
    samples != [] && forall s :: s in samples ==> IsLast(samples, s) || Followed(samples, s)
  }

  // ----- permutations -----

  lemma SameMembers(a: seq<Sample>, b: seq<Sample>)
    requires multiset(a) == multiset(b)
    ensures forall s :: s in a <==> s in b
  {
    assert forall s :: s in a <==> s in multiset(a);
    assert forall s :: s in b <==> s in multiset(b);
  }

  lemma SameMinimum(a: seq<Sample>, b: seq<Sample>, w: nat, m: nat)
    requires forall s :: s in a <==> s in b
    ensures HasMinimum(a, w, m) <==> HasMinimum(b, w, m)
  {
    assert Seconds(a, w) == Seconds(b, w);
  }

  lemma RisingTransfers(a: seq<Sample>, b: seq<Sample>, maxRecord: nat)
    requires (forall s :: s in a <==> s in b) && Unsustainable(a, maxRecord)
    ensures Unsustainable(b, maxRecord)
  {
    var w: nat, x: nat, y: nat, z: nat :| RisingFrom(a, w, x, y, z, maxRecord);
    SameMinimum(a, b, w, x);
    SameMinimum(a, b, w + 1, y);
    SameMinimum(a, b, w + 2, z);
    assert RisingFrom(b, w, x, y, z, maxRecord);
  }

  lemma NoHoleTransfers(a: seq<Sample>, b: seq<Sample>)
    requires (forall s :: s in a <==> s in b) && NoHole(a)
    ensures NoHole(b)
  {
    assert a[0] in b;
    forall s | s in b ensures IsLast(b, s) || Followed(b, s) {
      if Followed(a, s) {
        var t :| t in a && s.elapsed < t.elapsed <= s.elapsed + MAX_GAP_MS;
        assert t in b;
      }
    }
  }

  /** Neither answer depends on the order of the samples. */
  lemma OrderDoesNotMatter(a: seq<Sample>, b: seq<Sample>, maxRecord: nat)
    requires multiset(a) == multiset(b)
    ensures Unsustainable(a, maxRecord) <==> Unsustainable(b, maxRecord)
    ensures NoHole(a) <==> NoHole(b)
  {
    SameMembers(a, b);
    if Unsustainable(a, maxRecord) { RisingTransfers(a, b, maxRecord); }
    if Unsustainable(b, maxRecord) { RisingTransfers(b, a, maxRecord); }
    if NoHole(a) { NoHoleTransfers(a, b); }
    if NoHole(b) { NoHoleTransfers(b, a); }
  }

  // ----- the time-sorted gap test -----

  predicate TimeSorted(s: seq<Sample>) {
    forall i, j :: 0 <= i < j < |s| ==> s[i].elapsed <= s[j].elapsed
  }

  predicate GapsOk(s: seq<Sample>) {
    forall i :: 0 < i < |s| ==> s[i].elapsed - s[i - 1].elapsed <= MAX_GAP_MS
  }

  /** In time order, gaps between neighbours say whether there is a hole. */
  lemma GapsOkMeans(s: seq<Sample>)
    requires TimeSorted(s) && s != []
    ensures GapsOk(s) <==> NoHole(s)
  {
    if GapsOk(s) {
      forall x | x in s ensures IsLast(s, x) || Followed(s, x) {
        var i :| 0 <= i < |s| && s[i] == x;
        FollowedFrom(s, i);
      }
    }
    if NoHole(s) {
      forall i | 0 < i < |s| ensures s[i].elapsed - s[i - 1].elapsed <= MAX_GAP_MS {
        assert s[i - 1] in s;
        if IsLast(s, s[i - 1]) {
          assert s[i] in s;
        } else {
          var t :| t in s && s[i - 1].elapsed < t.elapsed <= s[i - 1].elapsed + MAX_GAP_MS;
          var k :| 0 <= k < |s| && s[k] == t;
          assert k >= i;
        }
      }
    }
  }

  lemma {:induction false} FollowedFrom(s: seq<Sample>, i: nat)
    requires TimeSorted(s) && GapsOk(s) && i < |s|
    ensures IsLast(s, s[i]) || Followed(s, s[i])
    decreases |s| - i
  {
    if i + 1 < |s| {
      if s[i + 1].elapsed > s[i].elapsed {
        assert s[i + 1] in s;
      } else {
        FollowedFrom(s, i + 1);
      }
    } else {
      assert forall t :: t in s ==> exists k :: 0 <= k < |s| && s[k] == t;
    }
  }

  method SortByTime(samples: seq<Sample>) returns (s: seq<Sample>)
    ensures TimeSorted(s) && multiset(s) == multiset(samples)
  {
    s := [];
    var i := 0;
    while i < |samples|
      invariant 0 <= i <= |samples| && TimeSorted(s) && multiset(s) == multiset(samples[..i])
    {
      var at := |s|;
      while at > 0 && s[at - 1].elapsed > samples[i].elapsed
        invariant 0 <= at <= |s| && forall k :: at <= k < |s| ==> s[k].elapsed > samples[i].elapsed
      {
        at := at - 1;
      }
      InsertKeeps(s, at, samples[i]);
      assert samples[..i + 1] == samples[..i] + [samples[i]];
      s := Inserted(s, at, samples[i]);
      i := i + 1;
    }
    assert samples[..i] == samples;
  }

  function Inserted(s: seq<Sample>, at: nat, x: Sample): seq<Sample>
    requires at <= |s|
  {
    s[..at] + [x] + s[at..]
  }

  lemma InsertedAt(s: seq<Sample>, at: nat, x: Sample, i: nat)
    requires at <= |s| && i <= |s|
    ensures |Inserted(s, at, x)| == |s| + 1
    ensures Inserted(s, at, x)[i] == if i < at then s[i] else if i == at then x else s[i - 1]
  {
  }

  lemma InsertedMembers(s: seq<Sample>, at: nat, x: Sample)
    requires at <= |s|
    ensures multiset(Inserted(s, at, x)) == multiset(s) + multiset{x}
  {
    assert s == s[..at] + s[at..];
  }

  lemma InsertedInOrder(s: seq<Sample>, at: nat, x: Sample, i: nat, j: nat)
    requires TimeSorted(s) && at <= |s| && i < j <= |s| && (at > 0 ==> s[at - 1].elapsed <= x.elapsed)
    requires forall k :: at <= k < |s| ==> s[k].elapsed > x.elapsed
    ensures |Inserted(s, at, x)| == |s| + 1 && Inserted(s, at, x)[i].elapsed <= Inserted(s, at, x)[j].elapsed
  {
    InsertedAt(s, at, x, i);
    InsertedAt(s, at, x, j);
    hide Inserted;
    assert i < at ==> s[i].elapsed <= s[at - 1].elapsed;
  }

  lemma InsertKeeps(s: seq<Sample>, at: nat, x: Sample)
    requires TimeSorted(s) && at <= |s| && (at > 0 ==> s[at - 1].elapsed <= x.elapsed)
    requires forall k :: at <= k < |s| ==> s[k].elapsed > x.elapsed
    ensures TimeSorted(Inserted(s, at, x)) && multiset(Inserted(s, at, x)) == multiset(s) + multiset{x}
  {
    InsertedMembers(s, at, x);
    InsertedAt(s, at, x, 0);
    hide Inserted;
    forall i, j | 0 <= i < j < |s| + 1 ensures Inserted(s, at, x)[i].elapsed <= Inserted(s, at, x)[j].elapsed {
      InsertedInOrder(s, at, x, i, j);
    }
  }

  // ----- the detector -----

  /** The rows a dictionary of windows holds after the first `n` samples. */
  predicate Grouped(windows: map<nat, seq<Sample>>, samples: seq<Sample>) {
    && (forall w, s :: w in windows && s in windows[w] ==> s in samples && InWindow(s, w))
    && (forall s :: s in samples && s.elapsed >= START_MS ==>
          var w := (s.elapsed - START_MS) / WINDOW_MS; w in windows && s in windows[w])
    && (forall w :: w in windows ==> windows[w] != [])
  }

  method GroupByWindow(samples: seq<Sample>) returns (windows: map<nat, seq<Sample>>)
    ensures Grouped(windows, samples)
  {
    windows := map[];
    var i := 0;
    while i < |samples|
      invariant 0 <= i <= |samples| && Grouped(windows, samples[..i])
    {
      var s := samples[i];
      assert samples[..i + 1] == samples[..i] + [s];
      if s.elapsed >= START_MS {
        var w := (s.elapsed - START_MS) / WINDOW_MS;
        AddKeeps(windows, samples[..i], s);
        windows := windows[w := (if w in windows then windows[w] else []) + [s]];
      }
      i := i + 1;
    }
    assert samples[..i] == samples;
  }

  lemma AddKeeps(windows: map<nat, seq<Sample>>, samples: seq<Sample>, s: Sample)
    requires Grouped(windows, samples) && s.elapsed >= START_MS
    ensures var w := (s.elapsed - START_MS) / WINDOW_MS;
            Grouped(windows[w := (if w in windows then windows[w] else []) + [s]], samples + [s])
  {
  }

  lemma RowsAreTheWindow(windows: map<nat, seq<Sample>>, samples: seq<Sample>, w: nat)
    requires Grouped(windows, samples)
    ensures w in windows ==> forall s :: s in windows[w] <==> s in samples && InWindow(s, w)
    ensures w !in windows ==> forall s :: s in samples ==> !InWindow(s, w)
  {
  }

  method LeastPending(rows: seq<Sample>) returns (m: nat)
    requires rows != []
    ensures (exists s :: s in rows && s.pending == m) && forall s :: s in rows ==> m <= s.pending
  {
    m := rows[0].pending;
    var i := 1;
    while i < |rows|
      invariant 1 <= i <= |rows| && (exists s :: s in rows && s.pending == m)
      invariant forall s :: s in rows[..i] ==> m <= s.pending
    {
      assert rows[..i + 1] == rows[..i] + [rows[i]];
      if rows[i].pending < m {
        m := rows[i].pending;
      }
      i := i + 1;
    }
    assert rows[..i] == rows;
  }

  /** The minima of the windows that were sampled often enough. */
  predicate MinimaOf(minima: map<nat, nat>, samples: seq<Sample>, of: set<nat>) {
    && (forall w :: w in minima ==> w in of && HasMinimum(samples, w, minima[w]))
    && (forall w :: w in of && w !in minima ==> |Seconds(samples, w)| < MIN_SECONDS)
  }

  lemma RowsGiveMinimum(rows: seq<Sample>, samples: seq<Sample>, w: nat, m: nat)
    requires forall s :: s in rows <==> s in samples && InWindow(s, w)
    requires (exists s :: s in rows && s.pending == m) && forall s :: s in rows ==> m <= s.pending
    ensures (set s | s in rows :: s.elapsed / 1000) == Seconds(samples, w)
    ensures IsMinimum(samples, w, m)
  {
  }

  method WindowMinima(windows: map<nat, seq<Sample>>, samples: seq<Sample>) returns (minima: map<nat, nat>)
    requires Grouped(windows, samples)
    ensures MinimaOf(minima, samples, windows.Keys)
  {
    minima := map[];
    var todo := windows.Keys;
    while todo != {}
      invariant todo <= windows.Keys && MinimaOf(minima, samples, windows.Keys - todo)
      decreases |todo|
    {
      var w :| w in todo;
      var rows := windows[w];
      RowsAreTheWindow(windows, samples, w);
      var m := LeastPending(rows);
      RowsGiveMinimum(rows, samples, w, m);
      var seconds := set s | s in rows :: s.elapsed / 1000;
      if |seconds| >= MIN_SECONDS {
        minima := minima[w := m];
      }
      todo := todo - {w};
    }
  }

  lemma OneMinimum(samples: seq<Sample>, w: nat, a: nat, b: nat)
    requires IsMinimum(samples, w, a) && IsMinimum(samples, w, b)
    ensures a == b
  {
    var s :| s in samples && InWindow(s, w) && s.pending == a;
    var t :| t in samples && InWindow(t, w) && t.pending == b;
  }

  /** A rising triple of windows is there to be found among the recorded minima. */
  lemma RisingIsRecorded(minima: map<nat, nat>, samples: seq<Sample>, of: set<nat>, w: nat, m: nat)
    requires MinimaOf(minima, samples, of) && HasMinimum(samples, w, m)
    requires forall v :: v !in of ==> forall s :: s in samples ==> !InWindow(s, v)
    ensures w in minima && minima[w] == m
  {
    if w in minima {
      OneMinimum(samples, w, m, minima[w]);
    }
  }

  predicate RisesAt(minima: map<nat, nat>, i: nat, maxRecord: nat) {
    && i in minima && i + 1 in minima && i + 2 in minima
    && minima[i] < minima[i + 1] < minima[i + 2] && minima[i + 2] - minima[i] >= maxRecord
  }

  method AnyRise(minima: map<nat, nat>, maxRecord: nat) returns (rises: bool)
    ensures rises <==> exists i :: i in minima && RisesAt(minima, i, maxRecord)
  {
    var todo := minima.Keys;
    while todo != {}
      invariant todo <= minima.Keys && forall i :: i in minima && i !in todo ==> !RisesAt(minima, i, maxRecord)
      decreases |todo|
    {
      var i :| i in todo;
      if i + 1 in minima && i + 2 in minima {
        var a, b, c := minima[i], minima[i + 1], minima[i + 2];
        if a < b < c && c - a >= maxRecord {
          assert RisesAt(minima, i, maxRecord);
          return true;
        }
      }
      todo := todo - {i};
    }
    return false;
  }

  lemma RisingIsFound(minima: map<nat, nat>, samples: seq<Sample>, of: set<nat>, maxRecord: nat, w: nat, a: nat,
                      b: nat, c: nat)
    requires MinimaOf(minima, samples, of)
    requires forall v :: v !in of ==> forall s :: s in samples ==> !InWindow(s, v)
    requires RisingFrom(samples, w, a, b, c, maxRecord)
    ensures RisesAt(minima, w, maxRecord)
  {
    hide HasMinimum, InWindow, MinimaOf;
    RisingIsRecorded(minima, samples, of, w, a);
    RisingIsRecorded(minima, samples, of, w + 1, b);
    RisingIsRecorded(minima, samples, of, w + 2, c);
  }

  lemma RiseMeans(minima: map<nat, nat>, samples: seq<Sample>, of: set<nat>, maxRecord: nat)
    requires MinimaOf(minima, samples, of)
    requires forall v :: v !in of ==> forall s :: s in samples ==> !InWindow(s, v)
    ensures (exists i :: i in minima && RisesAt(minima, i, maxRecord)) <==> Unsustainable(samples, maxRecord)
  {
    hide HasMinimum, InWindow;
    if Unsustainable(samples, maxRecord) {
      hide MinimaOf;
      var w: nat, a: nat, b: nat, c: nat :| RisingFrom(samples, w, a, b, c, maxRecord);
      RisingIsFound(minima, samples, of, maxRecord, w, a, b, c);
    }
    if i :| i in minima && RisesAt(minima, i, maxRecord) {
      assert RisingFrom(samples, i, minima[i], minima[i + 1], minima[i + 2], maxRecord);
    }
  }

  method CheckGaps(samples: seq<Sample>) returns (complete: bool)
    ensures complete <==> NoHole(samples)
  {
    var sorted := SortByTime(samples);
    complete := samples != [];
    var i := 1;
    while i < |sorted|
      invariant 1 <= i <= |sorted| || |sorted| <= i == 1
      invariant complete <==> samples != [] && forall k :: 0 < k < i && k < |sorted| ==>
                  sorted[k].elapsed - sorted[k - 1].elapsed <= MAX_GAP_MS
    {
      if sorted[i].elapsed - sorted[i - 1].elapsed > MAX_GAP_MS {
        complete := false;
      }
      i := i + 1;
    }
    assert |sorted| == |multiset(sorted)| == |samples|;
    if samples != [] {
      GapsOkMeans(sorted);
      OrderDoesNotMatter(sorted, samples, 0);
    }
  }

  /** `assess_backlog` says exactly what it is meant to say. */
  method AssessBacklog(samples: seq<Sample>, maxRecord: nat) returns (unsustainable: bool, complete: bool)
    ensures unsustainable <==> Unsustainable(samples, maxRecord)
    ensures complete <==> NoHole(samples)
  {
    var windows := GroupByWindow(samples);
    complete := CheckGaps(samples);
    var minima := WindowMinima(windows, samples);
    forall v | v !in windows.Keys ensures forall s :: s in samples ==> !InWindow(s, v) {
      RowsAreTheWindow(windows, samples, v);
    }
    RiseMeans(minima, samples, windows.Keys, maxRecord);
    unsustainable := AnyRise(minima, maxRecord);
  }
}
