/** Fences on wrapping counters: connection snapshots count modulo 256, timeout notices modulo 2^32. */
module RevisionFence {
  import opened Wrappers

  const REVISIONS := 256
  const TOKENS := 0x1_0000_0000

  /** `((next - last) & mask) < half` for a power of two `m`. */
  predicate NotOlder(last: nat, next: nat, m: nat)
    requires m > 0
  {
    (next - last) % m < m / 2
  }

  lemma AtLeastOneTurn(x: int, m: nat)
    requires x >= 1
    ensures x * m >= m
  {
    assert x * m == (x - 1) * m + m;
  }

  lemma ModUnique(a: int, q: int, r: int, m: nat)
    requires m > 0 && 0 <= r < m && a == q * m + r
    ensures a % m == r
  {
    var p := a / m;
    assert a == p * m + a % m;
    assert (q - p) * m == a % m - r && (p - q) * m == r - a % m;
    if q > p {
      AtLeastOneTurn(q - p, m);
    } else if p > q {
      AtLeastOneTurn(p - q, m);
    }
  }

  lemma ModShift(a: int, k: int, m: nat)
    requires m > 0
    ensures (a + k * m) % m == a % m
  {
    assert a == (a / m) * m + a % m;
    assert a + k * m == (a / m + k) * m + a % m;
    ModUnique(a + k * m, a / m + k, a % m, m);
  }

  lemma ModSub(a: int, b: int, m: nat)
    requires m > 0
    ensures (a % m - b % m) % m == (a - b) % m
  {
    var k := b / m - a / m;
    assert a == (a / m) * m + a % m && b == (b / m) * m + b % m;
    assert a % m - b % m == (a - b) + k * m;
    ModShift(a - b, k, m);
  }

  lemma SmallMod(d: int, m: nat)
    requires m > 0 && m % 2 == 0 && -(m / 2) <= d < m / 2
    ensures d % m < m / 2 <==> d >= 0
  {
    if d < 0 {
      ModUnique(d, -1, d + m, m);
    } else {
      ModUnique(d, 0, d, m);
    }
  }

  /** Within half a turn the wrapped comparison says exactly which true count is older. */
  lemma WrappedOrder(last: int, next: int, m: nat)
    requires m > 0 && m % 2 == 0 && -(m / 2) <= next - last < m / 2
    ensures NotOlder(last % m, next % m, m) <==> next >= last
  {
    ModSub(next, last, m);
    SmallMod(next - last, m);
  }

  /** The true distances a fence of `m` values judges rightly: those whose remainder tells their sign. */
  predicate Judged(d: int, m: nat)
    requires m > 0
  {
    d % m < m / 2 <==> d >= 0
  }

  /**
   * At every distance, however far, the wrapped comparison tells older from not older if and only if
   * the distance is one of those; they are all of the window, and one step beyond either end is not.
   */
  lemma WindowIsTight(last: int, next: int)
    ensures (NotOlder(last % REVISIONS, next % REVISIONS, REVISIONS) <==> next >= last)
            <==> Judged(next - last, REVISIONS)
    ensures forall d :: -128 <= d <= 127 ==> Judged(d, REVISIONS)
    ensures !Judged(128, REVISIONS) && !Judged(-129, REVISIONS)
  {
    ModSub(next, last, REVISIONS);
    forall d | -128 <= d <= 127 ensures Judged(d, REVISIONS) {
      SmallMod(d, REVISIONS);
    }
  }

  // ----- connection snapshots -----

  /** The other fields of a snapshot. */
  datatype Content = Content(status: nat, readyBits: nat, deviceState: nat, action: nat, stage: nat, reason: nat)

  datatype Snapshot = Snapshot(generation: nat, revision: nat, content: Content)

  datatype Fence = Fence(generation: nat, revision: Option<nat>, content: Option<Content>)

  const OPEN := Fence(0, None, None)

  /** The snapshot branch of the ACK handler: generation 0 stands for "none yet" and fences nothing. */
  function Receive(f: Fence, s: Snapshot): Fence {
    if f.generation != 0 && s.generation != f.generation then f
    else if f.revision.Some? && !NotOlder(f.revision.value, s.revision, REVISIONS) then f
    else Fence(s.generation, Some(s.revision), Some(s.content))
  }

  /** What the device meant: a revision that never wraps. */
  datatype Delivery = Delivery(revision: nat, content: Content)

  function OnWire(g: nat, d: Delivery): Snapshot {
    Snapshot(g, d.revision % REVISIONS, d.content)
  }

  function ReceiveAll(g: nat, ds: seq<Delivery>): Fence
    decreases |ds|
  {
    if ds == [] then OPEN else Receive(ReceiveAll(g, ds[..|ds| - 1]), OnWire(g, ds[|ds| - 1]))
  }

  /** `ds[k]` carries the greatest revision delivered, and no later delivery carries it again. */
  predicate LastMaximum(ds: seq<Delivery>, k: int) {
    && 0 <= k < |ds|
    && (forall i :: 0 <= i < |ds| ==> ds[i].revision <= ds[k].revision)
    && (forall i :: k < i < |ds| ==> ds[i].revision < ds[k].revision)
  }

  /** Each delivery is from 128 behind to 127 ahead of the greatest revision before it. */
  predicate Windowed(ds: seq<Delivery>)
    decreases |ds|
  {
    |ds| <= 1 ||
    var init := ds[..|ds| - 1];
    Windowed(init) &&
    forall k :: 0 <= k < |init| && LastMaximum(init, k) ==> -128 <= ds[|ds| - 1].revision - init[k].revision <= 127
  }

  lemma NextMaximum(ds: seq<Delivery>, d: Delivery, k: nat)
    requires LastMaximum(ds, k)
    ensures LastMaximum(ds + [d], if d.revision >= ds[k].revision then |ds| else k)
  {
  }

  lemma ReceiveNext(g: nat, last: Delivery, next: Delivery)
    requires -128 <= next.revision - last.revision <= 127
    ensures var f := Fence(g, Some(last.revision % REVISIONS), Some(last.content));
            Receive(f, OnWire(g, next)) == if next.revision >= last.revision
            then Fence(g, Some(next.revision % REVISIONS), Some(next.content)) else f
  {
    hide NotOlder;
    WrappedOrder(last.revision, next.revision, REVISIONS);
  }

  /** Within one generation the stored state is that of the last delivery of the running maximum. */
  lemma {:induction false} StateIsTheLastMaximum(g: nat, ds: seq<Delivery>) returns (k: nat)
    requires ds != [] && Windowed(ds)
    ensures LastMaximum(ds, k)
    ensures ReceiveAll(g, ds) == Fence(g, Some(ds[k].revision % REVISIONS), Some(ds[k].content))
    decreases |ds|
  {
    hide NotOlder, Receive, OnWire, Windowed, ReceiveAll, LastMaximum;
    var init, last := ds[..|ds| - 1], ds[|ds| - 1];
    assert ds == init + [last];
    if init == [] {
      k := 0;
      FirstDelivery(g, ds);
    } else {
      WindowedInit(init, last);
      var j := StateIsTheLastMaximum(g, init);
      MaximumIsInside(init, j);
      WindowedNext(init, last, j);
      NextMaximum(init, last, j);
      ReceiveNext(g, init[j], last);
      ReceiveAllNext(g, init, last);
      k := if last.revision >= init[j].revision then |init| else j;
    }
  }

  lemma FirstDelivery(g: nat, ds: seq<Delivery>)
    requires |ds| == 1
    ensures LastMaximum(ds, 0) && ReceiveAll(g, ds) == Fence(g, Some(ds[0].revision % REVISIONS), Some(ds[0].content))
  {
    assert ReceiveAll(g, ds[..0]) == OPEN;
  }

  lemma WindowedInit(ds: seq<Delivery>, d: Delivery)
    requires Windowed(ds + [d])
    ensures Windowed(ds)
  {
    assert (ds + [d])[..|ds|] == ds;
  }

  lemma WindowedNext(ds: seq<Delivery>, d: Delivery, k: nat)
    requires Windowed(ds + [d]) && LastMaximum(ds, k)
    ensures -128 <= d.revision - ds[k].revision <= 127
  {
    assert (ds + [d])[..|ds|] == ds;
  }

  lemma ReceiveAllNext(g: nat, ds: seq<Delivery>, d: Delivery)
    ensures ReceiveAll(g, ds + [d]) == Receive(ReceiveAll(g, ds), OnWire(g, d))
  {
    assert (ds + [d])[..|ds|] == ds;
  }

  lemma MaximumIsInside(ds: seq<Delivery>, k: int)
    requires LastMaximum(ds, k)
    ensures 0 <= k < |ds|
  {
  }

  /** Each snapshot in the window is accepted exactly when it is not older. */
  lemma AcceptedExactlyWhenNotOlder(g: nat, ds: seq<Delivery>, d: Delivery, k: nat)
    requires ds != [] && Windowed(ds + [d]) && LastMaximum(ds, k)
    ensures ReceiveAll(g, ds + [d]) == if d.revision >= ds[k].revision
            then Fence(g, Some(d.revision % REVISIONS), Some(d.content)) else ReceiveAll(g, ds)
  {
    WindowedInit(ds, d);
    var j := StateIsTheLastMaximum(g, ds);
    assert j == k;
    WindowedNext(ds, d, k);
    ReceiveNext(g, ds[k], d);
    ReceiveAllNext(g, ds, d);
  }

  /** Snapshots of another generation change nothing, unless the known generation is 0. */
  lemma ForeignGenerations(f: Fence, s: Snapshot)
    requires s.generation != f.generation
    ensures f.generation != 0 ==> Receive(f, s) == f
    ensures f.generation == 0 && (f.revision == None || NotOlder(f.revision.value, s.revision, REVISIONS)) ==>
              Receive(f, s).generation == s.generation
  {
  }

  class BootstrapFence {
    var generation: nat
    var revision: Option<nat>
    var content: Option<Content>

    ghost function Value(): Fence
      reads this
    {
      Fence(generation, revision, content)
    }

    constructor ()
      ensures Value() == OPEN
    {
      generation, revision, content := 0, None, None;
    }

    method OnSnapshot(s: Snapshot) returns (accepted: bool)
      modifies this
      ensures Value() == Receive(old(Value()), s)
      ensures !accepted ==> unchanged(this)
      ensures accepted ==> Value() == Fence(s.generation, Some(s.revision), Some(s.content))
    {
      if generation != 0 && s.generation != generation {
        return false;
      }
      if revision.Some? && (s.revision - revision.value) % REVISIONS >= REVISIONS / 2 {
        return false;
      }
      generation := s.generation;
      revision := Some(s.revision);
      content := Some(s.content);
      return true;
    }
  }

  // ----- timeout notices -----

  datatype Notice = Notice(generation: nat, token: nat, reason: nat, seqNo: nat, connection: nat)

  /** `_receive_timeout_action` once the notice parsed, its generation fits and the link is up. */
  function Notify(held: Option<Notice>, n: Notice): Option<Notice> {
    if held.Some? && held.value != n && held.value.connection == n.connection
       && !NotOlder(held.value.token, n.token, TOKENS)
    then held else Some(n)
  }

  /**
   * On one connection a notice replaces the held one exactly when its transaction is not older, as
   * long as the true transaction numbers are less than half a turn apart.
   */
  lemma NewerNoticeWins(held: Notice, n: Notice, heldTrue: nat, nextTrue: nat)
    requires held.token == heldTrue % TOKENS && n.token == nextTrue % TOKENS && held.connection == n.connection
    requires -0x8000_0000 <= nextTrue - heldTrue < 0x8000_0000
    ensures Notify(Some(held), n) == if nextTrue >= heldTrue then Some(n) else Some(held)
  {
    WrappedOrder(heldTrue, nextTrue, TOKENS);
  }
}
