/** Out-of-order reassembly of a calibration transfer. */
module CalibrationReceiver {
  import opened Crc32
  import opened CalibrationRecord
  import opened Wrappers

  const TX_MAGIC: byte := 0xD3
  const TX_VERSION: byte := 1
  const TX_HEADER_BYTES := 16
  const DIAG_BYTES := 68
  const DIAG_MAGIC: bv32 := 0x3144_474D
  const DIAG_CRC_OFFSET := 64

  datatype FrameKind = Start | Data | End
  datatype Family = RecordFamily | DiagnosticsFamily

  datatype Frame = Frame(
    kind: FrameKind, family: Family, transaction: byte, offset: nat, payload: bytes, totalLen: nat, crc: bv32)

  /** What `parse_calibration_tx_frame` guarantees about the range of a frame. */
  predicate InRange(f: Frame) {
    f.offset + |f.payload| <= f.totalLen <= MAX_BYTES
  }

  /** `parse_calibration_tx_frame`. */
  function ParseFrame(raw: bytes): (f: Option<Frame>)
    ensures f.Some? ==> InRange(f.value) && (f.value.kind != Data ==> f.value.payload == [])
  {
    if |raw| < TX_HEADER_BYTES then None
    else
      var length := Half(raw[8..10]);
      var offset, total := Half(raw[6..8]), Half(raw[10..12]);
      var kind := if raw[2] == 1 || raw[2] == 4 then Start else if raw[2] == 2 || raw[2] == 5 then Data else End;
      if raw[0] != TX_MAGIC || raw[1] != TX_VERSION || raw[5] != 0 || raw[4] & 0xFE != 0
         || raw[2] < 1 || raw[2] > 6
         || |raw| != TX_HEADER_BYTES + length
         || total > MAX_BYTES || offset + length > total
         || (kind != Data && length != 0)
         || (kind == Data && ((raw[4] & 1 == 1) != (offset + length == total)))
      then None
      else Some(Frame(kind, if raw[2] < 4 then RecordFamily else DiagnosticsFamily, raw[3], offset,
                      raw[TX_HEADER_BYTES..], total, WordAt(raw, 12)))
  }

  /** The part of `parse_mag_calibration_diagnostics` that can refuse, and the CRC it returns. */
  function ParseDiagnostics(raw: bytes): Option<bv32> {
    if |raw| != DIAG_BYTES || WordAt(raw, 0) != DIAG_MAGIC || raw[4] != 1 || raw[31] != 0
       || raw[34] != 0 || raw[35] != 0 || WordAt(raw, DIAG_CRC_OFFSET) != Crc(raw[..DIAG_CRC_OFFSET], 0)
    then None
    else Some(WordAt(raw, DIAG_CRC_OFFSET))
  }

  // ----- the bytes of one transfer, as values -----

  /** `bytes[i]` is what DATA wrote at `i`, and 0 where `got[i]` is still false. */
  datatype Transfer = Transfer(bytes: bytes, got: seq<bool>, count: nat)

  predicate Sized(t: Transfer, n: nat) {
    |t.bytes| == n && |t.got| == n
  }

  function Blank(n: nat): (t: Transfer)
    ensures Sized(t, n)
  {
    Transfer(seq(n, i => 0), seq(n, i => false), 0)
  }

  datatype Fragment = Fragment(offset: nat, payload: bytes)

  predicate Covers(f: Fragment, i: int) {
    f.offset <= i < f.offset + |f.payload|
  }

  predicate Fits(f: Fragment, n: nat) {
    f.offset + |f.payload| <= n
  }

  /** Some received byte of the range differs from the fragment's. */
  predicate Conflicts(t: Transfer, f: Fragment)
    requires |t.bytes| == |t.got| && Fits(f, |t.bytes|)
  {
    exists i :: 0 <= i < |f.payload| && t.got[f.offset + i] && t.bytes[f.offset + i] != f.payload[i]
  }

  function WriteByte(t: Transfer, i: nat, value: byte): Transfer
    requires i < |t.bytes| == |t.got|
  {
    Transfer(t.bytes[i := value], t.got[i := true], if t.got[i] then t.count else t.count + 1)
  }

  /** The first `n` bytes of a fragment, written one after the other. */
  function WriteFirst(t: Transfer, f: Fragment, n: nat): (r: Transfer)
    requires |t.bytes| == |t.got| && Fits(f, |t.bytes|) && n <= |f.payload|
    ensures Sized(r, |t.bytes|)
    decreases n
  {
    if n == 0 then t else WriteByte(WriteFirst(t, f, n - 1), f.offset + n - 1, f.payload[n - 1])
  }

  function Write(t: Transfer, f: Fragment): Transfer
    requires |t.bytes| == |t.got| && Fits(f, |t.bytes|)
  {
    WriteFirst(t, f, |f.payload|)
  }

  /** All fragments written in the order they arrived. */
  function WriteAll(n: nat, fs: seq<Fragment>): (r: Transfer)
    requires forall f :: f in fs ==> Fits(f, n)
    ensures Sized(r, n)
    decreases |fs|
  {
    if fs == [] then Blank(n) else Write(WriteAll(n, fs[..|fs| - 1]), fs[|fs| - 1])
  }

  predicate Covered(fs: seq<Fragment>, i: int) {
    exists k :: 0 <= k < |fs| && Covers(fs[k], i)
  }

  predicate CoverAll(fs: seq<Fragment>, n: nat) {
    forall i :: 0 <= i < n ==> Covered(fs, i)
  }

  /** The positions of a transfer of `n` bytes that the fragments cover. */
  function Union(fs: seq<Fragment>, n: nat): set<int> {
    set i: int | 0 <= i < n && Covered(fs, i)
  }

  /** Fragments that overlap carry the same bytes there. */
  ghost predicate Agree(f: Fragment, g: Fragment) {
    forall i :: Covers(f, i) && Covers(g, i) ==> f.payload[i - f.offset] == g.payload[i - g.offset]
  }

  ghost predicate Consistent(fs: seq<Fragment>) {
    forall j, k :: 0 <= j < |fs| && 0 <= k < |fs| ==> Agree(fs[j], fs[k])
  }

  // ----- what a write does -----

  lemma {:induction false} WriteFirstAt(t: Transfer, f: Fragment, n: nat, i: nat)
    requires |t.bytes| == |t.got| && Fits(f, |t.bytes|) && n <= |f.payload| && i < |t.bytes|
    ensures var r := WriteFirst(t, f, n);
            if f.offset <= i < f.offset + n then r.got[i] && r.bytes[i] == f.payload[i - f.offset]
            else r.got[i] == t.got[i] && r.bytes[i] == t.bytes[i]
    decreases n
  {
    if n > 0 {
      WriteFirstAt(t, f, n - 1, i);
    }
  }

  function GotSet(t: Transfer): set<int> {
    set i: int | 0 <= i < |t.got| && t.got[i]
  }

  lemma WriteByteCount(t: Transfer, i: nat, value: byte)
    requires i < |t.bytes| == |t.got| && t.count == |GotSet(t)|
    ensures WriteByte(t, i, value).count == |GotSet(WriteByte(t, i, value))|
  {
    assert GotSet(WriteByte(t, i, value)) == GotSet(t) + {i};
  }

  lemma {:induction false} WriteFirstCount(t: Transfer, f: Fragment, n: nat)
    requires |t.bytes| == |t.got| && Fits(f, |t.bytes|) && n <= |f.payload| && t.count == |GotSet(t)|
    ensures WriteFirst(t, f, n).count == |GotSet(WriteFirst(t, f, n))|
    decreases n
  {
    if n > 0 {
      WriteFirstCount(t, f, n - 1);
      WriteByteCount(WriteFirst(t, f, n - 1), f.offset + n - 1, f.payload[n - 1]);
    }
  }

  /** What the receiver holds after consistent fragments, whatever their order. */
  ghost predicate Holds(t: Transfer, fs: seq<Fragment>) {
    && |t.bytes| == |t.got|
    && (forall i :: 0 <= i < |t.got| ==> (t.got[i] <==> Covered(fs, i)))
    && (forall i :: 0 <= i < |t.bytes| && !t.got[i] ==> t.bytes[i] == 0)
    && (forall i, k :: 0 <= i < |t.bytes| && 0 <= k < |fs| && Covers(fs[k], i) ==>
          t.bytes[i] == fs[k].payload[i - fs[k].offset])
    && t.count == |GotSet(t)|
  }

  lemma BlankHolds(n: nat)
    ensures Holds(Blank(n), [])
  {
    assert GotSet(Blank(n)) == {};
  }

  lemma WriteHolds(t: Transfer, fs: seq<Fragment>, f: Fragment)
    requires Holds(t, fs) && Fits(f, |t.bytes|)
    requires forall k :: 0 <= k < |fs| ==> Agree(fs[k], f)
    ensures Holds(Write(t, f), fs + [f])
  {
    var r := Write(t, f);
    WriteFirstCount(t, f, |f.payload|);
    forall i | 0 <= i < |t.bytes|
      ensures r.got[i] <==> Covered(fs + [f], i)
      ensures !r.got[i] ==> r.bytes[i] == 0
      ensures forall k :: 0 <= k < |fs + [f]| && Covers((fs + [f])[k], i) ==>
                r.bytes[i] == (fs + [f])[k].payload[i - (fs + [f])[k].offset]
    {
      WriteFirstAt(t, f, |f.payload|, i);
      CoveredAppend(fs, f, i);
      forall k | 0 <= k < |fs + [f]| && Covers((fs + [f])[k], i)
        ensures r.bytes[i] == (fs + [f])[k].payload[i - (fs + [f])[k].offset]
      {
        if k < |fs| && Covers(f, i) {
          assert Agree(fs[k], f);
        }
      }
    }
  }

  lemma CoveredAppend(fs: seq<Fragment>, f: Fragment, i: int)
    ensures Covered(fs + [f], i) <==> Covered(fs, i) || Covers(f, i)
  {
    if Covered(fs, i) {
      var k :| 0 <= k < |fs| && Covers(fs[k], i);
      assert (fs + [f])[k] == fs[k];
    }
    if Covers(f, i) {
      assert (fs + [f])[|fs|] == f;
    }
  }

  /** Consistent fragments are all accepted, and what is held depends on them alone. */
  lemma {:induction false} WriteAllHolds(n: nat, fs: seq<Fragment>)
    requires Consistent(fs) && forall f :: f in fs ==> Fits(f, n)
    ensures Holds(WriteAll(n, fs), fs)
    decreases |fs|
  {
    if fs == [] {
      BlankHolds(n);
    } else {
      var init := fs[..|fs| - 1];
      var last := fs[|fs| - 1];
      assert fs == init + [last];
      forall k | 0 <= k < |init| ensures Agree(init[k], last) {
        assert init[k] == fs[k];
      }
      assert Consistent(init) by {
        forall j, k | 0 <= j < |init| && 0 <= k < |init| ensures Agree(init[j], init[k]) {
          assert init[j] == fs[j] && init[k] == fs[k];
        }
      }
      WriteAllHolds(n, init);
      WriteHolds(WriteAll(n, init), init, last);
    }
  }

  /** A fragment that agrees with all earlier ones never raises the conflict error. */
  lemma NoConflict(t: Transfer, fs: seq<Fragment>, f: Fragment)
    requires Holds(t, fs) && Fits(f, |t.bytes|)
    requires forall k :: 0 <= k < |fs| ==> Agree(fs[k], f)
    ensures !Conflicts(t, f)
  {
    forall i | 0 <= i < |f.payload| && t.got[f.offset + i] ensures t.bytes[f.offset + i] == f.payload[i] {
      var k :| 0 <= k < |fs| && Covers(fs[k], f.offset + i);
      assert Agree(fs[k], f) && Covers(f, f.offset + i);
    }
  }

  /**
   * Order-independent reassembly: for consistent fragments in any order with any duplication and
   * overlap, the count is the size of the union of their ranges and the buffer agrees with them all.
   */
  lemma CountIsUnion(n: nat, fs: seq<Fragment>)
    requires Consistent(fs) && forall f :: f in fs ==> Fits(f, n)
    ensures var t := WriteAll(n, fs);
            && t.count == |Union(fs, n)|
            && (forall f, i :: f in fs && Covers(f, i) ==> 0 <= i < n && t.bytes[i] == f.payload[i - f.offset])
            && (t.count == n <==> CoverAll(fs, n))
  {
    var t := WriteAll(n, fs);
    WriteAllHolds(n, fs);
    assert GotSet(t) == Union(fs, n);
    forall f, i | f in fs && Covers(f, i) ensures 0 <= i < n && t.bytes[i] == f.payload[i - f.offset] {
      var k :| 0 <= k < |fs| && fs[k] == f;
    }
    FullUnion(fs, n);
  }

  function Range(n: nat): (r: set<int>)
    ensures forall i :: i in r <==> 0 <= i < n
    ensures |r| == n
    decreases n
  {
    if n == 0 then {} else Range(n - 1) + {n - 1}
  }

  lemma FullUnion(fs: seq<Fragment>, n: nat)
    ensures |Union(fs, n)| == n <==> CoverAll(fs, n)
  {
    var rest := Range(n) - Union(fs, n);
    assert Range(n) == Union(fs, n) + rest;
    assert |Union(fs, n)| == n <==> rest == {};
    assert CoverAll(fs, n) ==> rest == {};
    forall i | rest == {} && 0 <= i < n ensures Covered(fs, i) {
      assert i in Range(n) && i !in rest;
    }
  }

  lemma SameMembers(fs: seq<Fragment>, gs: seq<Fragment>)
    requires multiset(fs) == multiset(gs)
    ensures forall g :: g in gs <==> g in fs
  {
    assert forall g :: g in gs <==> g in multiset(gs);
    assert forall g :: g in fs <==> g in multiset(fs);
  }

  lemma ConsistentShuffle(fs: seq<Fragment>, gs: seq<Fragment>)
    requires Consistent(fs) && forall g :: g in gs <==> g in fs
    ensures Consistent(gs)
  {
    forall j, k | 0 <= j < |gs| && 0 <= k < |gs| ensures Agree(gs[j], gs[k]) {
      assert gs[j] in fs && gs[k] in fs;
      var a :| 0 <= a < |fs| && fs[a] == gs[j];
      var b :| 0 <= b < |fs| && fs[b] == gs[k];
      assert Agree(fs[a], fs[b]);
    }
  }

  /** Any permutation of the fragments leaves the same bytes, the same map and the same count. */
  lemma PermutationsAgree(n: nat, fs: seq<Fragment>, gs: seq<Fragment>)
    requires Consistent(fs) && multiset(fs) == multiset(gs) && forall f :: f in fs ==> Fits(f, n)
    ensures forall g :: g in gs ==> Fits(g, n)
    ensures WriteAll(n, fs) == WriteAll(n, gs)
  {
    SameMembers(fs, gs);
    ConsistentShuffle(fs, gs);
    WriteAllHolds(n, fs);
    WriteAllHolds(n, gs);
    var t, u := WriteAll(n, fs), WriteAll(n, gs);
    forall i | 0 <= i < n ensures t.got[i] == u.got[i] && t.bytes[i] == u.bytes[i] {
      SameCover(fs, gs, i);
      if Covered(fs, i) {
        var k :| 0 <= k < |fs| && Covers(fs[k], i);
        assert fs[k] in multiset(gs);
        var j :| 0 <= j < |gs| && gs[j] == fs[k];
      }
    }
    assert GotSet(t) == GotSet(u);
  }

  lemma SameCover(fs: seq<Fragment>, gs: seq<Fragment>, i: int)
    requires multiset(fs) == multiset(gs)
    ensures Covered(fs, i) <==> Covered(gs, i)
  {
    if Covered(fs, i) {
      var k :| 0 <= k < |fs| && Covers(fs[k], i);
      assert fs[k] in multiset(gs);
      var j :| 0 <= j < |gs| && gs[j] == fs[k];
    }
    if Covered(gs, i) {
      var k :| 0 <= k < |gs| && Covers(gs[k], i);
      assert gs[k] in multiset(fs);
      var j :| 0 <= j < |fs| && fs[j] == gs[k];
    }
  }

  // ----- the receiver -----

  datatype Session = Idle | Receiving(transaction: byte, family: Family, crc: bv32, transfer: Transfer)

  /** What `on_notify` returns; `Refused` stands for every ValueError. */
  datatype Event =
    | Refused
    | Started(transaction: byte, total: nat)
    | Progress(transaction: byte, count: nat, total: nat)
    | Complete(transaction: byte, content: bytes)

  predicate StartLengthOk(f: Frame) {
    if f.family == DiagnosticsFamily then f.totalLen == DIAG_BYTES else HEADER_BYTES <= f.totalLen <= MAX_BYTES
  }

  ghost predicate ValidSession(s: Session) {
    s.Receiving? ==>
      && |s.transfer.bytes| == |s.transfer.got| <= MAX_BYTES
      && s.transfer.count == |GotSet(s.transfer)|
      && (forall i :: 0 <= i < |s.transfer.bytes| && !s.transfer.got[i] ==> s.transfer.bytes[i] == 0)
      && (s.family == DiagnosticsFamily ==> |s.transfer.bytes| == DIAG_BYTES)
      && HEADER_BYTES <= |s.transfer.bytes|
  }

  predicate SameTransfer(s: Session, f: Frame) {
    s.Receiving? && f.transaction == s.transaction && f.totalLen == |s.transfer.bytes| && f.crc == s.crc
    && f.family == s.family
  }

  function FragmentOf(f: Frame): Fragment {
    Fragment(f.offset, f.payload)
  }

  /** How many bytes are stored before the first one that conflicts. */
  function Agreeing(t: Transfer, f: Fragment, from: nat): (n: nat)
    requires |t.bytes| == |t.got| && Fits(f, |t.bytes|) && from <= |f.payload|
    ensures from <= n <= |f.payload|
    decreases |f.payload| - from
  {
    if from == |f.payload| || (t.got[f.offset + from] && t.bytes[f.offset + from] != f.payload[from]) then from
    else Agreeing(t, f, from + 1)
  }

  /** The CRC of a content its family's parser accepts. */
  function AcceptedCrc(family: Family, content: bytes): Option<bv32> {
    if family == DiagnosticsFamily then ParseDiagnostics(content)
    else match Parse(content) case None => None case Some(record) => Some(record.crc)
  }

  /** `on_notify` on a frame that parsed. */
  function Step(s: Session, f: Frame): (r: (Session, Event))
    requires InRange(f) && (s.Receiving? ==> |s.transfer.bytes| == |s.transfer.got|)
    ensures r.0.Receiving? ==> |r.0.transfer.bytes| == |r.0.transfer.got|
  {
    if f.kind == Start then
      if StartLengthOk(f)
      then (Receiving(f.transaction, f.family, f.crc, Blank(f.totalLen)), Started(f.transaction, f.totalLen))
      else (s, Refused)
    else if !SameTransfer(s, f) then (s, Refused)
    else if f.kind == Data then
      var n := Agreeing(s.transfer, FragmentOf(f), 0);
      var t := WriteFirst(s.transfer, FragmentOf(f), n);
      (s.(transfer := t), if n < |f.payload| then Refused else Progress(f.transaction, t.count, f.totalLen))
    else if f.offset != f.totalLen || s.transfer.count != f.totalLen then (s, Refused)
    else if AcceptedCrc(s.family, s.transfer.bytes) != Some(s.crc) then (s, Refused)
    else (Idle, Complete(f.transaction, s.transfer.bytes))
  }

  lemma {:induction false} AgreeingMeaning(t: Transfer, f: Fragment, from: nat)
    requires |t.bytes| == |t.got| && Fits(f, |t.bytes|) && from <= |f.payload|
    ensures var n := Agreeing(t, f, from);
            && (forall i :: from <= i < n && t.got[f.offset + i] ==> t.bytes[f.offset + i] == f.payload[i])
            && (n < |f.payload| ==> t.got[f.offset + n] && t.bytes[f.offset + n] != f.payload[n])
    decreases |f.payload| - from
  {
    if Agreeing(t, f, from) > from {
      AgreeingMeaning(t, f, from + 1);
    }
  }

  /** A frame is refused for conflicting bytes exactly when some received byte differs. */
  lemma AgreeingAll(t: Transfer, f: Fragment)
    requires |t.bytes| == |t.got| && Fits(f, |t.bytes|)
    ensures Agreeing(t, f, 0) == |f.payload| <==> !Conflicts(t, f)
  {
    AgreeingMeaning(t, f, 0);
  }

  /**
   * Whatever frame arrives, consistent or not, in the right transaction or not: the count stays the
   * number of received positions, and inside one transfer no received byte is ever lost or changed.
   */
  lemma StepKeeps(s: Session, f: Frame)
    requires InRange(f) && ValidSession(s)
    ensures ValidSession(Step(s, f).0)
    ensures f.kind != Start && Step(s, f).0.Receiving? ==>
              var r := Step(s, f).0;
              && s.Receiving? && r == s.(transfer := r.transfer) && |r.transfer.got| == |s.transfer.got|
              && forall i :: 0 <= i < |s.transfer.got| && s.transfer.got[i] ==>
                   r.transfer.got[i] && r.transfer.bytes[i] == s.transfer.bytes[i]
  {
    hide AcceptedCrc;
    if f.kind == Start {
      BlankHolds(f.totalLen);
    } else if SameTransfer(s, f) && f.kind == Data {
      DataKeeps(s.transfer, FragmentOf(f));
    }
  }

  lemma DataKeeps(t: Transfer, g: Fragment)
    requires |t.bytes| == |t.got| && Fits(g, |t.bytes|) && t.count == |GotSet(t)|
    requires forall i :: 0 <= i < |t.bytes| && !t.got[i] ==> t.bytes[i] == 0
    ensures var r := WriteFirst(t, g, Agreeing(t, g, 0));
            && r.count == |GotSet(r)|
            && (forall i :: 0 <= i < |t.bytes| && !r.got[i] ==> r.bytes[i] == 0)
            && (forall i :: 0 <= i < |t.got| && t.got[i] ==> r.got[i] && r.bytes[i] == t.bytes[i])
  {
    var n := Agreeing(t, g, 0);
    AgreeingMeaning(t, g, 0);
    WriteFirstCount(t, g, n);
    var r := WriteFirst(t, g, n);
    forall i | 0 <= i < |t.bytes|
      ensures !r.got[i] ==> r.bytes[i] == 0
      ensures t.got[i] ==> r.got[i] && r.bytes[i] == t.bytes[i]
    {
      WriteFirstAt(t, g, n, i);
      if g.offset <= i < g.offset + n && t.got[i] {
        assert t.bytes[g.offset + (i - g.offset)] == g.payload[i - g.offset];
      }
    }
  }

  // ----- a whole transfer -----

  function Fragments(frames: seq<Frame>): (fs: seq<Fragment>)
    ensures |fs| == |frames|
  {
    seq(|frames|, i requires 0 <= i < |frames| => FragmentOf(frames[i]))
  }

  predicate DataOf(s: Session, frames: seq<Frame>) {
    forall f :: f in frames ==> InRange(f) && f.kind == Data && SameTransfer(s, f)
  }

  function RunData(s: Session, frames: seq<Frame>): (r: Session)
    requires s.Receiving? && |s.transfer.bytes| == |s.transfer.got| && DataOf(s, frames)
    ensures r.Receiving? && |r.transfer.bytes| == |r.transfer.got| == |s.transfer.bytes|
    ensures r == s.(transfer := r.transfer)
    decreases |frames|
  {
    if frames == [] then s
    else
      var init := RunData(s, frames[..|frames| - 1]);
      Step(init, frames[|frames| - 1]).0
  }

  lemma AgreedStep(s: Session, fs: seq<Fragment>, f: Frame)
    requires s.Receiving? && Holds(s.transfer, fs)
    requires InRange(f) && f.kind == Data && SameTransfer(s, f)
    requires forall k :: 0 <= k < |fs| ==> Agree(fs[k], FragmentOf(f))
    ensures Step(s, f).0 == s.(transfer := Write(s.transfer, FragmentOf(f)))
  {
    NoConflict(s.transfer, fs, FragmentOf(f));
    AgreeingAll(s.transfer, FragmentOf(f));
  }

  lemma {:induction false} RunDataIsWriteAll(s: Session, frames: seq<Frame>)
    requires s.Receiving? && s.transfer == Blank(|s.transfer.bytes|) && DataOf(s, frames)
    requires Consistent(Fragments(frames))
    ensures (forall g :: g in Fragments(frames) ==> Fits(g, |s.transfer.bytes|))
    ensures RunData(s, frames).transfer == WriteAll(|s.transfer.bytes|, Fragments(frames))
    ensures Holds(RunData(s, frames).transfer, Fragments(frames))
    decreases |frames|
  {
    var n := |s.transfer.bytes|;
    var fs := Fragments(frames);
    forall g | g in fs ensures Fits(g, n) {
      var k :| 0 <= k < |fs| && fs[k] == g;
      assert frames[k] in frames;
    }
    WriteAllHolds(n, fs);
    hide Step, Holds;
    if frames != [] {
      var init, last := frames[..|frames| - 1], frames[|frames| - 1];
      assert Fragments(init) == fs[..|fs| - 1];
      assert forall k :: 0 <= k < |fs| - 1 ==> Agree(fs[k], fs[|fs| - 1]);
      ConsistentInit(fs);
      RunDataIsWriteAll(s, init);
      AgreedStep(RunData(s, init), Fragments(init), last);
    }
  }

  lemma ConsistentInit(fs: seq<Fragment>)
    requires Consistent(fs) && fs != []
    ensures Consistent(fs[..|fs| - 1])
  {
    var init := fs[..|fs| - 1];
    forall j, k | 0 <= j < |init| && 0 <= k < |init| ensures Agree(init[j], init[k]) {
      assert Agree(fs[j], fs[k]);
    }
  }

  /** Every fragment lies inside the content and says the same as the content. */
  ghost predicate SaysTheSame(fs: seq<Fragment>, content: bytes) {
    forall g, i :: g in fs && Covers(g, i) ==> 0 <= i < |content| && content[i] == g.payload[i - g.offset]
  }

  lemma CoveredContentIsUnique(fs: seq<Fragment>, a: bytes, b: bytes)
    requires |a| == |b| && CoverAll(fs, |a|) && SaysTheSame(fs, a) && SaysTheSame(fs, b)
    ensures a == b
  {
    forall i | 0 <= i < |a| ensures a[i] == b[i] {
      assert Covered(fs, i);
      var k :| 0 <= k < |fs| && Covers(fs[k], i);
      assert fs[k] in fs;
    }
  }

  /**
   * After a START and any consistent DATA frames, in any order and with any repetition, an END that
   * points at the end completes exactly when the frames cover the whole transfer and the bytes they
   * carry are an accepted record (or diagnostics) with the announced CRC.
   */
  lemma EndCompletesExactly(idle: Session, start: Frame, frames: seq<Frame>, end: Frame, content: bytes)
    requires InRange(start) && start.kind == Start && StartLengthOk(start)
    requires idle.Receiving? ==> |idle.transfer.bytes| == |idle.transfer.got|
    requires DataOf(Step(idle, start).0, frames) && Consistent(Fragments(frames))
    requires InRange(end) && end.kind == End && SameTransfer(Step(idle, start).0, end)
    ensures var s := RunData(Step(idle, start).0, frames);
            Step(s, end).1 == Complete(start.transaction, content) <==>
            && end.offset == start.totalLen == |content|
            && CoverAll(Fragments(frames), start.totalLen)
            && SaysTheSame(Fragments(frames), content)
            && AcceptedCrc(start.family, content) == Some(start.crc)
  {
    hide AcceptedCrc, Write, WriteFirst;
    var begun := Step(idle, start).0;
    var n := start.totalLen;
    RunDataIsWriteAll(begun, frames);
    var s := RunData(begun, frames);
    CountIsUnion(n, Fragments(frames));
    assert SaysTheSame(Fragments(frames), s.transfer.bytes);
    if CoverAll(Fragments(frames), n) && |content| == n && SaysTheSame(Fragments(frames), content) {
      CoveredContentIsUnique(Fragments(frames), content, s.transfer.bytes);
    }
  }

  lemma StoreFirst(t: Transfer, f: Fragment, n: nat)
    requires |t.bytes| == |t.got| && Fits(f, |t.bytes|) && n <= |f.payload|
    ensures WriteFirst(t, f, 0) == t
    ensures n < |f.payload| ==>
              WriteFirst(t, f, n + 1) == WriteByte(WriteFirst(t, f, n), f.offset + n, f.payload[n])
  {
  }

  class Receiver {
    var transactionId: Option<byte>
    var crc: bv32
    var family: Family
    var buffer: array<byte>
    var received: array<bool>
    var receivedCount: nat

    ghost predicate Valid()
      reads this, buffer, received
    {
      && (transactionId == None ==> buffer.Length == 0)
      && buffer as object != received as object && buffer.Length == received.Length
      && ValidSession(Value())
    }

    ghost function Value(): (s: Session)
      reads this, buffer, received
    {
      if transactionId == None then Idle
      else Receiving(transactionId.value, family, crc, Stored())
    }

    ghost function Stored(): Transfer
      reads this, buffer, received
    {
      Transfer(buffer[..], received[..], receivedCount)
    }

    constructor ()
      ensures Valid() && Value() == Idle && fresh(buffer) && fresh(received)
    {
      transactionId, crc, family, receivedCount := None, 0, RecordFamily, 0;
      buffer, received := new byte[0], new bool[0];
    }

    method Reset()
      modifies this
      ensures Valid() && Value() == Idle && fresh(buffer) && fresh(received)
    {
      transactionId, crc, family, receivedCount := None, 0, RecordFamily, 0;
      buffer, received := new byte[0], new bool[0];
    }

    method Begin(f: Frame)
      requires InRange(f) && StartLengthOk(f)
      modifies this
      ensures Valid() && fresh(buffer) && fresh(received)
      ensures Value() == Receiving(f.transaction, f.family, f.crc, Blank(f.totalLen))
    {
      transactionId, crc, family, receivedCount := Some(f.transaction), f.crc, f.family, 0;
      buffer := new byte[f.totalLen](_ => 0);
      received := new bool[f.totalLen](_ => false);
      BlankHolds(f.totalLen);
      assert Stored() == Blank(f.totalLen);
    }

    /** The byte loop of DATA: it stops at the first conflict and keeps what it stored until then. */
    method Store(g: Fragment) returns (ok: bool)
      requires buffer as object != received as object && buffer.Length == received.Length && Fits(g, buffer.Length)
      modifies `receivedCount, buffer, received
      ensures ok <==> Agreeing(old(Stored()), g, 0) == |g.payload|
      ensures Stored() == WriteFirst(old(Stored()), g, Agreeing(old(Stored()), g, 0))
    {
      ghost var t := Stored();
      hide WriteFirst;
      StoreFirst(t, g, 0);
      var i := 0;
      while i < |g.payload|
        invariant 0 <= i <= |g.payload|
        invariant Agreeing(t, g, 0) == Agreeing(t, g, i)
        invariant Stored() == WriteFirst(t, g, i)
      {
        var at := g.offset + i;
        ghost var before := Stored();
        WriteFirstAt(t, g, i, at);
        StoreFirst(t, g, i);
        assert received[at] == before.got[at] && buffer[at] == before.bytes[at];
        if received[at] && buffer[at] != g.payload[i] {
          return false;
        }
        if !received[at] {
          received[at] := true;
          receivedCount := receivedCount + 1;
        }
        assert received[..] == before.got[at := true];
        buffer[at] := g.payload[i];
        assert buffer[..] == before.bytes[at := g.payload[i]];
        assert received[..] == before.got[at := true];
        i := i + 1;
      }
      return true;
    }

    method ContentOk() returns (ok: bool)
      ensures ok <==> AcceptedCrc(family, buffer[..]) == Some(crc)
    {
      if family == DiagnosticsFamily {
        ok := ParseDiagnostics(buffer[..]) == Some(crc);
      } else {
        var record := ParseCalibrationRecord(buffer[..]);
        ok := record.Some? && record.value.crc == crc;
      }
    }

    method OnFrame(f: Frame) returns (event: Event)
      requires Valid() && InRange(f)
      modifies this, buffer, received
      ensures Valid()
      ensures (Value(), event) == Step(old(Value()), f)
      ensures buffer == old(buffer) || fresh(buffer)
      ensures received == old(received) || fresh(received)
    {
      hide AcceptedCrc, ValidSession, WriteFirst, Agreeing;
      StepKeeps(Value(), f);
      if f.kind == Start {
        if !StartLengthOk(f) {
          return Refused;
        }
        Begin(f);
        return Started(f.transaction, f.totalLen);
      }
      if transactionId != Some(f.transaction) || f.totalLen != buffer.Length || f.crc != crc || f.family != family {
        return Refused;
      }
      if f.kind == Data {
        var ok := Store(FragmentOf(f));
        return if ok then Progress(f.transaction, receivedCount, f.totalLen) else Refused;
      }
      if f.offset != f.totalLen || receivedCount != f.totalLen {
        return Refused;
      }
      var accepted := ContentOk();
      if !accepted {
        return Refused;
      }
      event := Complete(f.transaction, buffer[..]);
      Reset();
    }

    method OnNotify(data: bytes) returns (event: Event)
      requires Valid()
      modifies this, buffer, received
      ensures Valid()
      ensures (Value(), event) ==
              if ParseFrame(data).Some? then Step(old(Value()), ParseFrame(data).value) else (old(Value()), Refused)
      ensures buffer == old(buffer) || fresh(buffer)
      ensures received == old(received) || fresh(received)
    {
      hide ParseFrame, Step, ValidSession;
      var frame := ParseFrame(data);
      if frame == None {
        return Refused;
      }
      event := OnFrame(frame.value);
    }
  }
}
