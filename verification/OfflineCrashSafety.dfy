/**
 * Why a crash between any two file operations of the session store is harmless: the directory
 * invariant every file operation keeps, and what `prepare` makes of any directory that satisfies it.
 */
module OfflineCrashSafety {
  import opened Crc32
  import opened OfflineDisk
  import opened OfflineProtocol
  import opened OfflineStoreSpec
  import opened Wrappers

  /** The file a transfer continues from: a lone final file is an interrupted finalize. */
  function Current(d: Directory): File {
    if d.part.Present? then d.part else d.final
  }

  /** `img` is empty or still holds the checkpointed prefix of the accepted bytes. */
  ghost predicate Covers(img: bytes, r: Resume, accepted: bytes) {
    img == [] ||
    (&& r.durableOffset <= |img| && r.durableOffset <= |accepted|
     && img[..r.durableOffset] == accepted[..r.durableOffset]
     && Crc(accepted[..r.durableOffset], 0) == r.prefixCrc32)
  }

  /** Whatever a power loss leaves of the current file covers the recorded checkpoint, or is empty. */
  ghost predicate DiskInv(d: Directory, accepted: bytes) {
    d.resume.Some? ==> AllCover(Current(d), d.resume.value, accepted)
  }

  ghost predicate AllCover(f: File, r: Resume, accepted: bytes) {
    && (r.durableOffset == 0 ==> r.prefixCrc32 == 0)
    && forall img :: MayLeave(f, img) ==> Covers(img, r, accepted)
  }

  /** `p` holds before, between and after the operations. */
  ghost predicate Along(d: Directory, ops: seq<FileOp>, p: Directory -> bool)
    decreases |ops|
  {
    p(d) && (ops != [] ==> Along(Apply(d, ops[0]), ops[1..], p))
  }

  lemma {:induction false} AlongConcat(d: Directory, a: seq<FileOp>, b: seq<FileOp>, p: Directory -> bool)
    requires Along(d, a, p) && Along(Run(d, a), b, p)
    ensures Along(d, a + b, p)
    decreases |a|
  {
    if a == [] {
      assert a + b == b;
    } else {
      assert (a + b)[1..] == a[1..] + b;
      AlongConcat(Apply(d, a[0]), a[1..], b, p);
    }
  }

  lemma {:induction false} AlongAt(d: Directory, ops: seq<FileOp>, p: Directory -> bool, k: nat)
    requires Along(d, ops, p) && k <= |ops|
    ensures p(Run(d, ops[..k]))
    decreases |ops|
  {
    if k > 0 {
      assert ops[..k][1..] == ops[1..][..k - 1];
      AlongAt(Apply(d, ops[0]), ops[1..], p, k - 1);
    }
  }

  lemma AlongTwo(d: Directory, first: FileOp, second: FileOp, p: Directory -> bool)
    requires p(d) && p(Apply(d, first)) && p(Apply(Apply(d, first), second))
    ensures Along(d, [first, second], p)
  {
    assert [first, second][1..] == [second];
    assert [second][1..] == [];
    assert Along(Apply(d, first), [second], p);
  }

  // ----- single operations -----

  lemma TruncateKeepsCover(f: File, size: nat, r: Resume, accepted: bytes)
    requires f.Present? && size <= |f.data| && AllCover(f, r, accepted)
    requires size == 0 || size == r.durableOffset
    ensures AllCover(Rewritten(f, f.data[..size]), r, accepted)
  {
    assert MayLeave(f, f.data);
    forall img | MayLeave(Rewritten(f, f.data[..size]), img) ensures Covers(img, r, accepted) {
      RewrittenMayLeave(f, f.data[..size], img);
      if img == f.data[..size] && size > 0 {
        assert img[..size] == f.data[..size];
      }
    }
  }

  lemma GrowKeepsCover(f: File, payload: bytes, r: Resume, accepted: bytes)
    requires f.Present? && AllCover(f, r, accepted)
    requires f.data == [] ==> r.durableOffset == 0
    ensures AllCover(Rewritten(f, f.data + payload), r, accepted)
  {
    assert MayLeave(f, f.data);
    CrcOfNothing(0);
    forall img | MayLeave(Rewritten(f, f.data + payload), img) ensures Covers(img, r, accepted) {
      RewrittenMayLeave(f, f.data + payload, img);
      if !MayLeave(f, img) {
        assert f.data <= img;
        if f.data == [] {
          assert img[..0] == [] && accepted[..0] == [];
        } else {
          assert img[..r.durableOffset] == f.data[..r.durableOffset];
        }
      }
    }
  }

  lemma SyncKeepsCover(f: File, r: Resume, accepted: bytes)
    requires f.Present? && AllCover(f, r, accepted)
    ensures AllCover(Present([], f.data), r, accepted)
  {
    assert MayLeave(f, f.data);
  }

  lemma ZeroCovers(f: File, m: Manifest, accepted: bytes)
    ensures AllCover(f, ResumeFor(m, ZERO_CHECKPOINT), accepted)
  {
    CrcOfNothing(0);
    forall img ensures Covers(img, ResumeFor(m, ZERO_CHECKPOINT), accepted) {
      assert img[..0] == [] && accepted[..0] == [];
    }
  }

  lemma SyncedCovers(m: Manifest, cp: Checkpoint, data: bytes)
    requires cp.offset == |data| && cp.crc == Crc(data, 0)
    ensures AllCover(Present([], data), ResumeFor(m, cp), data)
  {
    assert data[..|data|] == data;
  }

  /** A crash only narrows down what the current file may hold. */
  lemma CrashKeepsDiskInv(d: Directory, e: Directory, accepted: bytes)
    requires DiskInv(d, accepted) && AfterCrash(d, e)
    ensures DiskInv(e, accepted)
  {
    if e != d && d.resume.Some? {
      forall img | MayLeave(Current(e), img) ensures Covers(img, d.resume.value, accepted) {
        FileImages(Current(d), Current(e), img);
      }
    }
  }

  // ----- prepare, stage by stage -----

  lemma OpenSafe(d: Directory, accepted: bytes, forced: bool)
    requires DiskInv(d, accepted)
    ensures Along(d, OpenOps(d, forced), (e: Directory) => DiskInv(e, accepted))
    ensures var atOpen := Run(d, OpenOps(d, forced));
            && DiskInv(atOpen, accepted) && atOpen.resume == d.resume
            && (forced ==> atOpen.part == Present([], []))
            && (atOpen.part.Absent? ==> atOpen.final.Absent?)
  {
    if OpenOps(d, forced) != [] {
      var op := OpenOps(d, forced)[0];
      assert OpenOps(d, forced) == [op] && [op][1..] == [];
      RunOne(d, op);
      assert Along(Apply(d, op), [], (e: Directory) => DiskInv(e, accepted));
    }
  }

  /** The recorded checkpoint is zero, or it is exactly what `resume.json` says. */
  ghost predicate FromResume(d: Directory, m: Manifest, cp: Checkpoint) {
    cp == ZERO_CHECKPOINT || (d.part.Present? && d.resume == Some(ResumeFor(m, cp)))
  }

  /** What the fitted part file is, before any more operations. */
  ghost predicate Fitted(e: Directory, m: Manifest, covered: Checkpoint, accepted: bytes) {
    && e.part.Present?
    && covered.offset == |e.part.data| && covered.offset <= |accepted|
    && e.part.data == accepted[..covered.offset]
    && covered.crc == Crc(e.part.data, 0)
    && AllCover(e.part, ResumeFor(m, covered), accepted)
  }

  lemma EmptyIsFitted(e: Directory, m: Manifest, accepted: bytes)
    requires e.part.Present? && e.part.data == []
    ensures Fitted(e, m, ZERO_CHECKPOINT, accepted)
  {
    CrcOfNothing(0);
    ZeroCovers(e.part, m, accepted);
  }

  lemma FitSafe(d: Directory, accepted: bytes, m: Manifest, cp: Checkpoint)
    requires DiskInv(d, accepted) && FromResume(d, m, cp)
    requires d.part.Absent? ==> d.final.Absent?
    ensures Along(d, FitOps(d, cp), (e: Directory) => DiskInv(e, accepted))
    ensures var fitted := Run(d, FitOps(d, cp));
            fitted == d.(part := fitted.part) && Fitted(fitted, m, Covered(d, cp), accepted)
  {
    if d.part.Absent? {
      RunOne(d, ResetPart);
      assert FitOps(d, cp)[1..] == [];
      assert Along(Apply(d, ResetPart), [], (e: Directory) => DiskInv(e, accepted));
      EmptyIsFitted(Apply(d, ResetPart), m, accepted);
    } else if |d.part.data| > cp.offset {
      FitByCutting(d, accepted, m, cp);
    } else {
      assert MayLeave(d.part, d.part.data);
      if d.part.data == [] {
        EmptyIsFitted(d, m, accepted);
      }
    }
  }

  lemma FitByCutting(d: Directory, accepted: bytes, m: Manifest, cp: Checkpoint)
    requires DiskInv(d, accepted) && FromResume(d, m, cp)
    requires d.part.Present? && |d.part.data| > cp.offset
    ensures Along(d, FitOps(d, cp), (e: Directory) => DiskInv(e, accepted))
    ensures var fitted := Run(d, FitOps(d, cp));
            fitted == d.(part := fitted.part) && Fitted(fitted, m, cp, accepted)
  {
    var cut := d.part.data[..cp.offset];
    var fitted := Apply(Apply(d, TruncatePart(cp.offset)), SyncPart);
    RunTwo(d, TruncatePart(cp.offset), SyncPart);
    if d.resume.Some? {
      TruncateIfRecorded(d, accepted, m, cp);
    }
    AlongTwo(d, TruncatePart(cp.offset), SyncPart, (e: Directory) => DiskInv(e, accepted));
    if cp.offset == 0 {
      EmptyIsFitted(fitted, m, accepted);
    } else {
      assert MayLeave(d.part, d.part.data);
    }
  }

  lemma TruncateIfRecorded(d: Directory, accepted: bytes, m: Manifest, cp: Checkpoint)
    requires DiskInv(d, accepted) && FromResume(d, m, cp)
    requires d.part.Present? && cp.offset < |d.part.data| && d.resume.Some?
    ensures DiskInv(Apply(d, TruncatePart(cp.offset)), accepted)
    ensures DiskInv(Apply(Apply(d, TruncatePart(cp.offset)), SyncPart), accepted)
  {
    TruncateKeepsCover(d.part, cp.offset, d.resume.value, accepted);
    SyncKeepsCover(Rewritten(d.part, d.part.data[..cp.offset]), d.resume.value, accepted);
  }

  lemma CloseSafe(d: Directory, accepted: bytes, m: Manifest, cp: Checkpoint, forced: bool)
    requires DiskInv(d, accepted) && d.part.Present? && AllCover(d.part, ResumeFor(m, cp), accepted)
    ensures Along(d, CloseOps(m, cp, forced), (e: Directory) => DiskInv(e, accepted))
    ensures Run(d, CloseOps(m, cp, forced))
            == d.(resume := Some(ResumeFor(m, cp)), restart := if forced then None else d.restart)
  {
    var put := PutResume(ResumeFor(m, cp));
    var keeps := (e: Directory) => DiskInv(e, accepted);
    if forced {
      assert CloseOps(m, cp, forced) == [put, DropRestart];
      RunTwo(d, put, DropRestart);
      AlongTwo(d, put, DropRestart, keeps);
    } else {
      assert CloseOps(m, cp, forced) == [put] && [put][1..] == [];
      RunOne(d, put);
      assert Along(Apply(d, put), [], keeps);
    }
  }

  lemma Join(d: Directory, a: seq<FileOp>, b: seq<FileOp>, p: Directory -> bool)
    requires Along(d, a, p) && Along(Run(d, a), b, p)
    ensures Along(d, a + b, p) && Run(d, a + b) == Run(Run(d, a), b)
  {
    AlongConcat(d, a, b, p);
    RunConcat(d, a, b);
  }

  lemma HoldsAtEnd(d: Directory, ops: seq<FileOp>, p: Directory -> bool)
    requires Along(d, ops, p)
    ensures p(Run(d, ops))
  {
    AlongAt(d, ops, p, |ops|);
    assert ops[..|ops|] == ops;
  }

  function AtOpen(d: Directory, forced: bool): Directory {
    Run(d, OpenOps(d, forced))
  }

  function FitStage(d: Directory, m: Manifest, forced: bool): seq<FileOp> {
    FitOps(AtOpen(d, forced), Recorded(AtOpen(d, forced), m, forced))
  }

  /** The checkpoint `prepare` settles on when nothing but crashes has happened to the directory. */
  function Settled(d: Directory, m: Manifest, forced: bool): Checkpoint {
    Covered(AtOpen(d, forced), Recorded(AtOpen(d, forced), m, forced))
  }

  lemma OpenAndFit(d: Directory, accepted: bytes, m: Manifest, forced: bool)
    requires DiskInv(d, accepted)
    ensures var ops := OpenOps(d, forced) + FitStage(d, m, forced);
            && Along(d, ops, (e: Directory) => DiskInv(e, accepted))
            && Run(d, ops) == Run(AtOpen(d, forced), FitStage(d, m, forced))
            && DiskInv(Run(d, ops), accepted)
            && Fitted(Run(d, ops), m, Settled(d, m, forced), accepted)
            && Run(d, ops).restart == d.restart
  {
    var keeps := (e: Directory) => DiskInv(e, accepted);
    OpenSafe(d, accepted, forced);
    FitSafe(AtOpen(d, forced), accepted, m, Recorded(AtOpen(d, forced), m, forced));
    Join(d, OpenOps(d, forced), FitStage(d, m, forced), keeps);
    HoldsAtEnd(d, OpenOps(d, forced) + FitStage(d, m, forced), keeps);
  }

  /** The prefix check never fails after a crash, so `prepare` keeps the checkpoint it settled on. */
  lemma PlanOfTransfer(d: Directory, accepted: bytes, m: Manifest, forced: bool)
    requires DiskInv(d, accepted)
    ensures TransferPlan(d, m, forced) == PreparePlan(
              OpenOps(d, forced) + FitStage(d, m, forced) + CloseOps(m, Settled(d, m, forced), forced),
              Resumable(Settled(d, m, forced)))
  {
    OpenAndFit(d, accepted, m, forced);
    var fitted := Run(AtOpen(d, forced), FitStage(d, m, forced));
    var cp := Settled(d, m, forced);
    assert fitted.part.data[..cp.offset] == fitted.part.data;
    assert Genuine(fitted, cp);
    var ops := OpenOps(d, forced) + FitStage(d, m, forced);
    assert ops + [] == ops;
  }

  /**
   * From any directory that satisfies the invariant, a transfer keeps it at every step and ends with
   * the part file cut to a checkpointed prefix of what had been accepted.
   */
  lemma TransferSafe(d: Directory, accepted: bytes, m: Manifest, forced: bool)
    requires DiskInv(d, accepted)
    ensures Along(d, TransferPlan(d, m, forced).ops, (e: Directory) => DiskInv(e, accepted))
    ensures var cp := Settled(d, m, forced);
            var e := Run(d, TransferPlan(d, m, forced).ops);
            && TransferPlan(d, m, forced).result == Resumable(cp)
            && cp.offset <= m.logicalBytes && (forced ==> cp == ZERO_CHECKPOINT)
            && Fitted(e, m, cp, accepted)
            && e.resume == Some(ResumeFor(m, cp))
            && e.restart == (if forced then None else d.restart)
  {
    PlanOfTransfer(d, accepted, m, forced);
    OpenAndFit(d, accepted, m, forced);
    var ops := OpenOps(d, forced) + FitStage(d, m, forced);
    CloseSafe(Run(d, ops), accepted, m, Settled(d, m, forced), forced);
    Join(d, ops, CloseOps(m, Settled(d, m, forced), forced), (e: Directory) => DiskInv(e, accepted));
  }
}
