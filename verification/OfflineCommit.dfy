/**
 * Runs that transfer one session: what a completed record is worth at every crash point, and that
 * no checkpointed byte is lost on the way to it.
 */
module OfflineCommit {
  import opened Crc32
  import opened OfflineCrashSafety
  import opened OfflineDisk
  import opened OfflineProtocol
  import opened OfflineRuns
  import opened OfflineStoreSpec
  import opened Wrappers

  ghost predicate AllComplete(f: File, m: Manifest) {
    f.Present? && forall img :: MayLeave(f, img) ==> CompletedData(img, m)
  }

  /** Nothing a power loss may leave of the current file is empty. */
  ghost predicate NeverEmpty(f: File) {
    f.Present? && forall img :: MayLeave(f, img) ==> img != []
  }

  /** A file behind a recorded checkpoint keeps its bytes, unless a forced restart just emptied it. */
  ghost predicate Survives(f: File, kept: nat) {
    NeverEmpty(f) || (f.Present? && f.data == [] && kept == 0)
  }

  /** The directory of session `m0` after `kept` of its bytes were promised by a checkpoint. */
  ghost predicate Commitment(d: Directory, m0: Manifest, kept: nat) {
    && (d.metadata.Some? ==> d.metadata.value == MetadataFor(m0) && AllComplete(d.final, m0))
    && (d.resume.Some? ==> ResumeMatches(d.resume.value, m0) && d.resume.value.durableOffset <= m0.logicalBytes)
    && (d.metadata.None? && kept > 0 ==> d.resume.Some? && kept <= d.resume.value.durableOffset)
    && (d.metadata.None? && d.resume.Some? && d.resume.value.durableOffset > 0 ==> Survives(Current(d), kept))
  }

  ghost function Commits(m0: Manifest, kept: nat): Directory -> bool {
    (e: Directory) => Commitment(e, m0, kept)
  }

  ghost predicate SessionInv(w: World, m0: Manifest) {
    && WorldInv(w)
    && Commitment(w.dir, m0, w.checkpointed)
    && (w.mem.Active? ==> SameSession(m0, w.mem.manifest))
    && w.checkpointed <= |w.accepted|
  }

  /** Every BEGIN of the run is for the same stored session; only the transfer id may differ. */
  ghost predicate OneSession(ts: seq<Transition>, m0: Manifest) {
    forall t :: t in ts && t.event.PrepareEvent? ==> SameSession(m0, t.event.manifest)
  }

  lemma SameSessionFacts(m0: Manifest, m: Manifest, cp: Checkpoint, data: bytes)
    requires SameSession(m0, m)
    ensures ResumeFor(m, cp) == ResumeFor(m0, cp) && MetadataFor(m) == MetadataFor(m0)
    ensures CompletedData(data, m) <==> CompletedData(data, m0)
  {
  }

  // ----- crashes -----

  lemma CrashKeepsCommitment(d: Directory, e: Directory, m0: Manifest, kept: nat)
    requires Commitment(d, m0, kept) && AfterCrash(d, e)
    ensures Commitment(e, m0, kept)
  {
    if e != d {
      forall img | MayLeave(e.final, img) ensures MayLeave(d.final, img) {
        FileImages(d.final, e.final, img);
      }
      forall img | MayLeave(Current(e), img) ensures MayLeave(Current(d), img) {
        FileImages(Current(d), Current(e), img);
      }
    }
  }

  // ----- prepare -----

  lemma OpenCommits(d: Directory, m0: Manifest, kept: nat, forced: bool)
    requires Commitment(d, m0, kept) && (forced ==> kept == 0)
    requires !forced ==> d.metadata.None?
    ensures Along(d, OpenOps(d, forced), Commits(m0, kept))
    ensures Commitment(AtOpen(d, forced), m0, kept) && AtOpen(d, forced).metadata == d.metadata
    ensures AtOpen(d, forced).part.Absent? ==> kept == 0
  {
    if OpenOps(d, forced) == [] {
      AlongNone(d, Commits(m0, kept));
    } else {
      var op := OpenOps(d, forced)[0];
      RunOne(d, op);
      AlongOne(d, op, Commits(m0, kept));
    }
  }

  /** Cutting the part file back to what `resume.json` records keeps the commitment. */
  lemma CutCommits(d: Directory, m0: Manifest, kept: nat, size: nat)
    requires Commitment(d, m0, kept) && d.part.Present? && size < |d.part.data|
    requires d.metadata.None? && d.resume.Some? ==> size == d.resume.value.durableOffset
    ensures Along(d, [TruncatePart(size), SyncPart], Commits(m0, kept))
  {
    var cut := Rewritten(d.part, d.part.data[..size]);
    if d.metadata.None? && d.resume.Some? && size > 0 {
      forall img | MayLeave(cut, img) ensures img != [] {
        RewrittenMayLeave(d.part, d.part.data[..size], img);
      }
    }
    AlongTwo(d, TruncatePart(size), SyncPart, Commits(m0, kept));
  }

  lemma FitCommits(d: Directory, m0: Manifest, kept: nat, cp: Checkpoint)
    requires Commitment(d, m0, kept)
    requires d.part.Absent? ==> kept == 0
    requires d.metadata.None? && d.resume.Some? && d.part.Present? ==>
               cp.offset == d.resume.value.durableOffset || d.part.data == []
    ensures Along(d, FitOps(d, cp), Commits(m0, kept))
  {
    if d.part.Absent? {
      AlongOne(d, ResetPart, Commits(m0, kept));
    } else if |d.part.data| > cp.offset {
      CutCommits(d, m0, kept, cp.offset);
    } else {
      AlongNone(d, Commits(m0, kept));
    }
  }

  lemma CloseCommits(d: Directory, m: Manifest, m0: Manifest, kept: nat, cp: Checkpoint, forced: bool)
    requires Commitment(d, m0, kept) && SameSession(m0, m) && cp.offset <= m.logicalBytes
    requires d.metadata.None? ==> kept <= cp.offset && (cp.offset > 0 ==> NeverEmpty(Current(d)))
    ensures Along(d, CloseOps(m, cp, forced), Commits(m0, kept))
    ensures Commitment(Run(d, CloseOps(m, cp, forced)), m0, cp.offset)
  {
    var put := PutResume(ResumeFor(m, cp));
    if forced {
      AlongTwo(d, put, DropRestart, Commits(m0, kept));
      assert CloseOps(m, cp, forced) == [put, DropRestart];
      RunTwo(d, put, DropRestart);
    } else {
      AlongOne(d, put, Commits(m0, kept));
      assert CloseOps(m, cp, forced) == [put];
      RunOne(d, put);
    }
  }

  /** Without a forced restart, prepare settles on a checkpoint that covers every promised byte. */
  lemma SettlesAbove(d: Directory, accepted: bytes, m: Manifest, m0: Manifest, kept: nat)
    requires DiskInv(d, accepted) && Commitment(d, m0, kept) && SameSession(m0, m) && d.metadata.None?
    ensures kept <= Recorded(AtOpen(d, false), m, false).offset
    ensures kept <= Settled(d, m, false).offset
  {
    OpenSafe(d, accepted, false);
    OpenCommits(d, m0, kept, false);
    var atOpen := AtOpen(d, false);
    if kept > 0 {
      assert MayLeave(atOpen.part, atOpen.part.data);
      assert Covers(atOpen.part.data, atOpen.resume.value, accepted);
    }
  }

  lemma OpenAndFitCommits(d: Directory, accepted: bytes, m: Manifest, m0: Manifest, kept: nat, forced: bool)
    requires DiskInv(d, accepted) && Commitment(d, m0, kept) && SameSession(m0, m)
    requires if forced then kept == 0 else d.metadata.None?
    ensures var ops := OpenOps(d, forced) + FitStage(d, m, forced);
            Along(d, ops, Commits(m0, kept)) && Commitment(Run(d, ops), m0, kept)
    ensures Run(d, OpenOps(d, forced) + FitStage(d, m, forced)).metadata == d.metadata
    ensures d.metadata.None? && Settled(d, m, forced).offset > 0 ==>
              AtOpen(d, forced).resume == Some(ResumeFor(m, Settled(d, m, forced)))
  {
    OpenSafe(d, accepted, forced);
    OpenCommits(d, m0, kept, forced);
    var atOpen := AtOpen(d, forced);
    var cp := Recorded(atOpen, m, forced);
    FitSafe(atOpen, accepted, m, cp);
    FitCommits(atOpen, m0, kept, cp);
    Join(d, OpenOps(d, forced), FitStage(d, m, forced), Commits(m0, kept));
    HoldsAtEnd(d, OpenOps(d, forced) + FitStage(d, m, forced), Commits(m0, kept));
  }

  /** The state before the new checkpoint is published. */
  lemma ReadyToClose(d: Directory, accepted: bytes, m: Manifest, m0: Manifest, kept: nat, forced: bool)
    requires DiskInv(d, accepted) && Commitment(d, m0, kept) && SameSession(m0, m)
    requires if forced then kept == 0 else d.metadata.None?
    ensures var cp := Settled(d, m, forced);
            var e := Run(d, OpenOps(d, forced) + FitStage(d, m, forced));
            && Commitment(e, m0, kept) && cp.offset <= m.logicalBytes
            && (e.metadata.None? ==> kept <= cp.offset && (cp.offset > 0 ==> NeverEmpty(Current(e))))
  {
    OpenAndFit(d, accepted, m, forced);
    OpenAndFitCommits(d, accepted, m, m0, kept, forced);
    if !forced {
      SettlesAbove(d, accepted, m, m0, kept);
    }
    var cp := Settled(d, m, forced);
    var e := Run(d, OpenOps(d, forced) + FitStage(d, m, forced));
    FittedKeepsResume(AtOpen(d, forced), Recorded(AtOpen(d, forced), m, forced));
  }

  lemma FittedKeepsResume(d: Directory, cp: Checkpoint)
    ensures Run(d, FitOps(d, cp)).resume == d.resume
  {
    if d.part.Absent? {
      RunOne(d, ResetPart);
    } else if |d.part.data| > cp.offset {
      RunTwo(d, TruncatePart(cp.offset), SyncPart);
    }
  }

  lemma TransferCommits(d: Directory, accepted: bytes, m: Manifest, m0: Manifest, kept: nat, forced: bool)
    requires DiskInv(d, accepted) && Commitment(d, m0, kept) && SameSession(m0, m)
    requires if forced then kept == 0 else d.metadata.None?
    ensures Along(d, TransferPlan(d, m, forced).ops, Commits(m0, kept))
    ensures Commitment(Run(d, TransferPlan(d, m, forced).ops), m0, Settled(d, m, forced).offset)
  {
    var cp := Settled(d, m, forced);
    var ops := OpenOps(d, forced) + FitStage(d, m, forced);
    PlanOfTransfer(d, accepted, m, forced);
    OpenAndFitCommits(d, accepted, m, m0, kept, forced);
    ReadyToClose(d, accepted, m, m0, kept, forced);
    CloseCommits(Run(d, ops), m, m0, kept, cp, forced);
    Join(d, ops, CloseOps(m, cp, forced), Commits(m0, kept));
  }

  // ----- append, checkpoint, finalize -----

  lemma AppendCommits(w: World, m0: Manifest, payload: bytes)
    requires SessionInv(w, m0) && w.mem.Active?
    ensures Commitment(Apply(w.dir, AppendPart(payload)), m0, w.checkpointed)
  {
    var grown := Rewritten(w.dir.part, w.dir.part.data + payload);
    if w.dir.metadata.None? && w.mem.durable > 0 {
      forall img | MayLeave(grown, img) ensures img != [] {
        RewrittenMayLeave(w.dir.part, w.dir.part.data + payload, img);
      }
    }
  }

  /** After the fsync of a checkpoint the current file is exactly the accepted bytes. */
  lemma CheckpointCommits(w: World, m0: Manifest)
    requires SessionInv(w, m0) && w.mem.Active?
    ensures Along(w.dir, CheckpointOps(w.dir, w.mem), Commits(m0, w.checkpointed))
    ensures SessionInv(Perform(w, CheckpointEvent), m0)
    ensures Run(w.dir, CheckpointOps(w.dir, w.mem)).part == Present([], w.accepted)
    ensures Run(w.dir, CheckpointOps(w.dir, w.mem)).metadata == w.dir.metadata
  {
    var cp := Checkpoint(w.mem.received, w.mem.receivedCrc);
    var put := PutResume(ResumeFor(w.mem.manifest, cp));
    CheckpointStep(w);
    RunTwo(w.dir, SyncPart, put);
    AlongTwo(w.dir, SyncPart, put, Commits(m0, w.checkpointed));
  }

  /** The commit: rename the data, then the CSV, then publish metadata, then drop the checkpoint. */
  lemma CommitTail(moved: Directory, m: Manifest, m0: Manifest, kept: nat)
    requires Commitment(moved, m0, kept) && SameSession(m0, m) && AllComplete(moved.final, m0)
    ensures Along(moved, [WriteScratch, PutMetadata(MetadataFor(m)), DropResume], Commits(m0, kept))
  {
    var p := Commits(m0, kept);
    var record := PutMetadata(MetadataFor(m));
    AlongTwo(moved, record, DropResume, p);
    AlongCons(moved, WriteScratch, [record, DropResume], p);
    assert [WriteScratch] + [record, DropResume] == [WriteScratch, record, DropResume];
  }

  lemma CommitSequence(d: Directory, m: Manifest, m0: Manifest, kept: nat, data: bytes)
    requires Commitment(d, m0, kept) && SameSession(m0, m) && d.part == Present([], data)
    requires CompletedData(data, m0) && kept <= |data|
    ensures Along(d, CommitOps(m), Commits(m0, kept))
  {
    var p := Commits(m0, kept);
    var tail := [WriteScratch, PutMetadata(MetadataFor(m)), DropResume];
    CommitTail(Apply(d, PartToFinal), m, m0, kept);
    AlongCons(d, PartToFinal, tail, p);
    AlongCons(d, WriteScratch, [PartToFinal] + tail, p);
    AlongCons(d, WriteScratch, [WriteScratch] + ([PartToFinal] + tail), p);
    assert CommitOps(m) == [WriteScratch] + ([WriteScratch] + ([PartToFinal] + tail));
  }

  /** Passing the checks of `finalize` means the accepted bytes are the complete record. */
  lemma FinalizedIsComplete(w: World, m0: Manifest, end: SessionEnd)
    requires SessionInv(w, m0) && Finalize(w.dir, w.mem, end) == Finalized
    ensures CompletedData(w.accepted, m0)
  {
  }

  lemma FinalizeCommits(w: World, m0: Manifest, end: SessionEnd)
    requires SessionInv(w, m0)
    ensures Along(w.dir, OpsOf(w, FinalizeEvent(end)), Commits(m0, w.checkpointed))
    ensures SessionInv(AfterFinalize(w, end), m0)
  {
    var result := Finalize(w.dir, w.mem, end);
    var p := Commits(m0, w.checkpointed);
    FinalizeStep(w, end);
    if result in {NotActive, EndMismatch, PartMissing} {
      AlongNone(w.dir, p);
    } else {
      var ops := CheckpointOps(w.dir, w.mem);
      CheckpointCommits(w, m0);
      assert ops + [] == ops;
      if result == Finalized {
        FinalizedIsComplete(w, m0, end);
        var saved := Run(w.dir, ops);
        CommitSequence(saved, w.mem.manifest, m0, w.checkpointed, w.accepted);
        CommitSequence(saved, w.mem.manifest, m0, w.mem.received, w.accepted);
        Join(w.dir, ops, CommitOps(w.mem.manifest), p);
        HoldsAtEnd(saved, CommitOps(w.mem.manifest), Commits(m0, w.mem.received));
      }
    }
  }

  // ----- every event, every crash, every run -----

  lemma AppendEventCommits(w: World, m0: Manifest, offset: int, payload: bytes, crc: bv32)
    requires SessionInv(w, m0)
    ensures Along(w.dir, OpsOf(w, AppendEvent(offset, payload, crc)), Commits(m0, w.checkpointed))
    ensures SessionInv(AfterAppend(w, offset, payload, crc), m0)
  {
    AppendStep(w, offset, payload, crc);
    if Append(w.dir, w.mem, offset, payload, crc) == Fresh {
      AppendCommits(w, m0, payload);
      RunOne(w.dir, AppendPart(payload));
      AlongOne(w.dir, AppendPart(payload), Commits(m0, w.checkpointed));
    } else {
      AlongNone(w.dir, Commits(m0, w.checkpointed));
    }
  }

  function KeptDuring(w: World, e: Event): nat {
    if GivesUp(w, e, 1) then 0 else w.checkpointed
  }

  lemma RecordedMeansCommitted(d: Directory, m: Manifest, m0: Manifest, kept: nat)
    requires Commitment(d, m0, kept) && SameSession(m0, m)
    ensures d.metadata.Some? ==> Committed(d, m)
    ensures Commitment(d, m0, 0)
  {
  }

  lemma PrepareEventCommits(w: World, m0: Manifest, m: Manifest, address: Address)
    requires SessionInv(w, m0) && SameSession(m0, m)
    ensures Along(w.dir, Prepare(w.dir, m, address).ops, Commits(m0, KeptDuring(w, PrepareEvent(m, address))))
    ensures SessionInv(AfterPrepare(w, m, address), m0)
  {
    var kept := KeptDuring(w, PrepareEvent(m, address));
    var forced := Forced(w.dir, address);
    PrepareStep(w, m, address);
    RecordedMeansCommitted(w.dir, m, m0, w.checkpointed);
    if !forced && Committed(w.dir, m) {
      AlongNone(w.dir, Commits(m0, kept));
    } else {
      TransferCommits(w.dir, w.accepted, m, m0, kept, forced);
      TransferSafe(w.dir, w.accepted, m, forced);
    }
  }

  lemma EventCommits(w: World, m0: Manifest, e: Event)
    requires SessionInv(w, m0) && (e.PrepareEvent? ==> SameSession(m0, e.manifest))
    ensures Along(w.dir, OpsOf(w, e), Commits(m0, KeptDuring(w, e)))
    ensures SessionInv(Perform(w, e), m0)
  {
    match e
    case PrepareEvent(m, address) => PrepareEventCommits(w, m0, m, address);
    case AppendEvent(offset, payload, crc) => AppendEventCommits(w, m0, offset, payload, crc);
    case CheckpointEvent =>
      if w.mem.Active? {
        CheckpointCommits(w, m0);
      } else {
        AlongNone(w.dir, Commits(m0, w.checkpointed));
      }
    case FinalizeEvent(end) => FinalizeCommits(w, m0, end);
    case CloseEvent => AlongNone(w.dir, Commits(m0, w.checkpointed));
    case MarkEvent(device) =>
      RunOne(w.dir, PutRestart(device));
      AlongOne(w.dir, PutRestart(device), Commits(m0, w.checkpointed));
  }

  lemma TransitionCommits(w: World, m0: Manifest, t: Transition)
    requires SessionInv(w, m0) && Possible(w, t)
    requires t.event.PrepareEvent? ==> SameSession(m0, t.event.manifest)
    ensures SessionInv(Next(w, t), m0)
  {
    EventCommits(w, m0, t.event);
    TransitionStep(w, t);
    if t.Crash? && t.k > 0 {
      var kept := KeptDuring(w, t.event);
      AlongAt(w.dir, OpsOf(w, t.event), Commits(m0, kept), t.k);
      CrashKeepsCommitment(Run(w.dir, OpsOf(w, t.event)[..t.k]), t.left, m0, kept);
    } else if t.Crash? {
      CrashKeepsCommitment(w.dir, t.left, m0, w.checkpointed);
    }
  }

  lemma {:induction false} RunKeepsSession(w: World, ts: seq<Transition>, m0: Manifest)
    requires SessionInv(w, m0) && IsRun(w, ts) && OneSession(ts, m0)
    ensures SessionInv(After(w, ts), m0)
    decreases |ts|
  {
    if ts != [] {
      assert ts[0] in ts && forall t :: t in ts[1..] ==> t in ts;
      TransitionCommits(w, m0, ts[0]);
      RunKeepsSession(Next(w, ts[0]), ts[1..], m0);
    }
  }

  /**
   * Commit atomicity. Whatever crashes cut a run of transfers of one session, including every point
   * inside `finalize`, the next `prepare` reports a completed record that is truly complete, or a
   * transfer that goes on from at least every byte a returned checkpoint promised.
   * Only a pending mark of this device starts over.
   */
  lemma CommitAtomicity(ts: seq<Transition>, m0: Manifest, m: Manifest, address: Address)
    requires IsRun(FRESH_WORLD, ts) && OneSession(ts, m0) && SameSession(m0, m)
    ensures var w := After(FRESH_WORLD, ts);
            && !Forced(w.dir, address) ==>
              match Prepare(w.dir, m, address).result
              case Completed => CompletedData(w.dir.final.data, m)
              case Resumable(cp) => w.checkpointed <= cp.offset <= |w.accepted|
              case CompletedDataCorrupt => false
  {
    RunKeepsSession(FRESH_WORLD, ts, m0);
    var w := After(FRESH_WORLD, ts);
    SameSessionFacts(m0, m, ZERO_CHECKPOINT, []);
    if w.dir.metadata.Some? {
      assert MayLeave(w.dir.final, w.dir.final.data);
      SameSessionFacts(m0, m, ZERO_CHECKPOINT, w.dir.final.data);
    } else if !Forced(w.dir, address) {
      SettlesAbove(w.dir, w.accepted, m, m0, w.checkpointed);
      TransferSafe(w.dir, w.accepted, m, false);
    }
  }

  /**
   * A committed record outlives a forced re-transfer: before, after and at every crash point of it,
   * `metadata.json` only ever stands beside a final file that is complete in every surviving image.
   */
  lemma CommittedRecordStaysValid(ts: seq<Transition>, m0: Manifest)
    requires IsRun(FRESH_WORLD, ts) && OneSession(ts, m0)
    ensures var d := After(FRESH_WORLD, ts).dir;
            d.metadata.Some? ==> MetadataMatches(d.metadata.value, m0) && AllComplete(d.final, m0)
  {
    RunKeepsSession(FRESH_WORLD, ts, m0);
  }

  /** Once committed, a record stays committed: no later event or crash takes it away. */
  lemma CommittedStaysCommitted(w: World, m0: Manifest, t: Transition)
    requires SessionInv(w, m0) && Possible(w, t) && w.dir.metadata.Some?
    requires t.event.PrepareEvent? ==> SameSession(m0, t.event.manifest)
    ensures Next(w, t).dir.metadata.Some? && AllComplete(Next(w, t).dir.final, m0)
  {
    TransitionCommits(w, m0, t);
    var k := if t.Crash? then t.k else |OpsOf(w, t.event)|;
    assert OpsOf(w, t.event)[..|OpsOf(w, t.event)|] == OpsOf(w, t.event);
    MetadataStays(w.dir, OpsOf(w, t.event)[..k]);
  }

  lemma {:induction false} MetadataStays(d: Directory, ops: seq<FileOp>)
    requires d.metadata.Some?
    ensures Run(d, ops).metadata.Some?
    decreases |ops|
  {
    if ops != [] {
      MetadataStays(Apply(d, ops[0]), ops[1..]);
    }
  }
}
