/**
 * Whole runs of the session store: prepares, appends, checkpoints, finalizes, marks and crashes in
 * any order. `accepted` is the stream of payload bytes the store has accepted and not given up.
 */
module OfflineRuns {
  import opened Crc32
  import opened OfflineCrashSafety
  import opened OfflineDisk
  import opened OfflineProtocol
  import opened OfflineStoreSpec
  import opened Wrappers

  datatype Event =
    | PrepareEvent(manifest: Manifest, address: Address)
    | AppendEvent(offset: int, payload: bytes, prefixCrc: bv32)
    | CheckpointEvent
    | FinalizeEvent(end: SessionEnd)
    | CloseEvent
    | MarkEvent(device: Address)

  /**
   * The directory, the store's memory, and what a run is judged by: the accepted bytes, how many of
   * them a returned checkpoint promised to keep, and for each of them how many marks preceded it.
   */
  datatype World = World(
    dir: Directory, mem: Memory, accepted: bytes, checkpointed: nat, marksBefore: seq<nat>, marks: nat)

  const FRESH_WORLD := World(EMPTY_DIRECTORY, Idle, [], 0, [], 0)

  function Take<T>(s: seq<T>, n: nat): seq<T> {
    if n <= |s| then s[..n] else s
  }

  ghost function OpsOf(w: World, e: Event): seq<FileOp> {
    match e
    case PrepareEvent(m, address) => Prepare(w.dir, m, address).ops
    case AppendEvent(offset, payload, crc) => AppendOps(Append(w.dir, w.mem, offset, payload, crc), payload)
    case CheckpointEvent => CheckpointOps(w.dir, w.mem)
    case FinalizeEvent(end) => FinalizeOps(w.dir, w.mem, Finalize(w.dir, w.mem, end))
    case CloseEvent => []
    case MarkEvent(device) => [PutRestart(device)]
  }

  ghost function AfterPrepare(w: World, m: Manifest, address: Address): World {
    var plan := Prepare(w.dir, m, address);
    var mem := MemoryAfterPrepare(w.mem, m, plan.result);
    if plan.result.Resumable? then
      var n := plan.result.checkpoint.offset;
      World(Run(w.dir, plan.ops), mem, Take(w.accepted, n), n, Take(w.marksBefore, n), w.marks)
    else w.(mem := mem)
  }

  function AfterAppend(w: World, offset: int, payload: bytes, crc: bv32): World {
    var result := Append(w.dir, w.mem, offset, payload, crc);
    var after := w.(dir := Run(w.dir, AppendOps(result, payload)), mem := MemoryAfterAppend(w.mem, result, payload));
    if result == Fresh then
      after.(accepted := w.accepted + payload, marksBefore := w.marksBefore + seq(|payload|, i => w.marks))
    else after
  }

  /** A checkpoint that was performed promises every byte received so far. */
  function Promised(w: World): nat {
    if w.mem.Active? && w.dir.part.Present? then w.mem.received else w.checkpointed
  }

  ghost function AfterFinalize(w: World, end: SessionEnd): World {
    var result := Finalize(w.dir, w.mem, end);
    w.(dir := Run(w.dir, FinalizeOps(w.dir, w.mem, result)),
       mem := MemoryAfterFinalize(w.dir, w.mem, result),
       checkpointed := if result in {NotActive, EndMismatch, PartMissing} then w.checkpointed else Promised(w))
  }

  /** The event runs to its end. */
  ghost function Perform(w: World, e: Event): World {
    match e
    case PrepareEvent(m, address) => AfterPrepare(w, m, address)
    case AppendEvent(offset, payload, crc) => AfterAppend(w, offset, payload, crc)
    case CheckpointEvent =>
      w.(dir := Run(w.dir, OpsOf(w, e)), mem := MemoryAfterCheckpoint(w.dir, w.mem), checkpointed := Promised(w))
    case FinalizeEvent(end) => AfterFinalize(w, end)
    case CloseEvent => w.(mem := Idle)
    case MarkEvent(device) => w.(dir := Run(w.dir, OpsOf(w, e)), marks := w.marks + 1)
  }

  /** Either the event completes, or a crash cuts it after `k` of its file operations. */
  datatype Transition =
    | Complete(event: Event)
    | Crash(event: Event, k: nat, left: Directory)

  ghost predicate Possible(w: World, t: Transition) {
    t.Crash? ==> t.k <= |OpsOf(w, t.event)| && AfterCrash(Run(w.dir, OpsOf(w, t.event)[..t.k]), t.left)
  }

  /** A forced restart gives up the checkpoint as soon as its first file operation has run. */
  predicate GivesUp(w: World, e: Event, k: nat) {
    e.PrepareEvent? && Forced(w.dir, e.address) && k > 0
  }

  ghost function Next(w: World, t: Transition): World {
    match t
    case Complete(e) => Perform(w, e)
    case Crash(e, k, left) =>
      w.(dir := left, mem := Idle, checkpointed := if GivesUp(w, e, k) then 0 else w.checkpointed)
  }

  ghost predicate IsRun(w: World, ts: seq<Transition>)
    decreases |ts|
  {
    ts == [] || (Possible(w, ts[0]) && IsRun(Next(w, ts[0]), ts[1..]))
  }

  ghost function After(w: World, ts: seq<Transition>): World
    decreases |ts|
  {
    if ts == [] then w else After(Next(w, ts[0]), ts[1..])
  }

  // ----- what every world of a run satisfies -----

  ghost predicate MemInv(w: World) {
    w.mem.Active? ==>
      && w.dir.part.Present? && w.dir.part.data == w.accepted
      && w.mem.received == |w.accepted| <= w.mem.manifest.logicalBytes
      && w.mem.receivedCrc == Crc(w.accepted, 0)
      && w.mem.durable <= w.mem.received
      && w.mem.durableCrc == Crc(w.accepted[..w.mem.durable], 0)
      && w.dir.resume == Some(ResumeFor(w.mem.manifest, Checkpoint(w.mem.durable, w.mem.durableCrc)))
  }

  ghost predicate WorldInv(w: World) {
    && DiskInv(w.dir, w.accepted)
    && MemInv(w)
    && |w.marksBefore| == |w.accepted|
  }

  ghost function Keeps(accepted: bytes): Directory -> bool {
    (e: Directory) => DiskInv(e, accepted)
  }

  lemma AlongCons(d: Directory, op: FileOp, rest: seq<FileOp>, p: Directory -> bool)
    requires p(d) && Along(Apply(d, op), rest, p)
    ensures Along(d, [op] + rest, p)
  {
    assert ([op] + rest)[1..] == rest;
  }

  lemma AlongNone(d: Directory, p: Directory -> bool)
    requires p(d)
    ensures Along(d, [], p)
  {
  }

  lemma AlongOne(d: Directory, op: FileOp, p: Directory -> bool)
    requires p(d) && p(Apply(d, op))
    ensures Along(d, [op], p)
  {
    AlongNone(Apply(d, op), p);
    AlongCons(d, op, [], p);
    assert [op] + [] == [op];
  }

  // ----- append -----

  lemma AppendKeeps(w: World, payload: bytes)
    requires WorldInv(w) && w.mem.Active?
    ensures DiskInv(Apply(w.dir, AppendPart(payload)), w.accepted)
    ensures DiskInv(Apply(w.dir, AppendPart(payload)), w.accepted + payload)
  {
    var r := w.dir.resume.value;
    GrowKeepsCover(w.dir.part, payload, r, w.accepted);
    var grown := Rewritten(w.dir.part, w.dir.part.data + payload);
    LongerStreamCovers(grown, r, w.accepted, payload);
  }

  lemma LongerStreamCovers(f: File, r: Resume, accepted: bytes, payload: bytes)
    requires AllCover(f, r, accepted) && r.durableOffset <= |accepted|
    ensures AllCover(f, r, accepted + payload)
  {
    assert (accepted + payload)[..r.durableOffset] == accepted[..r.durableOffset];
  }

  lemma FreshAppend(w: World, offset: int, payload: bytes, crc: bv32)
    requires WorldInv(w) && Append(w.dir, w.mem, offset, payload, crc) == Fresh
    ensures WorldInv(AfterAppend(w, offset, payload, crc))
    ensures offset == |w.accepted| && crc == Crc(w.accepted + payload, 0)
    ensures AfterAppend(w, offset, payload, crc).dir == Apply(w.dir, AppendPart(payload))
  {
    AppendKeeps(w, payload);
    RunOne(w.dir, AppendPart(payload));
    CrcChain(w.accepted, payload, 0);
    assert (w.accepted + payload)[..w.mem.durable] == w.accepted[..w.mem.durable];
  }

  lemma AppendStep(w: World, offset: int, payload: bytes, crc: bv32)
    requires WorldInv(w)
    ensures WorldInv(AfterAppend(w, offset, payload, crc))
    ensures Along(w.dir, OpsOf(w, AppendEvent(offset, payload, crc)), Keeps(w.accepted))
  {
    if Append(w.dir, w.mem, offset, payload, crc) == Fresh {
      FreshAppend(w, offset, payload, crc);
      AppendKeeps(w, payload);
      AlongOne(w.dir, AppendPart(payload), Keeps(w.accepted));
    } else {
      AlongNone(w.dir, Keeps(w.accepted));
    }
  }

  // ----- checkpoint -----

  lemma CheckpointStep(w: World)
    requires WorldInv(w)
    ensures WorldInv(Perform(w, CheckpointEvent))
    ensures Along(w.dir, CheckpointOps(w.dir, w.mem), Keeps(w.accepted))
  {
    if w.mem.Active? {
      var cp := Checkpoint(w.mem.received, w.mem.receivedCrc);
      var put := PutResume(ResumeFor(w.mem.manifest, cp));
      SyncKeepsCover(w.dir.part, w.dir.resume.value, w.accepted);
      CrcOfNothing(0);
      SyncedCovers(w.mem.manifest, cp, w.accepted);
      RunTwo(w.dir, SyncPart, put);
      AlongTwo(w.dir, SyncPart, put, Keeps(w.accepted));
      assert w.accepted[..|w.accepted|] == w.accepted;
    } else {
      AlongNone(w.dir, Keeps(w.accepted));
    }
  }

  // ----- finalize -----

  lemma CommitKeepsDisk(d: Directory, m: Manifest, accepted: bytes)
    requires DiskInv(d, accepted) && d.part.Present?
    ensures Along(d, CommitOps(m), Keeps(accepted))
  {
    var p := Keeps(accepted);
    var moved := Apply(d, PartToFinal);
    var committed := Apply(moved, PutMetadata(MetadataFor(m)));
    AlongOne(committed, DropResume, p);
    AlongCons(moved, PutMetadata(MetadataFor(m)), [DropResume], p);
    AlongCons(moved, WriteScratch, [PutMetadata(MetadataFor(m))] + [DropResume], p);
    var rest := [WriteScratch] + ([PutMetadata(MetadataFor(m))] + [DropResume]);
    AlongCons(d, PartToFinal, rest, p);
    AlongCons(d, WriteScratch, [PartToFinal] + rest, p);
    AlongCons(d, WriteScratch, [WriteScratch] + ([PartToFinal] + rest), p);
    assert CommitOps(m) == [WriteScratch] + ([WriteScratch] + ([PartToFinal] + rest));
  }

  lemma FinalizeStep(w: World, end: SessionEnd)
    requires WorldInv(w)
    ensures WorldInv(AfterFinalize(w, end))
    ensures Along(w.dir, OpsOf(w, FinalizeEvent(end)), Keeps(w.accepted))
  {
    var result := Finalize(w.dir, w.mem, end);
    var p := Keeps(w.accepted);
    if result in {NotActive, EndMismatch, PartMissing} {
      AlongNone(w.dir, p);
    } else {
      CheckpointStep(w);
      var ops := CheckpointOps(w.dir, w.mem);
      var saved := Perform(w, CheckpointEvent);
      if result == Finalized {
        CommitKeepsDisk(saved.dir, w.mem.manifest, w.accepted);
        Join(w.dir, ops, CommitOps(w.mem.manifest), p);
        HoldsAtEnd(w.dir, ops + CommitOps(w.mem.manifest), p);
      } else {
        assert ops + [] == ops;
      }
    }
  }

  // ----- prepare -----

  lemma PrepareStep(w: World, m: Manifest, address: Address)
    requires WorldInv(w)
    ensures WorldInv(AfterPrepare(w, m, address))
    ensures Along(w.dir, Prepare(w.dir, m, address).ops, Keeps(w.accepted))
  {
    if !Forced(w.dir, address) && Committed(w.dir, m) {
      AlongNone(w.dir, Keeps(w.accepted));
    } else {
      var forced := Forced(w.dir, address);
      TransferSafe(w.dir, w.accepted, m, forced);
      var cp := Settled(w.dir, m, forced);
      var e := Run(w.dir, TransferPlan(w.dir, m, forced).ops);
      ShorterStreamCovers(e.part, m, cp, w.accepted);
      assert e.part.data[..cp.offset] == e.part.data;
    }
  }

  lemma ShorterStreamCovers(f: File, m: Manifest, cp: Checkpoint, accepted: bytes)
    requires AllCover(f, ResumeFor(m, cp), accepted) && cp.offset <= |accepted|
    ensures AllCover(f, ResumeFor(m, cp), accepted[..cp.offset])
  {
    assert accepted[..cp.offset][..cp.offset] == accepted[..cp.offset];
  }

  // ----- every event, every crash, every run -----

  lemma EventStep(w: World, e: Event)
    requires WorldInv(w)
    ensures WorldInv(Perform(w, e))
    ensures Along(w.dir, OpsOf(w, e), Keeps(w.accepted))
  {
    match e
    case PrepareEvent(m, address) => PrepareStep(w, m, address);
    case AppendEvent(offset, payload, crc) => AppendStep(w, offset, payload, crc);
    case CheckpointEvent => CheckpointStep(w);
    case FinalizeEvent(end) => FinalizeStep(w, end);
    case CloseEvent => AlongNone(w.dir, Keeps(w.accepted));
    case MarkEvent(device) =>
      RunOne(w.dir, PutRestart(device));
      AlongOne(w.dir, PutRestart(device), Keeps(w.accepted));
  }

  lemma TransitionStep(w: World, t: Transition)
    requires WorldInv(w) && Possible(w, t)
    ensures WorldInv(Next(w, t))
  {
    EventStep(w, t.event);
    if t.Crash? {
      AlongAt(w.dir, OpsOf(w, t.event), Keeps(w.accepted), t.k);
      CrashKeepsDiskInv(Run(w.dir, OpsOf(w, t.event)[..t.k]), t.left, w.accepted);
    }
  }

  lemma {:induction false} RunKeepsInv(w: World, ts: seq<Transition>)
    requires WorldInv(w) && IsRun(w, ts)
    ensures WorldInv(After(w, ts))
    decreases |ts|
  {
    if ts != [] {
      TransitionStep(w, ts[0]);
      RunKeepsInv(Next(w, ts[0]), ts[1..]);
    }
  }

  /**
   * Crash-safe resume. After any run from an empty directory, cut by crashes between any two file
   * operations, a `prepare` that asks for the rest of the stream leaves the part file exactly as long
   * as the offset it returns, holding a prefix of the bytes accepted before, with that prefix's CRC.
   */
  lemma CrashSafeResume(ts: seq<Transition>, m: Manifest, address: Address)
    requires IsRun(FRESH_WORLD, ts)
    ensures var w := After(FRESH_WORLD, ts);
            var plan := Prepare(w.dir, m, address);
            var part := Run(w.dir, plan.ops).part;
            plan.result.Resumable? ==>
              var cp := plan.result.checkpoint;
              && cp.offset <= |w.accepted| && cp.offset <= m.logicalBytes
              && part.Present? && part.data == w.accepted[..cp.offset]
              && cp.crc == Crc(w.accepted[..cp.offset], 0)
  {
    RunKeepsInv(FRESH_WORLD, ts);
    var w := After(FRESH_WORLD, ts);
    if Forced(w.dir, address) || !Committed(w.dir, m) {
      TransferSafe(w.dir, w.accepted, m, Forced(w.dir, address));
    }
  }

  /**
   * The branch of `prepare` that drops a checkpoint without truncating the file (the part file is
   * shorter than the recorded offset) is only ever reached with an empty part file.
   */
  lemma ShortPartFileIsEmpty(ts: seq<Transition>)
    requires IsRun(FRESH_WORLD, ts)
    ensures var d := After(FRESH_WORLD, ts).dir;
            d.resume.Some? && Current(d).Present? && |Current(d).data| < d.resume.value.durableOffset
            ==> Current(d).data == []
  {
    RunKeepsInv(FRESH_WORLD, ts);
    var d := After(FRESH_WORLD, ts).dir;
    if Current(d).Present? {
      assert MayLeave(Current(d), Current(d).data);
    }
  }
}
