/**
 * What each operation of `OfflineV2SessionStore` does to the session directory, as the list of file
 * operations it performs, and to the fields it keeps in memory.
 */
module OfflineStoreSpec {
  import opened Crc32
  import opened OfflineDisk
  import opened OfflineProtocol
  import opened Wrappers

  /** The store's fields: nothing, or one active session. */
  datatype Memory =
    | Idle
    | Active(manifest: Manifest, received: nat, receivedCrc: bv32, durable: nat, durableCrc: bv32)

  datatype Checkpoint = Checkpoint(offset: nat, crc: bv32)

  const ZERO_CHECKPOINT := Checkpoint(0, 0)

  function ResumeFor(m: Manifest, cp: Checkpoint): Resume {
    Resume(m.sessionId, m.generation, m.logicalBytes, m.streamCrc32, m.ownerUserId, cp.offset, cp.crc)
  }

  predicate ResumeMatches(r: Resume, m: Manifest) {
    r == ResumeFor(m, Checkpoint(r.durableOffset, r.prefixCrc32))
  }

  function MetadataFor(m: Manifest): Metadata {
    Metadata(m.sessionId, m.generation, m.logicalBytes, m.streamCrc32, m.ownerUserId, true)
  }

  predicate MetadataMatches(record: Metadata, m: Manifest) {
    record == MetadataFor(m)
  }

  // ----- prepare -----

  datatype PrepareResult = Completed | Resumable(checkpoint: Checkpoint) | CompletedDataCorrupt

  datatype PreparePlan = PreparePlan(ops: seq<FileOp>, result: PrepareResult)

  /** A stored mark for this device forces the transfer back to zero. */
  predicate Forced(d: Directory, address: Address) {
    d.restart == Some(address)
  }

  predicate Committed(d: Directory, m: Manifest) {
    d.metadata.Some? && d.final.Present? && MetadataMatches(d.metadata.value, m)
  }

  /** Empty the part file, or take back a final file whose completion was never committed. */
  function OpenOps(d: Directory, forced: bool): seq<FileOp> {
    if forced then [ResetPart]
    else if d.part.Absent? && d.final.Present? then [FinalToPart]
    else []
  }

  /** The checkpoint recorded in `resume.json`, if it is this manifest's and in range. */
  function Recorded(d: Directory, m: Manifest, forced: bool): Checkpoint {
    if !forced && d.resume.Some? && d.part.Present? && ResumeMatches(d.resume.value, m)
       && d.resume.value.durableOffset <= m.logicalBytes
    then Checkpoint(d.resume.value.durableOffset, d.resume.value.prefixCrc32)
    else ZERO_CHECKPOINT
  }

  /** A part file that is too short drops the checkpoint, but is not truncated. */
  function Covered(d: Directory, cp: Checkpoint): Checkpoint {
    if d.part.Present? && |d.part.data| < cp.offset then ZERO_CHECKPOINT else cp
  }

  function FitOps(d: Directory, cp: Checkpoint): seq<FileOp> {
    if d.part.Absent? then [ResetPart]
    else if |d.part.data| > cp.offset then [TruncatePart(cp.offset), SyncPart]
    else []
  }

  /** Does the stored prefix carry the recorded CRC? */
  predicate Genuine(d: Directory, cp: Checkpoint) {
    d.part.Present? && cp.offset <= |d.part.data| && Crc(d.part.data[..cp.offset], 0) == cp.crc
  }

  const CLEAR_OPS := [TruncatePart(0), SyncPart]

  function RepairOps(d: Directory, cp: Checkpoint): seq<FileOp> {
    if Genuine(d, cp) then [] else CLEAR_OPS
  }

  function Verified(d: Directory, cp: Checkpoint): Checkpoint {
    if Genuine(d, cp) then cp else ZERO_CHECKPOINT
  }

  function CloseOps(m: Manifest, cp: Checkpoint, forced: bool): seq<FileOp> {
    [PutResume(ResumeFor(m, cp))] + if forced then [DropRestart] else []
  }

  /** The part of `prepare` after the completion check: open, fit, check the prefix, publish. */
  function TransferPlan(d: Directory, m: Manifest, forced: bool): PreparePlan {
    var atOpen := Run(d, OpenOps(d, forced));
    var recorded := Recorded(atOpen, m, forced);
    var fitted := Run(atOpen, FitOps(atOpen, recorded));
    var covered := Covered(atOpen, recorded);
    PreparePlan(
      OpenOps(d, forced) + FitOps(atOpen, recorded) + RepairOps(fitted, covered)
      + CloseOps(m, Verified(fitted, covered), forced),
      Resumable(Verified(fitted, covered)))
  }

  ghost function Prepare(d: Directory, m: Manifest, address: Address): PreparePlan {
    if !Forced(d, address) && Committed(d, m) then
      PreparePlan([], if CompletedData(d.final.data, m) then Completed else CompletedDataCorrupt)
    else
      TransferPlan(d, m, Forced(d, address))
  }

  function Opened(m: Manifest, cp: Checkpoint): Memory {
    Active(m, cp.offset, cp.crc, cp.offset, cp.crc)
  }

  function MemoryAfterPrepare(mem: Memory, m: Manifest, result: PrepareResult): Memory {
    match result
    case Completed => Idle
    case Resumable(cp) => Opened(m, cp)
    case CompletedDataCorrupt => mem
  }

  // ----- append -----

  datatype AppendError =
    | NoActiveSession | ExceedsManifest | OverlappingRetransmission | RetransmissionDiffers
    | PrefixMismatch | DataGap

  datatype AppendResult = Fresh | Duplicate | Rejected(error: AppendError)

  function Append(d: Directory, mem: Memory, offset: int, payload: bytes, prefixCrc: bv32): AppendResult {
    if mem.Idle? then Rejected(NoActiveSession)
    else if payload == [] || offset + |payload| > mem.manifest.logicalBytes then Rejected(ExceedsManifest)
    else if offset < mem.received then
      if offset + |payload| > mem.received then Rejected(OverlappingRetransmission)
      // A negative offset fails in `seek`; so does opening a part file that is gone.
      else if offset < 0 || d.part.Absent? || offset + |payload| > |d.part.data|
              || d.part.data[offset..offset + |payload|] != payload then Rejected(RetransmissionDiffers)
      else if Crc(d.part.data[..offset + |payload|], 0) != prefixCrc then Rejected(PrefixMismatch)
      else Duplicate
    else if offset != mem.received then Rejected(DataGap)
    else if Crc(payload, mem.receivedCrc) != prefixCrc then Rejected(PrefixMismatch)
    else Fresh
  }

  function AppendOps(result: AppendResult, payload: bytes): seq<FileOp> {
    if result == Fresh then [AppendPart(payload)] else []
  }

  function MemoryAfterAppend(mem: Memory, result: AppendResult, payload: bytes): Memory {
    if mem.Active? && result == Fresh then
      mem.(received := mem.received + |payload|, receivedCrc := Crc(payload, mem.receivedCrc))
    else mem
  }

  // ----- checkpoint -----

  function CheckpointOps(d: Directory, mem: Memory): seq<FileOp> {
    if mem.Idle? || d.part.Absent? then []
    else [SyncPart, PutResume(ResumeFor(mem.manifest, Checkpoint(mem.received, mem.receivedCrc)))]
  }

  function MemoryAfterCheckpoint(d: Directory, mem: Memory): Memory {
    if mem.Idle? || d.part.Absent? then mem
    else mem.(durable := mem.received, durableCrc := mem.receivedCrc)
  }

  // ----- finalize -----

  datatype FinalizeResult =
    | Finalized | NotActive | EndMismatch | PartMissing | LengthMismatch | StreamCrcMismatch | InvalidRecords

  ghost function Finalize(d: Directory, mem: Memory, end: SessionEnd): FinalizeResult {
    if mem.Idle? then NotActive
    else if !EndMatches(end, mem.manifest) then EndMismatch
    else if d.part.Absent? then PartMissing
    else if mem.received != mem.manifest.logicalBytes then LengthMismatch
    else if mem.receivedCrc != mem.manifest.streamCrc32 then StreamCrcMismatch
    else if !ValidRecords(d.part.data, mem.manifest) then InvalidRecords
    else Finalized
  }

  function CommitOps(m: Manifest): seq<FileOp> {
    // events_q12.csv.tmp, metadata.json.tmp, then the three renames and the unlink
    [WriteScratch, WriteScratch, PartToFinal, WriteScratch, PutMetadata(MetadataFor(m)), DropResume]
  }

  function FinalizeOps(d: Directory, mem: Memory, result: FinalizeResult): seq<FileOp> {
    if mem.Idle? || result in {NotActive, EndMismatch, PartMissing} then []
    else CheckpointOps(d, mem) + if result == Finalized then CommitOps(mem.manifest) else []
  }

  function MemoryAfterFinalize(d: Directory, mem: Memory, result: FinalizeResult): Memory {
    if result == Finalized then Idle
    else if mem.Idle? || result in {NotActive, EndMismatch, PartMissing} then mem
    else MemoryAfterCheckpoint(d, mem)
  }
}
