/** `OfflineV2SessionStore`: the resumable transfer of one session, updating files in place. */
module OfflineStore {
  import opened Crc32
  import opened OfflineDisk
  import opened OfflineProtocol
  import opened OfflineStoreSpec
  import opened Wrappers

  lemma Regroup<T>(o: seq<T>, a: seq<T>, b: seq<T>, c: seq<T>, e: seq<T>)
    ensures o + a + b + c + e == o + (a + b + c + e)
  {
  }

  lemma SyncedPart(d: Directory, mem: Memory)
    requires mem.Active? && d.part.Present?
    ensures Run(d, CheckpointOps(d, mem)).part == Present([], d.part.data)
  {
    RunTwo(d, CheckpointOps(d, mem)[0], CheckpointOps(d, mem)[1]);
  }

  class OfflineV2SessionStore {
    const disk: Disk
    var manifest: Option<Manifest>
    var receivedOffset: nat
    var receivedCrc32: bv32
    var durableOffset: nat
    var durableCrc32: bv32

    ghost predicate Valid()
      reads this, disk
    {
      disk.Valid()
    }

    /** The store's fields as the specification sees them. */
    ghost function View(): Memory
      reads this
    {
      match manifest
      case None => Idle
      case Some(m) => Active(m, receivedOffset, receivedCrc32, durableOffset, durableCrc32)
    }

    constructor (disk: Disk)
      requires disk.Valid()
      ensures Valid() && this.disk == disk && View() == Idle
    {
      this.disk := disk;
      manifest := None;
      receivedOffset, receivedCrc32, durableOffset, durableCrc32 := 0, 0, 0, 0;
    }

    method ClearActive()
      modifies this
      ensures View() == Idle
    {
      manifest := None;
      receivedOffset, receivedCrc32, durableOffset, durableCrc32 := 0, 0, 0, 0;
    }

    method MarkCapturePreempted(address: Address)
      requires Valid()
      modifies disk
      ensures Valid() && disk.ops == old(disk.ops) + [PutRestart(address)]
      ensures disk.dir == old(disk.dir).(restart := Some(address))
    {
      disk.Do(PutRestart(address));
    }

    method WriteResume()
      requires Valid() && manifest.Some?
      modifies disk
      ensures Valid()
      ensures disk.ops == old(disk.ops)
                          + [PutResume(ResumeFor(manifest.value, Checkpoint(durableOffset, durableCrc32)))]
      ensures disk.dir == old(disk.dir).(
                resume := Some(ResumeFor(manifest.value, Checkpoint(durableOffset, durableCrc32))))
    {
      disk.Do(PutResume(ResumeFor(manifest.value, Checkpoint(durableOffset, durableCrc32))));
    }

    /** The part file as the transfer starts: emptied, taken back from an uncommitted final, or as it is. */
    method OpenPart(force: bool)
      requires Valid()
      modifies disk
      ensures Valid()
      ensures disk.ops == old(disk.ops) + OpenOps(old(disk.dir), force)
      ensures disk.dir == Run(old(disk.dir), OpenOps(old(disk.dir), force))
    {
      if force {
        disk.Do(ResetPart);
      }
      if !force && disk.dir.part.Absent? && disk.dir.final.Present? {
        disk.Do(FinalToPart);
      }
      disk.Since(OpenOps(old(disk.dir), force));
    }

    method ReadCheckpoint(m: Manifest, force: bool) returns (cp: Checkpoint)
      ensures cp == Recorded(disk.dir, m, force)
    {
      cp := ZERO_CHECKPOINT;
      if !force && disk.dir.resume.Some? && disk.dir.part.Present? {
        var resume := disk.dir.resume.value;
        if ResumeMatches(resume, m) {
          cp := Checkpoint(resume.durableOffset, resume.prefixCrc32);
        }
      }
      if cp.offset > m.logicalBytes {
        cp := ZERO_CHECKPOINT;
      }
    }

    /** Cut the part file back to the checkpoint, or drop a checkpoint it does not cover. */
    method FitPart(cp: Checkpoint) returns (covered: Checkpoint)
      requires Valid()
      modifies disk
      ensures Valid()
      ensures disk.ops == old(disk.ops) + FitOps(old(disk.dir), cp)
      ensures disk.dir == Run(old(disk.dir), FitOps(old(disk.dir), cp))
      ensures covered == Covered(old(disk.dir), cp) && disk.dir.part.Present?
    {
      covered := cp;
      if disk.dir.part.Present? {
        var size := |disk.dir.part.data|;
        if size < cp.offset {
          covered := ZERO_CHECKPOINT;
        } else if size > cp.offset {
          disk.Do(TruncatePart(cp.offset));
          disk.Do(SyncPart);
        }
      } else {
        disk.Do(ResetPart);
      }
      disk.Since(FitOps(old(disk.dir), cp));
    }

    /** Start over when the stored prefix does not carry the recorded CRC. */
    method CheckPrefix(cp: Checkpoint) returns (checked: Checkpoint)
      requires Valid() && disk.dir.part.Present?
      modifies disk
      ensures Valid()
      ensures checked == Verified(old(disk.dir), cp)
      ensures disk.ops == old(disk.ops) + RepairOps(old(disk.dir), cp)
    {
      checked := cp;
      var actual := Crc32FilePrefix(disk.dir.part.data, cp.offset);
      if actual != Some(cp.crc) {
        checked := ZERO_CHECKPOINT;
        disk.Do(TruncatePart(0));
        disk.Do(SyncPart);
      }
    }

    /** Publish the checkpoint in memory and on disk; only then consume the mark. */
    method OpenSession(m: Manifest, cp: Checkpoint, force: bool)
      requires Valid()
      modifies this, disk
      ensures Valid() && View() == Opened(m, cp)
      ensures disk.ops == old(disk.ops) + CloseOps(m, cp, force)
    {
      manifest := Some(m);
      receivedOffset, receivedCrc32 := cp.offset, cp.crc;
      durableOffset, durableCrc32 := cp.offset, cp.crc;
      WriteResume();
      if force {
        disk.Do(DropRestart);
      }
    }

    method BeginTransfer(m: Manifest, force: bool) returns (checked: Checkpoint)
      requires Valid()
      modifies this, disk
      ensures Valid() && View() == Opened(m, checked)
      ensures Resumable(checked) == TransferPlan(old(disk.dir), m, force).result
      ensures disk.ops == old(disk.ops) + TransferPlan(old(disk.dir), m, force).ops
    {
      OpenPart(force);
      var recorded := ReadCheckpoint(m, force);
      ghost var fit := FitOps(disk.dir, recorded);
      var covered := FitPart(recorded);
      ghost var repair := RepairOps(disk.dir, covered);
      checked := CheckPrefix(covered);
      OpenSession(m, checked, force);
      Regroup(old(disk.ops), OpenOps(old(disk.dir), force), fit, repair, CloseOps(m, checked, force));
    }

    method PrepareSession(m: Manifest, address: Address) returns (result: PrepareResult)
      requires Valid()
      modifies this, disk
      ensures Valid()
      ensures result == Prepare(old(disk.dir), m, address).result
      ensures disk.ops == old(disk.ops) + Prepare(old(disk.dir), m, address).ops
      ensures disk.dir == Run(old(disk.dir), Prepare(old(disk.dir), m, address).ops)
      ensures View() == MemoryAfterPrepare(old(View()), m, result)
    {
      var force := disk.dir.restart == Some(address);
      if !force && disk.dir.metadata.Some? && disk.dir.final.Present?
         && MetadataMatches(disk.dir.metadata.value, m) {
        var valid := ValidateCompletedData(disk.dir.final.data, m);
        if !valid {
          return CompletedDataCorrupt;
        }
        ClearActive();
        return Completed;
      }
      var checked := BeginTransfer(m, force);
      disk.Since(TransferPlan(old(disk.dir), m, force).ops);
      return Resumable(checked);
    }

    method AppendChunk(offset: int, payload: bytes, expectedPrefixCrc32: bv32) returns (result: AppendResult)
      requires Valid()
      modifies this, disk
      ensures Valid()
      ensures result == Append(old(disk.dir), old(View()), offset, payload, expectedPrefixCrc32)
      ensures disk.ops == old(disk.ops) + AppendOps(result, payload)
      ensures disk.dir == Run(old(disk.dir), AppendOps(result, payload))
      ensures View() == MemoryAfterAppend(old(View()), result, payload)
    {
      if manifest.None? {
        return Rejected(NoActiveSession);
      }
      var nextOffset := offset + |payload|;
      if payload == [] || nextOffset > manifest.value.logicalBytes {
        return Rejected(ExceedsManifest);
      }
      if offset < receivedOffset {
        if nextOffset > receivedOffset {
          return Rejected(OverlappingRetransmission);
        }
        if offset < 0 || disk.dir.part.Absent? || nextOffset > |disk.dir.part.data| {
          return Rejected(RetransmissionDiffers);
        }
        var existing := disk.dir.part.data[offset..nextOffset];
        if existing != payload {
          return Rejected(RetransmissionDiffers);
        }
        var prefix := Crc32FilePrefix(disk.dir.part.data, nextOffset);
        if prefix != Some(expectedPrefixCrc32) {
          return Rejected(PrefixMismatch);
        }
        return Duplicate;
      }
      if offset != receivedOffset {
        return Rejected(DataGap);
      }
      var nextCrc := Crc(payload, receivedCrc32);
      if nextCrc != expectedPrefixCrc32 {
        return Rejected(PrefixMismatch);
      }
      disk.Do(AppendPart(payload));
      RunOne(old(disk.dir), AppendPart(payload));
      receivedOffset, receivedCrc32 := nextOffset, nextCrc;
      return Fresh;
    }

    /** `None` when there is no active session or its part file cannot be opened. */
    method CheckpointNow() returns (result: Option<Checkpoint>)
      requires Valid()
      modifies this, disk
      ensures Valid()
      ensures disk.ops == old(disk.ops) + CheckpointOps(old(disk.dir), old(View()))
      ensures disk.dir == Run(old(disk.dir), CheckpointOps(old(disk.dir), old(View())))
      ensures View() == MemoryAfterCheckpoint(old(disk.dir), old(View()))
      ensures result == if View() == Idle || old(disk.dir).part.Absent? then None
                        else Some(Checkpoint(View().durable, View().durableCrc))
    {
      if manifest.None? || disk.dir.part.Absent? {
        return None;
      }
      disk.Do(SyncPart);
      durableOffset, durableCrc32 := receivedOffset, receivedCrc32;
      WriteResume();
      disk.Since(CheckpointOps(old(disk.dir), old(View())));
      return Some(Checkpoint(durableOffset, durableCrc32));
    }

    /** Checks of `finalize` after its checkpoint, in the order the code makes them. */
    method CheckComplete(m: Manifest) returns (result: FinalizeResult)
      requires disk.dir.part.Present?
      ensures result == if durableOffset != m.logicalBytes then LengthMismatch
                        else if durableCrc32 != m.streamCrc32 then StreamCrcMismatch
                        else if !ValidRecords(disk.dir.part.data, m) then InvalidRecords
                        else Finalized
    {
      if durableOffset != m.logicalBytes {
        return LengthMismatch;
      }
      if durableCrc32 != m.streamCrc32 {
        return StreamCrcMismatch;
      }
      var valid := ValidateAllRecords(disk.dir.part.data, m);
      return if valid then Finalized else InvalidRecords;
    }

    method CommitFiles(m: Manifest)
      requires Valid()
      modifies disk
      ensures Valid() && disk.ops == old(disk.ops) + CommitOps(m)
    {
      disk.Do(WriteScratch);
      disk.Do(WriteScratch);
      disk.Do(PartToFinal);
      disk.Do(WriteScratch);
      disk.Do(PutMetadata(MetadataFor(m)));
      disk.Do(DropResume);
    }

    method FinalizeSession(end: SessionEnd) returns (result: FinalizeResult)
      requires Valid()
      modifies this, disk
      ensures Valid()
      ensures result == Finalize(old(disk.dir), old(View()), end)
      ensures disk.ops == old(disk.ops) + FinalizeOps(old(disk.dir), old(View()), result)
      ensures disk.dir == Run(old(disk.dir), FinalizeOps(old(disk.dir), old(View()), result))
      ensures View() == MemoryAfterFinalize(old(disk.dir), old(View()), result)
    {
      if manifest.None? {
        return NotActive;
      }
      var m := manifest.value;
      if !EndMatches(end, m) {
        return EndMismatch;
      }
      var saved := CheckpointNow();
      if saved == None {
        return PartMissing;
      }
      SyncedPart(old(disk.dir), old(View()));
      result := CheckComplete(m);
      if result == Finalized {
        CommitFiles(m);
        ClearActive();
      }
      disk.Since(FinalizeOps(old(disk.dir), old(View()), result));
    }

    /** Re-reads the durable prefix before it is offered to the device: `None` means it is unusable. */
    method ValidateActiveCheckpoint() returns (result: Option<Checkpoint>)
      requires Valid()
      ensures result.Some? <==>
              && manifest.Some? && durableOffset <= manifest.value.logicalBytes
              && Genuine(disk.dir, Checkpoint(durableOffset, durableCrc32))
      ensures result.Some? ==> result.value == Checkpoint(durableOffset, durableCrc32)
    {
      if manifest.None? || durableOffset > manifest.value.logicalBytes || disk.dir.part.Absent? {
        return None;
      }
      var actual := Crc32FilePrefix(disk.dir.part.data, durableOffset);
      if actual != Some(durableCrc32) {
        return None;
      }
      return Some(Checkpoint(durableOffset, durableCrc32));
    }
  }
}
