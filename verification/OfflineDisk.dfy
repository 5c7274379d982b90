/**
 * One session directory on a disk that may lose power between any two file operations.
 *
 * A rename (`os.replace`), an unlink and an `_atomic_write_*` are atomic and durable once they
 * return. A truncation is atomic but only durable after an fsync, and appended bytes that were not
 * fsynced survive a power loss up to an arbitrary length.
 */
module OfflineDisk {
  import opened Crc32
  import opened OfflineProtocol
  import opened Wrappers

  /** `data` is what a reader sees; `older` are the contents the file had since its last fsync. */
  datatype File = Absent | Present(older: seq<bytes>, data: bytes)

  function Content(f: File, i: nat): bytes
    requires f.Present? && i <= |f.older|
  {
    if i < |f.older| then f.older[i] else f.data
  }

  /** A power loss may leave `img`: some content since the last fsync, or one caught while growing. */
  ghost predicate MayLeave(f: File, img: bytes) {
    && f.Present?
    && (img == f.data || exists i :: 0 <= i < |f.older| && Between(f.older[i], Content(f, i + 1), img))
  }

  predicate Between(before: bytes, after: bytes, img: bytes) {
    img == before || (before <= img && img <= after)
  }

  function Rewritten(f: File, data: bytes): File
    requires f.Present?
  {
    Present(f.older + [f.data], data)
  }

  lemma RewrittenMayLeave(f: File, data: bytes, img: bytes)
    requires f.Present? && MayLeave(Rewritten(f, data), img)
    ensures MayLeave(f, img) || Between(f.data, data, img) || img == data
  {
    var g := Rewritten(f, data);
    if img != data {
      var i :| 0 <= i < |g.older| && Between(g.older[i], Content(g, i + 1), img);
      if i < |f.older| {
        assert g.older[i] == f.older[i] && Content(g, i + 1) == Content(f, i + 1);
      }
    }
  }

  /** `resume.json`. */
  datatype Resume = Resume(
    sessionId: bv32, generation: bv32, logicalBytes: nat, streamCrc32: bv32,
    ownerUserId: Option<bv32>, durableOffset: nat, prefixCrc32: bv32)

  /** The fields of `metadata.json` that decide whether a record is complete. */
  datatype Metadata = Metadata(
    sessionId: bv32, generation: bv32, logicalBytes: nat, streamCrc32: bv32,
    ownerUserId: Option<bv32>, complete: bool)

  /** Addresses are held case-folded, as `prepare` compares them. */
  type Address = string

  datatype Directory = Directory(
    part: File,                  // events_v2.bin.part
    final: File,                 // events_v2.bin
    resume: Option<Resume>,      // resume.json
    metadata: Option<Metadata>,  // metadata.json
    restart: Option<Address>)    // restart_after_capture.json

  const EMPTY_DIRECTORY := Directory(Absent, Absent, None, None, None)

  datatype FileOp =
    | ResetPart                        // _atomic_write_bytes(part, b"")
    | FinalToPart                      // os.replace(final, part)
    | TruncatePart(size: nat)
    | SyncPart
    | AppendPart(payload: bytes)
    | PutResume(checkpoint: Resume)    // _atomic_write_json(resume.json)
    | WriteScratch                     // a .tmp file or the CSV: never read back by the store
    | PartToFinal                      // os.replace(part, final)
    | PutMetadata(record: Metadata)    // os.replace(metadata.json.tmp, metadata.json)
    | DropResume
    | PutRestart(address: Address)     // _atomic_write_json(restart_after_capture.json)
    | DropRestart

  function Apply(d: Directory, op: FileOp): Directory {
    match op
    case ResetPart => d.(part := Present([], []))
    case FinalToPart => d.(part := d.final, final := Absent)
    case TruncatePart(size) =>
      if d.part.Present? && size <= |d.part.data| then d.(part := Rewritten(d.part, d.part.data[..size])) else d
    case SyncPart => if d.part.Present? then d.(part := Present([], d.part.data)) else d
    case AppendPart(payload) =>
      if d.part.Present? then d.(part := Rewritten(d.part, d.part.data + payload))
      else d.(part := Present([[]], payload))
    case PutResume(checkpoint) => d.(resume := Some(checkpoint))
    case WriteScratch => d
    case PartToFinal => d.(final := d.part, part := Absent)
    case PutMetadata(record) => d.(metadata := Some(record))
    case DropResume => d.(resume := None)
    case PutRestart(address) => d.(restart := Some(address))
    case DropRestart => d.(restart := None)
  }

  function Run(d: Directory, ops: seq<FileOp>): Directory
    decreases |ops|
  {
    if ops == [] then d else Run(Apply(d, ops[0]), ops[1..])
  }

  lemma {:induction false} RunConcat(d: Directory, a: seq<FileOp>, b: seq<FileOp>)
    ensures Run(d, a + b) == Run(Run(d, a), b)
    decreases |a|
  {
    if a == [] {
      assert a + b == b;
    } else {
      assert (a + b)[1..] == a[1..] + b;
      RunConcat(Apply(d, a[0]), a[1..], b);
    }
  }

  ghost predicate FileAfterPowerLoss(f: File, g: File) {
    match f
    case Absent => g == Absent
    case Present(_, _) => g.Present? && g.older == [] && MayLeave(f, g.data)
  }

  ghost predicate AfterPowerLoss(d: Directory, e: Directory) {
    && FileAfterPowerLoss(d.part, e.part)
    && FileAfterPowerLoss(d.final, e.final)
    && e == d.(part := e.part, final := e.final)
  }

  /** A crash either kills the host only, or takes the disk's unsynced state with it. */
  ghost predicate AfterCrash(d: Directory, e: Directory) {
    e == d || AfterPowerLoss(d, e)
  }

  lemma FileImages(f: File, g: File, img: bytes)
    requires FileAfterPowerLoss(f, g) && MayLeave(g, img)
    ensures MayLeave(f, img)
  {
  }

  lemma RunOne(d: Directory, op: FileOp)
    ensures Run(d, [op]) == Apply(d, op)
  {
  }

  lemma RunTwo(d: Directory, first: FileOp, second: FileOp)
    ensures Run(d, [first, second]) == Apply(Apply(d, first), second)
  {
    assert [first, second] == [first] + [second];
    RunConcat(d, [first], [second]);
  }

  /** The session directory, with every file operation recorded so that a crash can follow any. */
  class Disk {
    ghost const initial: Directory
    var dir: Directory
    ghost var ops: seq<FileOp>

    ghost predicate Valid()
      reads this
    {
      dir == Run(initial, ops)
    }

    constructor (found: Directory)
      ensures Valid() && dir == found && ops == []
    {
      initial := found;
      dir := found;
      ops := [];
    }

    method Do(op: FileOp)
      requires Valid()
      modifies this
      ensures Valid() && dir == Apply(old(dir), op) && ops == old(ops) + [op]
    {
      RunConcat(initial, ops, [op]);
      RunOne(dir, op);
      dir := Apply(dir, op);
      ops := ops + [op];
    }

    /** Performing `added` since a state is running them from that state. */
    twostate lemma Since(added: seq<FileOp>)
      requires old(Valid()) && Valid() && ops == old(ops) + added
      ensures dir == Run(old(dir), added)
    {
      RunConcat(initial, old(ops), added);
    }
  }
}
