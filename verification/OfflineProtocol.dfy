/**
 * The parts of the OFFLINE V2 protocol the session store relies on: the session manifest as
 * `parse_session_manifest` delivers it, the END frame, and the stored event records.
 */
module OfflineProtocol {
  import opened Crc32
  import opened Wrappers

  const EVENT_MAGIC: bv32 := 0x3245_464F
  const EVENT_VERSION: byte := 2
  const EVENT_HEADER_BYTES: byte := 48
  const EVENT_RECORD_BYTES := 304
  const EVENT_CRC_OFFSET := 44
  const CONFIG_CRC32: bv32 := 0x3665_7DE0

  datatype ManifestData = Manifest(
    sessionId: bv32, transferId: bv32, generation: bv32,
    logicalBytes: nat, eventCount: nat, eventRecordBytes: nat,
    streamCrc32: bv32, configCrc32: bv32, manifestCrc32: bv32,
    ownerUserId: Option<bv32>)

  /** What `parse_session_manifest` has checked before it returns a manifest. */
  predicate Parsed(m: ManifestData) {
    && m.sessionId != 0 && m.transferId != 0 && m.generation != 0
    && m.eventRecordBytes == EVENT_RECORD_BYTES
    && m.logicalBytes == m.eventCount * EVENT_RECORD_BYTES
    && m.configCrc32 == CONFIG_CRC32
    && m.ownerUserId != Some(0)
  }

  type Manifest = m: ManifestData | Parsed(m)
    witness Manifest(1, 1, 1, 0, 0, EVENT_RECORD_BYTES, 0, CONFIG_CRC32, 0, None)

  /** Two BEGIN replies for one stored session: only the transfer id may differ. */
  predicate SameSession(a: Manifest, b: Manifest) {
    b == a.(transferId := b.transferId, manifestCrc32 := b.manifestCrc32)
  }

  datatype SessionEnd = SessionEnd(
    sessionId: bv32, transferId: bv32, generation: bv32, eventCount: nat, logicalBytes: nat,
    streamCrc32: bv32, manifestCrc32: bv32)

  predicate EndMatches(end: SessionEnd, m: Manifest) {
    && end.sessionId == m.sessionId
    && end.transferId == m.transferId
    && end.generation == m.generation
    && end.logicalBytes == m.logicalBytes
    && end.eventCount == m.eventCount
    && end.streamCrc32 == m.streamCrc32
    && end.manifestCrc32 == m.manifestCrc32
  }

  /** `parse_event_record` accepts `raw` as event `index` of session `sessionId`. */
  predicate ValidEvent(raw: bytes, sessionId: bv32, index: nat, configCrc32: bv32) {
    && |raw| == EVENT_RECORD_BYTES
    && WordAt(raw, 0) == EVENT_MAGIC
    && raw[4] == EVENT_VERSION
    && raw[5] == EVENT_HEADER_BYTES
    && raw[6] & 0xE0 == 0 && raw[7] == 0
    && WordAt(raw, 8) == sessionId
    && WordAt(raw, 12) as int == index
    && WordAt(raw, 24) == configCrc32
    && Finite(WordAt(raw, 28)) && Finite(WordAt(raw, 32)) && Finite(WordAt(raw, 36))
    && raw[40..44] == [1, 1, 2, 2]
    && WordAt(raw, EVENT_CRC_OFFSET) == SelfExcludingCrc(raw, EVENT_CRC_OFFSET)
  }

  function Slot(data: bytes, index: nat): (raw: bytes)
    requires (index + 1) * EVENT_RECORD_BYTES <= |data|
  {
    data[index * EVENT_RECORD_BYTES..(index + 1) * EVENT_RECORD_BYTES]
  }

  /** `data` is exactly the manifest's events, indexed 0 to n - 1, with nothing after them. */
  ghost predicate ValidRecords(data: bytes, m: Manifest) {
    && |data| == m.eventCount * EVENT_RECORD_BYTES
    && forall i :: 0 <= i < m.eventCount ==> ValidEvent(Slot(data, i), m.sessionId, i, m.configCrc32)
  }

  /** `_validate_completed_data`: length, stream CRC and every record. */
  ghost predicate CompletedData(data: bytes, m: Manifest) {
    && |data| == m.logicalBytes
    && Crc(data, 0) == m.streamCrc32
    && ValidRecords(data, m)
  }

  /** `_validate_all_records`: read the file record by record, then look for trailing bytes. */
  method ValidateAllRecords(data: bytes, m: Manifest) returns (ok: bool)
    ensures ok <==> ValidRecords(data, m)
  {
    var position := 0;
    for index := 0 to m.eventCount
      invariant position == index * EVENT_RECORD_BYTES <= |data|
      invariant forall i :: 0 <= i < index ==> ValidEvent(Slot(data, i), m.sessionId, i, m.configCrc32)
    {
      if |data| - position < EVENT_RECORD_BYTES {
        return false;
      }
      var raw := data[position..position + EVENT_RECORD_BYTES];
      assert raw == Slot(data, index);
      if !ValidEvent(raw, m.sessionId, index, m.configCrc32) {
        assert !ValidRecords(data, m);
        return false;
      }
      position := position + EVENT_RECORD_BYTES;
    }
    return position == |data|;
  }

  const BLOCK_BYTES := 64 * 1024

  /** `_crc32_file_prefix`: chain the CRC over blocks; a file that is too short is an error. */
  method Crc32FilePrefix(data: bytes, length: nat) returns (crc: Option<bv32>)
    ensures crc == if length <= |data| then Some(Crc(data[..length], 0)) else None
  {
    CrcOfNothing(0);
    if length == 0 {
      assert data[..0] == [];
      return Some(0);
    }
    var position, value := 0, 0 as bv32;
    while position < length
      invariant 0 <= position <= length && position <= |data|
      invariant value == Crc(data[..position], 0)
    {
      var block := if length - position < BLOCK_BYTES then length - position else BLOCK_BYTES;
      var next := if |data| - position < block then |data| else position + block;
      if next == position {
        return None;
      }
      CrcChain(data[..position], data[position..next], 0);
      assert data[..position] + data[position..next] == data[..next];
      value := Crc(data[position..next], value);
      position := next;
    }
    return Some(value);
  }

  /** `_validate_completed_data` as the code runs it. */
  method ValidateCompletedData(data: bytes, m: Manifest) returns (ok: bool)
    ensures ok <==> CompletedData(data, m)
  {
    if |data| != m.logicalBytes {
      return false;
    }
    var crc := Crc32FilePrefix(data, m.logicalBytes);
    assert data[..m.logicalBytes] == data;
    if crc != Some(m.streamCrc32) {
      return false;
    }
    ok := ValidateAllRecords(data, m);
  }
}
