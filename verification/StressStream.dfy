/** The deterministic stress stream and the records that carry pieces of it. */
module StressStream {
  import opened Crc32
  import opened Wrappers

  const HEADER_BYTES := 64
  const PAGE_BYTES := 256
  const PERIOD_MS := 20
  const STRESS_MAGIC: bytes := [0x53, 0x54, 0x52, 0x53]

  // ----- the stream -----

  /** The byte of the stream at `position`; only the low 32 bits of a position reach it. */
  function PatternByte(seed: bv32, position: nat): byte {
    var x := ((position % 0x1_0000_0000) as bv32) ^ seed;
    ((x ^ (x >> 8) ^ (x >> 16) ^ (x >> 24)) & 0xFF) as bv8
  }

  function Pattern(seed: bv32, offset: nat, length: nat): (s: bytes)
    ensures |s| == length
  {
    seq(length, i requires 0 <= i => PatternByte(seed, offset + i))
  }

  /** The comprehension of `pattern`, byte by byte. */
  method MakePattern(seed: bv32, offset: nat, length: nat) returns (s: bytes)
    ensures s == Pattern(seed, offset, length)
  {
    hide PatternByte;
    s := [];
    var i := 0;
    while i < length
      invariant 0 <= i <= length && s == Pattern(seed, offset, i)
    {
      s := s + [PatternByte(seed, offset + i)];
      i := i + 1;
    }
  }

  /** Two adjacent pieces of the stream are one piece. */
  lemma PatternSplit(seed: bv32, offset: nat, a: nat, b: nat)
    ensures Pattern(seed, offset, a) + Pattern(seed, offset + a, b) == Pattern(seed, offset, a + b)
  {
    hide PatternByte;
    var whole := Pattern(seed, offset, a + b);
    var glued := Pattern(seed, offset, a) + Pattern(seed, offset + a, b);
    forall i | 0 <= i < a + b ensures glued[i] == whole[i] {
      if i >= a {
        assert glued[i] == PatternByte(seed, offset + a + (i - a));
      }
    }
  }

  // ----- one record -----

  datatype StressRecord = StressRecord(
    sessionId: bv32, rate: nat, period: nat, firstBlock: nat, blockCount: nat, byteOffset: nat, dataBytes: nat,
    planned: nat, firstDelay: nat, secondDelay: nat, mode: nat, start: nat)

  /** The word at position `k` of the header, as a number. */
  function Field(source: bytes, k: nat): nat
    requires 8 + 4 * k + 4 <= |source|
  {
    WordAt(source, 8 + 4 * k) as nat
  }

  function Header(source: bytes): StressRecord
    requires |source| >= HEADER_BYTES
  {
    StressRecord(WordAt(source, 8), Field(source, 1), Field(source, 2), Field(source, 3), Field(source, 4),
                 Field(source, 5), Field(source, 6), Field(source, 7), Field(source, 8), Field(source, 9),
                 Field(source, 10), Field(source, 11))
  }

  predicate KnownRate(rate: nat) {
    rate == 16000 || rate == 32000 || rate == 48000 || rate == 64000 || rate == 96000
  }

  predicate LayoutOk(source: bytes) {
    && |source| >= HEADER_BYTES && |source| % PAGE_BYTES == 0
    && source[0..4] == STRESS_MAGIC && Half(source[4..6]) == 1 && Half(source[6..8]) == HEADER_BYTES
    && Field(source, 12) == 0 && Field(source, 13) == 0
  }

  predicate RangeOk(r: StressRecord, session: bv32) {
    && r.sessionId == session && KnownRate(r.rate) && r.period == PERIOD_MS
    && (r.blockCount == 1 || r.blockCount == 2)
    && r.byteOffset == r.firstBlock * (r.rate / 50) && r.dataBytes == r.blockCount * (r.rate / 50)
    && r.mode == 1 && r.planned == (r.firstBlock + 1) * PERIOD_MS
    && (r.blockCount == 1 ==> r.secondDelay == 0)
  }

  predicate AllFill(s: bytes) {
    forall i :: 0 <= i < |s| ==> s[i] == 0xFF
  }

  predicate ContentOk(source: bytes, r: StressRecord) {
    var end := HEADER_BYTES + r.dataBytes;
    && |source| == (end + 255) / PAGE_BYTES * PAGE_BYTES
    && end <= |source|
    && source[HEADER_BYTES..end] == Pattern(r.sessionId, r.byteOffset, r.dataBytes)
    && AllFill(source[end..])
  }

  /** `parse_stress_source`: `None` stands for every ValueError. */
  function ParseStress(source: bytes, session: bv32): Option<StressRecord> {
    if !LayoutOk(source) then None
    else
      var r := Header(source);
      if RangeOk(r, session) && ContentOk(source, r) then Some(r) else None
  }

  method CheckFill(s: bytes) returns (ok: bool)
    ensures ok <==> AllFill(s)
  {
    var i := 0;
    while i < |s|
      invariant 0 <= i <= |s| && forall k :: 0 <= k < i ==> s[k] == 0xFF
    {
      if s[i] != 0xFF {
        return false;
      }
      i := i + 1;
    }
    return true;
  }

  lemma PaddedLength(end: nat, length: nat)
    requires length == (end + 255) / PAGE_BYTES * PAGE_BYTES
    ensures end <= length < end + PAGE_BYTES
  {
  }

  method ParseStressSource(source: bytes, session: bv32) returns (record: Option<StressRecord>)
    ensures record == ParseStress(source, session)
  {
    hide Pattern, AllFill, Header, RangeOk, LayoutOk;
    if !LayoutOk(source) {
      return None;
    }
    assert |source| >= HEADER_BYTES by { LayoutHasHeader(source); }
    var r := Header(source);
    if !RangeOk(r, session) {
      return None;
    }
    var end := HEADER_BYTES + r.dataBytes;
    if |source| != (end + 255) / PAGE_BYTES * PAGE_BYTES {
      return None;
    }
    PaddedLength(end, |source|);
    var expected := MakePattern(r.sessionId, r.byteOffset, r.dataBytes);
    if source[HEADER_BYTES..end] != expected {
      return None;
    }
    var filled := CheckFill(source[end..]);
    return if filled then Some(r) else None;
  }

  lemma LayoutHasHeader(source: bytes)
    requires LayoutOk(source)
    ensures |source| >= HEADER_BYTES
  {
  }

  /** The simulated bytes of an accepted record: they are the stream at the record's own offset. */
  function DataArea(source: bytes, r: StressRecord): bytes
    requires HEADER_BYTES + r.dataBytes <= |source|
  {
    source[HEADER_BYTES..HEADER_BYTES + r.dataBytes]
  }

  lemma AcceptedCarriesTheStream(source: bytes, session: bv32)
    requires ParseStress(source, session).Some?
    ensures var r := ParseStress(source, session).value;
            && HEADER_BYTES + r.dataBytes <= |source| && r.dataBytes > 0
            && DataArea(source, r) == Pattern(session, r.byteOffset, r.dataBytes)
            && r.byteOffset == r.firstBlock * (r.rate / 50) && r.dataBytes == r.blockCount * (r.rate / 50)
  {
    hide LayoutOk, Pattern, Header, AllFill;
  }
}
