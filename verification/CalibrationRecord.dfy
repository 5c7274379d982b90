/** Calibration records: a header, TLVs and a CRC that covers the record without its own field. */
module CalibrationRecord {
  import opened Bytes
  import opened Crc32
  import opened Wrappers

  const MAGIC: bv32 := 0x314C_4143
  const VERSION: byte := 1
  const HEADER_BYTES := 30
  const CRC_OFFSET := 26
  const MAX_BYTES := 256

  const VALID_MAG_MODEL: bv32 := 0x08
  const KNOWN_MASK: bv32 := 0x1F
  const MODEL_MASK: bv32 := 0x0003_0000
  const TLV_MAG_MODEL: byte := 4

  datatype Tlv = Tlv(kind: byte, value: bytes)

  datatype Record = Record(
    generation: bv32, validFlags: bv32, quality: nat, created: bytes, recordBytes: nat, crc: bv32, tlvs: seq<Tlv>)

  predicate Known(kind: byte) {
    1 <= kind <= 5
  }

  function ExpectedLength(kind: byte): nat {
    if kind == 3 || kind == 5 then 36 else 48
  }

  function FlagOf(kind: byte): bv32 {
    if kind == 1 then 0x01
    else if kind == 2 then 0x02
    else if kind == 3 then 0x04
    else if kind == 4 then 0x08
    else if kind == 5 then 0x10
    else 0
  }

  /** All 32-bit floats of the value are finite. */
  predicate AllFinite(value: bytes) {
    forall k :: 0 <= k < |value| / 4 ==> Finite(WordAt(value, 4 * k))
  }

  predicate Carries(t: Tlv) {
    0 < |t.value| < 256
  }

  predicate WellFormed(t: Tlv) {
    Known(t.kind) ==> |t.value| == ExpectedLength(t.kind) && AllFinite(t.value)
  }

  predicate Fresh(kind: byte, tlvs: seq<Tlv>) {
    Known(kind) ==> forall i :: 0 <= i < |tlvs| ==> tlvs[i].kind != kind
  }

  /** Known kinds are well formed and appear at most once. */
  predicate KnownOk(tlvs: seq<Tlv>)
    decreases |tlvs|
  {
    tlvs == [] ||
    var last := tlvs[|tlvs| - 1];
    KnownOk(tlvs[..|tlvs| - 1]) && WellFormed(last) && Fresh(last.kind, tlvs[..|tlvs| - 1])
  }

  function Present(tlvs: seq<Tlv>): bv32
    decreases |tlvs|
  {
    if tlvs == [] then 0 else Present(tlvs[..|tlvs| - 1]) | FlagOf(tlvs[|tlvs| - 1].kind)
  }

  predicate FlagsOk(flags: bv32, tlvs: seq<Tlv>) {
    && flags & KNOWN_MASK == Present(tlvs)
    && flags & MODEL_MASK != MODEL_MASK
    && (flags & MODEL_MASK != 0 ==> flags & VALID_MAG_MODEL != 0)
  }

  // ----- printing -----

  function PrintTlv(t: Tlv): bytes
    requires Carries(t)
  {
    [t.kind, |t.value| as bv8] + t.value
  }

  function PrintTlvs(tlvs: seq<Tlv>): bytes
    requires forall t :: t in tlvs ==> Carries(t)
    decreases |tlvs|
  {
    if tlvs == [] then [] else PrintTlvs(tlvs[..|tlvs| - 1]) + PrintTlv(tlvs[|tlvs| - 1])
  }

  function PrintHeader(r: Record): (s: bytes)
    requires r.recordBytes < 0x1_0000 && r.quality < 0x1_0000 && |r.created| == 8
    ensures |s| == HEADER_BYTES
  {
    PutWord(MAGIC) + [VERSION, HEADER_BYTES as bv8] + PutHalf(r.recordBytes) + PutWord(r.generation)
    + PutWord(r.validFlags) + PutHalf(r.quality) + r.created + PutWord(r.crc)
  }

  // ----- parsing -----

  /** One TLV at the front of `body`: the value ends at the returned offset. */
  function TlvEnd(body: bytes): (end: Option<nat>)
    ensures end.Some? ==> 2 < end.value <= |body|
  {
    if |body| < 2 || body[1] == 0 || 2 + body[1] as int > |body| then None else Some(2 + body[1] as int)
  }

  function ParseTlvs(body: bytes): Option<seq<Tlv>>
    decreases |body|
  {
    if body == [] then Some([])
    else
      match TlvEnd(body)
      case None => None
      case Some(end) =>
        match ParseTlvs(body[end..])
        case None => None
        case Some(rest) => Some([Tlv(body[0], body[2..end])] + rest)
  }

  predicate HeaderOk(raw: bytes) {
    && HEADER_BYTES <= |raw| <= MAX_BYTES
    && WordAt(raw, 0) == MAGIC && raw[4] == VERSION && raw[5] as int == HEADER_BYTES
    && Half(raw[6..8]) == |raw|
    && SelfExcludingCrc(raw, CRC_OFFSET) == WordAt(raw, CRC_OFFSET)
  }

  function Decoded(raw: bytes, tlvs: seq<Tlv>): Record
    requires |raw| >= HEADER_BYTES
  {
    Record(WordAt(raw, 8), WordAt(raw, 12), Half(raw[16..18]), raw[18..26], Half(raw[6..8]), WordAt(raw, 26), tlvs)
  }

  /** `parse_calibration_record`: `None` stands for every ValueError. */
  function Parse(raw: bytes): Option<Record> {
    if !HeaderOk(raw) then None
    else
      match ParseTlvs(raw[HEADER_BYTES..])
      case None => None
      case Some(tlvs) =>
        if KnownOk(tlvs) && FlagsOk(WordAt(raw, 12), tlvs) then Some(Decoded(raw, tlvs)) else None
  }

  // ----- TLVs round-trip -----

  predicate AllCarry(tlvs: seq<Tlv>) {
    forall t :: t in tlvs ==> Carries(t)
  }

  lemma {:induction false} PrintCons(t: Tlv, rest: seq<Tlv>)
    requires AllCarry([t] + rest) && AllCarry(rest) && Carries(t)
    ensures PrintTlvs([t] + rest) == PrintTlv(t) + PrintTlvs(rest)
    decreases |rest|
  {
    hide PrintTlv;
    if rest == [] {
      assert [t] + rest == [t] && [t][..0] == [];
      assert PrintTlvs([]) == [];
    } else {
      var init := rest[..|rest| - 1];
      assert ([t] + rest)[..|rest|] == [t] + init;
      assert forall x :: x in [t] + init ==> x in [t] + rest;
      PrintCons(t, init);
    }
  }

  lemma LengthByte(value: bytes)
    requires 0 < |value| < 256
    ensures (|value| as bv8) as int == |value| && |value| as bv8 != 0
  {
    ByteRoundTrip(|value|);
  }

  /** Whatever is printed parses back to the same TLVs. */
  lemma {:induction false} ParseOfPrint(tlvs: seq<Tlv>)
    requires AllCarry(tlvs)
    ensures ParseTlvs(PrintTlvs(tlvs)) == Some(tlvs)
    decreases |tlvs|
  {
    if tlvs != [] {
      var t := tlvs[0];
      var rest := tlvs[1..];
      assert tlvs == [t] + rest && AllCarry(rest);
      ParseOfPrint(rest);
      PrintCons(t, rest);
      LengthByte(t.value);
      ParseFirst(t, PrintTlvs(rest));
    }
  }

  lemma ParseFirst(t: Tlv, rest: bytes)
    requires Carries(t) && (|t.value| as bv8) as int == |t.value| && |t.value| as bv8 != 0
    ensures var body := PrintTlv(t) + rest;
            TlvEnd(body) == Some(2 + |t.value|) && body[2 + |t.value|..] == rest
            && body[0] == t.kind && body[2..2 + |t.value|] == t.value
  {
    var body := PrintTlv(t) + rest;
    assert body[0] == t.kind && body[1] == |t.value| as bv8;
  }

  lemma FirstIsPrinted(body: bytes, end: nat)
    requires TlvEnd(body) == Some(end)
    ensures Carries(Tlv(body[0], body[2..end])) && PrintTlv(Tlv(body[0], body[2..end])) == body[..end]
  {
    ByteOfInt(body[1]);
    assert |body[2..end]| == body[1] as int;
    assert body[..end] == [body[0], body[1]] + body[2..end];
  }

  /** Whatever parses is exactly the printing of the TLVs it yields. */
  lemma {:induction false} PrintOfParse(body: bytes)
    requires ParseTlvs(body).Some?
    ensures AllCarry(ParseTlvs(body).value) && PrintTlvs(ParseTlvs(body).value) == body
    decreases |body|
  {
    hide PrintTlv;
    if body != [] {
      var end := TlvEnd(body).value;
      var t := Tlv(body[0], body[2..end]);
      PrintOfParse(body[end..]);
      FirstIsPrinted(body, end);
      PrintCons(t, ParseTlvs(body[end..]).value);
      assert body == body[..end] + body[end..];
    }
  }

  lemma ByteOfInt(b: byte)
    ensures (b as int) as bv8 == b
  {
  }

  // ----- records round-trip -----

  lemma HeaderFields(r: Record, body: bytes)
    requires r.recordBytes < 0x1_0000 && r.quality < 0x1_0000 && |r.created| == 8
    ensures var raw := PrintHeader(r) + body;
            && WordAt(raw, 0) == MAGIC && raw[4] == VERSION && raw[5] == HEADER_BYTES as bv8
            && Half(raw[6..8]) == r.recordBytes && WordAt(raw, 8) == r.generation
            && WordAt(raw, 12) == r.validFlags && Half(raw[16..18]) == r.quality
            && raw[18..26] == r.created && WordAt(raw, 26) == r.crc && raw[HEADER_BYTES..] == body
  {
    var raw := PrintHeader(r) + body;
    assert raw[0..4] == PutWord(MAGIC);
    assert raw[6..8] == PutHalf(r.recordBytes);
    assert raw[8..12] == PutWord(r.generation);
    assert raw[12..16] == PutWord(r.validFlags);
    assert raw[16..18] == PutHalf(r.quality);
    assert raw[18..26] == r.created;
    assert raw[26..30] == PutWord(r.crc);
  }

  lemma PutHalfOfHalf(s: bytes)
    requires |s| == 2
    ensures PutHalf(Half(s)) == s
  {
    ByteOfInt(s[0]);
    ByteOfInt(s[1]);
    assert Half(s) % 256 == s[0] as int && Half(s) / 256 == s[1] as int;
  }

  lemma HeaderIsPrinted(raw: bytes, tlvs: seq<Tlv>)
    requires HeaderOk(raw)
    ensures PrintHeader(Decoded(raw, tlvs)) == raw[..HEADER_BYTES]
  {
    hide PutWord, Word, PutHalf, Half, SelfExcludingCrc;
    PutWordOfWord(raw[0..4]);
    ByteOfInt(raw[5]);
    PutHalfOfHalf(raw[6..8]);
    PutWordOfWord(raw[8..12]);
    PutWordOfWord(raw[12..16]);
    PutHalfOfHalf(raw[16..18]);
    PutWordOfWord(raw[26..30]);
    assert [raw[4], raw[5]] == raw[4..6];
    Glue(raw, 0, 4, 6);
    Glue(raw, 0, 6, 8);
    Glue(raw, 0, 8, 12);
    Glue(raw, 0, 12, 16);
    Glue(raw, 0, 16, 18);
    Glue(raw, 0, 18, 26);
    Glue(raw, 0, 26, 30);
  }

  lemma Glue(raw: bytes, a: nat, b: nat, c: nat)
    requires a <= b <= c <= |raw|
    ensures raw[a..b] + raw[b..c] == raw[a..c]
  {
  }

  /** An accepted record is exactly its own header followed by its re-emitted TLVs. */
  lemma AcceptedIsItsPrinting(raw: bytes)
    requires Parse(raw).Some?
    ensures var r := Parse(raw).value;
            && AllCarry(r.tlvs) && r.recordBytes == |raw| && r.quality < 0x1_0000 && |r.created| == 8
            && raw == PrintHeader(r) + PrintTlvs(r.tlvs)
  {
    PrintOfParse(raw[HEADER_BYTES..]);
    HeaderIsPrinted(raw, Parse(raw).value.tlvs);
    hide *;
    assert raw == raw[..HEADER_BYTES] + raw[HEADER_BYTES..];
  }

  // ----- the parser as the code runs it -----

  lemma {:induction false} KnownOkPrefix(tlvs: seq<Tlv>, n: nat)
    requires KnownOk(tlvs) && n <= |tlvs|
    ensures KnownOk(tlvs[..n])
    decreases |tlvs|
  {
    if n == |tlvs| {
      assert tlvs[..n] == tlvs;
    } else {
      assert tlvs[..|tlvs| - 1][..n] == tlvs[..n];
      KnownOkPrefix(tlvs[..|tlvs| - 1], n);
    }
  }

  /** A bad TLV spoils every list that goes on from it. */
  lemma BadTlvSpoils(done: seq<Tlv>, bad: Tlv, rest: seq<Tlv>)
    requires !(WellFormed(bad) && Fresh(bad.kind, done))
    ensures !KnownOk(done + [bad] + rest)
  {
    var all := done + [bad] + rest;
    assert all[..|done| + 1] == done + [bad];
    assert (done + [bad])[..|done|] == done;
    if KnownOk(all) {
      KnownOkPrefix(all, |done| + 1);
    }
  }

  /** The TLVs still to come, after the ones that were read. */
  function Continued(done: seq<Tlv>, rest: Option<seq<Tlv>>): Option<seq<Tlv>> {
    match rest
    case None => None
    case Some(more) => Some(done + more)
  }

  lemma NothingRead(rest: Option<seq<Tlv>>)
    ensures Continued([], rest) == rest
  {
    if rest.Some? {
      assert [] + rest.value == rest.value;
    }
  }

  lemma ParseStep(rest: bytes, end: nat)
    requires TlvEnd(rest) == Some(end)
    ensures ParseTlvs(rest) == Continued([Tlv(rest[0], rest[2..end])], ParseTlvs(rest[end..]))
  {
  }

  /** What becomes of the whole list when the next TLV is bad. */
  lemma BadNextTlv(done: seq<Tlv>, bad: Tlv, rest: Option<seq<Tlv>>)
    requires !(WellFormed(bad) && Fresh(bad.kind, done))
    ensures var all := Continued(done, Continued([bad], rest)); all.Some? ==> !KnownOk(all.value)
  {
    if rest.Some? {
      BadTlvSpoils(done, bad, rest.value);
      assert done + ([bad] + rest.value) == done + [bad] + rest.value;
    }
  }

  /** The ends of the list: nothing read yet, nothing left, or nothing readable. */
  lemma ListEnds(done: seq<Tlv>)
    ensures KnownOk([]) && Present([]) == 0
    ensures Continued(done, ParseTlvs([])) == Some(done)
    ensures Continued(done, None) == None
  {
    assert done + [] == done;
  }

  lemma Unreadable(rest: bytes)
    requires rest != [] && TlvEnd(rest) == None
    ensures ParseTlvs(rest) == None
  {
  }

  /** The header and length checks of one TLV. */
  method ReadTlv(rest: bytes) returns (end: Option<nat>)
    ensures end == TlvEnd(rest)
  {
    if |rest| < 2 {
      return None;
    }
    var length := rest[1] as int;
    if rest[1] == 0 || 2 + length > |rest| {
      return None;
    }
    return Some(2 + length);
  }

  method ParseTlvList(body: bytes) returns (tlvs: Option<seq<Tlv>>, present: bv32)
    ensures tlvs == if ParseTlvs(body).Some? && KnownOk(ParseTlvs(body).value) then ParseTlvs(body) else None
    ensures tlvs.Some? ==> present == Present(tlvs.value)
  {
    hide AllFinite, FlagOf, KnownOk, Continued, WellFormed, Fresh, Present, ParseTlvs, TlvEnd;
    var offset := 0;
    var done: seq<Tlv> := [];
    present := 0;
    assert body[0..] == body;
    NothingRead(ParseTlvs(body));
    ListEnds(done);
    while offset < |body|
      invariant 0 <= offset <= |body|
      invariant ParseTlvs(body) == Continued(done, ParseTlvs(body[offset..]))
      invariant KnownOk(done) && present == Present(done)
    {
      var rest := body[offset..];
      var read := ReadTlv(rest);
      if read == None {
        Unreadable(rest);
        ListEnds(done);
        return None, 0;
      }
      var end := read.value;
      var t := Tlv(rest[0], rest[2..end]);
      assert rest[end..] == body[offset + end..];
      ParseStep(rest, end);
      if !(WellFormed(t) && Fresh(t.kind, done)) {
        BadNextTlv(done, t, ParseTlvs(rest[end..]));
        return None, 0;
      }
      NextTlv(done, t, ParseTlvs(rest[end..]));
      present := present | FlagOf(t.kind);
      done := done + [t];
      offset := offset + end;
    }
    assert body[offset..] == [];
    ListEnds(done);
    return Some(done), present;
  }

  /** One TLV more at the end of a list. */
  lemma KnownOkAppend(tlvs: seq<Tlv>, t: Tlv)
    ensures KnownOk(tlvs + [t]) <==> KnownOk(tlvs) && WellFormed(t) && Fresh(t.kind, tlvs)
    ensures Present(tlvs + [t]) == Present(tlvs) | FlagOf(t.kind)
  {
    assert (tlvs + [t])[..|tlvs|] == tlvs;
  }

  lemma NextTlv(done: seq<Tlv>, t: Tlv, rest: Option<seq<Tlv>>)
    ensures Continued(done, Continued([t], rest)) == Continued(done + [t], rest)
    ensures KnownOk(done) && WellFormed(t) && Fresh(t.kind, done) ==> KnownOk(done + [t])
    ensures Present(done + [t]) == Present(done) | FlagOf(t.kind)
  {
    assert (done + [t])[..|done|] == done;
    if rest.Some? {
      assert done + ([t] + rest.value) == done + [t] + rest.value;
    }
  }

  /** `parse_calibration_record`. */
  method ParseCalibrationRecord(raw: bytes) returns (record: Option<Record>)
    ensures record == Parse(raw)
  {
    hide KnownOk, SelfExcludingCrc;
    if !HeaderOk(raw) {
      return None;
    }
    var tlvs, present := ParseTlvList(raw[HEADER_BYTES..]);
    if tlvs == None {
      return None;
    }
    var flags := WordAt(raw, 12);
    var modelFlags := flags & MODEL_MASK;
    if flags & KNOWN_MASK != present || modelFlags == MODEL_MASK
       || (modelFlags != 0 && flags & VALID_MAG_MODEL == 0) {
      return None;
    }
    return Some(Decoded(raw, tlvs.value));
  }
}
