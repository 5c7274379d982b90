/** `build_full_mag_calibration_record`: put a full magnetometer model into an accepted record. */
module CalibrationSplice {
  import opened CalibrationRecord
  import opened Bytes
  import opened Crc32
  import opened Wrappers

  /** `struct.pack("<12f", ...)`: each value is given as its 32-bit word. */
  function PutWords(ws: seq<bv32>): (s: bytes)
    ensures |s| == 4 * |ws|
    decreases |ws|
  {
    if ws == [] then [] else PutWords(ws[..|ws| - 1]) + PutWord(ws[|ws| - 1])
  }

  lemma {:induction false} PutWordsAt(ws: seq<bv32>, k: nat)
    requires k < |ws|
    ensures WordAt(PutWords(ws), 4 * k) == ws[k]
    decreases |ws|
  {
    var init := PutWords(ws[..|ws| - 1]);
    var last := PutWord(ws[|ws| - 1]);
    if k == |ws| - 1 {
      assert (init + last)[4 * k..4 * k + 4] == last;
    } else {
      PutWordsAt(ws[..|ws| - 1], k);
      assert (init + last)[4 * k..4 * k + 4] == init[4 * k..4 * k + 4];
    }
  }

  lemma FiniteModel(ws: seq<bv32>)
    requires forall w :: w in ws ==> Finite(w)
    ensures AllFinite(PutWords(ws))
  {
    forall k | 0 <= k < |PutWords(ws)| / 4 ensures Finite(WordAt(PutWords(ws), 4 * k)) {
      PutWordsAt(ws, k);
      assert ws[k] in ws;
    }
  }

  function Replaced(tlvs: seq<Tlv>, value: bytes): (r: seq<Tlv>)
    ensures |r| == |tlvs|
    ensures forall i :: 0 <= i < |r| ==>
              r[i] == if tlvs[i].kind == TLV_MAG_MODEL then Tlv(TLV_MAG_MODEL, value) else tlvs[i]
    decreases |tlvs|
  {
    if tlvs == [] then []
    else
      var last := tlvs[|tlvs| - 1];
      Replaced(tlvs[..|tlvs| - 1], value)
      + [if last.kind == TLV_MAG_MODEL then Tlv(TLV_MAG_MODEL, value) else last]
  }

  predicate HasMag(tlvs: seq<Tlv>) {
    exists i :: 0 <= i < |tlvs| && tlvs[i].kind == TLV_MAG_MODEL
  }

  function Spliced(tlvs: seq<Tlv>, value: bytes): seq<Tlv> {
    Replaced(tlvs, value) + if HasMag(tlvs) then [] else [Tlv(TLV_MAG_MODEL, value)]
  }

  function NewFlags(flags: bv32): bv32 {
    (flags | VALID_MAG_MODEL) & 0xFFFC_FFFF
  }

  function Clamped(quality: int): (n: nat)
    ensures n < 0x1_0000
  {
    if quality < 0 then 0 else if quality > 0xFFFF then 0xFFFF else quality
  }

  /** The record as it is packed, with `crc` in its CRC field. */
  function Header(current: Record, generation: bv32, quality: int, created: bytes, body: bytes, crc: bv32): Record {
    Record(generation, NewFlags(current.validFlags), Clamped(quality), created, HEADER_BYTES + |body|, crc, [])
  }

  function Packed(current: Record, generation: bv32, quality: int, created: bytes, body: bytes): bytes
    requires |created| == 8 && HEADER_BYTES + |body| <= MAX_BYTES
  {
    var blank := PrintHeader(Header(current, generation, quality, created, body, 0)) + body;
    PrintHeader(Header(current, generation, quality, created, body, SelfExcludingCrc(blank, CRC_OFFSET))) + body
  }

  // ----- the TLV list -----

  lemma {:induction false} ReplacedKeeps(tlvs: seq<Tlv>, value: bytes)
    requires KnownOk(tlvs) && |value| == 48 && AllFinite(value)
    ensures KnownOk(Replaced(tlvs, value)) && Present(Replaced(tlvs, value)) == Present(tlvs)
    decreases |tlvs|
  {
    if tlvs == [] {
      assert Replaced(tlvs, value) == tlvs;
    } else {
      hide KnownOk, Present, FlagOf, AllFinite, WellFormed, Fresh;
      var init, last := tlvs[..|tlvs| - 1], tlvs[|tlvs| - 1];
      var mine := if last.kind == TLV_MAG_MODEL then Tlv(TLV_MAG_MODEL, value) else last;
      assert tlvs == init + [last] && Replaced(tlvs, value) == Replaced(init, value) + [mine];
      KnownOkAppend(init, last);
      KnownOkAppend(Replaced(init, value), mine);
      ReplacedFits(init, last, value);
      hide Replaced;
      ReplacedKeeps(init, value);
    }
  }

  lemma ReplacedFits(init: seq<Tlv>, last: Tlv, value: bytes)
    requires WellFormed(last) && Fresh(last.kind, init) && |value| == 48 && AllFinite(value)
    ensures WellFormed(if last.kind == TLV_MAG_MODEL then Tlv(TLV_MAG_MODEL, value) else last)
    ensures Fresh(last.kind, Replaced(init, value))
  {
    hide AllFinite;
  }

  lemma {:induction false} MagIsPresent(tlvs: seq<Tlv>)
    requires HasMag(tlvs)
    ensures Present(tlvs) & VALID_MAG_MODEL != 0
    decreases |tlvs|
  {
    var init := tlvs[..|tlvs| - 1];
    var last := tlvs[|tlvs| - 1];
    if last.kind == TLV_MAG_MODEL {
      OrKeepsBit(FlagOf(last.kind), Present(init));
    } else {
      var i :| 0 <= i < |tlvs| && tlvs[i].kind == TLV_MAG_MODEL;
      assert init[i].kind == TLV_MAG_MODEL;
      MagIsPresent(init);
      OrKeepsBit(Present(init), FlagOf(last.kind));
    }
  }

  lemma OrKeepsBit(a: bv32, b: bv32)
    requires a & VALID_MAG_MODEL != 0
    ensures (a | b) & VALID_MAG_MODEL != 0 && (b | a) & VALID_MAG_MODEL != 0
  {
  }

  lemma BitAlreadySet(a: bv32)
    requires a & VALID_MAG_MODEL != 0
    ensures a | VALID_MAG_MODEL == a
  {
  }

  lemma SplicedKeeps(tlvs: seq<Tlv>, value: bytes)
    requires KnownOk(tlvs) && AllCarry(tlvs) && |value| == 48 && AllFinite(value)
    ensures KnownOk(Spliced(tlvs, value)) && AllCarry(Spliced(tlvs, value))
    ensures Present(Spliced(tlvs, value)) == Present(tlvs) | VALID_MAG_MODEL
  {
    hide KnownOk, Present, AllFinite, Replaced, AllCarry;
    var r := Replaced(tlvs, value);
    ReplacedKeeps(tlvs, value);
    if HasMag(tlvs) {
      MagIsPresent(tlvs);
      BitAlreadySet(Present(tlvs));
      assert r + [] == r;
    } else {
      assert Fresh(TLV_MAG_MODEL, r);
      KnownOkAppend(r, Tlv(TLV_MAG_MODEL, value));
    }
    SplicedCarries(tlvs, value);
  }

  /** The MAG flag is set, no weaker model grade is, and all other flags are as they were. */
  predicate FullModelFlags(flags: bv32, before: bv32) {
    && flags & VALID_MAG_MODEL != 0 && flags & MODEL_MASK == 0
    && flags & 0xFFFC_FFF7 == before & 0xFFFC_FFF7
  }

  lemma FlagsAfter(flags: bv32, tlvs: seq<Tlv>, spliced: seq<Tlv>)
    requires FlagsOk(flags, tlvs) && Present(spliced) == Present(tlvs) | VALID_MAG_MODEL
    ensures FlagsOk(NewFlags(flags), spliced)
    ensures FullModelFlags(NewFlags(flags), flags)
  {
    NewFlagBits(flags);
  }

  lemma NewFlagBits(flags: bv32)
    ensures NewFlags(flags) & KNOWN_MASK == (flags & KNOWN_MASK) | VALID_MAG_MODEL
    ensures NewFlags(flags) & VALID_MAG_MODEL != 0 && NewFlags(flags) & MODEL_MASK == 0
    ensures NewFlags(flags) & 0xFFFC_FFF7 == flags & 0xFFFC_FFF7
  {
  }

  function WithoutMag(tlvs: seq<Tlv>): seq<Tlv>
    decreases |tlvs|
  {
    if tlvs == [] then []
    else WithoutMag(tlvs[..|tlvs| - 1]) + if tlvs[|tlvs| - 1].kind == TLV_MAG_MODEL then [] else [tlvs[|tlvs| - 1]]
  }

  lemma {:induction false} OthersUnchanged(tlvs: seq<Tlv>, value: bytes)
    ensures WithoutMag(Replaced(tlvs, value)) == WithoutMag(tlvs)
    decreases |tlvs|
  {
    if tlvs != [] {
      var r := Replaced(tlvs, value);
      assert r[..|r| - 1] == Replaced(tlvs[..|tlvs| - 1], value);
      OthersUnchanged(tlvs[..|tlvs| - 1], value);
    }
  }

  /** Exactly one TLV is the magnetometer model, and it holds `value`. */
  ghost predicate OneMag(tlvs: seq<Tlv>, value: bytes) {
    exists i :: 0 <= i < |tlvs| && tlvs[i] == Tlv(TLV_MAG_MODEL, value) && OnlyMag(tlvs, i)
  }

  predicate OnlyMag(tlvs: seq<Tlv>, i: nat) {
    forall j :: 0 <= j < |tlvs| && j != i ==> tlvs[j].kind != TLV_MAG_MODEL
  }

  lemma {:induction false} KnownOnce(tlvs: seq<Tlv>, i: nat, j: nat)
    requires KnownOk(tlvs) && i < j < |tlvs| && Known(tlvs[j].kind)
    ensures tlvs[i].kind != tlvs[j].kind
    decreases |tlvs|
  {
    if j < |tlvs| - 1 {
      KnownOnce(tlvs[..|tlvs| - 1], i, j);
    }
  }

  lemma SplicedHasOneMag(tlvs: seq<Tlv>, value: bytes)
    requires KnownOk(tlvs)
    ensures OneMag(Spliced(tlvs, value), value)
  {
    var s := Spliced(tlvs, value);
    if HasMag(tlvs) {
      var i :| 0 <= i < |tlvs| && tlvs[i].kind == TLV_MAG_MODEL;
      assert s == Replaced(tlvs, value);
      forall j | 0 <= j < |s| && j != i ensures s[j].kind != TLV_MAG_MODEL {
        if tlvs[j].kind == TLV_MAG_MODEL {
          KnownOnce(tlvs, if i < j then i else j, if i < j then j else i);
        }
      }
      assert OnlyMag(s, i);
    } else {
      assert s[|tlvs|] == Tlv(TLV_MAG_MODEL, value) && OnlyMag(s, |tlvs|);
    }
  }

  lemma SplicedLeavesOthers(tlvs: seq<Tlv>, value: bytes)
    ensures WithoutMag(Spliced(tlvs, value)) == WithoutMag(tlvs)
  {
    OthersUnchanged(tlvs, value);
    var r := Replaced(tlvs, value);
    if HasMag(tlvs) {
      assert r + [] == r;
    } else {
      assert Spliced(tlvs, value)[..|r|] == r;
      assert WithoutMag(r) + [] == WithoutMag(r);
    }
  }

  // ----- the record -----

  /** The CRC field does not depend on what stood in it. */
  lemma CrcIgnoresItself(r: Record, crc: bv32, body: bytes)
    requires r.recordBytes < 0x1_0000 && r.quality < 0x1_0000 && |r.created| == 8
    ensures var a := PrintHeader(r) + body;
            var b := PrintHeader(r.(crc := crc)) + body;
            SelfExcludingCrc(a, CRC_OFFSET) == SelfExcludingCrc(b, CRC_OFFSET)
  {
    hide PutWord, PutHalf, Crc;
    var a := PrintHeader(r) + body;
    var b := PrintHeader(r.(crc := crc)) + body;
    assert a[..CRC_OFFSET] == b[..CRC_OFFSET];
    assert a[CRC_OFFSET + 4..] == body && b[CRC_OFFSET + 4..] == body;
  }

  lemma HeaderByte()
    ensures (HEADER_BYTES as bv8) as int == HEADER_BYTES
  {
    ByteRoundTrip(HEADER_BYTES);
  }

  lemma PackedHeader(current: Record, generation: bv32, quality: int, created: bytes, body: bytes)
    requires |created| == 8 && HEADER_BYTES + |body| <= MAX_BYTES
    ensures var raw := Packed(current, generation, quality, created, body);
            && HeaderOk(raw) && raw[HEADER_BYTES..] == body
            && WordAt(raw, 8) == generation && WordAt(raw, 12) == NewFlags(current.validFlags)
            && Half(raw[16..18]) == Clamped(quality) && raw[18..26] == created
  {
    hide PutWord, Word, PutHalf, Half, SelfExcludingCrc, NewFlags;
    var blank := Header(current, generation, quality, created, body, 0);
    var crc := SelfExcludingCrc(PrintHeader(blank) + body, CRC_OFFSET);
    var r := blank.(crc := crc);
    assert r == Header(current, generation, quality, created, body, crc);
    HeaderFields(r, body);
    CrcIgnoresItself(blank, crc, body);
    HeaderByte();
  }

  /** The bytes after the header; TLVs that came out of the parser always have printable lengths. */
  function Body(tlvs: seq<Tlv>): bytes {
    if AllCarry(tlvs) then PrintTlvs(tlvs) else []
  }

  /** `build_full_mag_calibration_record`: the list is rebuilt, packed, and parsed again. */
  method BuildFullMagRecord(
    current: Record, generation: bv32, quality: int, created: bytes, words: seq<bv32>) returns (result: Option<Record>)
    requires AllCarry(current.tlvs) && |created| == 8
    ensures var body := Body(Spliced(current.tlvs, PutWords(words)));
            result == if |words| != 12 || !(forall w :: w in words ==> Finite(w)) then None
                      else if HEADER_BYTES + |body| > MAX_BYTES then None
                      else Parse(Packed(current, generation, quality, created, body))
  {
    if |words| != 12 || !(forall w :: w in words ==> Finite(w)) {
      return None;
    }
    var value := PutWords(words);
    var tlvs: seq<Tlv>, replaced := [], false;
    for i := 0 to |current.tlvs|
      invariant tlvs == Replaced(current.tlvs[..i], value)
      invariant replaced <==> HasMag(current.tlvs[..i])
    {
      assert current.tlvs[..i + 1][..i] == current.tlvs[..i];
      if current.tlvs[i].kind == TLV_MAG_MODEL {
        tlvs := tlvs + [Tlv(TLV_MAG_MODEL, value)];
        replaced := true;
        assert current.tlvs[..i + 1][i].kind == TLV_MAG_MODEL;
      } else {
        tlvs := tlvs + [current.tlvs[i]];
        HasMagGrows(current.tlvs, i);
      }
    }
    assert current.tlvs[..|current.tlvs|] == current.tlvs;
    if !replaced {
      tlvs := tlvs + [Tlv(TLV_MAG_MODEL, value)];
    }
    assert tlvs == Spliced(current.tlvs, value);
    SplicedCarries(current.tlvs, value);
    var body := PrintTlvs(tlvs);
    if HEADER_BYTES + |body| > MAX_BYTES {
      return None;
    }
    result := ParseCalibrationRecord(Packed(current, generation, quality, created, body));
  }

  lemma SplicedCarries(tlvs: seq<Tlv>, value: bytes)
    requires AllCarry(tlvs) && |value| == 48
    ensures AllCarry(Spliced(tlvs, value))
  {
    var r := Replaced(tlvs, value);
    forall t | t in Spliced(tlvs, value) ensures Carries(t) {
      if t in r {
        var i :| 0 <= i < |r| && r[i] == t;
        assert tlvs[i] in tlvs;
      }
    }
  }

  lemma HasMagGrows(tlvs: seq<Tlv>, i: nat)
    requires i < |tlvs| && tlvs[i].kind != TLV_MAG_MODEL
    ensures HasMag(tlvs[..i + 1]) <==> HasMag(tlvs[..i])
  {
    if HasMag(tlvs[..i + 1]) {
      var k :| 0 <= k < i + 1 && tlvs[..i + 1][k].kind == TLV_MAG_MODEL;
      assert tlvs[..i][k].kind == TLV_MAG_MODEL;
    }
    if HasMag(tlvs[..i]) {
      var k :| 0 <= k < i && tlvs[..i][k].kind == TLV_MAG_MODEL;
      assert tlvs[..i + 1][k].kind == TLV_MAG_MODEL;
    }
  }

  lemma BodyOf(tlvs: seq<Tlv>)
    ensures AllCarry(tlvs) ==> Body(tlvs) == PrintTlvs(tlvs)
  {
  }

  lemma ParsedFacts(raw: bytes)
    requires Parse(raw).Some?
    ensures var r := Parse(raw).value;
            KnownOk(r.tlvs) && AllCarry(r.tlvs) && FlagsOk(r.validFlags, r.tlvs)
  {
    PrintOfParse(raw[HEADER_BYTES..]);
  }

  lemma ParsedFrom(raw: bytes, tlvs: seq<Tlv>)
    requires HeaderOk(raw) && ParseTlvs(raw[HEADER_BYTES..]) == Some(tlvs)
    requires KnownOk(tlvs) && FlagsOk(WordAt(raw, 12), tlvs)
    ensures Parse(raw) == Some(Decoded(raw, tlvs))
  {
  }

  /** The record as the parser reads it back. */
  lemma PackedIsParsed(
    current: Record, generation: bv32, quality: int, created: bytes, tlvs: seq<Tlv>)
    requires |created| == 8 && AllCarry(tlvs) && HEADER_BYTES + |PrintTlvs(tlvs)| <= MAX_BYTES
    requires KnownOk(tlvs) && FlagsOk(NewFlags(current.validFlags), tlvs)
    ensures var result := Parse(Packed(current, generation, quality, created, PrintTlvs(tlvs)));
            && result.Some? && result.value.tlvs == tlvs && result.value.validFlags == NewFlags(current.validFlags)
            && result.value.generation == generation && result.value.created == created
            && result.value.quality == Clamped(quality)
  {
    hide KnownOk, FlagsOk, NewFlags, HeaderOk, Packed, Word;
    ParseOfPrint(tlvs);
    PackedHeader(current, generation, quality, created, PrintTlvs(tlvs));
    ParsedFrom(Packed(current, generation, quality, created, PrintTlvs(tlvs)), tlvs);
  }

  /**
   * Splicing never spoils a record: for every accepted record and every finite model, when the result
   * fits in 256 bytes the parser accepts it, with exactly one MAG TLV, the other TLVs unchanged and in
   * order, the flags that match, and the requested header fields.
   */
  lemma SpliceIsAccepted(
    raw: bytes, current: Record, generation: bv32, quality: int, created: bytes, words: seq<bv32>)
    requires Parse(raw) == Some(current) && |created| == 8
    requires |words| == 12 && forall w :: w in words ==> Finite(w)
    requires HEADER_BYTES + |Body(Spliced(current.tlvs, PutWords(words)))| <= MAX_BYTES
    ensures var body := Body(Spliced(current.tlvs, PutWords(words)));
            var result := Parse(Packed(current, generation, quality, created, body));
            && result.Some?
            && OneMag(result.value.tlvs, PutWords(words))
            && WithoutMag(result.value.tlvs) == WithoutMag(current.tlvs)
            && FullModelFlags(result.value.validFlags, current.validFlags)
            && result.value.generation == generation && result.value.created == created
            && result.value.quality == Clamped(quality)
  {
    hide *;
    var value := PutWords(words);
    var spliced := Spliced(current.tlvs, value);
    ParsedFacts(raw);
    BodyOf(spliced);
    FiniteModel(words);
    SplicedKeeps(current.tlvs, value);
    FlagsAfter(current.validFlags, current.tlvs, spliced);
    SplicedHasOneMag(current.tlvs, value);
    SplicedLeavesOthers(current.tlvs, value);
    PackedIsParsed(current, generation, quality, created, spliced);
  }
}
