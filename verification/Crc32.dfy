/** Bytes, little-endian fields, and the IEEE CRC-32 of section 8 of RFC 1952. */
module Crc32 {
  import opened Bytes

  type byte = bv8
  type bytes = seq<byte>

  /** One bit of the polynomial division, reflected: 0xEDB88320 is the reversed polynomial. */
  function BitStep(c: bv32): bv32 {
    if c & 1 == 1 then 0xEDB88320 ^ (c >> 1) else c >> 1
  }

  function BitSteps(c: bv32, n: nat): bv32
    decreases n
  {
    if n == 0 then c else BitSteps(BitStep(c), n - 1)
  }

  /** RFC 1952 keeps `BitSteps(i, 8)` in `crc_table[i]`. */
  function ByteStep(c: bv32, b: byte): bv32 {
    BitSteps((c ^ (b as bv32)) & 0xFF, 8) ^ (c >> 8)
  }

  function Update(c: bv32, data: bytes): bv32
    decreases |data|
  {
    if data == [] then c else Update(ByteStep(c, data[0]), data[1..])
  }

  /** `crc32_ieee(data, value)`: pre- and post-conditioned, so a previous result is a start value. */
  function Crc(data: bytes, value: bv32): bv32 {
    Update(value ^ 0xFFFF_FFFF, data) ^ 0xFFFF_FFFF
  }

  lemma {:induction false} UpdateConcat(c: bv32, a: bytes, b: bytes)
    ensures Update(c, a + b) == Update(Update(c, a), b)
    decreases |a|
  {
    if a == [] {
      assert a + b == b;
    } else {
      assert (a + b)[1..] == a[1..] + b;
      UpdateConcat(ByteStep(c, a[0]), a[1..], b);
    }
  }

  lemma FlipTwice(c: bv32)
    ensures (c ^ 0xFFFF_FFFF) ^ 0xFFFF_FFFF == c
  {
  }

  lemma CrcFrom(u: bv32, value: bv32, data: bytes)
    requires value == u ^ 0xFFFF_FFFF
    ensures Crc(data, value) == Update(u, data) ^ 0xFFFF_FFFF
  {
    FlipTwice(u);
  }

  /** Feeding the CRC of a prefix as the start value continues the CRC of the whole. */
  lemma CrcChain(a: bytes, b: bytes, value: bv32)
    ensures Crc(a + b, value) == Crc(b, Crc(a, value))
  {
    var start := value ^ 0xFFFF_FFFF;
    UpdateConcat(start, a, b);
    CrcFrom(Update(start, a), Crc(a, value), b);
  }

  lemma CrcOfNothing(value: bv32)
    ensures Crc([], value) == value
  {
    FlipTwice(value);
  }

  lemma StepOver(c: bv32, b: byte, rest: bytes)
    ensures Update(c, [b] + rest) == Update(ByteStep(c, b), rest)
  {
    assert ([b] + rest)[1..] == rest;
  }

  /** The published check value of this CRC: the ASCII digits 1 to 9. */
  lemma CheckValue()
    ensures Crc([0x31, 0x32, 0x33, 0x34, 0x35, 0x36, 0x37, 0x38, 0x39], 0) == 0xCBF4_3926
  {
    CheckSteps();
    hide ByteStep;
    var t6: bytes := [0x37, 0x38, 0x39];
    var t3 := [0x34, 0x35, 0x36] + t6;
    assert [0x31, 0x32, 0x33, 0x34, 0x35, 0x36, 0x37, 0x38, 0x39] == [0x31, 0x32, 0x33] + t3;
    ThreeSteps(0xFFFF_FFFF, 0x31, 0x32, 0x33, t3);
    ThreeSteps(STATE3, 0x34, 0x35, 0x36, t6);
    assert t6 + [] == t6;
    ThreeSteps(STATE6, 0x37, 0x38, 0x39, []);
  }

  const STATE3: bv32 := 0x77b79c2d
  const STATE6: bv32 := 0xf68d2c9e

  lemma CheckSteps()
    ensures ByteStep(ByteStep(ByteStep(0xFFFF_FFFF, 0x31), 0x32), 0x33) == STATE3
    ensures ByteStep(ByteStep(ByteStep(STATE3, 0x34), 0x35), 0x36) == STATE6
    ensures ByteStep(ByteStep(ByteStep(STATE6, 0x37), 0x38), 0x39) == 0xCBF4_3926 ^ 0xFFFF_FFFF
  {
  }

  lemma ThreeSteps(c: bv32, x: byte, y: byte, z: byte, rest: bytes)
    ensures Update(c, [x, y, z] + rest) == Update(ByteStep(ByteStep(ByteStep(c, x), y), z), rest)
  {
    assert [x, y, z] + rest == [x] + ([y] + ([z] + rest));
    StepOver(c, x, [y] + ([z] + rest));
    StepOver(ByteStep(c, x), y, [z] + rest);
    StepOver(ByteStep(ByteStep(c, x), y), z, rest);
  }

  /** `struct.unpack("<I", ...)`. */
  function Word(s: bytes): bv32
    requires |s| == 4
  {
    (s[0] as bv32) | ((s[1] as bv32) << 8) | ((s[2] as bv32) << 16) | ((s[3] as bv32) << 24)
  }

  /** `struct.pack("<I", ...)`. */
  function PutWord(w: bv32): (s: bytes)
    ensures |s| == 4 && Word(s) == w
  {
    [(w & 0xFF) as bv8, ((w >> 8) & 0xFF) as bv8, ((w >> 16) & 0xFF) as bv8, ((w >> 24) & 0xFF) as bv8]
  }

  lemma PutWordOfWord(s: bytes)
    requires |s| == 4
    ensures PutWord(Word(s)) == s
  {
  }

  /** The word stored at `offset`. */
  function WordAt(data: bytes, offset: nat): bv32
    requires offset + 4 <= |data|
  {
    Word(data[offset..offset + 4])
  }

  /** `struct.unpack("<H", ...)`, as an integer because the code adds and compares it. */
  function Half(s: bytes): (n: nat)
    requires |s| == 2
    ensures n < 0x1_0000
  {
    s[0] as int + 256 * (s[1] as int)
  }

  function PutHalf(n: nat): (s: bytes)
    requires n < 0x1_0000
    ensures |s| == 2 && Half(s) == n
  {
    ByteRoundTrip(n % 256);
    ByteRoundTrip(n / 256);
    [(n % 256) as bv8, (n / 256) as bv8]
  }

  /** A 32-bit float is kept as its word: it is finite unless the exponent bits are all ones. */
  predicate Finite(w: bv32) {
    (w >> 23) & 0xFF != 0xFF
  }

  /** The CRC stored inside a record covers the record with its own field zeroed. */
  function SelfExcludingCrc(raw: bytes, offset: nat): bv32
    requires offset + 4 <= |raw|
  {
    Crc(raw[..offset] + [0, 0, 0, 0] + raw[offset + 4..], 0)
  }
}
