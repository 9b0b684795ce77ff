/**
 * The two checksums of the wire formats.
 *
 * CRC-16/CCITT-FALSE protects one frame; CRC-32/ISO-HDLC (section 8 of RFC 1952) protects a
 * whole transfer.  Both are folds over bytes.  The register step of the first one is
 * reversible, and every error-detection result of this project rests on that.
 */
module Crc {
  import opened Octets
  import opened Bytes

  // ---------------------------------------------------------------- CRC-16

  const CRC16_START: bv16 := 0xFFFF

  const OCTET_BITS: nat := 8

  function BitStep(c: bv16): bv16 {
    if c & 0x8000 != 0 then (c << 1) ^ 0x1021 else c << 1
  }

  function BitSteps(c: bv16, n: nat): bv16
    decreases n
  {
    if n == 0 then c else BitSteps(BitStep(c), n - 1)
  }

  /** A byte in the high half of the register. */
  function Raised(b: Byte): bv16 {
    (Bits(b) as bv16) << 8
  }

  function Mixed(c: bv16, b: Byte): bv16 {
    c ^ Raised(b)
  }

  function ByteStep(c: bv16, b: Byte): bv16 {
    BitSteps(Mixed(c, b), OCTET_BITS)
  }

  /** The register after `data`, starting from `c`. */
  function Fold16(c: bv16, data: seq<Byte>): bv16
    decreases |data|
  {
    if data == [] then c else Fold16(ByteStep(c, data[0]), data[1..])
  }

  /** Eight shifts of the register, as the inner loop performs them. */
  method EightBitSteps(start: bv16) returns (crc: bv16)
    ensures crc == BitSteps(start, OCTET_BITS)
  {
    crc := start;
    for bit := 0 to OCTET_BITS
      invariant BitSteps(crc, OCTET_BITS - bit) == BitSteps(start, OCTET_BITS)
    {
      crc := BitStep(crc);
    }
  }

  /** The loop form used on the wire: one byte at a time, eight bit steps each. */
  method Crc16(data: seq<Byte>, initial: bv16) returns (crc: bv16)
    ensures crc == Fold16(initial, data)
  {
    hide BitSteps;
    crc := initial;
    for i := 0 to |data|
      invariant Fold16(crc, data[i..]) == Fold16(initial, data)
    {
      assert data[i..][0] == data[i] && data[i..][1..] == data[i + 1..];
      crc := EightBitSteps(Mixed(crc, data[i]));
    }
  }

  lemma {:induction false} Fold16Concat(c: bv16, a: seq<Byte>, b: seq<Byte>)
    ensures Fold16(c, a + b) == Fold16(Fold16(c, a), b)
    decreases |a|
  {
    if a == [] {
      assert a + b == b;
    } else {
      assert (a + b)[1..] == a[1..] + b;
      Fold16Concat(ByteStep(c, a[0]), a[1..], b);
    }
  }

  /** The bit step run backwards: the low bit tells whether the polynomial was added. */
  function UndoBitStep(c: bv16): bv16 {
    if c & 1 != 0 then ((c ^ 0x1021) >> 1) | 0x8000 else c >> 1
  }

  lemma ShiftedOut(c: bv16)
    requires c & 0x8000 == 0
    ensures (c << 1) & 1 == 0 && (c << 1) >> 1 == c
  {
  }

  lemma ShiftedOutWithCarry(c: bv16)
    requires c & 0x8000 != 0
    ensures ((c << 1) ^ 0x1021) & 1 != 0 && ((c << 1) >> 1) | 0x8000 == c
  {
  }

  lemma XorTwice(c: bv16, m: bv16)
    ensures (c ^ m) ^ m == c
  {
  }

  lemma BitStepReversible(c: bv16)
    ensures UndoBitStep(BitStep(c)) == c
  {
    if c & 0x8000 == 0 {
      ShiftedOut(c);
    } else {
      ShiftedOutWithCarry(c);
      XorTwice(c << 1, 0x1021);
    }
  }

  lemma {:induction false} BitStepsInjective(c: bv16, d: bv16, n: nat)
    requires BitSteps(c, n) == BitSteps(d, n)
    ensures c == d
    decreases n
  {
    if n > 0 {
      BitStepsInjective(BitStep(c), BitStep(d), n - 1);
      BitStepReversible(c);
      BitStepReversible(d);
    }
  }

  lemma XorCancels(c: bv16, d: bv16, m: bv16)
    requires c ^ m == d ^ m
    ensures c == d
  {
  }

  lemma XorCancelsLeft(m: bv16, c: bv16, d: bv16)
    requires m ^ c == m ^ d
    ensures c == d
  {
  }

  lemma ShiftedOctetsDiffer(x: bv8, y: bv8)
    requires (x as bv16) << 8 == (y as bv16) << 8
    ensures x == y
  {
  }

  lemma RaisedInjective(x: Byte, y: Byte)
    requires Raised(x) == Raised(y)
    ensures x == y
  {
    hide Bits, FromBits;
    ShiftedOctetsDiffer(Bits(x), Bits(y));
    OctetRoundTrip(x);
    OctetRoundTrip(y);
  }

  lemma MixedSeparatesBytes(c: bv16, x: Byte, y: Byte)
    requires Mixed(c, x) == Mixed(c, y)
    ensures x == y
  {
    XorCancelsLeft(c, Raised(x), Raised(y));
    RaisedInjective(x, y);
  }

  lemma MixedInjective(c: bv16, d: bv16, b: Byte)
    requires Mixed(c, b) == Mixed(d, b)
    ensures c == d
  {
    XorCancels(c, d, Raised(b));
  }

  /** From one register, two bytes that lead to one register are the same byte. */
  lemma ByteStepSeparatesBytes(c: bv16, x: Byte, y: Byte)
    requires ByteStep(c, x) == ByteStep(c, y)
    ensures x == y
  {
    hide BitSteps, Mixed;
    BitStepsInjective(Mixed(c, x), Mixed(c, y), OCTET_BITS);
    MixedSeparatesBytes(c, x, y);
  }

  /** One byte read from two registers leads to one register only if they were equal. */
  lemma ByteStepInjective(c: bv16, d: bv16, b: Byte)
    requires ByteStep(c, b) == ByteStep(d, b)
    ensures c == d
  {
    hide BitSteps, Mixed;
    BitStepsInjective(Mixed(c, b), Mixed(d, b), OCTET_BITS);
    MixedInjective(c, d, b);
  }

  lemma {:induction false} Fold16Injective(c: bv16, d: bv16, data: seq<Byte>)
    requires Fold16(c, data) == Fold16(d, data)
    ensures c == d
    decreases |data|
  {
    if data != [] {
      Fold16Injective(ByteStep(c, data[0]), ByteStep(d, data[0]), data[1..]);
      ByteStepInjective(c, d, data[0]);
    }
  }

  /** Replacing one byte of a message always changes its CRC-16. */
  lemma OneByteChangesCrc16(c: bv16, data: seq<Byte>, at: nat, b: Byte)
    requires at < |data| && b != data[at]
    ensures Fold16(c, data[at := b]) != Fold16(c, data)
  {
    var head, tail := data[..at], data[at + 1..];
    assert data == head + ([data[at]] + tail);
    assert data[at := b] == head + ([b] + tail);
    Fold16Concat(c, head, [data[at]] + tail);
    Fold16Concat(c, head, [b] + tail);
    var before := Fold16(c, head);
    assert ([data[at]] + tail)[1..] == tail && ([b] + tail)[1..] == tail;
    if Fold16(c, data[at := b]) == Fold16(c, data) {
      Fold16Injective(ByteStep(before, data[at]), ByteStep(before, b), tail);
      ByteStepSeparatesBytes(before, data[at], b);
    }
  }

  const DIGITS: seq<Byte> := [0x31, 0x32, 0x33, 0x34, 0x35, 0x36, 0x37, 0x38, 0x39]

  /** The check value of the catalogue: "123456789". */
  lemma CheckValue16()
    ensures Fold16(CRC16_START, DIGITS) == 0x29B1
  {
    hide ByteStep;
    StepIs(0xFFFF, 0x31, 0x31, 0xC782);
    StepIs(0xC782, 0x32, 0x32, 0x3DBA);
    StepIs(0x3DBA, 0x33, 0x33, 0x5BCE);
    StepIs(0x5BCE, 0x34, 0x34, 0x5349);
    StepIs(0x5349, 0x35, 0x35, 0x4560);
    StepIs(0x4560, 0x36, 0x36, 0x2EF4);
    StepIs(0x2EF4, 0x37, 0x37, 0x7718);
    StepIs(0x7718, 0x38, 0x38, 0xA12B);
    StepIs(0xA12B, 0x39, 0x39, 0x29B1);
    SpellOut16(0xFFFF);
  }

  lemma StepIs(c: bv16, b: Byte, bits: bv8, d: bv16)
    requires b / 16 < 16 && (b / 16) as bv4 == (bits >> 4) as bv4 && (b % 16) as bv4 == (bits & 15) as bv4
    requires var x := c ^ ((bits as bv16) << 8);
             BitStep(BitStep(BitStep(BitStep(BitStep(BitStep(BitStep(BitStep(x)))))))) == d
    ensures ByteStep(c, b) == d
  {
    hide BitStep;
    assert Bits(b) == bits;
  }

  lemma SpellOut16(c: bv16)
    ensures Fold16(c, DIGITS)
         == ByteStep(ByteStep(ByteStep(ByteStep(ByteStep(ByteStep(ByteStep(ByteStep(ByteStep(c,
              0x31), 0x32), 0x33), 0x34), 0x35), 0x36), 0x37), 0x38), 0x39)
  {
    hide ByteStep;
    assert DIGITS[1..] == [0x32, 0x33, 0x34, 0x35, 0x36, 0x37, 0x38, 0x39];
    assert DIGITS[1..][1..] == [0x33, 0x34, 0x35, 0x36, 0x37, 0x38, 0x39];
    assert DIGITS[1..][1..][1..] == [0x34, 0x35, 0x36, 0x37, 0x38, 0x39];
    assert DIGITS[1..][1..][1..][1..] == [0x35, 0x36, 0x37, 0x38, 0x39];
    assert DIGITS[1..][1..][1..][1..][1..] == [0x36, 0x37, 0x38, 0x39];
    assert DIGITS[1..][1..][1..][1..][1..][1..] == [0x37, 0x38, 0x39];
    assert DIGITS[1..][1..][1..][1..][1..][1..][1..] == [0x38, 0x39];
    assert DIGITS[1..][1..][1..][1..][1..][1..][1..][1..] == [0x39];
    assert DIGITS[1..][1..][1..][1..][1..][1..][1..][1..][1..] == [];
  }

  // ---------------------------------------------------------------- CRC-32

  function BitStep32(c: bv32): bv32 {
    if c & 1 != 0 then (c >> 1) ^ 0xEDB8_8320 else c >> 1
  }

  function BitSteps32(c: bv32, n: nat): bv32
    decreases n
  {
    if n == 0 then c else BitSteps32(BitStep32(c), n - 1)
  }

  function ByteStep32(c: bv32, b: Byte): bv32 {
    BitSteps32(c ^ (Bits(b) as bv32), OCTET_BITS)
  }

  function Fold32(c: bv32, data: seq<Byte>): bv32
    decreases |data|
  {
    if data == [] then c else Fold32(ByteStep32(c, data[0]), data[1..])
  }

  function Complement(c: bv32): bv32 {
    c ^ 0xFFFF_FFFF
  }

  /** The incremental form: `seed` is the checksum of everything before `data`. */
  function Crc32Update(data: seq<Byte>, seed: bv32): bv32 {
    Complement(Fold32(Complement(seed), data))
  }

  function Crc32(data: seq<Byte>): bv32 {
    Crc32Update(data, 0)
  }

  lemma ComplementTwice(c: bv32)
    ensures Complement(Complement(c)) == c
  {
  }

  lemma {:induction false} Fold32Concat(c: bv32, a: seq<Byte>, b: seq<Byte>)
    ensures Fold32(c, a + b) == Fold32(Fold32(c, a), b)
    decreases |a|
  {
    if a == [] {
      assert a + b == b;
    } else {
      assert (a + b)[1..] == a[1..] + b;
      Fold32Concat(ByteStep32(c, a[0]), a[1..], b);
    }
  }

  /** A rolling checksum over consecutive blocks is the checksum of the whole. */
  lemma Crc32Rolls(a: seq<Byte>, b: seq<Byte>)
    ensures Crc32Update(b, Crc32(a)) == Crc32(a + b)
  {
    ComplementTwice(Fold32(Complement(0), a));
    Fold32Concat(Complement(0), a, b);
  }

  lemma Crc32Empty()
    ensures Crc32([]) == 0
  {
  }

  /** The check value of the catalogue: "123456789". */
  lemma CheckValue32()
    ensures Crc32(DIGITS) == 0xCBF4_3926
  {
    hide ByteStep32;
    Step32Is(0xFFFF_FFFF, 0x31, 0x31, 0x7C23_1048);
    Step32Is(0x7C23_1048, 0x32, 0x32, 0xB0AC_BB32);
    Step32Is(0xB0AC_BB32, 0x33, 0x33, 0x77B7_9C2D);
    Step32Is(0x77B7_9C2D, 0x34, 0x34, 0x641C_1F5C);
    Step32Is(0x641C_1F5C, 0x35, 0x35, 0x340A_C5E3);
    Step32Is(0x340A_C5E3, 0x36, 0x36, 0xF68D_2C9E);
    Step32Is(0xF68D_2C9E, 0x37, 0x37, 0xAFFC_9660);
    Step32Is(0xAFFC_9660, 0x38, 0x38, 0x651F_2550);
    Step32Is(0x651F_2550, 0x39, 0x39, 0x340B_C6D9);
    SpellOut32(0xFFFF_FFFF);
  }

  lemma Step32Is(c: bv32, b: Byte, bits: bv8, d: bv32)
    requires b / 16 < 16 && (b / 16) as bv4 == (bits >> 4) as bv4 && (b % 16) as bv4 == (bits & 15) as bv4
    requires var x := c ^ (bits as bv32);
             BitStep32(BitStep32(BitStep32(BitStep32(BitStep32(BitStep32(BitStep32(BitStep32(x)))))))) == d
    ensures ByteStep32(c, b) == d
  {
    hide BitStep32;
    assert Bits(b) == bits;
  }

  lemma SpellOut32(c: bv32)
    ensures Fold32(c, DIGITS)
         == ByteStep32(ByteStep32(ByteStep32(ByteStep32(ByteStep32(ByteStep32(ByteStep32(ByteStep32(ByteStep32(c,
              0x31), 0x32), 0x33), 0x34), 0x35), 0x36), 0x37), 0x38), 0x39)
  {
    hide ByteStep32;
    assert DIGITS[1..] == [0x32, 0x33, 0x34, 0x35, 0x36, 0x37, 0x38, 0x39];
    assert DIGITS[1..][1..] == [0x33, 0x34, 0x35, 0x36, 0x37, 0x38, 0x39];
    assert DIGITS[1..][1..][1..] == [0x34, 0x35, 0x36, 0x37, 0x38, 0x39];
    assert DIGITS[1..][1..][1..][1..] == [0x35, 0x36, 0x37, 0x38, 0x39];
    assert DIGITS[1..][1..][1..][1..][1..] == [0x36, 0x37, 0x38, 0x39];
    assert DIGITS[1..][1..][1..][1..][1..][1..] == [0x37, 0x38, 0x39];
    assert DIGITS[1..][1..][1..][1..][1..][1..][1..] == [0x38, 0x39];
    assert DIGITS[1..][1..][1..][1..][1..][1..][1..][1..] == [0x39];
    assert DIGITS[1..][1..][1..][1..][1..][1..][1..][1..][1..] == [];
  }

  /**
   * A whole file hashed block by block.  `readSizes` are the sizes the reads happen to
   * return, so the digest is the same for every chunking.
   */
  method Crc32Stream(file: seq<Byte>, chunkSize: nat, maxSize: nat) returns (digest: Option<(nat, bv32)>)
    requires chunkSize > 0
    ensures digest == if |file| <= maxSize then Some((|file|, Crc32(file))) else None
  {
    hide Crc32, Crc32Update;
    var size := 0;
    var checksum: bv32 := 0;
    assert file[..0] == [];
    Crc32Empty();
    while true
      invariant size <= |file| && size <= maxSize
      invariant checksum == Crc32(file[..size])
      decreases |file| - size
    {
      var remaining := maxSize - size;
      var want := if chunkSize < remaining + 1 then chunkSize else remaining + 1;
      var block := file[size..if size + want < |file| then size + want else |file|];
      if block == [] {
        assert file[..size] == file;
        return Some((size, checksum));
      }
      if |block| > remaining {
        return None;
      }
      Crc32Rolls(file[..size], block);
      assert file[..size] + block == file[..size + |block|];
      checksum := Crc32Update(block, checksum);
      size := size + |block|;
    }
  }

  /** The leading bytes of a file, hashed block by block; nothing when the file is shorter. */
  method Crc32FilePrefix(file: seq<Byte>, length: nat, chunkSize: nat) returns (crc: Option<bv32>)
    requires chunkSize > 0
    ensures crc == if length <= |file| then Some(Crc32(file[..length])) else None
  {
    hide Crc32, Crc32Update;
    var size := 0;
    var checksum: bv32 := 0;
    assert file[..0] == [];
    Crc32Empty();
    while size < length
      invariant size <= |file| && size <= length
      invariant checksum == Crc32(file[..size])
    {
      var want := if chunkSize < length - size then chunkSize else length - size;
      var block := file[size..if size + want < |file| then size + want else |file|];
      if block == [] {
        return None;
      }
      Crc32Rolls(file[..size], block);
      assert file[..size] + block == file[..size + |block|];
      checksum := Crc32Update(block, checksum);
      size := size + |block|;
    }
    return Some(checksum);
  }
}
