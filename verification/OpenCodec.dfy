/**
 * The immutable descriptor of one file transfer and the OPEN payload that carries it.
 *
 * Decoding inverts encoding on every valid descriptor.  The converse fails for exactly one
 * family of payloads: a non-zero resume offset without the RESUME bit is accepted, and
 * re-encodes with the bit set.
 */
module OpenCodec {
  import opened Octets
  import opened Bytes
  import opened PackBits

  datatype Direction = Put | Get

  datatype Descriptor = Descriptor(
    direction: Direction,
    encoding: Encoding,
    id: seq<Byte>,
    wireSize: Long,
    wireCrc: bv32,
    finalSize: Long,
    finalCrc: bv32,
    path: seq<Byte>,
    resumeOffset: Long,
    resumeCrc: bv32,
    resume: bool,
    receiptless: bool)

  datatype DescriptorError =
    | BadId | BadPath | ResumePastEnd | CrcWithoutPrefix | GetMustBeRaw | RawSizesDiffer | BadReceiptless

  datatype OpenError =
    | TooShort | WrongSubcommand | WrongVersion | BadDirection | BadEncoding | UnknownFlags | NoFastPump
    | LengthMismatch | NotAscii | Invalid(why: DescriptorError)

  const ID_SIZE := 16
  const MAX_PATH_BYTES := 255
  const OPEN_SUBCOMMAND: Byte := 0x01
  const PROTOCOL_VERSION: Byte := 1
  const OPEN_HEADER := 47

  predicate PrintablePath(path: seq<Byte>) {
    0 < |path| <= MAX_PATH_BYTES && forall b <- path :: 0x20 <= b <= 0x7E
  }

  /** A GET opened before the MSX has reported the size of its file. */
  predicate MetadataUnknown(d: Descriptor) {
    d.direction == Get && d.wireSize == 0 && d.wireCrc == 0 && d.finalSize == 0 && d.finalCrc == 0
  }

  /** The first rule a descriptor breaks, if any; `resume` already holds when an offset is set. */
  function Fault(d: Descriptor): Option<DescriptorError> {
    if |d.id| != ID_SIZE then Some(BadId)
    else if !PrintablePath(d.path) then Some(BadPath)
    else if d.resumeOffset > d.wireSize && !MetadataUnknown(d) then Some(ResumePastEnd)
    else if d.resumeOffset == 0 && d.resumeCrc != 0 then Some(CrcWithoutPrefix)
    else if d.direction == Get && d.encoding != Raw then Some(GetMustBeRaw)
    else if d.encoding == Raw && !MetadataUnknown(d) && (d.wireSize != d.finalSize || d.wireCrc != d.finalCrc)
    then Some(RawSizesDiffer)
    else if d.receiptless && (d.direction != Put || !d.resume || d.resumeOffset != d.wireSize
                              || d.resumeCrc != d.wireCrc)
    then Some(BadReceiptless)
    else None
  }

  predicate Valid(d: Descriptor) {
    Fault(d).None? && (d.resumeOffset > 0 ==> d.resume)
  }

  /** The constructor: an offset implies resumption, and no invalid descriptor is ever built. */
  function Build(d: Descriptor): (r: Result<Descriptor, DescriptorError>)
    ensures r.Ok? <==> Valid(d.(resume := d.resume || d.resumeOffset > 0))
    ensures r.Ok? ==> Valid(r.value)
    ensures Valid(d) ==> r == Ok(d)
  {
    var normalized := d.(resume := d.resume || d.resumeOffset > 0);
    match Fault(normalized)
    case Some(why) => Err(why)
    case None => Ok(normalized)
  }

  /** Fields that must agree before a partial transfer may be resumed. */
  predicate SameBinding(a: Descriptor, b: Descriptor) {
    && a.direction == b.direction && a.encoding == b.encoding && a.id == b.id
    && a.wireSize == b.wireSize && a.wireCrc == b.wireCrc
    && a.finalSize == b.finalSize && a.finalCrc == b.finalCrc && a.path == b.path
  }

  // ------------------------------------------------------------ checksums on the wire

  function CrcOctets(c: bv32): (bv8, bv8, bv8, bv8) {
    ((c & 0xFF) as bv8, ((c >> 8) & 0xFF) as bv8, ((c >> 16) & 0xFF) as bv8, (c >> 24) as bv8)
  }

  function JoinOctets(b0: bv8, b1: bv8, b2: bv8, b3: bv8): bv32 {
    (b0 as bv32) | ((b1 as bv32) << 8) | ((b2 as bv32) << 16) | ((b3 as bv32) << 24)
  }

  lemma OctetsJoin(c: bv32)
    ensures var o := CrcOctets(c); JoinOctets(o.0, o.1, o.2, o.3) == c
  {
  }

  lemma JoinedOctets(b0: bv8, b1: bv8, b2: bv8, b3: bv8)
    ensures CrcOctets(JoinOctets(b0, b1, b2, b3)) == (b0, b1, b2, b3)
  {
  }

  function LeCrc(c: bv32): (s: seq<Byte>)
    ensures |s| == 4
  {
    var o := CrcOctets(c);
    [FromBits(o.0), FromBits(o.1), FromBits(o.2), FromBits(o.3)]
  }

  function CrcAt(s: seq<Byte>, at: nat): bv32
    requires at + 4 <= |s|
  {
    JoinOctets(Bits(s[at]), Bits(s[at + 1]), Bits(s[at + 2]), Bits(s[at + 3]))
  }

  lemma LeCrcRoundTrip(c: bv32)
    ensures CrcAt(LeCrc(c), 0) == c
  {
    hide FromBits, Bits, CrcOctets, JoinOctets;
    var o := CrcOctets(c);
    BitsRoundTrip(o.0);
    BitsRoundTrip(o.1);
    BitsRoundTrip(o.2);
    BitsRoundTrip(o.3);
    OctetsJoin(c);
  }

  lemma CrcRoundTrip(s: seq<Byte>)
    requires |s| == 4
    ensures LeCrc(CrcAt(s, 0)) == s
  {
    hide FromBits, Bits, CrcOctets, JoinOctets;
    JoinedOctets(Bits(s[0]), Bits(s[1]), Bits(s[2]), Bits(s[3]));
    OctetRoundTrip(s[0]);
    OctetRoundTrip(s[1]);
    OctetRoundTrip(s[2]);
    OctetRoundTrip(s[3]);
  }

  // ------------------------------------------------------------ the OPEN payload

  function DirectionCode(d: Direction): Byte {
    match d
    case Put => 0
    case Get => 1
  }

  function EncodingCode(e: Encoding): Byte {
    match e
    case Raw => 0
    case Packbits => 1
  }

  /** RESUME is bit 0, RECEIPTLESS_REPLAY bit 1 and FAST_PUMP bit 2. */
  function Flags(resume: bool, receiptless: bool): Byte {
    4 + (if resume then 1 else 0) + (if receiptless then 2 else 0)
  }

  function Head(d: Descriptor): (s: seq<Byte>)
    ensures |s| == 5
  {
    [OPEN_SUBCOMMAND, PROTOCOL_VERSION, DirectionCode(d.direction), EncodingCode(d.encoding),
     Flags(d.resume, d.receiptless)]
  }

  function Numbers(d: Descriptor): (s: seq<Byte>)
    ensures |s| == 24
  {
    Le32(d.wireSize) + LeCrc(d.wireCrc) + Le32(d.finalSize) + LeCrc(d.finalCrc)
    + Le32(d.resumeOffset) + LeCrc(d.resumeCrc)
  }

  function Encode(d: Descriptor): (s: seq<Byte>)
    requires Valid(d)
    ensures |s| == OPEN_HEADER + |d.path|
  {
    Head(d) + d.id + Numbers(d) + Le16(|d.path|) + d.path
  }

  /** The descriptor the fields of a payload spell, before any rule is checked. */
  function Fields(s: seq<Byte>): Descriptor
    requires |s| >= OPEN_HEADER
  {
    Descriptor(
      if s[2] == 0 then Put else Get,
      if s[3] == 0 then Raw else Packbits,
      s[5..21], LongAt(s, 21), CrcAt(s, 25), LongAt(s, 29), CrcAt(s, 33),
      s[OPEN_HEADER..], LongAt(s, 37), CrcAt(s, 41), s[4] % 2 == 1, s[4] / 2 % 2 == 1)
  }

  function Decode(s: seq<Byte>): Result<Descriptor, OpenError> {
    if |s| < OPEN_HEADER then Err(TooShort)
    else if s[0] != OPEN_SUBCOMMAND then Err(WrongSubcommand)
    else if s[1] != PROTOCOL_VERSION then Err(WrongVersion)
    else if s[4] >= 8 then Err(UnknownFlags)
    else if s[4] < 4 then Err(NoFastPump)
    else if |s| != OPEN_HEADER + WordAt(s, 45) then Err(LengthMismatch)
    else if exists b <- s[OPEN_HEADER..] :: b >= 0x80 then Err(NotAscii)
    else if s[2] > 1 then Err(BadDirection)
    else if s[3] > 1 then Err(BadEncoding)
    else
      match Build(Fields(s))
      case Err(why) => Err(Invalid(why))
      case Ok(d) => Ok(d)
  }

  // ------------------------------------------------------------ round trips

  /** Where each part of a payload lies. */
  lemma PartsOfPayload(head: seq<Byte>, id: seq<Byte>, numbers: seq<Byte>, length: seq<Byte>, path: seq<Byte>)
    requires |head| == 5 && |id| == ID_SIZE && |numbers| == 24 && |length| == 2
    ensures var s := head + id + numbers + length + path;
            && |s| == OPEN_HEADER + |path|
            && s[..5] == head && s[5..21] == id && s[21..45] == numbers && s[45..47] == length
            && s[OPEN_HEADER..] == path
  {
  }

  lemma NumbersRoundTrip(d: Descriptor)
    ensures var n := Numbers(d);
            && LongAt(n, 0) == d.wireSize && CrcAt(n, 4) == d.wireCrc
            && LongAt(n, 8) == d.finalSize && CrcAt(n, 12) == d.finalCrc
            && LongAt(n, 16) == d.resumeOffset && CrcAt(n, 20) == d.resumeCrc
  {
    hide Le32, LeCrc, JoinOctets, Bits;
    Le32RoundTrip(d.wireSize);
    Le32RoundTrip(d.finalSize);
    Le32RoundTrip(d.resumeOffset);
    LeCrcRoundTrip(d.wireCrc);
    LeCrcRoundTrip(d.finalCrc);
    LeCrcRoundTrip(d.resumeCrc);
  }

  lemma LongInside(s: seq<Byte>, from: nat, to: nat, at: nat)
    requires from <= to <= |s| && at + 4 <= to - from
    ensures LongAt(s, from + at) == LongAt(s[from..to], at)
    ensures CrcAt(s, from + at) == CrcAt(s[from..to], at)
  {
    hide JoinOctets, Bits;
  }

  /** The fields of a payload put together from a descriptor's parts are that descriptor's. */
  lemma FieldsOfEncoding(d: Descriptor)
    requires Valid(d)
    ensures Fields(Encode(d)) == d
    ensures Encode(d)[..5] == Head(d) && WordAt(Encode(d), 45) == |d.path|
  {
    hide Numbers, LongAt, CrcAt, Fault;
    var s := Encode(d);
    assert |d.id| == ID_SIZE && |d.path| <= MAX_PATH_BYTES by {
      ValidShape(d);
    }
    PartsOfPayload(Head(d), d.id, Numbers(d), Le16(|d.path|), d.path);
    NumbersRoundTrip(d);
    Le16RoundTrip(|d.path|);
    assert s[45] == s[45..47][0] && s[46] == s[45..47][1];
    assert s[2] == s[..5][2] && s[3] == s[..5][3] && s[4] == s[..5][4];
    LongInside(s, 21, 45, 0);
    LongInside(s, 21, 45, 4);
    LongInside(s, 21, 45, 8);
    LongInside(s, 21, 45, 12);
    LongInside(s, 21, 45, 16);
    LongInside(s, 21, 45, 20);
  }

  /** Four octets, the least significant first. */
  predicate Spells(s: seq<Byte>, at: nat, n: nat)
    requires at + 4 <= |s|
  {
    n == s[at] as int + 0x100 * s[at + 1] as int + 0x1_0000 * s[at + 2] as int + 0x100_0000 * s[at + 3] as int
  }

  predicate SpellsCrc(s: seq<Byte>, at: nat, crc: bv32)
    requires at + 4 <= |s|
  {
    && Bits(s[at]) == (crc & 0xFF) as bv8 && Bits(s[at + 1]) == ((crc >> 8) & 0xFF) as bv8
    && Bits(s[at + 2]) == ((crc >> 16) & 0xFF) as bv8 && Bits(s[at + 3]) == ((crc >> 24) & 0xFF) as bv8
  }

  /** The OPEN payload, octet by octet. */
  lemma EncodedLayout(d: Descriptor)
    requires Valid(d)
    ensures var s := Encode(d);
            && |s| == 47 + |d.path| && s[5..21] == d.id && s[47..] == d.path
            && s[0] == 1 && s[1] == 1 && s[2] == (if d.direction == Get then 1 else 0)
            && s[3] == (if d.encoding == Packbits then 1 else 0)
            && s[4] == 4 + (if d.resume then 1 else 0) + (if d.receiptless then 2 else 0)
            && Spells(s, 21, d.wireSize) && SpellsCrc(s, 25, d.wireCrc)
            && Spells(s, 29, d.finalSize) && SpellsCrc(s, 33, d.finalCrc)
            && Spells(s, 37, d.resumeOffset) && SpellsCrc(s, 41, d.resumeCrc)
            && s[45] as int + 0x100 * s[46] as int == |d.path|
  {
    hide Numbers, CrcAt, Fault, SpellsCrc;
    var s := Encode(d);
    ValidShape(d);
    PartsOfPayload(Head(d), d.id, Numbers(d), Le16(|d.path|), d.path);
    FieldsOfEncoding(d);
    assert s[..5] == Head(d);
    assert s[0] == s[..5][0] && s[1] == s[..5][1] && s[2] == s[..5][2] && s[3] == s[..5][3] && s[4] == s[..5][4];
    CrcSpelt(s, 25);
    CrcSpelt(s, 33);
    CrcSpelt(s, 41);
  }

  lemma CrcSpelt(s: seq<Byte>, at: nat)
    requires at + 4 <= |s|
    ensures SpellsCrc(s, at, CrcAt(s, at))
  {
    hide Bits;
    JoinedOctets(Bits(s[at]), Bits(s[at + 1]), Bits(s[at + 2]), Bits(s[at + 3]));
    LastOctet(CrcAt(s, at));
  }

  lemma LastOctet(c: bv32)
    ensures (c >> 24) as bv8 == ((c >> 24) & 0xFF) as bv8
  {
  }

  lemma ValidShape(d: Descriptor)
    requires Valid(d)
    ensures |d.id| == ID_SIZE && PrintablePath(d.path)
  {
  }

  /** Decoding an encoded descriptor gives it back. */
  lemma DecodeAfterEncode(d: Descriptor)
    requires Valid(d)
    ensures Decode(Encode(d)) == Ok(d)
  {
    hide Encode, Fault, Fields;
    var s := Encode(d);
    FieldsOfEncoding(d);
    ValidShape(d);
    assert s[0] == s[..5][0] && s[1] == s[..5][1] && s[2] == s[..5][2] && s[3] == s[..5][3] && s[4] == s[..5][4];
    assert s[OPEN_HEADER..] == d.path by {
      PathField(s);
    }
  }

  lemma PathField(s: seq<Byte>)
    requires |s| >= OPEN_HEADER
    ensures Fields(s).path == s[OPEN_HEADER..]
  {
  }

  lemma NumberFieldRoundTrip(s: seq<Byte>, k: nat)
    requires k + 4 <= |s|
    ensures Le32(LongAt(s, k)) == s[k..k + 4] && LeCrc(CrcAt(s, k)) == s[k..k + 4]
  {
    hide LongAt, CrcAt, Le32, LeCrc;
    LongInside(s, k, k + 4, 0);
    LongRoundTrip(s[k..k + 4]);
    CrcRoundTrip(s[k..k + 4]);
  }

  lemma SixNumbers(s: seq<Byte>)
    requires |s| >= OPEN_HEADER
    ensures s[21..45] == s[21..25] + s[25..29] + s[29..33] + s[33..37] + s[37..41] + s[41..45]
  {
  }

  /** The numeric part of a payload is the encoding of the numbers read from it. */
  lemma NumbersOfFields(s: seq<Byte>)
    requires |s| >= OPEN_HEADER
    ensures Numbers(Fields(s)) == s[21..45]
  {
    hide LongAt, CrcAt, Le32, LeCrc;
    NumberFieldRoundTrip(s, 21);
    NumberFieldRoundTrip(s, 25);
    NumberFieldRoundTrip(s, 29);
    NumberFieldRoundTrip(s, 33);
    NumberFieldRoundTrip(s, 37);
    NumberFieldRoundTrip(s, 41);
    SixNumbers(s);
  }

  /** Apart from the flag octet, an accepted payload is the encoding of what it decodes to. */
  lemma EncodingOfDecoded(s: seq<Byte>)
    requires Decode(s).Ok?
    ensures |s| >= OPEN_HEADER
    ensures var d := Decode(s).value;
            && Valid(d)
            && d == Fields(s).(resume := s[4] % 2 == 1 || LongAt(s, 37) > 0)
            && Encode(d) == s[4 := Flags(d.resume, d.receiptless)]
  {
    hide Fault, Numbers, LongAt, CrcAt;
    var d := Decode(s).value;
    assert d == Fields(s).(resume := s[4] % 2 == 1 || LongAt(s, 37) > 0);
    ValidShape(d);
    NumbersOfFields(s);
    NumbersIgnoreFlags(Fields(s), d);
    WordRoundTrip(s[45], s[46]);
    var e := s[4 := Flags(d.resume, d.receiptless)];
    assert Head(d) == e[..5];
    assert e == e[..5] + e[5..21] + e[21..45] + e[45..47] + e[47..];
    assert e[5..21] == d.id && e[21..45] == s[21..45] && e[45..47] == [s[45], s[46]] && e[47..] == d.path;
  }

  lemma NumbersIgnoreFlags(a: Descriptor, b: Descriptor)
    requires b == a.(resume := b.resume)
    ensures Numbers(a) == Numbers(b)
  {
  }

  lemma FlagsSpell(f: Byte)
    requires 4 <= f < 8
    ensures Flags(f % 2 == 1, f / 2 % 2 == 1) == f
  {
  }

  /** Re-encoding gives an accepted payload back exactly when it is canonical. */
  lemma EncodeAfterDecode(s: seq<Byte>)
    requires Decode(s).Ok?
    ensures |s| >= OPEN_HEADER
    ensures Encode(Decode(s).value) == s <==> s[4] % 2 == 1 || LongAt(s, 37) == 0
  {
    hide Encode, Fault, LongAt, CrcAt;
    var d := Decode(s).value;
    EncodingOfDecoded(s);
    FlagsSpell(s[4]);
    var e := s[4 := Flags(d.resume, d.receiptless)];
    assert e[4] == Flags(d.resume, d.receiptless);
    if s[4] % 2 == 1 || LongAt(s, 37) == 0 {
      assert e == s;
    }
  }

  /** The flag octet decides the two booleans and nothing else. */
  lemma FlagOctetOnly(s: seq<Byte>, f: Byte)
    requires |s| >= OPEN_HEADER
    ensures Fields(s[4 := f]) == Fields(s).(resume := f % 2 == 1, receiptless := f / 2 % 2 == 1)
  {
    hide LongAt, CrcAt;
    var t := s[4 := f];
    assert t[5..21] == s[5..21] && t[OPEN_HEADER..] == s[OPEN_HEADER..] && t[21..45] == s[21..45];
    SameNumbers(s, t, 0);
    SameNumbers(s, t, 4);
    SameNumbers(s, t, 8);
    SameNumbers(s, t, 12);
    SameNumbers(s, t, 16);
    SameNumbers(s, t, 20);
  }

  lemma SameNumbers(s: seq<Byte>, t: seq<Byte>, k: nat)
    requires |s| >= OPEN_HEADER && |t| == |s| && s[21..45] == t[21..45] && k <= 20
    ensures LongAt(s, 21 + k) == LongAt(t, 21 + k) && CrcAt(s, 21 + k) == CrcAt(t, 21 + k)
  {
    LongInside(s, 21, 45, k);
    LongInside(t, 21, 45, k);
  }

  /** A resumed descriptor is also accepted from a payload that lacks the RESUME bit. */
  lemma UnmarkedResumeDecodes(d: Descriptor)
    requires Valid(d) && d.resumeOffset > 0
    ensures Decode(Encode(d)[4 := Flags(false, d.receiptless)]) == Ok(d)
  {
    hide Encode, Fields, LongAt, CrcAt, Fault;
    var whole := Encode(d);
    var flags := Flags(false, d.receiptless);
    var s := whole[4 := flags];
    FieldsOfEncoding(d);
    FlagOctetOnly(whole, flags);
    ValidShape(d);
    PathField(whole);
    PathField(s);
    assert forall i | 0 <= i < 4 :: s[i] == whole[..5][i];
    assert s[0] == whole[..5][0] && s[1] == whole[..5][1] && s[2] == whole[..5][2] && s[3] == whole[..5][3];
    assert Fields(s) == d.(resume := false);
    assert WordAt(s, 45) == WordAt(whole, 45);
    assert Build(Fields(s)) == Ok(d);
  }

  /** The payloads that decode to a descriptor: its encoding, and one more when it resumes. */
  lemma DecodeAcceptsExactly(s: seq<Byte>, d: Descriptor)
    ensures Decode(s) == Ok(d) <==>
            && Valid(d)
            && (s == Encode(d) || (d.resumeOffset > 0 && s == Encode(d)[4 := Flags(false, d.receiptless)]))
  {
    hide Encode, Fields, LongAt, CrcAt, Fault, Decode, Flags;
    if Decode(s) == Ok(d) {
      EncodingOfDecoded(s);
      FlagsOfDecoded(s);
      var f := Flags(d.resume, d.receiptless);
      assert s[4 := f][4 := s[4]] == s;
    }
    if Valid(d) {
      DecodeAfterEncode(d);
      if d.resumeOffset > 0 {
        UnmarkedResumeDecodes(d);
      }
    }
  }

  lemma FlagsOfDecoded(s: seq<Byte>)
    requires Decode(s).Ok?
    ensures |s| >= OPEN_HEADER
    ensures var d := Decode(s).value;
            || s[4] == Flags(d.resume, d.receiptless)
            || (d.resumeOffset > 0 && s[4] == Flags(false, d.receiptless))
  {
    hide Encode, LongAt, CrcAt, Fault;
    EncodingOfDecoded(s);
    FlagsSpell(s[4]);
  }

  /** A concrete payload that is accepted and does not come back. */
  const UNMARKED: Descriptor :=
    Descriptor(Put, Raw, seq(ID_SIZE, _ => 7), 9, 5, 9, 5, [0x41], 3, 1, true, false)

  lemma UnmarkedResumeIsAccepted()
    ensures Valid(UNMARKED)
    ensures var s := Encode(UNMARKED)[4 := Flags(false, false)];
            Decode(s) == Ok(UNMARKED) && Encode(UNMARKED) != s
  {
    hide Encode, Decode;
    UnmarkedResumeDecodes(UNMARKED);
    FieldsOfEncoding(UNMARKED);
    assert Encode(UNMARKED)[4] == Encode(UNMARKED)[..5][4];
  }
}
