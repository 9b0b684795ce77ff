/**
 * One protocol-v3 frame and its wire form: an 11-byte header, the payload, and the CRC-16 of
 * both, low byte first.
 */
module FrameCodec {
  import opened Octets
  import opened Bytes
  import opened Crc

  const MAGIC: seq<Byte> := [0x4D, 0x58]
  const HEADER_SIZE: nat := 11
  const CRC_SIZE: nat := 2
  const MAX_WIRE_PAYLOAD: nat := 0xFFFF

  datatype FrameType = Request | Response | Event
  {
    function Code(): Byte {
      match this
      case Request => 1
      case Response => 2
      case Event => 3
    }
  }

  datatype RawFrame = RawFrame(
    version: Byte, frameType: FrameType, flags: Byte, sequence: Word,
    opcode: Byte, status: Byte, payload: seq<Byte>)

  /** A frame the constructor accepts: every field fits its wire width. */
  type Frame = f: RawFrame | |f.payload| <= MAX_WIRE_PAYLOAD
    witness RawFrame(3, Request, 0, 0, 0, 0, [])

  datatype DecodeError =
    | Truncated(expected: nat, actual: nat)
    | WrongLength(expected: nat, actual: nat)
    | InvalidMagic
    | UnsupportedVersion(found: Byte)
    | InvalidType(code: Byte)
    | PayloadTooLarge(actual: nat, maximum: nat)
    | CrcMismatch(calculated: bv16, received: bv16)

  datatype Header = Header(
    version: Byte, frameType: FrameType, flags: Byte, sequence: Word,
    opcode: Byte, status: Byte, length: Word)

  function EncodeHeader(f: Frame): (s: seq<Byte>)
    ensures |s| == HEADER_SIZE
  {
    MAGIC + [f.version, f.frameType.Code(), f.flags] + Le16(f.sequence)
      + [f.opcode, f.status] + Le16(|f.payload|)
  }

  function CrcField(crc: bv16): (s: seq<Byte>)
    ensures |s| == CRC_SIZE
  {
    [FromBits((crc & 0xFF) as bv8), FromBits((crc >> 8) as bv8)]
  }

  function CrcFromField(lo: Byte, hi: Byte): bv16 {
    (Bits(lo) as bv16) | ((Bits(hi) as bv16) << 8)
  }

  function Body(f: Frame): seq<Byte> {
    EncodeHeader(f) + f.payload
  }

  function Encode(f: Frame): seq<Byte> {
    Body(f) + CrcField(Fold16(CRC16_START, Body(f)))
  }

  function EncodeMany(frames: seq<Frame>): seq<Byte> {
    if frames == [] then [] else Encode(frames[0]) + EncodeMany(frames[1..])
  }

  function TypeFromCode(code: Byte): Option<FrameType> {
    match code
    case 1 => Some(Request)
    case 2 => Some(Response)
    case 3 => Some(Event)
    case _ => None
  }

  /** The eleven leading bytes read as a header, with the checks in their order. */
  function DecodeHeader(data: seq<Byte>, version: Byte, maxPayload: nat): Result<Header, DecodeError>
    requires |data| >= HEADER_SIZE
  {
    if data[..2] != MAGIC then Err(InvalidMagic)
    else if data[2] != version then Err(UnsupportedVersion(data[2]))
    else
      match TypeFromCode(data[3])
      case None => Err(InvalidType(data[3]))
      case Some(frameType) =>
        var length := WordAt(data, 9);
        if length > maxPayload then Err(PayloadTooLarge(length, maxPayload))
        else Ok(Header(data[2], frameType, data[4], WordAt(data, 5), data[7], data[8], length))
  }

  function FrameSize(h: Header): nat {
    HEADER_SIZE + h.length + CRC_SIZE
  }

  /** Exactly one frame, or the first check it fails. */
  function Decode(raw: seq<Byte>, version: Byte, maxPayload: nat): Result<Frame, DecodeError> {
    if |raw| < HEADER_SIZE then Err(Truncated(HEADER_SIZE, |raw|))
    else
      match DecodeHeader(raw, version, maxPayload)
      case Err(e) => Err(e)
      case Ok(h) =>
        if |raw| < FrameSize(h) then Err(Truncated(FrameSize(h), |raw|))
        else if |raw| != FrameSize(h) then Err(WrongLength(FrameSize(h), |raw|))
        else
          var body := raw[..|raw| - CRC_SIZE];
          var received := CrcFromField(raw[|raw| - 2], raw[|raw| - 1]);
          var calculated := Fold16(CRC16_START, body);
          if received != calculated then Err(CrcMismatch(calculated, received))
          else Ok(RawFrame(h.version, h.frameType, h.flags, h.sequence, h.opcode, h.status,
                           body[HEADER_SIZE..]))
  }

  lemma CrcFieldSplits(crc: bv16)
    ensures (((crc & 0xFF) as bv8) as bv16) | ((((crc >> 8) as bv8) as bv16) << 8) == crc
  {
  }

  lemma CrcFieldJoins(lo: bv8, hi: bv8)
    ensures ((((lo as bv16) | ((hi as bv16) << 8)) & 0xFF) as bv8) == lo
    ensures ((((lo as bv16) | ((hi as bv16) << 8)) >> 8) as bv8) == hi
  {
  }

  lemma CrcFieldRoundTrip(crc: bv16)
    ensures CrcFromField(CrcField(crc)[0], CrcField(crc)[1]) == crc
  {
    hide Bits, FromBits;
    BitsRoundTrip((crc & 0xFF) as bv8);
    BitsRoundTrip((crc >> 8) as bv8);
    CrcFieldSplits(crc);
  }

  lemma CrcFieldReadBack(lo: Byte, hi: Byte)
    ensures CrcField(CrcFromField(lo, hi)) == [lo, hi]
  {
    hide Bits, FromBits;
    CrcFieldJoins(Bits(lo), Bits(hi));
    OctetRoundTrip(lo);
    OctetRoundTrip(hi);
  }

  /** A frame on the wire, octet by octet; the CRC is that of everything before it, low octet first. */
  lemma EncodedLayout(f: Frame)
    ensures var s, n := Encode(f), |f.payload|;
            && |s| == n + 13 && s[11..n + 11] == f.payload
            && s[0] == 0x4D && s[1] == 0x58 && s[2] == f.version
            && s[3] == (match f.frameType case Request => 1 case Response => 2 case Event => 3)
            && s[4] == f.flags && s[5] as int + 0x100 * s[6] as int == f.sequence
            && s[7] == f.opcode && s[8] == f.status && s[9] as int + 0x100 * s[10] as int == n
            && var crc := Fold16(CRC16_START, s[..n + 11]);
               Bits(s[n + 11]) == (crc & 0xFF) as bv8 && Bits(s[n + 12]) == (crc >> 8) as bv8
  {
    hide Fold16, Bits, FromBits;
    var s, n := Encode(f), |f.payload|;
    var crc := Fold16(CRC16_START, Body(f));
    assert s[..n + 11] == Body(f) && Body(f)[11..] == f.payload;
    assert s[11..n + 11] == f.payload;
    BitsRoundTrip((crc & 0xFF) as bv8);
    BitsRoundTrip((crc >> 8) as bv8);
    Le16RoundTrip(f.sequence);
    Le16RoundTrip(n);
  }

  lemma HeaderRoundTrip(f: Frame, rest: seq<Byte>, maxPayload: nat)
    requires |f.payload| <= maxPayload
    ensures DecodeHeader(EncodeHeader(f) + rest, f.version, maxPayload)
         == Ok(Header(f.version, f.frameType, f.flags, f.sequence, f.opcode, f.status, |f.payload|))
  {
    var data := EncodeHeader(f) + rest;
    assert data[..2] == MAGIC;
    Le16RoundTrip(f.sequence);
    Le16RoundTrip(|f.payload|);
    assert data[5..7] == Le16(f.sequence) && data[9..11] == Le16(|f.payload|);
  }

  /** Decoding an encoded frame gives the frame back. */
  lemma DecodeAfterEncode(f: Frame, maxPayload: nat)
    requires |f.payload| <= maxPayload
    ensures Decode(Encode(f), f.version, maxPayload) == Ok(f)
  {
    hide Fold16, CrcField, CrcFromField;
    var crc := Fold16(CRC16_START, Body(f));
    var raw := Encode(f);
    assert raw == EncodeHeader(f) + (f.payload + CrcField(crc));
    HeaderRoundTrip(f, f.payload + CrcField(crc), maxPayload);
    assert raw[..|raw| - 2] == Body(f);
    assert raw[|raw| - 2..] == CrcField(crc);
    CrcFieldRoundTrip(crc);
    assert Body(f)[HEADER_SIZE..] == f.payload;
  }

  /** Whatever decodes is the one encoding of its frame: the wire form is canonical. */
  lemma EncodeAfterDecode(raw: seq<Byte>, version: Byte, maxPayload: nat)
    requires maxPayload <= MAX_WIRE_PAYLOAD
    requires Decode(raw, version, maxPayload).Ok?
    ensures var f := Decode(raw, version, maxPayload).value;
            Encode(f) == raw && f.version == version && |f.payload| <= maxPayload
  {
    hide Fold16, CrcField, CrcFromField;
    var f := Decode(raw, version, maxPayload).value;
    var n := |raw|;
    assert raw[..n - 2][HEADER_SIZE..] == raw[HEADER_SIZE..n - 2];
    assert |f.payload| == n - 2 - HEADER_SIZE == WordAt(raw, 9);
    WordRoundTrip(raw[5], raw[6]);
    WordRoundTrip(raw[9], raw[10]);
    assert raw[..2] == MAGIC && raw[0] == 0x4D && raw[1] == 0x58;
    assert EncodeHeader(f) == raw[..HEADER_SIZE];
    assert Body(f) == raw[..n - 2];
    CrcFieldReadBack(raw[n - 2], raw[n - 1]);
    assert raw == raw[..n - 2] + [raw[n - 2], raw[n - 1]];
  }

  /** The decoder accepts exactly the encodings of frames within the limit. */
  lemma DecodeAcceptsExactly(raw: seq<Byte>, version: Byte, maxPayload: nat)
    requires maxPayload <= MAX_WIRE_PAYLOAD
    ensures Decode(raw, version, maxPayload).Ok?
       <==> exists f: Frame :: f.version == version && |f.payload| <= maxPayload && Encode(f) == raw
  {
    if Decode(raw, version, maxPayload).Ok? {
      EncodeAfterDecode(raw, version, maxPayload);
      var f := Decode(raw, version, maxPayload).value;
      assert f.version == version && |f.payload| <= maxPayload && Encode(f) == raw;
    }
    if f: Frame :| f.version == version && |f.payload| <= maxPayload && Encode(f) == raw {
      DecodeAfterEncode(f, maxPayload);
    }
  }

  /** Two frames of one size never differ in exactly one wire byte. */
  lemma EncodingsDifferTwice(f: Frame, g: Frame, at: nat, b: Byte)
    requires at < |Encode(f)| && b != Encode(f)[at]
    ensures Encode(g) != Encode(f)[at := b]
  {
    hide Fold16, CrcField;
    var bodyF, bodyG := Body(f), Body(g);
    var crcF, crcG := Fold16(CRC16_START, bodyF), Fold16(CRC16_START, bodyG);
    if Encode(g) == Encode(f)[at := b] {
      var n := |bodyF|;
      assert Encode(g)[..n] == bodyG && Encode(g)[n..] == CrcField(crcG);
      assert Encode(f)[n..] == CrcField(crcF);
      if at < n {
        assert bodyG == bodyF[at := b];
        OneByteChangesCrc16(CRC16_START, bodyF, at, b);
        assert Encode(g)[n..] == Encode(f)[n..];
        CrcFieldRoundTrip(crcF);
        CrcFieldRoundTrip(crcG);
      }
    }
  }

  /** Changing any one byte of any encoded frame makes the decoder reject it. */
  lemma OneByteErrorRejected(f: Frame, at: nat, b: Byte, version: Byte, maxPayload: nat)
    requires maxPayload <= MAX_WIRE_PAYLOAD
    requires at < |Encode(f)| && b != Encode(f)[at]
    ensures Decode(Encode(f)[at := b], version, maxPayload).Err?
  {
    var raw := Encode(f)[at := b];
    if Decode(raw, version, maxPayload).Ok? {
      EncodeAfterDecode(raw, version, maxPayload);
      EncodingsDifferTwice(f, Decode(raw, version, maxPayload).value, at, b);
    }
  }
}
