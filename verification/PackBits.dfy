/**
 * Deterministic PackBits, the wire representation of a compressed PUT.
 *
 * The format is the one of section 9 of TIFF Revision 6.0.  The encoder carries at most one
 * literal and one run across reads.  `Packed` is its result as a function of the source
 * alone; the streaming writer, whatever its chunk size, computes exactly that.
 */
module PackBits {
  import opened Octets
  import opened Bytes
  import opened Crc

  function Repeat(b: Byte, n: nat): (s: seq<Byte>)
    ensures |s| == n
  {
    seq(n, _ => b)
  }

  // ------------------------------------------------------------ the format

  /**
   * The decoder.  A strict one, like the foreground helper's, also refuses the reserved
   * control 80h and the two-byte run FFh; the standard one skips the former.
   */
  function Decode(wire: seq<Byte>, strict: bool): Option<seq<Byte>>
    decreases |wire|
  {
    if wire == [] then Some([])
    else
      var c := wire[0];
      if strict && (c == 0x80 || c == 0xFF) then None
      else if c == 0x80 then Decode(wire[1..], strict)
      else if c < 0x80 then
        if |wire| < c + 2 then None
        else Prepend(wire[1..c + 2], Decode(wire[c + 2..], strict))
      else
        if |wire| < 2 then None
        else Prepend(Repeat(wire[1], 257 - c), Decode(wire[2..], strict))
  }

  function Prepend(head: seq<Byte>, rest: Option<seq<Byte>>): Option<seq<Byte>> {
    match rest
    case None => None
    case Some(tail) => Some(head + tail)
  }

  function LiteralPacket(data: seq<Byte>): seq<Byte>
    requires 1 <= |data| <= 128
  {
    [|data| - 1] + data
  }

  function RunPacket(b: Byte, n: nat): seq<Byte>
    requires 3 <= n <= 128
  {
    [257 - n, b]
  }

  lemma PrependTwice(x: seq<Byte>, y: seq<Byte>, rest: Option<seq<Byte>>)
    ensures Prepend(x, Prepend(y, rest)) == Prepend(x + y, rest)
  {
    if rest.Some? {
      assert x + (y + rest.value) == (x + y) + rest.value;
    }
  }

  /** A whole packet in front of a stream is decoded in front of what the stream decodes to. */
  lemma DecodeLiteralFirst(wire: seq<Byte>, rest: seq<Byte>, strict: bool)
    requires wire != [] && wire[0] < 0x80 && |wire| == wire[0] + 2
    ensures Decode(wire + rest, strict) == Prepend(wire[1..], Decode(rest, strict))
  {
    var whole := wire + rest;
    assert whole[0] == wire[0] && whole[1..|wire|] == wire[1..] && whole[|wire|..] == rest;
  }

  lemma DecodeRunFirst(wire: seq<Byte>, rest: seq<Byte>, strict: bool)
    requires |wire| == 2 && wire[0] > 0x80 && !(strict && wire[0] == 0xFF)
    ensures Decode(wire + rest, strict) == Prepend(Repeat(wire[1], 257 - wire[0]), Decode(rest, strict))
  {
    var whole := wire + rest;
    assert whole[0] == wire[0] && whole[1] == wire[1] && whole[2..] == rest;
  }

  /** What is decoded from a prefix that ends at a packet boundary stays decoded. */
  lemma {:induction false} DecodeConcat(a: seq<Byte>, b: seq<Byte>, strict: bool)
    requires Decode(a, strict).Some?
    ensures Decode(a + b, strict) == Prepend(Decode(a, strict).value, Decode(b, strict))
    decreases |a|
  {
    if a == [] {
      assert a + b == b;
      if Decode(b, strict).Some? {
        assert [] + Decode(b, strict).value == Decode(b, strict).value;
      }
    } else if a[0] == 0x80 {
      assert (a + b)[1..] == a[1..] + b;
      DecodeConcat(a[1..], b, strict);
    } else {
      var size := if a[0] < 0x80 then a[0] + 2 else 2;
      var packet, rest := a[..size], a[size..];
      assert a == packet + rest && a + b == packet + (rest + b);
      DecodeConcat(rest, b, strict);
      if a[0] < 0x80 {
        DecodeLiteralFirst(packet, rest, strict);
        DecodeLiteralFirst(packet, rest + b, strict);
        PrependTwice(packet[1..], Decode(rest, strict).value, Decode(b, strict));
      } else {
        DecodeRunFirst(packet, rest, strict);
        DecodeRunFirst(packet, rest + b, strict);
        PrependTwice(Repeat(packet[1], 257 - packet[0]), Decode(rest, strict).value, Decode(b, strict));
      }
    }
  }

  lemma DecodeLiteral(data: seq<Byte>, strict: bool)
    requires 1 <= |data| <= 128
    ensures Decode(LiteralPacket(data), strict) == Some(data)
  {
    var w := LiteralPacket(data);
    assert w[1..w[0] + 2] == data && w[w[0] + 2..] == [] && data + [] == data;
  }

  lemma DecodeRun(b: Byte, n: nat, strict: bool)
    requires 3 <= n <= 128
    ensures Decode(RunPacket(b, n), strict) == Some(Repeat(b, n))
  {
    var w := RunPacket(b, n);
    assert w[2..] == [] && Repeat(b, n) + [] == Repeat(b, n);
  }

  /** A stream the strict decoder accepts means the same to the standard decoder. */
  lemma {:induction false} StrictIsStandard(wire: seq<Byte>)
    requires Decode(wire, true).Some?
    ensures Decode(wire, false) == Decode(wire, true)
    decreases |wire|
  {
    if wire != [] {
      StrictIsStandard(wire[if wire[0] < 0x80 then wire[0] + 2 else 2..]);
    }
  }

  // ------------------------------------------------------------ the encoder as a function

  datatype State = State(wire: seq<Byte>, literal: seq<Byte>, runByte: Byte, runLength: nat)

  const START: State := State([], [], 0, 0)

  /** Writes out literals, full packets only unless `final`. */
  function Flush(s: State, final: bool): State
    decreases |s.literal|
  {
    if |s.literal| >= 128 || (final && s.literal != []) then
      var count := if |s.literal| < 128 then |s.literal| else 128;
      Flush(s.(wire := s.wire + LiteralPacket(s.literal[..count]), literal := s.literal[count..]), final)
    else s
  }

  /** Ends the current run: as a run packet when it pays, otherwise as literals. */
  function Settle(s: State): State
    requires s.runLength <= 128
  {
    if s.runLength >= 3 then
      var f := Flush(s, true);
      f.(wire := f.wire + RunPacket(s.runByte, s.runLength), runByte := 0, runLength := 0)
    else if s.runLength > 0 then
      Flush(s.(literal := s.literal + Repeat(s.runByte, s.runLength)), false).(runByte := 0, runLength := 0)
    else s.(runByte := 0)
  }

  function Push(s: State, b: Byte): State
    requires s.runLength <= 128
  {
    if s.runLength > 0 && b == s.runByte && s.runLength < 128 then s.(runLength := s.runLength + 1)
    else Settle(s).(runByte := b, runLength := 1)
  }

  function PushAll(s: State, data: seq<Byte>): State
    requires s.runLength <= 128
    decreases |data|
  {
    if data == [] then s
    else
      SettleClears(s);
      PushAll(Push(s, data[0]), data[1..])
  }

  function Finish(s: State): State
    requires s.runLength <= 128
  {
    Flush(Settle(s), true)
  }

  /** The compressed form of a source. */
  function Packed(source: seq<Byte>): seq<Byte> {
    PushAllKeepsRun(START, source);
    Finish(PushAll(START, source)).wire
  }

  lemma {:induction false} FlushFacts(s: State, final: bool)
    ensures var f := Flush(s, final);
            && s.wire <= f.wire
            && f.runByte == s.runByte && f.runLength == s.runLength
            && |f.literal| < 128
            && (final ==> f.literal == [])
            && (|s.literal| < 128 && !final ==> f == s)
    decreases |s.literal|
  {
    if |s.literal| >= 128 || (final && s.literal != []) {
      var count := if |s.literal| < 128 then |s.literal| else 128;
      FlushFacts(
        s.(wire := s.wire + LiteralPacket(s.literal[..count]), literal := s.literal[count..]), final);
    }
  }

  lemma SettleClears(s: State)
    requires s.runLength <= 128
    ensures Settle(s).runLength == 0 && s.wire <= Settle(s).wire
    ensures |s.literal| < 128 ==> |Settle(s).literal| < 128
    ensures Push(s, 0).runLength <= 128
  {
    FlushFacts(s, true);
    FlushFacts(s.(literal := s.literal + Repeat(s.runByte, s.runLength)), false);
  }

  lemma PushFacts(s: State, b: Byte)
    requires s.runLength <= 128
    ensures 1 <= Push(s, b).runLength <= 128 && s.wire <= Push(s, b).wire
  {
    SettleClears(s);
  }

  lemma {:induction false} PushAllKeepsRun(s: State, data: seq<Byte>)
    requires s.runLength <= 128
    ensures PushAll(s, data).runLength <= 128 && s.wire <= PushAll(s, data).wire
    decreases |data|
  {
    if data != [] {
      PushFacts(s, data[0]);
      PushAllKeepsRun(Push(s, data[0]), data[1..]);
    }
  }

  lemma {:induction false} PushAllConcat(s: State, a: seq<Byte>, b: seq<Byte>)
    requires s.runLength <= 128
    ensures PushAll(s, a).runLength <= 128
    ensures PushAll(s, a + b) == PushAll(PushAll(s, a), b)
    decreases |a|
  {
    PushAllKeepsRun(s, a);
    if a == [] {
      assert a + b == b;
    } else {
      assert (a + b)[0] == a[0] && (a + b)[1..] == a[1..] + b;
      PushFacts(s, a[0]);
      PushAllConcat(Push(s, a[0]), a[1..], b);
    }
  }

  // ------------------------------------------------------------ what the encoder keeps

  /**
   * The wire so far decodes to `done`; what is still carried is the rest of the consumed
   * bytes; and the wire has paid for at most one extra byte per 128.
   */
  ghost predicate Faithful(s: State, done: seq<Byte>, consumed: seq<Byte>) {
    && s.runLength <= 128
    && Decode(s.wire, true) == Some(done)
    && done + s.literal + Repeat(s.runByte, s.runLength) == consumed
    && |s.wire| <= |done| + |done| / 128
  }

  /** The three bounds at stake when a packet of `count` literal bytes costs `count + 1` on the wire. */
  lemma PacketCost(wire: nat, done: nat, count: nat)
    requires wire <= done + done / 128 && 0 < count <= 128
    ensures wire <= done + (done + 127) / 128
    ensures count == 128 ==> wire + count + 1 <= done + count + (done + count) / 128
    ensures wire + count + 1 <= done + count + (done + count) / 128 + 1
    ensures wire + count + 1 <= done + count + (done + count + 127) / 128
  {
  }

  /** Literals written out, with one spare byte granted for a short last packet. */
  lemma {:induction false} FlushIsFaithful(s: State, final: bool, done: seq<Byte>) returns (done': seq<Byte>)
    requires Decode(s.wire, true) == Some(done)
    requires |s.wire| <= |done| + |done| / 128
    ensures var f := Flush(s, final);
            && Decode(f.wire, true) == Some(done')
            && done' + f.literal == done + s.literal
            && (!final ==> |f.wire| <= |done'| + |done'| / 128)
            && |f.wire| <= |done'| + |done'| / 128 + 1
            && |f.wire| <= |done'| + (|done'| + 127) / 128
    decreases |s.literal|
  {
    hide Decode;
    done' := done;
    PacketCost(|s.wire|, |done|, if 0 < |s.literal| < 128 then |s.literal| else 128);
    if |s.literal| >= 128 || (final && s.literal != []) {
      var count := if |s.literal| < 128 then |s.literal| else 128;
      var packet := LiteralPacket(s.literal[..count]);
      var next := s.(wire := s.wire + packet, literal := s.literal[count..]);
      DecodeConcat(s.wire, packet, true);
      DecodeLiteral(s.literal[..count], true);
      var longer := done + s.literal[..count];
      assert longer + next.literal == done + s.literal;
      assert |packet| == count + 1 && |longer| == |done| + count;
      if count == 128 {
        done' := FlushIsFaithful(next, final, longer);
      } else {
        assert next.literal == [] && Flush(next, final) == next;
        done' := longer;
      }
    }
  }

  /** A run packet saves the byte that a short literal packet before it may have cost. */
  lemma RunIsFaithful(s: State, done: seq<Byte>, consumed: seq<Byte>) returns (done': seq<Byte>)
    requires Faithful(s, done, consumed) && s.runLength >= 3
    ensures Faithful(Settle(s), done', consumed)
  {
    hide Decode, Flush;
    var f := Flush(s, true);
    var run := RunPacket(s.runByte, s.runLength);
    FlushFacts(s, true);
    var flushed := FlushIsFaithful(s, true, done);
    DecodeConcat(f.wire, run, true);
    DecodeRun(s.runByte, s.runLength, true);
    done' := flushed + Repeat(s.runByte, s.runLength);
    assert flushed == done + s.literal by {
      assert flushed + f.literal == flushed;
    }
    assert done' + [] + Repeat(0, 0) == done';
  }

  lemma SettleIsFaithful(s: State, done: seq<Byte>, consumed: seq<Byte>) returns (done': seq<Byte>)
    requires Faithful(s, done, consumed)
    ensures Faithful(Settle(s), done', consumed) && Settle(s).runLength == 0
  {
    hide Decode, Flush;
    SettleClears(s);
    if s.runLength >= 3 {
      done' := RunIsFaithful(s, done, consumed);
    } else if s.runLength > 0 {
      var longer := s.(literal := s.literal + Repeat(s.runByte, s.runLength));
      done' := FlushIsFaithful(longer, false, done);
      assert done + longer.literal == consumed;
      assert done' + Settle(s).literal + Repeat(0, 0) == done' + Settle(s).literal;
    } else {
      done' := done;
      assert Repeat(0, 0) == Repeat(s.runByte, 0);
    }
  }

  lemma PushIsFaithful(s: State, b: Byte, done: seq<Byte>, consumed: seq<Byte>) returns (done': seq<Byte>)
    requires Faithful(s, done, consumed)
    ensures Faithful(Push(s, b), done', consumed + [b])
  {
    if s.runLength > 0 && b == s.runByte && s.runLength < 128 {
      done' := done;
      assert Repeat(b, s.runLength + 1) == Repeat(b, s.runLength) + [b];
    } else {
      done' := SettleIsFaithful(s, done, consumed);
      assert Repeat(b, 1) == [b];
    }
  }

  lemma {:induction false} PushAllIsFaithful(s: State, data: seq<Byte>, done: seq<Byte>, consumed: seq<Byte>)
    returns (done': seq<Byte>)
    requires Faithful(s, done, consumed)
    ensures Faithful(PushAll(s, data), done', consumed + data)
    decreases |data|
  {
    if data == [] {
      done' := done;
      assert consumed + data == consumed;
    } else {
      var next := PushIsFaithful(s, data[0], done, consumed);
      done' := PushAllIsFaithful(Push(s, data[0]), data[1..], next, consumed + [data[0]]);
      assert consumed + [data[0]] + data[1..] == consumed + data;
    }
  }

  /**
   * Compression loses nothing, keeps to the controls the helper accepts, and never costs
   * more than one byte per started block of 128.
   */
  lemma PackedIsFaithful(source: seq<Byte>)
    ensures Decode(Packed(source), true) == Some(source)
    ensures Decode(Packed(source), false) == Some(source)
    ensures |Packed(source)| <= |source| + (|source| + 127) / 128
  {
    assert Faithful(START, [], []);
    var carried := PushAllIsFaithful(START, source, [], []);
    assert [] + source == source;
    PushAllKeepsRun(START, source);
    var settled := SettleIsFaithful(PushAll(START, source), carried, source);
    var s := Settle(PushAll(START, source));
    var done := FlushIsFaithful(s, true, settled);
    FlushFacts(s, true);
    assert settled + s.literal + Repeat(s.runByte, s.runLength) == settled + s.literal;
    assert Flush(s, true).literal == [] && done + [] == done;
    assert done == source;
    StrictIsStandard(Packed(source));
  }

  // ------------------------------------------------------------ no octet is wasted

  /** How a packet stream ends so far; a full packet is one of 128 bytes. */
  datatype End = Nothing | AfterLiteral(last: Byte, full: bool) | AfterRun(repeated: Byte, full: bool)

  predicate NoTriple(data: seq<Byte>) {
    forall i | 0 <= i < |data| - 2 :: !(data[i] == data[i + 1] == data[i + 2])
  }

  /** Literals go into one packet as long as there is room, and a run is not cut short. */
  predicate MayFollow(e: End, first: Byte, isRun: bool) {
    match e
    case Nothing => true
    case AfterLiteral(last, full) => if isRun then last != first else full
    case AfterRun(repeated, full) => full || repeated != first
  }

  /** Three equal bytes are never literals, and every run is as long as it can be. */
  predicate Economical(wire: seq<Byte>, e: End)
    decreases |wire|
  {
    if wire == [] then true
    else if |wire| < 2 then false
    else
      var c := wire[0];
      && MayFollow(e, wire[1], c >= 0x80)
      && if c < 0x80 then
           c + 2 <= |wire| && NoTriple(wire[1..c + 2])
           && Economical(wire[c + 2..], AfterLiteral(wire[c + 1], c == 127))
         else 0x81 <= c <= 0xFE && Economical(wire[2..], AfterRun(wire[1], c == 0x81))
  }

  function EndOf(wire: seq<Byte>, e: End): End
    requires Economical(wire, e)
    decreases |wire|
  {
    if wire == [] then e
    else if wire[0] < 0x80 then EndOf(wire[wire[0] + 2..], AfterLiteral(wire[wire[0] + 1], wire[0] == 127))
    else EndOf(wire[2..], AfterRun(wire[1], wire[0] == 0x81))
  }

  function PacketSize(control: Byte): nat {
    if control < 0x80 then control + 2 else 2
  }

  /** The end of a stream that is one packet. */
  function Closing(packet: seq<Byte>): End
    requires packet != [] && |packet| == PacketSize(packet[0])
  {
    if packet[0] < 0x80 then AfterLiteral(packet[|packet| - 1], packet[0] == 127)
    else AfterRun(packet[1], packet[0] == 0x81)
  }

  predicate PacketFits(packet: seq<Byte>, e: End)
    requires packet != [] && |packet| == PacketSize(packet[0])
  {
    && MayFollow(e, packet[1], packet[0] >= 0x80)
    && if packet[0] < 0x80 then NoTriple(packet[1..]) else 0x81 <= packet[0] <= 0xFE
  }

  lemma PacketFirst(packet: seq<Byte>, rest: seq<Byte>, e: End)
    requires packet != [] && |packet| == PacketSize(packet[0])
    ensures Economical(packet + rest, e) <==> PacketFits(packet, e) && Economical(rest, Closing(packet))
    ensures Economical(packet + rest, e) ==> EndOf(packet + rest, e) == EndOf(rest, Closing(packet))
  {
    hide NoTriple, MayFollow;
    var whole := packet + rest;
    assert whole[1..|packet|] == packet[1..] && whole[|packet|..] == rest;
  }

  lemma {:induction false} EconomicalConcat(a: seq<Byte>, b: seq<Byte>, e: End)
    requires Economical(a, e) && Economical(b, EndOf(a, e))
    ensures Economical(a + b, e) && EndOf(a + b, e) == EndOf(b, EndOf(a, e))
    decreases |a|
  {
    if a == [] {
      assert a + b == b;
    } else {
      var size := PacketSize(a[0]);
      assert |a| >= size;
      hide Economical, EndOf;
      var packet, rest := a[..size], a[size..];
      assert a == packet + rest && a + b == packet + (rest + b);
      PacketFirst(packet, rest, e);
      PacketFirst(packet, rest + b, e);
      EconomicalConcat(rest, b, Closing(packet));
    }
  }

  lemma NothingWritten()
    ensures Economical([], Nothing) && EndOf([], Nothing) == Nothing
  {
  }

  lemma LiteralIsEconomical(data: seq<Byte>, e: End)
    requires 1 <= |data| <= 128 && NoTriple(data) && MayFollow(e, data[0], false)
    ensures Economical(LiteralPacket(data), e)
    ensures EndOf(LiteralPacket(data), e) == AfterLiteral(data[|data| - 1], |data| == 128)
  {
    var wire := LiteralPacket(data);
    assert wire[1..wire[0] + 2] == data && wire[wire[0] + 2..] == [];
  }

  lemma RunIsEconomical(b: Byte, n: nat, e: End)
    requires 3 <= n <= 128 && MayFollow(e, b, true)
    ensures Economical(RunPacket(b, n), e) && EndOf(RunPacket(b, n), e) == AfterRun(b, n == 128)
  {
    assert RunPacket(b, n)[2..] == [];
  }

  /** The wire so far is economical, and stays so when what is carried is written out. */
  ghost predicate Tidy(s: State) {
    && s.runLength <= 128 && |s.literal| < 128 && NoTriple(s.literal) && Economical(s.wire, Nothing)
    && var e := EndOf(s.wire, Nothing);
       && (e.AfterLiteral? ==> e.full)
       && (s.literal != [] ==> MayFollow(e, s.literal[0], false))
       && (s.runLength > 0 ==> NextMay(s, s.runByte))
  }

  /** A run of this byte may come next. */
  predicate NextMay(s: State, b: Byte)
    requires Economical(s.wire, Nothing)
  {
    if s.literal == [] then MayFollow(EndOf(s.wire, Nothing), b, true) else s.literal[|s.literal| - 1] != b
  }

  /** Short runs become literals. */
  lemma ShortRunIsTidy(s: State)
    requires Tidy(s) && 0 < s.runLength < 3
    ensures Tidy(Settle(s)) && forall b | b != s.runByte :: NextMay(Settle(s), b)
  {
    hide Economical, EndOf;
    var literal := s.literal + Repeat(s.runByte, s.runLength);
    assert NoTriple(literal);
    var longer := s.(literal := literal);
    if |literal| >= 128 {
      var packet := literal[..128];
      var next := longer.(wire := s.wire + LiteralPacket(packet), literal := literal[128..]);
      LiteralIsEconomical(packet, EndOf(s.wire, Nothing));
      EconomicalConcat(s.wire, LiteralPacket(packet), Nothing);
      assert Flush(longer, false) == Flush(next, false) == next;
    } else {
      assert Flush(longer, false) == longer;
    }
  }

  /** Literals go out before a run or at the end. */
  lemma FlushIsTidy(s: State)
    requires Tidy(s)
    ensures var f := Flush(s, true);
            && f.literal == [] && f.runByte == s.runByte && f.runLength == s.runLength
            && Economical(f.wire, Nothing)
            && (s.runLength > 0 ==> MayFollow(EndOf(f.wire, Nothing), s.runByte, true))
  {
    hide Economical, EndOf;
    if s.literal != [] {
      var next := s.(wire := s.wire + LiteralPacket(s.literal), literal := []);
      assert s.literal[..|s.literal|] == s.literal && s.literal[|s.literal|..] == [];
      LiteralIsEconomical(s.literal, EndOf(s.wire, Nothing));
      EconomicalConcat(s.wire, LiteralPacket(s.literal), Nothing);
      assert Flush(s, true) == Flush(next, true) == next;
    }
  }

  lemma LongRunIsTidy(s: State)
    requires Tidy(s) && s.runLength >= 3
    ensures Tidy(Settle(s)) && forall b | b != s.runByte || s.runLength == 128 :: NextMay(Settle(s), b)
  {
    hide Economical, EndOf, Flush;
    FlushIsTidy(s);
    var f := Flush(s, true);
    RunIsEconomical(s.runByte, s.runLength, EndOf(f.wire, Nothing));
    EconomicalConcat(f.wire, RunPacket(s.runByte, s.runLength), Nothing);
  }

  lemma PushIsTidy(s: State, b: Byte)
    requires Tidy(s) && (s.runLength > 0 || s == START)
    ensures Tidy(Push(s, b)) && Push(s, b).runLength > 0
  {
    hide Economical, EndOf, Flush, NoTriple;
    SettleClears(s);
    NothingWritten();
    if s == START {
      assert Settle(s) == START;
      assert NextMay(START, b);
    } else if s.runLength >= 3 {
      LongRunIsTidy(s);
    } else {
      ShortRunIsTidy(s);
    }
    if s.runLength > 0 && b == s.runByte && s.runLength < 128 {
      assert Tidy(s.(runLength := s.runLength + 1));
    } else {
      assert NextMay(Settle(s), b);
    }
  }

  lemma {:induction false} PushAllIsTidy(s: State, data: seq<Byte>)
    requires Tidy(s) && (s.runLength > 0 || s == START)
    ensures Tidy(PushAll(s, data))
    decreases |data|
  {
    hide Push, Tidy;
    TidyRun(s);
    if data != [] {
      PushIsTidy(s, data[0]);
      PushAllIsTidy(Push(s, data[0]), data[1..]);
    }
  }

  lemma TidyRun(s: State)
    requires Tidy(s)
    ensures s.runLength <= 128
  {
  }

  /** Three equal bytes in a row are a run, as long as the byte repeats and 128 at the most. */
  lemma PackedIsEconomical(source: seq<Byte>)
    ensures Economical(Packed(source), Nothing)
  {
    hide Economical, EndOf, Flush;
    NothingWritten();
    PushAllIsTidy(START, source);
    var s := PushAll(START, source);
    if s.runLength >= 3 {
      LongRunIsTidy(s);
    } else if s.runLength > 0 {
      ShortRunIsTidy(s);
    }
    SettleClears(s);
    FlushIsTidy(Settle(s));
  }

  // ------------------------------------------------------------ the streaming writer

  datatype Digest = Digest(size: nat, crc32: bv32)

  datatype Outcome =
    | Staged(wire: seq<Byte>, finalDigest: Digest, wireDigest: Digest)
    | SourceTooLarge
    | WireTooLarge

  class Writer {
    const maxSize: nat
    var output: seq<Byte>
    var wireSize: nat
    var wireCrc: bv32
    var literal: seq<Byte>
    var runByte: Byte
    var runLength: nat

    /** The counters describe the bytes written, and the limit has been respected. */
    ghost predicate Valid()
      reads this
    {
      && wireSize == |output| <= maxSize
      && wireCrc == Crc32(output)
      && runLength <= 128
    }

    ghost function Abs(): State
      reads this
    {
      State(output, literal, runByte, runLength)
    }

    constructor (maxSize: nat)
      ensures Valid() && Abs() == START && this.maxSize == maxSize
    {
      this.maxSize := maxSize;
      output, wireSize, wireCrc := [], 0, 0;
      literal, runByte, runLength := [], 0, 0;
      new;
      Crc32Empty();
    }

    /** Appends one packet unless it would pass the limit. */
    method Emit(packet: seq<Byte>) returns (ok: bool)
      requires Valid()
      modifies this`output, this`wireSize, this`wireCrc
      ensures Valid()
      ensures ok <==> |old(output)| + |packet| <= maxSize
      ensures ok ==> output == old(output) + packet
    {
      hide Crc32, Crc32Update;
      if |packet| > maxSize - wireSize {
        return false;
      }
      Crc32Rolls(output, packet);
      output := output + packet;
      wireSize := wireSize + |packet|;
      wireCrc := Crc32Update(packet, wireCrc);
      return true;
    }

    method FlushLiterals(final: bool) returns (ok: bool)
      requires Valid()
      modifies this
      ensures Valid()
      ensures ok ==> Abs() == Flush(old(Abs()), final)
      ensures !ok ==> |Flush(old(Abs()), final).wire| > maxSize
    {
      hide Crc32;
      ghost var target := Flush(Abs(), final);
      while |literal| >= 128 || (final && literal != [])
        invariant Valid() && Flush(Abs(), final) == target
        decreases |literal|
      {
        var count := if |literal| < 128 then |literal| else 128;
        var packet := LiteralPacket(literal[..count]);
        ghost var before := Abs();
        FlushFacts(before.(wire := before.wire + packet, literal := before.literal[count..]), final);
        literal := literal[count..];
        var sent := Emit(packet);
        if !sent {
          return false;
        }
      }
      return true;
    }

    method SettleRun() returns (ok: bool)
      requires Valid()
      modifies this
      ensures Valid()
      ensures ok ==> Abs() == Settle(old(Abs()))
      ensures !ok ==> |Settle(old(Abs())).wire| > maxSize
    {
      hide Crc32;
      ghost var before := Abs();
      FlushFacts(before, true);
      if runLength >= 3 {
        ok := FlushLiterals(true);
        if !ok {
          return;
        }
        ok := Emit(RunPacket(runByte, runLength));
        if !ok {
          return;
        }
      } else if runLength > 0 {
        literal := literal + Repeat(runByte, runLength);
        ok := FlushLiterals(false);
        if !ok {
          return;
        }
      }
      runByte, runLength := 0, 0;
      return true;
    }

    method Accept(value: Byte) returns (ok: bool)
      requires Valid()
      modifies this
      ensures Valid()
      ensures ok ==> Abs() == Push(old(Abs()), value)
      ensures !ok ==> |Push(old(Abs()), value).wire| > maxSize
    {
      hide Crc32;
      if runLength > 0 && value == runByte {
        if runLength == 128 {
          ok := SettleRun();
          if !ok {
            return;
          }
          runByte, runLength := value, 1;
        } else {
          runLength := runLength + 1;
        }
      } else {
        ok := SettleRun();
        if !ok {
          return;
        }
        runByte, runLength := value, 1;
      }
      return true;
    }

    method AcceptBlock(block: seq<Byte>) returns (ok: bool)
      requires Valid()
      modifies this
      ensures Valid()
      ensures ok ==> Abs() == PushAll(old(Abs()), block)
      ensures !ok ==> |PushAll(old(Abs()), block).wire| > maxSize
    {
      hide Crc32, Push;
      ghost var start := Abs();
      for index := 0 to |block|
        invariant Valid()
        invariant PushAll(Abs(), block[index..]) == PushAll(start, block)
      {
        assert block[index..][0] == block[index] && block[index..][1..] == block[index + 1..];
        PushFacts(Abs(), block[index]);
        PushAllKeepsRun(Push(Abs(), block[index]), block[index + 1..]);
        ok := Accept(block[index]);
        if !ok {
          return;
        }
      }
      return true;
    }

    method Close() returns (ok: bool)
      requires Valid()
      modifies this
      ensures Valid()
      ensures ok ==> output == Finish(old(Abs())).wire
      ensures !ok ==> |Finish(old(Abs())).wire| > maxSize
    {
      hide Crc32, Settle, Flush;
      SettleClears(Abs());
      FlushFacts(Settle(Abs()), true);
      ok := SettleRun();
      if ok {
        ok := FlushLiterals(true);
      }
    }
  }

  lemma NothingPushed()
    ensures PushAll(START, []) == START
  {
  }

  lemma PrefixOutgrows(source: seq<Byte>, k: nat, limit: nat)
    requires k <= |source|
    requires PushAll(START, source[..k]).runLength <= 128
    requires |PushAll(START, source[..k]).wire| > limit
    ensures |Packed(source)| > limit
  {
    PushAllConcat(START, source[..k], source[k..]);
    assert source[..k] + source[k..] == source;
    PushAllKeepsRun(PushAll(START, source[..k]), source[k..]);
    var s := PushAll(START, source);
    SettleClears(s);
    FlushFacts(Settle(s), true);
  }

  /**
   * Compresses a source read in blocks of at most `chunkSize`.  For a source within the
   * limit the outcome does not depend on the chunk size at all.
   */
  method DeterministicPackBits(source: seq<Byte>, chunkSize: nat, maxSize: nat) returns (r: Outcome)
    requires chunkSize > 0
    ensures |source| <= maxSize ==>
      r == if |Packed(source)| <= maxSize
           then Staged(Packed(source), Digest(|source|, Crc32(source)),
                       Digest(|Packed(source)|, Crc32(Packed(source))))
           else WireTooLarge
    ensures |source| > maxSize ==> r.SourceTooLarge? || r.WireTooLarge?
  {
    hide Crc32, Crc32Update, PushAll, Finish;
    var writer := new Writer(maxSize);
    var finalSize := 0;
    var finalCrc: bv32 := 0;
    Crc32Empty();
    assert source[..0] == [];
    NothingPushed();
    while true
      invariant fresh(writer) && writer.Valid() && writer.maxSize == maxSize
      invariant finalSize <= |source| && finalSize <= maxSize
      invariant finalCrc == Crc32(source[..finalSize])
      invariant writer.Abs() == PushAll(START, source[..finalSize])
      decreases |source| - finalSize
    {
      var remaining := maxSize - finalSize;
      var want := if chunkSize < remaining + 1 then chunkSize else remaining + 1;
      var next := if finalSize + want < |source| then finalSize + want else |source|;
      var block := source[finalSize..next];
      if block == [] {
        break;
      }
      if |block| > remaining {
        return SourceTooLarge;
      }
      Crc32Rolls(source[..finalSize], block);
      assert source[..finalSize] + block == source[..next];
      finalCrc := Crc32Update(block, finalCrc);
      PushAllConcat(START, source[..finalSize], block);
      PushAllConcat(START, source[..next], []);
      var ok := writer.AcceptBlock(block);
      if !ok {
        PrefixOutgrows(source, next, maxSize);
        return WireTooLarge;
      }
      finalSize := next;
    }
    assert source[..finalSize] == source;
    var ok := writer.Close();
    if !ok {
      return WireTooLarge;
    }
    return Staged(writer.output, Digest(finalSize, finalCrc), Digest(writer.wireSize, writer.wireCrc));
  }

  // ------------------------------------------------------------ choosing the representation

  datatype Encoding = Raw | Packbits

  datatype Mode = Auto | RawOnly | PackbitsOnly

  datatype Prepared = Prepared(encoding: Encoding, wire: seq<Byte>, finalDigest: Digest, wireDigest: Digest)

  /** What the target rebuilds from the wire bytes. */
  function Restore(encoding: Encoding, wire: seq<Byte>): Option<seq<Byte>> {
    match encoding
    case Raw => Some(wire)
    case Packbits => Decode(wire, true)
  }

  function RequiredSavings(size: nat): nat {
    var threePercent := (size * 3 + 99) / 100;
    if threePercent < 256 then 256 else threePercent
  }

  ghost predicate Describes(d: Digest, data: seq<Byte>) {
    d == Digest(|data|, Crc32(data))
  }

  method PrepareRaw(source: seq<Byte>, chunkSize: nat, maxSize: nat) returns (r: Option<Prepared>)
    requires chunkSize > 0
    ensures r == if |source| <= maxSize
                 then var d := Digest(|source|, Crc32(source)); Some(Prepared(Raw, source, d, d))
                 else None
  {
    hide Crc32;
    var digest := Crc32Stream(source, chunkSize, maxSize);
    if digest.None? {
      return None;
    }
    var d := Digest(digest.value.0, digest.value.1);
    return Some(Prepared(Raw, source, d, d));
  }

  /**
   * The wire bytes of a PUT.  They always restore the source, both digests describe their
   * bytes, and automatic mode compresses exactly when that saves enough.
   */
  method PreparePut(source: seq<Byte>, mode: Mode, alreadyCompressed: bool, chunkSize: nat, maxSize: nat)
    returns (r: Option<Prepared>)
    requires chunkSize > 0
    ensures r.Some? <==> |source| <= maxSize && (mode == PackbitsOnly ==> |Packed(source)| <= maxSize)
    ensures r.Some? ==> Restore(r.value.encoding, r.value.wire) == Some(source) && |r.value.wire| <= maxSize
    ensures r.Some? ==> Describes(r.value.finalDigest, source) && Describes(r.value.wireDigest, r.value.wire)
    ensures r.Some? ==> (r.value.encoding == Packbits <==>
      || mode == PackbitsOnly
      || (mode == Auto && !alreadyCompressed
          && |source| - |Packed(source)| >= RequiredSavings(|source|)))
  {
    hide Crc32, Packed, Decode;
    PackedIsFaithful(source);
    if mode == RawOnly || (mode == Auto && alreadyCompressed) {
      r := PrepareRaw(source, chunkSize, maxSize);
      return;
    }
    var packed := DeterministicPackBits(source, chunkSize, maxSize);
    match packed
    case SourceTooLarge => return None;
    case WireTooLarge =>
      if mode == PackbitsOnly {
        return None;
      }
      r := PrepareRaw(source, chunkSize, maxSize);
    case Staged(wire, finalDigest, wireDigest) =>
      var compressed := Prepared(Packbits, wire, finalDigest, wireDigest);
      if mode == PackbitsOnly || finalDigest.size - wireDigest.size >= RequiredSavings(finalDigest.size) {
        return Some(compressed);
      }
      return Some(Prepared(Raw, source, finalDigest, finalDigest));
  }
}
