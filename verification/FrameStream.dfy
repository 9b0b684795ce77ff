/**
 * The incremental frame parser.
 *
 * The specification looks at the head of a byte string and decides, from that string alone,
 * whether to wait, to drop one byte, or to take one whole frame.  The parser class, which
 * searches for the magic, discards garbage in blocks and keeps a residue across calls,
 * computes the same decisions whatever fragments the bytes arrive in.
 */
module FrameStream {
  import opened Octets
  import opened Bytes
  import Crc
  import opened FrameCodec

  /** What happened to the leading bytes of a stream. */
  datatype Item =
    | Junk(b: Byte)
    | Skipped(b: Byte, error: DecodeError)
    | Got(frame: Frame)
  {
    /** The stream bytes this item stands for. */
    function Spelling(): seq<Byte> {
      match this
      case Junk(b) => [b]
      case Skipped(b, _) => [b]
      case Got(f) => Encode(f)
    }
  }

  datatype Verdict = Wait | Take(item: Item, size: nat)

  datatype Scanned = Scanned(items: seq<Item>, rest: seq<Byte>)

  /** The parameters that stay fixed while a stream is read. */
  datatype Limits = Limits(version: Byte, maxPayload: Word)

  function Look(s: seq<Byte>, lim: Limits): (v: Verdict)
    ensures v.Take? ==> 1 <= v.size <= |s|
    ensures v.Take? && !v.item.Got? ==> v.size == 1
  {
    if s == [] then Wait
    else if s[0] != MAGIC[0] then Take(Junk(s[0]), 1)
    else if |s| == 1 then Wait
    else if s[1] != MAGIC[1] then Take(Junk(s[0]), 1)
    else if |s| < HEADER_SIZE then Wait
    else
      match DecodeHeader(s, lim.version, lim.maxPayload)
      case Err(e) => Take(Skipped(s[0], e), 1)
      case Ok(h) =>
        if |s| < FrameSize(h) then Wait
        else
          match Decode(s[..FrameSize(h)], lim.version, lim.maxPayload)
          case Err(e) => Take(Skipped(s[0], e), 1)
          case Ok(f) => Take(Got(f), FrameSize(h))
  }

  /** Everything decided about `s`, and the tail that has to wait for more bytes. */
  function Scan(s: seq<Byte>, lim: Limits): (r: Scanned)
    ensures |r.rest| <= |s|
    decreases |s|
  {
    match Look(s, lim)
    case Wait => Scanned([], s)
    case Take(item, n) =>
      var more := Scan(s[n..], lim);
      Scanned([item] + more.items, more.rest)
  }

  lemma ScanWaits(s: seq<Byte>, lim: Limits)
    requires Look(s, lim).Wait?
    ensures Scan(s, lim) == Scanned([], s)
  {
  }

  lemma NothingWaits(lim: Limits)
    ensures Look([], lim).Wait?
  {
  }

  lemma ScanTakes(s: seq<Byte>, lim: Limits)
    requires Look(s, lim).Take?
    ensures var v := Look(s, lim);
            var more := Scan(s[v.size..], lim);
            Scan(s, lim) == Scanned([v.item] + more.items, more.rest)
  {
  }

  function Frames(items: seq<Item>): seq<Frame> {
    if items == [] then []
    else (if items[0].Got? then [items[0].frame] else []) + Frames(items[1..])
  }

  function Spell(items: seq<Item>): seq<Byte> {
    if items == [] then [] else items[0].Spelling() + Spell(items[1..])
  }

  // ------------------------------------------------------------ reported errors

  datatype StreamError =
    | Garbage(data: seq<Byte>)
    | Malformed(error: DecodeError)

  /** The errors byte by byte, so that block boundaries of garbage do not matter. */
  function Complaints(errors: seq<StreamError>): seq<StreamError> {
    if errors == [] then []
    else
      (match errors[0]
       case Garbage(data) => seq(|data|, i requires 0 <= i < |data| => Garbage([data[i]]))
       case Malformed(e) => [Malformed(e)])
      + Complaints(errors[1..])
  }

  predicate NoEmptyBlocks(errors: seq<StreamError>) {
    forall e <- errors :: e != Garbage([])
  }

  function ItemComplaints(items: seq<Item>): seq<StreamError> {
    if items == [] then []
    else
      (match items[0]
       case Junk(b) => [Garbage([b])]
       case Skipped(_, e) => [Malformed(e)]
       case Got(_) => [])
      + ItemComplaints(items[1..])
  }

  lemma {:induction false} ComplaintsConcat(a: seq<StreamError>, b: seq<StreamError>)
    ensures Complaints(a + b) == Complaints(a) + Complaints(b)
  {
    if a == [] {
      assert a + b == b;
    } else {
      assert (a + b)[1..] == a[1..] + b;
      ComplaintsConcat(a[1..], b);
    }
  }

  /** One more report at the end of the errors since `e0`. */
  lemma Reported(errors: seq<StreamError>, e0: nat, e: StreamError)
    requires e0 <= |errors| && e != Garbage([]) && NoEmptyBlocks(errors[e0..])
    ensures Complaints((errors + [e])[e0..]) == Complaints(errors[e0..]) + Complaints([e])
    ensures NoEmptyBlocks((errors + [e])[e0..])
  {
    assert (errors + [e])[e0..] == errors[e0..] + [e];
    ComplaintsConcat(errors[e0..], [e]);
  }

  lemma {:induction false} FramesConcat(a: seq<Item>, b: seq<Item>)
    ensures Frames(a + b) == Frames(a) + Frames(b)
  {
    hide Encode;
    if a == [] {
      assert a + b == b;
    } else {
      assert (a + b)[0] == a[0] && (a + b)[1..] == a[1..] + b;
      FramesConcat(a[1..], b);
    }
  }

  lemma {:induction false} ItemsConcat(a: seq<Item>, b: seq<Item>)
    ensures Frames(a + b) == Frames(a) + Frames(b)
    ensures ItemComplaints(a + b) == ItemComplaints(a) + ItemComplaints(b)
  {
    hide Encode, Frames;
    FramesConcat(a, b);
    if a == [] {
      assert a + b == b;
    } else {
      assert (a + b)[0] == a[0] && (a + b)[1..] == a[1..] + b;
      ItemsConcat(a[1..], b);
    }
  }

  lemma SingleItem(item: Item)
    ensures Frames([item]) == if item.Got? then [item.frame] else []
    ensures ItemComplaints([item]) == match item
                                      case Junk(b) => [Garbage([b])]
                                      case Skipped(_, e) => [Malformed(e)]
                                      case Got(_) => []
    ensures item.Skipped? ==> Complaints([Malformed(item.error)]) == [Malformed(item.error)]
  {
  }

  // ------------------------------------------------------------ fragments do not matter

  /** A decision taken on a prefix is the decision taken on the whole. */
  lemma LookIsStable(a: seq<Byte>, b: seq<Byte>, lim: Limits)
    requires Look(a, lim).Take?
    ensures Look(a + b, lim) == Look(a, lim)
  {
    var s := a + b;
    assert s[0] == a[0];
    if |a| >= HEADER_SIZE {
      assert s[..2] == a[..2];
      assert DecodeHeader(s, lim.version, lim.maxPayload) == DecodeHeader(a, lim.version, lim.maxPayload);
      match DecodeHeader(a, lim.version, lim.maxPayload)
      case Err(_) =>
      case Ok(h) =>
        if |a| >= FrameSize(h) {
          assert s[..FrameSize(h)] == a[..FrameSize(h)];
        }
    }
  }

  /** Scanning `a + b` is scanning `a`, then the residue of `a` followed by `b`. */
  lemma {:induction false} ScanSplits(a: seq<Byte>, b: seq<Byte>, lim: Limits)
    ensures var first := Scan(a, lim);
            var second := Scan(first.rest + b, lim);
            Scan(a + b, lim) == Scanned(first.items + second.items, second.rest)
    decreases |a|
  {
    hide Look, Scan;
    match Look(a, lim)
    case Wait =>
      ScanWaits(a, lim);
      assert [] + Scan(a + b, lim).items == Scan(a + b, lim).items;
    case Take(item, n) =>
      LookIsStable(a, b, lim);
      ScanTakes(a, lim);
      ScanTakes(a + b, lim);
      assert (a + b)[n..] == a[n..] + b;
      ScanSplits(a[n..], b, lim);
      var rest := Scan(a[n..], lim);
      var second := Scan(rest.rest + b, lim);
      assert [item] + (rest.items + second.items) == ([item] + rest.items) + second.items;
  }

  function Join(chunks: seq<seq<Byte>>): seq<Byte> {
    if chunks == [] then [] else chunks[0] + Join(chunks[1..])
  }

  /** Feeding the chunks one after another, starting from `buffer`. */
  function ScanChunks(buffer: seq<Byte>, chunks: seq<seq<Byte>>, lim: Limits): Scanned
    decreases |chunks|
  {
    if chunks == [] then Scanned([], buffer)
    else
      var first := Scan(buffer + chunks[0], lim);
      var more := ScanChunks(first.rest, chunks[1..], lim);
      Scanned(first.items + more.items, more.rest)
  }

  /** Any fragmentation of a stream gives the items and the residue of the whole stream. */
  lemma {:induction false} FragmentsDoNotMatter(buffer: seq<Byte>, chunks: seq<seq<Byte>>, lim: Limits)
    requires Look(buffer, lim).Wait?
    ensures ScanChunks(buffer, chunks, lim) == Scan(buffer + Join(chunks), lim)
    decreases |chunks|
  {
    hide Look;
    if chunks == [] {
      assert buffer + Join(chunks) == buffer;
    } else {
      var first := Scan(buffer + chunks[0], lim);
      ResidueWaits(buffer + chunks[0], lim);
      FragmentsDoNotMatter(first.rest, chunks[1..], lim);
      ScanSplits(buffer + chunks[0], Join(chunks[1..]), lim);
      assert buffer + Join(chunks) == (buffer + chunks[0]) + Join(chunks[1..]);
    }
  }

  lemma {:induction false} ResidueWaits(s: seq<Byte>, lim: Limits)
    ensures Look(Scan(s, lim).rest, lim).Wait?
    decreases |s|
  {
    match Look(s, lim)
    case Wait =>
    case Take(_, n) => ResidueWaits(s[n..], lim);
  }

  /** What can be left over: nothing, half a magic, or a candidate shorter than the limit. */
  lemma ResidueShape(s: seq<Byte>, lim: Limits)
    ensures var rest := Scan(s, lim).rest;
            || rest == []
            || rest == MAGIC[..1]
            || (MAGIC <= rest && |rest| < HEADER_SIZE + CRC_SIZE + lim.maxPayload)
  {
    ResidueWaits(s, lim);
    var rest := Scan(s, lim).rest;
    if |rest| >= 2 {
      assert rest[..2] == MAGIC;
    }
  }

  lemma ItemSpellsItsBytes(s: seq<Byte>, lim: Limits)
    requires Look(s, lim).Take?
    ensures Look(s, lim).item.Spelling() == s[..Look(s, lim).size]
  {
    hide Encode, Decode;
    var v := Look(s, lim);
    if v.item.Got? {
      EncodeAfterDecode(s[..v.size], lim.version, lim.maxPayload);
    }
  }

  /** Every byte is accounted for exactly once, in order. */
  lemma {:induction false} EveryByteAccounted(s: seq<Byte>, lim: Limits)
    ensures Spell(Scan(s, lim).items) + Scan(s, lim).rest == s
    decreases |s|
  {
    hide Encode, Look, Scan;
    match Look(s, lim)
    case Wait => ScanWaits(s, lim);
    case Take(item, n) =>
      ScanTakes(s, lim);
      ItemSpellsItsBytes(s, lim);
      EveryByteAccounted(s[n..], lim);
      var more := Scan(s[n..], lim);
      assert ([item] + more.items)[1..] == more.items;
      assert s == s[..n] + s[n..];
  }

  lemma {:induction false} EncodeManyConcat(a: seq<Frame>, b: seq<Frame>)
    ensures EncodeMany(a + b) == EncodeMany(a) + EncodeMany(b)
    ensures EncodeMany([]) == []
  {
    hide Encode;
    if a == [] {
      assert a + b == b;
    } else {
      assert (a + b)[0] == a[0] && (a + b)[1..] == a[1..] + b;
      EncodeManyConcat(a[1..], b);
    }
  }

  /** Either there was something to complain about, or the bytes are the frames' encodings. */
  lemma {:induction false} CleanMeansFramesOnly(items: seq<Item>)
    ensures ItemComplaints(items) == [] ==> Spell(items) == EncodeMany(Frames(items))
    ensures ItemComplaints(items) != [] ==> |Spell(items)| > |EncodeMany(Frames(items))|
    ensures |Spell(items)| >= |EncodeMany(Frames(items))|
  {
    hide Encode;
    if items != [] {
      CleanMeansFramesOnly(items[1..]);
      if items[0].Got? {
        assert Frames(items) == [items[0].frame] + Frames(items[1..]);
        assert Frames(items)[1..] == Frames(items[1..]);
      } else {
        assert Frames(items) == Frames(items[1..]);
      }
    }
  }

  lemma NoComplaintsNoErrors(errors: seq<StreamError>)
    requires NoEmptyBlocks(errors)
    ensures Complaints(errors) == [] <==> errors == []
  {
    if errors != [] {
      assert errors[0] in errors;
    }
  }

  predicate Fits(frames: seq<Frame>, lim: Limits) {
    forall f <- frames :: f.version == lim.version && |f.payload| <= lim.maxPayload
  }

  function AllGot(frames: seq<Frame>): seq<Item> {
    seq(|frames|, i requires 0 <= i < |frames| => Got(frames[i]))
  }

  lemma LookAtEncoding(f: Frame, more: seq<Byte>, lim: Limits)
    requires f.version == lim.version && |f.payload| <= lim.maxPayload
    ensures Look(Encode(f) + more, lim) == Take(Got(f), |Encode(f)|)
  {
    hide Crc.Fold16, CrcField, Decode;
    var s := Encode(f) + more;
    var tail := f.payload + CrcField(Crc.Fold16(Crc.CRC16_START, Body(f))) + more;
    assert s == EncodeHeader(f) + tail;
    HeaderRoundTrip(f, tail, lim.maxPayload);
    assert s[..|Encode(f)|] == Encode(f);
    DecodeAfterEncode(f, lim.maxPayload);
    assert s[0] == MAGIC[0] && s[1] == MAGIC[1];
  }

  /** Encoded frames come back as exactly those frames, nothing else and nothing left. */
  lemma {:induction false} EncodedFramesComeBack(frames: seq<Frame>, lim: Limits)
    requires Fits(frames, lim)
    ensures Scan(EncodeMany(frames), lim) == Scanned(AllGot(frames), [])
    decreases |frames|
  {
    hide Encode, Look, Scan;
    if frames == [] {
      NothingWaits(lim);
      ScanWaits([], lim);
    } else {
      LookAtEncoding(frames[0], EncodeMany(frames[1..]), lim);
      var s := EncodeMany(frames);
      ScanTakes(s, lim);
      assert s[|Encode(frames[0])|..] == EncodeMany(frames[1..]);
      EncodedFramesComeBack(frames[1..], lim);
      assert AllGot(frames) == [Got(frames[0])] + AllGot(frames[1..]);
    }
  }

  /**
   * Wherever the scan stands when it decides, a complete frame that begins there is taken, whatever
   * noise came before.
   */
  lemma {:induction false} NoFrameIsPassedOver(s: seq<Byte>, k: nat, f: Frame, lim: Limits)
    requires f.version == lim.version && |f.payload| <= lim.maxPayload
    requires var items := Scan(s, lim).items;
             k <= |items| && |Spell(items[..k])| <= |s| && Encode(f) <= s[|Spell(items[..k])|..]
    ensures k < |Scan(s, lim).items| && Scan(s, lim).items[k] == Got(f)
    decreases k
  {
    hide Encode, Look, Scan;
    var items := Scan(s, lim).items;
    if k == 0 {
      assert items[..0] == [] && s[0..] == s;
      assert s == Encode(f) + s[|Encode(f)|..];
      LookAtEncoding(f, s[|Encode(f)|..], lim);
      ScanTakes(s, lim);
    } else {
      if Look(s, lim).Wait? {
        ScanWaits(s, lim);
      }
      ScanTakes(s, lim);
      ItemSpellsItsBytes(s, lim);
      var n, more := Look(s, lim).size, Scan(s[Look(s, lim).size..], lim);
      assert items == [Look(s, lim).item] + more.items;
      assert items[..k][0] == items[0] && items[..k][1..] == more.items[..k - 1];
      assert |Spell(items[..k])| == n + |Spell(more.items[..k - 1])|;
      assert s[n..][|Spell(more.items[..k - 1])|..] == s[|Spell(items[..k])|..];
      NoFrameIsPassedOver(s[n..], k - 1, f, lim);
    }
  }

  lemma {:induction false} AllGotIsClean(frames: seq<Frame>)
    ensures Frames(AllGot(frames)) == frames && ItemComplaints(AllGot(frames)) == []
    decreases |frames|
  {
    if frames != [] {
      assert AllGot(frames)[1..] == AllGot(frames[1..]);
      AllGotIsClean(frames[1..]);
    }
  }

  /** Encode any frames, cut the bytes anywhere, feed the pieces: the frames and no errors. */
  lemma StreamRoundTrip(frames: seq<Frame>, chunks: seq<seq<Byte>>, lim: Limits)
    requires Fits(frames, lim) && Join(chunks) == EncodeMany(frames)
    ensures var r := ScanChunks([], chunks, lim);
            Frames(r.items) == frames && ItemComplaints(r.items) == [] && r.rest == []
  {
    FragmentsDoNotMatter([], chunks, lim);
    assert [] + Join(chunks) == EncodeMany(frames);
    EncodedFramesComeBack(frames, lim);
    AllGotIsClean(frames);
  }

  // ------------------------------------------------------------ salvage at a boundary

  /** Try each offset in turn and take every complete valid frame found that way. */
  function Salvage(s: seq<Byte>, lim: Limits): seq<Frame>
    decreases |s|
  {
    if s == [] then []
    else
      match Look(s, lim)
      case Take(Got(f), n) => [f] + Salvage(s[n..], lim)
      case _ => Salvage(s[1..], lim)
  }

  /** A complete valid frame begins at `at`. */
  predicate FrameBegins(s: seq<Byte>, at: nat, lim: Limits) {
    at <= |s| && Look(s[at..], lim).Take? && Look(s[at..], lim).item.Got?
  }

  lemma NoFrames()
    ensures Frames([]) == []
  {
  }

  lemma SalvageStep(s: seq<Byte>, lim: Limits)
    requires Look(s, lim).Take?
    ensures var item, n := Look(s, lim).item, Look(s, lim).size;
            Salvage(s, lim) == (if item.Got? then [item.frame] else []) + Salvage(s[n..], lim)
  {
  }

  lemma {:induction false} SalvageAfterScan(s: seq<Byte>, lim: Limits)
    ensures Salvage(s, lim) == Frames(Scan(s, lim).items) + Salvage(Scan(s, lim).rest, lim)
    decreases |s|
  {
    hide Encode, Look, Scan, Salvage, Frames;
    match Look(s, lim)
    case Wait =>
      ScanWaits(s, lim);
      NoFrames();
      assert [] + Salvage(s, lim) == Salvage(s, lim);
    case Take(item, n) =>
      ScanTakes(s, lim);
      SalvageStep(s, lim);
      SalvageAfterScan(s[n..], lim);
      var more, own := Scan(s[n..], lim), if item.Got? then [item.frame] else [];
      FramesConcat([item], more.items);
      SingleItem(item);
      var found, salvaged := Frames(more.items), Salvage(more.rest, lim);
      assert own + (found + salvaged) == (own + found) + salvaged;
  }

  /** Bytes where no frame begins may be dropped. */
  lemma {:induction false} SalvageSkips(s: seq<Byte>, k: nat, lim: Limits)
    requires k <= |s| && forall i | 0 <= i < k :: !FrameBegins(s, i, lim)
    ensures Salvage(s, lim) == Salvage(s[k..], lim)
    decreases k
  {
    if k > 0 {
      assert !FrameBegins(s, 0, lim) && s[0..] == s;
      forall i | 0 <= i < k - 1 ensures !FrameBegins(s[1..], i, lim) {
        assert s[1..][i..] == s[i + 1..];
        assert !FrameBegins(s, i + 1, lim);
      }
      SalvageSkips(s[1..], k - 1, lim);
      assert s[1..][k - 1..] == s[k..];
    }
  }

  /** Nothing is salvaged exactly when no frame begins anywhere. */
  lemma {:induction false} SalvageEmptyIff(s: seq<Byte>, lim: Limits)
    ensures Salvage(s, lim) == [] <==> forall i | 0 <= i <= |s| :: !FrameBegins(s, i, lim)
    decreases |s|
  {
    assert s[0..] == s;
    if s != [] {
      SalvageEmptyIff(s[1..], lim);
      forall i | 0 <= i <= |s| - 1 ensures FrameBegins(s[1..], i, lim) == FrameBegins(s, i + 1, lim) {
        assert s[1..][i..] == s[i + 1..];
      }
      if Salvage(s, lim) != [] && !FrameBegins(s, 0, lim) {
        var i :| 0 <= i <= |s| - 1 && FrameBegins(s[1..], i, lim);
        assert FrameBegins(s, i + 1, lim);
      }
      if i :| 0 <= i <= |s| && FrameBegins(s, i, lim) && i > 0 {
        assert FrameBegins(s[1..], i - 1, lim);
      }
    } else {
      assert forall i | 0 <= i <= |s| :: s[i..] == [];
    }
  }

  lemma TooShortForFrame(s: seq<Byte>, lim: Limits)
    requires |s| < HEADER_SIZE
    ensures forall i | 0 <= i <= |s| :: !FrameBegins(s, i, lim)
  {
    forall i | 0 <= i <= |s| ensures !FrameBegins(s, i, lim) {
      assert |s[i..]| < HEADER_SIZE;
    }
  }

  // ------------------------------------------------------------ garbage in blocks

  predicate MagicAt(s: seq<Byte>, at: nat) {
    at + 2 <= |s| && s[at] == MAGIC[0] && s[at + 1] == MAGIC[1]
  }

  function AllJunk(data: seq<Byte>): seq<Item> {
    seq(|data|, i requires 0 <= i < |data| => Junk(data[i]))
  }

  lemma LookAtJunk(s: seq<Byte>, lim: Limits)
    requires s != [] && !MagicAt(s, 0)
    requires |s| == 1 ==> s[0] != MAGIC[0]
    ensures Look(s, lim) == Take(Junk(s[0]), 1)
  {
  }

  /** A block before the first magic is junk, byte for byte. */
  lemma {:induction false} ScanDropsBlock(s: seq<Byte>, k: nat, lim: Limits)
    requires k <= |s| && forall i | 0 <= i < k :: !MagicAt(s, i)
    requires k == |s| && k > 0 ==> s[k - 1] != MAGIC[0]
    ensures Scan(s, lim) == Scanned(AllJunk(s[..k]) + Scan(s[k..], lim).items, Scan(s[k..], lim).rest)
    decreases k
  {
    hide Look, Scan;
    if k == 0 {
      assert s[0..] == s;
    } else {
      assert !MagicAt(s, 0);
      LookAtJunk(s, lim);
      ScanTakes(s, lim);
      forall i | 0 <= i < k - 1 ensures !MagicAt(s[1..], i) {
        assert !MagicAt(s, i + 1);
      }
      ScanDropsBlock(s[1..], k - 1, lim);
      assert s[1..][k - 1..] == s[k..];
      assert AllJunk(s[..k]) == [Junk(s[0])] + AllJunk(s[1..][..k - 1]);
    }
  }

  lemma {:induction false} JunkComplaints(data: seq<Byte>)
    ensures Frames(AllJunk(data)) == []
    ensures ItemComplaints(AllJunk(data)) == Complaints([Garbage(data)])
    decreases |data|
  {
    if data != [] {
      assert AllJunk(data)[1..] == AllJunk(data[1..]);
      JunkComplaints(data[1..]);
      assert Complaints([Garbage(data)]) == [Garbage([data[0]])] + Complaints([Garbage(data[1..])]);
    }
  }

  method FindMagic(s: seq<Byte>, start: nat) returns (at: int)
    ensures at >= 0 ==> start <= at && MagicAt(s, at) && forall i | start <= i < at :: !MagicAt(s, i)
    ensures at < 0 ==> forall i: nat | start <= i :: !MagicAt(s, i)
  {
    at := start;
    while at + 2 <= |s|
      invariant start <= at
      invariant forall i | start <= i < at :: !MagicAt(s, i)
    {
      if s[at] == MAGIC[0] && s[at + 1] == MAGIC[1] {
        return;
      }
      at := at + 1;
    }
    at := -1;
  }

  class FrameParser {
    const version: Byte
    var maxPayload: Word
    var buffer: seq<Byte>
    var errors: seq<StreamError>

    constructor (version: Byte, maxPayload: Word)
      ensures this.version == version && this.maxPayload == maxPayload
      ensures buffer == [] && errors == []
    {
      this.version, this.maxPayload := version, maxPayload;
      buffer, errors := [], [];
    }

    function Lim(): Limits
      reads this
    {
      Limits(version, maxPayload)
    }

    /** Hands over the collected errors. */
    method PopErrors() returns (popped: seq<StreamError>)
      modifies this`errors
      ensures popped == old(errors) && errors == []
    {
      popped, errors := errors, [];
    }

    /** So far `done` has been decided about `total`; the rest is still in the buffer. */
    ghost predicate Along(total: seq<Byte>, done: seq<Item>, e0: nat)
      reads this
    {
      && Scan(total, Lim()) == Scanned(done + Scan(buffer, Lim()).items, Scan(buffer, Lim()).rest)
      && e0 <= |errors|
      && Complaints(errors[e0..]) == ItemComplaints(done)
      && NoEmptyBlocks(errors[e0..])
    }

    /** Appends stream bytes and returns every complete frame now available. */
    method Feed(data: seq<Byte>) returns (frames: seq<Frame>)
      modifies this`buffer, this`errors
      ensures buffer == Scan(old(buffer) + data, Lim()).rest
      ensures frames == Frames(Scan(old(buffer) + data, Lim()).items)
      ensures old(errors) <= errors
      ensures Complaints(errors[|old(errors)|..]) == ItemComplaints(Scan(old(buffer) + data, Lim()).items)
      ensures NoEmptyBlocks(errors[|old(errors)|..])
    {
      hide Encode, Decode, Scan, Frames, Complaints, ItemComplaints;
      buffer := buffer + data;
      frames := [];
      ghost var total := buffer;
      ghost var done: seq<Item> := [];
      ghost var e0 := |errors|;
      NothingYet(total, e0);
      while true
        invariant Along(total, done, e0)
        invariant frames == Frames(done)
        invariant old(errors) <= errors && |old(errors)| == e0
        invariant Lim() == old(Lim())
        decreases |buffer|
      {
        if buffer == [] {
          break;
        }
        var magicAt := FindMagic(buffer, 0);
        if magicAt < 0 {
          var keep := if buffer[|buffer| - 1] == MAGIC[0] then 1 else 0;
          if |buffer| > keep {
            done := Discard(|buffer| - keep, total, done, e0);
          }
          break;
        }
        if magicAt > 0 {
          done := Discard(magicAt, total, done, e0);
        }
        assert buffer[..2] == MAGIC;
        if |buffer| < HEADER_SIZE {
          break;
        }
        match DecodeHeader(buffer, version, maxPayload)
        case Err(e) =>
          done := SkipOne(e, total, done, e0);
        case Ok(h) =>
          if |buffer| < FrameSize(h) {
            break;
          }
          match Decode(buffer[..FrameSize(h)], version, maxPayload)
          case Err(e) =>
            done := SkipOne(e, total, done, e0);
          case Ok(f) =>
            frames := frames + [f];
            done := Consume(f, total, done, e0);
      }
      ScanWaits(buffer, Lim());
      assert done + [] == done;
    }

    lemma NothingYet(total: seq<Byte>, e0: nat)
      requires total == buffer && e0 == |errors|
      ensures Along(total, [], e0) && Frames([]) == []
    {
      assert [] + Scan(buffer, Lim()).items == Scan(buffer, Lim()).items;
    }

    /** Drops a garbage block from the front and reports it as one error. */
    method Discard(count: nat, ghost total: seq<Byte>, ghost done: seq<Item>, ghost e0: nat)
      returns (ghost done': seq<Item>)
      requires 0 < count <= |buffer|
      requires forall i | 0 <= i < count :: !MagicAt(buffer, i)
      requires count == |buffer| ==> buffer[count - 1] != MAGIC[0]
      requires Along(total, done, e0)
      modifies this`buffer, this`errors
      ensures buffer == old(buffer)[count..] && errors == old(errors) + [Garbage(old(buffer)[..count])]
      ensures Along(total, done', e0) && Frames(done') == Frames(done)
    {
      hide Encode, Look, Scan, NoEmptyBlocks, Complaints, ItemComplaints, Frames;
      ghost var block := buffer[..count];
      done' := done + AllJunk(block);
      ScanDropsBlock(buffer, count, Lim());
      JunkComplaints(block);
      ItemsConcat(done, AllJunk(block));
      Reported(errors, e0, Garbage(block));
      errors := errors + [Garbage(buffer[..count])];
      buffer := buffer[count..];
      assert done + (AllJunk(block) + Scan(buffer, Lim()).items) == done' + Scan(buffer, Lim()).items;
    }

    /** Drops the first byte of a candidate that cannot be a frame. */
    method SkipOne(e: DecodeError, ghost total: seq<Byte>, ghost done: seq<Item>, ghost e0: nat)
      returns (ghost done': seq<Item>)
      requires buffer != []
      requires Look(buffer, Lim()) == Take(Skipped(buffer[0], e), 1)
      requires Along(total, done, e0)
      modifies this`buffer, this`errors
      ensures buffer == old(buffer)[1..] && errors == old(errors) + [Malformed(e)]
      ensures Along(total, done', e0) && Frames(done') == Frames(done)
    {
      hide Encode, Look, Scan, NoEmptyBlocks, Complaints, ItemComplaints, Frames;
      ghost var item := Skipped(buffer[0], e);
      done' := done + [item];
      ScanTakes(buffer, Lim());
      ItemsConcat(done, [item]);
      SingleItem(item);
      Reported(errors, e0, Malformed(e));
      errors := errors + [Malformed(e)];
      buffer := buffer[1..];
      assert done + ([item] + Scan(buffer, Lim()).items) == done' + Scan(buffer, Lim()).items;
    }

    /** Takes a whole valid frame off the front. */
    method Consume(f: Frame, ghost total: seq<Byte>, ghost done: seq<Item>, ghost e0: nat)
      returns (ghost done': seq<Item>)
      requires |buffer| >= HEADER_SIZE && DecodeHeader(buffer, version, maxPayload).Ok?
      requires Look(buffer, Lim()) ==
        Take(Got(f), FrameSize(DecodeHeader(buffer, version, maxPayload).value))
      requires Along(total, done, e0)
      modifies this`buffer
      ensures buffer == old(buffer)[FrameSize(DecodeHeader(old(buffer), version, maxPayload).value)..]
      ensures Along(total, done', e0) && Frames(done') == Frames(done) + [f]
    {
      hide Encode, Look, Scan, DecodeHeader, NoEmptyBlocks, Complaints, ItemComplaints, Frames;
      ghost var item := Got(f);
      done' := done + [item];
      ScanTakes(buffer, Lim());
      ItemsConcat(done, [item]);
      SingleItem(item);
      buffer := buffer[FrameSize(DecodeHeader(buffer, version, maxPayload).value)..];
      assert done + ([item] + Scan(buffer, Lim()).items) == done' + Scan(buffer, Lim()).items;
    }

    /** The first offset from `start` at which a complete valid frame begins. */
    method FindValidFrame(start: nat) returns (found: Option<nat>)
      ensures found.Some? ==> start <= found.value && FrameBegins(buffer, found.value, Lim())
      ensures found.Some? ==> forall i | start <= i < found.value :: !FrameBegins(buffer, i, Lim())
      ensures found.None? ==> forall i: nat | start <= i :: !FrameBegins(buffer, i, Lim())
    {
      hide Look, DecodeHeader, Decode, MagicAt;
      var offset := FindMagic(buffer, start);
      OnlyAtMagic(start, if offset < 0 then |buffer| + 1 else offset);
      MagicIsInside();
      while offset >= 0
        invariant offset >= 0 ==> start <= offset < |buffer| && MagicAt(buffer, offset)
        invariant forall i: nat | start <= i < (if offset < 0 then |buffer| + 1 else offset) ::
                    !FrameBegins(buffer, i, Lim())
        decreases if offset < 0 then 0 else |buffer| + 1 - offset
      {
        LookAtMagic(offset);
        var tail := buffer[offset..];
        if |tail| >= HEADER_SIZE {
          match DecodeHeader(tail, version, maxPayload)
          case Err(_) =>
          case Ok(h) =>
            if |tail| >= FrameSize(h) && Decode(tail[..FrameSize(h)], version, maxPayload).Ok? {
              return Some(offset);
            }
        }
        assert !FrameBegins(buffer, offset, Lim());
        var next := FindMagic(buffer, offset + 1);
        OnlyAtMagic(offset + 1, if next < 0 then |buffer| + 1 else next);
        MagicIsInside();
        offset := next;
      }
      return None;
    }

    lemma MagicIsInside()
      ensures forall i: nat | MagicAt(buffer, i) :: i < |buffer|
    {
    }

    /** At a magic, a frame begins exactly when header, size and checksum agree. */
    lemma LookAtMagic(offset: nat)
      requires MagicAt(buffer, offset)
      ensures offset < |buffer|
      ensures var tail := buffer[offset..];
              FrameBegins(buffer, offset, Lim()) <==>
                && |tail| >= HEADER_SIZE
                && DecodeHeader(tail, version, maxPayload).Ok?
                && var size := FrameSize(DecodeHeader(tail, version, maxPayload).value);
                   |tail| >= size && Decode(tail[..size], version, maxPayload).Ok?
    {
      hide DecodeHeader, Decode;
      assert buffer[offset..][0] == buffer[offset] && buffer[offset..][1] == buffer[offset + 1];
    }

    lemma OnlyAtMagic(from: nat, to: nat)
      requires forall i | from <= i < to :: !MagicAt(buffer, i)
      ensures forall i | from <= i < to :: !FrameBegins(buffer, i, Lim())
    {
      forall i | from <= i < to && i <= |buffer| ensures !FrameBegins(buffer, i, Lim()) {
        assert !MagicAt(buffer, i);
        if i + 2 <= |buffer| {
          assert buffer[i..][0] == buffer[i] && buffer[i..][1] == buffer[i + 1];
        }
      }
    }

    /** `frames` and the buffer are all of `total`, unless an error since `e0` says otherwise. */
    ghost predicate Kept(total: seq<Byte>, frames: seq<Frame>, e0: nat)
      reads this
    {
      && e0 <= |errors|
      && (|errors| == e0 ==> EncodeMany(frames) + buffer == total)
      && (|errors| > e0 ==> |EncodeMany(frames)| + |buffer| < |total|)
    }

    /** One more pass over what is buffered, added to the frames already found. */
    method Again(ghost total: seq<Byte>, frames: seq<Frame>, ghost e0: nat) returns (all: seq<Frame>)
      requires Salvage(total, Lim()) == frames + Salvage(buffer, Lim())
      requires Kept(total, frames, e0)
      modifies this`buffer, this`errors
      ensures frames <= all && |buffer| <= |old(buffer)| && old(errors) <= errors
      ensures Salvage(total, Lim()) == all + Salvage(buffer, Lim())
      ensures Kept(total, all, e0) && Look(buffer, Lim()).Wait?
    {
      hide Encode, Look, Scan, Frames, Complaints, ItemComplaints, Salvage, EncodeMany, Spell;
      ghost var items := Scan(buffer, Lim()).items;
      SalvageAfterScan(buffer, Lim());
      ResidueWaits(buffer, Lim());
      EveryByteAccounted(buffer, Lim());
      CleanMeansFramesOnly(items);
      EncodeManyConcat(frames, Frames(items));
      assert buffer + [] == buffer;
      var more := Feed([]);
      NoComplaintsNoErrors(errors[|old(errors)|..]);
      all := frames + more;
      if |errors| == e0 {
        assert errors[|old(errors)|..] == [];
        assert EncodeMany(all) + buffer == EncodeMany(frames) + old(buffer);
      }
    }

    /**
     * A boundary: every frame that can still be found is returned, and the buffer is emptied.
     * What is thrown away lies outside those frames, at offsets where no valid frame begins,
     * and something is thrown away exactly when an error is reported.
     */
    method Finish() returns (frames: seq<Frame>)
      modifies this`buffer, this`errors
      ensures buffer == []
      ensures frames == Salvage(old(buffer), Lim())
      ensures old(errors) <= errors
      ensures errors == old(errors) <==> EncodeMany(frames) == old(buffer)
    {
      hide Encode, Decode, Scan, Frames, Complaints, ItemComplaints, Salvage, EncodeMany;
      ghost var total := buffer;
      ghost var e0 := |errors|;
      assert EncodeMany([]) == [] by {
        EncodeManyConcat([], []);
      }
      assert [] + Salvage(total, Lim()) == Salvage(total, Lim());
      frames := Again(total, [], e0);
      while MAGIC <= buffer && |buffer| >= HEADER_SIZE
        invariant Look(buffer, Lim()).Wait?
        invariant Salvage(total, Lim()) == frames + Salvage(buffer, Lim())
        invariant old(errors) <= errors && Kept(total, frames, e0) && Lim() == old(Lim())
        decreases |buffer|
      {
        var h := DecodeHeader(buffer, version, maxPayload);
        var expected := FrameSize(h.value);
        var next := FindValidFrame(1);
        assert !FrameBegins(buffer, 0, Lim()) by {
          assert buffer[0..] == buffer;
        }
        if next.None? {
          break;
        }
        SalvageSkips(buffer, next.value, Lim());
        errors := errors + [Malformed(Truncated(expected, next.value))];
        buffer := buffer[next.value..];
        frames := Again(total, frames, e0);
      }
      if |buffer| < HEADER_SIZE {
        TooShortForFrame(buffer, Lim());
      }
      SalvageEmptyIff(buffer, Lim());
      if buffer != [] {
        var expected := HEADER_SIZE;
        if |buffer| >= HEADER_SIZE {
          expected := FrameSize(DecodeHeader(buffer, version, maxPayload).value);
        }
        errors := errors + [Malformed(Truncated(expected, |buffer|))];
        buffer := [];
      }
    }
  }
}
