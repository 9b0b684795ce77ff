/**
 * The host session: one request at a time, retried under one sequence number over a stream
 * that may delay, cut, garble or forge anything.
 */
module V3Session {
  import opened Octets
  import opened Bytes
  import opened FrameCodec
  import opened FrameStream

  const PROTOCOL_VERSION: Byte := 3
  const STATUS_OK: Byte := 0
  const STATUS_CRC_ERROR: Byte := 5

  // ------------------------------------------------------------ the stream

  /**
   * What happens on the stream.  `Lapsed` is a deadline that passes, while sending or while waiting
   * for the answer; `NoWake` a wake acknowledgement that does not come; `Broke` a failure of the
   * stream itself.  A `Failure` follows where the stream breaks or the session gives up.
   */
  datatype Event =
    | Wrote(data: seq<Byte>)
    | Read(data: seq<Byte>)
    | Lapsed(sending: bool)
    | NoWake
    | Broke
    | Failure

  datatype SendResult = Sent | SendTimedOut | SendFailed

  datatype ReceiveResult = Data(data: seq<Byte>) | ReceiveTimedOut | ReceiveFailed | Closed

  /** What was put on the wire, in order. */
  function Written(log: seq<Event>): seq<Byte>
    decreases |log|
  {
    if log == [] then []
    else Written(log[..|log| - 1]) + (if log[|log| - 1].Wrote? then log[|log| - 1].data else [])
  }

  lemma WrittenStep(log: seq<Event>, e: Event)
    ensures Written(log + [e]) == Written(log) + if e.Wrote? then e.data else []
  {
    assert (log + [e])[..|log + [e]| - 1] == log;
  }

  function BreakIf(failed: bool): seq<Event> {
    if failed then [Broke, Failure] else []
  }

  function SendTrace(r: SendResult): seq<Event> {
    match r
    case Sent => []
    case SendTimedOut => [Lapsed(true)]
    case SendFailed => [Broke, Failure]
  }

  function ReceiveTrace(r: ReceiveResult, wake: bool): seq<Event> {
    match r
    case Data(data) => [Read(data)]
    case ReceiveTimedOut => [if wake then NoWake else Lapsed(false)]
    case _ => [Broke, Failure]
  }

  /** Nothing is written after a failure. */
  ghost predicate Hushed(log: seq<Event>) {
    forall i, j | 0 <= i < j < |log| && log[i] == Failure :: !log[j].Wrote?
  }

  /** A step taken before any failure writes nothing after one, and reports it. */
  ghost predicate Stops(before: seq<Event>, after: seq<Event>, broken: bool) {
    Failure !in before ==> Hushed(after) && (!broken ==> Failure !in after)
  }

  lemma StopsAnyway(before: seq<Event>, after: seq<Event>)
    requires Stops(before, after, false)
    ensures Stops(before, after, true)
  {
  }

  lemma OneMoreStop(before: seq<Event>, middle: seq<Event>, after: seq<Event>, broken: bool)
    requires Stops(before, middle, false) && Stops(middle, after, broken)
    ensures Stops(before, after, broken)
  {
  }

  lemma WriteStops(before: seq<Event>, data: seq<Byte>)
    ensures Stops(before, before + [Wrote(data)], false)
  {
  }

  /** Events that write nothing. */
  predicate Idle(events: seq<Event>) {
    forall e <- events :: !e.Wrote?
  }

  lemma IdleStops(before: seq<Event>, events: seq<Event>, failed: bool)
    requires Idle(events) && (failed || Failure !in events)
    ensures Stops(before, before + events, failed)
  {
  }

  class Stream {
    var log: seq<Event>

    constructor ()
      ensures log == []
    {
      log := [];
    }

    /** The deadline of the attempt may pass at any time. */
    method Deadline(sending: bool) returns (passed: bool)
      modifies this
      ensures log == old(log) + if passed then [Lapsed(sending)] else []
    {
      passed := *;
      log := log + if passed then [Lapsed(sending)] else [];
    }

    /** `sendall`: on any failure an unknown prefix may have left. */
    method SendAll(data: seq<Byte>) returns (r: SendResult)
      modifies this
      ensures exists n: nat | n <= |data| :: log == old(log) + [Wrote(data[..n])] + SendTrace(r)
      ensures r == Sent ==> log == old(log) + [Wrote(data)]
    {
      var n: nat := Anything();
      var outcome: SendResult := Anything();
      r := outcome;
      if r == Sent || n > |data| {
        n := |data|;
      }
      assert data[..|data|] == data;
      log := log + [Wrote(data[..n])] + SendTrace(r);
    }

    /** The stream may refuse a timeout. */
    method Configure() returns (ok: bool)
      modifies this
      ensures log == old(log) + BreakIf(!ok)
    {
      ok := *;
      log := log + BreakIf(!ok);
    }

    /** `recv`: some bytes, or one of the ways to get none. */
    method Receive(wake: bool) returns (r: ReceiveResult)
      modifies this
      ensures r.Data? ==> r.data != []
      ensures log == old(log) + ReceiveTrace(r, wake)
    {
      r := Anything();
      if r.Data? && r.data == [] {
        r := Closed;
      }
      log := log + ReceiveTrace(r, wake);
    }
  }

  // ------------------------------------------------------------ what a request may write

  /** Whether a wake acknowledgement is waited for, and whether it may stay away. */
  datatype Wake = Wake(ack: Option<Byte>, optional: bool)

  function Strictly(wake: Wake): Option<Byte> {
    if wake.optional then None else wake.ack
  }

  /** After the leading byte, nothing more before the wake acknowledgement. */
  ghost predicate WakeOrdered(log: seq<Event>, ack: Byte) {
    forall i | 0 <= i < |log| && log[i].Wrote? && |Written(log[..i + 1])| > 1 :: Read([ack]) in log[..i]
  }

  /** An attempt so far: a prefix of the encoding, in strict mode held back after its first byte. */
  ghost predicate Attempted(log: seq<Event>, wire: seq<Byte>, strict: Option<Byte>) {
    Written(log) <= wire && (strict.Some? ==> WakeOrdered(log, strict.value))
  }

  /** What was read first. */
  function FirstRead(log: seq<Event>): Option<seq<Byte>>
    decreases |log|
  {
    if log == [] then None
    else
      match FirstRead(log[..|log| - 1])
      case Some(data) => Some(data)
      case None => if log[|log| - 1].Read? then Some(log[|log| - 1].data) else None
  }

  lemma FirstReadStep(log: seq<Event>, e: Event)
    ensures FirstRead(log + [e])
         == if FirstRead(log).None? && e.Read? then Some(e.data) else FirstRead(log)
  {
    assert (log + [e])[..|log + [e]| - 1] == log;
  }

  /** Something other than the wake acknowledgement came first. */
  predicate WrongWake(log: seq<Event>, wake: Wake) {
    wake.ack.Some? && NoWake !in log && FirstRead(log).Some? && FirstRead(log) != Some([wake.ack.value])
  }

  /** The reasons for which an attempt may end before the whole encoding is written. */
  predicate CutShort(log: seq<Event>, wake: Wake) {
    || Broke in log || Lapsed(true) in log
    || (!wake.optional && NoWake in log)
    || WrongWake(log, wake)
  }

  /** A finished attempt has written the whole encoding unless it was cut short. */
  ghost predicate Finished(log: seq<Event>, wire: seq<Byte>, wake: Wake) {
    Attempted(log, wire, Strictly(wake)) && (Written(log) == wire || CutShort(log, wake))
  }

  /** The reasons for which an attempt may end without an answer. */
  predicate Excused(log: seq<Event>, wake: Wake, patience: nat) {
    CutShort(log, wake) || Lapsed(false) in log || patience <= |log|
  }

  /** `n` attempts, one after another. */
  ghost predicate Attempts(log: seq<Event>, wire: seq<Byte>, wake: Wake, n: nat)
    decreases n
  {
    if n == 0 then log == []
    else
      exists k | 0 <= k <= |log| :: Attempts(log[..k], wire, wake, n - 1) && Finished(log[k..], wire, wake)
  }

  lemma OneMoreAttempt(log: seq<Event>, k: nat, wire: seq<Byte>, wake: Wake, n: nat)
    requires k <= |log| && Attempts(log[..k], wire, wake, n) && Finished(log[k..], wire, wake)
    ensures Attempts(log, wire, wake, n + 1)
  {
  }

  lemma LastAttempt(log: seq<Event>, wire: seq<Byte>, wake: Wake, n: nat) returns (k: nat)
    requires Attempts(log, wire, wake, n + 1)
    ensures k <= |log| && Attempts(log[..k], wire, wake, n) && Finished(log[k..], wire, wake)
  {
    hide Finished;
    k :| 0 <= k <= |log| && Attempts(log[..k], wire, wake, n) && Finished(log[k..], wire, wake);
  }

  lemma NothingAttempted(wire: seq<Byte>, strict: Option<Byte>)
    ensures Attempted([], wire, strict) && Written([]) == [] && FirstRead([]) == None
  {
  }

  /** Reads, lapses and failures in between do not matter. */
  lemma AttemptPauses(log: seq<Event>, wire: seq<Byte>, strict: Option<Byte>, e: Event)
    requires Attempted(log, wire, strict) && !e.Wrote?
    ensures Attempted(log + [e], wire, strict) && Written(log + [e]) == Written(log)
  {
    var longer := log + [e];
    WrittenStep(log, e);
    forall i | strict.Some? && 0 <= i < |longer| && longer[i].Wrote? && |Written(longer[..i + 1])| > 1
      ensures Read([strict.value]) in longer[..i]
    {
      assert i < |log| && longer[..i + 1] == log[..i + 1] && longer[..i] == log[..i];
    }
  }

  /** The same for several events at the end of a log, seen from where the attempt began. */
  lemma {:induction false} Idles(before: seq<Event>, start: nat, events: seq<Event>, wire: seq<Byte>,
                                 strict: Option<Byte>)
    requires start <= |before| && Attempted(before[start..], wire, strict) && Idle(events)
    ensures var after := before + events;
            && after[start..] == before[start..] + events && Attempted(after[start..], wire, strict)
            && Written(after[start..]) == Written(before[start..])
    decreases |events|
  {
    hide Attempted, Written;
    var after := before + events;
    assert after[start..] == before[start..] + events;
    if events == [] {
      assert before[start..] + [] == before[start..];
    } else {
      var shorter := before + events[..|events| - 1];
      Idles(before, start, events[..|events| - 1], wire, strict);
      AttemptPauses(shorter[start..], wire, strict, events[|events| - 1]);
      assert after[start..] == shorter[start..] + [events[|events| - 1]];
    }
  }

  lemma AttemptWrites(log: seq<Event>, wire: seq<Byte>, strict: Option<Byte>, data: seq<Byte>)
    requires Attempted(log, wire, strict) && Written(log) + data <= wire
    requires strict.Some? && |Written(log) + data| > 1 ==> Read([strict.value]) in log
    ensures Attempted(log + [Wrote(data)], wire, strict)
  {
    var longer := log + [Wrote(data)];
    WrittenStep(log, Wrote(data));
    forall i | strict.Some? && 0 <= i < |longer| && longer[i].Wrote? && |Written(longer[..i + 1])| > 1
      ensures Read([strict.value]) in longer[..i]
    {
      if i < |log| {
        assert longer[..i + 1] == log[..i + 1] && longer[..i] == log[..i];
      } else {
        assert longer[..i] == log && longer[..i + 1] == longer;
      }
    }
  }

  // ------------------------------------------------------------ correlation

  /** The frame answers the request. */
  predicate Matches(request: Frame, f: Frame) {
    f.frameType == Response && f.sequence == request.sequence && f.opcode == request.opcode
  }

  predicate Succeeded(f: Frame) {
    f.status == STATUS_OK && f.flags / 4 % 2 == 0
  }

  datatype ProtocolError = Parser(error: StreamError) | Unexpected(frame: Frame) | Mismatch(frame: Frame)

  /** A bounded queue keeps the newest entries. */
  function Newest<T>(all: seq<T>, limit: nat): (kept: seq<T>)
    ensures |kept| <= limit && (|all| <= limit ==> kept == all)
  {
    if |all| <= limit then all else all[|all| - limit..]
  }

  lemma NewestTwice<T>(all: seq<T>, more: seq<T>, limit: nat)
    ensures Newest(Newest(all, limit) + more, limit) == Newest(all + more, limit)
  {
  }

  function FirstMatch(request: Frame, frames: seq<Frame>): (f: Option<Frame>)
    ensures f.Some? ==> f.value in frames && Matches(request, f.value)
    ensures f.None? <==> forall g <- frames :: !Matches(request, g)
  {
    if frames == [] then None
    else if Matches(request, frames[0]) then Some(frames[0])
    else
      var later := FirstMatch(request, frames[1..]);
      assert frames == [frames[0]] + frames[1..];
      later
  }

  /** Where every frame of a batch goes; `answered` says that a match was already found. */
  function Events(frames: seq<Frame>): seq<Frame> {
    if frames == [] then []
    else (if frames[0].frameType == FrameType.Event then [frames[0]] else []) + Events(frames[1..])
  }

  function Orphans(request: Frame, frames: seq<Frame>, answered: bool): seq<Frame> {
    if frames == [] then []
    else
      var f := frames[0];
      (if f.frameType == Response && (answered || !Matches(request, f)) then [f] else [])
      + Orphans(request, frames[1..], answered || Matches(request, f))
  }

  function Rejections(request: Frame, frames: seq<Frame>): seq<ProtocolError> {
    if frames == [] then []
    else
      var f := frames[0];
      (if f.frameType == Request then [Unexpected(f)]
       else if f.frameType == Response && !Matches(request, f) then [Mismatch(f)] else [])
      + Rejections(request, frames[1..])
  }

  /** No frame is lost or counted twice: it is an event, an orphan, the answer, or a stray request. */
  lemma {:induction false} EveryFrameRouted(request: Frame, frames: seq<Frame>)
    ensures |frames| == |Events(frames)| + |Orphans(request, frames, false)|
                        + (if FirstMatch(request, frames).Some? then 1 else 0) + |StrayRequests(frames)|
    decreases |frames|
  {
    if frames != [] {
      if Matches(request, frames[0]) {
        AnsweredOrphans(request, frames[1..]);
      } else {
        EveryFrameRouted(request, frames[1..]);
      }
    }
  }

  function StrayRequests(frames: seq<Frame>): seq<Frame> {
    if frames == [] then []
    else (if frames[0].frameType == Request then [frames[0]] else []) + StrayRequests(frames[1..])
  }

  lemma {:induction false} AnsweredOrphans(request: Frame, frames: seq<Frame>)
    ensures |frames| == |Events(frames)| + |Orphans(request, frames, true)| + |StrayRequests(frames)|
    decreases |frames|
  {
    if frames != [] {
      AnsweredOrphans(request, frames[1..]);
    }
  }

  // ------------------------------------------------------------ where a response comes from

  /** `x` is a stretch of `s`. */
  ghost predicate Inside(x: seq<Byte>, s: seq<Byte>) {
    exists i: nat :: LiesAt(x, s, i)
  }

  predicate LiesAt(x: seq<Byte>, s: seq<Byte>, i: nat) {
    i + |x| <= |s| && s[i..i + |x|] == x
  }

  lemma InsideTail(x: seq<Byte>, s: seq<Byte>, k: nat)
    requires k <= |s| && Inside(x, s[k..])
    ensures Inside(x, s)
  {
    var i: nat :| LiesAt(x, s[k..], i);
    assert LiesAt(x, s, k + i);
  }

  /** A frame the parser reports was on the stream, octet for octet. */
  lemma {:induction false} ScannedFramesInside(s: seq<Byte>, lim: Limits)
    ensures forall f <- Frames(Scan(s, lim).items) :: Inside(Encode(f), s)
    decreases |s|
  {
    hide Encode, Look, Scan, Inside, Frames;
    match Look(s, lim)
    case Wait =>
      ScanWaits(s, lim);
      FramesOfNothing();
    case Take(item, n) =>
      ScanTakes(s, lim);
      ItemSpellsItsBytes(s, lim);
      var more := Scan(s[n..], lim);
      ScannedFramesInside(s[n..], lim);
      ItemsConcat([item], more.items);
      SingleItem(item);
      forall f | f in Frames([item] + more.items) ensures Inside(Encode(f), s) {
        if f in Frames(more.items) {
          InsideTail(Encode(f), s, n);
        } else {
          HeadInside(s, n);
        }
      }
  }

  lemma FramesOfNothing()
    ensures Frames([]) == []
  {
  }

  lemma HeadInside(s: seq<Byte>, n: nat)
    requires n <= |s|
    ensures Inside(s[..n], s)
  {
    assert LiesAt(s[..n], s, 0);
  }

  lemma {:induction false} SalvagedFramesInside(s: seq<Byte>, lim: Limits)
    ensures forall f <- Salvage(s, lim) :: Inside(Encode(f), s)
    decreases |s|
  {
    hide Encode, Look, Inside;
    if s != [] {
      match Look(s, lim)
      case Take(Got(g), n) =>
        ItemSpellsItsBytes(s, lim);
        SalvagedFramesInside(s[n..], lim);
        forall f | f in Salvage(s, lim) ensures Inside(Encode(f), s) {
          if f in Salvage(s[n..], lim) {
            InsideTail(Encode(f), s, n);
          } else {
            HeadInside(s, n);
          }
        }
      case _ =>
        SalvagedFramesInside(s[1..], lim);
        forall f | f in Salvage(s, lim) ensures Inside(Encode(f), s) {
          InsideTail(Encode(f), s, 1);
        }
    }
  }

  // ------------------------------------------------------------ what an attempt hears

  /** The frames that `got` completes behind what the parser already held. */
  function Heard(pending: seq<Byte>, got: seq<Byte>, lim: Limits): seq<Frame> {
    if got == [] then [] else Frames(Scan(pending + got, lim).items)
  }

  function Unparsed(pending: seq<Byte>, got: seq<Byte>, lim: Limits): seq<Byte> {
    if got == [] then pending else Scan(pending + got, lim).rest
  }

  /** The first frame that answers the request; once time is up, torn data is searched as well. */
  function Answer(request: Frame, pending: seq<Byte>, got: seq<Byte>, over: bool, lim: Limits): Option<Frame> {
    var inTime := FirstMatch(request, Heard(pending, got, lim));
    if inTime.None? && over then FirstMatch(request, Salvage(Unparsed(pending, got, lim), lim)) else inTime
  }

  /** One attempt took `got` and ended with this answer in time, or with its time up. */
  predicate Attended(request: Frame, pending: seq<Byte>, got: seq<Byte>, left: seq<Byte>, a: Option<Frame>,
                     lim: Limits)
  {
    || (a.Some? && a == Answer(request, pending, got, false, lim) && left == Unparsed(pending, got, lim))
    || (a == Answer(request, pending, got, true, lim) && left == [])
  }

  /** An answer that says the request arrived garbled only calls for another attempt. */
  predicate Usable(a: Option<Frame>) {
    a.Some? && a.value.status != STATUS_CRC_ERROR
  }

  /** `n` attempts took `got` between them, and none had a usable answer. */
  ghost predicate Unheeded(request: Frame, pending: seq<Byte>, got: seq<Byte>, left: seq<Byte>, lim: Limits, n: nat)
    decreases n
  {
    if n == 0 then got == [] && left == pending
    else
      exists k: nat, mid: seq<Byte>, a: Option<Frame> ::
        && k <= |got| && Unheeded(request, pending, got[..k], mid, lim, n - 1)
        && Attended(request, mid, got[k..], left, a, lim) && !Usable(a)
  }

  lemma OneMoreUnheeded(request: Frame, pending: seq<Byte>, got: seq<Byte>, k: nat, mid: seq<Byte>, left: seq<Byte>,
                        a: Option<Frame>, lim: Limits, n: nat)
    requires k <= |got| && Unheeded(request, pending, got[..k], mid, lim, n)
    requires Attended(request, mid, got[k..], left, a, lim) && !Usable(a)
    ensures Unheeded(request, pending, got, left, lim, n + 1)
  {
    hide Attended, Usable;
  }

  lemma NoneUnheeded(request: Frame, pending: seq<Byte>, lim: Limits)
    ensures Unheeded(request, pending, [], pending, lim, 0)
  {
  }

  /** Only an answer that reports success is returned. */
  function Successful(f: Frame): Result<Frame, SessionError> {
    if Succeeded(f) then Ok(f) else Err(Remote(f))
  }

  function Outcome(a: Option<Frame>): Result<Frame, SessionError> {
    if a.Some? then Successful(a.value) else Err(Transport(NoAnswer))
  }

  /** The result is the first usable answer of the attempts, or whatever the last one ended with. */
  ghost predicate Concluded(request: Frame, pending: seq<Byte>, got: seq<Byte>, lim: Limits, retries: nat,
                            r: Result<Frame, SessionError>)
  {
    exists m: nat, k: nat, mid: seq<Byte>, left: seq<Byte>, a: Option<Frame> ::
      && m <= retries && k <= |got| && Unheeded(request, pending, got[..k], mid, lim, m)
      && Attended(request, mid, got[k..], left, a, lim) && (Usable(a) || m == retries) && r == Outcome(a)
  }

  lemma EndsHere(request: Frame, pending: seq<Byte>, got: seq<Byte>, k: nat, mid: seq<Byte>, left: seq<Byte>,
                 a: Option<Frame>, lim: Limits, attempt: nat, retries: nat)
    requires attempt <= retries && k <= |got| && Unheeded(request, pending, got[..k], mid, lim, attempt)
    requires Attended(request, mid, got[k..], left, a, lim)
    ensures Usable(a) || attempt == retries ==> Concluded(request, pending, got, lim, retries, Outcome(a))
  {
  }

  // ------------------------------------------------------------ the session

  datatype TransportError = Disconnected | SendBroke | ReceiveBroke | ConfigureBroke | OversizedRead | NoAnswer

  datatype SessionError =
    | InvalidRequest
    | Quarantined(reason: TransportError)
    | PayloadTooLarge(actual: nat, maximum: nat)
    | Transport(why: TransportError)
    | Remote(response: Frame)

  predicate IsTail(t: seq<Byte>, s: seq<Byte>) {
    |t| <= |s| && s[|s| - |t|..] == t
  }

  lemma EmptyTail()
    ensures IsTail([], [])
  {
  }

  /** How one step of an attempt ends. */
  datatype Step = Going | AttemptOver | Broken(why: TransportError)

  /** What the caller of a session may do with it. */
  datatype Call =
    | Negotiate(peer: Word)
    | Ask(opcode: Byte, payload: seq<Byte>, flags: Byte, retries: nat, patience: nat)

  class SequenceCounter {
    var value: Word

    constructor (start: Word)
      ensures value == start
    {
      value := start;
    }

    /** Sixteen bits, wrapping. */
    method Next() returns (sequence: Word)
      modifies this
      ensures sequence == old(value) && value == (old(value) + 1) % 0x1_0000
    {
      sequence := value;
      value := if value == 0xFFFF then 0 else value + 1;
    }
  }

  class Session {
    const stream: Stream
    const parser: FrameParser
    const sequences: SequenceCounter
    const localMaxPayload: Word
    const queueLimit: nat
    const wakeAck: Option<Byte>
    const wakeAckOptional: bool
    const wakeDelay: bool
    const quarantineOnFailure: bool
    var peerMaxPayload: Word
    var events: seq<Frame>
    var orphans: seq<Frame>
    var protocolErrors: seq<ProtocolError>
    var quarantine: Option<TransportError>
    /** Every octet handed to the parser so far. */
    ghost var fed: seq<Byte>
    /** Transmissions begun so far. */
    ghost var tries: nat

    constructor (stream: Stream, localMaxPayload: Word, peerMaxPayload: Word, start: Word, queueLimit: nat,
                 wakeAck: Option<Byte>, wakeAckOptional: bool, wakeDelay: bool, quarantineOnFailure: bool)
      ensures Valid() && this.stream == stream && fresh(parser) && fresh(sequences)
      ensures sequences.value == start && quarantine.None? && fed == []
      ensures this.localMaxPayload == localMaxPayload && this.peerMaxPayload == peerMaxPayload
      ensures this.wakeAck == wakeAck && this.wakeAckOptional == wakeAckOptional
      ensures this.quarantineOnFailure == quarantineOnFailure
      ensures Failure !in stream.log ==> Disciplined()
    {
      hide IsTail;
      EmptyTail();
      var limit := if peerMaxPayload < localMaxPayload then peerMaxPayload else localMaxPayload;
      var emptyParser := new FrameParser(PROTOCOL_VERSION, limit);
      var counter := new SequenceCounter(start);
      this.stream, parser, sequences := stream, emptyParser, counter;
      this.localMaxPayload, this.peerMaxPayload, this.queueLimit := localMaxPayload, peerMaxPayload, queueLimit;
      this.wakeAck, this.wakeAckOptional, this.wakeDelay := wakeAck, wakeAckOptional, wakeDelay;
      this.quarantineOnFailure := quarantineOnFailure;
      events, orphans, protocolErrors, quarantine, fed, tries := [], [], [], None, [], 0;
    }

    /** The parser holds the tail of what it was fed, under the negotiated limit. */
    ghost predicate Valid()
      reads this, parser
    {
      && IsTail(parser.buffer, fed)
      && parser.maxPayload == MaxPayload()
      && |events| <= queueLimit && |orphans| <= queueLimit && |protocolErrors| <= queueLimit
    }

    function MaxPayload(): Word
      reads this
    {
      if peerMaxPayload < localMaxPayload then peerMaxPayload else localMaxPayload
    }

    function WakeRule(): Wake {
      Wake(wakeAck, wakeAckOptional)
    }

    function Strict(): Option<Byte> {
      Strictly(WakeRule())
    }

    method NegotiateMaxPayload(peer: Word) returns (effective: Word)
      requires Valid()
      modifies this`peerMaxPayload, parser`maxPayload
      ensures Valid() && effective == MaxPayload() && effective <= peer && effective <= localMaxPayload
    {
      peerMaxPayload := peer;
      parser.maxPayload := MaxPayload();
      effective := MaxPayload();
    }

    /** The first failure is remembered and blocks every later write. */
    method NoteFailure(why: TransportError)
      modifies this`quarantine, stream
      ensures stream.log == old(stream.log) + [Failure]
      ensures quarantine == if quarantineOnFailure && old(quarantine).None? then Some(why) else old(quarantine)
    {
      if quarantineOnFailure && quarantine.None? {
        quarantine := Some(why);
      }
      stream.log := stream.log + [Failure];
    }

    /** A quarantining session has written nothing since the first failure, and knows of it. */
    ghost predicate Disciplined()
      reads this`quarantine, stream
    {
      quarantineOnFailure ==> Hushed(stream.log) && (Failure in stream.log ==> quarantine.Some?)
    }

    // ---------------------------------------------------------- sending

    /** The deadline may pass and the stream may refuse its timeout at any time. */
    method BeforeIo(wire: seq<Byte>, ghost start: nat, sending: bool) returns (step: Step)
      requires start <= |stream.log| && Attempted(stream.log[start..], wire, Strict())
      modifies stream
      ensures old(stream.log) <= stream.log
      ensures step.Broken? ==> step.why == ConfigureBroke && Broke in stream.log[start..]
      ensures step == AttemptOver ==> Lapsed(sending) in stream.log[|old(stream.log)|..]
      ensures step == Going ==> stream.log == old(stream.log)
      ensures old(stream.log) <= stream.log && Attempted(stream.log[start..], wire, Strict())
      ensures Written(stream.log[start..]) == Written(old(stream.log)[start..])
      ensures Stops(old(stream.log), stream.log, step.Broken?)
    {
      hide Attempted, Written, Stops;
      ghost var before := stream.log;
      var passed := stream.Deadline(sending);
      if passed {
        Idles(before, start, [Lapsed(sending)], wire, Strict());
        IdleStops(before, [Lapsed(sending)], false);
        return AttemptOver;
      }
      assert stream.log == before;
      var ok := stream.Configure();
      Idles(before, start, BreakIf(!ok), wire, Strict());
      IdleStops(before, BreakIf(!ok), !ok);
      if ok {
        assert stream.log == before;
        return Going;
      }
      return Broken(ConfigureBroke);
    }

    /** Writes the next part of the encoding of this attempt. */
    method SendChunk(chunk: seq<Byte>, wire: seq<Byte>, ghost start: nat) returns (step: Step)
      requires start <= |stream.log| && Attempted(stream.log[start..], wire, Strict())
      requires Written(stream.log[start..]) + chunk <= wire
      requires Strict().Some? && |Written(stream.log[start..]) + chunk| > 1 ==>
        Read([Strict().value]) in stream.log[start..]
      modifies stream
      ensures old(stream.log) <= stream.log
      ensures step.Broken? ==> step.why != NoAnswer && Broke in stream.log[start..]
      ensures step == AttemptOver ==> Lapsed(true) in stream.log[start..]
      ensures step == Going ==> stream.log == old(stream.log) + [Wrote(chunk)]
      ensures old(stream.log) <= stream.log && Attempted(stream.log[start..], wire, Strict())
      ensures step == Going ==> Written(stream.log[start..]) == Written(old(stream.log)[start..]) + chunk
      ensures step == Going ==> Written(stream.log[start..]) <= wire
      ensures Stops(old(stream.log), stream.log, step.Broken?)
    {
      hide Attempted, Written, Stops;
      ghost var before := stream.log;
      step := BeforeIo(wire, start, true);
      if step != Going {
        assert step == AttemptOver ==> Lapsed(true) in stream.log[start..];
        return;
      }
      var r := stream.SendAll(chunk);
      ghost var n: nat :| n <= |chunk| && stream.log == before + [Wrote(chunk[..n])] + SendTrace(r);
      ghost var sent, middle := chunk[..n], before + [Wrote(chunk[..n])];
      assert middle[start..] == before[start..] + [Wrote(sent)];
      assert Written(before[start..]) + sent <= Written(before[start..]) + chunk;
      AttemptWrites(before[start..], wire, Strict(), sent);
      WrittenStep(before[start..], Wrote(sent));
      WriteStops(before, sent);
      Idles(middle, start, SendTrace(r), wire, Strict());
      IdleStops(middle, SendTrace(r), r == SendFailed);
      OneMoreStop(before, middle, stream.log, r == SendFailed);
      match r
      case Sent =>
        assert Wrote(sent) == stream.log[|before|] == Wrote(chunk);
        return Going;
      case SendTimedOut => return AttemptOver;
      case SendFailed => return Broken(SendBroke);
    }

    /** Waits for the wake acknowledgement; an optional one may also just not come. */
    method AwaitWake(ghost start: nat, wire: seq<Byte>) returns (step: Step)
      requires wakeAck.Some? && start <= |stream.log| && Attempted(stream.log[start..], wire, Strict())
      requires NoWake !in stream.log[start..] && FirstRead(stream.log[start..]) == None
      modifies stream
      ensures old(stream.log) <= stream.log
      ensures step.Broken? ==> step.why != NoAnswer
      ensures step.Broken? ==>
        Broke in stream.log[start..] || (step.why == OversizedRead && Oversized(stream.log[start..]))
      ensures step != Going ==> CutShort(stream.log[start..], WakeRule())
      ensures old(stream.log) <= stream.log && Attempted(stream.log[start..], wire, Strict())
      ensures Written(stream.log[start..]) == Written(old(stream.log)[start..])
      ensures step == Going && Strict().Some? ==> Read([Strict().value]) in stream.log[start..]
      ensures step == Going ==> FirstRead(stream.log[start..]) == Some([wakeAck.value]) || NoWake in stream.log[start..]
      ensures Stops(old(stream.log), stream.log, step.Broken?)
    {
      hide Attempted, Written, Stops, FirstRead;
      step := BeforeIo(wire, start, true);
      if step != Going {
        assert step == AttemptOver ==> Lapsed(true) in stream.log[start..];
        return;
      }
      ghost var before := stream.log;
      var r := HearOnce(wire, start, true);
      match r
      case ReceiveTimedOut =>
        assert stream.log[start..][|before| - start] == NoWake;
        return if wakeAckOptional then Going else AttemptOver;
      case ReceiveFailed => return Broken(ReceiveBroke);
      case Closed => return Broken(Disconnected);
      case Data(data) =>
        FirstReadStep(before[start..], Read(data));
        assert stream.log[start..] == before[start..] + [Read(data)];
        if |data| != 1 {
          StopsAnyway(old(stream.log), stream.log);
          return Broken(OversizedRead);
        }
        if data[0] != wakeAck.value {
          return AttemptOver;
        }
        assert data == [wakeAck.value];
        return Going;
    }

    /** More, or less, than one octet where one was asked for. */
    predicate Oversized(log: seq<Event>) {
      FirstRead(log).Some? && |FirstRead(log).value| != 1
    }

    /** One `recv`, which the attempt does not notice. */
    method HearOnce(wire: seq<Byte>, ghost start: nat, wake: bool) returns (r: ReceiveResult)
      requires start <= |stream.log| && Attempted(stream.log[start..], wire, Strict())
      modifies stream
      ensures r.Data? ==> r.data != []
      ensures stream.log == old(stream.log) + ReceiveTrace(r, wake)
      ensures stream.log[start..] == old(stream.log)[start..] + ReceiveTrace(r, wake)
      ensures Attempted(stream.log[start..], wire, Strict())
      ensures Written(stream.log[start..]) == Written(old(stream.log)[start..])
      ensures Stops(old(stream.log), stream.log, r.ReceiveFailed? || r.Closed?)
    {
      hide Attempted, Written, Stops;
      ghost var before := stream.log;
      r := stream.Receive(wake);
      Idles(before, start, ReceiveTrace(r, wake), wire, Strict());
      IdleStops(before, ReceiveTrace(r, wake), r.ReceiveFailed? || r.Closed?);
    }

    /** One transmission of the encoded request: all of it, unless it was cut short. */
    method SendWire(wire: seq<Byte>) returns (step: Step)
      requires |wire| > 1
      modifies stream
      ensures old(stream.log) <= stream.log
      ensures step.Broken? ==> step.why != NoAnswer
      ensures step.Broken? ==>
        || Broke in stream.log[|old(stream.log)|..]
        || (step.why == OversizedRead && Oversized(stream.log[|old(stream.log)|..]))
      ensures step == Going ==> Written(stream.log[|old(stream.log)|..]) == wire
      ensures step != Going ==> CutShort(stream.log[|old(stream.log)|..], WakeRule())
      ensures Attempted(stream.log[|old(stream.log)|..], wire, Strict())
      ensures Stops(old(stream.log), stream.log, step.Broken?)
    {
      hide Attempted, Written, FirstRead, WrongWake, Stops;
      ghost var start, before := |stream.log|, stream.log;
      assert stream.log[start..] == [];
      NothingAttempted(wire, Strict());
      var first, rest := wire[..1], wire[1..];
      assert wire == first + rest;
      assert [] + first == first && first <= wire && [] + wire == wire;
      if wakeAck.Some? {
        step := SendChunk(first, wire, start);
        if step != Going {
          return;
        }
        assert stream.log[start..] == [] + [Wrote(first)];
        FirstReadStep([], Wrote(first));
        ghost var begun := stream.log;
        step := AwaitWake(start, wire);
        OneMoreStop(before, begun, stream.log, step.Broken?);
        if step != Going {
          return;
        }
        ghost var woken := stream.log;
        step := SendChunk(rest, wire, start);
        OneMoreStop(before, woken, stream.log, step.Broken?);
      } else if wakeDelay {
        step := SendChunk(first, wire, start);
        if step != Going {
          return;
        }
        ghost var begun := stream.log;
        var late := stream.Deadline(true);
        if late {
          Idles(begun, start, [Lapsed(true)], wire, Strict());
          IdleStops(begun, [Lapsed(true)], false);
          OneMoreStop(before, begun, stream.log, false);
          return AttemptOver;
        }
        assert stream.log == begun;
        step := SendChunk(rest, wire, start);
        OneMoreStop(before, begun, stream.log, step.Broken?);
      } else {
        step := SendChunk(wire, wire, start);
      }
    }

    // ---------------------------------------------------------- receiving

    /** Sorts a batch of frames: events, orphans, complaints, and the first answer. */
    method RouteFrames(frames: seq<Frame>, request: Frame) returns (correlated: Option<Frame>)
      requires |events| <= queueLimit && |orphans| <= queueLimit && |protocolErrors| <= queueLimit
      modifies this`events, this`orphans, this`protocolErrors
      ensures correlated == FirstMatch(request, frames)
      ensures events == Newest(old(events) + Events(frames), queueLimit)
      ensures orphans == Newest(old(orphans) + Orphans(request, frames, false), queueLimit)
      ensures protocolErrors == Newest(old(protocolErrors) + Rejections(request, frames), queueLimit)
    {
      correlated := None;
      assert frames[0..] == frames;
      assert old(events) + [] == old(events);
      for k := 0 to |frames|
        invariant |events| <= queueLimit && |orphans| <= queueLimit && |protocolErrors| <= queueLimit
        invariant Newest(events + Events(frames[k..]), queueLimit)
                  == Newest(old(events) + Events(frames), queueLimit)
        invariant Newest(orphans + Orphans(request, frames[k..], correlated.Some?), queueLimit)
                  == Newest(old(orphans) + Orphans(request, frames, false), queueLimit)
        invariant Newest(protocolErrors + Rejections(request, frames[k..]), queueLimit)
                  == Newest(old(protocolErrors) + Rejections(request, frames), queueLimit)
        invariant correlated.Some? ==> correlated == FirstMatch(request, frames)
        invariant correlated.None? ==> FirstMatch(request, frames) == FirstMatch(request, frames[k..])
      {
        var frame := frames[k];
        ghost var rest := frames[k..];
        assert rest[0] == frame && rest[1..] == frames[k + 1..];
        RouteOne(frame, request, correlated.Some?, rest);
        if correlated.None? && Matches(request, frame) {
          correlated := Some(frame);
        }
      }
      assert frames[|frames|..] == [];
      assert events + [] == events && orphans + [] == orphans && protocolErrors + [] == protocolErrors;
    }

    method RouteOne(frame: Frame, request: Frame, answered: bool, ghost rest: seq<Frame>)
      requires |events| <= queueLimit && |orphans| <= queueLimit && |protocolErrors| <= queueLimit
      requires rest != [] && rest[0] == frame
      modifies this`events, this`orphans, this`protocolErrors
      ensures |events| <= queueLimit && |orphans| <= queueLimit && |protocolErrors| <= queueLimit
      ensures Newest(events + Events(rest[1..]), queueLimit)
              == Newest(old(events) + Events(rest), queueLimit)
      ensures Newest(orphans + Orphans(request, rest[1..], answered || Matches(request, frame)), queueLimit)
              == Newest(old(orphans) + Orphans(request, rest, answered), queueLimit)
      ensures Newest(protocolErrors + Rejections(request, rest[1..]), queueLimit)
              == Newest(old(protocolErrors) + Rejections(request, rest), queueLimit)
    {
      hide Newest;
      ghost var event := if frame.frameType == FrameType.Event then [frame] else [];
      ghost var orphan := if frame.frameType == Response && (answered || !Matches(request, frame)) then [frame] else [];
      ghost var complaint :=
        if frame.frameType == Request then [Unexpected(frame)]
        else if frame.frameType == Response && !Matches(request, frame) then [Mismatch(frame)] else [];
      PushNewest(events, event, Events(rest[1..]), queueLimit);
      PushNewest(orphans, orphan, Orphans(request, rest[1..], answered || Matches(request, frame)), queueLimit);
      PushNewest(protocolErrors, complaint, Rejections(request, rest[1..]), queueLimit);
      if frame.frameType == FrameType.Event {
        events := Newest(events + [frame], queueLimit);
      } else if frame.frameType != Response {
        protocolErrors := Newest(protocolErrors + [Unexpected(frame)], queueLimit);
      } else if !Matches(request, frame) {
        protocolErrors := Newest(protocolErrors + [Mismatch(frame)], queueLimit);
        orphans := Newest(orphans + [frame], queueLimit);
      } else if answered {
        orphans := Newest(orphans + [frame], queueLimit);
      }
    }

    /** Parser errors join the complaints. */
    method CollectParserErrors()
      requires |protocolErrors| <= queueLimit
      modifies this`protocolErrors, parser`errors
      ensures |protocolErrors| <= queueLimit && parser.errors == []
    {
      var errors := parser.PopErrors();
      protocolErrors := Newest(protocolErrors + seq(|errors|, i requires 0 <= i < |errors| => Parser(errors[i])),
                               queueLimit);
    }

    /** The answer to a request, found on the stream after what earlier requests consumed. */
    ghost predicate Genuine(request: Frame, f: Frame, from: nat)
      reads this
    {
      from <= |fed| && Matches(request, f) && Inside(Encode(f), fed[from..])
    }

    /** The first match among the frames received is the response, and the parser keeps the rest. */
    ghost predicate Sought(request: Frame, pending: seq<Byte>, got: seq<Byte>, response: Option<Frame>)
      reads parser
    {
      && response == FirstMatch(request, Heard(pending, got, parser.Lim()))
      && parser.buffer == Unparsed(pending, got, parser.Lim())
    }

    /** Reads until the answer comes or the attempt ends. */
    method WaitForResponse(request: Frame, wire: seq<Byte>, ghost start: nat, ghost from: nat, patience: nat)
      returns (step: Step, response: Option<Frame>)
      requires Valid() && start <= |stream.log| && Attempted(stream.log[start..], wire, Strict())
      requires from <= |fed| - |parser.buffer|
      modifies this`events, this`orphans, this`protocolErrors, this`fed, parser`buffer, parser`errors, stream
      ensures step.Broken? ==> step.why != NoAnswer
      ensures Valid() && old(fed) <= fed && from <= |fed| - |parser.buffer|
      ensures old(stream.log) <= stream.log && Attempted(stream.log[start..], wire, Strict())
      ensures step == Going <==> response.Some?
      ensures step.Broken? ==> Broke in stream.log[start..]
      ensures step == AttemptOver ==>
        Lapsed(false) in stream.log[start..] || patience <= |stream.log| - |old(stream.log)|
      ensures Written(stream.log[start..]) == Written(old(stream.log)[start..])
      ensures response.Some? ==> Genuine(request, response.value, from)
      ensures Sought(request, old(parser.buffer), fed[|old(fed)|..], response)
      ensures Stops(old(stream.log), stream.log, step.Broken?)
    {
      hide Attempted, Inside, Matches, Written, Stops, Scan, Frames, FirstMatch, Heard, Unparsed, Encode;
      response := None;
      assert fed[|old(fed)|..] == [];
      NothingHeard(request, parser.buffer, parser.Lim());
      StandStill(stream.log);
      var budget := patience;
      while budget > 0
        invariant response.None? && Valid() && old(fed) <= fed && from <= |fed| - |parser.buffer|
        invariant Stops(old(stream.log), stream.log, false)
        invariant Sought(request, old(parser.buffer), fed[|old(fed)|..], None)
        invariant old(stream.log) <= stream.log && Attempted(stream.log[start..], wire, Strict())
        invariant Written(stream.log[start..]) == Written(old(stream.log)[start..])
        invariant patience - budget <= |stream.log| - |old(stream.log)|
        decreases budget
      {
        budget := budget - 1;
        ghost var before := stream.log;
        step := BeforeIo(wire, start, false);
        OneMoreStop(old(stream.log), before, stream.log, step.Broken?);
        if step != Going {
          assert step == AttemptOver ==> Lapsed(false) in stream.log[start..];
          return;
        }
        before := stream.log;
        var r := HearOnce(wire, start, false);
        OneMoreStop(old(stream.log), before, stream.log, r.ReceiveFailed? || r.Closed?);
        match r {
          case ReceiveTimedOut => return AttemptOver, None;
          case ReceiveFailed => return Broken(ReceiveBroke), None;
          case Closed => return Broken(Disconnected), None;
          case Data(data) =>
            ghost var got := fed[|old(fed)|..];
            response := Digest(data, request, from);
            assert fed[|old(fed)|..] == got + data;
            HeardFurther(request, old(parser.buffer), got, data, parser.Lim());
        }
        if response.Some? {
          return Going, response;
        }
      }
      return AttemptOver, None;
    }

    /** Parses what arrived and routes the frames. */
    method Digest(data: seq<Byte>, request: Frame, ghost from: nat) returns (response: Option<Frame>)
      requires Valid() && from <= |fed| - |parser.buffer|
      modifies this`events, this`orphans, this`protocolErrors, this`fed, parser`buffer, parser`errors
      ensures Valid() && fed == old(fed) + data && from <= |fed| - |parser.buffer|
      ensures response.Some? ==> Genuine(request, response.value, from)
      ensures parser.buffer == Scan(old(parser.buffer) + data, parser.Lim()).rest
      ensures response == FirstMatch(request, Frames(Scan(old(parser.buffer) + data, parser.Lim()).items))
    {
      hide Inside, Encode, Matches, Scan, Frames, Newest;
      var frames := Absorb(data, from);
      response := RouteFrames(frames, request);
      CollectParserErrors();
    }

    /** Feeds the parser; every frame it reports lies on the stream. */
    method Absorb(data: seq<Byte>, ghost from: nat) returns (frames: seq<Frame>)
      requires Valid() && from <= |fed| - |parser.buffer|
      modifies this`fed, parser`buffer, parser`errors
      ensures Valid() && fed == old(fed) + data && from <= |fed| - |parser.buffer|
      ensures from <= |fed| && forall f <- frames :: Inside(Encode(f), fed[from..])
      ensures parser.buffer == Scan(old(parser.buffer) + data, parser.Lim()).rest
      ensures frames == Frames(Scan(old(parser.buffer) + data, parser.Lim()).items)
    {
      hide Inside, Encode, Scan, Frames;
      ghost var pending := parser.buffer + data;
      frames := parser.Feed(data);
      fed := fed + data;
      FedTail(fed, pending, from, frames, parser.Lim());
    }

    /** A timeout is a framing boundary: whole frames behind a torn one are still found. */
    method FinishAttempt(request: Frame, ghost from: nat) returns (response: Option<Frame>)
      requires Valid() && from <= |fed| - |parser.buffer|
      modifies this`events, this`orphans, this`protocolErrors, parser`buffer, parser`errors
      ensures Valid() && parser.buffer == [] && from <= |fed| - |parser.buffer|
      ensures response.Some? ==> Genuine(request, response.value, from)
      ensures response == FirstMatch(request, Salvage(old(parser.buffer), parser.Lim()))
    {
      hide Inside, Encode, Matches, Salvage, Newest;
      ghost var pending := parser.buffer;
      ghost var at := |fed| - |pending|;
      var frames := parser.Finish();
      response := RouteFrames(frames, request);
      CollectParserErrors();
      if response.Some? {
        SalvagedFramesInside(pending, parser.Lim());
        assert fed[from..][at - from..] == fed[at..];
        InsideTail(Encode(response.value), fed[from..], at - from);
      }
    }

    // ---------------------------------------------------------- one request

    /** What a result may be, given the request and the stream since it began. */
    ghost predicate Honest(request: Frame, r: Result<Frame, SessionError>, from: nat)
      reads this
    {
      && (r.Ok? ==> Genuine(request, r.value, from) && Succeeded(r.value))
      && (r.Err? && r.error.Remote? ==> Genuine(request, r.error.response, from) && !Succeeded(r.error.response))
      && (r.Err? && r.error.Transport? && quarantineOnFailure ==> quarantine.Some?)
      && (r.Err? ==> r.error.Remote? || r.error.Transport?)
    }

    /** The failures that mean: every transmission was tried. */
    predicate GaveUp(r: Result<Frame, SessionError>) {
      r.Err? && (r.error == Transport(NoAnswer) || (r.error.Remote? && r.error.response.status == STATUS_CRC_ERROR))
    }

    /**
     * Every failed exchange has its cause on the stream: a broken stream, an answer to the wake
     * octet that is too long, or, for want of an answer, the reasons that end a last attempt.
     */
    ghost predicate Caused(r: Result<Frame, SessionError>, log: seq<Event>, patience: nat) {
      r.Err? && r.error.Transport? ==>
        match r.error.why
        case NoAnswer =>
          && log != [] && log[|log| - 1] == Failure
          && exists k :: ExcusedFrom(log, k, patience)
        case OversizedRead => Broke in log || exists k :: OversizedFrom(log, k)
        case _ => Broke in log
    }

    /** The last attempt, which began at `k`, had to end without an answer. */
    predicate ExcusedFrom(log: seq<Event>, k: nat, patience: nat) {
      k < |log| && Excused(log[k..|log| - 1], WakeRule(), patience)
    }

    predicate OversizedFrom(log: seq<Event>, k: nat) {
      k < |log| && Oversized(log[k..|log| - 1])
    }

    lemma BrokenIsCause(run: seq<Event>, k: nat, why: TransportError, patience: nat)
      requires k <= |run| && why != NoAnswer
      requires Broke in run[k..] || (why == OversizedRead && Oversized(run[k..]))
      ensures Caused(Err(Transport(why)), run + [Failure], patience)
    {
      var log := run + [Failure];
      assert log[k..|log| - 1] == run[k..];
      if Broke in run[k..] {
        assert Broke in log;
      } else {
        assert OversizedFrom(log, k);
      }
    }

    lemma NoCauseNeeded(r: Result<Frame, SessionError>, log: seq<Event>, patience: nat)
      requires r.Err? ==> !r.error.Transport?
      ensures Caused(r, log, patience)
    {
    }

    lemma SilenceIsCause(run: seq<Event>, k: nat, patience: nat)
      requires k <= |run| && Excused(run[k..], WakeRule(), patience)
      ensures Caused(Err(Transport(NoAnswer)), run + [Failure], patience)
    {
      var log := run + [Failure];
      assert log[k..|log| - 1] == run[k..];
      assert ExcusedFrom(log, k, patience);
    }

    /** The stream failed under way. */
    predicate StreamFailed(r: Result<Frame, SessionError>) {
      r.Err? && r.error.Transport? && r.error.why != NoAnswer
    }

    /** The attempts of one request. */
    method Exchange(request: Frame, retries: nat, patience: nat) returns (r: Result<Frame, SessionError>)
      requires Valid() && quarantine.None?
      modifies this`events, this`orphans, this`protocolErrors, this`fed, this`tries, this`quarantine
      modifies parser`buffer, parser`errors, stream
      ensures Valid() && old(stream.log) <= stream.log && old(fed) <= fed
      ensures old(tries) < tries
      ensures Attempts(stream.log[|old(stream.log)|..], Encode(request), WakeRule(), tries - old(tries))
      ensures Caused(r, stream.log[|old(stream.log)|..], patience)
      ensures Honest(request, r, |old(fed)| - |old(parser.buffer)|)
      ensures old(tries) < tries <= old(tries) + retries + 1
      ensures GaveUp(r) ==> tries == old(tries) + retries + 1
      ensures Stops(old(stream.log), stream.log, r.Err? && r.error.Transport?)
      ensures r.Err? && r.error.Transport? ==> Failure in stream.log
      ensures StreamFailed(r) || Concluded(request, old(parser.buffer), fed[|old(fed)|..], parser.Lim(), retries, r)
    {
      hide Attempted, Attempts, Encode, Genuine, Succeeded, Stops, Attended, Unheeded, Excused, Oversized, Caused,
        Concluded;
      var wire := Encode(request);
      EncodingIsLong(request);
      ghost var start := |stream.log|;
      ghost var from := |fed| - |parser.buffer|;
      assert stream.log[start..] == [];
      NoAttempts(wire, WakeRule());
      StandStill(stream.log);
      NoneUnheeded(request, parser.buffer, parser.Lim());
      assert fed[|old(fed)|..] == [];
      for attempt := 0 to retries + 1
        invariant Stops(old(stream.log), stream.log, false)
        invariant attempt <= retries
        invariant Valid() && quarantine.None? && old(stream.log) <= stream.log && old(fed) <= fed
        invariant from <= |fed| - |parser.buffer| && tries == old(tries) + attempt
        invariant Attempts(stream.log[start..], wire, WakeRule(), attempt)
        invariant Unheeded(request, old(parser.buffer), fed[|old(fed)|..], parser.buffer, parser.Lim(), attempt)
      {
        ghost var before, mid, k := stream.log, parser.buffer, |fed|;
        ghost var heard := fed[|old(fed)|..];
        var step, response := TryAgain(request, wire, start, attempt, from, patience);
        OneMoreStop(old(stream.log), before, stream.log, step.Broken?);
        assert stream.log[start..][|before| - start..] == stream.log[|before|..];
        if step.Broken? {
          r := Fail(step.why, wire, start, |before|, attempt + 1, old(stream.log), patience);
          return;
        }
        ghost var got := fed[|old(fed)|..];
        assert got[..|heard|] == heard && got[|heard|..] == fed[k..];
        EndsHere(request, old(parser.buffer), got, |heard|, mid, parser.buffer, response, parser.Lim(), attempt,
                 retries);
        if response.Some? && !(response.value.status == STATUS_CRC_ERROR && attempt < retries) {
          r := Successful(response.value);
          NoCauseNeeded(r, stream.log[start..], patience);
          return;
        }
        if response.None? && attempt == retries {
          StopsAnyway(old(stream.log), stream.log);
          r := Fail(NoAnswer, wire, start, |before|, attempt + 1, old(stream.log), patience);
          return;
        }
        OneMoreUnheeded(request, old(parser.buffer), got, |heard|, mid, parser.buffer, response, parser.Lim(), attempt);
      }
      assert false;
    }

    /** The end of an exchange whose last attempt began at `k`. */
    method Fail(why: TransportError, wire: seq<Byte>, ghost start: nat, ghost k: nat, ghost n: nat,
                ghost before: seq<Event>, ghost patience: nat)
      returns (r: Result<Frame, SessionError>)
      requires start <= k <= |stream.log| && n > 0 && Attempts(stream.log[start..], wire, WakeRule(), n)
      requires Stops(before, stream.log, true)
      requires if why == NoAnswer then Excused(stream.log[k..], WakeRule(), patience)
               else Broke in stream.log[k..] || (why == OversizedRead && Oversized(stream.log[k..]))
      modifies this`quarantine, stream
      ensures stream.log == old(stream.log) + [Failure] && Stops(before, stream.log, true)
      ensures quarantine == if quarantineOnFailure && old(quarantine).None? then Some(why) else old(quarantine)
      ensures Attempts(stream.log[start..], wire, WakeRule(), n)
      ensures r == Err(Transport(why)) && Caused(r, stream.log[start..], patience)
    {
      hide Attempts, Stops, Excused, Oversized, Caused;
      ghost var last := stream.log;
      GiveUp(why, wire, start, n, before);
      assert stream.log[start..] == last[start..] + [Failure];
      assert last[start..][k - start..] == last[k..];
      if why == NoAnswer {
        SilenceIsCause(last[start..], k - start, patience);
      } else {
        BrokenIsCause(last[start..], k - start, why, patience);
      }
      return Err(Transport(why));
    }

    /** Quarantine at the end of an exchange. */
    method GiveUp(why: TransportError, wire: seq<Byte>, ghost start: nat, ghost n: nat, ghost before: seq<Event>)
      requires start <= |stream.log| && n > 0 && Attempts(stream.log[start..], wire, WakeRule(), n)
      requires Stops(before, stream.log, true)
      modifies this`quarantine, stream
      ensures stream.log == old(stream.log) + [Failure] && Stops(before, stream.log, true)
      ensures quarantine == if quarantineOnFailure && old(quarantine).None? then Some(why) else old(quarantine)
      ensures Attempts(stream.log[start..], wire, WakeRule(), n)
    {
      hide Attempts;
      ghost var log := stream.log;
      NoteFailure(why);
      assert stream.log[start..] == log[start..] + [Failure];
      AttemptsPause(log[start..], wire, WakeRule(), n, [Failure]);
    }

    /** The timeout could not be restored after an exchange. */
    lemma AfterBreak(done: seq<Event>, start: nat, wire: seq<Byte>, n: nat, before: seq<Event>)
      requires start <= |done| && n > 0 && Attempts(done[start..], wire, WakeRule(), n)
      requires stream.log == done + BreakIf(true) && (Stops(before, done, false) || Stops(before, done, true))
      ensures start <= |stream.log| && Attempts(stream.log[start..], wire, WakeRule(), n)
      ensures Stops(before, stream.log, true) && Broke in stream.log[start..]
    {
      hide Attempts;
      assert stream.log[start..] == done[start..] + BreakIf(true);
      assert stream.log[start..][|done| - start] == Broke;
      AttemptsPause(done[start..], wire, WakeRule(), n, BreakIf(true));
    }

    /** One more attempt after `done` others. */
    method TryAgain(request: Frame, wire: seq<Byte>, ghost start: nat, ghost done: nat, ghost from: nat, patience: nat)
      returns (step: Step, response: Option<Frame>)
      requires Valid() && |wire| > 1 && from <= |fed| - |parser.buffer|
      requires start <= |stream.log| && Attempts(stream.log[start..], wire, WakeRule(), done)
      modifies this`events, this`orphans, this`protocolErrors, this`fed, this`tries
      modifies parser`buffer, parser`errors, stream
      ensures Valid() && old(fed) <= fed && from <= |fed| - |parser.buffer|
      ensures old(stream.log) <= stream.log
      ensures Attempts(stream.log[start..], wire, WakeRule(), done + 1)
      ensures step.Broken? ==>
        || Broke in stream.log[|old(stream.log)|..]
        || (step.why == OversizedRead && Oversized(stream.log[|old(stream.log)|..]))
      ensures !step.Broken? && response.None? ==> Excused(stream.log[|old(stream.log)|..], WakeRule(), patience)
      ensures step == Going ==> response.Some?
      ensures step.Broken? ==> step.why != NoAnswer
      ensures tries == old(tries) + 1
      ensures response.Some? ==> Genuine(request, response.value, from)
      ensures !step.Broken? ==>
        Attended(request, old(parser.buffer), fed[|old(fed)|..], parser.buffer, response, parser.Lim())
      ensures Stops(old(stream.log), stream.log, step.Broken?)
    {
      hide Finished, Excused, Attempts, Genuine, Stops, Attended, Oversized;
      ghost var before := stream.log;
      tries := tries + 1;
      step, response := TryOnce(request, wire, from, patience);
      assert stream.log[start..][..|before| - start] == before[start..];
      assert stream.log[start..][|before| - start..] == stream.log[|before|..];
      OneMoreAttempt(stream.log[start..], |before| - start, wire, WakeRule(), done);
    }

    /** Sends once and waits once; after a timeout the parser is brought to a boundary. */
    method TryOnce(request: Frame, wire: seq<Byte>, ghost from: nat, patience: nat)
      returns (step: Step, response: Option<Frame>)
      requires Valid() && |wire| > 1 && from <= |fed| - |parser.buffer|
      modifies this`events, this`orphans, this`protocolErrors, this`fed, parser`buffer, parser`errors, stream
      ensures step.Broken? ==> step.why != NoAnswer
      ensures Valid() && old(fed) <= fed && from <= |fed| - |parser.buffer|
      ensures old(stream.log) <= stream.log
      ensures Finished(stream.log[|old(stream.log)|..], wire, WakeRule())
      ensures step.Broken? ==>
        || Broke in stream.log[|old(stream.log)|..]
        || (step.why == OversizedRead && Oversized(stream.log[|old(stream.log)|..]))
      ensures !step.Broken? && response.None? ==> Excused(stream.log[|old(stream.log)|..], WakeRule(), patience)
      ensures step == Going ==> response.Some?
      ensures response.Some? ==> Genuine(request, response.value, from)
      ensures !step.Broken? ==>
        Attended(request, old(parser.buffer), fed[|old(fed)|..], parser.buffer, response, parser.Lim())
      ensures Stops(old(stream.log), stream.log, step.Broken?)
    {
      hide Attempted, Genuine, Encode, Scan, Frames, FirstMatch, Heard, Unparsed, Salvage, Written, Stops;
      ghost var before := stream.log;
      response := None;
      assert fed[|old(fed)|..] == [];
      NothingHeard(request, parser.buffer, parser.Lim());
      step := SendWire(wire);
      if step == Going {
        ghost var sent := stream.log;
        step, response := WaitForResponse(request, wire, |old(stream.log)|, from, patience);
        OneMoreStop(before, sent, stream.log, step.Broken?);
      }
      if step == AttemptOver {
        response := FinishAttempt(request, from);
      }
    }

    /**
     * One request.  It takes the next sequence number, writes at most `retries + 1` prefixes of
     * one encoding, and returns only a successful response that matches it and was on the
     * stream; a quarantined session writes nothing at all.
     */
    method RequestFrame(opcode: Byte, payload: seq<Byte>, flags: Byte, retries: nat, patience: nat)
      returns (r: Result<Frame, SessionError>)
      requires Valid()
      modifies this, parser, sequences, stream
      ensures Valid() && old(stream.log) <= stream.log && old(fed) <= fed
      ensures old(quarantine).Some? ==> quarantine == old(quarantine) && stream.log == old(stream.log) && r.Err?
      ensures |payload| > old(MaxPayload()) ==> stream.log == old(stream.log) && r.Err?
      ensures |payload| <= MAX_WIRE_PAYLOAD ==>
        var request := RawFrame(PROTOCOL_VERSION, Request, flags, old(sequences.value), opcode, STATUS_OK, payload);
        && old(tries) <= tries
        && Attempts(stream.log[|old(stream.log)|..], Encode(request), WakeRule(), tries - old(tries))
        && (r.Ok? ==> Genuine(request, r.value, |old(fed)| - |old(parser.buffer)|) && Succeeded(r.value))
        && (r.Ok? || r.error.Remote? || r.error == Transport(NoAnswer) ==>
              Concluded(request, old(parser.buffer), fed[|old(fed)|..], parser.Lim(), retries, r))
      ensures r.Err? && r.error.Transport? && quarantineOnFailure ==> quarantine.Some?
      ensures tries <= old(tries) + retries + 1 && (GaveUp(r) ==> tries == old(tries) + retries + 1)
      ensures stream.log != old(stream.log) ==> sequences.value == (old(sequences.value) + 1) % 0x1_0000
      ensures MaxPayload() == old(MaxPayload())
      ensures r.Err? && r.error.Transport? ==> Failure in stream.log
      ensures Caused(r, stream.log[|old(stream.log)|..], patience)
      ensures r == Err(InvalidRequest) <==> |payload| > MAX_WIRE_PAYLOAD
      ensures r.Err? && r.error.Quarantined? ==> old(quarantine).Some?
      ensures r.Err? && r.error.PayloadTooLarge? ==> |payload| > old(MaxPayload())
      ensures old(Disciplined()) ==> Disciplined()
    {
      hide Attempts, Encode, Inside, Matches, Succeeded, Concluded, Excused, Oversized;
      assert stream.log[|stream.log|..] == [];
      if |payload| > MAX_WIRE_PAYLOAD {
        return Err(InvalidRequest);
      }
      ghost var first :=
        RawFrame(PROTOCOL_VERSION, Request, flags, sequences.value, opcode, STATUS_OK, payload);
      NoAttempts(Encode(first), WakeRule());
      if quarantine.Some? {
        return Err(Quarantined(quarantine.value));
      }
      if |payload| > MaxPayload() {
        return Err(SessionError.PayloadTooLarge(|payload|, MaxPayload()));
      }
      var sequence := sequences.Next();
      var request := RawFrame(PROTOCOL_VERSION, Request, flags, sequence, opcode, STATUS_OK, payload);
      r := Exchange(request, retries, patience);
      ghost var done := stream.log;
      var restored := stream.Configure();
      if !restored {
        AfterBreak(done, |old(stream.log)|, Encode(request), tries - old(tries), old(stream.log));
        ghost var broken := stream.log[|old(stream.log)|..];
        GiveUp(ConfigureBroke, Encode(request), |old(stream.log)|, tries - old(tries), old(stream.log));
        assert stream.log[|old(stream.log)|..] == broken + [Failure];
        r := Err(Transport(ConfigureBroke));
        return;
      }
      assert stream.log == done;
    }

    /** Any number of requests and renegotiations: nothing is written after the first failure. */
    method Converse(calls: seq<Call>) returns (answers: seq<Frame>, broken: bool)
      requires Valid() && Disciplined()
      modifies this, parser, sequences, stream
      ensures Valid() && Disciplined() && old(stream.log) <= stream.log
      ensures broken ==> Failure in stream.log
      ensures quarantineOnFailure ==> Hushed(stream.log)
    {
      answers, broken := [], false;
      for k := 0 to |calls|
        invariant Valid() && Disciplined() && old(stream.log) <= stream.log
        invariant broken ==> Failure in stream.log
      {
        match calls[k]
        case Negotiate(peer) => var effective := NegotiateMaxPayload(peer);
        case Ask(opcode, payload, flags, retries, patience) =>
          var r := RequestFrame(opcode, payload, flags, retries, patience);
          if r.Ok? {
            answers := answers + [r.value];
          } else {
            broken := broken || r.error.Transport?;
          }
      }
    }
  }

  /** The frames of what is pending lie on the stream, and the new residue is its tail. */
  lemma FedTail(fed: seq<Byte>, pending: seq<Byte>, from: nat, frames: seq<Frame>, lim: Limits)
    requires |pending| <= |fed| && fed[|fed| - |pending|..] == pending && from <= |fed| - |pending|
    requires frames == Frames(Scan(pending, lim).items)
    ensures forall f <- frames :: Inside(Encode(f), fed[from..])
    ensures var rest := Scan(pending, lim).rest; |rest| <= |fed| && fed[|fed| - |rest|..] == rest
  {
    hide Inside, Encode, Scan, Frames, Spell;
    var at := |fed| - |pending|;
    EveryByteAccounted(pending, lim);
    var rest := Scan(pending, lim).rest;
    assert fed[|fed| - |rest|..] == pending[|pending| - |rest|..];
    ScannedFramesInside(pending, lim);
    assert fed[from..][at - from..] == fed[at..];
    forall f | f in frames ensures Inside(Encode(f), fed[from..]) {
      InsideTail(Encode(f), fed[from..], at - from);
    }
  }

  lemma EncodingIsLong(f: Frame)
    ensures |Encode(f)| > 1
  {
  }

  lemma {:induction false} FirstReadStays(log: seq<Event>, events: seq<Event>)
    requires forall e <- events :: !e.Read?
    ensures FirstRead(log + events) == FirstRead(log)
    decreases |events|
  {
    hide FirstRead;
    if events == [] {
      assert log + events == log;
    } else {
      var n := |events| - 1;
      FirstReadStays(log, events[..n]);
      FirstReadStep(log + events[..n], events[n]);
      assert log + events == log + events[..n] + [events[n]];
    }
  }

  /** What follows the last attempt without writing or reading does not change it. */
  lemma AttemptsPause(log: seq<Event>, wire: seq<Byte>, wake: Wake, n: nat, events: seq<Event>)
    requires n > 0 && Attempts(log, wire, wake, n)
    requires forall e <- events :: e == Failure || e == Broke
    ensures Attempts(log + events, wire, wake, n)
  {
    hide Attempts, Attempted, Written, FirstRead;
    var k := LastAttempt(log, wire, wake, n - 1);
    var longer := log + events;
    assert longer[..k] == log[..k] && longer[k..] == log[k..] + events;
    Idles(log[k..], 0, events, wire, Strictly(wake));
    assert log[k..][0..] == log[k..] && longer[k..][0..] == longer[k..];
    FirstReadStays(log[k..], events);
    OneMoreAttempt(longer, k, wire, wake, n - 1);
  }

  lemma StandStill(log: seq<Event>)
    ensures Stops(log, log, false)
  {
    assert log + [] == log;
    IdleStops(log, [], false);
  }

  /** Before anything arrives there is nothing to match. */
  lemma NothingHeard(request: Frame, pending: seq<Byte>, lim: Limits)
    ensures FirstMatch(request, Heard(pending, [], lim)) == None && Unparsed(pending, [], lim) == pending
  {
  }

  /** Octets may come in any portions. */
  lemma HeardFurther(request: Frame, pending: seq<Byte>, got: seq<Byte>, data: seq<Byte>, lim: Limits)
    requires data != [] && FirstMatch(request, Heard(pending, got, lim)) == None
    ensures var next := Scan(Unparsed(pending, got, lim) + data, lim);
            && Unparsed(pending, got + data, lim) == next.rest
            && FirstMatch(request, Heard(pending, got + data, lim)) == FirstMatch(request, Frames(next.items))
  {
    hide Scan, Frames, FirstMatch;
    if got == [] {
      assert got + data == data;
    } else {
      assert pending + (got + data) == pending + got + data;
      ScanSplits(pending + got, data, lim);
      var first := Scan(pending + got, lim);
      var next := Scan(first.rest + data, lim);
      FramesConcat(first.items, next.items);
      FirstOfTwo(request, Frames(first.items), Frames(next.items));
    }
  }

  lemma {:induction false} FirstOfTwo(request: Frame, a: seq<Frame>, b: seq<Frame>)
    requires FirstMatch(request, a) == None
    ensures FirstMatch(request, a + b) == FirstMatch(request, b)
    decreases |a|
  {
    hide Matches;
    if a == [] {
      assert a + b == b;
    } else {
      assert (a + b)[0] == a[0] && (a + b)[1..] == a[1..] + b;
      FirstOfTwo(request, a[1..], b);
    }
  }

  lemma NoAttempts(wire: seq<Byte>, wake: Wake)
    ensures Attempts([], wire, wake, 0)
  {
  }

  lemma PushNewest<T>(queue: seq<T>, head: seq<T>, tail: seq<T>, limit: nat)
    requires |queue| <= limit
    ensures Newest(Newest(queue + head, limit) + tail, limit) == Newest(queue + (head + tail), limit)
    ensures head == [] ==> Newest(queue + tail, limit) == Newest(queue + (head + tail), limit)
    ensures |Newest(queue + head, limit)| <= limit
  {
    assert queue + head + tail == queue + (head + tail);
    NewestTwice(queue + head, tail, limit);
    if head == [] {
      assert head + tail == tail;
    }
  }
}
