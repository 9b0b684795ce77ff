/**
 * Typing a text.  Whatever room the target has from moment to moment, the payload goes out
 * once and in order, and after each Return nothing more is typed until the queue has drained.
 */
module KeyboardTyping {
  import opened Octets
  import opened Bytes
  import KeyboardRing

  const CAPACITY := KeyboardRing.KEYBUF_CAPACITY
  const CR: Byte := 0x0D
  const SPOOL_CAPACITY := 255
  const REFILL_TARGET := 128

  /** What the target reported back: data it took, or an empty queue. */
  datatype Event = Typed(data: seq<Byte>) | Drained

  datatype Reply = Reply(count: nat, pending: nat)

  datatype TypingError = LinkFailed | TimedOut | FrameTooSmall

  function TypedBytes(log: seq<Event>): seq<Byte>
    decreases |log|
  {
    if log == [] then []
    else TypedBytes(log[..|log| - 1]) + (if log[|log| - 1].Typed? then log[|log| - 1].data else [])
  }

  /**
   * Reads a log as a discipline: a Return ends its batch and blocks typing until the queue
   * drains.  The value says whether typing is blocked; a breach of the rule has no value.
   */
  function Pace(log: seq<Event>): Option<bool>
    decreases |log|
  {
    if log == [] then Some(false)
    else
      match Pace(log[..|log| - 1])
      case None => None
      case Some(blocked) =>
        match log[|log| - 1]
        case Drained => Some(false)
        case Typed(data) =>
          if data == [] then Some(blocked)
          else if blocked || CR in data[..|data| - 1] then None
          else Some(data[|data| - 1] == CR)
  }

  lemma OneMoreEvent(log: seq<Event>, e: Event)
    ensures TypedBytes(log + [e]) == TypedBytes(log) + if e.Typed? then e.data else []
    ensures e.Drained? && Pace(log).Some? ==> Pace(log + [e]) == Some(false)
    ensures e.Typed? && e.data == [] ==> Pace(log + [e]) == Pace(log)
    ensures e.Typed? && e.data != [] && Pace(log) == Some(false) && CR !in e.data[..|e.data| - 1] ==>
      Pace(log + [e]) == Some(e.data[|e.data| - 1] == CR)
  {
    assert (log + [e])[..|log + [e]| - 1] == log;
  }

  /**
   * A keyboard queue of limited room; an honest one is a FIFO some program reads from.  With an
   * obliging one no exchange fails, and the program reads all there is before each.
   */
  class Keyboard {
    const honest: bool
    const obliging: bool
    var queue: seq<Byte>
    var consumed: seq<Byte>
    var log: seq<Event>

    constructor (honest: bool, obliging: bool, queue: seq<Byte>)
      ensures this.honest == honest && this.obliging == (honest && obliging)
      ensures this.queue == queue && consumed == [] && log == []
    {
      this.obliging := honest && obliging;
      this.honest, this.queue, consumed, log := honest, queue, [], [];
    }

    /** The program reads some of the keys. */
    method ReadSome()
      modifies this`queue, this`consumed
      ensures consumed + queue == old(consumed) + old(queue) && |queue| <= |old(queue)|
      ensures obliging ==> queue == []
    {
      var read: nat := Anything();
      var k := if read < |queue| && !obliging then read else |queue|;
      assert queue == queue[..k] + queue[k..];
      assert consumed + queue == (consumed + queue[..k]) + queue[k..];
      consumed, queue := consumed + queue[..k], queue[k..];
    }

    /** As much of the data as there is room for joins the queue. */
    method Take(data: seq<Byte>) returns (reply: Reply)
      modifies this`queue
      ensures reply.count <= |data| && reply.pending <= CAPACITY
      ensures queue == old(queue) + data[..reply.count]
      ensures |old(queue)| <= CAPACITY ==> |queue| <= CAPACITY && reply.pending == |queue|
      ensures old(queue) == [] && |data| <= CAPACITY ==> reply == Reply(|data|, |data|)
    {
      var room := if |queue| < CAPACITY then CAPACITY - |queue| else 0;
      var count := if |data| < room then |data| else room;
      queue := queue + data[..count];
      return Reply(count, if |queue| < CAPACITY then |queue| else CAPACITY);
    }

    method Fails() returns (b: bool)
      ensures honest && obliging ==> !b
    {
      b := *;
      b := b && !(honest && obliging);
    }

    /** Offers a batch; an empty one only asks how much is pending. */
    method Offer(data: seq<Byte>) returns (r: Option<Reply>)
      requires |data| <= CAPACITY
      modifies this
      ensures r.Some? ==> r.value.count <= |data| && r.value.pending <= CAPACITY
      ensures r.Some? ==> log == old(log) + [Typed(data[..r.value.count])]
      ensures honest && r.Some? ==> consumed + queue == old(consumed) + old(queue) + data[..r.value.count]
      ensures honest && r.Some? && |old(queue)| <= CAPACITY ==> r.value.pending == |queue|
      ensures honest && |old(queue)| <= CAPACITY ==> |queue| <= CAPACITY
      ensures honest && obliging ==> r == Some(Reply(|data|, |data|))
    {
      var reply: Reply := Anything();
      var fails := Fails();
      if fails {
        return None;
      }
      if honest {
        ReadSome();
        ghost var c, q := consumed, queue;
        reply := Take(data);
        assert c + (q + data[..reply.count]) == c + q + data[..reply.count];
      }
      fails := Fails();
      if fails {
        return None;
      }
      if reply.count > |data| || reply.pending > CAPACITY {
        return None;
      }
      log := log + [Typed(data[..reply.count])];
      return Some(reply);
    }
  }

  /**
   * What `Keyboard.Offer` promises of an honest queue, the BIOS ring delivers on a machine that
   * nobody else types on: its queue is the ring's, and its log entry the accepted octets.
   */
  method OfferThroughRing(ring: KeyboardRing.Writer, data: seq<Byte>) returns (r: Option<Reply>)
    requires ring.target.quiet && KeyboardRing.GoodPointers(ring.target.ram)
    modifies ring.target
    ensures KeyboardRing.GoodPointers(ring.target.ram)
    ensures |KeyboardRing.Queue(ring.target.ram)| <= CAPACITY
    ensures r.Some? ==> r.value.count <= |data| && r.value.pending == |KeyboardRing.Queue(ring.target.ram)|
    ensures r.Some? ==>
      ring.target.read + KeyboardRing.Queue(ring.target.ram)
      == old(ring.target.read) + old(KeyboardRing.Queue(ring.target.ram)) + data[..r.value.count]
  {
    hide KeyboardRing.Queue;
    var accepted := ring.WriteLegacy(data);
    match accepted
    case Err(_) => return None;
    case Ok(taken) =>
      assert data[..0] == [];
      return Some(Reply(taken.count, taken.pending));
  }

  class Typist {
    const keyboard: Keyboard

    /** With an obliging queue, no deadline passes. */
    predicate Smooth() {
      keyboard.honest && keyboard.obliging
    }

    method Late() returns (b: bool)
      ensures Smooth() ==> !b
    {
      b := *;
      b := b && !Smooth();
    }

    constructor (keyboard: Keyboard)
      ensures this.keyboard == keyboard
    {
      this.keyboard := keyboard;
    }

    /** What has been typed since `start`, and what an honest queue has made of it. */
    ghost predicate Progress(history: seq<Event>, before: seq<Byte>, typed: seq<Byte>, blocked: bool)
      reads keyboard
    {
      && history <= keyboard.log
      && TypedBytes(keyboard.log[|history|..]) == typed && Pace(keyboard.log[|history|..]) == Some(blocked)
      && (keyboard.honest ==> keyboard.consumed + keyboard.queue == before + typed && |keyboard.queue| <= CAPACITY)
    }

    /** Polls until nothing is pending. */
    method WaitEmpty(polls: nat, ghost history: seq<Event>, ghost before: seq<Byte>, ghost typed: seq<Byte>,
                     ghost blocked: bool)
      returns (error: Option<TypingError>)
      requires Progress(history, before, typed, blocked)
      modifies keyboard
      ensures error.None? ==> Progress(history, before, typed, false) && (keyboard.honest ==> keyboard.queue == [])
      ensures Smooth() && polls > 0 ==> error.None?
    {
      hide TypedBytes, Pace;
      var budget := polls;
      while budget > 0
        invariant Progress(history, before, typed, blocked) && (Smooth() ==> budget == polls)
        decreases budget
      {
        budget := budget - 1;
        ghost var log := keyboard.log;
        var r := keyboard.Offer([]);
        if r.None? {
          return Some(LinkFailed);
        }
        assert keyboard.log[|history|..] == log[|history|..] + [Typed([])];
        OneMoreEvent(log[|history|..], Typed([]));
        if r.value.pending == 0 {
          ghost var polled := keyboard.log;
          keyboard.log := keyboard.log + [Drained];
          assert keyboard.log[|history|..] == polled[|history|..] + [Drained];
          OneMoreEvent(polled[|history|..], Drained);
          return None;
        }
        var late := Late();
        if late {
          return Some(TimedOut);
        }
      }
      return Some(TimedOut);
    }

    /** Up to and including the next Return, or all that is left. */
    function Batch(rest: seq<Byte>): (b: seq<Byte>)
      ensures b <= rest && (rest != [] ==> b != [])
      ensures forall i | 0 <= i < |b| - 1 :: b[i] != CR
      ensures |b| < |rest| ==> b[|b| - 1] == CR
    {
      if rest == [] then []
      else if rest[0] == CR then [CR]
      else [rest[0]] + Batch(rest[1..])
    }

    /** Offers the next stretch of a batch, which can hold a Return only as its last octet. */
    method OfferPart(request: seq<Byte>, ghost history: seq<Event>, ghost before: seq<Byte>, ghost typed: seq<Byte>)
      returns (r: Option<Reply>, ghost blocked: bool)
      requires |request| <= CAPACITY && Progress(history, before, typed, false)
      requires forall i | 0 <= i < |request| - 1 :: request[i] != CR
      modifies keyboard
      ensures r.Some? ==> r.value.count <= |request| && r.value.pending <= CAPACITY
      ensures r.Some? ==> Progress(history, before, typed + request[..r.value.count], blocked)
      ensures r.Some? ==> (blocked <==> r.value.count > 0 && request[r.value.count - 1] == CR)
      ensures Smooth() ==> r == Some(Reply(|request|, |request|))
    {
      hide TypedBytes, Pace;
      ghost var log := keyboard.log;
      blocked := false;
      r := keyboard.Offer(request);
      if r.None? {
        return;
      }
      ghost var taken := request[..r.value.count];
      assert keyboard.log[|history|..] == log[|history|..] + [Typed(taken)];
      OneMoreEvent(log[|history|..], Typed(taken));
      assert before + typed + taken == before + (typed + taken);
      assert typed + [] == typed;
      blocked := taken != [] && taken[|taken| - 1] == CR;
    }

    /** Types one batch in as many offers as the room allows. */
    method TypeBatch(batch: seq<Byte>, polls: nat, ghost history: seq<Event>, ghost before: seq<Byte>,
                     ghost typed: seq<Byte>)
      returns (error: Option<TypingError>)
      requires Progress(history, before, typed, false) && forall i | 0 <= i < |batch| - 1 :: batch[i] != CR
      modifies keyboard
      ensures error.None? ==> exists blocked :: Progress(history, before, typed + batch, blocked)
      ensures Smooth() && polls >= 2 * |batch| ==> error.None?
    {
      hide TypedBytes, Pace;
      var done: nat, credits: nat, budget: nat := 0, CAPACITY, polls;
      ghost var blocked := false;
      assert typed + batch[..0] == typed;
      while done < |batch|
        invariant done <= |batch| && 0 <= credits <= CAPACITY
        invariant Progress(history, before, typed + batch[..done], blocked)
        invariant done < |batch| ==> !blocked
        invariant Smooth() && polls >= 2 * |batch| && done < |batch| ==>
          budget >= 2 * (|batch| - done) + if credits == 0 then 1 else 0
        decreases budget
      {
        if budget == 0 {
          return Some(TimedOut);
        }
        budget := budget - 1;
        var end := if done + credits < |batch| then done + credits else |batch|;
        var request := batch[done..end];
        var r: Option<Reply>;
        r, blocked := OfferPart(request, history, before, typed + batch[..done]);
        if r.None? {
          return Some(LinkFailed);
        }
        PrefixGrows(batch, done, request, r.value.count);
        assert typed + (batch[..done] + request[..r.value.count]) == typed + batch[..done] + request[..r.value.count];
        done := done + r.value.count;
        credits := CAPACITY - r.value.pending;
        var late := Late();
        if late {
          return Some(TimedOut);
        }
      }
      assert batch[..|batch|] == batch;
      return None;
    }

    /** Types a text line by line, draining the queue after every line. */
    method Type(payload: seq<Byte>, polls: nat) returns (r: Result<nat, TypingError>)
      requires keyboard.honest ==> |keyboard.queue| <= CAPACITY
      modifies keyboard
      ensures r.Ok? ==> r.value == |payload| && old(keyboard.log) <= keyboard.log
      ensures r.Ok? ==> TypedBytes(keyboard.log[|old(keyboard.log)|..]) == payload
      ensures r.Ok? ==> Pace(keyboard.log[|old(keyboard.log)|..]) == Some(false)
      ensures r.Ok? && keyboard.honest && payload != [] ==>
        keyboard.queue == [] && keyboard.consumed == old(keyboard.consumed) + old(keyboard.queue) + payload
      ensures Smooth() && polls >= 2 * |payload| ==> r.Ok?
    {
      hide TypedBytes, Pace;
      ghost var history, before := keyboard.log, keyboard.consumed + keyboard.queue;
      assert keyboard.log[|history|..] == [] && payload[..0] == [] && before + [] == before;
      NothingTyped();
      var offset := 0;
      while offset < |payload|
        invariant offset <= |payload| && Progress(history, before, payload[..offset], false)
        invariant keyboard.honest && offset > 0 ==> keyboard.queue == []
      {
        var batch := Batch(payload[offset..]);
        var error := TypeBatch(batch, polls, history, before, payload[..offset]);
        if error.Some? {
          return Err(error.value);
        }
        assert payload[..offset] + batch == payload[..offset + |batch|];
        ghost var blocked :| Progress(history, before, payload[..offset + |batch|], blocked);
        error := WaitEmpty(polls, history, before, payload[..offset + |batch|], blocked);
        if error.Some? {
          return Err(error.value);
        }
        offset := offset + |batch|;
      }
      assert payload[..offset] == payload;
      return Ok(|payload|);
    }
  }

  lemma NothingTyped()
    ensures TypedBytes([]) == [] && Pace([]) == Some(false)
  {
  }

  // ------------------------------------------------------------ the resident spool

  datatype Report = Report(accepted: nat, pending: nat, credits: nat, barrier: bool, active: bool, authorized: bool)

  datatype SpoolEvent = Took(data: seq<Byte>, pump: bool, report: Report) | CancelAsked

  predicate Idle(r: Report) {
    !r.barrier && !r.active && !r.authorized
  }

  function TakenBytes(log: seq<SpoolEvent>): seq<Byte>
    decreases |log|
  {
    if log == [] then []
    else TakenBytes(log[..|log| - 1]) + (if log[|log| - 1].Took? then log[|log| - 1].data else [])
  }

  /** A line is authorised only while the resident reports no barrier, activity or authorisation. */
  predicate PumpedWhenIdle(log: seq<SpoolEvent>)
    decreases |log|
  {
    log == [] ||
    (var n := |log| - 1;
     PumpedWhenIdle(log[..n]) && (log[n].Took? && log[n].pump && n > 0 && log[n - 1].Took? ==> Idle(log[n - 1].report)))
  }

  lemma OneMoreTaken(log: seq<SpoolEvent>, e: SpoolEvent)
    requires PumpedWhenIdle(log)
    requires e.Took? && e.pump && log != [] && log[|log| - 1].Took? ==> Idle(log[|log| - 1].report)
    ensures TakenBytes(log + [e]) == TakenBytes(log) + if e.Took? then e.data else []
    ensures PumpedWhenIdle(log + [e])
  {
    assert (log + [e])[..|log + [e]| - 1] == log;
  }

  /** The resident's spool may report anything its reply format allows; an obliging one types at once. */
  class Spool {
    const obliging: bool
    var log: seq<SpoolEvent>

    constructor (obliging: bool)
      ensures log == [] && this.obliging == obliging
    {
      this.obliging, log := obliging, [];
    }

    method Send(data: seq<Byte>, pump: bool) returns (r: Option<Report>)
      requires |data| <= SPOOL_CAPACITY
      modifies this
      ensures r.Some? ==> r.value.accepted <= |data| && r.value.credits <= SPOOL_CAPACITY
      ensures r.Some? ==> r.value.pending <= SPOOL_CAPACITY + CAPACITY
      ensures log == old(log) + if r.Some? then [Took(data[..r.value.accepted], pump, r.value)] else []
      ensures obliging ==> r == Some(Report(|data|, 0, SPOOL_CAPACITY, false, false, false))
    {
      var report: Report := Anything();
      var fails: bool := *;
      if fails && !obliging {
        return None;
      }
      if obliging {
        report := Report(|data|, 0, SPOOL_CAPACITY, false, false, false);
      }
      if report.accepted > |data| || report.pending > SPOOL_CAPACITY + CAPACITY || report.credits > SPOOL_CAPACITY {
        return None;
      }
      log := log + [Took(data[..report.accepted], pump, report)];
      return Some(report);
    }

    method Cancel()
      modifies this
      ensures log == old(log) + [CancelAsked]
    {
      log := log + [CancelAsked];
    }
  }

  /** What the next request offers: nothing until enough credit has come back. */
  function NextRequest(payload: seq<Byte>, offset: nat, credits: nat, asked: bool, maxBatch: nat): (r: seq<Byte>)
    requires offset <= |payload| && maxBatch <= SPOOL_CAPACITY
    ensures |r| <= SPOOL_CAPACITY && offset + |r| <= |payload| && r == payload[offset..offset + |r|]
  {
    var left := |payload| - offset;
    var goal := if left < REFILL_TARGET then left else REFILL_TARGET;
    var size := if credits < maxBatch then credits else maxBatch;
    if left > 0 && credits > 0 && (!asked || credits >= goal)
    then payload[offset..if offset + size < |payload| then offset + size else |payload|]
    else []
  }

  /** The spool has taken the payload up to an offset, and `last` is what it reported then. */
  predicate TakenUpTo(log: seq<SpoolEvent>, payload: seq<Byte>, offset: nat, last: Report) {
    && offset <= |payload| && TakenBytes(log) == payload[..offset] && PumpedWhenIdle(log)
    && last.credits <= SPOOL_CAPACITY
    && (log == [] || (log[|log| - 1].Took? && log[|log| - 1].report == last))
  }

  /** One request to the spool: more data if there is credit for it, and the word to type a line. */
  method Refill(spool: Spool, payload: seq<Byte>, offset: nat, last: Report, asked: bool, maxBatch: nat)
    returns (report: Option<Report>)
    requires TakenUpTo(spool.log, payload, offset, last) && maxBatch <= SPOOL_CAPACITY
    modifies spool
    ensures report.None? ==> spool.log == old(spool.log)
    ensures report.Some? ==>
      TakenUpTo(spool.log, payload, offset + report.value.accepted, report.value) && spool.log != []
    ensures spool.obliging ==>
      report.Some? && report.value == Report(report.value.accepted, 0, SPOOL_CAPACITY, false, false, false)
    ensures spool.obliging && offset < |payload| && maxBatch > 0 && last.credits == SPOOL_CAPACITY ==>
      report.value.accepted > 0
  {
    hide TakenBytes, PumpedWhenIdle, NextRequest;
    var request := NextRequest(payload, offset, last.credits, asked, maxBatch);
    if offset < |payload| && maxBatch > 0 && last.credits == SPOOL_CAPACITY {
      AsksForSome(payload, offset, asked, maxBatch);
    }
    var pump := Idle(last) && (last.pending > 0 || request != []);
    ghost var log := spool.log;
    report := spool.Send(request, pump);
    if report.Some? {
      OneMoreTaken(log, Took(request[..report.value.accepted], pump, report.value));
      PrefixGrows(payload, offset, request, report.value.accepted);
    }
  }

  /**
   * Streams the payload through the spool.  Success means that it was taken once and in order
   * and that the spool is empty and idle.  A session whose frames cannot carry data is refused
   * before anything is sent; every other failure asks for cancellation last.
   */
  method TypeSpooled(spool: Spool, payload: seq<Byte>, maxPayload: nat, polls: nat)
    returns (r: Result<nat, TypingError>)
    requires spool.log == []
    modifies spool
    ensures maxPayload <= 1 <==> r == Err(FrameTooSmall)
    ensures r == Err(FrameTooSmall) ==> spool.log == []
    ensures PumpedWhenIdle(spool.log)
    ensures TakenBytes(spool.log) <= payload
    ensures r.Ok? ==> r.value == |payload| && TakenBytes(spool.log) == payload && spool.log != []
    ensures r.Ok? ==> spool.log[|spool.log| - 1].Took? && Idle(spool.log[|spool.log| - 1].report)
                      && spool.log[|spool.log| - 1].report.pending == 0
    ensures r.Err? && r.error != FrameTooSmall ==> spool.log != [] && spool.log[|spool.log| - 1] == CancelAsked
    ensures spool.obliging && maxPayload > 1 && polls > |payload| ==> r.Ok?
  {
    hide TakenBytes, PumpedWhenIdle, NextRequest;
    NothingTaken();
    if maxPayload <= 1 {
      return Err(FrameTooSmall);
    }
    var maxBatch := if maxPayload - 1 < SPOOL_CAPACITY then maxPayload - 1 else SPOOL_CAPACITY;
    var offset: nat := 0;
    var last := Report(0, 0, SPOOL_CAPACITY, false, false, false);
    var asked := false;
    var budget := polls;
    assert payload[..0] == [];
    while budget > 0
      invariant TakenUpTo(spool.log, payload, offset, last)
      invariant spool.obliging ==> last == Report(last.accepted, 0, SPOOL_CAPACITY, false, false, false)
      invariant spool.obliging && polls > |payload| ==> budget > |payload| - offset
      decreases budget
    {
      budget := budget - 1;
      var report := Refill(spool, payload, offset, last, asked, maxBatch);
      if report.None? {
        CancelKeeps(spool.log);
        spool.Cancel();
        return Err(LinkFailed);
      }
      offset := offset + report.value.accepted;
      last, asked := report.value, true;
      if offset == |payload| && last.pending == 0 && Idle(last) {
        assert payload[..offset] == payload;
        return Ok(|payload|);
      }
    }
    CancelKeeps(spool.log);
    spool.Cancel();
    return Err(TimedOut);
  }

  lemma AsksForSome(payload: seq<Byte>, offset: nat, asked: bool, maxBatch: nat)
    requires offset < |payload| && 0 < maxBatch <= SPOOL_CAPACITY
    ensures NextRequest(payload, offset, SPOOL_CAPACITY, asked, maxBatch) != []
  {
  }

  lemma PrefixGrows(payload: seq<Byte>, offset: nat, request: seq<Byte>, accepted: nat)
    requires offset + |request| <= |payload| && request == payload[offset..offset + |request|]
    requires accepted <= |request|
    ensures payload[..offset] + request[..accepted] == payload[..offset + accepted]
  {
  }

  lemma NothingTaken()
    ensures TakenBytes([]) == [] && PumpedWhenIdle([])
  {
  }

  lemma CancelKeeps(log: seq<SpoolEvent>)
    requires PumpedWhenIdle(log)
    ensures TakenBytes(log + [CancelAsked]) == TakenBytes(log) && PumpedWhenIdle(log + [CancelAsked])
  {
    OneMoreTaken(log, CancelAsked);
  }
}
