/**
 * Typing into the BIOS keyboard ring: the pause-write-publish-resume transaction on the ring
 * itself, and the streaming of a text through a queue of limited room.
 */
module KeyboardRing {
  import opened Octets
  import opened Bytes

  const KEYBUF_START := 0xFBF0
  const KEYBUF_SIZE := 40
  const KEYBUF_END := 0xFC18
  const KEYBUF_CAPACITY := 39
  const PUTPNT := 0xF3F8
  const GETPNT := 0xF3FA
  const RAM_SIZE := 0x1_0000

  type Ram = r: seq<Byte> | |r| == RAM_SIZE witness seq(RAM_SIZE, _ => 0)

  function Write(r: Ram, at: nat, data: seq<Byte>): Ram
    requires at + |data| <= RAM_SIZE
  {
    r[..at] + data + r[at + |data|..]
  }

  // ------------------------------------------------------------ the ring

  predicate InRing(p: nat) {
    KEYBUF_START <= p < KEYBUF_END
  }

  function Put(r: Ram): nat {
    WordAt(r, PUTPNT)
  }

  function Get(r: Ram): nat {
    WordAt(r, GETPNT)
  }

  predicate GoodPointers(r: Ram) {
    InRing(Put(r)) && InRing(Get(r))
  }

  /** One step past the end of the ring is its start. */
  function Wrap(p: nat): (q: nat)
    requires KEYBUF_START <= p < KEYBUF_END + KEYBUF_SIZE
    ensures InRing(q)
  {
    if p < KEYBUF_END then p else p - KEYBUF_SIZE
  }

  /** The slot `i` steps on. */
  function Slot(p: nat, i: nat): (q: nat)
    requires InRing(p) && i < KEYBUF_SIZE
    ensures InRing(q)
  {
    Wrap(p + i)
  }

  /** Octets between the reading and the writing pointer, going round. */
  function Distance(get: nat, put: nat): (n: nat)
    requires InRing(get) && InRing(put)
    ensures n <= KEYBUF_CAPACITY
  {
    if get <= put then put - get else put + KEYBUF_SIZE - get
  }

  function Pending(r: Ram): (n: nat)
    requires GoodPointers(r)
    ensures n <= KEYBUF_CAPACITY
  {
    Distance(Get(r), Put(r))
  }

  /** What the BIOS will read, in order. */
  function Queue(r: Ram): (q: seq<Byte>)
    requires GoodPointers(r)
    ensures |q| == Pending(r)
  {
    seq(Pending(r), i requires 0 <= i < Pending(r) => r[Slot(Get(r), i)])
  }

  /**
   * The ring as the BIOS keeps it: the writing pointer at F3F8h, the reading pointer at F3FAh, and
   * between them, going round in FBF0h to FC17h, the keys.
   */
  lemma RingSpellsQueue(r: Ram, get: nat, keys: seq<Byte>)
    requires 0xFBF0 <= get < 0xFC18 && |keys| <= 39
    requires r[0xF3FA] as int + 0x100 * r[0xF3FB] as int == get
    requires r[0xF3F8] as int + 0x100 * r[0xF3F9] as int
          == if get + |keys| < 0xFC18 then get + |keys| else get + |keys| - 40
    requires forall i | 0 <= i < |keys| :: r[if get + i < 0xFC18 then get + i else get + i - 40] == keys[i]
    ensures GoodPointers(r) && Queue(r) == keys
  {
    assert Get(r) == get;
    forall i | 0 <= i < |keys| ensures r[Slot(get, i)] == keys[i] {
    }
  }

  /** How many of `size` octets there is room for. */
  function Fitting(r: Ram, size: nat): (n: nat)
    requires GoodPointers(r)
    ensures n <= size && n <= KEYBUF_CAPACITY - Pending(r)
  {
    if size < KEYBUF_CAPACITY - Pending(r) then size else KEYBUF_CAPACITY - Pending(r)
  }

  /** The queue as it was, or with all of the data behind it that there is room for. */
  ghost predicate NoneOrAll(before: Ram, after: Ram, data: seq<Byte>)
    requires GoodPointers(before) && GoodPointers(after)
  {
    Queue(after) == Queue(before) || Queue(after) == Queue(before) + data[..Fitting(before, |data|)]
  }

  /** Slots from `put` on hold the data; every other octet of memory is as it was. */
  predicate Filled(before: Ram, after: Ram, put: nat, data: seq<Byte>)
    requires InRing(put) && |data| <= KEYBUF_CAPACITY
  {
    && (forall j | 0 <= j < |data| :: after[Slot(put, j)] == data[j])
    && (forall a | 0 <= a < RAM_SIZE && !(InRing(a) && Distance(put, a) < |data|) :: after[a] == before[a])
  }

  /** Writing into free slots does not show until the pointer moves. */
  lemma FillIsInvisible(before: Ram, after: Ram, data: seq<Byte>)
    requires GoodPointers(before) && Pending(before) + |data| <= KEYBUF_CAPACITY
    requires Filled(before, after, Put(before), data)
    ensures GoodPointers(after) && Put(after) == Put(before) && Get(after) == Get(before)
    ensures Queue(after) == Queue(before)
  {
    assert Put(after) == Put(before) && Get(after) == Get(before);
    forall i | 0 <= i < Pending(before) ensures Queue(after)[i] == Queue(before)[i] {
      assert Distance(Put(before), Slot(Get(before), i)) >= |data|;
    }
  }

  /** Moving the pointer publishes the whole batch behind what was queued. */
  lemma PublishAppends(before: Ram, filled: Ram, after: Ram, data: seq<Byte>)
    requires GoodPointers(before) && Pending(before) + |data| <= KEYBUF_CAPACITY
    requires Filled(before, filled, Put(before), data)
    requires after == Write(filled, PUTPNT, Le16(Wrap(Put(before) + |data|)))
    ensures GoodPointers(after) && Queue(after) == Queue(before) + data
  {
    var get, put, n := Get(before), Put(before), Pending(before);
    FillIsInvisible(before, filled, data);
    Le16RoundTrip(Wrap(put + |data|));
    assert after[PUTPNT] == Le16(Wrap(put + |data|))[0] && after[PUTPNT + 1] == Le16(Wrap(put + |data|))[1];
    assert Put(after) == Wrap(put + |data|) && Get(after) == get;
    assert Pending(after) == n + |data|;
    forall i | 0 <= i < n + |data| ensures Queue(after)[i] == (Queue(before) + data)[i] {
      assert after[Slot(get, i)] == filled[Slot(get, i)];
      if i < n {
        assert Queue(filled)[i] == Queue(before)[i];
      } else {
        assert Slot(get, i) == Slot(put, i - n);
      }
    }
  }

  /** The two writes, before and after the wrap, fill consecutive slots. */
  lemma TwoWritesFill(before: Ram, put: nat, data: seq<Byte>, first: nat)
    requires InRing(put) && |data| <= KEYBUF_CAPACITY
    requires first == if |data| < KEYBUF_END - put then |data| else KEYBUF_END - put
    ensures var middle := Write(before, put, data[..first]);
            Filled(before, if first < |data| then Write(middle, KEYBUF_START, data[first..]) else middle, put, data)
  {
    var middle := Write(before, put, data[..first]);
    var after := if first < |data| then Write(middle, KEYBUF_START, data[first..]) else middle;
    forall j | 0 <= j < |data| ensures after[Slot(put, j)] == data[j] {
      if j < first {
        assert middle[put + j] == data[j];
      } else {
        assert after[KEYBUF_START + (j - first)] == data[first..][j - first];
      }
    }
  }

  // ------------------------------------------------------------ the transaction

  datatype RingError = LinkFailed | BadPointer | NotRunning

  datatype Accepted = Accepted(count: nat, pending: nat)

  /** Only keys at the front of the queue have gone. */
  predicate HasRead(before: Ram, after: Ram)
    requires GoodPointers(before)
  {
    && GoodPointers(after) && Pending(after) <= Pending(before)
    && Queue(after) == Queue(before)[Pending(before) - Pending(after)..]
  }

  /** The machine at the other end of the link; every exchange may fail. */
  class Target {
    /** Nobody but the host presses keys, and the software only reads them. */
    const quiet: bool
    /** No exchange fails. */
    const obliging: bool
    var ram: Ram
    var running: bool
    /** Memory at the moment the machine was last paused. */
    ghost var frozen: Ram
    /** Keys the software of a quiet machine has read. */
    ghost var read: seq<Byte>

    constructor (ram: Ram, quiet: bool, obliging: bool)
      ensures this.ram == ram && this.quiet == quiet && this.obliging == obliging && running && read == []
    {
      this.obliging := obliging;
      this.ram, this.quiet, running, frozen, read := ram, quiet, true, ram, [];
    }

    method Fails() returns (b: bool)
      ensures obliging ==> !b
    {
      b := *;
      b := b && !obliging;
    }

    method Peek(at: nat, size: nat) returns (r: Option<seq<Byte>>)
      requires at + size <= RAM_SIZE
      ensures r.Some? ==> r.value == ram[at..at + size]
      ensures obliging ==> r.Some?
    {
      var fails := Fails();
      if fails {
        return None;
      }
      return Some(ram[at..at + size]);
    }

    /** One framed request: served or not served, and the answer may be lost either way. */
    method Poke(at: nat, data: seq<Byte>) returns (ok: bool)
      requires at + |data| <= RAM_SIZE
      modifies this`ram
      ensures ram == old(ram) || ram == Write(old(ram), at, data)
      ensures ok ==> ram == Write(old(ram), at, data)
      ensures obliging ==> ok
    {
      var fails := Fails();
      if fails {
        return false;
      }
      ram := Write(ram, at, data);
      fails := Fails();
      ok := !fails;
    }

    method Status() returns (r: Option<bool>)
      ensures r.Some? ==> r.value == running
      ensures obliging ==> r.Some?
    {
      var fails := Fails();
      if fails {
        return None;
      }
      return Some(running);
    }

    /** Until it stops, the software goes on reading keys and the user goes on pressing them. */
    method Pause() returns (ok: bool)
      modifies this
      ensures ram == frozen && (obliging ==> ok) && (ok ==> !running)
      ensures quiet && GoodPointers(old(ram)) ==>
        && GoodPointers(ram) && Pending(ram) <= Pending(old(ram))
        && read + Queue(ram) == old(read) + Queue(old(ram))
    {
      hide Queue;
      var later: Ram := Anything();
      if quiet && GoodPointers(ram) {
        if !HasRead(ram, later) {
          later := ram;
        }
        read := read + Queue(ram)[..Pending(ram) - Pending(later)];
      }
      ram, frozen := later, later;
      var fails := Fails();
      ok := !fails;
      running := *;
      if ok {
        running := false;
      }
    }

    method Resume() returns (ok: bool)
      modifies this`running
      ensures (ok ==> running) && (obliging ==> ok)
    {
      var fails := Fails();
      ok := !fails;
      running := ok || running;
    }
  }

  class Writer {
    const target: Target

    constructor (target: Target)
      ensures this.target == target
    {
      this.target := target;
    }

    /** Both pointers, checked, and the queue length they imply. */
    method QueueState() returns (r: Result<(nat, nat, nat), RingError>)
      ensures r.Ok? ==>
        && GoodPointers(target.ram)
        && r.value == (Put(target.ram), Get(target.ram), Pending(target.ram))
      ensures r.Err? ==> r.error == LinkFailed || (r.error == BadPointer && !GoodPointers(target.ram))
      ensures target.obliging ==> if GoodPointers(target.ram) then r.Ok? else r == Err(BadPointer)
    {
      var raw := target.Peek(PUTPNT, 4);
      if raw.None? {
        return Err(LinkFailed);
      }
      var put, get := MakeWord(raw.value[0], raw.value[1]), MakeWord(raw.value[2], raw.value[3]);
      assert put == Put(target.ram) && get == Get(target.ram);
      if !InRing(put) || !InRing(get) {
        return Err(BadPointer);
      }
      return Ok((put, get, Distance(get, put)));
    }

    /**
     * With the machine paused: as much of the batch as there is room for goes into free slots,
     * and only then does the pointer move.  The queue never holds half a batch.
     */
    method Enqueue(data: seq<Byte>) returns (r: Result<Accepted, RingError>)
      modifies target`ram
      ensures r.Ok? ==>
        && GoodPointers(old(target.ram)) && GoodPointers(target.ram)
        && r.value.count == Fitting(old(target.ram), |data|)
        && Queue(target.ram) == Queue(old(target.ram)) + data[..r.value.count]
        && r.value.pending == |Queue(target.ram)|
      ensures r.Err? && GoodPointers(old(target.ram)) ==>
        GoodPointers(target.ram) && NoneOrAll(old(target.ram), target.ram, data)
      ensures r.Err? ==> r.error == LinkFailed || (r.error == BadPointer && !GoodPointers(old(target.ram)))
      ensures target.obliging ==> if GoodPointers(old(target.ram)) then r.Ok? else r == Err(BadPointer)
    {
      hide Queue, Filled;
      var state := QueueState();
      if state.Err? {
        return Err(state.error);
      }
      var (put, _, pending) := state.value;
      var room := KEYBUF_CAPACITY - pending;
      var accepted := if |data| < room then |data| else room;
      ghost var before := target.ram;
      if accepted > 0 {
        var batch := data[..accepted];
        var ok := WriteBatch(put, batch);
        if !ok {
          return Err(LinkFailed);
        }
        ghost var filled := target.ram;
        FillIsInvisible(before, filled, batch);
        PublishAppends(before, filled, Write(filled, PUTPNT, Le16(Wrap(put + accepted))), batch);
        ok := target.Poke(PUTPNT, Le16(Wrap(put + accepted)));
        if !ok {
          return Err(LinkFailed);
        }
      } else {
        assert data[..0] == [] && Queue(before) + [] == Queue(before);
      }
      return Ok(Accepted(accepted, pending + accepted));
    }

    /** The data writes, which stay invisible even when they are cut short. */
    method WriteBatch(put: nat, batch: seq<Byte>) returns (ok: bool)
      requires GoodPointers(target.ram) && put == Put(target.ram)
      requires 0 < |batch| <= KEYBUF_CAPACITY - Pending(target.ram)
      modifies target`ram
      ensures ok ==> Filled(old(target.ram), target.ram, put, batch)
      ensures target.obliging ==> ok
      ensures GoodPointers(target.ram) && Queue(target.ram) == Queue(old(target.ram))
    {
      hide Queue, Filled;
      var first := if |batch| < KEYBUF_END - put then |batch| else KEYBUF_END - put;
      ghost var before := target.ram;
      TwoWritesFill(before, put, batch, first);
      HeadFills(before, put, batch, first);
      FillIsInvisible(before, Write(before, put, batch[..first]), batch[..first]);
      ok := target.Poke(put, batch[..first]);
      if ok && first < |batch| {
        FillIsInvisible(before, Write(target.ram, KEYBUF_START, batch[first..]), batch);
        ok := target.Poke(KEYBUF_START, batch[first..]);
      }
    }

    /** The fallback for agents without an atomic keyboard request. */
    method WriteLegacy(data: seq<Byte>) returns (r: Result<Accepted, RingError>)
      modifies target
      ensures target.quiet && GoodPointers(old(target.ram)) && ((r.Ok? && data != []) || !unchanged(target)) ==>
        && GoodPointers(target.frozen)
        && target.read + Queue(target.frozen) == old(target.read) + Queue(old(target.ram))
      ensures r.Ok? && data != [] ==>
        && GoodPointers(target.frozen) && GoodPointers(target.ram) && target.running
        && r.value.count == Fitting(target.frozen, |data|)
        && Queue(target.ram) == Queue(target.frozen) + data[..r.value.count]
      ensures r.Ok? ==> GoodPointers(target.ram) && r.value.pending == |Queue(target.ram)| <= KEYBUF_CAPACITY
      ensures r.Ok? && data == [] ==> r.value.count == 0 && unchanged(target)
      ensures r.Err? && target.ram != old(target.ram) && GoodPointers(target.frozen) ==>
        GoodPointers(target.ram) && NoneOrAll(target.frozen, target.ram, data)
      ensures r.Err? && target.obliging ==>
        if r.error == NotRunning then !old(target.running) && unchanged(target)
        else r.error == BadPointer && !GoodPointers(if data == [] then target.ram else target.frozen)
      ensures target.obliging && target.quiet && GoodPointers(old(target.ram)) && old(target.running) ==> r.Ok?
    {
      hide Queue;
      if data == [] {
        var state := QueueState();
        return if state.Err? then Err(state.error) else Ok(Accepted(0, state.value.2));
      }
      var status := target.Status();
      if status.None? {
        return Err(LinkFailed);
      }
      if !status.value {
        return Err(NotRunning);
      }
      var paused := target.Pause();
      if !paused {
        return Err(LinkFailed);
      }
      r := Enqueue(data);
      var resumed := target.Resume();
      if !resumed && r.Ok? {
        return Err(LinkFailed);
      }
    }
  }

  lemma HeadFills(before: Ram, put: nat, data: seq<Byte>, first: nat)
    requires InRing(put) && |data| <= KEYBUF_CAPACITY
    requires first == if |data| < KEYBUF_END - put then |data| else KEYBUF_END - put
    ensures Filled(before, Write(before, put, data[..first]), put, data[..first])
  {
    TwoWritesFill(before, put, data[..first], first);
    assert data[..first][..first] == data[..first];
  }
}
