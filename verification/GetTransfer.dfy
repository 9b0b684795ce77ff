/**
 * The host side of a resumable download: a partial file whose synced part survives a power
 * cut, a journal, and a destination that is linked once and never overwritten.
 *
 * Every run keeps `Persistent`: with an honest helper the journalled offset is at most the
 * offset the MSX has acknowledged and at most the synced length, and the bytes below are a prefix
 * of the remote file.  The acknowledged offset is at most the synced length too, as long as no
 * rejected probe was taken for the absence of a worker that lives.
 */
module GetTransfer {
  import opened Octets
  import opened Bytes
  import opened Crc
  import opened PackBits
  import opened OpenCodec
  import opened TransferJournal
  import opened TransferReplies
  import opened DownloadHelper

  // ------------------------------------------------------------ local files

  /**
   * The partial file.  After a power cut it has some length it has had since the last sync, and
   * the bytes that were synced and not written over are still what they were.
   */
  class PartFile {
    /** No operation on the file fails. */
    const steady: bool
    var present: bool
    var content: seq<Byte>
    /** The shortest length since the last sync: so many bytes are sure to survive. */
    var synced: nat
    /** What the last sync put on the disk, as far as nothing has been written over it. */
    var platter: seq<Byte>
    /** The greatest length since the last sync. */
    var reach: nat
    /** The directory entry is on the disk, which the first sync sees to. */
    var rooted: bool
    /** A power cut took the file away. */
    var lost: bool

    constructor (steady: bool)
      ensures Valid() && !present && !lost && content == [] && synced == 0 && platter == [] && this.steady == steady
    {
      this.steady := steady;
      present, content, synced, platter, reach, rooted, lost := false, [], 0, [], 0, false, false;
    }

    ghost predicate Valid()
      reads this
    {
      && synced <= |content| <= reach && synced <= |platter| <= reach
      && (forall i | 0 <= i < |content| && i < |platter| :: content[i] == platter[i])
      && (!rooted ==> platter == []) && (lost ==> !present && reach == 0)
    }

    ghost function Safe(): seq<Byte>
      reads this
      requires synced <= |content|
    {
      content[..synced]
    }

    /**
     * So many bytes are sure to survive, or the file is shorter than that and can become longer
     * again only with the bytes it had.
     */
    predicate Holds(n: nat)
      reads this
    {
      n <= synced || (|content| < n && (n <= |platter| || reach <= |platter|))
    }

    lemma SafeIsOnDisk()
      requires Valid()
      ensures Safe() == platter[..synced]
    {
    }

    /** Exclusive creation. */
    method Create() returns (ok: bool)
      requires Valid()
      modifies this
      ensures Valid() && ok == !old(present)
      ensures ok ==> present && !lost && content == [] && synced == 0 && platter == []
      ensures !ok ==> unchanged(this)
    {
      if present {
        return false;
      }
      present, content, synced, platter, reach, rooted, lost := true, [], 0, [], 0, false, false;
      return true;
    }

    /** Writes at the end; an interrupted write leaves some of the data. */
    method Append(data: seq<Byte>) returns (ok: bool)
      requires Valid() && !lost
      modifies this`content, this`platter, this`reach
      ensures Valid() && old(content) <= content && (ok ==> content == old(content) + data)
      ensures platter <= old(platter)
      ensures steady ==> ok
    {
      var written: nat := Anything();
      ok := *;
      ok := ok || steady;
      assert data == data[..|data|];
      if |content| < |platter| {
        platter := platter[..|content|];
      }
      content := content + if ok || written >= |data| then data else data[..written];
      reach := if reach < |content| then |content| else reach;
    }

    /** Cuts the file; until the next sync the old length may come back. */
    method Truncate(length: nat) returns (ok: bool)
      requires Valid() && length <= |content|
      modifies this`content, this`synced
      ensures Valid() && forall n | old(Holds(n)) :: Holds(n)
      ensures ok ==> content == old(content)[..length]
      ensures ok ==> synced == if old(synced) <= length then old(synced) else length
      ensures !ok ==> unchanged(this`content, this`synced)
      ensures steady ==> ok
    {
      ok := *;
      ok := ok || steady;
      if ok {
        content := content[..length];
        synced := if synced <= length then synced else length;
      }
    }

    /** flush and fsync */
    method Sync() returns (ok: bool)
      requires Valid()
      modifies this`synced, this`platter, this`reach, this`rooted
      ensures Valid() && forall n | old(Holds(n)) :: Holds(n)
      ensures if ok then synced == |content| && platter == content && rooted
              else unchanged(this)
      ensures steady ==> ok
    {
      ok := *;
      ok := ok || steady;
      if ok {
        synced, platter, reach, rooted := |content|, content, |content|, true;
      }
    }

    method Unlink()
      requires Valid()
      modifies this`present
      ensures Valid() && !present
    {
      present := false;
    }

    /** What a power cut may make of the file. */
    predicate CanBecome(after: seq<Byte>)
      reads this
    {
      && synced <= |after| <= reach
      && forall i | 0 <= i < |after| && i < |platter| :: after[i] == platter[i]
    }

    /** A file that was never synced may be gone altogether. */
    method PowerCut()
      requires Valid()
      modifies this
      ensures Valid() && forall n | old(Holds(n)) :: Holds(n)
      ensures old(synced) <= synced && platter <= old(platter)
      ensures if lost then old(lost) || (old(present) && !old(rooted) && synced == 0) else present == old(present)
      ensures old(lost) ==> lost
    {
      var gone: bool := *;
      if lost || (present && !rooted && gone) {
        present, content, synced, platter, reach, lost := false, [], 0, [], 0, true;
        return;
      }
      var after: seq<Byte> := Anything();
      content := if CanBecome(after) then after else content;
      synced := if |content| <= |platter| then |content| else |platter|;
      platter, reach, rooted := platter[..synced], |content|, true;
    }
  }

  datatype LinkResult = Linked | AlreadyExists | LinkFailed

  class Destination {
    /** The file system makes hard links. */
    const steady: bool
    var file: Option<seq<Byte>>

    constructor (file: Option<seq<Byte>>, steady: bool)
      ensures this.file == file && this.steady == steady
    {
      this.file, this.steady := file, steady;
    }

    /** A hard link: an existing file is never replaced. */
    method Link(content: seq<Byte>) returns (r: LinkResult)
      modifies this
      ensures r == Linked ==> old(file).None? && file == Some(content)
      ensures r != Linked ==> file == old(file)
      ensures steady && old(file).None? ==> r == Linked
    {
      if file.Some? {
        return AlreadyExists;
      }
      var refused: bool := *;
      if refused && !steady {
        return LinkFailed;
      }
      file := Some(content);
      return Linked;
    }
  }

  // ------------------------------------------------------------ the link to the MSX

  datatype Block = Block(fault: bool, offset: nat, data: seq<Byte>)

  datatype AckReply = AckReply(fault: bool, durable: nat)

  ghost predicate Evolves(before: Reader, remote: seq<Byte>, after: Reader)
    requires |remote| < 0x1_0000_0000
  {
    exists script :: after == Drifted(before, remote, script)
  }

  ghost predicate ServedOpen(before: Reader, remote: seq<Byte>, d: Descriptor, after: Reader)
    requires |remote| < 0x1_0000_0000
  {
    exists mid ::
      && Evolves(before, remote, mid)
      && (after == mid || (Released(mid.state) && after == Reader(WorkState.Staged, Some(d), mid.acked)))
  }

  ghost predicate ServedAck(before: Reader, remote: seq<Byte>, offset: nat, crc: bv32, after: Reader)
    requires |remote| < 0x1_0000_0000
  {
    exists mid ::
      && Evolves(before, remote, mid)
      && (after == mid || (AcceptsAck(mid, remote, offset, crc) && after == mid.(acked := offset)))
  }

  ghost predicate ServedClose(before: Reader, remote: seq<Byte>, after: Reader)
    requires |remote| < 0x1_0000_0000
  {
    exists mid ::
      && Evolves(before, remote, mid)
      && (after == mid || (Running(mid.state) && mid.acked == |remote| && after == mid.(state := Verifying)))
  }

  /** What the link carried: requests as they are sent, and answers that say how far the host has come. */
  datatype Event =
    | Opened(order: Descriptor)
    | Commanded(control: Control)
    | Reported(state: WorkState, durable: nat)
    | Asked(offset: nat)
    | Acknowledged(offset: nat)
    | Closed

  /** With an obliging peer nothing is lost, nobody else types, and the worker does at once what it can. */
  class Link {
    const honest: bool
    const obliging: bool
    const remote: seq<Byte>
    var reader: Reader
    /** FAST_BEGIN has been accepted since the last OPEN. */
    var armed: bool
    var log: seq<Event>

    constructor (honest: bool, obliging: bool, remote: seq<Byte>)
      ensures this.honest == honest && this.obliging == (honest && obliging) && this.remote == remote
      ensures reader == Reader(Idle, None, 0) && log == [] && !armed
    {
      this.honest, this.obliging, this.remote := honest, honest && obliging, remote;
      reader, armed, log := Reader(Idle, None, 0), false, [];
    }

    ghost predicate Sized() {
      |remote| < 0x1_0000_0000
    }

    method Drift()
      requires Sized()
      modifies this`reader
      ensures Evolves(old(reader), remote, reader)
      ensures obliging ==> reader == Prompt(old(reader), remote)
    {
      var script: seq<Move> := Anything();
      if obliging {
        script := [OpenFile, Finish];
      }
      reader := Drifted(reader, remote, script);
      assert reader == Drifted(old(reader), remote, script);
    }

    method Lose() returns (lost: bool)
      ensures obliging ==> !lost
    {
      lost := *;
      lost := lost && !obliging;
    }

    /**
     * A rejection may say that the transfer ID is unknown; otherwise the request was garbled on
     * its way, or the agent was busy, and it says nothing of a worker.
     */
    method AskStatus() returns (r: Reply<Status>, unknown: bool)
      requires Sized()
      modifies this`reader, this`log
      ensures honest ==> Evolves(old(reader), remote, reader)
      ensures log == old(log) + if r.Answer? then [Reported(r.value.state, r.value.durable)] else []
      ensures r.Answer? ==> WellFormed(r.value)
      ensures honest && r.Answer? ==> reader.order.Some? && r.value == Report(reader, remote)
      ensures honest && r.Rejected? && unknown ==> reader.order.None?
      ensures honest && obliging ==> reader == Prompt(old(reader), remote)
      ensures honest && obliging && reader.order.Some? && WellFormed(Report(reader, remote)) ==>
        r == Answer(Report(reader, remote))
      ensures honest && obliging && reader.order.None? ==> r == Rejected && unknown
    {
      var status: Status := Anything();
      Drift();
      var lost := Lose();
      if lost {
        return Lost, false;
      }
      var garbled := Lose();
      var claim: bool := *;
      if garbled {
        return Rejected, claim && !honest;
      }
      if honest {
        if reader.order.None? {
          return Rejected, true;
        }
        status := Report(reader, remote);
      }
      if !WellFormed(status) {
        return Rejected, false;
      }
      log := log + [Reported(status.state, status.durable)];
      return Answer(status), false;
    }

    method SendControl(control: Control) returns (r: Reply<Ack>)
      requires Sized()
      modifies this
      ensures honest ==> Evolves(old(reader), remote, reader)
      ensures log == old(log) + [Commanded(control)]
      ensures honest && obliging ==> reader == Told(Prompt(old(reader), remote), remote, control)
      ensures honest && obliging ==> armed == (old(armed) || Arms(Prompt(old(reader), remote), control))
      ensures honest && obliging && WorksOn(Prompt(old(reader), remote)) ==>
        r.Answer? && !r.value.fault && r.value.state != Failed && r.value.state != Cancelled
    {
      var ack: Ack := Anything();
      log := log + [Commanded(control)];
      Drift();
      ghost var before := reader;
      if obliging {
        armed := armed || Arms(reader, control);
        ack := Ack(reader.state, false);
        Tell(control);
        EvolvesOn(old(reader), before, reader, remote);
      }
      var lost := Lose();
      return if lost then Lost else Answer(ack);
    }

    /** Typing the launch line starts the helper. */
    method Tell(control: Control)
      requires Sized()
      modifies this`reader
      ensures reader == Told(old(reader), remote, control)
      ensures Evolves(old(reader), remote, reader)
    {
      ghost var before := reader;
      if control == TypeLaunchLine && reader.state == WorkState.Staged {
        reader := Moved(reader, Launch);
        assert ([Launch] + [OpenFile, Finish])[1..] == [OpenFile, Finish];
        assert Prompt(reader, remote) == Drifted(before, remote, [Launch] + [OpenFile, Finish]);
        reader := Drifted(reader, remote, [OpenFile, Finish]);
      } else {
        assert reader == Drifted(before, remote, []);
      }
    }

    method SendOpen(d: Descriptor) returns (r: Reply<Ack>)
      requires Sized()
      modifies this
      ensures honest ==> ServedOpen(old(reader), remote, d, reader)
      ensures log == old(log) + [Opened(d)]
      ensures honest && r.Answer? && !r.value.fault ==> reader.state == WorkState.Staged
      ensures honest && obliging && Released(Prompt(old(reader), remote).state) ==>
        && reader == Reader(WorkState.Staged, Some(d), Prompt(old(reader), remote).acked) && !armed
        && r == Answer(Ack(WorkState.Staged, false))
    {
      var ack: Ack := Anything();
      log := log + [Opened(d)];
      Drift();
      ghost var mid := reader;
      var lost := Lose();
      if lost {
        return Lost;
      }
      var refused := Lose();
      if honest {
        if Released(reader.state) && !refused {
          reader, armed := Reader(WorkState.Staged, Some(d), reader.acked), false;
          ack := Ack(WorkState.Staged, false);
        } else {
          ack := Ack(reader.state, true);
        }
      }
      lost := Lose();
      return if lost then Lost else Answer(ack);
    }

    /** Any stretch of the file that starts at the requested offset; it may be empty. */
    method ReadBlock(offset: nat, maximum: nat) returns (r: Reply<Block>)
      requires Sized()
      modifies this`reader, this`log
      ensures honest ==> Evolves(old(reader), remote, reader)
      ensures log == old(log) + [Asked(offset)]
      ensures honest && r.Answer? && !r.value.fault ==>
        && r.value.offset == offset && offset + |r.value.data| <= |remote|
        && r.value.data == remote[offset..offset + |r.value.data|]
      ensures honest && obliging ==> reader == Prompt(old(reader), remote)
      ensures honest && obliging && armed && Running(reader.state) && offset < |remote| && maximum > 0 ==>
        r.Answer? && !r.value.fault && r.value.data != [] && |r.value.data| <= maximum
    {
      var block: Block := Anything();
      log := log + [Asked(offset)];
      Drift();
      var lost := Lose();
      if lost {
        return Lost;
      }
      if honest {
        if !Running(reader.state) || offset > |remote| || (obliging && !armed) {
          block := Block(true, 0, []);
        } else {
          var length: nat := Anything();
          if obliging {
            length := if maximum < |remote| - offset then maximum else |remote| - offset;
          }
          var end := if length <= maximum && offset + length <= |remote| then offset + length else offset;
          block := Block(false, offset, remote[offset..end]);
        }
      }
      return Answer(block);
    }

    method SendAck(offset: nat, crc: bv32) returns (r: Reply<AckReply>)
      requires Sized()
      modifies this`reader, this`log
      ensures honest ==> ServedAck(old(reader), remote, offset, crc, reader)
      ensures honest && r.Answer? && !r.value.fault ==> r.value.durable == offset && reader.acked == offset
      ensures log == old(log) + if r.Answer? && !r.value.fault && r.value.durable == offset
                                then [Acknowledged(offset)] else []
      ensures honest && obliging && AcceptsAck(Prompt(old(reader), remote), remote, offset, crc) ==>
        r.Answer? && !r.value.fault && reader == Prompt(old(reader), remote).(acked := offset)
    {
      var reply: AckReply := Anything();
      Drift();
      ghost var mid := reader;
      var lost := Lose();
      if lost {
        return Lost;
      }
      if honest {
        if AcceptsAck(reader, remote, offset, crc) {
          reader := reader.(acked := offset);
          reply := AckReply(false, offset);
        } else {
          reply := AckReply(true, 0);
        }
      }
      lost := Lose();
      if lost {
        return Lost;
      }
      if !reply.fault && reply.durable == offset {
        log := log + [Acknowledged(offset)];
      }
      return Answer(reply);
    }

    /** CLOSE ends a download that was acknowledged to the last byte. */
    method SendClose() returns (r: Reply<Ack>)
      requires Sized()
      modifies this`reader, this`log
      ensures honest ==> ServedClose(old(reader), remote, reader)
      ensures log == old(log) + [Closed]
      ensures honest && obliging && Closes(Prompt(old(reader), remote), remote) ==>
        && reader == CloseRead(Prompt(old(reader), remote))
        && r.Answer? && !r.value.fault && r.value.state != Failed && r.value.state != Cancelled
    {
      var ack: Ack := Anything();
      log := log + [Closed];
      Drift();
      ghost var mid := reader;
      var lost := Lose();
      if lost {
        return Lost;
      }
      if honest && Running(reader.state) && reader.acked == |remote| {
        reader := reader.(state := Verifying);
      }
      if obliging {
        ack := Ack(reader.state, false);
      }
      lost := Lose();
      return if lost then Lost else Answer(ack);
    }
  }

  /** What typing the launch line makes of a prompt worker. */
  function Told(h: Reader, remote: seq<Byte>, control: Control): Reader
    requires |remote| < 0x1_0000_0000
  {
    if control == TypeLaunchLine && h.state == WorkState.Staged then Prompt(h.(state := Opening), remote) else h
  }

  predicate Arms(h: Reader, control: Control) {
    control == FastBegin && (h.state == Ready || h.state == Transferring)
  }

  predicate WorksOn(h: Reader) {
    h.state != Failed && h.state != Cancelled
  }

  predicate Closes(h: Reader, remote: seq<Byte>) {
    h.state == Complete || (Running(h.state) && h.acked == |remote|)
  }

  function CloseRead(h: Reader): Reader {
    if Running(h.state) then h.(state := Verifying) else h
  }

  lemma EvolvesOn(a: Reader, b: Reader, c: Reader, remote: seq<Byte>)
    requires |remote| < 0x1_0000_0000 && Evolves(a, remote, b) && Evolves(b, remote, c)
    ensures Evolves(a, remote, c)
  {
    var x :| b == Drifted(a, remote, x);
    var y :| c == Drifted(b, remote, y);
    DriftedOn(a, remote, x, y);
  }

  lemma {:induction false} DriftedOn(h: Reader, remote: seq<Byte>, x: seq<Move>, y: seq<Move>)
    requires |remote| < 0x1_0000_0000
    ensures Drifted(h, remote, x + y) == Drifted(Drifted(h, remote, x), remote, y)
    decreases |x|
  {
    hide CanMove, Moved;
    if x == [] {
      assert x + y == y;
    } else {
      assert (x + y)[0] == x[0] && (x + y)[1..] == x[1..] + y;
      DriftedOn(if CanMove(h, remote, x[0]) then Moved(h, x[0]) else h, remote, x[1..], y);
    }
  }

  // ------------------------------------------------------------ what an exchange keeps

  /** No worker starts by itself, and a living one keeps its boundary. */
  ghost predicate Calm(before: Reader, after: Reader) {
    && (Settled(before) ==> Settled(after))
    && (Settled(before) && Serving(after.state) ==> Serving(before.state) && after.acked == before.acked)
  }

  lemma EvolvesKeeps(d: Download, before: Reader, record: Option<Record>, removed: bool, synced: seq<Byte>,
                     after: Reader)
    requires Planned(d) && Ordered(d, before, record, removed, synced) && Evolves(before, d.remote, after)
    ensures Ordered(d, after, record, removed, synced) && Calm(before, after)
    ensures NoFurther(before, after, |synced|)
    ensures record.Some? ==> NoFurther(before, after, record.value.offset)
  {
    hide Ordered, Serving, Settled, NoFurther;
    var script :| after == Drifted(before, d.remote, script);
    DriftKeeps(d, before, record, removed, synced, script);
  }

  lemma ServedOpenKeeps(d: Download, before: Reader, record: Option<Record>, synced: seq<Byte>, order: Descriptor,
                        after: Reader)
    requires Planned(d) && Ordered(d, before, record, false, synced)
    requires ServedOpen(before, d.remote, order, after)
    requires record.Some? && Bare(order) == record.value.order && order.resumeOffset == record.value.offset
    requires order.resumeCrc == record.value.crc && !order.receiptless
    ensures Ordered(d, after, record, false, synced) && NoFurther(before, after, |synced|)
  {
    hide Ordered, Bare;
    var mid :| Evolves(before, d.remote, mid)
      && (after == mid || (Released(mid.state) && after == Reader(WorkState.Staged, Some(order), mid.acked)));
    EvolvesKeeps(d, before, record, false, synced, mid);
    if after != mid {
      OpenKeeps(d, mid, record, synced, order);
    }
  }

  lemma ServedAckKeeps(d: Download, before: Reader, record: Option<Record>, removed: bool, synced: seq<Byte>,
                       offset: nat, crc: bv32, after: Reader)
    requires Planned(d) && Ordered(d, before, record, removed, synced)
    requires ServedAck(before, d.remote, offset, crc, after) && offset <= |synced|
    ensures Ordered(d, after, record, removed, synced) && NoFurther(before, after, |synced|)
    ensures Settled(before) ==> Settled(after)
  {
    hide Ordered, Crc32;
    var mid :| Evolves(before, d.remote, mid)
      && (after == mid || (AcceptsAck(mid, d.remote, offset, crc) && after == mid.(acked := offset)));
    EvolvesKeeps(d, before, record, removed, synced, mid);
    if after != mid {
      AckKeeps(d, mid, record, removed, synced, offset);
    }
  }

  lemma ServedCloseKeeps(d: Download, before: Reader, record: Option<Record>, removed: bool, synced: seq<Byte>,
                         after: Reader)
    requires Planned(d) && Ordered(d, before, record, removed, synced)
    requires ServedClose(before, d.remote, after)
    ensures Ordered(d, after, record, removed, synced) && Calm(before, after)
    ensures NoFurther(before, after, |synced|)
  {
    hide RecordOrdered, Crc32;
    var mid :| Evolves(before, d.remote, mid)
      && (after == mid || (Running(mid.state) && mid.acked == |d.remote| && after == mid.(state := Verifying)));
    EvolvesKeeps(d, before, record, removed, synced, mid);
  }

  lemma TruthLasts(d: Download, s: Status, before: Reader, after: Reader, record: Option<Record>)
    requires Planned(d) && Truthful(d, s, before, record) && Calm(before, after)
    ensures Truthful(d, s, after, record)
  {
    hide Crc32;
  }

  /** Cutting the partial file back to where the journal stands, or further on. */
  lemma CutKeeps(d: Download, h: Reader, record: Option<Record>, removed: bool, synced: seq<Byte>, length: nat)
    requires Planned(d) && Ordered(d, h, record, removed, synced) && length <= |synced|
    requires record.Some? && record.value.offset <= length
    ensures Ordered(d, h, record, removed, synced[..length])
  {
    hide Crc32;
    assert synced[..length] <= synced;
  }

  /** Syncing more of the remote file. */
  lemma SyncKeeps(d: Download, h: Reader, record: Option<Record>, removed: bool, synced: seq<Byte>, more: seq<Byte>)
    requires Planned(d) && Ordered(d, h, record, removed, synced)
    requires synced <= more <= d.remote
    ensures Ordered(d, h, record, removed, more)
  {
    hide Crc32;
  }

  /** Journalling a boundary both sides have. */
  lemma RecordKeeps(d: Download, h: Reader, record: Option<Record>, synced: seq<Byte>, next: Record)
    requires Planned(d) && Ordered(d, h, record, false, synced)
    requires RecordOrdered(d, next, |synced|)
    requires record.Some? ==> record.value.offset <= next.offset
    requires Settled(h)
    requires Serving(h.state) ==> next.offset <= h.acked
    ensures Ordered(d, h, Some(next), false, synced)
  {
    hide Crc32, RecordOrdered;
    if record.Some? {
      OrderedOffsets(d, h, record.value, false, synced);
    }
  }

  lemma OrderedOffsets(d: Download, h: Reader, record: Record, removed: bool, synced: seq<Byte>)
    requires Planned(d) && Ordered(d, h, Some(record), removed, synced)
    ensures record.offset <= |synced| && record.offset <= |d.remote|
    ensures record.crc == Crc32(d.remote[..record.offset])
    ensures OurOrder(d, record.order) && !record.closeIntent && (record.order == d.order ==> record.offset == 0)
  {
    hide Crc32;
  }

  // ------------------------------------------------------------ the session

  datatype GetError =
    | DestinationExists | NoJournal | NotActive | StagedUnlaunched | CancelledByCaller | LinkLost | RemoteFailure
    | TimedOut | Stopped | UnboundPartial | PartMissing | PartShort | PartCrcDiffers | BindingChanged
    | BadMetadata | BehindJournal | AheadOfPartial | PrefixDiffers | WrongOffset | CrossesEnd
    | CheckpointRefused | NotVerified | JournalRefused(why: JournalError)

  /** Failures that come from the caller, the link, the MSX or the local disk. */
  predicate Tolerable(e: GetError) {
    e.DestinationExists? || e.NoJournal? || e.NotActive? || e.StagedUnlaunched? || e.CancelledByCaller?
    || e.LinkLost? || e.RemoteFailure? || e.TimedOut? || e.Stopped? || e.UnboundPartial?
  }

  /** Failures that are not about where to go on. */
  predicate OfTheLink(e: GetError) {
    !(e.PartMissing? || e.JournalRefused? || e.BehindJournal? || e.AheadOfPartial?)
  }

  /** What the journal holds, whoever is at the other end. */
  ghost predicate RecordSound(d: Download, record: Option<Record>) {
    record.Some? ==>
      && RecordFault(record.value).None? && OpenCodec.Valid(record.value.order)
      && record.value.order == Bare(record.value.order) && !record.value.closeIntent
      && SameFile(record.value.order, d.order)
  }

  /** The same transfer of the same path, whatever size is known. */
  predicate SameFile(a: Descriptor, b: Descriptor) {
    a.direction == Get && b.direction == Get && a.encoding == b.encoding && a.id == b.id && a.path == b.path
  }

  /** An OPEN of a first attempt asks for a fresh start, a later one for exactly what the journal says. */
  predicate AsksFor(d: Download, order: Descriptor, found: Option<Record>) {
    && SameFile(order, d.order)
    && match found
       case None => !order.resume && order.resumeOffset == 0 && order.resumeCrc == 0
       case Some(r) => order.resume && order.resumeOffset == r.offset && order.resumeCrc == r.crc
  }

  /** No CLOSE so far, and only the proper OPEN. */
  ghost predicate Unclosed(d: Download, run: seq<Event>, found: Option<Record>) {
    Closed !in run && forall e <- run | e.Opened? :: AsksFor(d, e.order, found)
  }

  /** The peer says that the host has `n` bytes. */
  predicate Vouches(e: Event, n: nat) {
    e == Acknowledged(n) || (e.Reported? && Serving(e.state) && e.durable == n)
  }

  ghost predicate VouchedIn(run: seq<Event>, n: nat) {
    exists e <- run :: Vouches(e, n)
  }

  /** The only CLOSE is the `k`-th event, and the peer had vouched for the whole size before. */
  ghost predicate ClosedAt(run: seq<Event>, k: int, size: nat) {
    && 0 <= k < |run| && run[k] == Closed && VouchedIn(run[..k], size)
    && forall i | 0 <= i < |run| && run[i] == Closed :: i == k
  }

  lemma OneMoreWord(d: Download, run: seq<Event>, found: Option<Record>, e: Event, size: nat)
    requires e != Closed && (e.Opened? ==> AsksFor(d, e.order, found))
    ensures Unclosed(d, run, found) ==> Unclosed(d, run + [e], found)
    ensures forall n | VouchedIn(run, n) :: VouchedIn(run + [e], n)
    ensures forall n | Vouches(e, n) :: VouchedIn(run + [e], n)
    ensures forall k | ClosedAt(run, k, size) :: ClosedAt(run + [e], k, size)
    ensures Closed in run ==> Closed in run + [e]
  {
    hide AsksFor, Vouches;
    var longer := run + [e];
    assert longer[|run|] == e;
    forall n | Vouches(e, n) ensures VouchedIn(longer, n) {
      assert e in longer;
    }
    forall k | ClosedAt(run, k, size) ensures ClosedAt(longer, k, size) {
      assert longer[..k] == run[..k];
    }
  }

  lemma LastWord(run: seq<Event>, size: nat)
    requires Closed !in run && VouchedIn(run, size)
    ensures ClosedAt(run + [Closed], |run|, size)
  {
    assert (run + [Closed])[..|run|] == run;
  }

  class GetSession {
    const download: Download
    const journal: Journal
    const link: Link
    const part: PartFile
    const destination: Destination
    const maxChunk: nat
    const ioChunk: nat
    var descriptor: Descriptor
    var offset: nat
    var checksum: bv32
    var journalCheckpoint: nat
    /** A rejection that did not name the transfer ID unknown has been taken for the absence of a worker. */
    ghost var misread: bool
    /** The log, and the record, this run began with. */
    ghost var history: seq<Event>
    ghost var found: Option<Record>

    constructor (download: Download, journal: Journal, link: Link, part: PartFile, destination: Destination,
                 maxChunk: nat, ioChunk: nat)
      ensures this.download == download && this.journal == journal && this.link == link
      ensures this.part == part && this.destination == destination
      ensures this.maxChunk == maxChunk && this.ioChunk == ioChunk && !misread && history == []
    {
      misread, history, found := false, [], None;
      this.download, this.journal, this.link := download, journal, link;
      this.part, this.destination := part, destination;
      this.maxChunk, this.ioChunk := maxChunk, ioChunk;
      descriptor, offset, checksum, journalCheckpoint := download.order, 0, 0, 0;
    }

    /** What outlives a run. */
    ghost predicate Persistent()
      reads this`misread, this`history, journal, link, part, destination
    {
      && history <= link.log
      && Planned(download) && link.Sized() && maxChunk > 0 && ioChunk > 0
      && part.Valid()
      && RecordSound(download, journal.record)
      && (journal.record.Some? && destination.file.None? ==> part.present || part.lost)
      && (link.honest ==> InStep())
    }

    /**
     * The journal is behind both the acknowledgement and the synced bytes.  The acknowledgement
     * is behind the synced bytes too, unless a rejected probe was taken for absence.
     */
    ghost predicate InStep()
      reads this`misread, journal, link, part
    {
      && link.remote == download.remote && |download.remote| < 0x1_0000_0000
      && part.Valid() && part.platter <= download.remote
      && Ordered(download, link.reader, journal.record, journal.removed, part.Safe())
      && (Serving(link.reader.state) ==> part.Holds(link.reader.acked))
      && (misread || InReach())
    }

    /** Nothing goes wrong: no message is lost, nobody cancels, no deadline passes, every file operation succeeds. */
    predicate Smooth() {
      link.honest && link.obliging && journal.steady && part.steady && destination.steady
    }

    /** The new file is not in anyone's way, the partial is where the journal left it, and the worker in reach. */
    ghost predicate CanFinish()
      reads journal, link, part, destination
    {
      && destination.file.None? && (if journal.record.None? then !part.present else !part.lost)
      && InReach() && link.reader.state != Suspended
    }

    /** The worker is at work and armed, or has completed. */
    ghost predicate Afoot()
      reads link
    {
      && link.reader.order.Some?
      && (link.reader.state == Complete
          || ((link.reader.state == Ready || link.reader.state == Transferring) && link.armed))
    }

    // ---------------------------------------------------------- what was said in this run

    ghost predicate Before()
      reads this`history, this`found, link`log
    {
      history <= link.log && Unclosed(download, link.log[|history|..], found)
    }

    /** The peer itself has said in this run that the host has `n` bytes. */
    ghost predicate Vouched(n: nat)
      reads this`history, link`log
    {
      history <= link.log && VouchedIn(link.log[|history|..], n)
    }

    ghost predicate Said()
      reads this`history, link`log
    {
      history <= link.log && Closed in link.log[|history|..]
    }

    /** CLOSE was said once, after the peer had vouched for the whole declared size. */
    ghost predicate Ended()
      reads this`history, this`descriptor, link`log
    {
      history <= link.log && exists k :: ClosedAt(link.log[|history|..], k, descriptor.wireSize)
    }

    twostate predicate Onwards()
      reads this`history, this`found, this`descriptor, link`log
    {
      && (old(Before()) ==> Before()) && (old(Said()) ==> Said())
      && (old(descriptor) == descriptor && old(Ended()) ==> Ended())
      && forall n | old(Vouched(n)) :: Vouched(n)
    }

    /** One more event that is neither CLOSE nor an unasked-for OPEN. */
    twostate lemma Spoken(e: Event)
      requires old(history) == history && old(found) == found && old(descriptor) == descriptor
      requires old(link.log) + [e] == link.log && e != Closed
      requires e.Opened? ==> AsksFor(download, e.order, found)
      ensures Onwards()
      ensures old(history <= link.log) ==> forall n | Vouches(e, n) :: Vouched(n)
    {
      hide AsksFor, Vouches;
      if old(history <= link.log) {
        var run := old(link.log)[|history|..];
        assert link.log[|history|..] == run + [e];
        OneMoreWord(download, run, found, e, descriptor.wireSize);
      }
    }

    twostate lemma NothingSpoken()
      requires old(history) == history && old(found) == found && old(descriptor) == descriptor
      requires old(link.log) == link.log
      ensures Onwards()
    {
    }

    /** A living worker can be taken up again from the bytes that are sure to survive. */
    ghost predicate InReach()
      reads link, part
    {
      Level(link.reader, part.synced)
    }

    /** A worker lives whose boundary is above the given one. */
    ghost predicate OutOfStep(journalled: nat)
      reads link
    {
      Serving(link.reader.state) && journalled < link.reader.acked
    }

    ghost predicate Fits(status: Status)
      reads part
    {
      Serving(status.state) ==> status.durable <= part.synced
    }

    /** A status that is known to be true, when the helper is honest. */
    ghost predicate Trusted(status: Status)
      reads this`history, journal, link, part
    {
      && WellFormed(status)
      && (link.honest ==>
            && |download.remote| < 0x1_0000_0000
            && Truthful(download, status, link.reader, journal.record)
            && (Serving(status.state) ==> part.Holds(status.durable)))
      && (Serving(status.state) ==> Vouched(status.durable))
    }

    // ---------------------------------------------------------- single exchanges

    method AskStatus() returns (r: Reply<Status>, unknown: bool)
      requires Persistent()
      modifies link
      ensures Persistent()
      ensures link.honest ==> Calm(old(link.reader), link.reader) && (old(InReach()) ==> InReach())
      ensures r.Answer? ==> Trusted(r.value) && (link.honest ==> r.value.state == link.reader.state && !r.value.fault)
      ensures r.Answer? && link.honest && InReach() ==> Fits(r.value)
      ensures link.honest && journal.record.Some? ==>
        NoFurther(old(link.reader), link.reader, journal.record.value.offset)
      ensures r.Rejected? && unknown && link.honest ==> Settled(link.reader) && !Serving(link.reader.state)
      ensures Onwards() && unchanged(link`armed)
      ensures r.Answer? && Serving(r.value.state) ==> Vouched(r.value.durable)
      ensures Smooth() ==> link.reader == Prompt(old(link.reader), link.remote)
      ensures Smooth() ==>
        if link.reader.order.Some? then r == Answer(Report(link.reader, link.remote)) else r == Rejected && unknown
    {
      hide Ordered, Planned, RecordSound, Truthful, Report, Settled, Onwards, Prompt, Vouched;
      r, unknown := link.AskStatus();
      if r.Answer? {
        Spoken(Reported(r.value.state, r.value.durable));
        assert Vouches(Reported(r.value.state, r.value.durable), r.value.durable) || !Serving(r.value.state);
      } else {
        NothingSpoken();
      }
      if link.honest {
        EvolvesKeeps(download, old(link.reader), journal.record, journal.removed, part.Safe(), link.reader);
        StatusFacts(download, link.reader, journal.record, journal.removed, part.Safe());
      }
    }

    method Command(control: Control) returns (error: Option<GetError>)
      requires Persistent()
      modifies link
      ensures Persistent()
      ensures link.honest ==> Calm(old(link.reader), link.reader) && (old(InReach()) ==> InReach())
      ensures error.Some? ==> error.value == LinkLost || error.value == RemoteFailure
      ensures Onwards()
      ensures Smooth() ==> link.reader == Told(Prompt(old(link.reader), link.remote), link.remote, control)
      ensures Smooth() ==> link.armed == (old(link.armed) || Arms(Prompt(old(link.reader), link.remote), control))
      ensures Smooth() && WorksOn(Prompt(old(link.reader), link.remote)) ==> error.None?
    {
      hide Ordered, Planned, RecordSound, Onwards, Prompt, Told, Settled, Serving;
      var r := link.SendControl(control);
      Spoken(Commanded(control));
      if link.honest {
        EvolvesKeeps(download, old(link.reader), journal.record, journal.removed, part.Safe(), link.reader);
      }
      match r
      case Lost => return Some(LinkLost);
      case Rejected => return Some(RemoteFailure);
      case Answer(ack) =>
        return if ack.fault || ack.state == Failed || ack.state == Cancelled then Some(RemoteFailure) else None;
    }

    method CancelIfRequested() returns (error: Option<GetError>)
      requires Persistent()
      modifies link
      ensures Persistent()
      ensures link.honest ==> Calm(old(link.reader), link.reader) && (old(InReach()) ==> InReach())
      ensures error.Some? ==> error.value == CancelledByCaller
      ensures Onwards()
      ensures error.None? ==> unchanged(link)
      ensures Smooth() ==> error.None?
    {
      hide Persistent, Onwards;
      var asked: bool := *;
      if asked && !Smooth() {
        var ignored := Command(Cancel);
        return Some(CancelledByCaller);
      }
      NothingSpoken();
      return None;
    }

    // ---------------------------------------------------------- finding the place

    /** The journal, the descriptor and the partial file agree on where to go on. */
    ghost predicate Bound()
      reads this`descriptor, this`offset, this`checksum, journal, part
    {
      && journal.record.Some? && !journal.removed
      && journal.record.value.offset == offset && journal.record.value.crc == checksum
      && journal.record.value.order == Bare(descriptor)
      && OpenCodec.Valid(descriptor) && !descriptor.receiptless && descriptor.resumeOffset == offset
      && descriptor.resumeCrc == checksum
      && part.present && offset <= |part.content| && checksum == Crc32(part.content[..offset])
    }

    /** The journal names a partial file that a power cut took before its first sync. */
    predicate Vanished()
      reads journal, part
    {
      journal.record.Some? && part.lost
    }

    /** Looks for a journal, opens or creates the partial file, and journals the attempt. */
    method Discover(existingOnly: bool) returns (r: Result<bool, GetError>)
      requires Persistent() && !journal.removed && destination.file.None?
      modifies this`descriptor, this`offset, this`checksum, journal`record, part
      ensures Persistent()
      ensures r.Ok? ==> Bound() && (!r.value ==> part.content == [])
      ensures r.Ok? && !r.value && link.honest ==> AtEase()
      ensures r.Ok? && r.value ==> unchanged(part)
      ensures r.Ok? && r.value ==> old(journal.record.Some?) && old(journal.record.value.offset) == offset
      ensures r.Err? && link.honest ==> Tolerable(r.error) || r.error == PartMissing
      ensures r.Err? ==> !r.error.JournalRefused? && r.error != BehindJournal && r.error != AheadOfPartial
      ensures r == Err(PartMissing) <==> old(Vanished())
      ensures link.honest && r == Err(PartMissing) ==> old(journal.record.value.offset == 0)
      ensures link.honest && old(InReach()) ==> InReach()
      ensures Smooth() && !existingOnly && old(CanFinish()) ==> r.Ok?
      ensures r.Ok? ==> AsksFor(download, descriptor, old(journal.record))
    {
      if journal.record.None? {
        r := Begin(existingOnly);
      } else {
        r := FindAgain();
      }
    }

    method Begin(existingOnly: bool) returns (r: Result<bool, GetError>)
      requires Persistent() && !journal.removed && journal.record.None?
      modifies this`descriptor, this`offset, this`checksum, journal`record, part
      ensures Persistent()
      ensures r.Ok? ==> Bound() && !r.value && part.content == []
      ensures link.honest ==> AtEase()
      ensures r.Err? ==> Tolerable(r.error)
      ensures journal.steady && !existingOnly && old(!part.present) ==> r.Ok?
      ensures r.Ok? ==> AsksFor(download, descriptor, None)
    {
      hide Persistent, Bound, Serving, Settled, Crc32;
      NeverServed();
      if existingOnly {
        return Err(NoJournal);
      }
      var created := CreatePart();
      if !created {
        return Err(UnboundPartial);
      }
      descriptor, offset, checksum := download.order, 0, 0;
      FirstAsk();
      var saved := SaveFirst();
      return if saved then Ok(false) else Err(Stopped);
    }

    /** No worker lives, and none is about to. */
    ghost predicate AtEase()
      reads link
    {
      Settled(link.reader) && !Serving(link.reader.state)
    }

    lemma FirstAsk()
      requires Persistent()
      ensures AsksFor(download, download.order, None)
    {
      hide Ordered, Crc32, RecordSound;
    }

    lemma Settings()
      requires Persistent()
      ensures link.Sized() && maxChunk > 0
    {
      hide Ordered, Crc32, RecordSound;
    }

    lemma NeverServed()
      requires Persistent() && !journal.removed && journal.record.None?
      ensures link.honest ==> AtEase()
    {
      hide Crc32, Planned;
      if link.honest {
        NeverOpened(download, link.reader, part.Safe());
      }
    }

    method CreatePart() returns (ok: bool)
      requires Persistent() && !journal.removed && journal.record.None?
      modifies part
      ensures Persistent() && (ok ==> part.present && part.content == [])
      ensures old(!part.present) ==> ok
    {
      hide Ordered, Crc32, Planned;
      if link.honest {
        NeverOpened(download, link.reader, part.Safe());
        FreshPartial(download, link.reader, part.Safe(), Record(download.order, 0, 0, false));
      }
      ok := part.Create();
      assert ok ==> part.Safe() == [];
    }

    /** The attempt is journalled before the MSX hears of it. */
    method SaveFirst() returns (saved: bool)
      requires Persistent() && !journal.removed && journal.record.None? && part.present && part.content == []
      requires descriptor == download.order && offset == 0 && checksum == 0
      modifies journal`record
      ensures Persistent() && (saved ==> Bound())
      ensures journal.steady ==> saved
    {
      hide Ordered, Crc32, Planned;
      EmptyPrefix();
      FirstRecord(download);
      if link.honest {
        NeverOpened(download, link.reader, part.Safe());
        FreshPartial(download, link.reader, part.Safe(), Record(download.order, 0, 0, false));
        assert part.Safe() == [];
      }
      var r := journal.Save(descriptor, offset, checksum, false);
      match r
      case Saved => return true;
      case Refused(_) => assert false;
      case Interrupted => return false;
    }

    lemma EmptyPrefix()
      requires part.content == []
      ensures Crc32(part.content[..0]) == 0
    {
      hide Crc32;
      Crc32Empty();
      assert part.content[..0] == [];
    }

    method FindAgain() returns (r: Result<bool, GetError>)
      requires Persistent() && !journal.removed && journal.record.Some? && destination.file.None?
      modifies this`descriptor, this`offset, this`checksum, journal`record
      ensures Persistent() && journal.record == old(journal.record)
      ensures r.Ok? ==> Bound() && r.value
      ensures r.Err? && link.honest ==> Tolerable(r.error) || r.error == PartMissing
      ensures r.Err? ==> !r.error.JournalRefused? && r.error != BehindJournal && r.error != AheadOfPartial
      ensures r == Err(PartMissing) <==> part.lost
      ensures link.honest && part.lost ==> journal.record.value.offset == 0
      ensures journal.steady && link.honest && !part.lost ==> r.Ok?
      ensures r.Ok? ==> AsksFor(download, descriptor, old(journal.record))
    {
      hide Ordered, Crc32;
      var found := journal.record.value;
      descriptor, offset, checksum := Resumed(found), found.offset, found.crc;
      ResumedAgain(found);
      if link.honest {
        OrderedOffsets(download, link.reader, found, journal.removed, part.Safe());
        assert part.content[..offset] == part.Safe()[..offset];
        PrefixOfPrefix(download, link.reader, journal.record, journal.removed, part.Safe(), offset);
      }
      if !part.present {
        return Err(PartMissing);
      }
      if |part.content| < offset {
        return Err(PartShort);
      }
      var actual := Crc32FilePrefix(part.content, offset, ioChunk);
      if actual != Some(checksum) {
        return Err(PartCrcDiffers);
      }
      var saved := journal.Save(descriptor, offset, checksum, false);
      match saved
      case Saved => return Ok(true);
      case Refused(_) => assert false;
      case Interrupted => return Err(Stopped);
    }

    /**
     * A worker that survived the previous run.  `None` means that none is alive if the agent said
     * so; but any other rejection is taken for the same.
     */
    method RecoverActive() returns (r: Result<Option<Status>, GetError>)
      requires Persistent() && Bound()
      modifies this`misread, link
      ensures Persistent() && Bound() && (old(misread) ==> misread)
      ensures link.honest && old(InReach()) ==> InReach() && (r.Ok? && r.value.Some? ==> Fits(r.value.value))
      ensures link.honest ==> NoFurther(old(link.reader), link.reader, offset)
      ensures r.Ok? && r.value.Some? ==> Trusted(r.value.value) && Matches(r.value.value.order, descriptor)
      ensures r.Ok? && r.value.Some? ==>
        var s := r.value.value.state; s == WorkState.Staged || s == Opening || Serving(s)
      ensures r.Ok? && r.value.None? && link.honest ==>
        misread || (Settled(link.reader) && !Serving(link.reader.state))
      ensures r.Err? && link.honest ==> Tolerable(r.error)
      ensures r.Err? ==> OfTheLink(r.error)
      ensures Onwards()
      ensures Smooth() && old(link.reader.state) != Suspended ==>
        && r.Ok? && link.reader == Prompt(old(link.reader), link.remote)
        && (r.value.Some? ==> link.reader.order.Some? && r.value.value == Report(link.reader, link.remote))
        && (r.value.None? ==> Released(link.reader.state) && !Serving(link.reader.state))
    {
      hide Persistent, Truthful, Bound, Matches, InReach, Fits, NoFurther, Trusted;
      BoundPlace();
      var reply, unknown := AskStatus();
      match reply
      case Lost => return Err(LinkLost);
      case Rejected =>
        var quarantined: bool := *;
        if quarantined && !Smooth() {
          return Err(LinkLost);
        }
        if !unknown {
          Misread();
        }
        return Ok(None);
      case Answer(status) =>
        if status.state == Idle || status.state == Failed || status.state == Cancelled {
          return Ok(None);
        }
        if link.honest {
          HonestMatch(status);
        }
        if status.fault {
          return Err(RemoteFailure);
        }
        if !Matches(status.order, descriptor) {
          return Err(BindingChanged);
        }
        return Ok(Some(status));
    }

    lemma BoundPlace()
      requires Bound()
      ensures journal.record.Some? && journal.record.value.offset == offset
    {
      hide Crc32;
    }

    ghost method Misread()
      requires Persistent()
      modifies this`misread
      ensures Persistent() && misread
    {
      hide Ordered, Planned, RecordSound;
      misread := true;
    }

    lemma HonestMatch(status: Status)
      requires Persistent() && Bound() && link.honest && Trusted(status)
      requires status.state == WorkState.Staged || status.state == Opening || Serving(status.state)
      ensures !status.fault && Matches(status.order, descriptor)
    {
      hide Crc32;
      OrderedOffsets(download, link.reader, journal.record.value, journal.removed, part.Safe());
    }

    /**
     * Taking it that no worker is left, returns to the journalled boundary and stages the
     * transfer anew.  A worker that does live on is out of reach afterwards exactly when the cut
     * was made and its boundary was above the journalled one.
     */
    method StartWorker() returns (r: Result<WorkState, GetError>)
      requires Persistent() && Bound() && AsksFor(download, descriptor, found)
      requires link.honest ==> misread || !Serving(link.reader.state)
      modifies link, part
      ensures Persistent() && Bound()
      ensures link.honest && r.Ok? ==> InReach()
      ensures link.honest && old(InReach()) && !InReach() ==>
        old(OutOfStep(offset))
      ensures r.Err? ==> Tolerable(r.error)
      ensures Onwards()
      ensures Smooth() && old(Released(Prompt(link.reader, link.remote).state)) ==>
        r == Ok(WorkState.Staged) && link.reader.state == WorkState.Staged && link.reader.order.Some?
    {
      hide Persistent, Crc32, Bound, Settled;
      if |part.content| > Place() {
        var cut := CutBack();
        if !cut {
          return Err(Stopped);
        }
      }
      var cancelled: bool := *;
      if cancelled && !Smooth() {
        return Err(CancelledByCaller);
      }
      r := OpenOrder();
    }

    function Place(): (n: nat)
      reads this`offset
      ensures n == offset
    {
      offset
    }

    method CutBack() returns (ok: bool)
      requires Persistent() && Bound() && |part.content| > offset
      requires link.honest ==> misread || !Serving(link.reader.state)
      modifies part
      ensures Persistent() && Bound() && (ok ==> |part.content| == part.synced == offset)
      ensures link.honest && ok ==>
        (InReach() <==> !OutOfStep(offset))
      ensures link.honest && old(InReach()) && !InReach() ==> OutOfStep(offset)
      ensures part.steady ==> ok
    {
      hide Ordered, Crc32, RecordSound, Planned, Settled;
      ghost var before := part.content;
      if link.honest {
        OrderedOffsets(download, link.reader, journal.record.value, journal.removed, part.Safe());
        assert part.Safe()[..offset] == part.content[..offset][..offset];
        CutKeeps(download, link.reader, journal.record, journal.removed, part.Safe(), offset);
      }
      ok := part.Truncate(offset);
      if !ok {
        return;
      }
      assert part.content[..offset] == before[..offset];
      assert link.honest ==> part.Safe() == old(part.Safe())[..offset] && part.synced == |part.content|;
      ok := part.Sync();
    }

    method OpenOrder() returns (r: Result<WorkState, GetError>)
      requires Persistent() && Bound() && AsksFor(download, descriptor, found)
      modifies link
      ensures Persistent() && Bound()
      ensures link.honest && (old(InReach()) || r.Ok?) ==> InReach()
      ensures r.Err? ==> Tolerable(r.error)
      ensures Onwards()
      ensures Smooth() && old(Released(Prompt(link.reader, link.remote).state)) ==>
        r == Ok(WorkState.Staged) && link.reader.state == WorkState.Staged && link.reader.order.Some?
    {
      hide Ordered, Crc32, RecordSound, Planned, Onwards, Prompt, AsksFor;
      var reply := link.SendOpen(descriptor);
      Spoken(Opened(descriptor));
      if link.honest {
        ServedOpenKeeps(download, old(link.reader), journal.record, part.Safe(), descriptor, link.reader);
      }
      match reply
      case Lost => return Err(LinkLost);
      case Rejected => return Err(RemoteFailure);
      case Answer(ack) =>
        if ack.fault || ack.state == Failed || ack.state == Cancelled {
          return Err(RemoteFailure);
        }
        return Ok(ack.state);
    }

    /** Polls until the worker serves data, or only until it has completed. */
    method WaitForWorker(onlyComplete: bool, polls: nat) returns (r: Result<Status, GetError>)
      requires Persistent()
      modifies link
      ensures Persistent()
      ensures link.honest && old(Settled(link.reader)) ==> Settled(link.reader)
      ensures link.honest && old(InReach()) ==> InReach() && (r.Ok? ==> Fits(r.value))
      ensures r.Ok? ==> Trusted(r.value)
      ensures r.Ok? ==> r.value.state == Complete
                        || (!onlyComplete && (r.value.state == Ready || r.value.state == Transferring))
      ensures r.Err? ==> Tolerable(r.error)
      ensures Onwards() && (Smooth() ==> unchanged(link`armed))
      ensures Smooth() && polls > 0 && Serviceable(Prompt(old(link.reader), link.remote), onlyComplete) ==>
        && r.Ok? && link.reader == Prompt(old(link.reader), link.remote)
        && r.value == Report(link.reader, link.remote)
    {
      hide Persistent, Trusted, Settled, InReach, Fits, Before, Vouched, Said, Ended, Prompt, Report;
      NothingSpoken();
      Settings();
      var budget := polls;
      while budget > 0
        invariant Persistent() && Onwards() && (Smooth() ==> unchanged(link`armed))
        invariant budget == polls ==> unchanged(link)
        invariant budget < polls ==> !(Smooth() && Serviceable(Prompt(old(link.reader), link.remote), onlyComplete))
        invariant link.honest && old(InReach()) ==> InReach()
        invariant link.honest && old(Settled(link.reader)) ==> Settled(link.reader)
        decreases budget
      {
        budget := budget - 1;
        var cancelled := CancelIfRequested();
        if cancelled.Some? {
          return Err(CancelledByCaller);
        }
        var reply, unknown := AskStatus();
        if reply.Lost? {
          return Err(LinkLost);
        }
        if reply.Rejected? {
          return Err(RemoteFailure);
        }
        var status := reply.value;
        if status.fault || status.state == Failed || status.state == Cancelled {
          return Err(RemoteFailure);
        }
        if status.state == Complete || (!onlyComplete && (status.state == Ready || status.state == Transferring)) {
          return Ok(status);
        }
        if status.state == Suspended {
          return Err(TimedOut);
        }
      }
      return Err(TimedOut);
    }

    /** What a launch finds: an order that was just staged, or a worker that is at rest. */
    ghost predicate CanLaunch(known: Option<Status>, state: WorkState)
      reads link
    {
      && link.Sized() && link.reader.order.Some? && link.reader.state == state
      && Prompt(link.reader, link.remote) == link.reader
      && (state == WorkState.Staged || Serviceable(link.reader, false))
      && match known
         case Some(status) => status == Report(link.reader, link.remote)
         case None => state == WorkState.Staged
    }

    /** Starts the DOS helper when it is not running yet, and arms the pump. */
    method Launch(known: Option<Status>, state: WorkState, existingOnly: bool, polls: nat)
      returns (r: Result<Status, GetError>)
      requires Persistent() && Bound()
      requires known.Some? ==>
        && Trusted(known.value) && Matches(known.value.order, descriptor) && known.value.state == state
        && (state == WorkState.Staged || state == Opening || Serving(state))
      modifies link
      ensures Persistent() && Bound()
      ensures r.Ok? ==> Trusted(r.value) && Serving(r.value.state) && Matches(r.value.order, descriptor)
      ensures link.honest && old(InReach()) && (known.Some? ==> Fits(known.value)) ==>
        InReach() && (r.Ok? ==> Fits(r.value))
      ensures r.Err? && link.honest ==> Tolerable(r.error)
      ensures r.Err? ==> OfTheLink(r.error)
      ensures Onwards()
      ensures Smooth() && !existingOnly && polls > 0 && old(CanLaunch(known, state)) ==>
        r.Ok? && Afoot() && r.value == Report(link.reader, link.remote)
    {
      hide Persistent, Trusted, Bound, Matches, Calm, Settled, InReach, Fits, Before, Vouched, Said, Ended, Prompt,
        Report;
      var cancelled := CancelIfRequested();
      if cancelled.Some? {
        return Err(CancelledByCaller);
      }
      r := Awaken(known, state, existingOnly, polls);
      if r.Err? {
        return;
      }
      var status := r.value;
      if link.honest {
        HonestMatch(status);
      }
      if !Matches(status.order, descriptor) {
        return Err(BindingChanged);
      }
      r := Arm(status);
    }

    /** Types the launch line for a staged order, and waits for a worker that has not reported yet. */
    method Awaken(known: Option<Status>, state: WorkState, existingOnly: bool, polls: nat)
      returns (r: Result<Status, GetError>)
      requires Persistent()
      requires known.Some? ==>
        && Trusted(known.value) && known.value.state == state
        && (state == WorkState.Staged || state == Opening || Serving(state))
      modifies link
      ensures Persistent()
      ensures r.Ok? ==> Trusted(r.value) && Serving(r.value.state)
      ensures link.honest && old(InReach()) && (known.Some? ==> Fits(known.value)) ==>
        InReach() && (r.Ok? ==> Fits(r.value))
      ensures r.Err? ==> Tolerable(r.error)
      ensures Onwards()
      ensures Smooth() && !existingOnly && polls > 0 && old(CanLaunch(known, state)) ==>
        r.Ok? && AtRest() && r.value == Report(link.reader, link.remote)
    {
      hide Persistent, Trusted, Calm, Settled, InReach, Fits, Before, Vouched, Said, Ended, Prompt, Report;
      var status := known;
      if state == WorkState.Staged {
        if existingOnly {
          return Err(StagedUnlaunched);
        }
        if Smooth() && CanLaunch(known, state) {
          StartsWhenLaunched();
        }
        var typed := Command(TypeLaunchLine);
        if typed.Some? {
          return Err(typed.value);
        }
        status := None;
      }
      if status.None? || status.value.state == Opening {
        r := WaitForWorker(false, polls);
      } else {
        NothingSpoken();
        r := Ok(status.value);
      }
    }

    /** The pump is armed for a worker that sends data. */
    method Arm(status: Status) returns (r: Result<Status, GetError>)
      requires Persistent() && Bound() && Trusted(status)
      modifies link
      ensures Persistent() && Bound() && Onwards()
      ensures r.Ok? ==> r.value == status && Trusted(status)
      ensures link.honest && old(InReach()) ==> InReach()
      ensures r.Err? ==> Tolerable(r.error)
      ensures Smooth() && old(AtRest() && status == Report(link.reader, link.remote)) ==>
        r.Ok? && Afoot() && status == Report(link.reader, link.remote)
    {
      hide Persistent, Trusted, Bound, Settled, InReach, Onwards, Prompt;
      if status.state == Ready || status.state == Transferring {
        var armed := Command(FastBegin);
        if armed.Some? {
          return Err(armed.value);
        }
        StillTrusted(status);
      } else {
        NothingSpoken();
      }
      return Ok(status);
    }

    /** A worker that serves and has nothing to do by itself. */
    ghost predicate AtRest()
      reads link
    {
      && link.Sized() && Prompt(link.reader, link.remote) == link.reader
      && Serviceable(link.reader, false)
    }

    lemma StagedCanLaunch()
      requires Persistent() && link.honest && link.reader.state == WorkState.Staged
      ensures CanLaunch(None, WorkState.Staged)
    {
      hide Planned, RecordSound, Prompt;
      LaunchStarts(download, link.reader, journal.record, journal.removed, part.Safe());
    }

    lemma StartsWhenLaunched()
      requires Persistent() && link.honest && link.reader.state == WorkState.Staged
      ensures Prompt(link.reader, link.remote) == link.reader && WorksOn(link.reader)
      ensures var after := Prompt(link.reader.(state := Opening), link.remote);
              Serviceable(after, false) && Prompt(after, link.remote) == after
    {
      hide Planned, RecordSound, Prompt, Ordered;
      LaunchStarts(download, link.reader, journal.record, journal.removed, part.Safe());
    }

    twostate lemma StillTrusted(status: Status)
      requires Persistent() && old(Trusted(status)) && unchanged(journal, part)
      requires link.honest ==> Calm(old(link.reader), link.reader)
      requires old(history) == history && Onwards()
      ensures Trusted(status)
    {
      hide Truthful, Ordered, Calm;
      if link.honest {
        TruthLasts(download, status, old(link.reader), link.reader, journal.record);
      }
    }

    // ---------------------------------------------------------- taking over the boundary

    /** Learns the size of the file from the first status that tells it. */
    method AdoptMetadata(status: Status, resuming: bool) returns (error: Option<GetError>)
      requires Persistent() && Bound() && Trusted(status) && Serving(status.state)
      requires Matches(status.order, descriptor)
      modifies this`descriptor
      ensures error.None? ==> Described(status)
      ensures error.Some? ==> !link.honest && error.value == BadMetadata
    {
      hide Crc32, Persistent, Truthful, OpenCodec.Valid, Build, Matches, Discovered, Bare, SameBinding, SameFile;
      RawDownload();
      if link.honest {
        HonestMetadata(status, resuming);
      }
      ghost var before := descriptor;
      if descriptor.wireSize == 0 && descriptor.finalSize == 0 {
        var built := Build(Learned(descriptor, status.order, offset, checksum, resuming));
        if built.Err? {
          return Some(BadMetadata);
        }
        MetadataLearned(before, status.order, offset, checksum, resuming);
        descriptor := built.value;
      } else {
        MetadataKept(before, status.order);
      }
      if !Matches(status.order, descriptor) {
        return Some(BindingChanged);
      }
      MatchedSize(status, before);
      return None;
    }

    lemma MatchedSize(status: Status, before: Descriptor)
      requires WellFormed(status) && Matches(status.order, descriptor)
      requires descriptor.wireSize != 0 || descriptor.finalSize != 0 || SameWire(status.order, descriptor)
      ensures status.durable <= descriptor.wireSize
    {
    }

    lemma RawDownload()
      requires Persistent() && Bound()
      ensures descriptor.direction == Get && descriptor.encoding == Raw
    {
      hide Crc32, Ordered;
    }

    /** The descriptor names the size the MSX reported, and the journal will take it. */
    ghost predicate Described(status: Status)
      reads this`descriptor, this`offset, this`checksum, journal, part, link
    {
      && journal.record.Some? && !journal.removed
      && journal.record.value.offset == offset && journal.record.value.crc == checksum
      && Extends(journal.record.value.order, descriptor) && OpenCodec.Valid(Bare(descriptor))
      && status.durable <= descriptor.wireSize
      && part.present && offset <= |part.content| && checksum == Crc32(part.content[..offset])
      && (link.honest ==> |download.remote| < 0x1_0000_0000
                          && Bare(descriptor) == Discovered(download.order, download.remote))
    }

    lemma HonestMetadata(status: Status, resuming: bool)
      requires Persistent() && Bound() && Trusted(status) && Serving(status.state) && link.honest
      ensures |download.remote| < 0x1_0000_0000
      ensures var learned := Learned(descriptor, status.order, offset, checksum, resuming);
              && Build(learned).Ok?
              && Bare(Build(learned).value) == Discovered(download.order, download.remote)
      ensures descriptor.wireSize != 0 || descriptor.finalSize != 0 ==>
        Bare(descriptor) == Discovered(download.order, download.remote)
      ensures Matches(status.order, Discovered(download.order, download.remote))
      ensures Matches(status.order, descriptor)
    {
      hide Crc32, Ordered;
      OrderedOffsets(download, link.reader, journal.record.value, journal.removed, part.Safe());
      Crc32Empty();
      assert part.content[..0] == [];
    }

    /** The partial file is what was received, and its checksum is the rolling one. */
    ghost predicate Received()
      reads this`offset, this`checksum, part
    {
      && part.present && |part.content| == offset && part.synced <= offset
      && checksum == Crc32(part.content)
    }

    /** An honest peer's bytes are the file's own. */
    ghost predicate Genuine()
      reads this`descriptor, link, part
    {
      link.honest ==>
        && |download.remote| < 0x1_0000_0000
        && Bare(descriptor) == Discovered(download.order, download.remote)
        && part.content <= download.remote && Settled(link.reader) && InReach()
    }

    /** Between two blocks. */
    ghost predicate Streaming()
      reads this, journal, link, part, destination
    {
      Flowing() && CaughtUp()
    }

    /** The same, before a checkpoint that is due. */
    ghost predicate Flowing()
      reads this, journal, link, part, destination
    {
      Persistent() && Received() && Genuine() && Registered() && offset <= descriptor.wireSize
    }

    /** The journal lags less than one interval behind, and not at all at the end. */
    predicate CaughtUp()
      reads this`descriptor, this`offset, this`journalCheckpoint
    {
      && (offset == descriptor.wireSize ==> journalCheckpoint == offset)
      && offset - journalCheckpoint < JOURNAL_INTERVAL
    }

    /** The journal is behind the stream and has the stream's descriptor. */
    ghost predicate Registered()
      reads this`descriptor, this`offset, this`journalCheckpoint, journal
    {
      && journal.record.Some? && !journal.removed
      && journal.record.value.offset == journalCheckpoint <= offset
      && Extends(journal.record.value.order, descriptor) && OpenCodec.Valid(Bare(descriptor))
    }

    /**
     * Compares the boundary the MSX restarts from with the journal and the partial file, cuts
     * the file back to it, and checks the bytes below it.
     */
    method Reposition(status: Status) returns (error: Option<GetError>)
      requires Persistent() && Described(status) && Trusted(status) && Serving(status.state)
      modifies this`offset, this`checksum, this`journalCheckpoint, journal`record, part
      ensures Persistent()
      ensures error.None? ==> Streaming()
      ensures error.Some? ==> !error.value.PartMissing? && !error.value.JournalRefused?
      ensures error.Some? && link.honest ==> Tolerable(error.value) || error.value == AheadOfPartial
      ensures link.honest ==> (error == Some(AheadOfPartial) <==> !old(Fits(status)))
      ensures link.honest && (error.Some? ==> error.value != AheadOfPartial) ==> InReach()
      ensures var fault := RestartFault(old(offset), status.durable, |old(part.content)|);
        if fault.Some? then error == fault else error != Some(BehindJournal) && error != Some(AheadOfPartial)
      ensures Smooth() && old(Fits(status)) ==> error.None?
      ensures error.None? ==> journalCheckpoint == status.durable == offset
    {
      hide Crc32, Ordered, Truthful, Planned, RecordSound, Settled, Extends, Discovered, Serving, Streaming;
      if link.honest {
        TruthfulBounds(download, status, link.reader, journal.record);
      }
      if status.durable < offset {
        return Some(BehindJournal);
      }
      if status.durable > |part.content| {
        return Some(AheadOfPartial);
      }
      assert link.honest ==> Fits(status);
      if |part.content| > status.durable {
        var cut := CutToStatus(status);
        if !cut {
          return Some(Stopped);
        }
      }
      var same := PrefixAgrees(status);
      if !same {
        return Some(PrefixDiffers);
      }
      error := BeginStream(status);
    }

    /** The bytes below the boundary have the reported checksum; at the journalled one they are known to. */
    method PrefixAgrees(status: Status) returns (same: bool)
      requires Persistent() && Described(status) && Trusted(status) && Serving(status.state)
      requires |part.content| == status.durable && offset <= status.durable && (link.honest ==> Fits(status))
      ensures same <==> status.crc == Crc32(part.content)
      ensures link.honest ==> same && part.content <= download.remote && part.synced == |part.content|
    {
      hide Crc32, Ordered, Truthful, Planned, RecordSound, Settled, Extends, Discovered, Serving;
      assert part.content[..status.durable] == part.content;
      var actual := Some(checksum);
      if status.durable != offset {
        actual := Crc32FilePrefix(part.content, status.durable, ioChunk);
      }
      if link.honest {
        TruthfulBounds(download, status, link.reader, journal.record);
        PrefixOfPrefix(download, link.reader, journal.record, journal.removed, part.Safe(), status.durable);
        assert part.content == part.Safe();
      }
      return actual == Some(status.crc);
    }

    method CutToStatus(status: Status) returns (ok: bool)
      requires Persistent() && Described(status) && Trusted(status) && Serving(status.state)
      requires offset <= status.durable < |part.content| && (link.honest ==> Fits(status))
      modifies part
      ensures Persistent() && Described(status) && Trusted(status) && (link.honest ==> Fits(status) && InReach())
      ensures ok ==> |part.content| == status.durable
      ensures part.steady ==> ok
    {
      hide Crc32, Ordered, Truthful, Planned, RecordSound, Extends, Discovered, Serving;
      ghost var before := part.content;
      assert before[..status.durable][..offset] == before[..offset];
      if link.honest {
        TruthfulBounds(download, status, link.reader, journal.record);
        assert part.Safe()[..status.durable] == part.content[..status.durable][..status.durable];
        CutKeeps(download, link.reader, journal.record, journal.removed, part.Safe(), status.durable);
      }
      ok := part.Truncate(status.durable);
      if !ok {
        return;
      }
      assert link.honest ==> part.Safe() == old(part.Safe())[..status.durable] && part.synced == |part.content|;
      ok := part.Sync();
    }

    method BeginStream(status: Status) returns (error: Option<GetError>)
      requires Persistent() && Described(status) && Trusted(status) && Serving(status.state)
      requires |part.content| == status.durable && offset <= status.durable
      requires status.crc == Crc32(part.content)
      requires link.honest ==> part.content <= download.remote && part.synced == |part.content|
      modifies this`offset, this`checksum, this`journalCheckpoint, journal`record
      ensures Persistent()
      ensures error.None? ==> Streaming()
      ensures link.honest ==> InReach()
      ensures error.Some? ==> error.value == Stopped
      ensures journal.steady ==> error.None?
      ensures error.None? ==> journalCheckpoint == status.durable == offset
    {
      hide Crc32, Ordered, Truthful, Planned, RecordSound, Extends, Discovered, Serving, Settled;
      if link.honest {
        TruthfulBounds(download, status, link.reader, journal.record);
        assert part.content == download.remote[..status.durable];
      }
      offset, checksum := status.durable, status.crc;
      var saved := SavePlace();
      if !saved {
        return Some(Stopped);
      }
      journalCheckpoint := offset;
      return None;
    }

    /** Journals the place both sides have committed; the journal never refuses it. */
    method SavePlace() returns (saved: bool)
      requires Persistent() && journal.record.Some? && !journal.removed
      requires Extends(journal.record.value.order, descriptor) && OpenCodec.Valid(Bare(descriptor))
      requires journal.record.value.offset <= offset <= descriptor.wireSize
      requires |part.content| == offset && checksum == Crc32(part.content)
      requires link.honest ==>
        && |download.remote| < 0x1_0000_0000
        && Bare(descriptor) == Discovered(download.order, download.remote)
        && part.content <= download.remote && part.synced == offset
        && Settled(link.reader) && (Serving(link.reader.state) ==> offset <= link.reader.acked)
      modifies journal`record
      ensures Persistent() && journal.record.Some?
      ensures saved ==> journal.record.value.offset == offset && Extends(journal.record.value.order, descriptor)
      ensures journal.steady ==> saved
    {
      hide Crc32, Ordered, Serving, Settled, Planned;
      var next := Record(Bare(descriptor), offset, checksum, false);
      Crc32Empty();
      assert offset == 0 ==> part.content == [];
      ExtensionIsAccepted(journal.record.value, next, descriptor);
      if link.honest {
        assert part.content == download.remote[..offset];
        assert part.Safe() == part.content;
        DiscoveredRecord(download, next);
        RecordKeeps(download, link.reader, journal.record, part.Safe(), next);
      }
      var r := journal.Save(descriptor, offset, checksum, false);
      match r
      case Saved => return true;
      case Refused(_) => assert false;
      case Interrupted => return false;
    }

    // ---------------------------------------------------------- the stream

    /** Reads blocks until the declared size is reached, syncing and acknowledging at checkpoints. */
    method StreamBlocks(polls: nat) returns (error: Option<GetError>)
      requires Streaming() && Before() && Vouched(journalCheckpoint)
      modifies this`offset, this`checksum, this`journalCheckpoint, journal`record, link, part
      ensures Persistent()
      ensures error.None? ==> Streaming() && offset == descriptor.wireSize
      ensures link.honest ==> InReach()
      ensures error.Some? ==> OfTheLink(error.value)
      ensures error.Some? && link.honest ==> Tolerable(error.value)
      ensures Before() && Onwards()
      ensures error.None? ==> Vouched(offset) && journalCheckpoint == offset
      ensures Smooth() && old(Afoot()) ==> error.None? && Afoot()
    {
      hide Persistent, Received, Genuine, Registered, InReach, Before, Vouched, Said, Ended, Afoot;
      NothingSpoken();
      ForgetStream();
      var budget := polls;
      while offset < descriptor.wireSize
        invariant Streaming() && (link.honest ==> InReach())
        invariant Before() && Onwards() && Vouched(journalCheckpoint)
        invariant Smooth() && old(Afoot()) ==> Afoot()
        decreases descriptor.wireSize - offset, budget
      {
        ghost var before := offset;
        error := CancelWhileStreaming();
        if error.Some? {
          return;
        }
        var grew: bool;
        grew, error := NextBlock();
        if error.Some? {
          return;
        }
        if !grew {
          if budget == 0 {
            return Some(TimedOut);
          }
          budget := budget - 1;
          continue;
        }
        if offset == descriptor.wireSize || offset - journalCheckpoint >= JOURNAL_INTERVAL {
          error := Checkpoint();
          if error.Some? {
            return;
          }
        }
      }
      ForgetStream();
      return None;
    }

    method CancelWhileStreaming() returns (error: Option<GetError>)
      requires Streaming()
      modifies link
      ensures Streaming() && (link.honest ==> InReach())
      ensures error.Some? ==> error.value == CancelledByCaller
      ensures Onwards()
      ensures error.None? ==> unchanged(link)
      ensures Smooth() ==> error.None?
    {
      hide Persistent, Received, Registered, Crc32, Discovered, Settled;
      error := CancelIfRequested();
    }

    /** One GET_READ exchange; the data it brings goes to the end of the partial file. */
    method NextBlock() returns (grew: bool, error: Option<GetError>)
      requires Streaming() && offset < descriptor.wireSize
      modifies this`offset, this`checksum, link, part
      ensures Persistent()
      ensures error.None? && grew ==> Flowing() && offset > old(offset)
      ensures error.None? && !grew ==> Streaming() && offset == old(offset)
      ensures link.honest ==> InReach()
      ensures error.Some? ==> OfTheLink(error.value)
      ensures error.Some? && link.honest ==> Tolerable(error.value)
      ensures Onwards() && journalCheckpoint == old(journalCheckpoint)
      ensures Smooth() && old(Afoot()) ==> error.None? && grew && Afoot() && Running(link.reader.state)
    {
      hide Persistent, Received, Registered, Crc32, Discovered, Settled;
      ForgetStream();
      Settings();
      var maximum := if maxChunk < descriptor.wireSize - offset then maxChunk else descriptor.wireSize - offset;
      var reply := AskBlock(maximum);
      match reply
      case Lost => return false, Some(LinkLost);
      case Rejected => return false, Some(RemoteFailure);
      case Answer(block) =>
        if block.fault {
          return false, Some(RemoteFailure);
        }
        if block.offset != offset {
          return false, Some(WrongOffset);
        }
        if block.data == [] {
          return false, None;
        }
        if link.honest {
          DeclaredSize();
        }
        if offset + |block.data| > descriptor.wireSize {
          return false, Some(CrossesEnd);
        }
        error := Store(block.data);
        grew := true;
    }

    lemma DeclaredSize()
      requires Genuine() && link.honest
      ensures |download.remote| == descriptor.wireSize
    {
      hide Crc32;
    }

    /** A worker that still has to send is not complete, and does nothing by itself. */
    lemma MoreToRead()
      requires Streaming() && link.honest && Afoot() && offset < descriptor.wireSize
      ensures Running(link.reader.state) && Prompt(link.reader, link.remote) == link.reader && offset < |link.remote|
    {
      hide Planned, RecordSound, Crc32, Prompt, Registered;
      PromptDoesIt(download, link.reader, journal.record, journal.removed, part.Safe());
      DeclaredSize();
    }

    method AskBlock(maximum: nat) returns (r: Reply<Block>)
      requires Streaming()
      modifies link
      ensures Streaming()
      ensures link.honest && r.Answer? && !r.value.fault ==>
        && r.value.offset == offset && offset + |r.value.data| <= |download.remote|
        && r.value.data == download.remote[offset..offset + |r.value.data|]
      ensures Onwards()
      ensures Smooth() && maximum > 0 && offset < descriptor.wireSize && old(Afoot()) ==>
        Afoot() && Running(link.reader.state) && r.Answer? && !r.value.fault && r.value.data != []
    {
      hide Ordered, Planned, RecordSound, Received, Registered, Crc32, Discovered, Settled, Onwards, Prompt;
      if Smooth() && Afoot() && offset < descriptor.wireSize {
        MoreToRead();
      }
      r := link.ReadBlock(offset, maximum);
      Spoken(Asked(offset));
      if link.honest {
        EvolvesKeeps(download, old(link.reader), journal.record, journal.removed, part.Safe(), link.reader);
      }
    }

    /** Appends received data and rolls the checksum over it. */
    method Store(data: seq<Byte>) returns (error: Option<GetError>)
      requires Streaming() && data != [] && offset + |data| <= descriptor.wireSize
      requires link.honest ==>
        offset + |data| <= |download.remote| && data == download.remote[offset..offset + |data|]
      modifies this`offset, this`checksum, part
      ensures Persistent()
      ensures error.None? ==> Flowing() && offset == old(offset) + |data|
      ensures link.honest ==> InReach()
      ensures error.Some? ==> error.value == Stopped
      ensures part.steady ==> error.None?
      ensures journalCheckpoint == old(journalCheckpoint)
    {
      hide Ordered, Planned, RecordSound, Crc32, Crc32Update, Discovered, Settled, Extends;
      ghost var before := part.content;
      var written := part.Append(data);
      assert part.content[..part.synced] == before[..part.synced];
      assert part.Safe() == old(part.Safe());
      if !written {
        return Some(Stopped);
      }
      Crc32Rolls(before, data);
      checksum := Crc32Update(data, checksum);
      offset := offset + |data|;
      if link.honest {
        assert before == download.remote[..|before|];
        assert part.content == download.remote[..offset];
      }
      return None;
    }

    /** Sync first, then acknowledge, then journal. */
    method Checkpoint() returns (error: Option<GetError>)
      requires Flowing()
      modifies this`journalCheckpoint, journal`record, link, part
      ensures Persistent()
      ensures error.None? ==> Streaming()
      ensures link.honest ==> InReach()
      ensures error.Some? ==> OfTheLink(error.value)
      ensures error.Some? && link.honest ==> Tolerable(error.value)
      ensures Onwards()
      ensures error.None? ==> Vouched(journalCheckpoint)
      ensures Smooth() && old(Afoot() && Running(link.reader.state)) ==> error.None? && Afoot()
    {
      hide Persistent, Received, Genuine, Registered, Serving, Before, Vouched, Said, Ended, Afoot, InReach;
      var synced := SyncPart();
      InSight();
      if !synced {
        return Some(Stopped);
      }
      error := Acknowledge();
      InSight();
      if error.Some? {
        return;
      }
      var saved := CatchUp();
      return if saved then None else Some(Stopped);
    }

    /** The journal follows what is synced and acknowledged. */
    method CatchUp() returns (saved: bool)
      requires Flowing() && part.synced == offset
      requires link.honest && Serving(link.reader.state) ==> link.reader.acked == offset
      modifies this`journalCheckpoint, journal`record
      ensures Persistent() && (link.honest ==> InReach())
      ensures saved ==> Streaming() && journalCheckpoint == offset
      ensures journal.steady ==> saved
    {
      hide Persistent, Crc32, Discovered, Settled, Extends, Serving;
      saved := SavePlace();
      if saved {
        journalCheckpoint := offset;
      }
    }

    lemma InSight()
      requires Flowing()
      ensures Persistent() && (link.honest ==> InReach())
    {
    }

    method SyncPart() returns (ok: bool)
      requires Flowing()
      modifies part
      ensures Flowing() && (ok ==> part.synced == offset)
      ensures part.steady ==> ok
    {
      hide Ordered, Planned, RecordSound, Crc32, Discovered, Settled, Extends;
      if link.honest {
        assert part.Safe() <= part.content;
        SyncKeeps(download, link.reader, journal.record, journal.removed, part.Safe(), part.content);
      }
      ok := part.Sync();
      assert ok ==> part.Safe() == part.content;
      assert !ok ==> part.Safe() == old(part.Safe());
    }

    /** GET_ACK for a boundary that is already synced. */
    method Acknowledge() returns (error: Option<GetError>)
      requires Flowing() && part.synced == offset
      modifies link
      ensures Flowing()
      ensures error.None? && link.honest ==> (Serving(link.reader.state) ==> link.reader.acked == offset)
      ensures error.Some? ==> error.value == LinkLost || error.value == RemoteFailure
                              || (error.value == CheckpointRefused && !link.honest)
      ensures Onwards()
      ensures error.None? ==> Vouched(offset)
      ensures Smooth() && old(Afoot() && Running(link.reader.state)) ==> error.None? && Afoot()
    {
      hide Ordered, Planned, RecordSound, Crc32, Discovered, Settled, Extends, Onwards, Vouched, Prompt, AcceptsAck;
      if Smooth() && Afoot() && Running(link.reader.state) {
        AckIsAccepted();
      }
      var r := link.SendAck(offset, checksum);
      if r.Answer? && !r.value.fault && r.value.durable == offset {
        Spoken(Acknowledged(offset));
        assert Vouches(Acknowledged(offset), offset);
      } else {
        NothingSpoken();
      }
      if link.honest {
        ServedAckKeeps(download, old(link.reader), journal.record, journal.removed, part.Safe(), offset, checksum,
                       link.reader);
      }
      match r
      case Lost => return Some(LinkLost);
      case Rejected => return Some(RemoteFailure);
      case Answer(ack) =>
        if ack.fault {
          return Some(RemoteFailure);
        }
        if ack.durable != offset {
          return Some(CheckpointRefused);
        }
        return None;
    }

    lemma AckIsAccepted()
      requires Flowing() && part.synced == offset && link.honest && Afoot() && Running(link.reader.state)
      ensures Prompt(link.reader, link.remote) == link.reader
      ensures AcceptsAck(link.reader, link.remote, offset, checksum)
    {
      hide Planned, RecordSound, Crc32, Prompt, Registered;
      PromptDoesIt(download, link.reader, journal.record, journal.removed, part.Safe());
      assert download.remote[..offset] == part.content;
    }

    // ---------------------------------------------------------- publication

    /** CLOSE, the final status, and the comparison of every size and checksum. */
    method Finish(polls: nat) returns (r: Result<Status, GetError>)
      requires Streaming() && offset == descriptor.wireSize && Before() && Vouched(offset)
      modifies link
      ensures Streaming()
      ensures r.Ok? ==> r.value.state == Complete && checksum == descriptor.wireCrc
      ensures r.Ok? ==> r.value.durable == offset && r.value.wireVerified && r.value.finalVerified
      ensures r.Err? && link.honest ==> Tolerable(r.error)
      ensures r.Err? ==> OfTheLink(r.error)
      ensures r.Ok? ==> Said()
      ensures r == Err(TimedOut) ==> Said()
      ensures Said() ==> Ended()
      ensures Smooth() && polls > 0 && old(Afoot()) ==> r.Ok?
    {
      hide Streaming, Truthful, Trusted, Matches, Before, Said, Ended, Vouched, Afoot;
      NotYetSaid();
      var cancelled := CancelWhileStreaming();
      NotYetSaid();
      if cancelled.Some? {
        return Err(CancelledByCaller);
      }
      var closed := CloseStream();
      if closed.Some? {
        return Err(closed.value);
      }
      var waited := FinalStatus(polls);
      if waited.Err? {
        return waited;
      }
      var status := waited.value;
      if link.honest {
        FinalFacts(status);
      }
      if !Matches(status.order, descriptor) {
        return Err(BindingChanged);
      }
      if offset != descriptor.wireSize || checksum != descriptor.wireCrc
         || status.durable != descriptor.wireSize || status.crc != descriptor.wireCrc
         || !status.wireVerified || !status.finalVerified {
        return Err(NotVerified);
      }
      return Ok(status);
    }

    method FinalStatus(polls: nat) returns (r: Result<Status, GetError>)
      requires Streaming()
      modifies link
      ensures Streaming()
      ensures r.Ok? ==> Trusted(r.value) && r.value.state == Complete
      ensures r.Err? ==> Tolerable(r.error)
      ensures Onwards()
      ensures Smooth() && polls > 0 && old(Serviceable(Prompt(link.reader, link.remote), true)) ==> r.Ok?
    {
      hide Persistent, Received, Registered, Crc32, Discovered, Settled, Truthful;
      r := WaitForWorker(true, polls);
    }

    method CloseStream() returns (error: Option<GetError>)
      requires Streaming() && Before() && Vouched(offset) && offset == descriptor.wireSize
      modifies link
      ensures Streaming()
      ensures error.Some? ==> error.value == LinkLost || error.value == RemoteFailure
      ensures Said() && Ended()
      ensures link.honest ==> part.synced == offset
      ensures error != Some(TimedOut)
      ensures Smooth() && old(Afoot()) ==> error.None? && Serviceable(Prompt(link.reader, link.remote), true)
    {
      hide Ordered, Planned, RecordSound, Crc32, Discovered, Settled, Extends, Prompt, Before, Vouched, Said, Ended,
        Afoot, Closes;
      if link.honest {
        AllOnDisk();
      }
      if Smooth() && Afoot() {
        CloseIsAccepted();
      }
      var r := link.SendClose();
      CloseSpoken();
      if link.honest {
        ServedCloseKeeps(download, old(link.reader), journal.record, journal.removed, part.Safe(), link.reader);
      }
      match r
      case Lost => return Some(LinkLost);
      case Rejected => return Some(RemoteFailure);
      case Answer(ack) =>
        return if ack.fault || ack.state == Failed || ack.state == Cancelled then Some(RemoteFailure) else None;
    }

    twostate lemma CloseSpoken()
      requires old(history) == history && old(descriptor) == descriptor && link.log == old(link.log) + [Closed]
      requires old(Before() && Vouched(descriptor.wireSize))
      ensures history <= link.log && Said() && Ended()
    {
      var run := old(link.log)[|history|..];
      assert link.log[|history|..] == run + [Closed];
      LastWord(run, descriptor.wireSize);
    }

    lemma NotYetSaid()
      ensures Before() ==> !Said()
    {
    }

    /** The journal has caught up, so every byte is synced, and acknowledged by a worker that lives. */
    lemma AllOnDisk()
      requires Streaming() && offset == descriptor.wireSize && link.honest
      ensures part.synced == offset && |download.remote| == offset
      ensures Serving(link.reader.state) ==> link.reader.acked == offset
    {
      hide Planned, RecordSound, Crc32;
      DeclaredSize();
    }

    lemma CloseIsAccepted()
      requires Streaming() && offset == descriptor.wireSize && link.honest && Afoot()
      ensures Prompt(link.reader, link.remote) == link.reader && Closes(link.reader, link.remote)
      ensures Serviceable(Prompt(CloseRead(link.reader), link.remote), true)
    {
      hide Planned, RecordSound, Crc32, Prompt, Registered;
      AllOnDisk();
      PromptDoesIt(download, link.reader, journal.record, journal.removed, part.Safe());
      var closed := CloseRead(link.reader);
      PlayedThrough(closed, link.remote);
    }

    lemma FinalFacts(status: Status)
      requires Streaming() && offset == descriptor.wireSize && link.honest
      requires Trusted(status) && status.state == Complete
      ensures Matches(status.order, descriptor) && checksum == descriptor.wireCrc
      ensures status.durable == descriptor.wireSize && status.crc == descriptor.wireCrc
      ensures status.wireVerified && status.finalVerified
      ensures part.content == download.remote
    {
      hide Crc32, Ordered, RecordSound, Extends;
      assert |download.remote| == descriptor.wireSize;
      assert part.content == download.remote;
      assert download.remote[..|download.remote|] == download.remote;
    }

    /** The verified partial file becomes the destination, unless something else is there by now. */
    method Publish() returns (error: Option<GetError>)
      requires Streaming() && offset == descriptor.wireSize && checksum == descriptor.wireCrc
      modifies journal, part, destination
      ensures Persistent() && (link.honest ==> InReach())
      ensures old(destination.file).Some? ==> destination.file == old(destination.file)
      ensures destination.file != old(destination.file) ==>
        && destination.file == Some(old(part.content))
        && |destination.file.value| == descriptor.wireSize && Crc32(destination.file.value) == descriptor.wireCrc
      ensures error.None? ==> destination.file == Some(old(part.content)) && journal.removed
      ensures error.Some? ==> error.value == Stopped || error.value == DestinationExists
      ensures Smooth() && old(destination.file).None? ==> error.None?
    {
      hide Ordered, Planned, RecordSound, Crc32, Genuine, Registered;
      if link.honest {
        SyncGenuine();
      }
      var synced := part.Sync();
      assert synced ==> part.Safe() == part.content;
      if !synced {
        return Some(Stopped);
      }
      var linked := destination.Link(part.content);
      match linked {
        case AlreadyExists => return Some(DestinationExists);
        case LinkFailed => return Some(Stopped);
        case Linked =>
      }
      part.Unlink();
      var removed := ForgetJournal();
      return if removed then None else Some(Stopped);
    }

    lemma SyncGenuine()
      requires Streaming() && link.honest
      ensures Ordered(download, link.reader, journal.record, journal.removed, part.content)
      ensures part.content <= download.remote && InReach()
    {
      hide Ordered, RecordSound, Crc32, Discovered, Settled, Extends;
      assert part.Safe() <= part.content;
      SyncKeeps(download, link.reader, journal.record, journal.removed, part.Safe(), part.content);
    }

    method ForgetJournal() returns (removed: bool)
      requires Persistent() && destination.file.Some?
      modifies journal
      ensures Persistent() && (removed ==> journal.removed)
      ensures journal.steady ==> removed
    {
      hide Planned, Crc32, Ordered;
      if link.honest {
        NoMoreRecord(download, link.reader, journal.record, journal.removed, part.Safe());
      }
      removed := journal.Remove();
    }

    // ---------------------------------------------------------- one run

    /**
     * One run.  Whatever the peer answers, an existing destination is left alone and a new one
     * has the announced size and checksum; with an honest helper the new one is the remote file.
     * Then the run fails for reasons outside the transfer, or because a power cut took the partial
     * file before its first sync, or because an earlier probe was misread.
     */
    method GetFile(existingOnly: bool, polls: nat) returns (r: Result<Status, GetError>)
      requires Persistent() && !journal.removed
      modifies this, journal, link, part, destination
      ensures Persistent()
      ensures old(destination.file).Some? ==> destination.file == old(destination.file)
      ensures destination.file != old(destination.file) ==>
        && destination.file.Some? && |destination.file.value| == descriptor.wireSize
        && Crc32(destination.file.value) == descriptor.wireCrc
      ensures destination.file != old(destination.file) && link.honest ==>
        destination.file == Some(download.remote)
      ensures r.Ok? ==> destination.file != old(destination.file) && journal.removed
      ensures r.Ok? ==> r.value.state == Complete && r.value.wireVerified && r.value.finalVerified
      ensures r.Err? ==> !r.error.JournalRefused?
      ensures r == Err(PartMissing) <==> old(destination.file.None? && Vanished())
      ensures r == Err(PartMissing) && link.honest ==> old(journal.record.value.offset == 0)
      ensures r == Err(AheadOfPartial) && link.honest ==> old(misread && !InReach())
      ensures r.Err? && link.honest ==> Tolerable(r.error) || r.error == PartMissing || r.error == AheadOfPartial
      ensures link.honest && old(InReach()) && !InReach() ==>
        misread && old(journal.record.Some? && OutOfStep(journal.record.value.offset))
      ensures history == old(link.log)
      ensures r.Ok? ==> Said()
      ensures Said() ==> Ended()
      ensures Smooth() && !existingOnly && polls > 0 && old(CanFinish()) ==> r.Ok?
    {
      hide Persistent, Crc32, Truthful, Trusted, Bound, Streaming, Described, Matches, Serving, Settled, InReach, Fits,
        Vanished, OutOfStep, Before, Vouched, Said, Ended, Afoot;
      StartRun();
      NotYetSaid();
      if link.honest && !misread {
        NamedAbsenceKeepsReach();
      }
      if destination.file.Some? {
        return Err(DestinationExists);
      }
      var connected := Connect(existingOnly, polls);
      NotYetSaid();
      if connected.Err? {
        return connected;
      }
      var error := Reposition(connected.value);
      if error.Some? {
        return Err(error.value);
      }
      error := StreamBlocks(polls);
      NotYetSaid();
      if error.Some? {
        return Err(error.value);
      }
      r := Conclude(polls);
    }

    /** What is left when every byte is on the disk. */
    method Conclude(polls: nat) returns (r: Result<Status, GetError>)
      requires Streaming() && offset == descriptor.wireSize && Before() && Vouched(offset) && destination.file.None?
      modifies journal, link, part, destination
      ensures Persistent() && (link.honest ==> InReach())
      ensures destination.file.Some? ==>
        && |destination.file.value| == descriptor.wireSize && Crc32(destination.file.value) == descriptor.wireCrc
        && (link.honest ==> destination.file == Some(download.remote))
      ensures r.Ok? ==> destination.file.Some? && journal.removed
      ensures r.Ok? ==> r.value.state == Complete && r.value.wireVerified && r.value.finalVerified
      ensures r.Err? ==> OfTheLink(r.error) && (link.honest ==> Tolerable(r.error))
      ensures r.Ok? || r == Err(TimedOut) ==> Said()
      ensures Said() ==> Ended()
      ensures Smooth() && polls > 0 && old(Afoot()) ==> r.Ok?
    {
      hide Persistent, Crc32, Streaming, InReach, Before, Vouched, Said, Ended, Afoot;
      r := Finish(polls);
      if r.Err? {
        ForgetStream();
        return;
      }
      if link.honest {
        WholeFile(r.value);
      }
      var error := Publish();
      if error.Some? {
        return Err(error.value);
      }
    }

    ghost method StartRun()
      requires Persistent()
      modifies this`history, this`found
      ensures Persistent() && history == link.log && found == journal.record && Before()
    {
      hide Ordered, Planned, RecordSound, Crc32;
      history, found := link.log, journal.record;
      assert link.log[|history|..] == [];
    }

    /** As long as only an answer that names the transfer unknown was taken for absence. */
    lemma NamedAbsenceKeepsReach()
      requires Persistent() && link.honest && !misread
      ensures InReach()
    {
    }

    lemma ForgetStream()
      requires Streaming()
      ensures Persistent() && (link.honest ==> InReach())
    {
    }

    lemma WholeFile(status: Status)
      requires Streaming() && link.honest && offset == descriptor.wireSize
      ensures part.content == download.remote
    {
      hide Crc32, Ordered, RecordSound, Extends;
      assert |download.remote| == descriptor.wireSize;
    }

    /** From the journal to a status whose sizes are known. */
    method Connect(existingOnly: bool, polls: nat) returns (r: Result<Status, GetError>)
      requires Persistent() && !journal.removed && destination.file.None? && found == journal.record && Before()
      modifies this`descriptor, this`offset, this`checksum, this`misread, journal`record, link, part
      ensures Persistent()
      ensures r.Ok? ==> Described(r.value) && Trusted(r.value) && Serving(r.value.state)
      ensures r.Ok? && link.honest && old(InReach()) ==> Fits(r.value)
      ensures r.Err? ==> !r.error.JournalRefused? && r.error != BehindJournal && r.error != AheadOfPartial
      ensures r == Err(PartMissing) <==> old(Vanished())
      ensures r == Err(PartMissing) && link.honest ==> old(journal.record.value.offset == 0)
      ensures r.Err? && link.honest ==> Tolerable(r.error) || r.error == PartMissing
      ensures link.honest && old(InReach()) && !InReach() ==>
        misread && old(journal.record.Some? && OutOfStep(journal.record.value.offset))
      ensures Before() && (r.Ok? ==> Vouched(r.value.durable))
      ensures Smooth() && !existingOnly && polls > 0 && old(CanFinish()) ==>
        r.Ok? && Afoot()
    {
      hide Persistent, Crc32, Trusted, Bound, Described, Matches, Serving, Settled, InReach, Fits, Vanished,
        Before, Vouched, Said, Ended, Afoot;
      var discovered := Discover(existingOnly);
      if discovered.Err? {
        return Err(discovered.error);
      }
      r := Attach(discovered.value, existingOnly, polls);
      if r.Err? {
        return;
      }
      ServedIsVouched(r.value);
      var error := AdoptMetadata(r.value, discovered.value);
      if error.Some? {
        return Err(error.value);
      }
    }

    /** Takes up the worker that a previous run left, or starts a new one. */
    method Attach(resuming: bool, existingOnly: bool, polls: nat) returns (r: Result<Status, GetError>)
      requires Persistent() && Bound() && AsksFor(download, descriptor, found)
      requires link.honest && !resuming ==> AtEase()
      modifies this`misread, link, part
      ensures Persistent() && Bound()
      ensures r.Ok? ==> Trusted(r.value) && Serving(r.value.state) && Matches(r.value.order, descriptor)
      ensures r.Ok? && link.honest && old(InReach()) ==> Fits(r.value)
      ensures r.Err? && link.honest ==> Tolerable(r.error)
      ensures r.Err? ==> OfTheLink(r.error)
      ensures link.honest && old(InReach()) && !InReach() ==> misread && resuming && old(OutOfStep(offset))
      ensures Onwards()
      ensures Smooth() && !existingOnly && polls > 0 && old(link.reader.state) != Suspended ==>
        r.Ok? && Afoot() && r.value == Report(link.reader, link.remote)
    {
      hide Persistent, Trusted, Bound, Matches, Serving, Settled, InReach, Fits, Before, Vouched, Said, Ended, Afoot,
        AsksFor, Report, Prompt, CanLaunch;
      NothingSpoken();
      if link.honest {
        RestsPromptly(resuming);
      }
      var known: Option<Status> := None;
      ghost var awake := link.reader.state != Suspended;
      if resuming {
        var recovered := RecoverActive();
        if recovered.Err? {
          return Err(recovered.error);
        }
        known := recovered.value;
        if Smooth() && known.Some? && awake {
          FoundCanLaunch(known.value);
        }
      }
      if existingOnly && known.None? {
        return Err(NotActive);
      }
      if known.None? {
        r := StartAnew(existingOnly, polls);
      } else {
        r := Launch(known, known.value.state, existingOnly, polls);
      }
    }

    ghost predicate Prompted()
      reads link
    {
      link.Sized() && Prompt(link.reader, link.remote) == link.reader
    }

    lemma RestsPromptly(resuming: bool)
      requires Persistent() && link.honest && (!resuming ==> AtEase())
      ensures link.Sized()
      ensures var next := Prompt(link.reader, link.remote);
              && Prompt(next, link.remote) == next && (link.reader.state != Suspended ==> next.state != Suspended)
              && (!resuming ==> Released(next.state))
    {
      hide Planned, RecordSound, Prompt, Ordered;
      PromptDoesIt(download, link.reader, journal.record, journal.removed, part.Safe());
      PromptKeeps(download, link.reader, journal.record, journal.removed, part.Safe());
    }

    lemma FoundCanLaunch(status: Status)
      requires Persistent() && link.honest && Prompted() && link.reader.order.Some? && link.reader.state != Suspended
      requires status == Report(link.reader, link.remote)
      requires status.state == WorkState.Staged || status.state == Opening || Serving(status.state)
      ensures CanLaunch(Some(status), status.state)
    {
      hide Planned, RecordSound, Prompt, Crc32;
      PromptDoesIt(download, link.reader, journal.record, journal.removed, part.Safe());
    }

    lemma ServedIsVouched(status: Status)
      requires Trusted(status) && Serving(status.state)
      ensures Vouched(status.durable)
    {
    }

    /** Stages the transfer and launches the helper. */
    method StartAnew(existingOnly: bool, polls: nat) returns (r: Result<Status, GetError>)
      requires Persistent() && Bound() && AsksFor(download, descriptor, found)
      requires link.honest ==> misread || !Serving(link.reader.state)
      modifies link, part
      ensures Persistent() && Bound() && Onwards()
      ensures r.Ok? ==> Trusted(r.value) && Serving(r.value.state) && Matches(r.value.order, descriptor)
      ensures link.honest && r.Ok? ==> InReach() && Fits(r.value)
      ensures link.honest && old(InReach()) && !InReach() ==> old(OutOfStep(offset))
      ensures r.Err? && link.honest ==> Tolerable(r.error)
      ensures r.Err? ==> OfTheLink(r.error)
      ensures Smooth() && !existingOnly && polls > 0 && old(Released(Prompt(link.reader, link.remote).state)) ==>
        r.Ok? && Afoot() && r.value == Report(link.reader, link.remote)
    {
      hide Persistent, Trusted, Bound, Matches, Serving, Settled, InReach, Fits, OutOfStep, AsksFor, Report, Before,
        Vouched, Said, Ended, CanLaunch, Afoot, Prompt;
      var state := StartWorker();
      if state.Err? {
        return Err(state.error);
      }
      if Smooth() && state.value == WorkState.Staged && link.reader.state == WorkState.Staged {
        StagedCanLaunch();
      }
      r := Launch(None, state.value, existingOnly, polls);
    }
  }

  lemma NoMoreRecord(d: Download, h: Reader, record: Option<Record>, removed: bool, synced: seq<Byte>)
    requires Planned(d) && Ordered(d, h, record, removed, synced)
    ensures Ordered(d, h, None, true, synced)
  {
    hide Crc32, RecordOrdered;
  }

  // ------------------------------------------------------------ why a checkpoint has this order

  /** What a checkpoint does, each of them for every byte received so far. */
  datatype Duty = SyncFile | AckBytes | SaveRecord

  /** The three offsets a checkpoint moves, and the length it moves them to. */
  datatype Place = Place(journalled: nat, acked: nat, synced: nat, length: nat)

  predicate Aligned(p: Place) {
    p.journalled <= p.acked <= p.synced <= p.length
  }

  /** The offsets once these duties have been performed. */
  function Perform(p: Place, done: seq<Duty>): Place {
    Place(
      if SaveRecord in done then p.length else p.journalled,
      if AckBytes in done then p.length else p.acked,
      if SyncFile in done then p.length else p.synced,
      p.length)
  }

  /** What a next run makes of the journal, the worker's report and the length of the partial file. */
  function RestartFault(journalled: nat, acked: nat, length: nat): Option<GetError> {
    if acked < journalled then Some(BehindJournal)
    else if acked > length then Some(AheadOfPartial)
    else None
  }

  /** The run may stop after any part of the checkpoint and the power may fail: the next run goes on. */
  ghost predicate CanRestart(p: Place, done: seq<Duty>) {
    var q := Perform(p, done);
    forall kept: nat | q.synced <= kept :: RestartFault(q.journalled, q.acked, kept) == None
  }

  ghost predicate SafeOrder(duties: seq<Duty>) {
    forall p, k | Aligned(p) && 0 <= k <= |duties| :: CanRestart(p, duties[..k])
  }

  /** Acknowledged before it is synced, a received byte can be lost that the MSX will not send again. */
  lemma AckBeforeSync(p: Place, done: seq<Duty>)
    requires Aligned(p) && p.synced < p.length && AckBytes in done && SyncFile !in done && SaveRecord !in done
    ensures RestartFault(p.journalled, Perform(p, done).acked, p.synced) == Some(AheadOfPartial)
    ensures !CanRestart(p, done)
  {
    var q := Perform(p, done);
    assert RestartFault(q.journalled, q.acked, p.synced) == Some(AheadOfPartial);
  }

  /** Journalled before it is acknowledged, a byte is one the MSX still wants to send. */
  lemma JournalBeforeAck(p: Place, done: seq<Duty>)
    requires Aligned(p) && p.acked < p.length && SaveRecord in done && AckBytes !in done
    ensures forall kept :: RestartFault(Perform(p, done).journalled, p.acked, kept) == Some(BehindJournal)
    ensures !CanRestart(p, done)
  {
    var q := Perform(p, done);
    assert RestartFault(q.journalled, q.acked, q.synced) == Some(BehindJournal);
  }

  /** Of all orders of the three duties, only sync, acknowledge, journal survives every interruption. */
  lemma OrderIsForced(duties: seq<Duty>)
    requires multiset(duties) == multiset{SyncFile, AckBytes, SaveRecord}
    ensures SafeOrder(duties) <==> duties == [SyncFile, AckBytes, SaveRecord]
  {
    hide CanRestart;
    ThreeDuties(duties);
    var x, y, z := duties[0], duties[1], duties[2];
    assert duties[..0] == [] && duties[..1] == [x] && duties[..2] == [x, y] && duties[..3] == [x, y, z];
    if duties == [SyncFile, AckBytes, SaveRecord] {
      forall p, k | Aligned(p) && 0 <= k <= |duties| ensures CanRestart(p, duties[..k]) {
        RightOrder(p, duties[..k]);
      }
    } else {
      var p, k := Place(0, 0, 0, 1), if x == SyncFile then 2 else 1;
      if x == AckBytes {
        AckBeforeSync(p, duties[..k]);
      } else {
        JournalBeforeAck(p, duties[..k]);
      }
      assert Aligned(p) && !CanRestart(p, duties[..k]);
    }
  }

  lemma RightOrder(p: Place, done: seq<Duty>)
    requires Aligned(p) && (SaveRecord in done ==> AckBytes in done) && (AckBytes in done ==> SyncFile in done)
    ensures CanRestart(p, done)
  {
  }

  lemma ThreeDuties(duties: seq<Duty>)
    requires multiset(duties) == multiset{SyncFile, AckBytes, SaveRecord}
    ensures |duties| == 3 && duties == [duties[0], duties[1], duties[2]]
    ensures duties[0] != duties[1] && duties[1] != duties[2] && duties[0] != duties[2]
  {
    assert |multiset(duties)| == 3;
    assert duties == [duties[0], duties[1], duties[2]];
    assert multiset(duties) == multiset{duties[0], duties[1], duties[2]};
  }

  // ------------------------------------------------------------ any number of runs

  /** Power may fail between runs, and take unsynced bytes or a file that was never synced. */
  method PowerCut(session: GetSession)
    requires session.Persistent()
    modifies session.part
    ensures session.Persistent() && session.journal.removed == old(session.journal.removed)
    ensures session.link.honest && old(session.InReach()) ==> session.InReach()
    ensures session.part.lost && !old(session.part.lost) ==> !old(session.part.rooted)
  {
    hide Ordered, Crc32, RecordSound, Planned;
    var part := session.part;
    ghost var before := part.Safe();
    part.SafeIsOnDisk();
    part.PowerCut();
    part.SafeIsOnDisk();
    if session.link.honest {
      assert before == part.Safe()[..|before|];
      SyncKeeps(session.download, session.link.reader, session.journal.record, session.journal.removed, before,
                part.Safe());
    }
  }

  datatype Call = Call(powerFails: bool, existingOnly: bool, polls: nat)

  /** The first call comes without a power cut, may start a worker and waits for it. */
  predicate Attempts(calls: seq<Call>) {
    calls != [] && !calls[0].powerFails && !calls[0].existingOnly && calls[0].polls > 0
  }

  /**
   * The caller retries as often as it likes, through crashes and power cuts.  With an honest
   * helper the only file that is ever linked is the remote one.  As soon as nothing goes wrong one
   * call is enough, unless earlier ones left the worker out of reach or lost the partial file.
   */
  method RunUntilLinked(session: GetSession, calls: seq<Call>) returns (linked: bool)
    requires session.Persistent() && !session.journal.removed
    modifies session, session.journal, session.link, session.part, session.destination
    ensures session.Persistent()
    ensures old(session.destination.file).Some? ==>
      session.destination.file == old(session.destination.file)
    ensures session.link.honest && session.destination.file != old(session.destination.file) ==>
      session.destination.file == Some(session.download.remote)
    ensures linked ==> session.destination.file.Some?
    ensures Attempts(calls) && session.Smooth() && old(session.CanFinish()) ==> linked
  {
    hide Crc32, Ordered, RecordSound, Planned;
    for k := 0 to |calls|
      invariant session.Persistent() && !session.journal.removed
      invariant old(session.destination.file).Some? ==>
        session.destination.file == old(session.destination.file)
      invariant session.link.honest && session.destination.file != old(session.destination.file) ==>
        session.destination.file == Some(session.download.remote)
      invariant k == 0 ==> unchanged(session, session.journal, session.link, session.part, session.destination)
      invariant k > 0 ==> !(Attempts(calls) && session.Smooth() && old(session.CanFinish()))
    {
      if calls[k].powerFails {
        PowerCut(session);
      }
      var r := session.GetFile(calls[k].existingOnly, calls[k].polls);
      if r.Ok? {
        return true;
      }
      if session.journal.removed {
        return false;
      }
    }
    return false;
  }

  /** What `Persistent` says about a pause between runs, in plain terms. */
  lemma BetweenRuns(session: GetSession)
    requires session.Persistent() && session.link.honest
    ensures var h, part, record := session.link.reader, session.part, session.journal.record;
            && part.synced <= |part.content| && part.Safe() <= session.download.remote
            && (record.Some? ==> record.value.offset <= part.synced)
            && (record.Some? ==> record.value.crc == Crc32(part.content[..record.value.offset]))
            && (Serving(h.state) && record.Some? ==> record.value.offset <= h.acked)
            && (Serving(h.state) && part.synced < h.acked ==> session.misread && |part.content| < h.acked)
            && (session.Vanished() ==> record.value.offset == 0)
  {
    hide Crc32, Planned;
    var part, record := session.part, session.journal.record;
    part.SafeIsOnDisk();
    if record.Some? {
      assert part.content[..record.value.offset] == part.Safe()[..record.value.offset];
      assert part.Safe()[..record.value.offset] == session.download.remote[..record.value.offset];
    }
  }

  /**
   * A worker that a run left behind can be taken up again, whatever a power cut does, if and only
   * if its boundary was synced; otherwise the next run finds it ahead of the partial file.
   */
  lemma WorkerFitsAgain(session: GetSession)
    requires session.Persistent() && session.link.honest && Serving(session.link.reader.state)
    requires session.journal.record.Some?
    ensures var journalled, acked := session.journal.record.value.offset, session.link.reader.acked;
            var p := Place(journalled, acked, session.part.synced, |session.part.content|);
            && (CanRestart(p, []) <==> session.InReach())
            && RestartFault(journalled, acked, |session.part.content|)
               == (if session.InReach() then None else Some(AheadOfPartial))
            && (!session.misread ==> session.InReach())
  {
    hide Crc32, Planned;
    BetweenRuns(session);
    var journalled, acked := session.journal.record.value.offset, session.link.reader.acked;
    var p := Place(journalled, acked, session.part.synced, |session.part.content|);
    assert Perform(p, []) == p;
    assert RestartFault(journalled, acked, session.part.synced)
        == (if session.InReach() then None else Some(AheadOfPartial));
  }

  // ------------------------------------------------------------ a garbled probe

  /**
   * A probe is rejected while a worker lives, the host cuts the file back to the journal, and OPEN
   * is refused: the next answer is ahead of the file exactly if the worker's boundary is above the
   * journalled one.  Had the probe been answered, the run would have gone on.
   */
  lemma RejectedProbe(d: Download, h: Reader, record: Record, synced: seq<Byte>)
    requires Planned(d) && Ordered(d, h, Some(record), false, synced) && Level(h, |synced|) && Serving(h.state)
    requires h.order.Some?
    ensures var reported := Report(h, d.remote).durable;
            && (RestartFault(record.offset, reported, record.offset) == Some(AheadOfPartial)
                <==> record.offset < h.acked)
            && forall kept: nat | |synced| <= kept :: RestartFault(record.offset, reported, kept) == None
  {
    hide Crc32;
  }

  /** The smallest case: a first checkpoint, interrupted between its acknowledgement and the journal. */
  lemma GarbledProbeLosesPlace()
    ensures var remote := seq(JOURNAL_INTERVAL, _ => 0);
            var order := Descriptor(Get, Raw, seq(ID_SIZE, _ => 1), 0, 0, 0, 0, [0x41], 0, 0, false, false);
            var d := Download(order, remote);
            && Planned(d)
            && var record := Record(Discovered(order, remote), 0, 0, false);
               var h := Reader(Transferring, Some(order), JOURNAL_INTERVAL);
               && Ordered(d, h, Some(record), false, remote) && Level(h, |remote|)
               && RestartFault(0, Report(h, remote).durable, |remote|) == None
               && RestartFault(0, Report(h, remote).durable, 0) == Some(AheadOfPartial)
  {
    hide Crc32;
    Crc32Empty();
    var remote := seq(JOURNAL_INTERVAL, _ => 0);
    assert remote[..0] == [];
  }

  /** A whole download: journal, partial file and link are new, then any number of runs. */
  method DownloadFile(remote: seq<Byte>, id: seq<Byte>, path: seq<Byte>, honest: bool, obliging: bool, steady: bool,
                      existing: Option<seq<Byte>>, maxChunk: nat, ioChunk: nat, calls: seq<Call>)
    returns (file: Option<seq<Byte>>)
    requires |remote| < 0x1_0000_0000 && |id| == ID_SIZE && PrintablePath(path) && maxChunk > 0 && ioChunk > 0
    ensures existing.Some? ==> file == existing
    ensures honest && existing.None? ==> file.None? || file.value == remote
    ensures honest && obliging && steady && existing.None? && Attempts(calls) ==> file == Some(remote)
  {
    hide Crc32;
    var order := Descriptor(Get, Raw, id, 0, 0, 0, 0, path, 0, 0, false, false);
    var journal := new Journal(steady);
    var link := new Link(honest, obliging, remote);
    var part := new PartFile(steady);
    var destination := new Destination(existing, steady);
    var session := new GetSession(Download(order, remote), journal, link, part, destination, maxChunk, ioChunk);
    assert part.Safe() == [];
    var linked := RunUntilLinked(session, calls);
    return session.destination.file;
  }

  lemma TruthfulBounds(d: Download, s: Status, h: Reader, record: Option<Record>)
    requires |d.remote| < 0x1_0000_0000 && Truthful(d, s, h, record) && Serving(s.state)
    ensures s.durable <= |d.remote| && s.crc == Crc32(d.remote[..s.durable])
    ensures record.Some? ==> record.value.offset <= s.durable
    ensures Settled(h) && (Serving(h.state) ==> h.acked == s.durable)
  {
  }

  lemma ExtensionIsAccepted(saved: Record, next: Record, d: Descriptor)
    requires Extends(saved.order, d) && next.order == Bare(d) && !saved.closeIntent && !next.closeIntent
    requires next.offset <= d.wireSize && (next.offset == 0 ==> next.crc == 0)
    ensures SaveFault(Some(saved), next).None? && Extends(next.order, d)
  {
  }

  lemma DiscoveredRecord(d: Download, r: Record)
    requires Planned(d) && r.order == Discovered(d.order, d.remote) && !r.closeIntent
    requires r.offset <= |d.remote| && r.crc == Crc32(d.remote[..r.offset])
    ensures RecordOrdered(d, r, r.offset)
  {
    hide Crc32;
    Crc32Empty();
    assert d.remote[..0] == [];
    if r.order == d.order {
      assert r.order.wireSize == d.order.wireSize;
    }
  }

  /** What is compared with a status; nothing is known of the size before the first one. */
  predicate Matches(s: Descriptor, d: Descriptor) {
    s.direction == d.direction && s.encoding == d.encoding && s.id == d.id
    && (MetadataUnknown(d) || SameWire(s, d))
  }

  /** A descriptor with the sizes a status reports, before it is checked. */
  function Learned(d: Descriptor, s: Descriptor, offset: nat, crc: bv32, resuming: bool): Descriptor
    requires offset < 0x1_0000_0000
  {
    Descriptor(Get, Raw, d.id, s.wireSize, s.wireCrc, s.finalSize, s.finalCrc, d.path, offset, crc, resuming, false)
  }

  /** The journal accepts `next` over `saved`. */
  predicate Extends(saved: Descriptor, next: Descriptor) {
    SameFile(saved, next) && (SameBinding(saved, Bare(next)) || MetadataUnknown(saved))
  }

  lemma MetadataLearned(d: Descriptor, s: Descriptor, offset: nat, crc: bv32, resuming: bool)
    requires offset < 0x1_0000_0000 && OpenCodec.Valid(d) && d.direction == Get && d.encoding == Raw
    requires Matches(s, d) && d.wireSize == 0 && d.finalSize == 0
    requires Build(Learned(d, s, offset, crc, resuming)).Ok?
    ensures var next := Build(Learned(d, s, offset, crc, resuming)).value;
            && Extends(Bare(d), next) && OpenCodec.Valid(Bare(next)) && SameWire(s, next) && Matches(s, next)
  {
  }

  lemma MetadataKept(d: Descriptor, s: Descriptor)
    requires OpenCodec.Valid(d) && d.direction == Get && Matches(s, d)
    ensures Extends(Bare(d), d) && OpenCodec.Valid(Bare(d))
  {
  }

  lemma PlannedOrder(d: Download)
    requires Planned(d)
    ensures OpenCodec.Valid(d.order) && d.order == Bare(d.order) && MetadataUnknown(d.order)
    ensures d.order.resumeOffset == 0 && !d.order.receiptless && |d.remote| < 0x1_0000_0000
    ensures OurOrder(d, d.order) && d.order.direction == Get
  {
  }

  /** The first record is sound, and a journal without one takes it. */
  lemma FirstRecord(d: Download)
    requires Planned(d)
    ensures OpenCodec.Valid(d.order) && d.order == Bare(d.order) && d.order.resumeOffset == 0
    ensures !d.order.receiptless && |d.remote| < 0x1_0000_0000
    ensures var first := Record(d.order, 0, 0, false);
            RecordSound(d, Some(first)) && SaveFault(None, first).None?
  {
    hide Crc32;
    PlannedOrder(d);
  }

  lemma NeverOpened(d: Download, h: Reader, synced: seq<Byte>)
    requires Planned(d) && Ordered(d, h, None, false, synced)
    ensures Settled(h) && !Serving(h.state)
  {
  }

  /** A new partial file and the first record, when the MSX has not heard of the transfer. */
  lemma FreshPartial(d: Download, h: Reader, synced: seq<Byte>, first: Record)
    requires Planned(d) && Ordered(d, h, None, false, synced)
    requires first == Record(d.order, 0, 0, false)
    ensures Ordered(d, h, None, false, []) && Ordered(d, h, Some(first), false, [])
  {
    hide Crc32;
    Crc32Empty();
    assert d.remote[..0] == [];
  }

  lemma PrefixOfPrefix(d: Download, h: Reader, record: Option<Record>, removed: bool, synced: seq<Byte>, n: nat)
    requires Planned(d) && Ordered(d, h, record, removed, synced) && n <= |synced|
    ensures n <= |d.remote| && synced[..n] == d.remote[..n] && synced <= d.remote
  {
    hide Crc32, RecordOrdered;
  }

  /** Saving a record again under its own resumed descriptor changes nothing. */
  lemma ResumedAgain(r: Record)
    requires RecordFault(r).None? && OpenCodec.Valid(r.order) && r.order == Bare(r.order) && !r.closeIntent
    ensures OpenCodec.Valid(Resumed(r)) && Bare(Resumed(r)) == r.order && !Resumed(r).receiptless
    ensures SaveFault(Some(r), Record(Bare(Resumed(r)), r.offset, r.crc, false)).None?
    ensures Record(Bare(Resumed(r)), r.offset, r.crc, false) == r
  {
    ResumedIsValid(r);
  }

  lemma StatusFacts(d: Download, h: Reader, record: Option<Record>, removed: bool, synced: seq<Byte>)
    requires Planned(d) && Ordered(d, h, record, removed, synced)
    ensures h.order.Some? ==> WellFormed(Report(h, d.remote)) && Report(h, d.remote).state == h.state
    ensures h.order.Some? ==> !Report(h, d.remote).fault
    ensures h.order.Some? ==> Truthful(d, Report(h, d.remote), h, record)
    ensures h.order.Some? && Serving(h.state) ==> Report(h, d.remote).durable == h.acked
    ensures h.order.None? ==> Settled(h) && !Serving(h.state)
  {
    hide Crc32;
    if h.order.Some? {
      ReportIsTruthful(d, h, record, removed, synced);
    }
  }
}
