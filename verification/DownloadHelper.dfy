/**
 * The MSX side of a download, as agent/README.md describes it: a worker reads one DOS file
 * and remembers the last offset the host has acknowledged.
 */
module DownloadHelper {
  import opened Octets
  import opened Bytes
  import opened Crc
  import opened PackBits
  import opened OpenCodec
  import opened TransferJournal
  import opened TransferReplies

  /** `acked` is the boundary the worker restarts from; it means nothing when no worker lives. */
  datatype Reader = Reader(state: WorkState, order: Option<Descriptor>, acked: nat)

  datatype Move = Launch | OpenFile | Finish | Stop(to: WorkState)

  /** The descriptor with the size and checksum the MSX discovers. */
  function Discovered(d: Descriptor, remote: seq<Byte>): Descriptor
    requires |remote| < 0x1_0000_0000
  {
    d.(wireSize := |remote|, wireCrc := Crc32(remote), finalSize := |remote|, finalCrc := Crc32(remote))
  }

  predicate Serving(s: WorkState) {
    Running(s) || s == Suspended || s == Complete
  }

  /** The order can be served from this file, and the prefix the host holds is a prefix of it. */
  predicate Opens(d: Descriptor, remote: seq<Byte>)
    requires |remote| < 0x1_0000_0000
  {
    && (MetadataUnknown(d) || SameBinding(d, Discovered(d, remote)))
    && d.resumeOffset <= |remote| && d.resumeCrc == Crc32(remote[..d.resumeOffset])
  }

  predicate CanMove(h: Reader, remote: seq<Byte>, m: Move)
    requires |remote| < 0x1_0000_0000
  {
    match m
    case Launch => h.state == WorkState.Staged
    case OpenFile => h.state == Opening && h.order.Some? && Opens(h.order.value, remote)
    case Finish => h.state == Verifying
    case Stop(to) =>
      to == Idle || to == Failed || to == Cancelled || (to == Suspended && Running(h.state))
  }

  function Moved(h: Reader, m: Move): Reader {
    match m
    case Launch => h.(state := Opening)
    case OpenFile => if h.order.Some? then h.(state := Ready, acked := h.order.value.resumeOffset) else h
    case Finish => h.(state := Complete)
    case Stop(to) => h.(state := to)
  }

  function Drifted(h: Reader, remote: seq<Byte>, script: seq<Move>): Reader
    requires |remote| < 0x1_0000_0000
    decreases |script|
  {
    if script == [] then h
    else Drifted(if CanMove(h, remote, script[0]) then Moved(h, script[0]) else h, remote, script[1..])
  }

  function Report(h: Reader, remote: seq<Byte>): Status
    requires h.order.Some? && |remote| < 0x1_0000_0000
  {
    var d := h.order.value;
    if Serving(h.state) && h.acked <= |remote| then
      Status(h.state, false, Discovered(d, remote), h.acked, h.acked, Crc32(remote[..h.acked]),
             h.state == Complete, h.state == Complete, false)
    else Status(h.state, false, d, 0, 0, 0, false, false, false)
  }

  predicate AcceptsAck(h: Reader, remote: seq<Byte>, offset: nat, crc: bv32) {
    Running(h.state) && h.acked <= offset <= |remote| && crc == Crc32(remote[..offset])
  }

  // ------------------------------------------------------------ one download

  datatype Download = Download(order: Descriptor, remote: seq<Byte>)

  predicate Planned(d: Download) {
    && |d.remote| < 0x1_0000_0000
    && OpenCodec.Valid(d.order) && d.order == Bare(d.order) && MetadataUnknown(d.order)
  }

  /** The order of this download, before or after discovery. */
  predicate OurOrder(d: Download, order: Descriptor)
    requires |d.remote| < 0x1_0000_0000
  {
    order == d.order || order == Discovered(d.order, d.remote)
  }

  /** What is journalled is synced and acknowledged, and what is synced is a prefix of the file. */
  predicate Ordered(d: Download, h: Reader, record: Option<Record>, removed: bool, synced: seq<Byte>)
    requires |d.remote| < 0x1_0000_0000
  {
    && synced <= d.remote
    && (record.Some? ==> RecordOrdered(d, record.value, |synced|))
    && (h.order.Some? ==> OrderOrdered(d, h, h.order.value, record, |synced|))
    && (h.order.None? ==> h.state == Idle || h.state == Failed || h.state == Cancelled)
    && (record.None? && !removed ==> h.order.None?)
    && (Serving(h.state) && record.Some? ==> record.value.offset <= h.acked)
    && (Serving(h.state) ==> h.acked <= |d.remote|) && h.state != Postprocess
    && (h.state == Verifying || h.state == Complete ==> h.acked == |d.remote|)
  }

  predicate RecordOrdered(d: Download, record: Record, synced: nat)
    requires |d.remote| < 0x1_0000_0000
  {
    && OurOrder(d, record.order) && RecordFault(record).None?
    && record.offset <= synced && record.offset <= |d.remote|
    && record.crc == Crc32(d.remote[..record.offset])
    && (record.order == d.order ==> record.offset == 0) && !record.closeIntent
  }

  predicate OrderOrdered(d: Download, h: Reader, order: Descriptor, record: Option<Record>, synced: nat)
    requires |d.remote| < 0x1_0000_0000
  {
    && OurOrder(d, Bare(order)) && order.resumeOffset <= synced && !order.receiptless
    && order.resumeOffset <= |d.remote| && order.resumeCrc == Crc32(d.remote[..order.resumeOffset])
    && (record.Some? ==> order.resumeOffset <= record.value.offset)
    && (record.Some? && !Settled(h) ==>
          order.resumeOffset == record.value.offset && Bare(order) == record.value.order)
  }

  /** No worker is about to start. */
  predicate Settled(h: Reader) {
    h.state != WorkState.Staged && h.state != Opening
  }

  /** A living worker restarts from bytes that are synced. */
  predicate Level(h: Reader, synced: nat) {
    Serving(h.state) ==> h.acked <= synced
  }

  /** A living worker's boundary is the old one, or one that is synced. */
  predicate NoFurther(before: Reader, after: Reader, synced: nat) {
    Serving(after.state) ==> after.acked <= synced || (Serving(before.state) && after.acked == before.acked)
  }

  lemma {:induction false} DriftKeeps(d: Download, h: Reader, record: Option<Record>, removed: bool,
                                      synced: seq<Byte>, script: seq<Move>)
    requires Planned(d) && Ordered(d, h, record, removed, synced)
    ensures var after := Drifted(h, d.remote, script);
            && Ordered(d, after, record, removed, synced)
            && (Settled(h) ==> Settled(after))
            && (Settled(h) && Serving(after.state) ==> Serving(h.state) && after.acked == h.acked)
            && NoFurther(h, after, |synced|)
            && (record.Some? ==> NoFurther(h, after, record.value.offset))
    decreases |script|
  {
    hide Crc32, RecordOrdered, Bare;
    if script != [] {
      var next := if CanMove(h, d.remote, script[0]) then Moved(h, script[0]) else h;
      assert Ordered(d, next, record, removed, synced);
      DriftKeeps(d, next, record, removed, synced, script[1..]);
    }
  }

  /** Staging the journalled position again. */
  lemma OpenKeeps(d: Download, h: Reader, record: Option<Record>, synced: seq<Byte>, order: Descriptor)
    requires Planned(d) && Ordered(d, h, record, false, synced)
    requires record.Some? && Bare(order) == record.value.order && order.resumeOffset == record.value.offset
    requires order.resumeCrc == record.value.crc && !order.receiptless
    ensures Ordered(d, Reader(WorkState.Staged, Some(order), h.acked), record, false, synced)
  {
    hide Crc32;
  }

  lemma AckKeeps(d: Download, h: Reader, record: Option<Record>, removed: bool, synced: seq<Byte>, offset: nat)
    requires Planned(d) && Ordered(d, h, record, removed, synced)
    requires Running(h.state) && h.acked <= offset <= |synced| && offset <= |d.remote|
    ensures Ordered(d, h.(acked := offset), record, removed, synced)
  {
    hide Crc32, RecordOrdered;
  }

  /** An honest status: its boundary is at or above the journal, and is the worker's as long as it lives. */
  predicate Truthful(d: Download, s: Status, h: Reader, record: Option<Record>)
    requires |d.remote| < 0x1_0000_0000
  {
    && !s.fault && OurOrder(d, Bare(s.order))
    && (Serving(s.state) ==>
          && Bare(s.order) == Discovered(d.order, d.remote)
          && s.durable <= |d.remote| && s.crc == Crc32(d.remote[..s.durable])
          && (record.Some? ==> record.value.offset <= s.durable)
          && (Serving(h.state) ==> h.acked == s.durable) && Settled(h))
    && (s.state == Complete ==> s.wireVerified && s.finalVerified && s.durable == |d.remote|)
    && (record.Some? && (s.state == WorkState.Staged || s.state == Opening) ==>
          Bare(s.order) == record.value.order)
  }

  lemma ReportIsTruthful(d: Download, h: Reader, record: Option<Record>, removed: bool, synced: seq<Byte>)
    requires Planned(d) && Ordered(d, h, record, removed, synced) && h.order.Some?
    ensures WellFormed(Report(h, d.remote)) && Truthful(d, Report(h, d.remote), h, record)
  {
    hide Crc32, RecordOrdered;
    DiscoveryOfBare(d, h.order.value);
  }

  lemma DiscoveryOfBare(d: Download, order: Descriptor)
    requires Planned(d) && OurOrder(d, Bare(order))
    ensures Bare(Discovered(order, d.remote)) == Discovered(d.order, d.remote)
  {
    hide Crc32;
  }

  // ------------------------------------------------------------ a prompt worker

  /** Everything a worker can do without being asked. */
  function Prompt(h: Reader, remote: seq<Byte>): Reader
    requires |remote| < 0x1_0000_0000
  {
    Drifted(h, remote, [OpenFile, Finish])
  }

  /** A launched worker opens the file, and a closed one completes. */
  lemma PromptDoesIt(d: Download, h: Reader, record: Option<Record>, removed: bool, synced: seq<Byte>)
    requires Planned(d) && Ordered(d, h, record, removed, synced)
    ensures Prompt(h, d.remote)
         == match h.state
            case Opening => Reader(Ready, h.order, h.order.value.resumeOffset)
            case Verifying => h.(state := Complete)
            case _ => h
  {
    hide Crc32;
    PlayedThrough(h, d.remote);
    if h.state == Opening {
      StagedOrderOpens(d, h, record, removed, synced);
    }
  }

  lemma PlayedThrough(h: Reader, remote: seq<Byte>)
    requires |remote| < 0x1_0000_0000
    ensures var first := if CanMove(h, remote, OpenFile) then Moved(h, OpenFile) else h;
            Prompt(h, remote) == if CanMove(first, remote, Finish) then Moved(first, Finish) else first
  {
    hide Crc32, CanMove, Moved;
    var first := if CanMove(h, remote, OpenFile) then Moved(h, OpenFile) else h;
    var script := [OpenFile, Finish];
    assert script[1..] == [Finish] && [Finish][1..] == [];
    assert Drifted(h, remote, script) == Drifted(first, remote, [Finish]);
  }

  lemma StagedOrderOpens(d: Download, h: Reader, record: Option<Record>, removed: bool, synced: seq<Byte>)
    requires Planned(d) && Ordered(d, h, record, removed, synced) && h.state == Opening
    ensures h.order.Some? && Opens(h.order.value, d.remote)
  {
    hide Crc32;
  }

  /** A status that ends a wait for a worker that serves, or has completed. */
  predicate Serviceable(h: Reader, onlyComplete: bool) {
    h.order.Some? && (h.state == Complete || (!onlyComplete && (h.state == Ready || h.state == Transferring)))
  }

  lemma PromptKeeps(d: Download, h: Reader, record: Option<Record>, removed: bool, synced: seq<Byte>)
    requires Planned(d) && Ordered(d, h, record, removed, synced)
    ensures Ordered(d, Prompt(h, d.remote), record, removed, synced)
    ensures Prompt(Prompt(h, d.remote), d.remote) == Prompt(h, d.remote)
  {
    hide Ordered, Drifted;
    PromptDoesIt(d, h, record, removed, synced);
    DriftKeeps(d, h, record, removed, synced, [OpenFile, Finish]);
    PromptDoesIt(d, Prompt(h, d.remote), record, removed, synced);
  }

  /** A staged order is taken up as soon as it is launched. */
  lemma LaunchStarts(d: Download, h: Reader, record: Option<Record>, removed: bool, synced: seq<Byte>)
    requires Planned(d) && Ordered(d, h, record, removed, synced) && h.state == WorkState.Staged
    ensures Prompt(h, d.remote) == h
    ensures var after := Prompt(h.(state := Opening), d.remote);
            Serviceable(after, false) && Prompt(after, d.remote) == after
  {
    hide Drifted, Prompt;
    var launched := Moved(h, Launch);
    LaunchedIsOrdered(d, h, record, removed, synced);
    PromptDoesIt(d, h, record, removed, synced);
    PromptDoesIt(d, launched, record, removed, synced);
    PromptKeeps(d, launched, record, removed, synced);
  }

  lemma LaunchedIsOrdered(d: Download, h: Reader, record: Option<Record>, removed: bool, synced: seq<Byte>)
    requires Planned(d) && Ordered(d, h, record, removed, synced) && h.state == WorkState.Staged
    ensures Ordered(d, Moved(h, Launch), record, removed, synced) && h.order.Some?
  {
    hide Crc32, RecordOrdered;
  }
}
