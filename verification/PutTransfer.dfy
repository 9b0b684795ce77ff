/**
 * The host side of a resumable upload: one run of the program, from journal discovery to
 * publication, against a link whose other end may be honest or may answer anything.
 *
 * What a run may rely on and must leave behind is `Persistent`; every method keeps it however
 * the method ends, so it holds across any number of runs, crashes and reconnects.
 */
module PutTransfer {
  import opened Octets
  import opened Bytes
  import opened Crc
  import opened BasicListing
  import opened PackBits
  import opened OpenCodec
  import opened TransferJournal
  import opened TransferReplies
  import opened UploadHelper

  // ------------------------------------------------------------ the link

  /** What the link carried, as far as the properties need it. */
  datatype Event =
    | Opened(order: Descriptor)
    | Commanded(control: Control)
    | Sent(offset: nat, block: seq<Byte>)
    | Acknowledged(durable: nat)
    | Closed
    | Reported(state: WorkState, durable: nat)

  ghost predicate Evolves(before: Helper, after: Helper) {
    exists script :: after == Play(before, script)
  }

  lemma EvolvesContinues(before: Helper, after: Helper)
    requires Evolves(before, after)
    ensures Continues(before, after)
  {
    var script :| after == Play(before, script);
    PlayContinues(before, script);
  }

  lemma EvolvesOn(a: Helper, b: Helper, c: Helper)
    requires Evolves(a, b) && Evolves(b, c)
    ensures Evolves(a, c)
  {
    var x :| b == Play(a, x);
    var y :| c == Play(b, y);
    PlayOn(a, x, y);
  }

  lemma {:induction false} PlayOn(h: Helper, x: seq<Action>, y: seq<Action>)
    ensures Play(h, x + y) == Play(Play(h, x), y)
    decreases |x|
  {
    hide Act;
    if x == [] {
      assert x + y == y;
    } else {
      assert (x + y)[0] == x[0] && (x + y)[1..] == x[1..] + y;
      PlayOn(Act(h, x[0]), x[1..], y);
    }
  }

  lemma Stays(h: Helper)
    ensures Evolves(h, h)
  {
    assert h == Play(h, []);
  }

  ghost predicate ServedOpen(before: Helper, d: Descriptor, after: Helper) {
    exists mid :: Evolves(before, mid) && (after == mid || (AcceptsOpen(mid) && after == Open(mid, d)))
  }

  ghost predicate ServedData(before: Helper, offset: nat, block: seq<Byte>, after: Helper) {
    exists mid, next ::
      Evolves(before, mid) && Evolves(next, after)
      && (next == mid || (AcceptsData(mid, offset, block) && next == Retain(mid, block)))
  }

  ghost predicate ServedClose(before: Helper, after: Helper) {
    exists mid :: Evolves(before, mid) && (after == mid || (AcceptsClose(mid) && after == CloseFile(mid)))
  }

  /**
   * Requests can be lost, and so can answers to requests that were served.  With an obliging peer
   * none is, nobody else types, and the helper does at once whatever it can.
   */
  class Link {
    const honest: bool
    const obliging: bool
    var helper: Helper
    /** FAST_BEGIN has been accepted since the last OPEN. */
    var armed: bool
    var log: seq<Event>

    constructor (honest: bool, obliging: bool, helper: Helper)
      ensures this.honest == honest && this.obliging == (honest && obliging) && this.helper == helper
      ensures log == [] && !armed
    {
      this.honest, this.obliging, this.helper, armed, log := honest, honest && obliging, helper, false, [];
    }

    method Drift()
      modifies this`helper
      ensures Evolves(old(helper), helper)
      ensures obliging ==> helper == Prompt(old(helper))
    {
      var script: seq<Action> := Anything();
      if obliging {
        script := [Finish, AdoptTarget, CreatePartial, ResumePartial, Commit(|helper.pending|), Publish, RemoveSidecar,
                   Finish];
      }
      helper := Play(helper, script);
      assert helper == Play(old(helper), script);
    }

    method Lose() returns (lost: bool)
      ensures obliging ==> !lost
    {
      lost := *;
      lost := lost && !obliging;
    }

    /** A request that was garbled on its way is rejected, whatever the helper is doing. */
    method AskStatus() returns (r: Reply<Status>)
      modifies this`helper, this`log
      ensures honest ==> Evolves(old(helper), helper)
      ensures log == old(log) + if r.Answer? then [Reported(r.value.state, r.value.durable)] else []
      ensures r.Answer? ==> WellFormed(r.value)
      ensures honest && r.Answer? ==> helper.order.Some? && r.value == Report(helper)
      ensures honest && obliging ==> helper == Prompt(old(helper))
      ensures honest && obliging && helper.order.Some? && WellFormed(Report(helper)) ==> r == Answer(Report(helper))
      ensures honest && obliging && helper.order.None? ==> r == Rejected
    {
      var status: Status := Anything();
      Drift();
      if honest {
        if helper.order.None? {
          return Rejected;
        }
        status := Report(helper);
      }
      var lost := Lose();
      if lost {
        return Lost;
      }
      var garbled := Lose();
      if garbled || !WellFormed(status) {
        return Rejected;
      }
      log := log + [Reported(status.state, status.durable)];
      return Answer(status);
    }

    method SendControl(control: Control) returns (r: Reply<Ack>)
      modifies this
      ensures honest ==> Evolves(old(helper), helper)
      ensures log == old(log) + [Commanded(control)]
      ensures honest && obliging && Prompt(old(helper)).state != Failed && Prompt(old(helper)).state != Cancelled ==>
        r.Answer? && !r.value.fault && r.value.state != Failed && r.value.state != Cancelled
      ensures honest && obliging ==> helper == Told(Prompt(old(helper)), control)
      ensures honest && obliging ==> armed == (old(armed) || Arms(Prompt(old(helper)), control))
    {
      var ack: Ack := Anything();
      log := log + [Commanded(control)];
      Drift();
      ghost var before := helper;
      if obliging {
        armed := armed || Arms(helper, control);
        ack := Ack(helper.state, false);
        Tell(control);
        EvolvesOn(old(helper), before, helper);
      }
      var lost := Lose();
      return if lost then Lost else Answer(ack);
    }

    /** Typing the launch line starts the helper. */
    method Tell(control: Control)
      modifies this`helper
      ensures helper == Told(old(helper), control)
      ensures Evolves(old(helper), helper)
    {
      ghost var before := helper;
      if control == TypeLaunchLine && helper.state == WorkState.Staged {
        helper := Act(helper, Launch);
        var script := [Finish, AdoptTarget, CreatePartial, ResumePartial, Commit(|helper.pending|), Publish,
                       RemoveSidecar, Finish];
        assert ([Launch] + script)[1..] == script;
        assert Prompt(helper) == Play(before, [Launch] + script);
        helper := Play(helper, script);
      } else {
        Stays(helper);
      }
    }

    method SendOpen(d: Descriptor) returns (r: Reply<Ack>)
      modifies this
      ensures honest ==> ServedOpen(old(helper), d, helper)
      ensures log == old(log) + [Opened(d)]
      ensures honest && r.Answer? && !r.value.fault ==> r.value.state == WorkState.Staged
      ensures honest && obliging && AcceptsOpen(Prompt(old(helper))) ==>
        r == Answer(Ack(WorkState.Staged, false)) && helper == Open(Prompt(old(helper)), d) && !armed
    {
      var ack: Ack := Anything();
      Drift();
      log := log + [Opened(d)];
      var lost := Lose();
      if lost {
        return Lost;
      }
      ghost var mid := helper;
      if honest {
        if AcceptsOpen(helper) {
          helper, armed := Open(helper, d), false;
          ack := Ack(WorkState.Staged, false);
        } else {
          ack := Ack(helper.state, true);
        }
      }
      lost := Lose();
      return if lost then Lost else Answer(ack);
    }

    method SendData(offset: nat, block: seq<Byte>) returns (r: Reply<Progress>)
      modifies this`helper, this`log
      ensures honest ==> ServedData(old(helper), offset, block, helper)
      ensures log == old(log) + [Sent(offset, block)]
                     + if r.Answer? && !r.value.fault then [Acknowledged(r.value.durableEnd)] else []
      ensures r.Answer? ==> r.value.durableEnd <= r.value.acceptedEnd
      ensures honest && r.Answer? && !r.value.fault ==>
        && r.value.accepted == |block| && r.value.acceptedEnd == offset + |block|
        && r.value.durableEnd == |helper.committed| && LevelAt(helper, offset + |block|)
      ensures honest && obliging && armed && AcceptsData(Prompt(old(helper)), offset, block) ==>
        && helper == Prompt(Retain(Prompt(old(helper)), block))
        && (|helper.committed| <= offset + |block| ==> r.Answer? && !r.value.fault)
    {
      var progress: Progress := Anything();
      Drift();
      log := log + [Sent(offset, block)];
      Stays(helper);
      var lost := Lose();
      if lost {
        return Lost;
      }
      ghost var mid := helper;
      var taken := AcceptsData(helper, offset, block) && (armed || !obliging);
      if honest && taken {
        helper := Retain(helper, block);
      }
      ghost var next := helper;
      Drift();
      EvolvesContinues(next, helper);
      if honest {
        progress := Progress(!taken, if taken then |block| else 0, offset + |block|, |helper.committed|);
      }
      lost := Lose();
      if lost {
        return Lost;
      }
      if progress.durableEnd > progress.acceptedEnd {
        return Rejected;
      }
      if !progress.fault {
        log := log + [Acknowledged(progress.durableEnd)];
      }
      return Answer(progress);
    }

    method SendClose() returns (r: Reply<Ack>)
      modifies this`helper, this`log
      ensures honest ==> ServedClose(old(helper), helper)
      ensures log == old(log) + [Closed]
      ensures honest && obliging && AcceptsClose(Prompt(old(helper))) ==>
        && helper == CloseFile(Prompt(old(helper)))
        && r.Answer? && !r.value.fault && r.value.state != Failed && r.value.state != Cancelled
    {
      var ack: Ack := Anything();
      Drift();
      log := log + [Closed];
      var lost := Lose();
      if lost {
        return Lost;
      }
      if honest && AcceptsClose(helper) {
        helper := CloseFile(helper);
        if obliging {
          ack := Ack(helper.state, false);
        }
      }
      lost := Lose();
      return if lost then Lost else Answer(ack);
    }
  }

  /** What typing the launch line makes of a prompt helper. */
  function Told(h: Helper, control: Control): Helper {
    if control == TypeLaunchLine && h.state == WorkState.Staged then Prompt(h.(state := Opening)) else h
  }

  predicate Arms(h: Helper, control: Control) {
    control == FastBegin && (h.state == Ready || h.state == Transferring)
  }

  // ------------------------------------------------------------ claims about the log

  /** An answer that puts `durable` bytes on the MSX's disk. */
  predicate Reports(e: Event, durable: nat) {
    (e.Reported? && e.durable == durable) || e == Acknowledged(durable)
  }

  predicate Engagement(e: Event) {
    e.Reported? && Engaged(e.state)
  }

  /** The peer reported `durable` bytes, at or after a report that its helper had opened its files. */
  ghost predicate Confirmed(log: seq<Event>, durable: nat) {
    exists i, j | 0 <= i <= j < |log| :: Engagement(log[i]) && Reports(log[j], durable)
  }

  /** Once engaged, every later answer confirms what it reports, and old confirmations last. */
  lemma ConfirmedGrows(log: seq<Event>, e: Event)
    ensures forall d | Confirmed(log, d) :: Confirmed(log + [e], d)
    ensures forall d, earlier | Reports(e, d) && Confirmed(log, earlier) :: Confirmed(log + [e], d)
    ensures forall d | Reports(e, d) && Engagement(e) :: Confirmed(log + [e], d)
  {
    var longer := log + [e];
    assert forall i | 0 <= i < |log| :: longer[i] == log[i];
    assert longer[|log|] == e;
  }

  predicate ReceiptlessOpen(e: Event) {
    e.Opened? && e.order.receiptless
  }

  /** Every receiptless OPEN came after the peer had confirmed the whole wire. */
  ghost predicate EarnedOpens(u: Upload, log: seq<Event>) {
    forall i | 0 <= i < |log| && ReceiptlessOpen(log[i]) :: Confirmed(log[..i], |u.wire|)
  }

  /** The intent is in the journal only after such a confirmation. */
  ghost predicate EarnedIntent(u: Upload, record: Option<Record>, log: seq<Event>) {
    record.Some? && record.value.closeIntent ==> Confirmed(log, |u.wire|)
  }

  lemma EarnedGrows(u: Upload, record: Option<Record>, log: seq<Event>, e: Event)
    requires EarnedOpens(u, log) && EarnedIntent(u, record, log)
    requires ReceiptlessOpen(e) ==> Confirmed(log, |u.wire|)
    ensures EarnedOpens(u, log + [e]) && EarnedIntent(u, record, log + [e])
  {
    hide Confirmed;
    var longer := log + [e];
    ConfirmedGrows(log, e);
    forall i | 0 <= i < |longer| && ReceiptlessOpen(longer[i]) ensures Confirmed(longer[..i], |u.wire|) {
      assert longer[..i] == log[..i];
      if i == |log| {
        assert log[..i] == log;
      }
    }
  }

  /**
   * The data requests of a log continue the wire from `start` without gap, overlap or
   * repetition; the value is where they end.
   */
  function Streamed(wire: seq<Byte>, log: seq<Event>, start: nat): Option<nat>
    decreases |log|
  {
    if log == [] then Some(start)
    else
      match Streamed(wire, log[..|log| - 1], start)
      case None => None
      case Some(at) =>
        match log[|log| - 1]
        case Sent(offset, block) =>
          if offset == at && block != [] && at + |block| <= |wire| && block == wire[at..at + |block|]
          then Some(at + |block|)
          else None
        case _ => Some(at)
  }

  lemma StreamedStep(wire: seq<Byte>, log: seq<Event>, start: nat, e: Event)
    ensures !e.Sent? ==> Streamed(wire, log + [e], start) == Streamed(wire, log, start)
    ensures e.Sent? && Streamed(wire, log, start) == Some(e.offset) && e.block != []
            && e.offset + |e.block| <= |wire| && e.block == wire[e.offset..e.offset + |e.block|] ==>
              Streamed(wire, log + [e], start) == Some(e.offset + |e.block|)
  {
    var longer := log + [e];
    assert longer[..|longer| - 1] == log;
  }

  /** After CLOSE there is only watching, and no second CLOSE. */
  ghost predicate OneClose(run: seq<Event>) {
    forall i, j | 0 <= i < j < |run| && run[i] == Closed :: !run[j].Sent? && run[j] != Closed
  }

  /** An OPEN of a first attempt asks for a fresh start, a later one for exactly what the journal says. */
  predicate AsksFor(u: Upload, order: Descriptor, found: Option<Record>) {
    && SameBinding(order, u.order)
    && match found
       case None => !order.resume && order.resumeOffset == 0 && order.resumeCrc == 0 && !order.receiptless
       case Some(r) =>
         && order.resume && order.resumeOffset == r.offset && order.resumeCrc == r.crc
         && (order.receiptless <==> r.closeIntent)
  }

  ghost predicate Orderly(u: Upload, run: seq<Event>, found: Option<Record>) {
    OneClose(run) && forall e <- run | e.Opened? :: AsksFor(u, e.order, found)
  }

  lemma OrderlyGrows(u: Upload, run: seq<Event>, found: Option<Record>, e: Event)
    requires Orderly(u, run, found)
    requires e.Sent? || e == Closed ==> Closed !in run
    requires e.Opened? ==> AsksFor(u, e.order, found)
    ensures Orderly(u, run + [e], found)
  {
    hide AsksFor;
  }

  /** Put end to end, the blocks sent are one stretch of the wire, each byte of it once. */
  function Payload(log: seq<Event>): seq<Byte>
    decreases |log|
  {
    if log == [] then []
    else
      Payload(log[..|log| - 1]) + (if log[|log| - 1].Sent? then log[|log| - 1].block else [])
  }

  lemma {:induction false} StreamedPayload(wire: seq<Byte>, log: seq<Event>, start: nat)
    requires start <= |wire| && Streamed(wire, log, start).Some?
    ensures start <= Streamed(wire, log, start).value <= |wire|
    ensures Payload(log) == wire[start..Streamed(wire, log, start).value]
    decreases |log|
  {
    if log != [] {
      StreamedPayload(wire, log[..|log| - 1], start);
      var at := Streamed(wire, log[..|log| - 1], start).value;
      var e := log[|log| - 1];
      if e.Sent? {
        assert wire[start..at + |e.block|] == wire[start..at] + wire[at..at + |e.block|];
      }
    }
  }

  // ------------------------------------------------------------ what a served request keeps

  /** The upload is still sound, and nothing the helper had is lost. */
  ghost predicate Kept(u: Upload, record: Option<Record>, removed: bool, before: Helper, after: Helper) {
    Sound(u, after) && JournalSound(u, record, removed, after) && Later(before, after)
  }

  lemma LaterTransitive(a: Helper, b: Helper, c: Helper)
    requires Later(a, b) && Later(b, c)
    ensures Later(a, c)
  {
  }

  lemma EvolvesKeeps(u: Upload, record: Option<Record>, removed: bool, before: Helper, after: Helper)
    requires Planned(u) && Sound(u, before) && JournalSound(u, record, removed, before)
    requires Evolves(before, after)
    ensures Kept(u, record, removed, before, after) && Onward(before, after)
  {
    hide Planned, Sound, JournalSound, Later, Continues;
    var script :| after == Play(before, script);
    PlayKeeps(u, record, removed, before, script);
    PlayContinues(before, script);
  }

  lemma ServedOpenKeeps(u: Upload, record: Option<Record>, before: Helper, d: Descriptor, after: Helper)
    requires Planned(u) && Sound(u, before) && JournalSound(u, record, false, before)
    requires ServedOpen(before, d, after)
    requires record.Some? && SameBinding(d, u.order) && (d.receiptless <==> record.value.closeIntent)
    ensures Kept(u, record, false, before, after)
  {
    hide Planned, Sound, JournalSound, Later, SameBinding, Open;
    var mid :| Evolves(before, mid) && (after == mid || (AcceptsOpen(mid) && after == Open(mid, d)));
    EvolvesKeeps(u, record, false, before, mid);
    if after != mid {
      OpenKeeps(u, record, mid, d);
      LaterTransitive(before, mid, after);
    }
  }

  lemma ServedDataKeeps(u: Upload, record: Option<Record>, before: Helper, offset: nat, block: seq<Byte>,
                        after: Helper)
    requires Planned(u) && Sound(u, before) && JournalSound(u, record, false, before)
    requires ServedData(before, offset, block, after)
    requires offset + |block| <= |u.wire| && block == u.wire[offset..offset + |block|]
    ensures Kept(u, record, false, before, after)
  {
    hide Planned, Sound, JournalSound, Later, AcceptsData, Retain;
    var mid, next :| Evolves(before, mid) && Evolves(next, after)
      && (next == mid || (AcceptsData(mid, offset, block) && next == Retain(mid, block)));
    EvolvesKeeps(u, record, false, before, mid);
    if next != mid {
      RetainKeeps(u, record, false, mid, offset, block);
      LaterTransitive(before, mid, next);
    }
    EvolvesKeeps(u, record, false, next, after);
    LaterTransitive(before, next, after);
  }

  lemma ServedCloseKeeps(u: Upload, record: Option<Record>, before: Helper, after: Helper)
    requires Planned(u) && Sound(u, before) && JournalSound(u, record, false, before)
    requires ServedClose(before, after)
    requires record.Some? && record.value.closeIntent
    ensures Kept(u, record, false, before, after) && Onward(before, after)
  {
    hide Planned, Sound, JournalSound, Later, AcceptsClose, CloseFile, Continues;
    var mid :| Evolves(before, mid) && (after == mid || (AcceptsClose(mid) && after == CloseFile(mid)));
    EvolvesKeeps(u, record, false, before, mid);
    if after != mid {
      CloseKeeps(u, record, mid);
      CloseContinues(mid);
      ContinuesTransitive(before, mid, after);
      LaterTransitive(before, mid, after);
    }
  }

  // ------------------------------------------------------------ the session

  datatype PutError =
    | NoJournal | NotActive | StagedUnlaunched | CancelledByCaller | LinkLost | RemoteFailure | TimedOut
    | StoppedWhileSaving | UnexpectedOpenState | SourceChanged | BindingChanged | PrefixDiffers
    | InvalidProgress | WindowExceeded | DurableDiverged | OutsideAccepted | RollingCrcDiffers
    | AcceptedDiverged | BlockRefused | NotAtBoundary | JournalRefused(why: JournalError)
    | NotPublished | NotMeasured

  /** Failures that come from the caller, the link or the MSX, not from a broken transfer. */
  predicate Tolerable(e: PutError) {
    e.NoJournal? || e.NotActive? || e.StagedUnlaunched? || e.CancelledByCaller? || e.LinkLost?
    || e.RemoteFailure? || e.TimedOut? || e.StoppedWhileSaving?
  }

  /** Checks that no peer can make fail. */
  predicate Dead(e: PutError) {
    e.SourceChanged? || e.InvalidProgress? || e.OutsideAccepted? || e.NotAtBoundary? || e.NotMeasured?
    || (e.JournalRefused? && e.why != IncompleteIntent)
  }

  datatype Receipt = Receipt(start: nat, final: Status)

  /** What the journal says of the wire bytes. */
  ghost predicate RecordSound(u: Upload, record: Option<Record>) {
    record.Some? ==>
      && record.value.order == u.order && RecordFault(record.value).None?
      && record.value.offset <= |u.wire| && record.value.crc == Crc32(u.wire[..record.value.offset])
  }

  class PutSession {
    const upload: Upload
    const journal: Journal
    const link: Link
    const maxChunk: nat
    const ioChunk: nat
    var durable: nat
    var accepted: nat
    var inflight: seq<Byte>
    var durableCrc: bv32
    var journalCheckpoint: nat
    var closeIntent: bool
    var closeSent: bool
    var measured: bool
    ghost var history: seq<Event>
    /** The record this run began with. */
    ghost var found: Option<Record>
    var streamStart: nat

    constructor (upload: Upload, journal: Journal, link: Link, maxChunk: nat, ioChunk: nat)
      ensures this.upload == upload && this.journal == journal && this.link == link
      ensures this.maxChunk == maxChunk && this.ioChunk == ioChunk
    {
      this.upload, this.journal, this.link := upload, journal, link;
      this.maxChunk, this.ioChunk := maxChunk, ioChunk;
      durable, accepted, inflight, durableCrc, journalCheckpoint := 0, 0, [], 0, 0;
      closeIntent, closeSent, measured, history, found, streamStart := false, false, false, [], None, 0;
    }

    /** What outlives a run, whoever is at the other end, and more when the helper is honest. */
    ghost predicate Persistent()
      reads journal, link
    {
      && Planned(upload) && maxChunk > 0 && ioChunk > 0
      && RecordSound(upload, journal.record)
      && EarnedOpens(upload, link.log) && EarnedIntent(upload, journal.record, link.log)
      && (link.honest ==>
            && Sound(upload, link.helper)
            && JournalSound(upload, journal.record, journal.removed, link.helper))
    }

    /** The data sent in this run continues the wire, in order, from `streamStart`. */
    ghost predicate InOrder()
      reads this`history, this`streamStart, this`found, link`log
    {
      exists end: nat :: StreamedTo(end)
    }

    ghost predicate StreamedBefore(log: seq<Event>, end: nat)
      reads this`history, this`streamStart, this`found
    {
      && streamStart <= |upload.wire| && history <= log
      && Streamed(upload.wire, log[|history|..], streamStart) == Some(end)
      && Orderly(upload, log[|history|..], found)
    }

    /** It has reached `end`. */
    ghost predicate StreamedTo(end: nat)
      reads this`history, this`streamStart, this`found, link`log
    {
      StreamedBefore(link.log, end)
    }

    /** Between two steps of the stream. */
    ghost predicate Streaming()
      reads this, journal, link
    {
      Flowing() && Journalled()
    }

    /** The same, before the journal has caught up. */
    ghost predicate Flowing()
      reads this, journal, link
    {
      Persistent() && StreamedTo(accepted) && Registered() && Accounted() && Backed() && Signalled()
    }

    /** The journal lags less than one interval behind, and not at all at the end. */
    ghost predicate Journalled()
      reads this`durable, this`journalCheckpoint, journal
    {
      && journal.record.Some? && journal.record.value.offset == journalCheckpoint <= durable
      && durable - journalCheckpoint < JOURNAL_INTERVAL
      && (durable == |upload.wire| ==> journalCheckpoint == durable)
    }

    /** The journal exists and agrees on the intent. */
    ghost predicate Registered()
      reads this`closeIntent, journal
    {
      journal.record.Some? && !journal.removed && journal.record.value.closeIntent == closeIntent
    }

    /** The durable boundary is one the peer reported, and an honest helper has reached. */
    ghost predicate Backed()
      reads this`durable, this`accepted, link
    {
      && Confirmed(link.log, durable)
      && (link.honest ==>
            link.helper.started && durable <= |link.helper.committed| && LevelAt(link.helper, accepted))
    }

    /** The flag says whether CLOSE has been sent in this run. */
    ghost predicate Signalled()
      reads this`closeSent, this`history, link`log
    {
      SignalledIn(link.log)
    }

    ghost predicate SignalledIn(log: seq<Event>)
      reads this`closeSent, this`history
    {
      history <= log && (closeSent <==> Closed in log[|history|..])
    }

    /** Nothing goes wrong: no message is lost, nobody cancels, no deadline passes, the host does not stop. */
    predicate Smooth() {
      link.honest && link.obliging && journal.steady
    }

    /** The helper is at work, armed, and has written what it was given. */
    ghost predicate Afoot()
      reads link
    {
      && Willing(link.helper) && link.helper.order.Some?
      && (link.helper.state == Complete
          || ((link.helper.state == Ready || link.helper.state == Transferring)
              && link.helper.pending == [] && link.armed))
    }

    /** Nothing is in the way of the target, and no worker waits to be resumed by hand. */
    ghost predicate CanFinish()
      reads link
    {
      Willing(link.helper) && link.helper.state != Suspended
    }

    /** Everything sent so far is on the disk, and the helper takes more. */
    ghost predicate Lively()
      reads this`durable, this`accepted, link
    {
      Afoot() && durable == accepted && link.helper.state != Complete
    }

    /** What a launch finds: an order that was just staged, or a worker that is at rest. */
    ghost predicate CanLaunch(known: Option<Status>, state: WorkState)
      reads link
    {
      && Eased(link.helper) && link.helper.order.Some? && link.helper.state == state
      && (state == WorkState.Staged || Engaged(state))
      && match known
         case Some(status) => status == Report(link.helper)
         case None => state == WorkState.Staged
    }

    lemma Eases()
      requires Persistent() && link.honest && CanFinish() && !journal.removed
      ensures Eased(Prompt(link.helper))
      ensures Engaged(link.helper.state) || link.helper.state == Opening ==>
        Engaged(Prompt(link.helper).state) && Prompt(link.helper).order == link.helper.order
      ensures !Engaged(link.helper.state) && link.helper.state != Opening ==> Prompt(link.helper) == link.helper
      ensures journal.record.None? ==> AcceptsOpen(link.helper) && link.helper.state != Complete
    {
      hide Planned, EarnedOpens, RecordSound, Prompt;
      PromptEases(upload, journal.record, link.helper);
    }

    lemma Launchable(status: Status)
      requires Eased(link.helper) && link.helper.order.Some? && status == Report(link.helper)
      requires status.state == WorkState.Staged || status.state == Opening || Attached(status)
      ensures CanLaunch(Some(status), status.state)
    {
      hide Prompt;
    }

    lemma StartsWhenLaunched()
      requires Persistent() && link.honest && Willing(link.helper) && !journal.removed
      requires link.helper.state == WorkState.Staged
      ensures Prompt(link.helper) == link.helper
      ensures var after := Prompt(link.helper.(state := Opening)); Eased(after) && Serviceable(after)
    {
      hide Planned, EarnedOpens, RecordSound, Prompt, Sound, JournalSound;
      LaunchStarts(upload, journal.record, link.helper);
    }

    /** The offsets, the buffer and the checksum of the stream. */
    ghost predicate Accounted()
      reads this`durable, this`accepted, this`inflight, this`durableCrc, this`journalCheckpoint
      reads this`closeIntent, this`closeSent, this`measured
    {
      AlmostAccounted() && (closeIntent ==> durable == |upload.wire|)
    }

    lemma Boundaries()
      requires Accounted()
      ensures durable <= accepted <= |upload.wire| && accepted - durable <= WINDOW
      ensures |inflight| == accepted - durable && journalCheckpoint <= durable
      ensures closeIntent ==> durable == |upload.wire|
      ensures durable == |upload.wire| ==> measured && durableCrc == Crc32(upload.wire)
      ensures closeSent ==> durable == |upload.wire|
    {
      hide Crc32;
      assert upload.wire[..|upload.wire|] == upload.wire;
    }

    /** The helper stopped, and bytes it had accepted but not committed went with it. */
    ghost predicate Dropped()
      reads this`accepted, link
    {
      link.helper.state == Idle && Taken(link.helper) < accepted
    }

    /** The failures an honest helper can cause. */
    ghost predicate Excused(e: PutError)
      reads this`accepted, link
    {
      Tolerable(e) || (e == AcceptedDiverged && Dropped())
    }

    // ---------------------------------------------------------- single exchanges

    method AskStatus() returns (r: Reply<Status>)
      requires Persistent()
      modifies link
      ensures Persistent()
      ensures link.honest ==> Onward(old(link.helper), link.helper)
      ensures link.log == old(link.log) + if r.Answer? then [Reported(r.value.state, r.value.durable)] else []
      ensures forall d | Confirmed(old(link.log), d) :: Confirmed(link.log, d)
      ensures r.Answer? ==> forall d | Confirmed(old(link.log), d) :: Confirmed(link.log, r.value.durable)
      ensures r.Answer? && Attached(r.value) ==> Confirmed(link.log, r.value.durable)
      ensures forall end | old(StreamedTo(end)) :: StreamedTo(end)
      ensures r.Answer? ==> WellFormed(r.value)
      ensures r.Answer? && link.honest ==>
        && Truthful(upload, r.value, link.helper) && |old(link.helper).committed| <= r.value.durable
        && r.value.state == link.helper.state && r.value.accepted == Taken(link.helper)
      ensures old(Signalled()) ==> Signalled()
      ensures unchanged(link`armed)
      ensures Smooth() ==>
        && link.helper == Prompt(old(link.helper))
        && (if link.helper.order.Some? then r == Answer(Report(link.helper)) else r == Rejected)
    {
      hide Planned, Sound, JournalSound, RecordSound, EarnedOpens, EarnedIntent, Truthful, Report, Streamed,
        Confirmed, LevelAt, Continues;
      ghost var before := link.log;
      r := link.AskStatus();
      if link.honest {
        EvolvesKeeps(upload, journal.record, journal.removed, old(link.helper), link.helper);
        if link.helper.order.Some? {
          ReportIsTruthful(upload, link.helper);
          ReportCoversCommitted(upload, link.helper);
        }
      }
      if r.Answer? {
        var reported := Reported(r.value.state, r.value.durable);
        EarnedGrows(upload, journal.record, before, reported);
        ConfirmedGrows(before, reported);
        StreamUnmoved(before, reported);
      } else {
        assert link.log == before;
      }
    }

    /** Reports and CLOSE do not touch the data stream. */
    lemma StreamUnmoved(before: seq<Event>, e: Event)
      requires link.log == before + [e] && !e.Sent? && !e.Opened?
      requires e == Closed ==> !closeSent && SignalledIn(before)
      ensures forall end | StreamedBefore(before, end) :: StreamedTo(end)
      ensures SignalledIn(before) && e != Closed ==> Signalled()
      ensures history <= before && e == Closed ==> Closed in link.log[|history|..]
    {
      hide Streamed, Orderly;
      if history <= before {
        assert link.log[|history|..] == before[|history|..] + [e];
        StreamedStep(upload.wire, before[|history|..], streamStart, e);
        if Orderly(upload, before[|history|..], found) {
          OrderlyGrows(upload, before[|history|..], found, e);
        }
      }
    }

    method Command(control: Control) returns (error: Option<PutError>)
      requires Persistent()
      modifies link
      ensures Persistent()
      ensures link.honest ==> Onward(old(link.helper), link.helper)
      ensures link.log == old(link.log) + [Commanded(control)]
      ensures forall d | Confirmed(old(link.log), d) :: Confirmed(link.log, d)
      ensures forall end | old(StreamedTo(end)) :: StreamedTo(end)
      ensures old(Signalled()) ==> Signalled()
      ensures error.Some? ==> Tolerable(error.value) && !Dead(error.value)
      ensures Smooth() ==> link.helper == Told(Prompt(old(link.helper)), control)
      ensures Smooth() ==> link.armed == (old(link.armed) || Arms(Prompt(old(link.helper)), control))
      ensures Smooth() && Prompt(old(link.helper)).state != Failed && Prompt(old(link.helper)).state != Cancelled ==>
        error.None?
      ensures old(NoData()) ==> NoData()
    {
      hide Planned, Sound, JournalSound, RecordSound, EarnedOpens, EarnedIntent, Confirmed, LevelAt, Continues, Prompt,
        Told;
      ghost var before := link.log;
      var r := link.SendControl(control);
      if link.honest {
        EvolvesKeeps(upload, journal.record, journal.removed, old(link.helper), link.helper);
      }
      EarnedGrows(upload, journal.record, before, Commanded(control));
      ConfirmedGrows(before, Commanded(control));
      StreamUnmoved(before, Commanded(control));
      if old(NoData()) {
        StillNoData(before, Commanded(control));
      }
      match r
      case Lost => return Some(LinkLost);
      case Rejected => return Some(RemoteFailure);
      case Answer(ack) =>
        return if ack.fault || ack.state == Failed || ack.state == Cancelled then Some(RemoteFailure) else None;
    }

    /** The caller may cancel at any of the points where the program asks. */
    method CancelIfRequested() returns (error: Option<PutError>)
      requires Persistent()
      modifies link
      ensures Persistent()
      ensures link.honest ==> Onward(old(link.helper), link.helper)
      ensures old(NoData()) ==> NoData()
      ensures forall d | Confirmed(old(link.log), d) :: Confirmed(link.log, d)
      ensures forall end | old(StreamedTo(end)) :: StreamedTo(end)
      ensures old(Signalled()) ==> Signalled()
      ensures error.Some? ==> error.value == CancelledByCaller
      ensures error.None? ==> unchanged(link)
      ensures Smooth() ==> error.None?
    {
      var asked: bool := *;
      if asked && !Smooth() {
        var ignored := Command(Cancel);
        return Some(CancelledByCaller);
      }
      if link.honest {
        StandsStill(link.helper);
        assert link.helper.committed <= link.helper.committed;
      }
      return None;
    }

    // ---------------------------------------------------------- steps of the stream

    /** Moves the durable boundary over bytes in flight, rolling the checksum over them. */
    method Advance(remote: nat)
      requires Accounted() && durable < remote <= accepted && upload.order.wireSize == |upload.wire|
      modifies this`durable, this`durableCrc, this`inflight, this`measured
      ensures Accounted() && durable == remote
    {
      hide Crc32, Crc32Update;
      var advance := remote - durable;
      assert upload.wire[..remote] == upload.wire[..durable] + inflight[..advance];
      Crc32Rolls(upload.wire[..durable], inflight[..advance]);
      durableCrc := Crc32Update(inflight[..advance], durableCrc);
      inflight := inflight[advance..];
      durable := remote;
      measured := measured || durable == upload.order.wireSize;
    }

    /** The peer has retained a block. */
    method Retained(block: seq<Byte>)
      requires Accounted() && |block| <= WINDOW - (accepted - durable)
      requires accepted + |block| <= |upload.wire| && block == upload.wire[accepted..accepted + |block|]
      modifies this`inflight, this`accepted
      ensures Accounted() && accepted == old(accepted) + |block|
    {
      hide Crc32;
      inflight := inflight + block;
      accepted := accepted + |block|;
    }

    method Checkpoint()
      requires Accounted()
      modifies this`journalCheckpoint
      ensures Accounted() && journalCheckpoint == durable
    {
      hide Crc32;
      journalCheckpoint := durable;
    }

    lemma WireSize()
      requires Persistent()
      ensures upload.order.wireSize == |upload.wire| && upload.order.wireCrc == Crc32(upload.wire)
    {
      hide Crc32;
      PlannedSizes(upload);
    }

    /** The peer says how much is durable, and perhaps the checksum of it. */
    method Reconcile(remote: nat, crc: Option<bv32>) returns (error: Option<PutError>)
      requires Streaming()
      requires Confirmed(link.log, remote)
      requires link.honest ==> durable <= remote <= |link.helper.committed|
      requires link.honest && crc.Some? && remote <= |upload.wire| ==> crc.value == Crc32(upload.wire[..remote])
      modifies this`durable, this`durableCrc, this`inflight, this`journalCheckpoint, this`measured, journal`record
      ensures Flowing()
      ensures error.None? ==> Streaming() && durable == remote && (crc.Some? ==> crc.value == durableCrc)
      ensures error.Some? ==> !Dead(error.value) && (link.honest ==> Tolerable(error.value) || remote > accepted)
      ensures (journal.steady && old(durable) <= remote <= old(accepted)
               && (crc.Some? ==> crc.value == Crc32(upload.wire[..remote]))) ==> error.None?
      ensures error != Some(TimedOut)
    {
      hide Persistent, StreamedTo, Accounted, Crc32, Confirmed, LevelAt, Continues;
      Boundaries();
      WireSize();
      if !(durable <= remote <= accepted) {
        return Some(DurableDiverged);
      }
      var advance := remote - durable;
      if advance > |inflight| {
        return Some(OutsideAccepted);
      }
      if advance > 0 {
        Advance(remote);
        Boundaries();
        if durable == upload.order.wireSize || durable - journalCheckpoint >= JOURNAL_INTERVAL {
          var saved := SaveProgress();
          match saved {
            case Saved =>
            case Refused(why) => return Some(JournalRefused(why));
            case Interrupted => return Some(StoppedWhileSaving);
          }
          Checkpoint();
        }
      }
      if crc.Some? && crc.value != durableCrc {
        PrefixChecksum();
        return Some(RollingCrcDiffers);
      }
      return None;
    }

    lemma PrefixChecksum()
      requires Accounted()
      ensures durable <= |upload.wire| && durableCrc == Crc32(upload.wire[..durable])
    {
      hide Crc32;
    }

    /** Journals the durable boundary under the current intent. */
    method SaveBoundary() returns (r: SaveResult)
      requires Persistent() && Registered()
      requires durable <= |upload.wire| && durableCrc == Crc32(upload.wire[..durable])
      requires link.honest ==> durable <= |link.helper.committed|
      modifies journal`record
      ensures Persistent() && Registered()
      ensures r.Saved? ==> journal.record == Some(Record(upload.order, durable, durableCrc, closeIntent))
      ensures r.Saved? && closeIntent ==> durable == |upload.wire|
      ensures r.Refused? ==> r.why == IncompleteIntent && closeIntent && durable < |upload.wire|
      ensures journal.steady ==> !r.Interrupted?
    {
      hide Sound, EarnedOpens, Crc32, Restore, Confirmed, LevelAt, Continues;
      PlannedSizes(upload);
      Crc32Empty();
      assert durable == 0 ==> upload.wire[..durable] == [];
      assert durable == |upload.wire| ==> upload.wire[..durable] == upload.wire;
      r := journal.Save(upload.order, durable, durableCrc, closeIntent);
    }

    /** During a stream the journal never refuses the durable boundary. */
    method SaveProgress() returns (r: SaveResult)
      requires Flowing()
      modifies journal`record
      ensures Flowing() && !r.Refused?
      ensures r.Saved? ==> journal.record == Some(Record(upload.order, durable, durableCrc, closeIntent))
      ensures journal.steady ==> r.Saved?
    {
      hide Persistent, StreamedTo, Accounted, Crc32, Confirmed, LevelAt, Continues;
      Boundaries();
      PrefixChecksum();
      r := SaveBoundary();
    }

    /** Syncs the intent to close; only the complete durable boundary may carry it. */
    method PersistCloseIntent() returns (error: Option<PutError>)
      requires Streaming()
      modifies this`closeIntent, journal`record
      ensures Persistent()
      ensures error.None? ==> Streaming() && closeIntent
      ensures error.Some? ==> error.value == StoppedWhileSaving
                              || (error.value == NotAtBoundary && old(durable < |upload.wire|))
      ensures journal.steady && old(durable == accepted == |upload.wire|) ==> error.None?
    {
      hide Persistent, StreamedTo, Crc32, Confirmed, LevelAt, Continues;
      Boundaries();
      WireSize();
      if closeIntent {
        return None;
      }
      if durable != upload.order.wireSize || accepted != upload.order.wireSize
         || durableCrc != upload.order.wireCrc {
        return Some(NotAtBoundary);
      }
      var saved := SaveIntent();
      if saved {
        closeIntent := true;
        return None;
      }
      return Some(StoppedWhileSaving);
    }

    /** Journals the complete boundary with the intent; the journal never refuses it. */
    method SaveIntent() returns (saved: bool)
      requires Persistent() && journal.record.Some? && !journal.removed
      requires Confirmed(link.log, |upload.wire|)
      requires link.honest ==> link.helper.started && |upload.wire| <= |link.helper.committed|
      modifies journal`record
      ensures Persistent()
      ensures saved ==> journal.record.Some? && journal.record.value.closeIntent
      ensures saved ==> journal.record.value.offset == |upload.wire|
      ensures journal.steady ==> saved
    {
      hide Sound, EarnedOpens, Crc32, JournalSound, Planned, Confirmed, LevelAt, Continues;
      PlannedSizes(upload);
      Crc32Empty();
      assert |upload.wire| == 0 ==> upload.wire == [];
      assert upload.wire[..|upload.wire|] == upload.wire;
      if link.honest {
        IntentIsSound(upload, journal.record, link.helper);
      }
      var r := journal.Save(upload.order, upload.order.wireSize, upload.order.wireCrc, true);
      match r
      case Saved => return true;
      case Refused(_) => assert false;
      case Interrupted => return false;
    }

    method AskWhileStreaming() returns (r: Reply<Status>)
      requires Streaming()
      modifies link
      ensures Streaming()
      ensures r.Answer? ==> Confirmed(link.log, r.value.durable) && WellFormed(r.value)
      ensures r.Answer? && link.honest ==>
        && Truthful(upload, r.value, link.helper)
        && r.value.state == link.helper.state && r.value.accepted == Taken(link.helper)
        && durable <= r.value.durable <= |link.helper.committed|
      ensures unchanged(link`armed)
      ensures Smooth() ==>
        && link.helper == Prompt(old(link.helper))
        && (link.helper.order.Some? ==> r == Answer(Report(link.helper)))
      ensures link.honest && link.helper.state == Complete ==> link.helper.order.Some?
    {
      hide Persistent, Crc32, StreamedTo, InOrder, Accounted, Truthful, Later, SameBinding, SameWire,
        Confirmed, LevelAt, Continues;
      r := AskStatus();
      if link.honest && link.helper.state == Complete {
        WorkHasOrder();
      }
      if link.honest {
        OnwardKeepsProgress(old(link.helper), link.helper);
        if r.Answer? {
          TruthfulShape(upload, r.value, link.helper);
        }
      }
    }

    /** The checks on a polled status that come before its durable boundary is looked at. */
    method PolledFault(status: Status) returns (fault: Option<PutError>)
      requires link.honest ==>
        && Truthful(upload, status, link.helper) && LevelAt(link.helper, accepted)
        && status.state == link.helper.state && status.accepted == Taken(link.helper)
      ensures fault.None? ==> SameWire(status.order, upload.order) && status.accepted == accepted
      ensures fault.Some? ==> !Dead(fault.value) && (link.honest ==> Excused(fault.value))
      ensures link.honest && Dropped() ==> fault.Some?
      ensures fault == Some(TimedOut) ==> !Smooth() || status.state == Suspended
      ensures Smooth() && status.state == Complete && status.accepted == accepted ==> fault.None?
    {
      hide Truthful, SameWire, LevelAt, Dropped;
      if link.honest {
        TruthfulShape(upload, status, link.helper);
      }
      if status.fault || status.state == Failed || status.state == Cancelled {
        return Some(RemoteFailure);
      }
      if !SameWire(status.order, upload.order) {
        return Some(BindingChanged);
      }
      var late: bool := *;
      if late && !Smooth() {
        return Some(TimedOut);
      }
      if status.state == Suspended {
        return Some(TimedOut);
      }
      if link.honest {
        OnlyDropsDiverge(status);
      }
      return if status.accepted != accepted then Some(AcceptedDiverged) else None;
    }

    /** One STATUS exchange while the stream is open, with every check made on it. */
    method PollProgress() returns (r: Result<Status, PutError>)
      requires Streaming()
      modifies this, journal, link
      ensures Persistent() && InOrder()
      ensures r.Ok? ==> Streaming() && unchanged(this`accepted, this`closeSent, this`closeIntent)
      ensures r.Ok? ==> SameWire(r.value.order, upload.order)
      ensures r.Ok? ==> r.value.durable == durable && r.value.crc == durableCrc
      ensures r.Ok? && link.honest ==> Truthful(upload, r.value, link.helper)
      ensures unchanged(this`history, this`streamStart, this`found)
      ensures r.Err? ==> !Dead(r.error) && (link.honest ==> Excused(r.error))
      ensures r.Err? && r.error == TimedOut ==>
        unchanged(this`durable, this`accepted, this`closeSent) && Signalled()
      ensures Smooth() && Prompt(old(link.helper)).state == Complete && old(accepted) == |upload.wire| ==>
        r.Ok? && r.value.state == Complete && link.helper.state == Complete
    {
      hide Persistent, Crc32, StreamedTo, InOrder, Accounted, Truthful, Later, SameBinding, SameWire, LevelAt,
        Dropped, Confirmed, Streaming, Continues;
      var reply := AskWhileStreaming();
      StreamingBounds();
      match reply
      case Lost => return Err(LinkLost);
      case Rejected => return Err(RemoteFailure);
      case Answer(status) =>
        if link.honest {
          HelperIsLevel();
          TruthfulWindow(upload, status, link.helper);
        }
        var fault := PolledFault(status);
        if fault.Some? {
          return Err(fault.value);
        }
        if link.honest {
          TruthfulShape(upload, status, link.helper);
        }
        var error := Reconcile(status.durable, Some(status.crc));
        if error.Some? {
          return Err(error.value);
        }
        return Ok(status);
    }

    /** The accepted offsets disagree exactly when the helper dropped bytes, if it reports no failure. */
    lemma OnlyDropsDiverge(status: Status)
      requires LevelAt(link.helper, accepted)
      requires status.state == link.helper.state && status.accepted == Taken(link.helper)
      requires status.state != Failed && status.state != Cancelled && status.state != Suspended
      ensures status.accepted != accepted <==> Dropped()
    {
    }

    lemma WorkHasOrder()
      requires Persistent() && link.honest
      requires Engaged(link.helper.state) || link.helper.state == Opening || link.helper.state == WorkState.Staged
      ensures link.helper.order.Some? && link.helper.order.value.wireSize == |upload.wire|
    {
      hide Planned, Sound, EarnedOpens, RecordSound;
      HasOrder(upload, link.helper);
    }

    lemma NoOrderIsOpen()
      requires Persistent() && link.honest && link.helper.order.None?
      ensures AcceptsOpen(link.helper) && link.helper.state != Complete
    {
      hide Planned, EarnedOpens, RecordSound, JournalSound;
    }

    lemma ReadyToClose()
      requires Persistent() && link.honest && Afoot() && link.helper.state != Complete
      requires LevelAt(link.helper, |upload.wire|)
      ensures Prompt(link.helper) == link.helper && AcceptsClose(link.helper)
    {
      hide Planned, Sound, EarnedOpens, RecordSound, JournalSound, Prompt;
      AtRest(upload, link.helper);
      WorkHasOrder();
    }

    lemma ClosedWorkEnds()
      requires Persistent() && link.honest && Willing(link.helper) && link.helper.state == Verifying
      ensures Prompt(link.helper).state == Complete
    {
      hide Planned, Sound, EarnedOpens, RecordSound, JournalSound, Prompt;
      PromptPublishes(upload, link.helper);
    }

    /** Nothing is pending, so what was accepted is committed. */
    lemma AllWritten(n: nat)
      requires Afoot() && link.helper.state != Complete && LevelAt(link.helper, n)
      ensures |link.helper.committed| == n
    {
    }

    lemma HelperIsLevel()
      requires Streaming() && link.honest
      ensures LevelAt(link.helper, accepted)
    {
      hide Persistent, StreamedTo, Accounted, LevelAt, Confirmed, Continues;
    }

    lemma MovedInOrder(end: nat)
      requires StreamedTo(end)
      ensures InOrder()
    {
    }

    /** Sends the next block of the wire and accounts for it. */
    method SendNext() returns (error: Option<PutError>)
      requires Streaming() && accepted < |upload.wire| && accepted - durable < WINDOW && !closeSent
      modifies this, journal, link
      ensures Persistent() && InOrder()
      ensures error.None? ==> Streaming() && accepted > old(accepted)
      ensures error.None? ==> unchanged(this`closeSent, this`closeIntent)
      ensures unchanged(this`history, this`streamStart, this`found)
      ensures error.Some? ==> !Dead(error.value) && (link.honest ==> Tolerable(error.value))
      ensures Smooth() && old(Lively()) ==> error.None? && Lively()
      ensures error != Some(TimedOut)
    {
      hide Persistent, StreamedTo, InOrder, Accounted, Crc32, Later, SameBinding, SameWire, Confirmed, LevelAt,
        Continues, Registered, Journalled;
      Boundaries();
      Limits();
      var limit := if maxChunk < WINDOW - (accepted - durable) then maxChunk else WINDOW - (accepted - durable);
      var end := if accepted + limit < |upload.wire| then accepted + limit else |upload.wire|;
      var block := upload.wire[accepted..end];
      var reply := SendBlock(block);
      MovedInOrder(accepted + |block|);
      if link.honest {
        LaterKeepsProgress(old(link.helper), link.helper);
      }
      match reply
      case Lost => return Some(LinkLost);
      case Rejected => return Some(RemoteFailure);
      case Answer(progress) =>
        if progress.fault {
          return Some(RemoteFailure);
        }
        if progress.accepted != |block| || progress.acceptedEnd != accepted + |block|
           || progress.durableEnd > progress.acceptedEnd {
          return Some(BlockRefused);
        }
        error := TakeAnswer(block, progress.durableEnd);
    }

    /** The block is in flight, and the answer says what is on the disk by now. */
    method TakeAnswer(block: seq<Byte>, durableEnd: nat) returns (error: Option<PutError>)
      requires Persistent() && Registered() && Accounted() && Journalled() && Signalled()
      requires StreamedTo(accepted + |block|) && Confirmed(link.log, durable) && Confirmed(link.log, durableEnd)
      requires 0 < |block| <= WINDOW - (accepted - durable)
      requires accepted + |block| <= |upload.wire| && block == upload.wire[accepted..accepted + |block|]
      requires durableEnd <= accepted + |block|
      requires link.honest ==>
        && link.helper.started && durable <= durableEnd == |link.helper.committed|
        && LevelAt(link.helper, accepted + |block|)
      modifies this, journal`record
      ensures Persistent() && InOrder()
      ensures error.None? ==> Streaming() && accepted == old(accepted) + |block|
      ensures error.None? ==> unchanged(this`closeSent, this`closeIntent)
      ensures unchanged(this`history, this`streamStart, this`found)
      ensures error.Some? ==> !Dead(error.value) && (link.honest ==> Tolerable(error.value))
      ensures Smooth() && Afoot() && link.helper.state != Complete ==> error.None? && Lively()
      ensures error != Some(TimedOut)
    {
      hide Persistent, StreamedTo, InOrder, Accounted, Crc32, Confirmed, LevelAt, Registered, Journalled, Signalled;
      Retained(block);
      Boundaries();
      if Afoot() && link.honest && link.helper.state != Complete {
        AllWritten(accepted);
      }
      error := Reconcile(durableEnd, None);
      MovedInOrder(accepted);
    }

    lemma Limits()
      requires Persistent()
      ensures maxChunk > 0 && ioChunk > 0
    {
    }

    /** The exchange itself: afterwards the data requests end one block further on. */
    method SendBlock(block: seq<Byte>) returns (r: Reply<Progress>)
      requires Streaming() && block != [] && !closeSent
      requires accepted + |block| <= |upload.wire| && block == upload.wire[accepted..accepted + |block|]
      modifies link
      ensures Persistent() && StreamedTo(accepted + |block|)
      ensures Confirmed(link.log, durable)
      ensures link.honest ==> Later(old(link.helper), link.helper)
      ensures r.Answer? ==> r.value.durableEnd <= r.value.acceptedEnd
      ensures r.Answer? && !r.value.fault ==> Confirmed(link.log, r.value.durableEnd)
      ensures link.honest && r.Answer? && !r.value.fault ==>
        && r.value.accepted == |block| && r.value.acceptedEnd == accepted + |block|
        && r.value.durableEnd == |link.helper.committed| && LevelAt(link.helper, accepted + |block|)
      ensures Signalled()
      ensures unchanged(link`armed)
      ensures Smooth() && |block| <= WINDOW && old(Lively()) ==>
        r.Answer? && !r.value.fault && Afoot() && link.helper.state != Complete
    {
      hide Planned, Sound, JournalSound, RecordSound, EarnedOpens, EarnedIntent, Streamed, Crc32, Later,
        Confirmed, LevelAt, Continues, StreamedBefore, Accounted, Journalled, Prompt, AcceptsData, Retain;
      ghost var before := link.log;
      if Smooth() && |block| <= WINDOW && Lively() {
        TakesNext(block);
      }
      r := link.SendData(accepted, block);
      if link.honest {
        ServedDataKeeps(upload, journal.record, old(link.helper), accepted, block, link.helper);
      }
      BlockLogged(before, block, if r.Answer? && !r.value.fault then Some(r.value.durableEnd) else None);
    }

    /** What an obliging helper makes of the next block. */
    lemma TakesNext(block: seq<Byte>)
      requires Streaming() && Smooth() && Lively() && |block| <= WINDOW
      requires accepted + |block| <= |upload.wire| && block == upload.wire[accepted..accepted + |block|]
      ensures Prompt(link.helper) == link.helper && AcceptsData(link.helper, accepted, block)
      ensures var after := Prompt(Retain(link.helper, block));
              && after.state == Transferring && after.pending == [] && |after.committed| == accepted + |block|
              && Willing(after) && after.order.Some?
    {
      hide Planned, Sound, JournalSound, RecordSound, EarnedOpens, EarnedIntent, Confirmed, LevelAt, StreamedTo,
        Accounted, Journalled, Prompt, AcceptsData, Retain;
      HelperIsLevel();
      AllWritten(accepted);
      PromptTakes(upload, journal.record, link.helper, block);
    }

    /** A block on its way, and what came back. */
    lemma BlockLogged(before: seq<Event>, block: seq<Byte>, answer: Option<nat>)
      requires link.log == before + [Sent(accepted, block)]
                           + if answer.Some? then [Acknowledged(answer.value)] else []
      requires StreamedBefore(before, accepted) && SignalledIn(before) && !closeSent && Confirmed(before, durable)
      requires EarnedOpens(upload, before) && EarnedIntent(upload, journal.record, before)
      requires block != [] && accepted + |block| <= |upload.wire|
      requires block == upload.wire[accepted..accepted + |block|]
      ensures StreamedTo(accepted + |block|) && Signalled()
      ensures EarnedOpens(upload, link.log) && EarnedIntent(upload, journal.record, link.log)
      ensures Confirmed(link.log, durable) && (answer.Some? ==> Confirmed(link.log, answer.value))
    {
      hide Streamed, Orderly, EarnedOpens, EarnedIntent, Confirmed;
      var sent := Sent(accepted, block);
      var middle := before + [sent];
      EarnedGrows(upload, journal.record, before, sent);
      ConfirmedGrows(before, sent);
      assert middle[|history|..] == before[|history|..] + [sent];
      StreamedStep(upload.wire, before[|history|..], streamStart, sent);
      OrderlyGrows(upload, before[|history|..], found, sent);
      if answer.Some? {
        var reported := Acknowledged(answer.value);
        EarnedGrows(upload, journal.record, middle, reported);
        ConfirmedGrows(middle, reported);
        assert link.log[|history|..] == middle[|history|..] + [reported];
        StreamedStep(upload.wire, middle[|history|..], streamStart, reported);
        OrderlyGrows(upload, middle[|history|..], found, reported);
      } else {
        assert link.log == middle;
      }
    }

    /** CLOSE, sent only under a journalled intent or after the MSX has published. */
    method SendClose() returns (error: Option<PutError>)
      requires Persistent() && !journal.removed && Signalled() && !closeSent
      requires link.honest ==> journal.record.Some? && journal.record.value.closeIntent
      modifies link
      ensures Persistent()
      ensures forall d | Confirmed(old(link.log), d) :: Confirmed(link.log, d)
      ensures link.honest ==> Onward(old(link.helper), link.helper)
      ensures forall end | old(StreamedTo(end)) :: StreamedTo(end)
      ensures error.Some? ==> !Dead(error.value) && Tolerable(error.value)
      ensures link.log == old(link.log) + [Closed]
      ensures history <= link.log && Closed in link.log[|history|..]
      ensures unchanged(link`armed)
      ensures Smooth() && AcceptsClose(Prompt(old(link.helper))) ==>
        error.None? && link.helper == CloseFile(Prompt(old(link.helper)))
      ensures error != Some(TimedOut)
      ensures Said()
    {
      hide Planned, Sound, JournalSound, RecordSound, EarnedOpens, EarnedIntent, Streamed, Crc32, Later,
        Confirmed, LevelAt, Continues;
      ghost var before := link.log;
      var r := link.SendClose();
      if link.honest {
        ServedCloseKeeps(upload, journal.record, old(link.helper), link.helper);
      }
      EarnedGrows(upload, journal.record, before, Closed);
      ConfirmedGrows(before, Closed);
      StreamUnmoved(before, Closed);
      match r
      case Lost => return Some(LinkLost);
      case Rejected => return Some(RemoteFailure);
      case Answer(ack) =>
        return if ack.fault || ack.state == Failed || ack.state == Cancelled then Some(RemoteFailure) else None;
    }

    /** End of stream: the intent is synced first, then CLOSE is sent. */
    method SignalEnd() returns (error: Option<PutError>)
      requires Streaming() && durable == |upload.wire| && !closeSent
      modifies this`closeIntent, this`closeSent, journal`record, link
      ensures Persistent() && InOrder()
      ensures error.None? ==> Streaming() && closeSent
      ensures error.Some? ==> !Dead(error.value) && Tolerable(error.value)
      ensures error == Some(StoppedWhileSaving) || Said()
      ensures error != Some(TimedOut)
      ensures Smooth() && old(Lively()) ==>
        error.None? && unchanged(this`durable, this`accepted) && Willing(link.helper)
        && link.helper.state == Verifying
    {
      hide Persistent, Crc32, StreamedTo, InOrder, Later, Confirmed, LevelAt, Continues, Prompt, AcceptsClose,
        Accounted, Journalled, Said;
      Boundaries();
      MovedInOrder(accepted);
      error := PersistCloseIntent();
      if error.Some? {
        return;
      }
      label intended:
      if Smooth() && Lively() {
        HelperIsLevel();
        ReadyToClose();
      }
      error := SendClose();
      MovedInOrder(accepted);
      if error.Some? {
        return;
      }
      MarkClosed();
      if link.honest {
        OnwardKeepsProgress(old@intended(link.helper), link.helper);
      }
    }

    method MarkClosed()
      requires Accounted() && closeIntent
      modifies this`closeSent
      ensures Accounted() && closeSent
    {
      hide Crc32;
      closeSent := true;
    }

    // ---------------------------------------------------------- one run

    /** The stream: until the MSX reports completion, or something goes wrong. */
    method Pump(first: Status, polls: nat) returns (r: Result<Status, PutError>)
      requires Streaming() && SameWire(first.order, upload.order)
      requires first.durable == durable && first.crc == durableCrc && !closeSent
      requires link.honest ==> Truthful(upload, first, link.helper)
      modifies this, journal, link
      ensures Persistent() && InOrder() && unchanged(this`history, this`streamStart, this`found)
      ensures r.Ok? ==> Streaming() && r.value.state == Complete && SameWire(r.value.order, upload.order)
      ensures r.Ok? ==> r.value.durable == durable && r.value.crc == durableCrc
      ensures r.Ok? && link.honest ==> Truthful(upload, r.value, link.helper)
      ensures r.Err? ==> !Dead(r.error) && (link.honest ==> Excused(r.error))
      ensures r == Err(TimedOut) && durable == |upload.wire| && accepted == |upload.wire| ==> Said()
      ensures Smooth() && polls > 0 && old(Afoot() && durable == accepted) && first.state == old(link.helper.state) ==>
        r.Ok? && link.helper.state == Complete
    {
      hide Persistent, Crc32, Streamed, Later, Truthful, Streaming, StreamedTo, InOrder, Confirmed, LevelAt,
        Continues, Prompt, Afoot, SameWire, Signalled;
      var status, budget := first, polls;
      ghost var smooth := Smooth() && polls > 0 && Afoot() && durable == accepted
                          && first.state == link.helper.state;
      while status.state != Complete
        invariant Streaming() && unchanged(this`history, this`streamStart, this`found)
        invariant SameWire(status.order, upload.order)
        invariant status.state == Complete ==> status.durable == durable && status.crc == durableCrc
        invariant link.honest && status.state == Complete ==> Truthful(upload, status, link.helper)
        invariant smooth ==> (status.state == Complete <==> link.helper.state == Complete)
        invariant smooth && status.state != Complete ==> !closeSent && Lively() && budget == polls
        decreases |upload.wire| - accepted, budget
      {
        StreamingBounds();
        var cancelled := CancelWhileStreaming();
        StreamingBounds();
        if cancelled {
          return Err(CancelledByCaller);
        }
        if accepted < upload.order.wireSize && accepted - durable < WINDOW {
          var error := SendNext();
          if error.Some? {
            return Err(error.value);
          }
          StreamingBounds();
          continue;
        }
        var watched := Watch(budget);
        if watched.Err? {
          return watched;
        }
        budget := budget - 1;
        status := watched.value;
      }
      StreamingBounds();
      return Ok(status);
    }

    /** CLOSE has been sent in this run. */
    ghost predicate Said()
      reads this`history, link`log
    {
      history <= link.log && Closed in link.log[|history|..]
    }

    /** With nothing to send: the end is signalled if it is due, and the MSX is asked once more. */
    method Watch(budget: nat) returns (r: Result<Status, PutError>)
      requires Streaming()
      modifies this, journal, link
      ensures Persistent() && InOrder() && unchanged(this`history, this`streamStart, this`found)
      ensures r.Ok? ==> Streaming() && unchanged(this`accepted) && budget > 0
      ensures r.Ok? ==> SameWire(r.value.order, upload.order)
      ensures r.Ok? ==> r.value.durable == durable && r.value.crc == durableCrc
      ensures r.Ok? && link.honest ==> Truthful(upload, r.value, link.helper)
      ensures r.Err? ==> !Dead(r.error) && (link.honest ==> Excused(r.error))
      ensures r == Err(TimedOut) && durable == |upload.wire| && accepted == |upload.wire| ==> Said()
      ensures Smooth() && budget > 0 && old(Lively() && durable == |upload.wire| && !closeSent) ==>
        r.Ok? && r.value.state == Complete && link.helper.state == Complete
    {
      hide Persistent, Crc32, Later, Truthful, Streaming, StreamedTo, InOrder, Confirmed, LevelAt, Continues, Prompt,
        SameWire;
      StreamingBounds();
      ghost var lively := Smooth() && Lively() && durable == |upload.wire| && !closeSent;
      if durable == upload.order.wireSize && accepted == upload.order.wireSize && !closeSent {
        var error := SignalEnd();
        if error.Some? {
          return Err(error.value);
        }
        StreamingBounds();
        if lively {
          ClosedWorkEnds();
        }
      }
      if budget == 0 {
        return Err(TimedOut);
      }
      r := PollProgress();
    }

    lemma StreamingBounds()
      requires Streaming()
      ensures Persistent() && InOrder() && accepted <= |upload.wire| && durable <= accepted
      ensures upload.order.wireSize == |upload.wire|
      ensures Signalled()
      ensures closeSent ==> durable == |upload.wire|
    {
      hide Crc32, StreamedTo, InOrder, Accounted, Confirmed, LevelAt, Continues;
      Boundaries();
      PlannedSizes(upload);
      MovedInOrder(accepted);
    }

    method CancelWhileStreaming() returns (cancelled: bool)
      requires Streaming()
      modifies link
      ensures Streaming()
      ensures !cancelled ==> unchanged(link)
      ensures Smooth() ==> !cancelled
    {
      hide Persistent, Crc32, StreamedTo, Accounted, Later, Confirmed, LevelAt, Continues;
      var error := CancelIfRequested();
      if link.honest {
        OnwardKeepsProgress(old(link.helper), link.helper);
      }
      return error.Some?;
    }

    /** Neither data nor CLOSE since the run began, and only the proper OPEN. */
    ghost predicate NoData()
      reads this`history, this`found, link`log
    {
      && history <= link.log && Orderly(upload, link.log[|history|..], found)
      && forall e <- link.log[|history|..] :: !e.Sent? && e != Closed
    }

    /** Asking and commanding keep it so. */
    lemma StillNoData(before: seq<Event>, e: Event)
      requires history <= before && link.log == before + [e] && !e.Sent? && e != Closed
      requires Orderly(upload, before[|history|..], found)
      requires forall x <- before[|history|..] :: !x.Sent? && x != Closed
      requires e.Opened? ==> AsksFor(upload, e.order, found)
      ensures NoData()
    {
      hide AsksFor;
      assert link.log[|history|..] == before[|history|..] + [e];
      OrderlyGrows(upload, before[|history|..], found, e);
    }

    /** The checks on the boundaries the MSX reports, against the local wire bytes. */
    method BoundaryFault(status: Status) returns (fault: Option<PutError>)
      requires Persistent() && WellFormed(status) && SameWire(status.order, upload.order)
      requires link.honest ==> Truthful(upload, status, link.helper)
      ensures fault.None? ==>
        && status.durable <= status.accepted <= |upload.wire| && status.accepted - status.durable <= WINDOW
        && status.crc == Crc32(upload.wire[..status.durable])
      ensures fault.Some? ==> !link.honest && (fault.value == PrefixDiffers || fault.value == WindowExceeded)
    {
      hide Persistent, Crc32, Truthful, Confirmed, LevelAt, Continues;
      WireSize();
      Limits();
      if link.honest {
        TruthfulShape(upload, status, link.helper);
        TruthfulWindow(upload, status, link.helper);
      }
      var local := Crc32FilePrefix(upload.wire, status.durable, ioChunk);
      if local != Some(status.crc) {
        return Some(PrefixDiffers);
      }
      if !(status.durable <= status.accepted <= upload.order.wireSize) {
        return Some(InvalidProgress);
      }
      return if status.accepted - status.durable > WINDOW then Some(WindowExceeded) else None;
    }

    /** Checks the reported boundaries, then takes them over and refills the buffer between them. */
    method Recover(status: Status) returns (error: Option<PutError>)
      requires Persistent() && NoData() && !journal.removed
      requires journal.record.Some? && journal.record.value.closeIntent == closeIntent
      requires WellFormed(status) && SameWire(status.order, upload.order) && Attached(status)
      requires Confirmed(link.log, status.durable)
      requires link.honest ==>
        Truthful(upload, status, link.helper) && journal.record.value.offset <= status.durable
      modifies this, journal`record
      ensures Persistent() && InOrder() && history == old(history) && found == old(found)
      ensures error.None? ==> Streaming() && streamStart == status.accepted
      ensures error.None? ==> durable == status.durable && durableCrc == status.crc
      ensures error.Some? ==> !Dead(error.value) && (link.honest ==> Tolerable(error.value))
      ensures journal.steady && link.honest ==> error.None? && accepted == status.accepted
      ensures error.None? ==> !closeSent
      ensures error != Some(TimedOut)
    {
      hide Persistent, Crc32, StreamedTo, InOrder, NoData, Truthful, Streaming, Confirmed, LevelAt, Excused;
      streamStart := status.accepted;
      WireSize();
      FromHere();
      MovedInOrder(streamStart);
      error := BoundaryFault(status);
      if error.Some? {
        return;
      }
      if link.honest {
        TruthfulShape(upload, status, link.helper);
        TruthfulWindow(upload, status, link.helper);
      }
      error := TakeOver(status);
      if error.None? && durable == upload.order.wireSize && accepted == upload.order.wireSize {
        error := PersistCloseIntent();
      }
    }

    /** Nothing was sent yet, so the stream stands where it begins. */
    lemma FromHere()
      requires NoData() && streamStart <= |upload.wire|
      ensures StreamedTo(streamStart) && history <= link.log && Closed !in link.log[|history|..]
    {
      hide Orderly;
      NoDataStreams(upload.wire, link.log[|history|..], streamStart);
    }

    method TakeOver(status: Status) returns (error: Option<PutError>)
      requires Persistent() && StreamedTo(status.accepted) && Registered()
      requires history <= link.log && Closed !in link.log[|history|..]
      requires status.durable <= status.accepted <= |upload.wire| && status.accepted - status.durable <= WINDOW
      requires status.crc == Crc32(upload.wire[..status.durable])
      requires Confirmed(link.log, status.durable)
      requires link.honest ==>
        && link.helper.started && status.durable <= |link.helper.committed| && LevelAt(link.helper, status.accepted)
        && journal.record.value.offset <= status.durable
      modifies this, journal`record
      ensures Persistent() && unchanged(this`history, this`streamStart, this`found)
      ensures error.None? ==> Streaming() && durable == status.durable && accepted == status.accepted
      ensures error.None? ==> durableCrc == status.crc
      ensures error.Some? ==> !Dead(error.value) && (link.honest ==> Tolerable(error.value))
      ensures journal.steady && link.honest ==> error.None?
      ensures error.None? ==> !closeSent
      ensures error != Some(TimedOut)
    {
      hide Persistent, StreamedTo, Crc32, Accounted, AlmostAccounted, Confirmed, LevelAt, Continues;
      WireSize();
      if closeIntent {
        IntentMeansComplete();
      }
      SetBoundaries(status.durable, status.accepted, status.crc);
      if durable != journal.record.value.offset {
        var saved := SaveBoundary();
        match saved {
          case Saved =>
          case Refused(why) => return Some(JournalRefused(why));
          case Interrupted => return Some(StoppedWhileSaving);
        }
      }
      AllAccounted();
      return None;
    }

    /** The stream variables at the boundaries the MSX reported. */
    method SetBoundaries(durableEnd: nat, acceptedEnd: nat, crc: bv32)
      requires upload.order.wireSize == |upload.wire|
      requires durableEnd <= acceptedEnd <= |upload.wire| && acceptedEnd - durableEnd <= WINDOW
      requires crc == Crc32(upload.wire[..durableEnd])
      modifies this`durable, this`accepted, this`inflight, this`durableCrc, this`journalCheckpoint
      modifies this`closeSent, this`measured
      ensures durable == durableEnd && accepted == acceptedEnd && durableCrc == crc
      ensures journalCheckpoint == durableEnd && !closeSent
      ensures AlmostAccounted()
    {
      hide Crc32;
      durable, durableCrc, accepted := durableEnd, crc, acceptedEnd;
      inflight := upload.wire[durable..accepted];
      closeSent, journalCheckpoint := false, durable;
      measured := durable == upload.order.wireSize;
    }

    /** `Accounted` but for the intent, which the journal has still to confirm. */
    ghost predicate AlmostAccounted()
      reads this`durable, this`accepted, this`inflight, this`durableCrc, this`journalCheckpoint
      reads this`closeIntent, this`closeSent, this`measured
    {
      && durable <= accepted <= |upload.wire| && accepted - durable <= WINDOW
      && inflight == upload.wire[durable..accepted]
      && durableCrc == Crc32(upload.wire[..durable])
      && journalCheckpoint <= durable && (closeSent ==> closeIntent)
      && (measured <==> durable == |upload.wire|)
    }

    lemma AllAccounted()
      requires AlmostAccounted() && (closeIntent ==> durable == |upload.wire|)
      ensures Accounted()
    {
      hide Crc32, Confirmed, LevelAt, Continues;
    }

    lemma IntentMeansComplete()
      requires Persistent() && journal.record.Some? && journal.record.value.closeIntent
      ensures journal.record.value.offset == |upload.wire|
    {
      hide Crc32, Confirmed, LevelAt, Continues;
      PlannedSizes(upload);
    }

    /** Looks for a journal, checks the local prefix against it, and journals the attempt. */
    method Discover(existingOnly: bool) returns (r: Result<bool, PutError>)
      requires Persistent() && !journal.removed
      modifies this`closeIntent, journal`record
      ensures Persistent()
      ensures r.Ok? ==> journal.record.Some? && journal.record.value.closeIntent == closeIntent
      ensures r.Ok? ==> r.value == old(journal.record).Some? && (!r.value ==> !closeIntent)
      ensures r.Err? ==> !Dead(r.error) && Tolerable(r.error)
      ensures journal.steady && !existingOnly ==> r.Ok?
      ensures r.Ok? && r.value ==> journal.record == old(journal.record)
    {
      hide EarnedOpens, Crc32, Restore, Sound, Confirmed, LevelAt, Continues;
      var found := journal.record;
      if existingOnly && found.None? {
        return Err(NoJournal);
      }
      var confirmed := if found.Some? then found.value.offset else 0;
      var confirmedCrc := if found.Some? then found.value.crc else 0;
      closeIntent := found.Some? && found.value.closeIntent;
      PlannedSizes(upload);
      Crc32Empty();
      assert upload.wire[..0] == [];
      var local := Crc32FilePrefix(upload.wire, confirmed, ioChunk);
      if local != Some(confirmedCrc) {
        return Err(SourceChanged);
      }
      var saved := journal.Save(upload.order, confirmed, confirmedCrc, closeIntent);
      match saved {
        case Saved => return Ok(found.Some?);
        case Refused(why) => return Err(JournalRefused(why));
        case Interrupted => return Err(StoppedWhileSaving);
      }
    }

    /** A status together with what the rest of the run may rely on. */
    ghost predicate Trusted(status: Status)
      reads journal, link
    {
      && WellFormed(status) && (Attached(status) ==> Confirmed(link.log, status.durable))
      && (link.honest ==> Truthful(upload, status, link.helper))
      && (link.honest && journal.record.Some? ==> journal.record.value.offset <= status.durable)
    }

    method TrustedStatus() returns (r: Reply<Status>)
      requires Persistent() && NoData() && journal.record.Some?
      modifies link
      ensures Persistent() && NoData()
      ensures r.Answer? ==> Trusted(r.value)
      ensures unchanged(link`armed)
      ensures Smooth() ==>
        && link.helper == Prompt(old(link.helper))
        && (if link.helper.order.Some? then r == Answer(Report(link.helper)) else r == Rejected)
    {
      hide Planned, Sound, EarnedOpens, RecordSound, Truthful, Later, Confirmed, LevelAt, Continues;
      ghost var before := link.log;
      r := AskStatus();
      if r.Answer? {
        StillNoData(before, Reported(r.value.state, r.value.durable));
      } else {
        assert link.log == before;
      }
    }

    /** Commands leave a status as trustworthy as it was. */
    twostate lemma StillTrusted(status: Status)
      requires old(Trusted(status)) && unchanged(journal)
      requires forall d | Confirmed(old(link.log), d) :: Confirmed(link.log, d)
      requires link.honest ==> Onward(old(link.helper), link.helper)
      ensures Trusted(status)
    {
      hide Truthful, Later, Confirmed, LevelAt, Continues;
      if link.honest {
        TruthLasts(upload, status, old(link.helper), link.helper);
      }
    }

    lemma TrustedBinding(status: Status)
      requires Trusted(status) && link.honest
      ensures !status.fault && SameWire(status.order, upload.order)
    {
      hide Confirmed, LevelAt, Continues, SameWire;
      TruthfulShape(upload, status, link.helper);
    }

    /** A worker that survived the previous run, if the journalled ID still names one. */
    method RecoverActive() returns (r: Result<Option<Status>, PutError>)
      requires Persistent() && NoData() && journal.record.Some?
      modifies link
      ensures Persistent() && NoData()
      ensures r.Ok? && r.value.Some? ==>
        && Trusted(r.value.value) && SameWire(r.value.value.order, upload.order)
        && (r.value.value.state == WorkState.Staged || r.value.value.state == Opening || Attached(r.value.value))
      ensures r.Err? ==> !Dead(r.error) && (link.honest ==> Tolerable(r.error))
      ensures unchanged(link`armed)
      ensures Smooth() && old(CanFinish()) ==>
        && r.Ok? && link.helper == Prompt(old(link.helper))
        && (r.value.Some? ==> link.helper.order.Some? && r.value.value == Report(link.helper))
        && (r.value.None? ==> AcceptsOpen(link.helper) && link.helper.state != Complete)
    {
      hide Persistent, Truthful, NoData, Confirmed, LevelAt, Continues;
      var reply := TrustedStatus();
      match reply
      case Lost => return Err(LinkLost);
      case Rejected =>
        var quarantined: bool := *;
        if quarantined && !Smooth() {
          return Err(LinkLost);
        }
        if link.honest && link.helper.order.None? {
          NoOrderIsOpen();
        }
        return Ok(None);
      case Answer(status) =>
        if status.state == Idle || status.state == Failed || status.state == Cancelled {
          return Ok(None);
        }
        if link.honest {
          TruthfulShape(upload, status, link.helper);
        }
        if status.fault {
          return Err(RemoteFailure);
        }
        if !SameWire(status.order, upload.order) {
          return Err(BindingChanged);
        }
        return Ok(Some(status));
    }

    /** Stages the descriptor; its receiptless bit is the journalled close intent. */
    method OpenOrder(d: Descriptor) returns (r: Result<WorkState, PutError>)
      requires Persistent() && NoData() && !journal.removed && journal.record.Some?
      requires SameBinding(d, upload.order) && (d.receiptless <==> journal.record.value.closeIntent)
      requires AsksFor(upload, d, found)
      modifies link
      ensures Persistent() && NoData()
      ensures r.Ok? ==> r.value == WorkState.Staged || r.value == Opening || r.value == Ready
      ensures r.Err? ==> !Dead(r.error) && (link.honest ==> Tolerable(r.error))
      ensures Smooth() && AcceptsOpen(Prompt(old(link.helper))) ==>
        r == Ok(WorkState.Staged) && link.helper == Open(Prompt(old(link.helper)), d)
    {
      hide Planned, Sound, JournalSound, RecordSound, EarnedOpens, Confirmed, LevelAt, Continues;
      ghost var before := link.log;
      var reply := link.SendOpen(d);
      if link.honest {
        ServedOpenKeeps(upload, journal.record, old(link.helper), d, link.helper);
      }
      EarnedGrows(upload, journal.record, before, Opened(d));
      StillNoData(before, Opened(d));
      match reply
      case Lost => return Err(LinkLost);
      case Rejected => return Err(RemoteFailure);
      case Answer(ack) =>
        if ack.fault || ack.state == Failed || ack.state == Cancelled {
          return Err(RemoteFailure);
        }
        if ack.state != WorkState.Staged && ack.state != Opening && ack.state != Ready {
          return Err(UnexpectedOpenState);
        }
        return Ok(ack.state);
    }

    /** Polls until the launched helper has opened its files. */
    method WaitForHelper(polls: nat) returns (r: Result<Status, PutError>)
      requires Persistent() && NoData() && journal.record.Some?
      modifies link
      ensures Persistent() && NoData()
      ensures r.Ok? ==> Trusted(r.value) && Attached(r.value)
      ensures r.Err? ==> !Dead(r.error) && Tolerable(r.error)
      ensures Smooth() ==> unchanged(link`armed)
      ensures Smooth() && polls > 0 && Serviceable(Prompt(old(link.helper))) ==>
        r.Ok? && link.helper == Prompt(old(link.helper)) && r.value == Report(link.helper)
    {
      hide Persistent, Trusted, NoData, Prompt, Confirmed, CanFinish;
      var budget := polls;
      while budget > 0
        invariant Persistent() && NoData() && (Smooth() ==> unchanged(link`armed))
        invariant budget < polls ==> !(Smooth() && Serviceable(Prompt(old(link.helper))))
        invariant budget == polls ==> unchanged(link)
        decreases budget
      {
        budget := budget - 1;
        var cancelled := CancelIfRequested();
        if cancelled.Some? {
          return Err(CancelledByCaller);
        }
        var reply := TrustedStatus();
        if reply.Lost? {
          return Err(LinkLost);
        }
        if reply.Rejected? {
          return Err(RemoteFailure);
        }
        var status := reply.value;
        if status.fault || status.state == Failed || status.state == Cancelled {
          return Err(RemoteFailure);
        }
        if Running(status.state) || status.state == Complete {
          return Ok(status);
        }
        if status.state == Suspended {
          return Err(TimedOut);
        }
      }
      return Err(TimedOut);
    }

    /** From the journal to a status on which the stream can begin. */
    method Connect(existingOnly: bool, polls: nat) returns (r: Result<Status, PutError>)
      requires Persistent() && NoData() && !journal.removed && found == journal.record
      modifies this`closeIntent, journal`record, link
      ensures Persistent() && NoData()
      ensures r.Ok? ==> journal.record.Some? && journal.record.value.closeIntent == closeIntent
      ensures r.Ok? ==> Trusted(r.value) && Attached(r.value) && SameWire(r.value.order, upload.order)
      ensures r.Err? ==> !Dead(r.error) && (link.honest ==> Tolerable(r.error))
      ensures Smooth() && !existingOnly && polls > 0 && old(CanFinish()) ==>
        r.Ok? && Afoot() && r.value == Report(link.helper)
    {
      hide Persistent, NoData, Trusted, SameWire, Prompt, Afoot, CanLaunch;
      ghost var smooth := Smooth() && !existingOnly && polls > 0 && CanFinish();
      if smooth {
        Eases();
      }
      var discovered := Discover(existingOnly);
      if discovered.Err? {
        return Err(discovered.error);
      }
      var status: Option<Status> := None;
      if discovered.value {
        var recovered := RecoverActive();
        if recovered.Err? {
          return Err(recovered.error);
        }
        status := recovered.value;
      }
      if existingOnly && status.None? {
        return Err(NotActive);
      }
      if status.None? {
        var cancelled: bool := *;
        if cancelled && !Smooth() {
          return Err(CancelledByCaller);
        }
        r := StartWork(discovered.value, existingOnly, polls);
      } else {
        assert smooth ==> CanLaunch(status, status.value.state) by {
          if smooth {
            Launchable(status.value);
          }
        }
        r := Launch(status, status.value.state, existingOnly, polls);
      }
    }

    /** Stages the order and launches the helper. */
    method StartWork(resuming: bool, existingOnly: bool, polls: nat) returns (r: Result<Status, PutError>)
      requires Persistent() && NoData() && !journal.removed && journal.record.Some?
      requires found == if resuming then journal.record else None
      requires !resuming ==> !journal.record.value.closeIntent
      modifies link
      ensures Persistent() && NoData()
      ensures r.Ok? ==> Trusted(r.value) && Attached(r.value) && SameWire(r.value.order, upload.order)
      ensures r.Err? ==> !Dead(r.error) && (link.honest ==> Tolerable(r.error))
      ensures (Smooth() && !existingOnly && polls > 0
               && old(Willing(link.helper) && Prompt(link.helper) == link.helper && AcceptsOpen(link.helper)
                      && link.helper.pending == [])) ==>
        r.Ok? && Afoot() && r.value == Report(link.helper)
    {
      hide Persistent, NoData, Trusted, SameWire, Confirmed, LevelAt, Continues, AsksFor;
      var d := RequestedOrder(resuming);
      var stagedAs := OpenOrder(d);
      if stagedAs.Err? {
        return Err(stagedAs.error);
      }
      if link.helper.state == WorkState.Staged {
        PromptRests(link.helper);
      }
      hide Prompt;
      r := Launch(None, stagedAs.value, existingOnly, polls);
    }

    /** A first attempt asks for a fresh start, a later one to resume from the journal. */
    ghost predicate OrderFollowsJournal(d: Descriptor)
      reads journal
    {
      journal.record.Some? && SameBinding(d, upload.order)
      && (d.receiptless <==> journal.record.value.closeIntent)
    }

    function RequestedOrder(resuming: bool): (d: Descriptor)
      requires Persistent() && journal.record.Some?
      requires !resuming ==> !journal.record.value.closeIntent
      reads journal, link
      ensures OrderFollowsJournal(d)
      ensures AsksFor(upload, d, if resuming then journal.record else None)
    {
      if resuming then Resumed(journal.record.value) else upload.order
    }

    /** Starts the DOS helper when it is not running yet, and arms the pump. */
    method Launch(known: Option<Status>, state: WorkState, existingOnly: bool, polls: nat)
      returns (r: Result<Status, PutError>)
      requires Persistent() && NoData() && journal.record.Some? && !journal.removed
      requires known.Some? ==>
        && Trusted(known.value) && SameWire(known.value.order, upload.order) && known.value.state == state
        && (state == WorkState.Staged || state == Opening || Attached(known.value))
      modifies link
      ensures Persistent() && NoData()
      ensures r.Ok? ==> Trusted(r.value) && Attached(r.value) && SameWire(r.value.order, upload.order)
      ensures r.Err? ==> !Dead(r.error) && (link.honest ==> Tolerable(r.error))
      ensures Smooth() && !existingOnly && polls > 0 && old(CanLaunch(known, state)) ==>
        r.Ok? && Afoot() && r.value == Report(link.helper)
    {
      hide NoData, Persistent, Trusted, SameWire, Confirmed, LevelAt, Continues, Onward, Prompt, StreamedTo, Signalled;
      var status := known;
      var cancelled := CancelIfRequested();
      if cancelled.Some? {
        return Err(CancelledByCaller);
      }
      if state == WorkState.Staged {
        if existingOnly {
          return Err(StagedUnlaunched);
        }
        if Smooth() && CanLaunch(known, state) {
          StartsWhenLaunched();
        }
        var typed := Command(TypeLaunchLine);
        if typed.Some? {
          return Err(typed.value);
        }
        status := None;
      }
      if status.None? || status.value.state == Opening {
        var waited := WaitForHelper(polls);
        if waited.Err? {
          return waited;
        }
        status := Some(waited.value);
      } else {
        StillTrusted(status.value);
      }
      if link.honest {
        TrustedBinding(status.value);
      }
      if !SameWire(status.value.order, upload.order) {
        return Err(BindingChanged);
      }
      r := Arm(status.value);
    }

    /** The pump is armed for a worker that takes data. */
    method Arm(status: Status) returns (r: Result<Status, PutError>)
      requires Persistent() && NoData() && Trusted(status) && Attached(status)
      modifies link
      ensures Persistent() && NoData()
      ensures r.Ok? ==> r.value == status && Trusted(status)
      ensures r.Err? ==> !Dead(r.error) && Tolerable(r.error)
      ensures Smooth() && old(Eased(link.helper) && Serviceable(link.helper) && status == Report(link.helper)) ==>
        r.Ok? && Afoot() && status == Report(link.helper)
    {
      hide NoData, Persistent, Trusted, Confirmed, Onward, Prompt, StreamedTo, Signalled;
      if status.state == Ready || status.state == Transferring {
        var armed := Command(FastBegin);
        if armed.Some? {
          return Err(armed.value);
        }
        StillTrusted(status);
      }
      return Ok(status);
    }

    /**
     * One run.  Whatever the peer answers, data goes out once and in order, and success means
     * that every check was met; with an honest helper the run fails only for reasons outside
     * the transfer, and success means that the file on the MSX is the source.
     */
    method PutFile(existingOnly: bool, polls: nat) returns (r: Result<Receipt, PutError>)
      requires Persistent() && !journal.removed
      modifies this, journal, link
      ensures Persistent() && InOrder() && history == old(link.log)
      ensures r.Ok? ==> Streamed(upload.wire, link.log[|old(link.log)|..], r.value.start) == Some(|upload.wire|)
      ensures r.Ok? ==> r.value.final.state == Complete && r.value.final.durable == |upload.wire|
      ensures r.Ok? ==> r.value.final.crc == Crc32(upload.wire) && journal.removed
      ensures r.Ok? ==> r.value.final.wireVerified && r.value.final.finalVerified && r.value.final.published
      ensures r.Ok? && link.honest ==> link.helper.published && link.helper.target == Some(upload.source)
      ensures r.Err? ==> !Dead(r.error) && (link.honest ==> Excused(r.error))
      ensures found == old(journal.record)
      ensures r.Ok? ==> Said()
      ensures r == Err(TimedOut) && durable == |upload.wire| && accepted == |upload.wire| ==> NoData() || Said()
      ensures Smooth() && !existingOnly && polls > 0 && old(CanFinish()) ==>
        r.Ok?
    {
      hide Persistent, Crc32, Streamed, Truthful, Streaming, InOrder, Confirmed, LevelAt, Continues;
      history, found, streamStart := link.log, journal.record, 0;
      assert NoData();
      var connected := Connect(existingOnly, polls);
      NoDataStreams(upload.wire, link.log[|history|..], streamStart);
      MovedInOrder(streamStart);
      if connected.Err? {
        return Err(connected.error);
      }
      var recovered := Recover(connected.value);
      if recovered.Some? {
        return Err(recovered.value);
      }
      var pumped := Pump(connected.value, polls);
      if pumped.Err? {
        return Err(pumped.error);
      }
      r := Conclude(pumped.value);
    }

    /** The last CLOSE if none was sent, the final checks, and the end of the journal. */
    method Conclude(status: Status) returns (r: Result<Receipt, PutError>)
      requires Streaming() && status.state == Complete
      requires link.honest ==> Truthful(upload, status, link.helper)
      modifies journal, link
      ensures Persistent() && InOrder()
      ensures r.Ok? ==> StreamedTo(|upload.wire|) && r.value.start == streamStart
      ensures r.Ok? ==> r.value.final.state == Complete && r.value.final.durable == |upload.wire|
      ensures r.Ok? ==> r.value.final.crc == Crc32(upload.wire) && journal.removed
      ensures r.Ok? ==> r.value.final.wireVerified && r.value.final.finalVerified && r.value.final.published
      ensures r.Ok? && link.honest ==> link.helper.published && link.helper.target == Some(upload.source)
      ensures r.Err? ==> !Dead(r.error)
      ensures r.Err? && link.honest && status.durable == durable && status.crc == durableCrc ==> Tolerable(r.error)
      ensures r.Ok? ==> Said()
      ensures Smooth() && old(link.helper.state) == Complete
              && status.durable == durable && status.crc == durableCrc ==>
        r.Ok?
      ensures r != Err(TimedOut)
    {
      hide Persistent, Crc32, StreamedTo, InOrder, Accounted, Truthful, Said, Journalled, Registered, Backed, Signalled;
      Boundaries();
      MovedInOrder(accepted);
      WireSize();
      assert upload.wire[..|upload.wire|] == upload.wire;
      if link.honest {
        TruthfulWindow(upload, status, link.helper);
      }
      var error := LastClose(status);
      MovedInOrder(accepted);
      if error.Some? {
        return Err(error.value);
      }
      if link.honest {
        TruthfulWindow(upload, status, link.helper);
      }
      if durable != upload.order.wireSize || durableCrc != upload.order.wireCrc
         || status.durable != durable || status.crc != durableCrc
         || !status.wireVerified || !status.finalVerified || !status.published {
        return Err(NotPublished);
      }
      var removed := ForgetJournal();
      if !removed {
        return Err(StoppedWhileSaving);
      }
      if !measured {
        return Err(NotMeasured);
      }
      if link.honest {
        PublishedMeansSource();
      }
      return Ok(Receipt(streamStart, status));
    }

    /** CLOSE, unless it was sent as the end of the stream. */
    method LastClose(status: Status) returns (error: Option<PutError>)
      requires Streaming() && status.state == Complete
      requires link.honest ==> Truthful(upload, status, link.helper)
      modifies link
      ensures Persistent() && StreamedTo(accepted)
      ensures error.None? ==> Said()
      ensures link.honest ==> Truthful(upload, status, link.helper)
      ensures error.Some? ==> !Dead(error.value) && Tolerable(error.value) && error.value != TimedOut
      ensures Smooth() && old(link.helper.state) == Complete ==> error.None?
    {
      hide Persistent, StreamedTo, Accounted, Truthful, Later, Confirmed, LevelAt, Continues, Prompt, Journalled;
      if closeSent {
        return None;
      }
      if link.honest {
        TruthfulWindow(upload, status, link.helper);
        PublishedMeansIntent();
      }
      if link.helper.state == Complete {
        PromptRests(link.helper);
      }
      error := SendClose();
      if link.honest {
        TruthLasts(upload, status, old(link.helper), link.helper);
      }
    }

    method ForgetJournal() returns (removed: bool)
      requires Persistent()
      modifies journal
      ensures Persistent()
      ensures removed ==> journal.removed
      ensures journal.steady ==> removed
    {
      hide Sound, EarnedOpens, Planned, Confirmed, LevelAt, Continues;
      removed := journal.Remove();
    }

    lemma PublishedMeansIntent()
      requires Persistent() && link.honest && link.helper.published && !journal.removed
      ensures journal.record.Some? && journal.record.value.closeIntent
    {
      hide Crc32, Sound, Planned, Confirmed, LevelAt, Continues;
    }

    lemma PublishedMeansSource()
      requires Persistent() && link.honest && link.helper.published
      ensures link.helper.target == Some(upload.source)
    {
      hide Crc32, Planned, JournalSound, Confirmed, LevelAt, Continues;
    }
  }

  lemma {:induction false} NoDataStreams(wire: seq<Byte>, log: seq<Event>, start: nat)
    requires forall e <- log :: !e.Sent?
    ensures Streamed(wire, log, start) == Some(start)
    decreases |log|
  {
    if log != [] {
      NoDataStreams(wire, log[..|log| - 1], start);
      assert log[|log| - 1] in log;
    }
  }

  lemma TruthfulWindow(u: Upload, s: Status, h: Helper)
    requires Truthful(u, s, h)
    ensures s.accepted <= |u.wire| && s.accepted - s.durable <= WINDOW
    ensures Attached(s) ==> h.started && LevelAt(h, s.accepted)
    ensures s.state == Complete ==> h.published && s.durable == |u.wire|
                                    && s.wireVerified && s.finalVerified && s.published
  {
  }

  // ------------------------------------------------------------ any number of runs

  /** A helper that has never heard of this transfer; the target may already hold anything. */
  function Unaware(target: Option<seq<Byte>>): Helper {
    Helper(Idle, None, false, false, [], [], false, false, target)
  }

  lemma UnawareIsSound(u: Upload, target: Option<seq<Byte>>)
    ensures Sound(u, Unaware(target)) && JournalSound(u, None, false, Unaware(target))
  {
    hide Crc32, Restore;
    assert [] + [] <= u.wire;
  }

  datatype Call = Call(existingOnly: bool, polls: nat)

  /** The first call may start a worker and waits for it. */
  predicate Attempts(calls: seq<Call>) {
    calls != [] && !calls[0].existingOnly && calls[0].polls > 0
  }

  /**
   * The caller retries, reconnects or restarts the program as often as it likes.  Progress the
   * MSX made durable is never claimed too early, a replay without a receipt is asked for only
   * after the peer reported the whole wire durable, and success means publication.  As soon as
   * nothing goes wrong one call is enough, whatever state the earlier ones left.
   */
  method RunUntilPublished(session: PutSession, calls: seq<Call>) returns (published: bool)
    requires session.Persistent() && !session.journal.removed
    modifies session, session.journal, session.link
    ensures session.Persistent()
    ensures published && session.link.honest ==>
      session.link.helper.published && session.link.helper.target == Some(session.upload.source)
    ensures Attempts(calls) && session.Smooth() && old(session.CanFinish()) ==> published
  {
    for k := 0 to |calls|
      invariant session.Persistent() && !session.journal.removed
      invariant k > 0 ==> !(Attempts(calls) && session.Smooth() && old(session.CanFinish()))
      invariant k == 0 ==> unchanged(session, session.journal, session.link)
    {
      var receipt := session.PutFile(calls[k].existingOnly, calls[k].polls);
      if receipt.Ok? {
        return true;
      }
      if session.journal.removed {
        return false;
      }
    }
    return false;
  }

  /** What `Persistent` says about a pause between runs, in plain terms. */
  lemma BetweenRuns(session: PutSession)
    requires session.Persistent() && session.link.honest
    ensures var h, record := session.link.helper, session.journal.record;
            && h.committed + h.pending <= session.upload.wire
            && (record.Some? ==> record.value.offset <= |h.committed|)
            && (record.Some? ==> record.value.crc == Crc32(h.committed[..record.value.offset]))
            && (record.Some? && record.value.closeIntent ==> h.committed == session.upload.wire)
            && (h.published ==> h.target == Some(session.upload.source))
  {
    hide Crc32, Restore, Planned, EarnedOpens;
    var h, record := session.link.helper, session.journal.record;
    CommittedIsWire(session.upload, h);
    if record.Some? {
      assert h.committed[..record.value.offset] == session.upload.wire[..record.value.offset];
    }
  }

  /**
   * A whole upload: listing normalised, representation chosen, journal and link new, then any
   * number of runs.  A listing without a canonical form is never sent; anything else arrives when
   * nothing goes wrong and the target is free.
   */
  method UploadFile(source: seq<Byte>, mode: Mode, alreadyCompressed: bool, id: seq<Byte>, path: seq<Byte>,
                    honest: bool, obliging: bool, steady: bool, target: Option<seq<Byte>>, maxChunk: nat, ioChunk: nat,
                    calls: seq<Call>)
    returns (published: Option<seq<Byte>>)
    requires |id| == ID_SIZE && PrintablePath(path) && maxChunk > 0 && ioChunk > 0
    ensures honest && published.Some? ==> published == Destined(source, path)
    ensures Destined(source, path).None? ==> published.None?
    ensures honest && obliging && steady && target.None? && Sendable(source, path, mode) && Attempts(calls) ==>
      published.Some?
  {
    hide Crc32, Packed, Restore, Destined;
    var listing := PrepareBasicSource(source, path, ioChunk);
    if listing.Err? {
      return None;
    }
    var payload := listing.value;
    var prepared := PreparePut(payload, mode, alreadyCompressed, ioChunk, 0xFFFF_FFFF);
    if prepared.None? {
      return None;
    }
    var p := prepared.value;
    var order := Descriptor(Put, p.encoding, id, p.wireDigest.size, p.wireDigest.crc32, p.finalDigest.size,
                            p.finalDigest.crc32, path, 0, 0, false, false);
    var upload := Upload(order, p.wire, payload);
    RawKeepsBytes(p.encoding, p.wire, payload);
    var journal := new Journal(steady);
    var link := new Link(honest, obliging, Unaware(target));
    var session := new PutSession(upload, journal, link, maxChunk, ioChunk);
    UnawareIsSound(upload, target);
    var done := RunUntilPublished(session, calls);
    if !done {
      return None;
    }
    return link.helper.target;
  }

  /** The prepared source and its wire form are not too large for the protocol. */
  predicate Sendable(source: seq<Byte>, path: seq<Byte>, mode: Mode) {
    match Destined(source, path)
    case None => false
    case Some(payload) => |payload| <= 0xFFFF_FFFF && (mode == PackbitsOnly ==> |Packed(payload)| <= 0xFFFF_FFFF)
  }

  lemma RawKeepsBytes(encoding: Encoding, wire: seq<Byte>, source: seq<Byte>)
    requires Restore(encoding, wire) == Some(source)
    ensures encoding == Raw ==> wire == source
  {
  }

  lemma LaterKeepsProgress(before: Helper, after: Helper)
    requires Later(before, after)
    ensures |before.committed| <= |after.committed| && (before.started ==> after.started)
  {
  }

  lemma OnwardKeepsProgress(before: Helper, after: Helper)
    requires Onward(before, after)
    ensures |before.committed| <= |after.committed| && (before.started ==> after.started)
    ensures forall n: nat | LevelAt(before, n) :: LevelAt(after, n)
  {
  }

  lemma TruthfulShape(u: Upload, s: Status, h: Helper)
    requires Truthful(u, s, h)
    ensures !s.fault && SameWire(s.order, u.order) && s.durable <= |h.committed| && s.durable <= |u.wire|
    ensures s.crc == Crc32(u.wire[..s.durable])
  {
  }

  /** A helper that has committed every byte may be told so by the journal. */
  lemma IntentIsSound(u: Upload, record: Option<Record>, h: Helper)
    requires Sound(u, h) && JournalSound(u, record, false, h)
    requires h.started && |u.wire| <= |h.committed|
    requires |u.wire| == u.order.wireSize
    ensures JournalSound(u, Some(Record(Bare(u.order), u.order.wireSize, Crc32(u.wire), true)), false, h)
  {
    hide Crc32, Restore, SameBinding, SameWire;
    CommittedIsWire(u, h);
  }

  lemma PlannedSizes(u: Upload)
    requires Planned(u)
    ensures u.order.wireSize == |u.wire| && u.order.wireCrc == Crc32(u.wire)
    ensures u.order == Bare(u.order) && u.order.direction == Put
  {
  }
}
