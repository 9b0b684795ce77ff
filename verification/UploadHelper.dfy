/**
 * The MSX side of an upload, as agent/README.md describes it: a state machine that moves on
 * its own between host requests, and what one transfer keeps true of it.
 *
 * The host program is free to send anything; what an honest helper does with it is fixed here.
 */
module UploadHelper {
  import opened Octets
  import opened Bytes
  import opened Crc
  import opened PackBits
  import opened OpenCodec
  import opened TransferJournal
  import opened TransferReplies

  const WINDOW := 0x4000

  /**
   * `committed` is what DOS has written and ENSUREd for this transfer, under whatever name the
   * file has; `pending` is the accumulator.  `sidecar` says that the binding file is on disk.
   */
  datatype Helper = Helper(
    state: WorkState,
    order: Option<Descriptor>,
    started: bool,
    sidecar: bool,
    committed: seq<Byte>,
    pending: seq<Byte>,
    closed: bool,
    published: bool,
    target: Option<seq<Byte>>)

  /** What the helper, the DOS user or a power cut may do between two requests. */
  datatype Action =
    | Launch
    | ResumePartial
    | CreatePartial
    | AdoptTarget
    | Commit(count: nat)
    | Publish
    | RemoveSidecar
    | Finish
    | Stop(to: WorkState)
    | TargetAppears(file: seq<Byte>)

  predicate MayPublish(h: Helper) {
    && Running(h.state) && h.order.Some? && h.sidecar && h.closed && !h.published && h.target.None?
    && h.pending == []
    && |h.committed| == h.order.value.wireSize && Crc32(h.committed) == h.order.value.wireCrc
    && match Restore(h.order.value.encoding, h.committed)
       case None => false
       case Some(file) => |file| == h.order.value.finalSize && Crc32(file) == h.order.value.finalCrc
  }

  /** The only path to success without a sidecar: the bit is set and the target's digest agrees. */
  predicate MayAdopt(h: Helper) {
    && h.state == Opening && !h.sidecar && h.order.Some? && h.order.value.receiptless
    && h.target.Some?
    && |h.target.value| == h.order.value.finalSize && Crc32(h.target.value) == h.order.value.finalCrc
  }

  predicate Enabled(h: Helper, a: Action) {
    match a
    case Launch => h.state == WorkState.Staged
    case ResumePartial => h.state == Opening && h.sidecar && !h.published
    case CreatePartial => h.state == Opening && !h.sidecar && h.order.Some? && !h.order.value.receiptless
    case AdoptTarget => MayAdopt(h)
    case Commit(count) => Running(h.state) && count <= |h.pending|
    case Publish => MayPublish(h)
    case RemoveSidecar => h.state == Postprocess && h.published
    case Finish => (h.state == Postprocess || (h.state == Opening && h.sidecar)) && h.published
    case Stop(to) => to == Idle || to == Failed || to == Cancelled || (to == Suspended && h.started && h.order.Some?)
    case TargetAppears(_) => h.target.None?
  }

  function Do(h: Helper, a: Action): Helper {
    match a
    case Launch => h.(state := Opening)
    case ResumePartial => h.(state := Ready, pending := [])
    case CreatePartial =>
      h.(state := Ready, started := true, sidecar := true, committed := [], pending := [], closed := false)
    case AdoptTarget => h.(state := Complete)
    case Commit(count) =>
      if count <= |h.pending|
      then h.(committed := h.committed + h.pending[..count], pending := h.pending[count..])
      else h
    case Publish =>
      if h.order.Some?
      then h.(state := Postprocess, published := true, target := Restore(h.order.value.encoding, h.committed))
      else h
    case RemoveSidecar => h.(sidecar := false)
    case Finish => h.(state := Complete)
    case Stop(to) => h.(state := to, pending := [], closed := false)
    case TargetAppears(file) => h.(target := Some(file))
  }

  function Act(h: Helper, a: Action): Helper {
    if Enabled(h, a) then Do(h, a) else h
  }

  /** Any number of moves. */
  function Play(h: Helper, script: seq<Action>): Helper
    decreases |script|
  {
    if script == [] then h else Play(Act(h, script[0]), script[1..])
  }

  // ------------------------------------------------------------ requests, honestly served

  function Clip(n: nat): Long {
    if n < 0x1_0000_0000 then n else 0xFFFF_FFFF
  }

  function Report(h: Helper): Status
    requires h.order.Some?
  {
    var d := h.order.value;
    if h.state == Complete then Status(Complete, false, d, d.wireSize, d.wireSize, d.wireCrc, true, true, true)
    else Status(h.state, false, d, Clip(|h.committed|), Clip(|h.committed| + |h.pending|), Crc32(h.committed),
                false, false, false)
  }

  predicate AcceptsOpen(h: Helper) {
    Released(h.state)
  }

  function Open(h: Helper, d: Descriptor): Helper {
    h.(state := WorkState.Staged, order := Some(d), pending := [], closed := false)
  }

  predicate AcceptsData(h: Helper, offset: nat, block: seq<Byte>) {
    && (h.state == Ready || h.state == Transferring) && h.order.Some?
    && offset == |h.committed| + |h.pending|
    && |h.pending| + |block| <= WINDOW
    && offset + |block| <= h.order.value.wireSize
  }

  function Retain(h: Helper, block: seq<Byte>): Helper {
    h.(state := Transferring, pending := h.pending + block)
  }

  predicate AcceptsClose(h: Helper) {
    || h.state == Complete
    || (Running(h.state) && h.order.Some? && |h.committed| == h.order.value.wireSize && h.pending == [])
  }

  function CloseFile(h: Helper): Helper {
    if h.state == Complete || h.state == Postprocess then h else h.(state := Verifying, closed := true)
  }

  // ------------------------------------------------------------ one upload

  /** The staged wire bytes, the file they restore, and the descriptor that declares both. */
  datatype Upload = Upload(order: Descriptor, wire: seq<Byte>, source: seq<Byte>)

  predicate Planned(u: Upload) {
    && OpenCodec.Valid(u.order) && u.order == Bare(u.order) && u.order.direction == Put
    && u.order.wireSize == |u.wire| && u.order.wireCrc == Crc32(u.wire)
    && u.order.finalSize == |u.source| && u.order.finalCrc == Crc32(u.source)
    && Restore(u.order.encoding, u.wire) == Some(u.source)
  }

  /** Progress an honest helper has made on this upload. */
  predicate Sound(u: Upload, h: Helper) {
    && h.committed + h.pending <= u.wire && |h.pending| <= WINDOW
    && (!h.started ==> h.committed == [] && h.pending == [] && !h.sidecar && !h.published)
    && (h.started && !h.sidecar ==> h.published)
    && (h.published ==> h.target == Some(u.source) && h.committed == u.wire && h.pending == [])
    && (Running(h.state) || h.state == Suspended ==> h.started)
    && (h.state == Complete ==> h.published)
    && (h.order.None? ==> h.state == Idle || h.state == Failed || h.state == Cancelled)
    && (h.order.Some? ==> OrderSound(u, h, h.order.value))
    && PhaseSound(u, h)
  }

  /** How far a transfer has come in each state of its worker. */
  predicate PhaseSound(u: Upload, h: Helper) {
    && (h.published && Running(h.state) ==> h.state == Postprocess)
    && (h.state == Postprocess ==> h.published)
    && (h.state == Verifying ==> h.closed && h.committed == u.wire)
    && (h.closed ==> h.state == Verifying || h.state == Postprocess || h.state == Complete)
    && (h.pending != [] ==> Running(h.state))
  }

  /** A staged order belongs to this upload, and its receiptless bit was earned. */
  predicate OrderSound(u: Upload, h: Helper, d: Descriptor) {
    && SameBinding(d, u.order)
    && (d.receiptless ==> h.started && h.committed == u.wire)
    && ((h.state == WorkState.Staged || h.state == Opening) && !d.receiptless && !h.sidecar ==> !h.started)
  }

  /** What the journal may say about the helper. */
  predicate JournalSound(u: Upload, record: Option<Record>, removed: bool, h: Helper) {
    && (record.Some? ==> record.value.offset <= |h.committed|)
    && (record.Some? && record.value.closeIntent ==> h.started && h.committed == u.wire)
    && (h.closed || h.published ==> removed || (record.Some? && record.value.closeIntent))
    && (record.None? && !removed ==> !h.started && h.order.None?)
  }

  /** `after` is a later state of the helper than `before`. */
  predicate Later(before: Helper, after: Helper) {
    && before.committed <= after.committed
    && (before.started ==> after.started)
    && (before.published ==> after.published && after.target == before.target)
  }

  // ------------------------------------------------------------ the accepted offset

  predicate Live(s: WorkState) {
    Running(s) || s == Complete
  }

  predicate Stopped(s: WorkState) {
    s == Idle || s == Suspended || s == Failed || s == Cancelled
  }

  /** Bytes taken from the host, on the disk or in the accumulator. */
  function Taken(h: Helper): nat {
    |h.committed| + |h.pending|
  }

  /** The helper has taken `n` bytes, or it stopped and has kept at most those. */
  predicate LevelAt(h: Helper, n: nat) {
    if Live(h.state) then Taken(h) == n else Stopped(h.state) && Taken(h) <= n
  }

  /** Without an OPEN or data in between, the bytes taken only change when the helper stops. */
  predicate Continues(before: Helper, after: Helper) {
    && (Live(before.state) || Stopped(before.state) ==> LevelAt(after, Taken(before)))
    && (Stopped(before.state) ==> Stopped(after.state))
  }

  lemma ContinuesTransitive(a: Helper, b: Helper, c: Helper)
    requires Continues(a, b) && Continues(b, c)
    ensures Continues(a, c)
  {
  }

  lemma ActContinues(h: Helper, a: Action)
    ensures Continues(h, Act(h, a))
  {
    hide Crc32, Restore;
  }

  lemma {:induction false} PlayContinues(h: Helper, script: seq<Action>)
    ensures Continues(h, Play(h, script))
    decreases |script|
  {
    hide Continues, Act;
    if script == [] {
      StandsStill(h);
    } else {
      ActContinues(h, script[0]);
      PlayContinues(Act(h, script[0]), script[1..]);
      ContinuesTransitive(h, Act(h, script[0]), Play(h, script));
    }
  }

  lemma StandsStill(h: Helper)
    ensures Continues(h, h)
  {
  }

  // ------------------------------------------------------------ what the helper keeps by itself

  lemma PublishRestores(u: Upload, h: Helper)
    requires Planned(u) && Sound(u, h) && MayPublish(h)
    ensures Do(h, Publish).target == Some(u.source) && h.committed == u.wire
  {
    hide Crc32, Restore;
    assert h.committed == u.wire;
  }

  /** Moving bytes from one sequence to the other; with none to move nothing changes. */
  lemma BytesMove(committed: seq<Byte>, pending: seq<Byte>, count: nat)
    requires count <= |pending|
    ensures var longer, rest := committed + pending[..count], pending[count..];
            longer + rest == committed + pending && |rest| <= |pending| && committed <= longer
  {
    assert pending == pending[..count] + pending[count..];
  }

  lemma NothingMoves(committed: seq<Byte>)
    ensures committed + [] == committed
  {
  }

  lemma CommitDone(h: Helper, count: nat)
    requires count <= |h.pending|
    ensures Do(h, Commit(count)) == h.(committed := h.committed + h.pending[..count], pending := h.pending[count..])
  {
    hide Restore;
  }

  lemma CommitMoves(h: Helper, count: nat)
    requires count <= |h.pending|
    ensures var next := Do(h, Commit(count));
            && next.committed + next.pending == h.committed + h.pending
            && |next.pending| <= |h.pending| && h.committed <= next.committed
            && (h.pending == [] ==> next == h)
  {
    hide Do;
    CommitDone(h, count);
    BytesMove(h.committed, h.pending, count);
    if h.pending == [] {
      assert h.pending[..count] == [] && h.pending[count..] == [];
      NothingMoves(h.committed);
    }
  }

  lemma NothingPendingAtEnd(u: Upload, h: Helper)
    requires Sound(u, h) && h.committed == u.wire
    ensures h.pending == []
  {
    assert |h.committed + h.pending| <= |u.wire|;
  }

  lemma CommitKeeps(u: Upload, h: Helper, count: nat)
    requires Sound(u, h) && Enabled(h, Commit(count))
    ensures Sound(u, Do(h, Commit(count)))
    ensures Later(h, Do(h, Commit(count)))
  {
    hide SameBinding, Crc32, Restore;
    CommitMoves(h, count);
    if h.committed == u.wire {
      NothingPendingAtEnd(u, h);
    }
  }

  lemma ActKeepsPhase(u: Upload, h: Helper, a: Action)
    requires Planned(u) && Sound(u, h)
    ensures PhaseSound(u, Act(h, a))
  {
    hide Crc32, Restore, SameBinding, Planned;
    if a.Commit? && h.committed == u.wire {
      NothingPendingAtEnd(u, h);
    }
    if a.Publish? && Enabled(h, a) {
      PublishRestores(u, h);
    }
    assert h.committed + [] == h.committed;
  }

  lemma ActKeepsSound(u: Upload, record: Option<Record>, removed: bool, h: Helper, a: Action)
    requires Planned(u) && Sound(u, h) && JournalSound(u, record, removed, h)
    ensures Sound(u, Act(h, a)) && Later(h, Act(h, a))
  {
    hide Crc32, Restore, SameBinding, Planned, PhaseSound;
    ActKeepsPhase(u, h, a);
    if Enabled(h, a) {
      match a
      case Publish => PublishRestores(u, h);
      case Commit(count) => CommitKeeps(u, h, count);
      case _ =>
        CommittedIsWire(u, h);
        assert h.committed + [] == h.committed;
    }
  }

  lemma ActKeepsJournal(u: Upload, record: Option<Record>, removed: bool, h: Helper, a: Action)
    requires Sound(u, h) && Later(h, Act(h, a)) && Act(h, a).committed <= u.wire
    requires JournalSound(u, record, removed, h)
    ensures JournalSound(u, record, removed, Act(h, a))
  {
    hide Crc32, Restore, SameBinding;
  }

  /** Whatever the helper does by itself, the upload stays sound and never loses progress. */
  lemma {:induction false} PlayKeeps(u: Upload, record: Option<Record>, removed: bool, h: Helper,
                                     script: seq<Action>)
    requires Planned(u) && Sound(u, h) && JournalSound(u, record, removed, h)
    ensures Sound(u, Play(h, script)) && JournalSound(u, record, removed, Play(h, script))
    ensures Later(h, Play(h, script))
    decreases |script|
  {
    hide Sound, JournalSound, Act, Planned;
    if script != [] {
      var next := Act(h, script[0]);
      ActKeepsSound(u, record, removed, h, script[0]);
      assert next.committed <= u.wire by {
        CommittedIsWire(u, next);
      }
      ActKeepsJournal(u, record, removed, h, script[0]);
      PlayKeeps(u, record, removed, next, script[1..]);
    }
  }

  lemma CommittedIsWire(u: Upload, h: Helper)
    requires Sound(u, h)
    ensures h.committed <= u.wire && |h.committed| + |h.pending| <= |u.wire|
  {
    assert h.committed <= h.committed + h.pending;
  }

  // ------------------------------------------------------------ what a request may rely on

  /** An OPEN built from the journal keeps the upload sound. */
  lemma OpenKeeps(u: Upload, record: Option<Record>, h: Helper, d: Descriptor)
    requires Sound(u, h) && JournalSound(u, record, false, h) && AcceptsOpen(h)
    requires record.Some? && SameBinding(d, u.order)
    requires d.receiptless <==> record.value.closeIntent
    ensures Sound(u, Open(h, d)) && JournalSound(u, record, false, Open(h, d)) && Later(h, Open(h, d))
  {
    hide Crc32, Restore, SameBinding;
    assert h.committed <= u.wire by {
      CommittedIsWire(u, h);
    }
  }

  /** The next block of the wire, retained. */
  lemma RetainKeeps(u: Upload, record: Option<Record>, removed: bool, h: Helper, offset: nat, block: seq<Byte>)
    requires Sound(u, h) && JournalSound(u, record, removed, h) && AcceptsData(h, offset, block)
    requires offset + |block| <= |u.wire| && block == u.wire[offset..offset + |block|]
    ensures Sound(u, Retain(h, block)) && JournalSound(u, record, removed, Retain(h, block))
    ensures Later(h, Retain(h, block))
  {
    hide Crc32, Restore, SameBinding;
    var next := Retain(h, block);
    assert next.committed + next.pending == (h.committed + h.pending) + block;
    assert h.committed + h.pending == u.wire[..offset];
    assert next.committed + next.pending == u.wire[..offset + |block|];
  }

  /** A CLOSE sent under a journalled intent. */
  lemma CloseKeeps(u: Upload, record: Option<Record>, h: Helper)
    requires Sound(u, h) && JournalSound(u, record, false, h) && AcceptsClose(h)
    requires record.Some? && record.value.closeIntent
    ensures Sound(u, CloseFile(h)) && JournalSound(u, record, false, CloseFile(h))
    ensures Later(h, CloseFile(h))
  {
    hide Crc32, Restore, SameBinding;
  }

  lemma CloseContinues(h: Helper)
    requires AcceptsClose(h)
    ensures Continues(h, CloseFile(h))
  {
  }

  // ------------------------------------------------------------ a prompt helper

  /** What is in nobody's way: the target is free, or holds what this transfer published. */
  predicate Willing(h: Helper) {
    h.target.None? || h.published
  }

  predicate Serviceable(h: Helper) {
    Engaged(h.state) && h.state != Suspended && h.order.Some?
  }

  /** Everything a worker can do without being asked, in the order in which it comes. */
  function Prompt(h: Helper): Helper {
    Play(h, [Finish, AdoptTarget, CreatePartial, ResumePartial, Commit(|h.pending|), Publish, RemoveSidecar, Finish])
  }

  function Committed(h: Helper): Helper {
    h.(committed := h.committed + h.pending, pending := [])
  }

  /** What comes of it: launched work is taken up, received data is written, closed work is published. */
  ghost predicate Prompted(u: Upload, h: Helper, after: Helper) {
    match h.state
    case Opening =>
      if h.published then after == h.(state := Complete)
      else if h.sidecar then after == h.(state := Ready)
      else after == h.(state := Ready, started := true, sidecar := true, closed := false)
    case Ready => after == Committed(h)
    case Transferring => after == Committed(h)
    case Verifying => after.state == Complete && after.published && after.order == h.order
    case Postprocess => after.state == Complete && after.published && after.order == h.order
    case _ => after == h
  }

  lemma PlayedThrough(h: Helper)
    ensures Prompt(h)
         == Act(Act(Act(Act(Act(Act(Act(Act(h, Finish), AdoptTarget), CreatePartial), ResumePartial),
                            Commit(|h.pending|)), Publish), RemoveSidecar), Finish)
  {
    hide Act;
    var script := [Finish, AdoptTarget, CreatePartial, ResumePartial, Commit(|h.pending|), Publish, RemoveSidecar,
                   Finish];
    var x := Act(Act(Act(Act(h, Finish), AdoptTarget), CreatePartial), ResumePartial);
    PlayFour(h, Finish, AdoptTarget, CreatePartial, ResumePartial, script[4..]);
    assert script == [Finish, AdoptTarget, CreatePartial, ResumePartial] + script[4..];
    PlayFour(x, Commit(|h.pending|), Publish, RemoveSidecar, Finish, []);
    assert script[4..] == [Commit(|h.pending|), Publish, RemoveSidecar, Finish] + [];
  }

  lemma PlayOne(h: Helper, a: Action, rest: seq<Action>)
    ensures Play(h, [a] + rest) == Play(Act(h, a), rest)
  {
    hide Act;
    assert ([a] + rest)[1..] == rest;
  }

  lemma OneByOne(a: Action, b: Action, c: Action, d: Action, rest: seq<Action>)
    ensures [a, b, c, d] + rest == [a] + ([b] + ([c] + ([d] + rest)))
  {
  }

  lemma PlayFour(h: Helper, a: Action, b: Action, c: Action, d: Action, rest: seq<Action>)
    ensures Play(h, [a, b, c, d] + rest) == Play(Act(Act(Act(Act(h, a), b), c), d), rest)
  {
    hide Act, Play;
    OneByOne(a, b, c, d, rest);
    PlayOne(h, a, [b] + ([c] + ([d] + rest)));
    PlayOne(Act(h, a), b, [c] + ([d] + rest));
    PlayOne(Act(Act(h, a), b), c, [d] + rest);
    PlayOne(Act(Act(Act(h, a), b), c), d, rest);
  }

  lemma ClosedWorkIsPublished(u: Upload, h: Helper)
    requires Planned(u) && Sound(u, h) && Willing(h) && h.state == Verifying
    ensures MayPublish(h)
  {
    hide Crc32, Restore;
    NothingPendingAtEnd(u, h);
  }

  lemma ReceiptlessIsAdopted(u: Upload, h: Helper)
    requires Planned(u) && Sound(u, h) && h.state == Opening && h.published && !h.sidecar
    ensures MayAdopt(h)
  {
    hide Crc32, Restore;
  }

  /** A helper that nothing hinders does what it should. */
  lemma PromptDoesIt(u: Upload, h: Helper)
    requires Planned(u) && Sound(u, h) && Willing(h)
    ensures Prompted(u, h, Prompt(h))
  {
    hide Crc32, Restore, Sound, Planned, Prompt, Willing;
    match h.state
    case Opening => PromptOpens(u, h);
    case Ready => PromptCommits(u, h);
    case Transferring => PromptCommits(u, h);
    case Verifying => PromptPublishes(u, h);
    case Postprocess => PromptFinishes(u, h);
    case _ => PromptRests(h);
  }

  lemma PromptRests(h: Helper)
    requires !Running(h.state) && h.state != Opening
    ensures Prompt(h) == h
  {
    PlayedThrough(h);
    hide Play;
  }

  lemma PromptCommits(u: Upload, h: Helper)
    requires Sound(u, h) && (h.state == Ready || h.state == Transferring)
    ensures Prompt(h) == Committed(h)
  {
    hide Crc32, Restore, Play;
    PlayedThrough(h);
    var next := Act(h, Commit(|h.pending|));
    assert next == Committed(h);
    assert Act(Act(Act(Act(h, Finish), AdoptTarget), CreatePartial), ResumePartial) == h;
    assert Act(next, Publish) == next && Act(next, RemoveSidecar) == next && Act(next, Finish) == next;
  }

  /** A helper with nothing left to do by itself. */
  predicate Eased(h: Helper) {
    && Willing(h) && h.pending == [] && Prompt(h) == h
    && h.state != Opening && h.state != Verifying && h.state != Postprocess && h.state != Suspended
  }

  lemma PromptEases(u: Upload, record: Option<Record>, h: Helper)
    requires Planned(u) && Sound(u, h) && JournalSound(u, record, false, h) && Willing(h) && h.state != Suspended
    ensures Eased(Prompt(h)) && Sound(u, Prompt(h)) && JournalSound(u, record, false, Prompt(h))
    ensures Engaged(h.state) || h.state == Opening ==> Engaged(Prompt(h).state) && Prompt(h).order == h.order
    ensures !Engaged(h.state) && h.state != Opening ==> Prompt(h) == h
  {
    hide Crc32, Restore, Sound, JournalSound, Planned, Prompt;
    PromptDoesIt(u, h);
    PromptKeeps(u, record, h);
    PendingIsRunning(u, h);
    var after := Prompt(h);
    PendingIsRunning(u, after);
    if after.state == Ready || after.state == Transferring {
      AtRest(u, after);
    } else {
      PromptRests(after);
    }
  }

  lemma PendingIsRunning(u: Upload, h: Helper)
    requires Sound(u, h)
    ensures h.pending != [] ==> Running(h.state)
  {
    hide Crc32, Restore;
  }

  lemma PromptKeeps(u: Upload, record: Option<Record>, h: Helper)
    requires Planned(u) && Sound(u, h) && JournalSound(u, record, false, h)
    ensures Sound(u, Prompt(h)) && JournalSound(u, record, false, Prompt(h))
  {
    hide Sound, JournalSound, Planned, Play;
    PlayKeeps(u, record, false, h, [Finish, AdoptTarget, CreatePartial, ResumePartial, Commit(|h.pending|), Publish,
                                    RemoveSidecar, Finish]);
  }

  /** A staged order is taken up as soon as it is launched. */
  lemma LaunchStarts(u: Upload, record: Option<Record>, h: Helper)
    requires Planned(u) && Sound(u, h) && JournalSound(u, record, false, h) && Willing(h)
    requires h.state == WorkState.Staged
    ensures Prompt(h) == h
    ensures var after := Prompt(h.(state := Opening)); Eased(after) && Serviceable(after)
  {
    hide Crc32, Restore, Sound, JournalSound, Planned, Prompt;
    PromptRests(h);
    HasOrder(u, h);
    var launched := Act(h, Launch);
    ActKeepsSound(u, record, false, h, Launch);
    CommittedIsWire(u, launched);
    ActKeepsJournal(u, record, false, h, Launch);
    PromptEases(u, record, launched);
  }

  /** A prompt helper that has written everything takes the next block and writes it. */
  lemma PromptTakes(u: Upload, record: Option<Record>, h: Helper, block: seq<Byte>)
    requires Planned(u) && Sound(u, h) && JournalSound(u, record, false, h)
    requires (h.state == Ready || h.state == Transferring) && h.pending == [] && |block| <= WINDOW
    requires |h.committed| + |block| <= |u.wire| && block == u.wire[|h.committed|..|h.committed| + |block|]
    ensures Prompt(h) == h && AcceptsData(h, |h.committed|, block)
    ensures var after := Prompt(Retain(h, block));
            && after.state == Transferring && after.pending == [] && |after.committed| == |h.committed| + |block|
            && after.target == h.target && after.published == h.published && after.order == h.order
  {
    hide Crc32, Restore, Prompt, Sound, JournalSound;
    AtRest(u, h);
    HasOrder(u, h);
    RetainKeeps(u, record, false, h, |h.committed|, block);
    PromptCommits(u, Retain(h, block));
  }

  lemma HasOrder(u: Upload, h: Helper)
    requires Planned(u) && Sound(u, h) && (Engaged(h.state) || h.state == Opening || h.state == WorkState.Staged)
    ensures h.order.Some? && h.order.value.wireSize == |u.wire|
  {
    hide Crc32, Restore;
  }

  lemma AtRest(u: Upload, h: Helper)
    requires Sound(u, h) && (h.state == Ready || h.state == Transferring) && h.pending == []
    ensures Prompt(h) == h
  {
    hide Crc32, Restore, Prompt;
    PromptCommits(u, h);
    assert h.committed + [] == h.committed;
  }

  lemma PromptPublishes(u: Upload, h: Helper)
    requires Planned(u) && Sound(u, h) && Willing(h) && h.state == Verifying
    ensures var after := Prompt(h); after.state == Complete && after.published && after.order == h.order
  {
    hide Crc32, Restore, Play, MayPublish;
    PlayedThrough(h);
    NothingPendingAtEnd(u, h);
    assert h.committed + [] == h.committed;
    assert Act(Act(Act(Act(h, Finish), AdoptTarget), CreatePartial), ResumePartial) == h;
    assert Act(h, Commit(|h.pending|)) == h;
    ClosedWorkIsPublished(u, h);
    var shown := Act(h, Publish);
    assert shown.state == Postprocess && shown.published && shown.order == h.order;
    assert Act(Act(shown, RemoveSidecar), Finish) == shown.(sidecar := false, state := Complete);
  }

  lemma PromptFinishes(u: Upload, h: Helper)
    requires Sound(u, h) && h.state == Postprocess
    ensures var after := Prompt(h); after.state == Complete && after.published && after.order == h.order
  {
    hide Crc32, Restore, Play;
    PlayedThrough(h);
  }

  lemma PromptOpens(u: Upload, h: Helper)
    requires Planned(u) && Sound(u, h) && h.state == Opening
    ensures Prompted(u, h, Prompt(h))
  {
    hide Crc32, Restore, Play, Planned;
    PlayedThrough(h);
    assert h.pending == [] && h.committed + [] == h.committed;
    if h.published && !h.sidecar {
      ReceiptlessIsAdopted(u, h);
    }
  }

  /** What an honest status says, and keeps saying of the helper's future. */
  predicate Truthful(u: Upload, s: Status, h: Helper) {
    && !s.fault && SameBinding(s.order, u.order)
    && s.durable <= s.accepted <= |u.wire| && s.accepted - s.durable <= WINDOW
    && s.durable <= |h.committed| && s.crc == Crc32(u.wire[..s.durable])
    && (Attached(s) ==> h.started && LevelAt(h, s.accepted))
    && (s.state == Complete ==> h.published && s.durable == |u.wire|
                                && s.wireVerified && s.finalVerified && s.published)
  }

  /** Later, with the same order still staged. */
  predicate Onward(before: Helper, after: Helper) {
    Later(before, after) && Continues(before, after)
  }

  lemma ReportIsTruthful(u: Upload, h: Helper)
    requires Planned(u) && Sound(u, h) && h.order.Some?
    ensures WellFormed(Report(h)) && Truthful(u, Report(h), h)
  {
    hide Crc32, Restore;
    CommittedIsWire(u, h);
    assert u.wire[..|h.committed|] == h.committed;
    assert u.wire[..|u.wire|] == u.wire;
  }

  lemma TruthLasts(u: Upload, s: Status, before: Helper, after: Helper)
    requires Truthful(u, s, before) && Onward(before, after)
    ensures Truthful(u, s, after)
  {
    hide Crc32, SameBinding;
  }

  lemma ReportCoversCommitted(u: Upload, h: Helper)
    requires Planned(u) && Sound(u, h) && h.order.Some?
    ensures |h.committed| <= Report(h).durable && Report(h).accepted == Taken(h)
    ensures Report(h).state == h.state
  {
    hide Crc32, Restore;
    CommittedIsWire(u, h);
  }
}
