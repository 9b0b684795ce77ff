/**
 * The ownership of a bounded pause around one snapshot.  The peer may answer anything, lose
 * anything, and the session may be write-quarantined at any exchange.
 */
module SnapshotLease {
  import opened Bytes

  datatype State = Running | Paused | Monitor | Other(code: nat)

  /** What happened on the link, in order; `Body` stands for everything the caller did inside. */
  datatype Event =
    | Status(state: Option<State>)
    | Pause(acknowledged: bool)
    | Resume(acknowledged: bool)
    | Rebootstrap(ok: bool)
    | Body(ok: bool)

  datatype Mode = Resident | ForegroundMonitor | Bootstrap

  datatype LeaseError =
    | StillOwned | NeedsLease | NeedsPollSafe | LinkFailed | CannotAcquire(state: State) | NotPaused(state: State)
    | BodyFailed | Expired | EndedIn(state: State) | WriteQuarantined | CouldNotResume

  const PAUSE_ATTEMPTS := 2
  const RECOVERY_ATTEMPTS := 2

  // ------------------------------------------------------------ what a log may contain

  predicate PausedBefore(log: seq<Event>, n: nat)
    requires n <= |log|
  {
    exists j: nat :: j < n && log[j].Pause?
  }

  /** A resume is sent only after a pause was sent. */
  predicate ResumesFollowPauses(log: seq<Event>) {
    forall i: nat | i < |log| && log[i].Resume? :: PausedBefore(log, i)
  }

  predicate Quiet(log: seq<Event>) {
    forall e <- log :: !e.Resume? && !e.Pause?
  }

  /** The snapshot ran between two reports that the target was paused, after a pause was sent. */
  predicate HeldAt(log: seq<Event>, k: nat) {
    && k + 2 < |log|
    && log[k] == Status(Some(Paused)) && log[k + 1] == Body(true) && log[k + 2] == Status(Some(Paused))
    && PausedBefore(log, k)
  }

  ghost predicate HeldThroughout(log: seq<Event>) {
    exists k: nat :: HeldAt(log, k)
  }

  /** One more event after a pause was sent, or a pause itself. */
  lemma SafeStep(run: seq<Event>, e: Event)
    requires ResumesFollowPauses(run) && (PausedBefore(run, |run|) || e.Pause?)
    ensures ResumesFollowPauses(run + [e]) && PausedBefore(run + [e], |run| + 1)
  {
    var longer := run + [e];
    if e.Pause? {
      assert longer[|run|].Pause?;
    } else {
      var p: nat :| p < |run| && run[p].Pause?;
      assert longer[p].Pause?;
    }
    forall i: nat | i < |longer| && longer[i].Resume? ensures PausedBefore(longer, i) {
      if i < |run| {
        assert run[i].Resume?;
        var j: nat :| j < i && run[j].Pause?;
        assert longer[j].Pause?;
      } else {
        var j: nat :| j < |run| && run[j].Pause?;
        assert longer[j].Pause?;
      }
    }
  }

  /** The target acknowledged a resume or said that it was running. */
  predicate Released(log: seq<Event>) {
    exists e <- log :: e == Resume(true) || e == Status(Some(Running))
  }

  // ------------------------------------------------------------ why a lease fails

  /** What the log shows when a lease ends in this error; `q` says that writes are quarantined. */
  ghost predicate Because(e: LeaseError, run: seq<Event>, q: bool) {
    match e
    case StillOwned => run == []
    case NeedsPollSafe => run == []
    case NeedsLease => run == [] || (exists s :: run == [Status(Some(s))] && s != Paused && s != Monitor)
    case LinkFailed => q || Status(None) in run || Pause(false) in run
    case CannotAcquire(s) => run == [Status(Some(s))] && s != Running && s != Paused && s != Monitor
    case NotPaused(s) => exists k: nat :: RefusedAt(run, k, s)
    case BodyFailed => Body(false) in run
    case Expired => |run| >= 2 && run[|run| - 2] == Body(true) && run[|run| - 1] == Status(Some(Running))
    case EndedIn(s) => exists k: nat :: EndsAt(run, k, s)
    case WriteQuarantined => q
    case CouldNotResume => HeldUntil(run, Some(CouldNotResume))
  }

  /** A pause was acknowledged and the target is not paused; running is reported only after a second try. */
  predicate RefusedAt(run: seq<Event>, k: nat, s: State) {
    && k + 1 < |run| && run[k] == Pause(true) && run[k + 1] == Status(Some(s)) && s != Paused
    && (s == Running ==> k >= 2 && run[k - 2] == Pause(true) && run[k - 1] == Status(Some(Running)))
  }

  predicate EndsAt(run: seq<Event>, k: nat, s: State) {
    k + 1 < |run| && run[k] == Body(true) && run[k + 1] == Status(Some(s)) && s != Running && s != Paused
  }

  /** A reconnection after which the target runs: it did, or it was paused and is resumed. */
  predicate Recovered(run: seq<Event>) {
    || run == [Rebootstrap(true), Status(Some(Running))]
    || run == [Rebootstrap(true), Status(Some(Paused)), Resume(true), Status(Some(Running))]
  }

  /** One that failed somewhere on the way. */
  predicate RecoveryFailed(run: seq<Event>) {
    || run == [Rebootstrap(false)]
    || (|run| == 2 && run[0] == Rebootstrap(true) && run[1].Status?
        && run[1].state != Some(Running) && run[1].state != Some(Paused))
    || run == [Rebootstrap(true), Status(Some(Paused)), Resume(false)]
    || (|run| == 4 && run[..3] == [Rebootstrap(true), Status(Some(Paused)), Resume(true)]
        && run[3].Status? && run[3].state != Some(Running))
  }

  /** `g` first, if there is a session; then a reconnection, and one more. */
  ghost predicate ReleaseTrace(run: seq<Event>, alive: bool, error: Option<LeaseError>) {
    var g := if alive then [Resume(false)] else [];
    match error
    case None =>
      || (alive && run == [Resume(true)])
      || (exists a :: Recovered(a) && run == g + a)
      || (exists a, b :: RecoveryFailed(a) && Recovered(b) && run == g + a + b)
    case Some(_) => exists a, b :: RecoveryFailed(a) && RecoveryFailed(b) && run == g + a + b
  }

  /** The snapshot was held, and then released, or not, by exactly the prescribed steps. */
  ghost predicate HeldUntil(run: seq<Event>, error: Option<LeaseError>) {
    exists k: nat :: HeldAt(run, k) && ReleaseTrace(run[k + 3..], true, error)
  }

  /** The pause that was sent is released, or was tried to be, by exactly the prescribed steps. */
  ghost predicate CleanedUp(run: seq<Event>, owned: bool) {
    exists k: nat :: k <= |run| && PausedBefore(run, k)
                     && ReleaseTrace(run[k..], true, if owned then Some(CouldNotResume) else None)
  }

  /** The failures after which a pause may have to be released. */
  predicate OfTheSnapshot(e: LeaseError) {
    e.LinkFailed? || (e.NotPaused? && e.state != Running) || e.BodyFailed? || e.EndedIn?
  }

  predicate OfTheLease(e: LeaseError) {
    !e.StillOwned? && !e.NeedsLease? && !e.NeedsPollSafe? && !e.CannotAcquire?
  }

  lemma BecauseStays(e: LeaseError, run: seq<Event>, more: seq<Event>, q: bool)
    requires Because(e, run, false) && OfTheSnapshot(e)
    ensures Because(e, run + more, q)
  {
    match e
    case NotPaused(s) =>
      var k: nat :| RefusedAt(run, k, s);
      assert RefusedAt(run + more, k, s);
    case EndedIn(s) =>
      var k: nat :| EndsAt(run, k, s);
      assert EndsAt(run + more, k, s);
    case _ =>
  }

  lemma NowCleanedUp(run: seq<Event>, release: seq<Event>, owned: bool)
    requires PausedBefore(run, |run|) && ReleaseTrace(release, true, if owned then Some(CouldNotResume) else None)
    ensures CleanedUp(run + release, owned)
  {
    var all := run + release;
    var j: nat :| j < |run| && run[j].Pause?;
    assert all[j].Pause? && PausedBefore(all, |run|) && all[|run|..] == release;
  }

  class Agent {
    const mode: Mode
    const leaseFeature: bool
    const pollSafe: bool
    var sessionAlive: bool
    var quarantined: bool
    var owned: bool
    var log: seq<Event>

    constructor (mode: Mode, framed: bool, leaseFeature: bool, pollSafe: bool)
      ensures this.mode == mode && sessionAlive == framed
      ensures this.leaseFeature == leaseFeature && this.pollSafe == pollSafe
      ensures !owned && !quarantined && log == []
    {
      this.mode, this.leaseFeature, this.pollSafe := mode, leaseFeature, pollSafe;
      sessionAlive, quarantined, owned, log := framed, false, false, [];
    }

    /** A request on a quarantined session is refused before a byte is written. */
    method AskStatus() returns (r: Option<State>)
      modifies this`log, this`quarantined
      ensures old(quarantined) ==> log == old(log) && r.None? && quarantined
      ensures log == old(log) || log == old(log) + [Status(r)]
      ensures if old(quarantined) then log == old(log) else log == old(log) + [Status(r)]
    {
      if quarantined {
        return None;
      }
      r := Anything();
      quarantined := *;
      log := log + [Status(r)];
    }

    method SendPause() returns (ok: bool)
      modifies this`log, this`quarantined
      ensures old(quarantined) ==> log == old(log) && !ok && quarantined
      ensures !old(quarantined) ==> log == old(log) + [Pause(ok)]
    {
      if quarantined {
        return false;
      }
      ok := *;
      quarantined := *;
      log := log + [Pause(ok)];
    }

    /** `g`; an answer with a payload counts as a failure. */
    method SendResume() returns (ok: bool)
      modifies this`log, this`quarantined
      ensures old(quarantined) || !old(sessionAlive) ==> log == old(log) && !ok
      ensures old(quarantined) ==> quarantined
      ensures if old(quarantined) || !old(sessionAlive) then log == old(log) else log == old(log) + [Resume(ok)]
    {
      if quarantined || !sessionAlive {
        return false;
      }
      ok := *;
      quarantined := *;
      log := log + [Resume(ok)];
    }

    /** Resets the byte stream and negotiates a new session, unless writes are quarantined. */
    method Reconnect() returns (ok: bool)
      modifies this`log, this`quarantined, this`sessionAlive
      ensures old(quarantined) ==> log == old(log) && !ok && quarantined
      ensures !old(quarantined) ==> log == old(log) + [Rebootstrap(ok)]
      ensures ok ==> sessionAlive
    {
      if quarantined {
        return false;
      }
      ok := *;
      quarantined := *;
      sessionAlive := ok;
      log := log + [Rebootstrap(ok)];
    }

    /** Everything since `start` keeps the rule about resumes, and a pause has been sent. */
    ghost predicate Leasing(start: nat)
      reads this`log
    {
      LeasingIn(log, start)
    }

    ghost predicate LeasingIn(history: seq<Event>, start: nat) {
      && start <= |history| && ResumesFollowPauses(history[start..])
      && PausedBefore(history[start..], |history| - start)
    }

    lemma LeasingGoesOn(start: nat, before: seq<Event>, e: Event)
      requires LeasingIn(before, start)
      requires log == before || log == before + [e]
      ensures Leasing(start)
    {
      if log != before {
        assert log[start..] == before[start..] + [e];
        SafeStep(before[start..], e);
      }
    }

    /**
     * Releases a pause this host owns: a direct `g` first, then up to two reconnections, and
     * nothing at all once writes are quarantined.
     */
    method ResumeSnapshotPause(ghost start: nat) returns (error: Option<LeaseError>)
      requires owned ==> Leasing(start)
      modifies this
      ensures !old(owned) ==> log == old(log) && error.None?
      ensures old(quarantined) ==> log == old(log)
      ensures old(log) <= log && (old(owned) ==> Leasing(start))
      ensures error.None? ==> !owned && (old(owned) ==> Released(log[|old(log)|..]))
      ensures error.Some? ==> error.value == WriteQuarantined || error.value == CouldNotResume
      ensures owned <==> error == Some(CouldNotResume)
      ensures error == Some(WriteQuarantined) ==> quarantined
      ensures old(owned) && error != Some(WriteQuarantined) ==>
        ReleaseTrace(log[|old(log)|..], old(sessionAlive), error)
    {
      if !owned {
        return None;
      }
      if quarantined {
        owned := false;
        return Some(WriteQuarantined);
      }
      ghost var before := log;
      ghost var first := log;
      ghost var g: seq<Event> := if sessionAlive then [Resume(false)] else [];
      var ok := SendResume();
      LeasingGoesOn(start, before, Resume(ok));
      if ok {
        owned := false;
        assert log[|first|..] == [Resume(true)];
        assert Resume(true) in log[|first|..];
        return None;
      }
      if quarantined {
        owned := false;
        return Some(WriteQuarantined);
      }
      error := Recoveries(start, first, g);
      if error != Some(CouldNotResume) {
        owned := false;
      }
    }

    /** Up to two reconnections, until the target runs. */
    method Recoveries(ghost start: nat, ghost first: seq<Event>, ghost g: seq<Event>)
      returns (error: Option<LeaseError>)
      requires log == first + g && Leasing(start) && !quarantined
      modifies this`log, this`quarantined, this`sessionAlive
      ensures first <= log && Leasing(start)
      ensures error.None? ==> Released(log[|first|..])
      ensures error.None? || error == Some(WriteQuarantined) || error == Some(CouldNotResume)
      ensures error == Some(WriteQuarantined) ==> quarantined
      ensures error.None? ==>
        (exists a :: Recovered(a) && log[|first|..] == g + a)
        || exists a, b :: RecoveryFailed(a) && Recovered(b) && log[|first|..] == g + a + b
      ensures error == Some(CouldNotResume) ==>
        exists a, b :: RecoveryFailed(a) && RecoveryFailed(b) && log[|first|..] == g + a + b
    {
      hide LeasingIn, Released, Recovered, RecoveryFailed;
      var attempt := 0;
      ghost var failed: seq<Event> := [];
      ghost var more: seq<Event> := [];
      while attempt < RECOVERY_ATTEMPTS
        invariant first <= log && Leasing(start) && attempt <= RECOVERY_ATTEMPTS
        invariant log == first + g + failed + more
        invariant if attempt == 0 then failed == [] else RecoveryFailed(failed)
        invariant if attempt < 2 then more == [] else RecoveryFailed(more)
      {
        attempt := attempt + 1;
        ghost var earlier := log;
        var done := Recover(start, first);
        ghost var run := log[|earlier|..];
        if done {
          assert log[|first|..] == if attempt == 1 then g + run else g + failed + run;
          return None;
        }
        if quarantined {
          return Some(WriteQuarantined);
        }
        if attempt == 1 {
          failed := run;
        } else {
          more := run;
        }
      }
      assert log[|first|..] == g + failed + more;
      return Some(CouldNotResume);
    }

    /** One recovery: reconnect, look, resume if paused, and look again. */
    method Recover(ghost start: nat, ghost first: seq<Event>) returns (done: bool)
      requires first <= log && Leasing(start)
      modifies this`log, this`quarantined, this`sessionAlive
      ensures first <= log && Leasing(start) && old(log) <= log && (old(quarantined) ==> quarantined)
      ensures done ==> Released(log[|first|..])
      ensures if done then Recovered(log[|old(log)|..]) else RecoveryFailed(log[|old(log)|..]) || quarantined
    {
      hide LeasingIn;
      ghost var before := log;
      var ok := Reconnect();
      LeasingGoesOn(start, before, Rebootstrap(ok));
      if !ok {
        return false;
      }
      before := log;
      var state := AskStatus();
      LeasingGoesOn(start, before, Status(state));
      if state == Some(Running) {
        LastIsIn(first, before, Status(state));
        return true;
      }
      if state != Some(Paused) {
        return false;
      }
      before := log;
      ok := SendResume();
      LeasingGoesOn(start, before, Resume(ok));
      if !ok {
        return false;
      }
      before := log;
      state := AskStatus();
      LeasingGoesOn(start, before, Status(state));
      if state == Some(Running) {
        LastIsIn(first, before, Status(state));
      }
      return state == Some(Running);
    }

    lemma LastIsIn(first: seq<Event>, before: seq<Event>, e: Event)
      requires first <= before && log == before + [e]
      ensures e in log[|first|..]
    {
      assert log[|first|..][|before| - |first|] == e;
    }

    // ---------------------------------------------------------- the lease

    /** The checks that come before any byte is sent. */
    function Gate(): Option<LeaseError>
      reads this
    {
      if owned then Some(StillOwned)
      else if !(sessionAlive && leaseFeature) then Some(NeedsLease)
      else if mode == Resident && !pollSafe then Some(NeedsPollSafe)
      else None
    }

    /** The caller's own work, which may fail and may break the session. */
    method RunBody() returns (ok: bool)
      modifies this`log, this`quarantined
      ensures log == old(log) + [Body(ok)]
      ensures old(quarantined) ==> quarantined
    {
      ok := *;
      if !quarantined {
        quarantined := *;
      }
      log := log + [Body(ok)];
    }

    /** Without a lease to take, the caller's work runs and nothing is paused or resumed. */
    method Unleased(ghost start: nat) returns (r: Result<bool, LeaseError>)
      requires start <= |log| && Quiet(log[start..]) && !owned
      modifies this`log, this`quarantined
      ensures old(log) <= log && Quiet(log[start..]) && Body(r.Ok?) in log[start..]
      ensures log == old(log) + [Body(r.Ok?)] && r == if r.Ok? then Ok(false) else Err(BodyFailed)
    {
      ghost var before := log;
      var ok := RunBody();
      assert log[start..] == before[start..] + [Body(ok)];
      assert log[|log| - 1] == Body(ok);
      return if ok then Ok(false) else Err(BodyFailed);
    }

    /**
     * One snapshot.  The result says whether a lease was held.
     *  - Nothing happens while an earlier pause is still owned.
     *  - A target found paused or in the monitor is sent neither pause nor resume.
     *  - A lease is reported only if the target said it was paused right before and right after
     *    the caller's work, and then it was released.
     *  - After a normal exit no pause is owned.
     */
    method WithSnapshotLease(atomic: bool) returns (r: Result<bool, LeaseError>)
      modifies this
      ensures old(log) <= log && ResumesFollowPauses(log[|old(log)|..])
      ensures atomic && old(owned) ==> r == Err(StillOwned) && log == old(log) && owned
      ensures !atomic || old(quarantined) ==> Quiet(log[|old(log)|..])
      ensures |log| > |old(log)|
        && (log[|old(log)|] == Status(Some(Paused)) || log[|old(log)|] == Status(Some(Monitor)))
        ==> Quiet(log[|old(log)|..]) && r != Ok(true)
      ensures r.Ok? && atomic ==> !owned
      ensures r == Ok(true) ==> HeldThroughout(log[|old(log)|..]) && Released(log[|old(log)|..])
      ensures r == Ok(true) ==> HeldUntil(log[|old(log)|..], None)
      ensures r == Ok(false) ==> Body(true) in log[|old(log)|..]
      ensures r.Err? ==> Because(r.error, log[|old(log)|..], quarantined)
      ensures r.Err? && !quarantined && r.error != Expired && r.error != NotPaused(Running) ==>
        Quiet(log[|old(log)|..]) || CleanedUp(log[|old(log)|..], owned)
      ensures r == Err(NeedsLease) ==> !(old(sessionAlive) && leaseFeature)
      ensures r == Err(NeedsPollSafe) ==> mode == Resident && !pollSafe
      ensures r == Err(StillOwned) ==> atomic && old(owned)
      ensures r.Err? && owned && !old(owned) ==> PausedBefore(log[|old(log)|..], |log| - |old(log)|)
    {
      ghost var start := |log|;
      assert log[start..] == [];
      if !atomic {
        ghost var wasOwned := owned;
        var ok := RunBody();
        assert log[start..] == [Body(ok)];
        return if ok then Ok(false) else Err(BodyFailed);
      }
      if owned {
        return Err(StillOwned);
      }
      if !(sessionAlive && leaseFeature) && mode == ForegroundMonitor {
        var state := AskStatus();
        OneStatus(start, state);
        if state == Some(Monitor) || state == Some(Paused) {
          r := Unleased(start);
          QuietIsSafe(log[start..]);
          return;
        }
        return Err(if state.None? then LinkFailed else NeedsLease);
      }
      if Gate().Some? {
        return Err(Gate().value);
      }
      var state := AskStatus();
      OneStatus(start, state);
      if state.None? {
        return Err(LinkFailed);
      }
      if state == Some(Paused) || state == Some(Monitor) {
        r := Unleased(start);
        QuietIsSafe(log[start..]);
        return;
      }
      if state != Some(Running) {
        return Err(CannotAcquire(state.value));
      }
      r := Lease(start);
    }

    lemma OneStatus(start: nat, state: Option<State>)
      requires start <= |log| && (log[start..] == [] || log[start..] == [Status(state)])
      ensures Quiet(log[start..]) && ResumesFollowPauses(log[start..])
    {
    }

    lemma QuietIsSafe(run: seq<Event>)
      requires Quiet(run)
      ensures ResumesFollowPauses(run)
    {
    }

    /** From a running target: pause, verify, work, verify, resume. */
    method Lease(ghost start: nat) returns (r: Result<bool, LeaseError>)
      requires start < |log| && log[start..] == [Status(Some(Running))] && !owned && sessionAlive
      modifies this
      ensures old(log) <= log && ResumesFollowPauses(log[start..])
      ensures r.Ok? ==> r.value && !owned && HeldThroughout(log[start..]) && Released(log[start..])
      ensures r.Ok? ==> HeldUntil(log[start..], None)
      ensures r.Err? ==> Because(r.error, log[start..], quarantined) && OfTheLease(r.error)
      ensures r.Err? && !quarantined && r.error != Expired && r.error != NotPaused(Running) ==>
        CleanedUp(log[start..], owned)
      ensures r.Err? && owned ==> PausedBefore(log[start..], |log| - start)
      ensures old(quarantined) ==> Quiet(log[start..])
    {
      assert Quiet(log[start..]);
      hide ResumesFollowPauses, PausedBefore, HeldThroughout, Released, Quiet, HeldUntil, CleanedUp, ReleaseTrace,
        HeldAt, Because, LeasingIn;
      owned := true;
      var entered := Enter(start);
      if entered.Some? {
        r := Abandon(start, entered.value);
        return;
      }
      r := Snapshot(start);
    }

    /** Inside the pause: work, verify, resume. */
    method Snapshot(ghost start: nat) returns (r: Result<bool, LeaseError>)
      requires owned && sessionAlive && Leasing(start)
      requires |log| > start + 2 && log[|log| - 1] == Status(Some(Paused))
      requires PausedBefore(log[start..], |log| - 1 - start)
      modifies this
      ensures old(log) <= log && ResumesFollowPauses(log[start..])
      ensures r.Ok? ==> r.value && !owned && HeldThroughout(log[start..]) && Released(log[start..])
      ensures r.Ok? ==> HeldUntil(log[start..], None)
      ensures r.Err? ==> Because(r.error, log[start..], quarantined) && OfTheLease(r.error)
      ensures r.Err? && !quarantined && r.error != Expired ==> CleanedUp(log[start..], owned)
      ensures r.Err? && owned ==> PausedBefore(log[start..], |log| - start)
    {
      hide ResumesFollowPauses, PausedBefore, HeldThroughout, Released, Quiet, HeldUntil, CleanedUp, ReleaseTrace,
        HeldAt, Because, LeasingIn;
      Kept(start);
      var worked := Work(start);
      Kept(start);
      if worked == Some(Expired) {
        owned := false;
        return Err(Expired);
      }
      if worked.Some? {
        r := Abandon(start, worked.value);
        return;
      }
      ghost var held := log;
      var error := ResumeSnapshotPause(start);
      Kept(start);
      HeldThenReleased(start, held, error);
      if error.Some? {
        return Err(error.value);
      }
      StillHeld(start, held);
      return Ok(true);
    }

    lemma Kept(start: nat)
      ensures Leasing(start) ==> ResumesFollowPauses(log[start..]) && PausedBefore(log[start..], |log| - start)
    {
    }

    /** The caller's work, and the status that shows the pause outlasted it. */
    method Work(ghost start: nat) returns (error: Option<LeaseError>)
      requires Leasing(start) && |log| > start + 2 && log[|log| - 1] == Status(Some(Paused))
      requires PausedBefore(log[start..], |log| - 1 - start)
      modifies this`log, this`quarantined
      ensures old(log) <= log && Leasing(start)
      ensures error.None? ==> |log| - start >= 3 && HeldAt(log[start..], |log| - start - 3)
      ensures error.Some? ==> Because(error.value, log[start..], quarantined)
      ensures error.Some? ==> error.value == Expired || OfTheSnapshot(error.value)
    {
      hide LeasingIn, PausedBefore, HeldThroughout;
      assert log[start..][|log| - start - 1] == Status(Some(Paused));
      ghost var before := log;
      var ok := RunBody();
      LeasingGoesOn(start, before, Body(ok));
      assert log[start..] == before[start..] + [Body(ok)];
      if !ok {
        return Some(BodyFailed);
      }
      ghost var worked := log;
      var state := AskStatus();
      LeasingGoesOn(start, worked, Status(state));
      if log != worked {
        assert log[start..] == before[start..] + [Body(true), Status(state)];
        assert state.Some? && state != Some(Running) && state != Some(Paused) ==>
          EndsAt(log[start..], |before| - start, state.value);
      }
      match state
      case None => return Some(LinkFailed);
      case Some(Running) => return Some(Expired);
      case Some(Paused) =>
        Held(start, before);
        return None;
      case Some(other) => return Some(EndedIn(other));
    }

    /** The pause itself: at most two tries, each verified by a status. */
    method Enter(ghost start: nat) returns (error: Option<LeaseError>)
      requires owned && start < |log| && log[start..] == [Status(Some(Running))]
      modifies this`log, this`quarantined, this`owned
      ensures old(log) <= log && ResumesFollowPauses(log[start..])
      ensures error.Some? ==> Because(error.value, log[start..], quarantined)
      ensures error.Some? ==> if owned then OfTheSnapshot(error.value) else error.value == NotPaused(Running)
      ensures old(quarantined) ==> log == old(log) && error.Some? && quarantined
      ensures error.None? ==> owned && Leasing(start) && |log| > start + 2 && log[|log| - 1] == Status(Some(Paused))
      ensures error.None? ==> PausedBefore(log[start..], |log| - 1 - start)
      ensures error.Some? ==> Leasing(start) || (log == old(log) && quarantined)
    {
      var attempt := 0;
      while attempt < PAUSE_ATTEMPTS
        invariant attempt < PAUSE_ATTEMPTS && owned && old(log) <= log && ResumesFollowPauses(log[start..])
        invariant log == old(log) || Leasing(start)
        invariant old(quarantined) ==> log == old(log) && quarantined
        invariant log[start..]
               == [Status(Some(Running))] + if attempt == 0 then [] else [Pause(true), Status(Some(Running))]
      {
        attempt := attempt + 1;
        ghost var before := log;
        if quarantined {
          return Some(LinkFailed);
        }
        var ok := SendPause();
        PauseStartsLease(start, before, ok);
        assert log[start..] == before[start..] + [Pause(ok)];
        if !ok {
          return Some(LinkFailed);
        }
        ghost var paused := log;
        var verified := AskStatus();
        LeasingGoesOn(start, paused, Status(verified));
        if log != paused {
          ghost var run := log[start..];
          assert run == before[start..] + [Pause(true), Status(verified)];
          assert verified.Some? && verified != Some(Paused) && (verified == Some(Running) ==> attempt == 2) ==>
            RefusedAt(run, |before| - start, verified.value);
        }
        if verified.None? {
          return Some(LinkFailed);
        }
        if verified == Some(Paused) {
          assert log[start..][|before| - start].Pause?;
          return None;
        }
        if verified != Some(Running) {
          return Some(NotPaused(verified.value));
        }
        if attempt == PAUSE_ATTEMPTS {
          owned := false;
          return Some(NotPaused(Running));
        }
      }
      assert false;
    }

    lemma PauseStartsLease(start: nat, before: seq<Event>, ok: bool)
      requires start <= |before| && log == before + [Pause(ok)] && ResumesFollowPauses(before[start..])
      ensures Leasing(start)
    {
      assert log[start..] == before[start..] + [Pause(ok)];
      SafeStep(before[start..], Pause(ok));
    }

    /** After a failure the pause is released if it is still owned; the failure stays the result. */
    method Abandon(ghost start: nat, error: LeaseError) returns (r: Result<bool, LeaseError>)
      requires start <= |log| && ResumesFollowPauses(log[start..])
      requires Leasing(start) || quarantined
      requires sessionAlive && Because(error, log[start..], quarantined) && (owned ==> OfTheSnapshot(error))
      modifies this
      ensures r == Err(error) && old(log) <= log && ResumesFollowPauses(log[start..])
      ensures Because(error, log[start..], quarantined)
      ensures old(owned) && !quarantined ==> CleanedUp(log[start..], owned)
      ensures owned ==> PausedBefore(log[start..], |log| - start)
      ensures old(quarantined) ==> log == old(log)
    {
      if owned {
        if quarantined {
          owned := false;
        } else {
          ghost var before := log;
          var ignored := ResumeSnapshotPause(start);
          assert log[start..] == before[start..] + log[|before|..];
          BecauseStays(error, before[start..], log[|before|..], quarantined);
          if !quarantined {
            NowCleanedUp(before[start..], log[|before|..], owned);
          }
        }
      }
      return Err(error);
    }

    /** The release after a snapshot that was held. */
    lemma HeldThenReleased(start: nat, held: seq<Event>, error: Option<LeaseError>)
      requires start + 3 <= |held| && held <= log && HeldAt(held[start..], |held| - start - 3)
      requires error != Some(WriteQuarantined) ==> ReleaseTrace(log[|held|..], true, error)
      requires error == Some(WriteQuarantined) ==> quarantined
      requires error.Some? ==> error.value == WriteQuarantined || error.value == CouldNotResume
      ensures error.Some? ==> Because(error.value, log[start..], quarantined)
      ensures error.Some? && !quarantined ==> CleanedUp(log[start..], true)
      ensures error.None? ==> HeldUntil(log[start..], None)
    {
      var run, k := log[start..], |held| - start - 3;
      assert run == held[start..] + log[|held|..] && run[k + 3..] == log[|held|..];
      var j: nat :| j < k && held[start..][j].Pause?;
      assert run[j].Pause? && HeldAt(run, k) && PausedBefore(run, k + 3);
    }

    lemma Held(start: nat, before: seq<Event>)
      requires start < |before| && before[|before| - 1] == Status(Some(Paused))
      requires log == before + [Body(true)] + [Status(Some(Paused))]
      requires PausedBefore(before[start..], |before| - 1 - start)
      ensures |log| - start >= 3 && HeldAt(log[start..], |log| - start - 3)
    {
      var run, k := log[start..], |before| - 1 - start;
      var j: nat :| j < k && before[start..][j].Pause?;
      assert run[j].Pause? && PausedBefore(run, k);
      assert run[k] == Status(Some(Paused)) && run[k + 1] == Body(true) && run[k + 2] == Status(Some(Paused));
      assert HeldAt(run, k);
    }

    lemma StillHeld(start: nat, held: seq<Event>)
      requires start + 3 <= |held| && held <= log && HeldAt(held[start..], |held| - start - 3)
      requires Released(log[|held|..])
      ensures HeldThroughout(log[start..]) && Released(log[start..])
    {
      var run, longer := held[start..], log[start..];
      assert longer == run + log[|held|..];
      var k := |held| - start - 3;
      var j: nat :| j < k && run[j].Pause?;
      assert longer[j].Pause? && longer[k] == run[k] && longer[k + 1] == run[k + 1] && longer[k + 2] == run[k + 2];
      assert HeldAt(longer, k);
      var e :| e in log[|held|..] && (e == Resume(true) || e == Status(Some(Running)));
      var i :| 0 <= i < |log[|held|..]| && log[|held|..][i] == e;
      assert longer[|run| + i] == e && e in longer;
    }
  }
}
