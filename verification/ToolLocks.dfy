/**
 * The three locks of the tool server, with any number of calls arriving, waiting, being
 * cancelled and running workers at once.
 *
 * The target lock is taken first, then the local and the agent lock; a local diagnostic takes
 * only the local lock.  A cancelled call keeps its locks until its worker has ended.
 */
module ToolLocks {
  import opened Bytes

  datatype Lock = Target | Local | Agent

  datatype Kind = NoIo | Diagnostic | Lifecycle | LocalCall | AgentCall | OtherCall

  // ------------------------------------------------------------ which locks a tool takes

  const NO_IO_TOOLS := {"msx_docs_search", "msx_targets_status", "msx_local_doctor"}
  const DIAGNOSTIC_TOOLS := {"msx_local_status", "msx_local_screen", "msx_local_screenshot"}
  const LIFECYCLE_TOOLS := {"msx_tcp_bench_start", "msx_tcp_bench_status", "msx_tcp_bench_shutdown"}
  const LOCAL_PREFIX := "msx_local_"
  const AGENT_PREFIX := "msx_agent_"

  function Classify(name: string): Kind {
    if name in NO_IO_TOOLS then NoIo
    else if name in DIAGNOSTIC_TOOLS then Diagnostic
    else if name in LIFECYCLE_TOOLS then Lifecycle
    else if LOCAL_PREFIX <= name then LocalCall
    else if AGENT_PREFIX <= name then AgentCall
    else OtherCall
  }

  /** Locks in the order they are taken; server shutdown takes them like a lifecycle tool. */
  function Order(k: Kind): (o: seq<Lock>)
    ensures |o| <= 3
  {
    match k
    case NoIo => []
    case Diagnostic => [Local]
    case Lifecycle => [Target, Local, Agent]
    case LocalCall => [Target, Local]
    case AgentCall => [Target, Agent]
    case OtherCall => [Target]
  }

  /** Every agent tool takes the target and the agent lock, and only those. */
  lemma AgentToolsTakeBoth(name: string)
    requires AGENT_PREFIX <= name
    ensures Order(Classify(name)) == [Target, Agent]
  {
    assert name[4] == 'a';
    assert name !in NO_IO_TOOLS && name !in DIAGNOSTIC_TOOLS && name !in LIFECYCLE_TOOLS;
    assert !(LOCAL_PREFIX <= name) by {
      assert LOCAL_PREFIX[4] == 'l';
    }
  }

  /** What the other tools take. */
  lemma OtherToolsTake(name: string)
    ensures name in {"msx_docs_search", "msx_targets_status", "msx_local_doctor"} ==> Order(Classify(name)) == []
    ensures name in {"msx_local_status", "msx_local_screen", "msx_local_screenshot"} ==>
      Order(Classify(name)) == [Local]
    ensures name in {"msx_tcp_bench_start", "msx_tcp_bench_status", "msx_tcp_bench_shutdown"} ==>
      Order(Classify(name)) == [Target, Local, Agent]
    ensures "msx_local_" <= name && name !in NO_IO_TOOLS && name !in DIAGNOSTIC_TOOLS ==>
      Order(Classify(name)) == [Target, Local]
    ensures !("msx_local_" <= name) && !("msx_agent_" <= name) && name !in NO_IO_TOOLS && name !in LIFECYCLE_TOOLS ==>
      Order(Classify(name)) == [Target]
  {
    Different();
  }

  /** The listed names are all different, and a lifecycle tool is not a local one. */
  lemma Different()
    ensures forall name <- LIFECYCLE_TOOLS ::
      !("msx_local_" <= name) && name !in NO_IO_TOOLS && name !in DIAGNOSTIC_TOOLS
    ensures forall name <- DIAGNOSTIC_TOOLS :: "msx_local_" <= name && name !in NO_IO_TOOLS
  {
    assert "msx_docs_search"[4] == 'd' && "msx_targets_status"[5] == 'a' && "msx_local_doctor"[10] == 'd';
    assert "msx_local_status"[10] == 's' && "msx_local_screen"[10] == 's' && "msx_local_screenshot"[10] == 's';
    assert "msx_tcp_bench_start"[5] == 'c' && "msx_tcp_bench_status"[5] == 'c' && "msx_tcp_bench_shutdown"[5] == 'c';
    assert "msx_local_"[4] == 'l' && "msx_local_"[5] == 'o';
  }

  // ------------------------------------------------------------ the system

  datatype Phase =
    | Acquiring(held: nat)
    | Working(cancelled: bool)
    | Releasing(held: nat)

  datatype Call = Call(kind: Kind, phase: Phase)

  /** Calls are numbered in order of arrival; a lock has at most one owner. */
  datatype System = System(calls: seq<Call>, owner: map<Lock, nat>)

  const START := System([], map[])

  /** How many locks of its order a call holds. */
  function Held(c: Call): nat {
    match c.phase
    case Acquiring(n) => n
    case Working(_) => |Order(c.kind)|
    case Releasing(n) => n
  }

  /** Where a lock stands in an order. */
  function Position(k: Kind, l: Lock): (p: Option<nat>)
    ensures p.Some? ==> p.value < |Order(k)| && Order(k)[p.value] == l
    ensures p.None? ==> l !in Order(k)
  {
    if 0 < |Order(k)| && Order(k)[0] == l then Some(0)
    else if 1 < |Order(k)| && Order(k)[1] == l then Some(1)
    else if 2 < |Order(k)| && Order(k)[2] == l then Some(2)
    else None
  }

  lemma PositionOfEntry(k: Kind, n: nat)
    requires n < |Order(k)|
    ensures Position(k, Order(k)[n]) == Some(n)
  {
  }

  predicate Holds(c: Call, l: Lock) {
    Position(c.kind, l).Some? && Position(c.kind, l).value < Held(c)
  }

  predicate Finished(c: Call) {
    c.phase == Releasing(0)
  }

  predicate Waiting(c: Call) {
    c.phase.Acquiring? && c.phase.held < |Order(c.kind)|
  }

  function Wanted(c: Call): Lock
    requires Waiting(c)
  {
    Order(c.kind)[c.phase.held]
  }

  datatype Step =
    | Arrive(kind: Kind)
    | Acquire(id: nat)
    | Begin(id: nat)
    | Cancel(id: nat)
    | WorkerEnds(id: nat)
    | Release(id: nat)

  predicate Enabled(s: System, step: Step) {
    match step
    case Arrive(_) => true
    case Acquire(i) => i < |s.calls| && Waiting(s.calls[i]) && Wanted(s.calls[i]) !in s.owner
    case Begin(i) => i < |s.calls| && s.calls[i].phase == Acquiring(|Order(s.calls[i].kind)|)
    case Cancel(i) => i < |s.calls| && (Waiting(s.calls[i]) || s.calls[i].phase == Working(false))
    case WorkerEnds(i) => i < |s.calls| && s.calls[i].phase.Working?
    case Release(i) =>
      i < |s.calls| && s.calls[i].phase.Releasing? && 0 < s.calls[i].phase.held <= |Order(s.calls[i].kind)|
  }

  function SetPhase(s: System, i: nat, p: Phase): System
    requires i < |s.calls|
  {
    s.(calls := s.calls[i := s.calls[i].(phase := p)])
  }

  function Next(s: System, step: Step): System
    requires Enabled(s, step)
  {
    match step
    case Arrive(kind) => s.(calls := s.calls + [Call(kind, Acquiring(0))])
    case Acquire(i) =>
      SetPhase(s.(owner := s.owner[Wanted(s.calls[i]) := i]), i, Acquiring(s.calls[i].phase.held + 1))
    case Begin(i) => SetPhase(s, i, Working(false))
    case Cancel(i) =>
      if s.calls[i].phase.Working? then SetPhase(s, i, Working(true))
      else SetPhase(s, i, Releasing(s.calls[i].phase.held))
    case WorkerEnds(i) => SetPhase(s, i, Releasing(|Order(s.calls[i].kind)|))
    case Release(i) =>
      var last := Order(s.calls[i].kind)[s.calls[i].phase.held - 1];
      SetPhase(s.(owner := s.owner - {last}), i, Releasing(s.calls[i].phase.held - 1))
  }

  /** Runs a schedule, skipping steps that are not possible. */
  function Run(s: System, schedule: seq<Step>): System
    decreases |schedule|
  {
    if schedule == [] then s
    else Run(if Enabled(s, schedule[0]) then Next(s, schedule[0]) else s, schedule[1..])
  }

  // ------------------------------------------------------------ the invariant

  /** A lock's owner is exactly the call that holds it. */
  ghost predicate Consistent(s: System) {
    && (forall i | 0 <= i < |s.calls| :: Held(s.calls[i]) <= |Order(s.calls[i].kind)|)
    && (forall l | l in s.owner :: s.owner[l] < |s.calls| && Holds(s.calls[s.owner[l]], l))
    && (forall i, l | 0 <= i < |s.calls| && Holds(s.calls[i], l) :: l in s.owner && s.owner[l] == i)
  }

  /** One more lock, or one less, at the end of the order. */
  lemma HoldsOneMore(c: Call, d: Call)
    requires d.kind == c.kind && Held(d) == Held(c) + 1 <= |Order(c.kind)|
    ensures forall l :: Holds(d, l) <==> Holds(c, l) || l == Order(c.kind)[Held(c)]
    ensures !Holds(c, Order(c.kind)[Held(c)])
  {
    hide Position, Order;
    PositionOfEntry(c.kind, Held(c));
  }

  lemma AcquireKeeps(s: System, i: nat)
    requires Consistent(s) && Enabled(s, Acquire(i))
    ensures Consistent(Next(s, Acquire(i)))
  {
    hide Position, Order, Holds;
    HoldsOneMore(s.calls[i], Next(s, Acquire(i)).calls[i]);
  }

  lemma ReleaseKeeps(s: System, i: nat)
    requires Consistent(s) && Enabled(s, Release(i))
    ensures Consistent(Next(s, Release(i)))
  {
    hide Position, Order, Holds;
    var next := Next(s, Release(i));
    var last := Order(s.calls[i].kind)[Held(next.calls[i])];
    HoldsOneMore(next.calls[i], s.calls[i]);
    assert s.owner[last] == i;
    assert forall j | 0 <= j < |s.calls| && j != i :: next.calls[j] == s.calls[j];
    forall l | l in next.owner
      ensures next.owner[l] < |next.calls| && Holds(next.calls[next.owner[l]], l)
    {
      assert l != last && next.owner[l] == s.owner[l];
    }
    forall j, l | 0 <= j < |next.calls| && Holds(next.calls[j], l)
      ensures l in next.owner && next.owner[l] == j
    {
      assert Holds(s.calls[j], l) && s.owner[l] == j;
      assert l != last;
    }
  }

  /** Steps that leave the number of held locks as it is. */
  lemma SameLocks(s: System, i: nat, p: Phase)
    requires Consistent(s) && i < |s.calls| && Held(s.calls[i].(phase := p)) == Held(s.calls[i])
    ensures Consistent(SetPhase(s, i, p))
  {
    hide Position, Order;
    var next := SetPhase(s, i, p);
    assert forall l :: Holds(next.calls[i], l) <==> Holds(s.calls[i], l);
  }

  lemma ArrivalKeeps(s: System, kind: Kind)
    requires Consistent(s)
    ensures Consistent(Next(s, Arrive(kind)))
  {
    hide Position, Order;
    var next := Next(s, Arrive(kind));
    assert forall l :: !Holds(next.calls[|s.calls|], l);
    assert forall i | 0 <= i < |s.calls| :: next.calls[i] == s.calls[i];
  }

  lemma StepKeeps(s: System, step: Step)
    requires Consistent(s) && Enabled(s, step)
    ensures Consistent(Next(s, step))
  {
    hide Consistent, Order;
    match step
    case Arrive(kind) => ArrivalKeeps(s, kind);
    case Acquire(i) => AcquireKeeps(s, i);
    case Begin(i) => SameLocks(s, i, Working(false));
    case Cancel(i) =>
      SameLocks(s, i, if s.calls[i].phase.Working? then Working(true) else Releasing(s.calls[i].phase.held));
    case WorkerEnds(i) => SameLocks(s, i, Releasing(|Order(s.calls[i].kind)|));
    case Release(i) => ReleaseKeeps(s, i);
  }

  /** From the start, whatever arrives and in whatever order it is scheduled. */
  lemma {:induction false} RunIsConsistent(s: System, schedule: seq<Step>)
    requires Consistent(s)
    ensures Consistent(Run(s, schedule))
    decreases |schedule|
  {
    hide Consistent, Next, Enabled;
    if schedule != [] {
      if Enabled(s, schedule[0]) {
        StepKeeps(s, schedule[0]);
      }
      RunIsConsistent(if Enabled(s, schedule[0]) then Next(s, schedule[0]) else s, schedule[1..]);
    }
  }

  /** Every state the server can reach. */
  lemma FromTheStart(schedule: seq<Step>)
    ensures Consistent(Run(START, schedule))
  {
    RunIsConsistent(START, schedule);
  }

  // ------------------------------------------------------------ safety

  predicate IsWorking(s: System, i: nat) {
    i < |s.calls| && s.calls[i].phase.Working?
  }

  predicate Uses(k: Kind, l: Lock) {
    l in Order(k)
  }

  /** Two workers, cancelled or not, never share a channel: at most one uses any given lock. */
  lemma WorkersDoNotOverlap(s: System, i: nat, j: nat, l: Lock)
    requires Consistent(s) && IsWorking(s, i) && IsWorking(s, j)
    requires Uses(s.calls[i].kind, l) && Uses(s.calls[j].kind, l)
    ensures i == j
  {
    hide Position, Order;
    assert Holds(s.calls[i], l) && Holds(s.calls[j], l);
    HolderOwns(s, i, l);
    HolderOwns(s, j, l);
  }

  /** Whatever else happens, a worker ends by itself, and until then its call keeps every lock. */
  lemma WorkerKeepsLocks(s: System, i: nat, step: Step)
    requires Consistent(s) && IsWorking(s, i) && Enabled(s, step) && step != WorkerEnds(i)
    ensures var next := Next(s, step);
            && IsWorking(next, i) && next.calls[i].kind == s.calls[i].kind
            && forall l | Uses(s.calls[i].kind, l) :: l in next.owner && next.owner[l] == i
  {
    hide Position, Order, Consistent, Next;
    StepKeeps(s, step);
    WorkerStays(s, i, step);
    forall l | Uses(s.calls[i].kind, l) ensures l in Next(s, step).owner && Next(s, step).owner[l] == i {
      WorkerHoldsAll(Next(s, step).calls[i], l);
      HolderOwns(Next(s, step), i, l);
    }
  }

  lemma WorkerStays(s: System, i: nat, step: Step)
    requires IsWorking(s, i) && Enabled(s, step) && step != WorkerEnds(i)
    ensures IsWorking(Next(s, step), i) && Next(s, step).calls[i].kind == s.calls[i].kind
  {
    hide Order;
  }

  lemma WorkerHoldsAll(c: Call, l: Lock)
    requires c.phase.Working? && Uses(c.kind, l)
    ensures Holds(c, l)
  {
  }

  lemma HolderOwns(s: System, i: nat, l: Lock)
    requires Consistent(s) && i < |s.calls| && Holds(s.calls[i], l)
    ensures l in s.owner && s.owner[l] == i
  {
    hide Position, Order, Holds;
  }

  lemma OwnerHolds(s: System, l: Lock)
    requires Consistent(s) && l in s.owner
    ensures s.owner[l] < |s.calls| && Holds(s.calls[s.owner[l]], l)
    ensures Held(s.calls[s.owner[l]]) <= |Order(s.calls[s.owner[l]].kind)|
  {
    hide Position, Order, Holds;
  }

  /** Whoever owns the agent lock owns the target lock too. */
  lemma AgentOwnerHasTarget(s: System)
    requires Consistent(s) && Agent in s.owner
    ensures Target in s.owner && s.owner[Target] == s.owner[Agent]
  {
    hide Consistent;
    OwnerHolds(s, Agent);
    HolderOwns(s, s.owner[Agent], Target);
  }

  // ------------------------------------------------------------ progress

  /** A call can go on: it has work to end or to begin, locks to give back, or a free lock to take. */
  predicate CanMove(s: System, i: nat) {
    || Enabled(s, Acquire(i)) || Enabled(s, Begin(i)) || Enabled(s, WorkerEnds(i)) || Enabled(s, Release(i))
  }

  /** Waiting for a lock somebody else owns. */
  predicate Blocked(s: System, i: nat) {
    i < |s.calls| && Waiting(s.calls[i]) && Wanted(s.calls[i]) in s.owner
  }

  lemma MovesOrBlocked(s: System, i: nat)
    requires Consistent(s) && i < |s.calls| && !Finished(s.calls[i])
    ensures CanMove(s, i) <==> !Blocked(s, i)
  {
    var c := s.calls[i];
    assert Held(c) <= |Order(c.kind)|;
  }

  lemma OwnerIsUnfinished(s: System, l: Lock)
    requires Consistent(s) && l in s.owner
    ensures s.owner[l] < |s.calls| && !Finished(s.calls[s.owner[l]])
  {
    assert Holds(s.calls[s.owner[l]], l);
  }

  lemma LocalHolderWants(c: Call)
    requires Holds(c, Local) && Waiting(c)
    ensures Wanted(c) == Agent
  {
  }

  lemma TargetHolderWants(c: Call)
    requires Holds(c, Target) && Waiting(c)
    ensures Wanted(c) == Local || Wanted(c) == Agent
  {
  }

  lemma AgentWaiterHoldsTarget(c: Call)
    requires Waiting(c) && Wanted(c) == Agent
    ensures Holds(c, Target) && !Holds(c, Agent)
  {
  }

  /** Nobody waits long for the agent lock: the waiter has the target lock, so it is free. */
  lemma AgentIsFree(s: System, i: nat)
    requires Consistent(s) && i < |s.calls| && Waiting(s.calls[i]) && Wanted(s.calls[i]) == Agent
    ensures Agent !in s.owner
  {
    hide Consistent, Order, Position, Holds, Waiting, Wanted;
    AgentWaiterHoldsTarget(s.calls[i]);
    HolderOwns(s, i, Target);
    if Agent in s.owner {
      AgentOwnerHasTarget(s);
      OwnerHolds(s, Agent);
      assert false;
    }
  }

  /** The owner of the local lock is never blocked: if it wants the agent lock, that one is free. */
  lemma LocalOwnerMoves(s: System)
    requires Consistent(s) && Local in s.owner
    ensures CanMove(s, s.owner[Local])
  {
    hide Consistent, Order, Position, Holds, CanMove, Wanted, Waiting;
    var i := s.owner[Local];
    OwnerHolds(s, Local);
    OwnerIsUnfinished(s, Local);
    MovesOrBlocked(s, i);
    if Waiting(s.calls[i]) {
      LocalHolderWants(s.calls[i]);
      AgentIsFree(s, i);
    }
  }

  /** The owner of the agent lock is never blocked. */
  lemma AgentOwnerMoves(s: System)
    requires Consistent(s) && Agent in s.owner
    ensures CanMove(s, s.owner[Agent])
  {
    hide Consistent, Order, Position, Holds, CanMove;
    OwnerHolds(s, Agent);
    OwnerIsUnfinished(s, Agent);
    MovesOrBlocked(s, s.owner[Agent]);
    AgentIsLast(s.calls[s.owner[Agent]]);
  }

  lemma AgentIsLast(c: Call)
    requires Holds(c, Agent)
    ensures !Waiting(c)
  {
  }

  /** The owner of the target lock can be held up by the owner of the local lock only. */
  lemma TargetOwnerWaitsForLocal(s: System)
    requires Consistent(s) && Target in s.owner && !CanMove(s, s.owner[Target])
    ensures Blocked(s, s.owner[Target]) && Wanted(s.calls[s.owner[Target]]) == Local
    ensures CanMove(s, s.owner[Local])
  {
    hide Consistent, Order, Position, Holds, CanMove, Wanted, Waiting;
    var i := s.owner[Target];
    OwnerHolds(s, Target);
    OwnerIsUnfinished(s, Target);
    MovesOrBlocked(s, i);
    TargetHolderWants(s.calls[i]);
    if Wanted(s.calls[i]) == Agent {
      AgentIsFree(s, i);
    }
    LocalOwnerMoves(s);
  }

  /** A blocked call waits for a call that can move, or for one that waits for a call that can move. */
  lemma WaitsAreShort(s: System, i: nat)
    requires Consistent(s) && Blocked(s, i)
    ensures var j := s.owner[Wanted(s.calls[i])];
            CanMove(s, j) || (Blocked(s, j) && CanMove(s, s.owner[Wanted(s.calls[j])]))
  {
    hide CanMove;
    match Wanted(s.calls[i])
    case Local => LocalOwnerMoves(s);
    case Agent => AgentOwnerMoves(s);
    case Target =>
      if !CanMove(s, s.owner[Target]) {
        TargetOwnerWaitsForLocal(s);
      }
  }

  /** No deadlock: while a call is unfinished, some call can move. */
  lemma NoDeadlock(s: System, i: nat)
    requires Consistent(s) && i < |s.calls| && !Finished(s.calls[i])
    ensures exists j :: CanMove(s, j)
  {
    MovesOrBlocked(s, i);
    if Blocked(s, i) {
      WaitsAreShort(s, i);
    }
  }

  /** A local diagnostic waits, if at all, for one call that can move and is not an agent call. */
  lemma DiagnosticsPassAgentCalls(s: System, i: nat)
    requires Consistent(s) && Blocked(s, i) && s.calls[i].kind == Diagnostic
    ensures var j := s.owner[Local];
            CanMove(s, j) && s.calls[j].kind != AgentCall && s.calls[j].kind != OtherCall
  {
    LocalOwnerMoves(s);
    assert Holds(s.calls[s.owner[Local]], Local);
  }

  // ------------------------------------------------------------ everything ends

  /** Moves a call has left before it is finished. */
  function Left(c: Call): nat
    requires Held(c) <= |Order(c.kind)|
  {
    match c.phase
    case Acquiring(n) => 2 * |Order(c.kind)| + 3 - n
    case Working(cancelled) => |Order(c.kind)| + (if cancelled then 1 else 2)
    case Releasing(n) => n
  }

  function TotalLeft(calls: seq<Call>): nat
    requires forall c <- calls :: Held(c) <= |Order(c.kind)|
  {
    if calls == [] then 0
    else
      assert forall c <- calls[1..] :: c in calls;
      Left(calls[0]) + TotalLeft(calls[1..])
  }

  lemma {:induction false} OneCallLess(calls: seq<Call>, i: nat, d: Call)
    requires i < |calls| && forall c <- calls :: Held(c) <= |Order(c.kind)|
    requires Held(d) <= |Order(d.kind)| && Left(d) < Left(calls[i])
    ensures forall c <- calls[i := d] :: Held(c) <= |Order(c.kind)|
    ensures TotalLeft(calls[i := d]) < TotalLeft(calls)
    decreases |calls|
  {
    hide Left;
    var next := calls[i := d];
    forall c | c in next ensures Held(c) <= |Order(c.kind)| {
      assert c in calls || c == d;
    }
    if i == 0 {
      assert next[1..] == calls[1..];
    } else {
      assert forall c <- calls[1..] :: c in calls;
      OneCallLess(calls[1..], i - 1, d);
      assert next[1..] == calls[1..][i - 1 := d];
    }
  }

  ghost predicate Bounded(s: System) {
    forall c <- s.calls :: Held(c) <= |Order(c.kind)|
  }

  lemma ConsistentIsBounded(s: System)
    requires Consistent(s)
    ensures Bounded(s)
  {
    forall c | c in s.calls ensures Held(c) <= |Order(c.kind)| {
      var i :| 0 <= i < |s.calls| && s.calls[i] == c;
    }
  }

  /** Without new arrivals every step brings the system closer to rest. */
  lemma StepsRunOut(s: System, step: Step)
    requires Consistent(s) && Enabled(s, step) && !step.Arrive?
    ensures Bounded(s) && Bounded(Next(s, step))
    ensures TotalLeft(Next(s, step).calls) < TotalLeft(s.calls)
  {
    hide TotalLeft;
    ConsistentIsBounded(s);
    var i := step.id;
    assert s.calls[i] in s.calls;
    OneCallLess(s.calls, i, Next(s, step).calls[i]);
  }

  /** Each step of the schedule is possible when its turn comes, and no call arrives. */
  predicate Possible(s: System, schedule: seq<Step>)
    decreases |schedule|
  {
    schedule == []
    || (!schedule[0].Arrive? && Enabled(s, schedule[0]) && Possible(Next(s, schedule[0]), schedule[1..]))
  }

  ghost predicate AtRest(s: System) {
    forall step: Step :: !step.Arrive? ==> !Enabled(s, step)
  }

  ghost predicate AllFinished(s: System) {
    forall i | 0 <= i < |s.calls| :: Finished(s.calls[i])
  }

  /** The system is at rest only when every call has finished. */
  lemma RestIsTheEnd(s: System)
    requires Consistent(s)
    ensures AtRest(s) <==> AllFinished(s)
  {
    hide Consistent, Order;
    if !AllFinished(s) {
      var i :| 0 <= i < |s.calls| && !Finished(s.calls[i]);
      NoDeadlock(s, i);
      var j :| CanMove(s, j);
      assert Enabled(s, Move(s, j)) && !Move(s, j).Arrive?;
    }
  }

  /**
   * However the calls are scheduled, fairly or not: without arrivals there are at most as many
   * steps as moves are left, and when no more is possible every call has finished.
   */
  lemma {:induction false} EveryScheduleEnds(s: System, schedule: seq<Step>)
    requires Consistent(s) && Possible(s, schedule)
    ensures Bounded(s) && |schedule| <= TotalLeft(s.calls)
    ensures AtRest(Run(s, schedule)) <==> AllFinished(Run(s, schedule))
    decreases |schedule|
  {
    hide Consistent, TotalLeft, Next, Enabled, AtRest, AllFinished, Bounded;
    ConsistentIsBounded(s);
    if schedule == [] {
      RestIsTheEnd(s);
    } else {
      StepKeeps(s, schedule[0]);
      StepsRunOut(s, schedule[0]);
      EveryScheduleEnds(Next(s, schedule[0]), schedule[1..]);
    }
  }

  /** Once arrivals stop, the calls can all be brought to an end; none of them is stuck. */
  lemma {:induction false} EverythingCanFinish(s: System)
    requires Consistent(s) && Bounded(s)
    ensures exists schedule :: forall c <- Run(s, schedule).calls :: Finished(c)
    decreases TotalLeft(s.calls)
  {
    hide Consistent, TotalLeft, Next, Enabled;
    if i: nat :| i < |s.calls| && !Finished(s.calls[i]) {
      NoDeadlock(s, i);
      var j :| CanMove(s, j);
      var step := Move(s, j);
      StepKeeps(s, step);
      StepsRunOut(s, step);
      EverythingCanFinish(Next(s, step));
      var rest :| forall c <- Run(Next(s, step), rest).calls :: Finished(c);
      assert ([step] + rest)[1..] == rest;
      assert Run(s, [step] + rest) == Run(Next(s, step), rest);
    } else {
      assert Run(s, []) == s;
      forall c | c in s.calls ensures Finished(c) {
        var i: nat :| i < |s.calls| && s.calls[i] == c;
      }
    }
  }

  function Move(s: System, j: nat): (step: Step)
    requires CanMove(s, j)
    ensures Enabled(s, step) && !step.Arrive?
  {
    if Enabled(s, Acquire(j)) then Acquire(j)
    else if Enabled(s, Begin(j)) then Begin(j)
    else if Enabled(s, WorkerEnds(j)) then WorkerEnds(j)
    else Release(j)
  }
}
