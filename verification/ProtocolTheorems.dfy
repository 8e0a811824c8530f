/** What holds in every reachable state of the scheduler, and over whole runs. */
module ProtocolTheorems {
  import opened Queues
  import opened SchedCore
  import opened SchedSpec
  import opened Protocol
  import opened ProtocolInv
  import opened ProtocolSteps

  /** `ls` is a run from `s` to `s'`: every step enabled, no assertion failed so far. */
  ghost predicate Reaches(cfg: Config, s: State, ls: seq<Label>, s': State)
    decreases |ls|
  {
    if ls == [] then s == s'
    else Shape(s) && Guard(s, ls[0]) && Asserts(cfg, s, ls[0]) && Reaches(cfg, Apply(cfg, s, ls[0]), ls[1..], s')
  }

  lemma {:induction false} RunInv(cfg: Config, s: State, ls: seq<Label>, s': State)
    requires Inv(cfg, s) && Reaches(cfg, s, ls, s')
    ensures Inv(cfg, s')
    decreases |ls|
  {
    if ls == [] {
    } else {
      StepSafe(cfg, s, ls[0]);
      RunInv(cfg, Apply(cfg, s, ls[0]), ls[1..], s');
    }
  }

  lemma {:induction false} RunExtends(cfg: Config, s: State, ls: seq<Label>, s': State, l: Label)
    requires Reaches(cfg, s, ls, s') && Shape(s') && Guard(s', l) && Asserts(cfg, s', l)
    ensures Reaches(cfg, s, ls + [l], Apply(cfg, s', l))
    decreases |ls|
  {
    if ls == [] {
      assert (ls + [l])[1..] == [];
    } else {
      RunExtends(cfg, Apply(cfg, s, ls[0]), ls[1..], s', l);
      assert (ls + [l])[1..] == ls[1..] + [l];
    }
  }

  /** Runs of any step relation. */
  ghost predicate Walk<S(!new), L>(step: (S, L, S) -> bool, s: S, ls: seq<L>, s': S)
    decreases |ls|
  {
    if ls == [] then s == s' else exists s1 :: step(s, ls[0], s1) && Walk(step, s1, ls[1..], s')
  }

  lemma {:induction false} WalksCompose<S(!new), L>(step: (S, L, S) -> bool, s: S, ls: seq<L>, s1: S,
                                                    ls1: seq<L>, s2: S)
    requires Walk(step, s, ls, s1) && Walk(step, s1, ls1, s2)
    ensures Walk(step, s, ls + ls1, s2)
    decreases |ls|
  {
    if ls == [] {
      assert ls + ls1 == ls1;
    } else {
      var m :| step(s, ls[0], m) && Walk(step, m, ls[1..], s1);
      WalksCompose(step, m, ls[1..], s1, ls1, s2);
      assert (ls + ls1)[0] == ls[0] && (ls + ls1)[1..] == ls[1..] + ls1;
    }
  }

  ghost function StepOf(cfg: Config): (State, Label, State) -> bool {
    (s: State, l: Label, s1: State) => Shape(s) && Guard(s, l) && Asserts(cfg, s, l) && s1 == Apply(cfg, s, l)
  }

  lemma {:induction false} ReachesIsWalk(cfg: Config, s: State, ls: seq<Label>, s': State)
    ensures Reaches(cfg, s, ls, s') <==> Walk(StepOf(cfg), s, ls, s')
    decreases |ls|
  {
    if ls == [] {
      assert Reaches(cfg, s, ls, s') <==> s == s';
    } else if Shape(s) && Guard(s, ls[0]) && Asserts(cfg, s, ls[0]) {
      ReachesIsWalk(cfg, Apply(cfg, s, ls[0]), ls[1..], s');
      assert StepOf(cfg)(s, ls[0], Apply(cfg, s, ls[0]));
    }
  }

  lemma RunsCompose(cfg: Config, s: State, ls: seq<Label>, s1: State, ls1: seq<Label>, s2: State)
    requires Reaches(cfg, s, ls, s1) && Reaches(cfg, s1, ls1, s2)
    ensures Reaches(cfg, s, ls + ls1, s2)
  {
    ReachesIsWalk(cfg, s, ls, s1);
    ReachesIsWalk(cfg, s1, ls1, s2);
    WalksCompose(StepOf(cfg), s, ls, s1, ls1, s2);
    ReachesIsWalk(cfg, s, ls + ls1, s2);
  }

  /** One enabled step, as a run of the protocol. */
  lemma StepOnce(cfg: Config, s: State, l: Label) returns (s1: State)
    requires Inv(cfg, s) && Guard(s, l)
    ensures Asserts(cfg, s, l) && s1 == Apply(cfg, s, l) && Inv(cfg, s1) && Reaches(cfg, s, [l], s1)
  {
    StepSafe(cfg, s, l);
    s1 := Apply(cfg, s, l);
    RunExtends(cfg, s, [], s, l);
  }

  ghost predicate Reachable(cfg: Config, s: State) {
    exists ls :: Reaches(cfg, Init(), ls, s)
  }

  lemma ReachableInv(cfg: Config, s: State)
    requires Reachable(cfg, s)
    ensures Inv(cfg, s)
  {
    var ls :| Reaches(cfg, Init(), ls, s);
    InitInv(cfg);
    RunInv(cfg, Init(), ls, s);
  }

  /** No assertion of the scheduler can fail, on any interleaving. */
  lemma NoAssertionFails(cfg: Config, s: State, l: Label)
    requires Reachable(cfg, s)
    ensures Shape(s) && (Guard(s, l) ==> Asserts(cfg, s, l))
  {
    ReachableInv(cfg, s);
    if Guard(s, l) {
      StepSafe(cfg, s, l);
    }
  }

  /** The assertions of the code, one by one, on the fields of a reachable state. */
  lemma AssertionsSpelt(cfg: Config, s: State)
    requires Reachable(cfg, s)
    ensures Shape(s)
    // interProStart, interProEnd
    ensures forall t :: 0 <= t < |s.pc| && s.pc[t] == App ==> s.h.status[t] in {Runnable, RunningReg}
    ensures forall t :: 0 <= t < |s.pc| && s.pc[t] == Calling ==> s.h.status[t] == InterProStop
    // getTurn, signal, putTurn, wait, block, tryPutTurn: the caller is the front of the queue
    ensures s.phase.Held? ==> s.h.core.runq != [] && s.h.core.runq[0] == s.phase.t < |s.pc|
    ensures s.phase.Scanning? || s.phase.Promised? ==> s.h.core.runq != [] && s.h.core.runq[0] == IDLE
    // putTurn, next: the caller's status
    ensures s.phase.Held? ==>
              s.h.status[s.phase.t] == if s.pc[s.phase.t] == Blocking then RunningInterPro else RunningReg
    // nextRunnable, wakeUpIdleThread: idle sleeps, and does not wake itself
    ensures s.phase.Seeking? && s.h.core.runq == [] ==>
              || (s.phase.atEnd && (s.h.core.waitq == [] || s.phase.t == MAIN))
              || (s.phase.t != IDLE && IDLE in s.h.core.waitq)
    // check_wakeup, block, checkNonDetBound: the non-det set
    ensures cfg.bound.Within? ==> forall t :: t in s.h.pending && t !in s.h.core.runq ==> t in s.h.nds.list
    ensures forall t :: t in s.h.core.runq ==> t !in s.h.nds.list && t !in s.h.nds.clock
    ensures forall t :: t in s.h.nds.list ==> t in s.h.nds.clock
  {
    ReachableInv(cfg, s);
    forall t | 0 <= t < |s.pc|
      ensures s.pc[t] == App ==> s.h.status[t] in {Runnable, RunningReg}
      ensures s.pc[t] == Calling ==> s.h.status[t] == InterProStop
    {
      assert ViewOk(cfg, t, ViewOf(s, t));
    }
    PendingFacts(cfg, s);
    NonDetOutside(cfg, s);
    if s.phase.Held? {
      assert ViewOk(cfg, s.phase.t, ViewOf(s, s.phase.t));
    }
    if s.phase.Seeking? && s.h.core.runq == [] {
      var s1 := WakeIdleKeeps(cfg, s);
    }
  }

  // ----- there is one turn ----------------------------------------------------------

  ghost function Posts(waits: seq<Wait>): nat {
    if waits == [] then 0 else waits[0].sem + Posts(waits[1..])
  }

  lemma {:induction false} NoPosts(waits: seq<Wait>)
    requires forall i :: 0 <= i < |waits| ==> waits[i].sem == 0
    ensures Posts(waits) == 0
  {
    if waits == [] {
    } else {
      NoPosts(waits[1..]);
    }
  }

  lemma {:induction false} OnePost(waits: seq<Wait>, k: nat)
    requires k < |waits|
    requires forall i :: 0 <= i < |waits| ==> waits[i].sem == if i == k then 1 else 0
    ensures Posts(waits) == 1
  {
    if k == 0 {
      NoPosts(waits[1..]);
    } else {
      OnePost(waits[1..], k - 1);
    }
  }

  /** Turns in the system: posted and not yet taken, or in somebody's hands. */
  ghost function Turns(s: State): nat {
    Posts(s.h.core.waits) + if s.phase.InFlight? || s.phase.Stopped? then 0 else 1
  }

  /** The turn is neither lost nor duplicated until the program ends, a posted
      turn is the front thread's, and so is a held one. */
  lemma TurnConserved(cfg: Config, s: State)
    requires Reachable(cfg, s)
    ensures Turns(s) == if s.phase.Stopped? then 0 else 1
    ensures forall u :: 0 <= u < |s.h.core.waits| && s.h.core.waits[u].sem > 0 ==> AtFront(s, u)
    ensures s.phase.Held? ==> AtFront(s, s.phase.t)
  {
    ReachableInv(cfg, s);
    if s.phase.InFlight? {
      OnePost(s.h.core.waits, s.h.core.runq[0]);
    } else {
      NoPosts(s.h.core.waits);
    }
  }

  /** The semaphore and the flag relays are interchangeable: a thread finds its
      flag set exactly when its semaphore is positive, and only taking the turn
      clears a set flag, although every wait_t::reset overwrites it. */
  lemma RelaysAgree(cfg: Config, s: State, l: Label)
    requires Reachable(cfg, s) && Shape(s) && Guard(s, l) && Asserts(cfg, s, l)
    ensures forall u :: 0 <= u < |s.pc| ==> (s.h.core.waits[u].wakenUp <==> s.h.core.waits[u].sem > 0)
    ensures forall u :: 0 <= u < |s.pc| && s.h.core.waits[u].wakenUp && l != Take(u) ==>
              u < |Apply(cfg, s, l).h.core.waits| && Apply(cfg, s, l).h.core.waits[u].wakenUp
  {
    ReachableInv(cfg, s);
    StepSafe(cfg, s, l);
    var s' := Apply(cfg, s, l);
    forall u | 0 <= u < |s.pc| ensures s.h.core.waits[u].wakenUp <==> s.h.core.waits[u].sem > 0 {
      assert ViewOk(cfg, u, ViewOf(s, u));
    }
    forall u | 0 <= u < |s.pc| && s.h.core.waits[u].wakenUp && l != Take(u)
      ensures u < |s'.h.core.waits| && s'.h.core.waits[u].wakenUp
    {
      assert s.phase.InFlight? && AtFront(s, u);
      assert s'.h.core.waits == s.h.core.waits;
    }
  }

  // ----- where threads are ----------------------------------------------------------

  /** RRScheduler::selfcheck. */
  ghost predicate SelfCheck(s: State) {
    && (forall t :: t in s.h.core.runq ==> t < |s.h.core.waits|)
    && (forall t :: t in s.h.core.waitq ==> t < |s.h.core.waits|)
    && NoDup(s.h.core.runq + s.h.core.waitq)
    && (forall t :: t in s.h.core.runq ==> s.h.core.waits[t].chan == Null && s.h.core.waits[t].timeout == FOREVER)
    && (forall t :: t in s.h.core.waitq ==> !(s.h.core.waits[t].chan == Null && s.h.core.waits[t].timeout == FOREVER))
  }

  lemma SelfCheckPasses(cfg: Config, s: State)
    requires Reachable(cfg, s)
    ensures SelfCheck(s)
  {
    ReachableInv(cfg, s);
    NoDupConcat(s.h.core.runq, s.h.core.waitq);
    forall t | t in s.h.core.runq || t in s.h.core.waitq
      ensures t in s.h.core.waitq <==> !(s.h.core.waits[t].chan == Null && s.h.core.waits[t].timeout == FOREVER)
    {
      assert ViewOk(cfg, t, ViewOf(s, t));
    }
  }

  /** Every thread is in exactly one place, and a thread that is in no queue is
      in its blocking call, between interProEnd and wakeup, in a non-det
      region, about to be re-queued by check_wakeup, or has ended.  A waiting
      or ended thread never has a wake-up pending. */
  lemma NobodyLost(cfg: Config, s: State, t: Tid)
    requires Reachable(cfg, s) && t < |s.pc|
    ensures !(t in s.h.core.runq && t in s.h.core.waitq)
    ensures t !in s.h.core.runq && t !in s.h.core.waitq ==>
              s.pc[t] in {Ended, Calling, Returned, Detached} || t in s.h.pending
    ensures t in s.h.pending ==> t !in s.h.core.waitq && s.pc[t] != Ended
    ensures s.pc[t] == Ended ==> t !in s.h.core.runq && t !in s.h.core.waitq
  {
    ReachableInv(cfg, s);
    assert ViewOk(cfg, t, ViewOf(s, t));
  }

  /** The turn is never posted to a thread that sits in a blocking call, and,
      unless the clock bound asks for it, never to one in a non-det region. */
  lemma TurnReachesThread(cfg: Config, s: State)
    requires Reachable(cfg, s) && s.phase.InFlight?
    ensures s.h.core.runq != [] && s.h.core.runq[0] < |s.pc|
    ensures s.pc[s.h.core.runq[0]] in {App, Wanting, Blocking, Returned, Detached}
    ensures cfg.bound.NoBound? ==> s.pc[s.h.core.runq[0]] != Detached
  {
    ReachableInv(cfg, s);
    assert s.h.core.runq[0] in s.h.core.runq;
    assert ViewOk(cfg, s.h.core.runq[0], ViewOf(s, s.h.core.runq[0]));
  }

  /** The non-det set holds exactly the threads outside deterministic control,
      its list and index agree, and its first thread has the smallest clock. */
  lemma NonDetFirst(cfg: Config, s: State, t: Tid)
    requires Reachable(cfg, s) && cfg.bound.Within? && t < |s.pc|
    ensures t in s.h.nds.list <==> t in s.h.nds.clock
    ensures t in s.h.nds.list <==> t !in s.h.core.runq && t !in s.h.core.waitq && s.pc[t] != Ended
    ensures t in s.h.nds.list ==> s.h.nds.list[0] in s.h.nds.clock && s.h.nds.clock[s.h.nds.list[0]] <= s.h.nds.clock[t]
  {
    ReachableInv(cfg, s);
    assert ViewOk(cfg, t, ViewOf(s, t));
    if t in s.h.nds.list {
      assert s.h.nds.list[0] in s.h.nds.list;
      var i :| 0 <= i < |s.h.nds.list| && s.h.nds.list[i] == t;
    }
  }

  /** Once tryPutTurn has promised a turn and idle is asleep, the hand-over it
      performs finds another thread: idle never has to wake itself. */
  lemma IdleFindsAnother(cfg: Config, s: State)
    requires Reachable(cfg, s) && s.phase.Seeking? && s.phase.t == IDLE && IDLE !in s.h.core.runq
    ensures s.h.core.runq != [] && Shape(s) && Guard(s, Look) && Asserts(cfg, s, Look)
    ensures var s' := Apply(cfg, s, Look);
            && IDLE !in s'.h.core.runq
            && (s'.phase == s.phase || (s'.phase.Granting? && s'.phase.n != IDLE))
  {
    ReachableInv(cfg, s);
    StepSafe(cfg, s, Look);
  }

  // ----- nextRunnable terminates ------------------------------------------------------

  ghost predicate Side(l: Label) {
    l.Start? || l.Finish? || l.Wake? || l.Arrive?
  }

  /** Looks in a run. */
  ghost function Looks(ls: seq<Label>): nat {
    if ls == [] then 0 else (if ls[0].Look? then 1 else 0) + Looks(ls[1..])
  }

  lemma BusyLookShrinks(cfg: Config, s: State)
    requires Inv(cfg, s) && s.phase.Seeking? && Guard(s, Look) && Asserts(cfg, s, Look) && s.h.core.runq != []
    ensures var s' := Apply(cfg, s, Look);
            s'.phase.Granting? || (s'.phase == s.phase && s'.h.core.runq == s.h.core.runq[1..])
  {
    var n := s.h.core.runq[0];
    assert n in s.h.core.runq && ViewOk(cfg, n, ViewOf(s, n));
    var s1 := RefillKeeps(cfg, s);
  }

  lemma EmptyLookEnds(cfg: Config, s: State)
    requires Inv(cfg, s) && s.phase.Seeking? && Guard(s, Look) && Asserts(cfg, s, Look) && s.h.core.runq == []
    ensures var s' := Apply(cfg, s, Look); s'.phase.Granting? || s'.phase.Stopped?
  {
    if !EndOfProgram(s.h, s.phase.t, s.phase.atEnd) {
      var s1 := WakeIdleKeeps(cfg, s);
    }
  }

  lemma LookShrinks(cfg: Config, s: State)
    requires Inv(cfg, s) && s.phase.Seeking? && Guard(s, Look) && Asserts(cfg, s, Look)
    ensures var s' := Apply(cfg, s, Look);
            || s'.phase.Granting? || s'.phase.Stopped?
            || (s'.phase == s.phase && s.h.core.runq != [] && s'.h.core.runq == s.h.core.runq[1..])
  {
    if s.h.core.runq == [] {
      EmptyLookEnds(cfg, s);
    } else {
      BusyLookShrinks(cfg, s);
    }
  }

  /** However the other threads interleave, the loop of nextRunnable examines
      at most one more element than were queued when it began. */
  lemma {:induction false} NextRunnableTerminates(cfg: Config, s: State, ls: seq<Label>, s': State)
    requires Inv(cfg, s) && s.phase.Seeking? && Reaches(cfg, s, ls, s')
    requires forall l :: l in ls ==> Side(l) || l.Look?
    ensures s'.phase.Seeking? ==> Looks(ls) <= |s.h.core.runq|
    decreases |ls|
  {
    if ls == [] {
    } else {
      StepSafe(cfg, s, ls[0]);
      var s1 := Apply(cfg, s, ls[0]);
      if ls[0].Look? {
        LookShrinks(cfg, s);
      }
      assert forall l :: l in ls[1..] ==> l in ls;
      if s1.phase.Seeking? {
        NextRunnableTerminates(cfg, s1, ls[1..], s');
      } else {
        NotSeekingAgain(cfg, s1, ls[1..], s');
      }
    }
  }

  lemma {:induction false} NotSeekingAgain(cfg: Config, s: State, ls: seq<Label>, s': State)
    requires (s.phase.Granting? || s.phase.Stopped?) && Reaches(cfg, s, ls, s')
    requires forall l :: l in ls ==> Side(l) || l.Look?
    ensures !s'.phase.Seeking?
    decreases |ls|
  {
    if ls == [] {
    } else {
      assert ls[0] in ls;
      assert forall l :: l in ls[1..] ==> l in ls;
      NotSeekingAgain(cfg, Apply(cfg, s, ls[0]), ls[1..], s');
    }
  }

  // ----- bounded bypass -----------------------------------------------------------------

  ghost predicate Releases(l: Label) {
    l.PutTurn? || l.End? || l.WaitOn? || l.Block? || l.LeaveIdle?
  }

  ghost function ReleaseCount(ls: seq<Label>): nat {
    if ls == [] then 0 else (if Releases(ls[0]) then 1 else 0) + ReleaseCount(ls[1..])
  }

  ghost predicate At(s: State, t: Tid, k: nat) {
    k < |s.h.core.runq| && s.h.core.runq[k] == t
  }

  /** The turn is at, or on its way to, thread `t`. */
  ghost predicate Served(s: State, t: Tid) {
    AtFront(s, t) && !s.phase.Draining? && !s.phase.Seeking?
  }

  /** In no state of the run is `t` served or out of the run queue. */
  ghost predicate Bypassed(cfg: Config, s: State, ls: seq<Label>, t: Tid)
    decreases |ls|
  {
    && t in s.h.core.runq && !Served(s, t)
    && (ls != [] && Shape(s) && Guard(s, ls[0]) && Asserts(cfg, s, ls[0]) ==>
          Bypassed(cfg, Apply(cfg, s, ls[0]), ls[1..], t))
  }

  lemma GrowsOnly(cfg: Config, h: Sched, order: seq<Tid>)
    ensures h.core.runq <= IncTurn(cfg, h, order).core.runq
    ensures CheckBoundReadable(cfg, h) ==> h.core.runq <= CheckBound(cfg, h).core.runq
  {
  }

  lemma ReleaseKeepsOrder(cfg: Config, s: State, l: Label)
    requires Shape(s) && Guard(s, l) && Asserts(cfg, s, l) && Releases(l)
    ensures s.h.core.runq != [] && s.h.core.runq[1..] <= Apply(cfg, s, l).h.core.runq
  {
    if l.WaitOn? || l.Block? {
      ParkingKeepsOrder(cfg, s, l);
    } else {
      PuttingKeepsOrder(cfg, s, l);
    }
  }

  lemma PuttingKeepsOrder(cfg: Config, s: State, l: Label)
    requires Shape(s) && Guard(s, l) && Asserts(cfg, s, l) && (l.PutTurn? || l.End? || l.LeaveIdle?)
    ensures s.h.core.runq != [] && s.h.core.runq[1..] <= Apply(cfg, s, l).h.core.runq
  {
    match l
    case PutTurn =>
      GrowsOnly(cfg, StepBack(s.h, s.phase.t), []);
    case End =>
      GrowsOnly(cfg, Ending(s.h, s.phase.t), []);
    case LeaveIdle =>
  }

  lemma ParkingKeepsOrder(cfg: Config, s: State, l: Label)
    requires Shape(s) && Guard(s, l) && Asserts(cfg, s, l) && (l.WaitOn? || l.Block?)
    ensures s.h.core.runq != [] && s.h.core.runq[1..] <= Apply(cfg, s, l).h.core.runq
  {
    match l
    case WaitOn(_, _, order) =>
      GrowsOnly(cfg, s.h, order);
    case Block(order) =>
      GrowsOnly(cfg, if cfg.bound.Within? then s.h.(nds := s.h.nds.Insert(s.phase.t, s.h.core.turn)) else s.h, order);
  }

  lemma OthersKeepOrder(cfg: Config, s: State, l: Label)
    requires Inv(cfg, s) && Guard(s, l) && Asserts(cfg, s, l) && !Releases(l) && !l.Look?
    ensures s.h.core.runq <= Apply(cfg, s, l).h.core.runq
  {
  }

  /** Queues only lose their front and only grow at their end. */
  lemma BypassStep(cfg: Config, s: State, l: Label, t: Tid, k: nat)
    requires Inv(cfg, s) && Guard(s, l) && Asserts(cfg, s, l)
    requires At(s, t, k) && !Served(s, t)
    requires t in Apply(cfg, s, l).h.core.runq
    ensures Releases(l) ==> k > 0 && At(Apply(cfg, s, l), t, k - 1)
    ensures At(Apply(cfg, s, l), t, k) || (k > 0 && At(Apply(cfg, s, l), t, k - 1))
  {
    if l.Look? {
      LookBypass(cfg, s, t, k);
    } else if Releases(l) {
      ReleaseKeepsOrder(cfg, s, l);
      assert k > 0;
      assert s.h.core.runq[1..][k - 1] == t;
    } else {
      OthersKeepOrder(cfg, s, l);
    }
  }

  lemma LookBypass(cfg: Config, s: State, t: Tid, k: nat)
    requires Inv(cfg, s) && s.phase.Seeking? && Guard(s, Look) && Asserts(cfg, s, Look)
    requires At(s, t, k) && t in Apply(cfg, s, Look).h.core.runq
    ensures At(Apply(cfg, s, Look), t, k) || (k > 0 && At(Apply(cfg, s, Look), t, k - 1))
  {
    NoDupTail(s.h.core.runq);
    var s1 := RefillKeeps(cfg, s);
    assert s.h.core.runq <= s1.h.core.runq;
  }

  /** A queued thread at index `k` is given the turn, or taken out because it
      is blocked in a system call, before the turn is released `k + 1` times. */
  lemma {:induction false} BoundedBypass(cfg: Config, s: State, ls: seq<Label>, s': State, t: Tid, k: nat)
    requires Inv(cfg, s) && Reaches(cfg, s, ls, s') && At(s, t, k) && Bypassed(cfg, s, ls, t)
    ensures ReleaseCount(ls) <= k
    decreases |ls|
  {
    if ls == [] {
    } else {
      StepSafe(cfg, s, ls[0]);
      var s1 := Apply(cfg, s, ls[0]);
      BypassStep(cfg, s, ls[0], t, k);
      var k1 := if Releases(ls[0]) || !At(s1, t, k) then k - 1 else k;
      BoundedBypass(cfg, s1, ls[1..], s', t, k1);
    }
  }

  lemma LookDrops(cfg: Config, s: State, t: Tid, k: nat)
    requires Inv(cfg, s) && s.phase.Seeking? && Guard(s, Look) && Asserts(cfg, s, Look) && At(s, t, k)
    ensures t in Apply(cfg, s, Look).h.core.runq || (k == 0 && t < |s.pc| && s.pc[t] == Calling)
  {
    assert t in s.h.core.runq;
    assert ViewOk(cfg, t, ViewOf(s, t));
    var s1 := RefillKeeps(cfg, s);
    assert s.h.core.runq <= s1.h.core.runq;
  }

  /** The only way out of the run queue without having had the turn is to be
      found at its front blocked in a system call. */
  lemma OnlyStoppedDropped(cfg: Config, s: State, l: Label, t: Tid, k: nat)
    requires Inv(cfg, s) && Guard(s, l) && Asserts(cfg, s, l) && At(s, t, k) && !Served(s, t)
    ensures t in Apply(cfg, s, l).h.core.runq || (l == Look && k == 0 && t < |s.pc| && s.pc[t] == Calling)
  {
    if l.Look? {
      LookDrops(cfg, s, t, k);
    } else if Releases(l) {
      ReleaseKeepsOrder(cfg, s, l);
      assert s.h.core.runq[1..][k - 1] == t;
    } else {
      OthersKeepOrder(cfg, s, l);
    }
  }
}
