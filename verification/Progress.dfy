/** The turn never gets stuck: from every reachable state it can move on, and it
    moves on towards every queued thread within a fixed number of steps. */
module Progress {
  import opened Queues
  import opened SchedCore
  import opened SchedSpec
  import opened Protocol
  import opened ProtocolInv
  import opened ProtocolSteps
  import opened ProtocolTheorems

  // ----- the turn can always move on ---------------------------------------------------

  /** A step by which the turn moves on. */
  ghost predicate Moves(l: Label) {
    l.Take? || Releases(l) || l.DrainWakeups? || l.Look? || l.Post?
  }

  /** A set can be traversed in some order. */
  lemma {:induction false} SomeOrder(pending: set<Tid>) returns (order: seq<Tid>)
    ensures IsOrder(order, pending)
  {
    if pending == {} {
      order := [];
    } else {
      var t :| t in pending;
      var rest := SomeOrder(pending - {t});
      assert t !in Elems(rest);
      NoDupConcat(rest, [t]);
      order := rest + [t];
      assert Elems(order) == Elems(rest) + {t};
    }
  }

  /** Steps until the turn can move on: the front thread comes back from its
      call and to getTurn(), the holder counts its turn, idle searches the queue. */
  ghost function Distance(s: State): nat
    requires Shape(s)
  {
    match s.phase
    case InFlight =>
      if s.h.core.runq == [] || s.h.core.runq[0] >= |s.pc| then 0
      else (match s.pc[s.h.core.runq[0]] case App => 1 case Returned => 2 case Detached => 2 case _ => 0)
    case Held(t, inc) => if !inc && t < |s.pc| && s.pc[t] == Wanting then 1 else 0
    case Scanning(i) => if i < |s.h.core.runq| then |s.h.core.runq| - i + 1 else 1
    case _ => 0
  }

  /** In every reachable state before the end an enabled step moves the turn on,
      or brings the state closer to one in which the turn can move on.  (The
      holder of a turn is taken to want to give it up.) */
  lemma TurnMovesOn(cfg: Config, s: State) returns (l: Label)
    requires Reachable(cfg, s) && !s.phase.Stopped? && s.h.core.turn < FOREVER
    ensures Shape(s) && Guard(s, l) && Asserts(cfg, s, l) && Shape(Apply(cfg, s, l))
    ensures Moves(l) || Distance(Apply(cfg, s, l)) < Distance(s)
  {
    ReachableInv(cfg, s);
    if s.phase.InFlight? {
      l := FrontComes(cfg, s);
    } else if s.phase.Held? {
      l := HolderGives(cfg, s);
    } else {
      l := HandOverGoesOn(cfg, s);
    }
    StepSafe(cfg, s, l);
    if !Moves(l) {
      Closer(cfg, s, l);
    }
  }

  /** A posted turn is taken, or the front thread is on its way to take it. */
  lemma FrontComes(cfg: Config, s: State) returns (l: Label)
    requires Inv(cfg, s) && s.phase.InFlight?
    ensures Guard(s, l) && (l.Take? || ((l.Wake? || l.Arrive?) && AtFront(s, l.t)))
  {
    var n := s.h.core.runq[0];
    assert n in s.h.core.runq && ViewOk(cfg, n, ViewOf(s, n));
    match s.pc[n]
    case App => l := Arrive(n);
    case Returned => l := Wake(n);
    case Detached => l := Wake(n);
    case _ => l := Take(n);
  }

  lemma HolderGives(cfg: Config, s: State) returns (l: Label)
    requires Inv(cfg, s) && s.phase.Held? && s.h.core.turn < FOREVER
    ensures Guard(s, l) && (Releases(l) || (l.Inc? && !s.phase.inc && s.pc[s.phase.t] == Wanting))
  {
    var order := SomeOrder(s.h.pending);
    var t := s.phase.t;
    assert ViewOk(cfg, t, ViewOf(s, t));
    l := if s.pc[t] == Blocking then Block(order) else if s.phase.inc then PutTurn else Inc(order);
  }

  lemma HandOverGoesOn(cfg: Config, s: State) returns (l: Label)
    requires Inv(cfg, s) && !s.phase.InFlight? && !s.phase.Held? && !s.phase.Stopped?
    ensures Guard(s, l) && (Moves(l) || l.Scan?)
  {
    var order := SomeOrder(s.h.pending);
    l := match s.phase
      case Scanning(_) => Scan
      case Promised => LeaveIdle
      case Draining(_, _) => DrainWakeups(order)
      case Seeking(_, _) => Look
      case _ => Post;
  }

  lemma Closer(cfg: Config, s: State, l: Label)
    requires Inv(cfg, s) && Guard(s, l) && Asserts(cfg, s, l) && Shape(Apply(cfg, s, l))
    requires || ((l.Wake? || l.Arrive?) && AtFront(s, l.t) && s.phase.InFlight?)
             || (l.Inc? && !s.phase.inc && s.pc[s.phase.t] == Wanting) || l.Scan?
    ensures Distance(Apply(cfg, s, l)) < Distance(s)
  {
  }

  // ----- how soon it reaches a thread ---------------------------------------------------

  ghost function MoveCount(ls: seq<Label>): nat {
    if ls == [] then 0 else (if Moves(ls[0]) then 1 else 0) + MoveCount(ls[1..])
  }

  /** Moves still to come before the next release of the turn. */
  ghost function Rank(phase: Phase): nat {
    match phase
    case Draining(_, _) => 4
    case Seeking(_, _) => 3
    case Granting(_) => 2
    case InFlight => 1
    case _ => 0
  }

  lemma RankOfRelease(cfg: Config, s: State, l: Label)
    requires Shape(s) && Guard(s, l) && Asserts(cfg, s, l) && Releases(l)
    ensures Rank(Apply(cfg, s, l).phase) == 4
  {
  }

  lemma RankFalls(cfg: Config, s: State, l: Label)
    requires Inv(cfg, s) && Guard(s, l) && Asserts(cfg, s, l) && (l.Take? || l.DrainWakeups? || l.Post?)
    ensures Rank(Apply(cfg, s, l).phase) == Rank(s.phase) - 1
  {
  }

  lemma RankStays(cfg: Config, s: State, l: Label)
    requires Shape(s) && Guard(s, l) && Asserts(cfg, s, l) && !Moves(l)
    ensures Rank(Apply(cfg, s, l).phase) == Rank(s.phase)
  {
  }

  lemma RankStep(cfg: Config, s: State, l: Label)
    requires Inv(cfg, s) && Guard(s, l) && Asserts(cfg, s, l) && !l.Look?
    ensures Rank(Apply(cfg, s, l).phase) ==
            if Releases(l) then 4 else if Moves(l) then Rank(s.phase) - 1 else Rank(s.phase)
  {
    if Releases(l) {
      RankOfRelease(cfg, s, l);
    } else if Moves(l) {
      RankFalls(cfg, s, l);
    } else {
      RankStays(cfg, s, l);
    }
  }

  /** A look that finds `t` queued either grants the turn or brings `t` forward. */
  lemma LookMoves(cfg: Config, s: State, t: Tid, k: nat)
    requires Inv(cfg, s) && s.phase.Seeking? && Guard(s, Look) && Asserts(cfg, s, Look)
    requires At(s, t, k) && t in Apply(cfg, s, Look).h.core.runq
    ensures var s' := Apply(cfg, s, Look);
            || (s'.phase.Granting? && (At(s', t, k) || (k > 0 && At(s', t, k - 1))))
            || (s'.phase == s.phase && k > 0 && At(s', t, k - 1))
  {
    NoDupTail(s.h.core.runq);
    BusyLookShrinks(cfg, s);
    LookBypass(cfg, s, t, k);
    assert k > 0 ==> s.h.core.runq[1..][k - 1] == t;
  }

  /** The potential 5k + rank falls with every move of the turn and rises with none. */
  lemma PotentialFalls(cfg: Config, s: State, l: Label, t: Tid, k: nat) returns (k': nat)
    requires Inv(cfg, s) && Guard(s, l) && Asserts(cfg, s, l) && At(s, t, k) && !Served(s, t)
    requires t in Apply(cfg, s, l).h.core.runq
    ensures At(Apply(cfg, s, l), t, k')
    ensures 5 * k' + Rank(Apply(cfg, s, l).phase) + (if Moves(l) then 1 else 0) <= 5 * k + Rank(s.phase)
  {
    var s' := Apply(cfg, s, l);
    if l.Look? {
      LookMoves(cfg, s, t, k);
      k' := if At(s', t, k) && s'.phase.Granting? then k else k - 1;
    } else {
      BypassStep(cfg, s, l, t, k);
      RankStep(cfg, s, l);
      k' := if Releases(l) || !At(s', t, k) then k - 1 else k;
    }
  }

  /** A thread at index `k` of the run queue is given the turn, or taken out
      because it is blocked in a system call, before the turn has moved on
      5k + 5 times, however the other threads interleave. */
  lemma {:induction false} ServedWithin(cfg: Config, s: State, ls: seq<Label>, s': State, t: Tid, k: nat)
    requires Inv(cfg, s) && Reaches(cfg, s, ls, s') && At(s, t, k) && Bypassed(cfg, s, ls, t)
    ensures MoveCount(ls) <= 5 * k + Rank(s.phase) <= 5 * k + 4
    decreases |ls|
  {
    if ls == [] {
      assert MoveCount(ls) == 0;
    } else {
      StepSafe(cfg, s, ls[0]);
      var k' := PotentialFalls(cfg, s, ls[0], t, k);
      ServedWithin(cfg, Apply(cfg, s, ls[0]), ls[1..], s', t, k');
    }
  }
}
