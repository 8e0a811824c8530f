/** The wait queue is served in order of arrival: who waits longer stands before
    who came later, and a signal takes the one who came first. */
module Arrival {
  import opened Queues
  import opened SchedCore
  import opened SchedSpec
  import opened Protocol
  import opened ProtocolInv
  import opened ProtocolSteps
  import opened ProtocolTheorems
  import opened WaitFrame
  import opened Looks

  /** Two threads that both keep waiting keep their order; one that starts to wait
      stands behind everybody. */
  ghost predicate OrderKept(s: State, l: Label, s': State, a: Tid, b: Tid) {
    a in s'.h.core.waitq && b in s'.h.core.waitq && a != b ==>
      (Before(s'.h.core.waitq, a, b) <==> Parks(s, l, b) || (!Parks(s, l, a) && Before(s.h.core.waitq, a, b)))
  }

  lemma MovedOrder(q: seq<Tid>, hit: set<Tid>, a: Tid, b: Tid)
    ensures a in Reject(q, hit) && b in Reject(q, hit) ==> (Before(Reject(q, hit), a, b) <==> Before(q, a, b))
  {
    BeforeSplit(q, hit, a, b);
    RejectIn(q, hit);
  }

  lemma JoinedOrder(q: seq<Tid>, t: Tid, a: Tid, b: Tid)
    requires t !in q && a != b
    ensures a in q + [t] && b in q + [t] ==> (Before(q + [t], a, b) <==> b == t || (a != t && Before(q, a, b)))
  {
    BeforeConcat(q, [t], a, b);
    assert Before(q, a, b) ==> a in q && b in q;
  }

  /** What a step does to the wait queue: some leave, then perhaps one joins. */
  lemma WaitQueueStep(cfg: Config, s: State, l: Label) returns (hit: set<Tid>)
    requires Inv(cfg, s) && Guard(s, l) && Asserts(cfg, s, l)
    ensures Apply(cfg, s, l).h.core.waitq ==
            Reject(s.h.core.waitq, hit) + if l.WaitOn? then [s.phase.t] else if l.LeaveIdle? then [IDLE] else []
    ensures l.WaitOn? ==> s.phase.t !in s.h.core.waitq
    ensures l.LeaveIdle? ==> IDLE !in s.h.core.waitq
  {
    hit := if l.Sig? then (if l.all then OnChan(s.h.core, l.ch) else FirstOn(s.h.core.waitq, s.h.core.waits, l.ch))
           else if l.End? then FirstOn(s.h.core.waitq, s.h.core.waits, ThreadEnd(s.phase.t))
           else if Ticks(l) then Expired(s.h.core.(turn := s.h.core.turn + 1))
           else {};
    if l.Look? {
      hit := LookQueue(cfg, s);
    } else if Ticks(l) {
      HolderNotWaiting(cfg, s, l);
      TickedQueue(cfg, s, l);
    } else if l.Sig? || l.End? {
      SignalledQueue(cfg, s, l);
    } else {
      RejectNone(s.h.core.waitq, {});
      HolderNotWaiting(cfg, s, l);
      OtherQueue(cfg, s, l);
    }
  }

  lemma HolderNotWaiting(cfg: Config, s: State, l: Label)
    requires Inv(cfg, s) && Guard(s, l)
    ensures l.WaitOn? ==> s.phase.t !in s.h.core.waitq
    ensures l.LeaveIdle? ==> IDLE !in s.h.core.waitq
  {
    if l.WaitOn? {
      assert s.phase.t in s.h.core.runq;
    }
    if l.LeaveIdle? {
      assert IDLE in s.h.core.runq;
    }
  }

  lemma CountedQueue(cfg: Config, h: Sched, order: seq<Tid>)
    ensures IncTurn(cfg, h, order).core.waitq == Reject(h.core.waitq, Expired(h.core.(turn := h.core.turn + 1)))
  {
  }

  lemma IncQueue(cfg: Config, s: State, order: seq<Tid>)
    requires Shape(s) && Guard(s, Inc(order)) && Asserts(cfg, s, Inc(order))
    ensures Apply(cfg, s, Inc(order)).h.core.waitq == IncTurn(cfg, s.h, order).core.waitq
  {
  }

  lemma WaitOnQueue(cfg: Config, s: State, ch: Chan, timeout: nat, order: seq<Tid>)
    requires var l := WaitOn(ch, timeout, order); Shape(s) && Guard(s, l) && Asserts(cfg, s, l)
    ensures Apply(cfg, s, WaitOn(ch, timeout, order)).h.core.waitq == IncTurn(cfg, s.h, order).core.waitq + [s.phase.t]
  {
  }

  lemma BlockQueue(cfg: Config, s: State, order: seq<Tid>)
    requires Shape(s) && Guard(s, Block(order)) && Asserts(cfg, s, Block(order))
    ensures Apply(cfg, s, Block(order)).h.core.waitq == Leaving(cfg, s.h, s.phase.t, order).core.waitq
  {
  }

  lemma TickedQueue(cfg: Config, s: State, l: Label)
    requires Shape(s) && Guard(s, l) && Asserts(cfg, s, l) && Ticks(l)
    ensures var stay := Reject(s.h.core.waitq, Expired(s.h.core.(turn := s.h.core.turn + 1)));
            Apply(cfg, s, l).h.core.waitq == if l.WaitOn? then stay + [s.phase.t] else stay
  {
    CountedQueue(cfg, s.h, l.order);
    match l
    case Inc(order) => IncQueue(cfg, s, order);
    case WaitOn(ch, timeout, order) => WaitOnQueue(cfg, s, ch, timeout, order);
    case Block(order) =>
      CountedQueue(cfg, s.h.(nds := s.h.nds.Insert(s.phase.t, s.h.core.turn)), order);
      BlockQueue(cfg, s, order);
  }

  lemma SignalledQueue(cfg: Config, s: State, l: Label)
    requires Shape(s) && Guard(s, l) && Asserts(cfg, s, l) && (l.Sig? || l.End?)
    ensures var c := s.h.core;
            Apply(cfg, s, l).h.core.waitq ==
            if l.End? then Reject(c.waitq, FirstOn(c.waitq, c.waits, ThreadEnd(s.phase.t)))
            else Reject(c.waitq, if l.all then OnChan(c, l.ch) else FirstOn(c.waitq, c.waits, l.ch))
  {
  }

  lemma OtherQueue(cfg: Config, s: State, l: Label)
    requires Shape(s) && Guard(s, l) && Asserts(cfg, s, l) && !l.Look? && !Ticks(l) && !l.Sig? && !l.End?
    ensures Apply(cfg, s, l).h.core.waitq == if l.LeaveIdle? then s.h.core.waitq + [IDLE] else s.h.core.waitq
  {
  }

  lemma LookQueue(cfg: Config, s: State) returns (hit: set<Tid>)
    requires Inv(cfg, s) && Guard(s, Look) && Asserts(cfg, s, Look)
    ensures Apply(cfg, s, Look).h.core.waitq == Reject(s.h.core.waitq, hit)
  {
    LookCore(cfg, s);
    RejectNone(s.h.core.waitq, {});
    hit := if EndOfProgram(s.h, s.phase.t, s.phase.atEnd) then {}
           else if s.h.core.runq == [] then {IDLE}
           else if OnlyIdle(cfg, s) then OnChan(s.h.core, NonDetCV)
           else {};
  }

  lemma ArrivalOrder(cfg: Config, s: State, l: Label, a: Tid, b: Tid)
    requires Inv(cfg, s) && Guard(s, l) && Asserts(cfg, s, l)
    ensures OrderKept(s, l, Apply(cfg, s, l), a, b)
  {
    var hit := WaitQueueStep(cfg, s, l);
    var q := Reject(s.h.core.waitq, hit);
    RejectIn(s.h.core.waitq, hit);
    MovedOrder(s.h.core.waitq, hit, a, b);
    HolderNotWaiting(cfg, s, l);
    if a != b {
      if l.WaitOn? {
        JoinedOrder(q, s.phase.t, a, b);
      } else if l.LeaveIdle? {
        JoinedOrder(q, IDLE, a, b);
      } else {
        assert q + [] == q;
      }
    }
  }

  /** `a` and `b` are on the wait queue in every state of the run. */
  ghost predicate BothWait(cfg: Config, s: State, ls: seq<Label>, a: Tid, b: Tid)
    decreases |ls|
  {
    && a in s.h.core.waitq && b in s.h.core.waitq
    && (ls != [] && Shape(s) && Guard(s, ls[0]) && Asserts(cfg, s, ls[0]) ==>
          BothWait(cfg, Apply(cfg, s, ls[0]), ls[1..], a, b))
  }

  /** Over every run, who was first stays first. */
  lemma {:induction false} FirstStaysFirst(cfg: Config, s: State, ls: seq<Label>, s': State, a: Tid, b: Tid)
    requires Inv(cfg, s) && Reaches(cfg, s, ls, s') && a != b && BothWait(cfg, s, ls, a, b)
    ensures Before(s'.h.core.waitq, a, b) <==> Before(s.h.core.waitq, a, b)
    decreases |ls|
  {
    if ls == [] {
      assert s == s';
    } else {
      StepSafe(cfg, s, ls[0]);
      ArrivalOrder(cfg, s, ls[0], a, b);
      NoneParks(cfg, s, ls[0], a);
      NoneParks(cfg, s, ls[0], b);
      FirstStaysFirst(cfg, Apply(cfg, s, ls[0]), ls[1..], s', a, b);
    }
  }

  lemma NoneParks(cfg: Config, s: State, l: Label, t: Tid)
    requires Inv(cfg, s) && Guard(s, l) && t in s.h.core.waitq
    ensures !Parks(s, l, t)
  {
    HolderNotWaiting(cfg, s, l);
  }

  // ----- signals --------------------------------------------------------------------------

  ghost predicate OnIt(s: State, ch: Chan, t: Tid) {
    t in s.h.core.waitq && t < |s.h.core.waits| && s.h.core.waits[t].chan == ch
  }

  /** signal(ch): the waiter who came first, and nobody else, goes to the end of
      the run queue; without a waiter nothing happens. */
  lemma SignalTakesFirst(cfg: Config, s: State, ch: Chan) returns (x: Tid)
    requires Inv(cfg, s) && Guard(s, Sig(ch, false)) && Asserts(cfg, s, Sig(ch, false))
    ensures var s' := Apply(cfg, s, Sig(ch, false));
            if exists t :: OnIt(s, ch, t) then
              && OnIt(s, ch, x) && s'.h.core.runq == s.h.core.runq + [x]
              && (forall t: Tid :: OnIt(s, ch, t) && t != x ==> Before(s.h.core.waitq, x, t))
              && (forall t: Tid :: t in s'.h.core.waitq <==> t in s.h.core.waitq && t != x)
            else s'.h.core == s.h.core
  {
    x := 0;
    SignalCore(cfg, s, ch, false);
    assert forall t :: OnIt(s, ch, t) <==> t in OnChan(s.h.core, ch);
    if OnChan(s.h.core, ch) != {} {
      x := FirstTaken(s.h.core, ch);
    } else {
      NobodyTaken(s.h.core, ch);
    }
  }

  lemma SignalCore(cfg: Config, s: State, ch: Chan, all: bool)
    requires Shape(s) && Guard(s, Sig(ch, all)) && Asserts(cfg, s, Sig(ch, all))
    ensures Apply(cfg, s, Sig(ch, all)).h.core == Signal(s.h.core, ch, all) && ch != Null
  {
  }

  lemma FirstTaken(c: Core, ch: Chan) returns (x: Tid)
    requires Sane(c) && ch != Null && OnChan(c, ch) != {}
    ensures x in OnChan(c, ch) && Signal(c, ch, false).runq == c.runq + [x]
    ensures forall t :: t in OnChan(c, ch) && t != x ==> Before(c.waitq, x, t)
    ensures forall t :: t in Signal(c, ch, false).waitq <==> t in c.waitq && t != x
  {
    var i := SignalFirst(c, ch);
    x := c.waitq[i];
    OneOf(c.waitq, x);
    RejectIn(c.waitq, {x});
    forall t | t in OnChan(c, ch) && t != x ensures Before(c.waitq, x, t) {
      var j :| 0 <= j < |c.waitq| && c.waitq[j] == t;
      assert i < j;
    }
  }

  lemma NobodyTaken(c: Core, ch: Chan)
    requires Sane(c) && OnChan(c, ch) == {}
    ensures Signal(c, ch, false) == c && Signal(c, ch, true) == c
  {
    FirstOnIn(c.waitq, c.waits, ch);
    RejectNone(c.waitq, {});
    assert FirstOn(c.waitq, c.waits, ch) == {};
    assert ResetAll(c.waits, {}, 0) == c.waits && c.runq + [] == c.runq;
  }

  /** signal(ch, all): every waiter on `ch`, and nobody else, goes behind the run
      queue, in order of arrival. */
  lemma BroadcastTakesAll(cfg: Config, s: State, ch: Chan) returns (woken: seq<Tid>)
    requires Inv(cfg, s) && Guard(s, Sig(ch, true)) && Asserts(cfg, s, Sig(ch, true))
    ensures var s' := Apply(cfg, s, Sig(ch, true));
            && s'.h.core.runq == s.h.core.runq + woken
            && (forall t: Tid :: t in woken <==> OnIt(s, ch, t))
            && (forall t: Tid :: t in s'.h.core.waitq <==> t in s.h.core.waitq && !OnIt(s, ch, t))
            && (forall a: Tid, b: Tid :: OnIt(s, ch, a) && OnIt(s, ch, b) ==>
                  (Before(woken, a, b) <==> Before(s.h.core.waitq, a, b)))
  {
    var hit := OnChan(s.h.core, ch);
    woken := Select(s.h.core.waitq, hit);
    SelectIn(s.h.core.waitq, hit);
    RejectIn(s.h.core.waitq, hit);
    forall a: Tid, b: Tid | OnIt(s, ch, a) && OnIt(s, ch, b)
      ensures Before(woken, a, b) <==> Before(s.h.core.waitq, a, b)
    {
      BeforeSplit(s.h.core.waitq, hit, a, b);
    }
  }
}
