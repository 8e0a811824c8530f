/** Every step meets the assertions of the code and keeps the invariant. */
module ProtocolSteps {
  import opened Queues
  import opened SchedCore
  import opened SchedSpec
  import opened Protocol
  import opened ProtocolInv

  /** Step `l` fails no assertion and keeps the invariant, start-up apart. */
  ghost predicate CoreSafe(cfg: Config, s: State, l: Label)
    requires Shape(s) && Guard(s, l)
  {
    Asserts(cfg, s, l) && CoreInv(cfg, Apply(cfg, s, l))
  }

  // ----- threads without the turn ----------------------------------------------

  /** `s'` differs from `s` in what thread `t` alone changes without the turn. */
  ghost predicate LocalTo(s: State, s': State, t: Tid)
    requires Shape(s) && t < |s.pc|
  {
    && Shape(s') && |s'.pc| == |s.pc| && s'.phase == s.phase
    && s'.h.core == s.h.core && s'.h.nds == s.h.nds
    && (forall u :: 0 <= u < |s.pc| && u != t ==> s'.h.status[u] == s.h.status[u] && s'.pc[u] == s.pc[u])
    && (s'.h.pending == s.h.pending || s'.h.pending == s.h.pending + {t})
    && s.pc[t] !in {Wanting, Blocking}
    && (IsPromise(s.h.status[t]) ==> IsPromise(s'.h.status[t]))
  }

  lemma LocalPhase(s: State, s': State, t: Tid)
    requires Shape(s) && t < |s.pc| && LocalTo(s, s', t) && PhaseOk(s)
    ensures PhaseOk(s')
  {
    assert forall u :: 0 <= u < |s.pc| && IsPromise(s.h.status[u]) ==> IsPromise(s'.h.status[u]);
    if HasPromise(s.h) {
      var p :| p in s.h.core.runq && p < |s.h.status| && IsPromise(s.h.status[p]);
      assert p in s'.h.core.runq && IsPromise(s'.h.status[p]);
    }
    if s.phase.Promised? {
      var p :| p in s.h.core.runq[1..] && p < |s.pc| && IsPromise(s.h.status[p]);
      assert p in s'.h.core.runq[1..] && IsPromise(s'.h.status[p]);
    }
  }

  lemma LocalInv(cfg: Config, s: State, s': State, t: Tid)
    requires CoreInv(cfg, s) && t < |s.pc| && LocalTo(s, s', t) && ViewOk(cfg, t, ViewOf(s', t))
    ensures CoreInv(cfg, s')
  {
    LocalPhase(s, s', t);
    forall u | 0 <= u < |s'.pc| ensures ViewOk(cfg, u, ViewOf(s', u)) {
      assert u != t ==> ViewOf(s', u) == ViewOf(s, u);
    }
  }

  lemma SideSafe(cfg: Config, s: State, l: Label)
    requires CoreInv(cfg, s) && (l.Start? || l.Finish? || l.Wake? || l.Arrive?) && Guard(s, l)
    ensures CoreSafe(cfg, s, l)
  {
    assert ViewOk(cfg, l.t, ViewOf(s, l.t));
    LocalInv(cfg, s, Apply(cfg, s, l), l.t);
  }

  lemma TakeSafe(cfg: Config, s: State, t: Tid)
    requires CoreInv(cfg, s) && Guard(s, Take(t))
    ensures CoreSafe(cfg, s, Take(t))
  {
    assert ViewOk(cfg, t, ViewOf(s, t));
    var s' := Apply(cfg, s, Take(t));
    assert forall u :: 0 <= u < |s.pc| && u != t ==> ViewOf(s', u) == ViewOf(s, u);
    forall u | 0 <= u < |s'.pc| ensures ViewOk(cfg, u, ViewOf(s', u)) {
      assert ViewOk(cfg, u, ViewOf(s, u));
    }
  }

  // ----- the turn holder ---------------------------------------------------------

  /** What incTurnCount does to one thread. */
  ghost function Ticked(v: View, turn: nat): View {
    if v.inWait && v.w.timeout < turn then v.(inRun := true, inWait := false, w := v.w.Reset(ETIMEDOUT)) else v
  }

  /** What check_wakeup does to one thread. */
  ghost function Drained(cfg: Config, v: View): View {
    if !v.pending then v
    else v.(inRun := true, pending := false, nonDet := v.nonDet && !(cfg.bound.Within? && !v.inRun))
  }

  lemma DrainViews(cfg: Config, s: State, order: seq<Tid>)
    requires Shape(s) && Sane(s.h.core) && NonDetOk(s.h.nds, s.h.core.turn) && IsOrder(order, s.h.pending)
    requires forall t :: t in s.h.pending ==> t < |s.pc| && t !in s.h.core.waitq
    ensures var h' := Drain(cfg, s.h, order);
            && Sane(h'.core) && NonDetOk(h'.nds, h'.core.turn) && s.h.core.runq <= h'.core.runq
            && (forall u :: u in h'.nds.list ==> u in s.h.nds.list)
            && forall u :: 0 <= u < |s.pc| ==> ViewOf(s.(h := h'), u) == Drained(cfg, ViewOf(s, u))
  {
    DrainFacts(cfg, s.h, order);
  }

  lemma IncViews(cfg: Config, s: State, order: seq<Tid>)
    requires Shape(s) && Sane(s.h.core) && NonDetOk(s.h.nds, s.h.core.turn) && IsOrder(order, s.h.pending)
    requires forall t :: t in s.h.pending ==> t < |s.pc| && t !in s.h.core.waitq
    ensures var h' := IncTurn(cfg, s.h, order);
            && Sane(h'.core) && NonDetOk(h'.nds, h'.core.turn) && s.h.core.runq <= h'.core.runq
            && h'.core.turn == s.h.core.turn + 1 && |h'.core.waits| == |s.pc|
            && (forall u :: u in h'.nds.list ==> u in s.h.nds.list)
            && forall u :: 0 <= u < |s.pc| ==>
                           ViewOf(s.(h := h'), u) == Drained(cfg, Ticked(ViewOf(s, u), s.h.core.turn + 1))
  {
    TickSane(s.h.core);
    NonDetLater(s.h.nds, s.h.core.turn, s.h.core.turn + 1);
    var s1 := s.(h := s.h.(core := Tick(s.h.core)));
    assert forall u :: 0 <= u < |s.pc| ==> ViewOf(s1, u) == Ticked(ViewOf(s, u), s.h.core.turn + 1);
    DrainViews(cfg, s1, order);
  }

  lemma TickDrainOk(cfg: Config, u: Tid, v: View, turn: nat)
    requires ViewOk(cfg, u, v) && turn <= FOREVER && v.w.sem == 0
    ensures ViewOk(cfg, u, Drained(cfg, Ticked(v, turn))) && Ticked(v, turn).w.sem == 0
  {
  }

  /** Every thread check_wakeup re-queues is in the non-det set. */
  lemma IncAsserts(cfg: Config, s: State, order: seq<Tid>)
    requires Shape(s) && Sane(s.h.core) && NonDetOk(s.h.nds, s.h.core.turn) && IsOrder(order, s.h.pending)
    requires forall t :: t in s.h.pending ==> t < |s.pc| && t !in s.h.core.waitq
    requires cfg.bound.Within? ==> forall t :: t in s.h.pending && t !in s.h.core.runq ==> t in s.h.nds.list
    ensures IncOk(cfg, s.h, order)
  {
    TickSane(s.h.core);
    NonDetLater(s.h.nds, s.h.core.turn, s.h.core.turn + 1);
    DrainFacts(cfg, s.h.(core := Tick(s.h.core)), order);
  }

  /** The facts about pending wake-ups the invariant provides. */
  lemma PendingFacts(cfg: Config, s: State)
    requires CoreInv(cfg, s)
    ensures forall t :: t in s.h.pending ==> t < |s.pc| && t !in s.h.core.waitq
    ensures cfg.bound.Within? ==> forall t :: t in s.h.pending && t !in s.h.core.runq ==> t in s.h.nds.list
  {
    forall t | t in s.h.pending
      ensures t < |s.pc| && t !in s.h.core.waitq
      ensures cfg.bound.Within? && t !in s.h.core.runq ==> t in s.h.nds.list
    {
      assert ViewOk(cfg, t, ViewOf(s, t));
    }
  }

  lemma IncThreads(cfg: Config, s: State, order: seq<Tid>, phase: Phase)
    requires CoreInv(cfg, s) && IsOrder(order, s.h.pending) && s.h.core.turn < FOREVER
    requires !s.phase.InFlight? && !phase.InFlight?
    ensures var s' := State(IncTurn(cfg, s.h, order), s.pc, phase);
            && Shape(s') && Sane(s'.h.core) && s'.h.core.turn <= FOREVER
            && ThreadsOk(cfg, s') && NonDetOk(s'.h.nds, s'.h.core.turn) && TokenOk(s')
  {
    PendingFacts(cfg, s);
    IncViews(cfg, s, order);
    var s' := State(IncTurn(cfg, s.h, order), s.pc, phase);
    forall u | 0 <= u < |s'.pc| ensures ViewOk(cfg, u, ViewOf(s', u)) && s'.h.core.waits[u].sem == 0 {
      assert s.h.core.waits[u].sem == 0;
      TickDrainOk(cfg, u, ViewOf(s, u), s.h.core.turn + 1);
      assert ViewOf(s', u) == ViewOf(s.(h := s'.h), u);
    }
  }

  lemma IncSafe(cfg: Config, s: State, order: seq<Tid>)
    requires CoreInv(cfg, s) && Guard(s, Inc(order))
    ensures CoreSafe(cfg, s, Inc(order))
  {
    PendingFacts(cfg, s);
    IncAsserts(cfg, s, order);
    IncViews(cfg, s, order);
    IncThreads(cfg, s, order, s.phase.(inc := true));
    IncPhase(cfg, s, order);
  }

  /** The front thread stays in front: both halves only append. */
  lemma IncPhase(cfg: Config, s: State, order: seq<Tid>)
    requires CoreInv(cfg, s) && Guard(s, Inc(order))
    requires s.h.core.runq <= IncTurn(cfg, s.h, order).core.runq && |IncTurn(cfg, s.h, order).core.waits| == |s.pc|
    ensures var s' := State(IncTurn(cfg, s.h, order), s.pc, s.phase.(inc := true)); Shape(s') && PhaseOk(s')
  {
  }

  /** What a wake-up with result 0 does to one thread. */
  ghost function Signalled(v: View, hit: bool): View {
    if hit then v.(inRun := true, inWait := false, w := v.w.Reset(0)) else v
  }

  lemma SigViews(s: State, ch: Chan, all: bool) returns (hit: set<Tid>)
    requires Shape(s) && Sane(s.h.core)
    ensures hit <= OnChan(s.h.core, ch)
    ensures var c' := Signal(s.h.core, ch, all);
            && Sane(c') && |c'.waits| == |s.pc| && s.h.core.runq <= c'.runq && c'.turn == s.h.core.turn
            && forall u :: 0 <= u < |s.pc| ==> ViewOf(s.(h := s.h.(core := c')), u) == Signalled(ViewOf(s, u), u in hit)
  {
    hit := SignalSane(s.h.core, ch, all);
  }

  lemma SignalledOk(cfg: Config, u: Tid, v: View, hit: bool)
    requires ViewOk(cfg, u, v) && v.w.sem == 0 && (hit ==> v.inWait && v.w.chan != IdleCond)
    ensures ViewOk(cfg, u, Signalled(v, hit))
  {
  }

  lemma SigThreads(cfg: Config, s: State, ch: Chan, all: bool)
    requires CoreInv(cfg, s) && ch != IdleCond && !s.phase.InFlight?
    ensures var s' := s.(h := s.h.(core := Signal(s.h.core, ch, all)));
            Shape(s') && Sane(s'.h.core) && ThreadsOk(cfg, s') && TokenOk(s') && s.h.core.runq <= s'.h.core.runq
  {
    var hit := SigViews(s, ch, all);
    var s' := s.(h := s.h.(core := Signal(s.h.core, ch, all)));
    forall u | 0 <= u < |s'.pc| ensures ViewOk(cfg, u, ViewOf(s', u)) && s'.h.core.waits[u].sem == 0 {
      assert s.h.core.waits[u].sem == 0;
      SignalledOk(cfg, u, ViewOf(s, u), u in hit);
      assert ViewOf(s', u).w.sem == ViewOf(s, u).w.sem;
    }
  }

  lemma SigSafe(cfg: Config, s: State, ch: Chan, all: bool)
    requires CoreInv(cfg, s) && Guard(s, Sig(ch, all))
    ensures CoreSafe(cfg, s, Sig(ch, all))
  {
    SigThreads(cfg, s, ch, all);
  }

  lemma CreateSafe(cfg: Config, s: State)
    requires CoreInv(cfg, s) && Guard(s, Create)
    ensures CoreSafe(cfg, s, Create)
  {
    var n := |s.pc|;
    var s' := Apply(cfg, s, Create);
    NoDupConcat(s.h.core.runq, [n]);
    assert forall u :: u in s'.h.core.runq <==> u in s.h.core.runq || u == n;
    forall u | 0 <= u < |s'.pc| ensures ViewOk(cfg, u, ViewOf(s', u)) && s'.h.core.waits[u].sem == 0 {
      if u < n {
        assert ViewOk(cfg, u, ViewOf(s, u));
        assert ViewOf(s', u) == ViewOf(s, u);
      }
    }
  }

  // ----- releasing the turn ------------------------------------------------------

  lemma StepDownViews(s: State, t: Tid)
    requires Shape(s) && Sane(s.h.core) && StepDownOk(s.h, t)
    ensures var h' := StepDown(s.h, t);
            && Sane(h'.core)
            && forall u :: 0 <= u < |s.pc| ==>
                 ViewOf(s.(h := h'), u) == if u != t then ViewOf(s, u) else
                   ViewOf(s, u).(inRun := false,
                                 status := if s.h.status[t] == RunningReg then Runnable else InterProStop)
  {
    NoDupTail(s.h.core.runq);
  }

  lemma StepBackViews(s: State, t: Tid)
    requires Shape(s) && Sane(s.h.core) && AtFront(s, t) && t < |s.pc|
    ensures var h' := StepBack(s.h, t);
            && Sane(h'.core)
            && forall u :: 0 <= u < |s.pc| ==>
                 ViewOf(s.(h := h'), u) == if u != t then ViewOf(s, u) else ViewOf(s, u).(status := Runnable)
  {
    RotateSane(s.h.core);
    assert StepBack(s.h, t).core == Rotate(s.h.core);
  }

  /** checkNonDetBound may re-queue one thread that is outside. */
  lemma CheckBoundViews(cfg: Config, s: State) returns (x: set<Tid>)
    requires Shape(s) && Sane(s.h.core) && NonDetOk(s.h.nds, s.h.core.turn)
    requires forall u :: u in s.h.nds.list ==> u < |s.pc| && u !in s.h.core.runq && u !in s.h.core.waitq
    ensures CheckBoundOk(cfg, s.h)
    ensures forall u :: u in x ==> u in s.h.nds.list && cfg.bound.Within?
    ensures var h' := CheckBound(cfg, s.h);
            && Sane(h'.core) && NonDetOk(h'.nds, h'.core.turn) && h'.core.turn == s.h.core.turn
            && s.h.core.runq <= h'.core.runq && h'.core.waitq == s.h.core.waitq
            && (forall u :: u in h'.nds.list ==> u in s.h.nds.list)
            && forall u :: 0 <= u < |s.pc| ==>
                 ViewOf(s.(h := h'), u) ==
                 if u in x then ViewOf(s, u).(inRun := true, nonDet := false) else ViewOf(s, u)
  {
    x := {};
    if s.h.nds.list != [] {
      var t := s.h.nds.list[0];
      assert t in s.h.nds.list;
      if BoundExceeded(cfg, s.h) {
        x := {t};
        NoDupConcat(s.h.core.runq, [t]);
        EraseOk(s.h.nds, {t}, s.h.core.turn);
        assert forall u :: u in s.h.core.runq + [t] <==> u in s.h.core.runq || u == t;
      }
    }
  }

  lemma NonDetOutside(cfg: Config, s: State)
    requires CoreInv(cfg, s)
    ensures forall u :: u in s.h.nds.list ==> u < |s.pc| && u !in s.h.core.runq && u !in s.h.core.waitq
  {
    forall u | u in s.h.nds.list ensures u !in s.h.core.runq && u !in s.h.core.waitq {
      assert ViewOk(cfg, u, ViewOf(s, u));
    }
  }

  /** Releasing the turn keeps the invariant if it does so thread by thread. */
  lemma Released(cfg: Config, s': State)
    requires Shape(s') && Sane(s'.h.core) && NonDetOk(s'.h.nds, s'.h.core.turn) && s'.h.core.turn <= FOREVER
    requires forall u :: 0 <= u < |s'.pc| ==> ViewOk(cfg, u, ViewOf(s', u))
    requires forall u :: 0 <= u < |s'.pc| ==> s'.h.core.waits[u].sem == 0
    requires forall u :: u in s'.h.pending || u in s'.h.nds.list ==> u < |s'.pc|
    requires s'.phase.Draining? && SeekerOk(s', s'.phase.t, s'.phase.atEnd)
    ensures CoreInv(cfg, s')
  {
  }

  lemma PutTurnSafe(cfg: Config, s: State)
    requires CoreInv(cfg, s) && Guard(s, PutTurn)
    ensures CoreSafe(cfg, s, PutTurn)
  {
    var t := s.phase.t;
    assert ViewOk(cfg, t, ViewOf(s, t));
    StepBackViews(s, t);
    NonDetOutside(cfg, s);
    var s1 := s.(h := StepBack(s.h, t));
    var x := CheckBoundViews(cfg, s1);
    var s' := Apply(cfg, s, PutTurn);
    PutTurnViews(cfg, s, s1, s', t, x);
    assert t == IDLE ==> IDLE in s'.h.core.runq by { assert ViewOf(s1.(h := s'.h), t).inRun; }
    Released(cfg, s');
  }

  lemma PutTurnViews(cfg: Config, s: State, s1: State, s': State, t: Tid, x: set<Tid>)
    requires Shape(s) && ThreadsOk(cfg, s) && Shape(s1) && Shape(s') && |s1.pc| == |s'.pc| == |s.pc|
    requires t < |s.pc| && t in s.h.core.runq && s.pc[t] == Wanting && s'.pc == s.pc[t := App]
    requires s'.h.core.waits == s.h.core.waits
    requires forall u :: 0 <= u < |s.pc| ==>
               ViewOf(s1, u) == if u != t then ViewOf(s, u) else ViewOf(s, u).(status := Runnable)
    requires forall u :: u in x ==> u in s.h.nds.list && cfg.bound.Within?
    requires forall u :: 0 <= u < |s.pc| ==>
               ViewOf(s1.(h := s'.h), u) ==
               if u in x then ViewOf(s1, u).(inRun := true, nonDet := false) else ViewOf(s1, u)
    ensures forall u :: 0 <= u < |s'.pc| ==> ViewOk(cfg, u, ViewOf(s', u))
  {
    forall u | 0 <= u < |s'.pc| ensures ViewOk(cfg, u, ViewOf(s', u)) {
      assert ViewOk(cfg, u, ViewOf(s, u));
      assert ViewOf(s', u) == ViewOf(s1.(h := s'.h), u).(pc := s'.pc[u]);
    }
  }

  /** A thread that ends leaves both queues and has no wake-up pending. */
  lemma EndSafe(cfg: Config, s: State)
    requires CoreInv(cfg, s) && Guard(s, End)
    ensures CoreSafe(cfg, s, End)
  {
    var s1 := EndSignals(cfg, s);
    EndLeaves(cfg, s1, s.phase.t);
  }

  /** The rest of the thread's end: the clock bound, then out of the queue. */
  lemma EndLeaves(cfg: Config, s1: State, t: Tid)
    requires Shape(s1) && Sane(s1.h.core) && ThreadsOk(cfg, s1) && TokenOk(s1) && NonDetOk(s1.h.nds, s1.h.core.turn)
    requires forall u :: u in s1.h.nds.list ==> u < |s1.pc| && u !in s1.h.core.runq && u !in s1.h.core.waitq
    requires t < |s1.pc| && s1.pc[t] == Wanting && AtFront(s1, t) && t in s1.h.core.runq
    requires s1.h.status[t] == RunningReg && t !in s1.h.pending && t != IDLE
    requires !s1.phase.InFlight? && s1.h.core.turn <= FOREVER
    ensures CheckBoundOk(cfg, s1.h) && StepDownOk(CheckBound(cfg, s1.h), t)
    ensures CoreInv(cfg, State(StepDown(CheckBound(cfg, s1.h), t), s1.pc[t := Ended], Draining(t, true)))
  {
    var x := CheckBoundViews(cfg, s1);
    var s2 := s1.(h := CheckBound(cfg, s1.h));
    assert ViewOf(s2, t) == ViewOf(s1, t);
    StepDownViews(s2, t);
    var s' := State(StepDown(s2.h, t), s1.pc[t := Ended], Draining(t, true));
    EndViews(cfg, s1, s2, s', t, x);
    Released(cfg, s');
  }

  /** The state in which an ending thread has signalled its joiner. */
  lemma EndSignals(cfg: Config, s: State) returns (s1: State)
    requires CoreInv(cfg, s) && Guard(s, End)
    ensures s1 == s.(h := Ending(s.h, s.phase.t)) && AtFront(s, s.phase.t) && AtFront(s1, s.phase.t)
    ensures Shape(s1) && Sane(s1.h.core) && ThreadsOk(cfg, s1) && TokenOk(s1) && NonDetOk(s1.h.nds, s1.h.core.turn)
    ensures s1.h.core.turn == s.h.core.turn && s.h.core.runq <= s1.h.core.runq
    ensures forall u :: u in s1.h.nds.list ==> u < |s.pc| && u !in s1.h.core.runq && u !in s1.h.core.waitq
    ensures s1.h.status[s.phase.t] == RunningReg && s.phase.t !in s1.h.pending && s.phase.t in s1.h.core.runq
  {
    assert ViewOk(cfg, s.phase.t, ViewOf(s, s.phase.t));
    SigThreads(cfg, s, ThreadEnd(s.phase.t), false);
    s1 := s.(h := Ending(s.h, s.phase.t));
    NonDetOutside(cfg, s1);
  }

  lemma EndViews(cfg: Config, s1: State, s2: State, s': State, t: Tid, x: set<Tid>)
    requires Shape(s1) && ThreadsOk(cfg, s1) && TokenOk(s1) && !s1.phase.InFlight?
    requires Shape(s2) && Shape(s') && |s2.pc| == |s'.pc| == |s1.pc| && s2.pc == s1.pc
    requires t < |s1.pc| && t in s1.h.core.runq && s1.pc[t] == Wanting && s1.h.status[t] == RunningReg
    requires t !in s1.h.pending && t != IDLE && s'.pc == s1.pc[t := Ended]
    requires forall u :: u in x ==> u in s1.h.nds.list && cfg.bound.Within?
    requires forall u :: 0 <= u < |s1.pc| ==>
               ViewOf(s2, u) == if u in x then ViewOf(s1, u).(inRun := true, nonDet := false) else ViewOf(s1, u)
    requires forall u :: 0 <= u < |s1.pc| ==>
               ViewOf(s2.(h := s'.h), u) ==
               if u != t then ViewOf(s2, u) else ViewOf(s2, u).(inRun := false, status := Runnable)
    ensures forall u :: 0 <= u < |s'.pc| ==> ViewOk(cfg, u, ViewOf(s', u))
    ensures forall u :: 0 <= u < |s'.pc| ==> s'.h.core.waits[u].sem == 0
  {
    forall u | 0 <= u < |s'.pc| ensures ViewOk(cfg, u, ViewOf(s', u)) && s'.h.core.waits[u].sem == 0 {
      assert ViewOk(cfg, u, ViewOf(s1, u));
      assert ViewOf(s', u) == ViewOf(s2.(h := s'.h), u).(pc := s'.pc[u]);
      assert s1.h.core.waits[u].sem == 0;
      assert ViewOf(s', u).w == ViewOf(s1, u).w;
    }
  }

  // wait() is incTurnCount() followed by parking at the front.

  lemma ParkSafe(cfg: Config, s: State, t: Tid, ch: Chan, timeout: nat, pc: Pc, s': State)
    requires CoreInv(cfg, s) && t < |s.pc| && AtFront(s, t) && s.h.status[t] == RunningReg && s.pc[t] == Wanting
    requires t !in s.h.pending && !s.phase.InFlight? && timeout <= FOREVER && !(ch == Null && timeout == FOREVER)
    requires if t == IDLE then ch == IdleCond && timeout == FOREVER && pc == Parked else ch != IdleCond && pc == Wanting
    requires t == IDLE ==> exists p :: p in s.h.core.runq[1..] && p < |s.pc| && IsPromise(s.h.status[p])
    requires s' == State(StepDown(s.h, t).(core := Park(s.h.core, t, ch, timeout)), s.pc[t := pc], Draining(t, false))
    ensures CoreInv(cfg, s')
  {
    ParkSane(s.h.core, t, ch, timeout);
    forall u | 0 <= u < |s'.pc| ensures ViewOk(cfg, u, ViewOf(s', u)) && s'.h.core.waits[u].sem == 0 {
      assert ViewOk(cfg, u, ViewOf(s, u));
      assert s.h.core.waits[u].sem == 0;
      assert u != t ==> ViewOf(s', u) == ViewOf(s, u);
    }
    if t == IDLE {
      NoDupTail(s.h.core.runq);
      var p :| p in s.h.core.runq[1..] && p < |s.pc| && IsPromise(s.h.status[p]);
      assert p in s'.h.core.runq && IsPromise(s'.h.status[p]);
    }
    Released(cfg, s');
  }

  lemma WaitSafe(cfg: Config, s: State, ch: Chan, timeout: nat, order: seq<Tid>)
    requires CoreInv(cfg, s) && Guard(s, WaitOn(ch, timeout, order))
    ensures CoreSafe(cfg, s, WaitOn(ch, timeout, order))
  {
    var t := s.phase.t;
    IncSafe(cfg, s, order);
    var s1 := Apply(cfg, s, Inc(order));
    assert ViewOk(cfg, t, ViewOf(s1, t));
    assert s1.pc == s1.pc[t := Wanting];
    ParkSafe(cfg, s1, t, ch, timeout, Wanting, Apply(cfg, s, WaitOn(ch, timeout, order)));
  }

  // block() enters the non-det set, runs incTurnCount() and leaves the queue.

  /** What entering block() does to one thread's view. */
  ghost function Entered(cfg: Config, v: View, enters: bool): View {
    v.(nonDet := v.nonDet || (enters && cfg.bound.Within?))
  }

  lemma EnterViews(cfg: Config, s: State, t: Tid) returns (s0: State)
    requires CoreInv(cfg, s) && t < |s.pc| && t in s.h.core.runq
    ensures s0 == if cfg.bound.Within? then s.(h := s.h.(nds := s.h.nds.Insert(t, s.h.core.turn))) else s
    ensures NonDetOk(s0.h.nds, s.h.core.turn) && Shape(s0)
    ensures cfg.bound.Within? ==> t !in s.h.nds.list && t !in s.h.nds.clock
    ensures forall u :: u in s0.h.nds.list ==> u < |s.pc|
    ensures forall u :: u in s.h.nds.list ==> u in s0.h.nds.list
    ensures forall u :: 0 <= u < |s.pc| ==> ViewOf(s0, u) == Entered(cfg, ViewOf(s, u), u == t)
  {
    assert ViewOk(cfg, t, ViewOf(s, t));
    s0 := if cfg.bound.Within? then s.(h := s.h.(nds := s.h.nds.Insert(t, s.h.core.turn))) else s;
    if cfg.bound.Within? {
      InsertOk(s.h.nds, t, s.h.core.turn);
    }
  }

  lemma BlockAsserts(cfg: Config, s: State, order: seq<Tid>) returns (s1: State)
    requires CoreInv(cfg, s) && Guard(s, Block(order))
    ensures Asserts(cfg, s, Block(order))
    ensures s1 == s.(h := Leaving(cfg, s.h, s.phase.t, order))
    ensures Shape(s1) && Sane(s1.h.core) && NonDetOk(s1.h.nds, s1.h.core.turn) && s1.h.core.turn <= FOREVER
    ensures StepDownOk(s1.h, s.phase.t) && s1.h.pending == {}
    ensures forall u :: u in s1.h.nds.list ==> u < |s.pc|
    ensures forall u :: 0 <= u < |s.pc| ==>
              ViewOf(s1, u) == Drained(cfg, Ticked(Entered(cfg, ViewOf(s, u), u == s.phase.t), s.h.core.turn + 1))
  {
    PendingFacts(cfg, s);
    var s0 := EnterViews(cfg, s, s.phase.t);
    IncAsserts(cfg, s0, order);
    IncViews(cfg, s0, order);
    s1 := s.(h := Leaving(cfg, s.h, s.phase.t, order));
    assert s1 == s0.(h := IncTurn(cfg, s0.h, order));
  }

  lemma BlockKeeps(cfg: Config, s: State, s1: State, t: Tid, pc: Pc)
    requires CoreInv(cfg, s) && s.phase.Held? && s.phase.t == t && t != IDLE && s.h.core.turn < FOREVER
    requires Shape(s1) && s1.pc == s.pc && Sane(s1.h.core) && StepDownOk(s1.h, t) && s1.h.status == s.h.status
    requires NonDetOk(s1.h.nds, s1.h.core.turn) && s1.h.core.turn <= FOREVER && s1.h.pending == {}
    requires forall u :: u in s1.h.nds.list ==> u < |s.pc|
    requires pc == if s.pc[t] == Blocking then Calling else Detached
    requires forall u :: 0 <= u < |s.pc| ==>
              ViewOf(s1, u) == Drained(cfg, Ticked(Entered(cfg, ViewOf(s, u), u == t), s.h.core.turn + 1))
    ensures CoreInv(cfg, State(StepDown(s1.h, t), s.pc[t := pc], Draining(t, false)))
  {
    StepDownViews(s1, t);
    var s' := State(StepDown(s1.h, t), s.pc[t := pc], Draining(t, false));
    assert ViewOk(cfg, t, ViewOf(s, t));
    BlockViews(cfg, s, s1, s', t);
    Released(cfg, s');
  }

  lemma BlockSafe(cfg: Config, s: State, order: seq<Tid>)
    requires CoreInv(cfg, s) && Guard(s, Block(order))
    ensures CoreSafe(cfg, s, Block(order))
  {
    var s1 := BlockAsserts(cfg, s, order);
    BlockKeeps(cfg, s, s1, s.phase.t, if s.pc[s.phase.t] == Blocking then Calling else Detached);
  }

  lemma BlockViews(cfg: Config, s: State, s1: State, s': State, t: Tid)
    requires CoreInv(cfg, s) && !s.phase.InFlight? && s.h.core.turn < FOREVER
    requires Shape(s1) && Shape(s') && |s1.pc| == |s'.pc| == |s.pc| && t != IDLE
    requires t < |s.pc| && t in s.h.core.runq && s1.h.status == s.h.status
    requires if s.pc[t] == Blocking then s'.pc == s.pc[t := Calling] else
               s.pc[t] == Wanting && s.h.status[t] == RunningReg && s'.pc == s.pc[t := Detached]
    requires forall u :: 0 <= u < |s.pc| ==>
              ViewOf(s1, u) == Drained(cfg, Ticked(Entered(cfg, ViewOf(s, u), u == t), s.h.core.turn + 1))
    requires forall u :: 0 <= u < |s.pc| ==>
              ViewOf(s1.(h := s'.h), u) == if u != t then ViewOf(s1, u) else
                ViewOf(s1, u).(inRun := false, status := if s.h.status[t] == RunningReg then Runnable else InterProStop)
    ensures forall u :: 0 <= u < |s'.pc| ==> ViewOk(cfg, u, ViewOf(s', u))
    ensures forall u :: 0 <= u < |s'.pc| ==> s'.h.core.waits[u].sem == 0
  {
    forall u | 0 <= u < |s'.pc| ensures ViewOk(cfg, u, ViewOf(s', u)) && s'.h.core.waits[u].sem == 0 {
      assert ViewOk(cfg, u, ViewOf(s, u));
      assert s.h.core.waits[u].sem == 0;
      TickDrainOk(cfg, u, ViewOf(s, u), s.h.core.turn + 1);
      assert ViewOf(s', u) == ViewOf(s1.(h := s'.h), u).(pc := s'.pc[u]);
    }
  }

  // ----- the idle thread -----------------------------------------------------------

  lemma BeginScanSafe(cfg: Config, s: State)
    requires CoreInv(cfg, s) && Guard(s, BeginScan)
    ensures CoreSafe(cfg, s, BeginScan)
  {
    var s' := Apply(cfg, s, BeginScan);
    forall u | 0 <= u < |s'.pc| ensures ViewOk(cfg, u, ViewOf(s', u)) {
      assert ViewOf(s', u) == ViewOf(s, u);
    }
  }

  lemma ScanSafe(cfg: Config, s: State)
    requires CoreInv(cfg, s) && Guard(s, Scan)
    ensures CoreSafe(cfg, s, Scan)
  {
    if s.phase.i < |s.h.core.runq| {
      assert s.h.core.runq[s.phase.i] in s.h.core.runq;
    }
    var s' := Apply(cfg, s, Scan);
    assert ViewOk(cfg, IDLE, ViewOf(s, IDLE));
    var marks := s'.phase.Promised?;
    if marks {
      var p := s.h.core.runq[s.phase.i];
      assert p == s.h.core.runq[1..][s.phase.i - 1];
      assert p in s'.h.core.runq[1..] && p != IDLE;
    }
    forall u | 0 <= u < |s'.pc| ensures ViewOk(cfg, u, ViewOf(s', u)) {
      assert ViewOk(cfg, u, ViewOf(s, u));
      if marks && u == s.h.core.runq[s.phase.i] {
        assert ViewOf(s', u) == ViewOf(s, u).(status := RunningReg);
      } else {
        assert ViewOf(s', u) == ViewOf(s, u);
      }
    }
  }

  lemma LeaveIdleSafe(cfg: Config, s: State)
    requires CoreInv(cfg, s) && Guard(s, LeaveIdle)
    ensures CoreSafe(cfg, s, LeaveIdle)
  {
    assert ViewOk(cfg, IDLE, ViewOf(s, IDLE));
    ParkSafe(cfg, s, IDLE, IdleCond, FOREVER, Parked, Apply(cfg, s, LeaveIdle));
  }

  // ----- handing over --------------------------------------------------------------

  lemma PromiseKept(h: Sched, h': Sched)
    requires HasPromise(h) && h'.status == h.status
    requires forall p :: p in h.core.runq ==> p in h'.core.runq
    ensures HasPromise(h')
  {
    var p :| p in h.core.runq && p < |h.status| && IsPromise(h.status[p]);
    assert p in h'.core.runq;
  }

  lemma DrainSafe(cfg: Config, s: State, order: seq<Tid>)
    requires CoreInv(cfg, s) && Guard(s, DrainWakeups(order))
    ensures CoreSafe(cfg, s, DrainWakeups(order))
  {
    PendingFacts(cfg, s);
    DrainFacts(cfg, s.h, order);
    DrainViews(cfg, s, order);
    var s' := Apply(cfg, s, DrainWakeups(order));
    DrainThreads(cfg, s, s');
    if HasPromise(s.h) {
      PromiseKept(s.h, s'.h);
    }
  }

  lemma DrainThreads(cfg: Config, s: State, s': State)
    requires Shape(s) && ThreadsOk(cfg, s) && TokenOk(s) && !s.phase.InFlight? && !s'.phase.InFlight?
    requires Shape(s') && s'.pc == s.pc && s'.h.pending == {} && s'.h.core.waits == s.h.core.waits
    requires forall u :: u in s'.h.nds.list ==> u in s.h.nds.list
    requires forall u :: 0 <= u < |s.pc| ==> ViewOf(s.(h := s'.h), u) == Drained(cfg, ViewOf(s, u))
    ensures ThreadsOk(cfg, s') && TokenOk(s')
  {
    forall u | 0 <= u < |s'.pc| ensures ViewOk(cfg, u, ViewOf(s', u)) && s'.h.core.waits[u].sem == 0 {
      assert ViewOk(cfg, u, ViewOf(s, u));
      assert s.h.core.waits[u].sem == 0;
      assert ViewOf(s', u) == ViewOf(s.(h := s'.h), u);
    }
  }

  lemma PostSafe(cfg: Config, s: State)
    requires CoreInv(cfg, s) && Guard(s, Post)
    ensures CoreSafe(cfg, s, Post)
  {
    var s' := Apply(cfg, s, Post);
    forall u | 0 <= u < |s'.pc| ensures ViewOk(cfg, u, ViewOf(s', u)) {
      assert ViewOk(cfg, u, ViewOf(s, u));
      assert s.h.core.waits[u].sem == 0;
    }
  }

  /** The invariant without its clause on the phase. */
  ghost predicate Base(cfg: Config, s: State) {
    && Shape(s) && Sane(s.h.core) && s.h.core.turn <= FOREVER && !s.phase.InFlight?
    && ThreadsOk(cfg, s) && NonDetOk(s.h.nds, s.h.core.turn) && TokenOk(s)
  }

  /** nextRunnable chooses the head: it is promised the turn. */
  lemma GiveKeeps(cfg: Config, s: State, n: Tid, st: Status)
    requires Base(cfg, s) && AtFront(s, n) && n < |s.pc| && s.h.status[n] != InterProStop
    requires st == if s.h.status[n] == Runnable then RunningReg else s.h.status[n]
    requires s.pc[n] != Parked
    ensures CoreInv(cfg, State(s.h.(status := s.h.status[n := st]), s.pc, Granting(n)))
  {
    var s' := State(s.h.(status := s.h.status[n := st]), s.pc, Granting(n));
    assert n in s.h.core.runq;
    forall u | 0 <= u < |s'.pc| ensures ViewOk(cfg, u, ViewOf(s', u)) {
      assert ViewOk(cfg, u, ViewOf(s, u));
      assert u != n ==> ViewOf(s', u) == ViewOf(s, u);
    }
  }

  /** nextRunnable drops a stopped head: it goes outside, promises stay queued. */
  lemma PopKeeps(cfg: Config, s: State, n: Tid) returns (s': State)
    requires CoreInv(cfg, s) && s.phase.Seeking? && AtFront(s, n) && n < |s.pc| && s.h.status[n] == InterProStop
    ensures cfg.bound.Within? ==> n !in s.h.nds.list && n !in s.h.nds.clock
    ensures s' == s.(h := s.h.(core := s.h.core.(runq := s.h.core.runq[1..]),
                     nds := if cfg.bound.Within? then s.h.nds.Insert(n, s.h.core.turn) else s.h.nds))
    ensures CoreInv(cfg, s')
  {
    assert ViewOk(cfg, n, ViewOf(s, n));
    NoDupTail(s.h.core.runq);
    var s0 := EnterViews(cfg, s, n);
    s' := s.(h := s0.h.(core := s.h.core.(runq := s.h.core.runq[1..])));
    PopViews(cfg, s, s0, s', n);
    if HasPromise(s.h) {
      PopPromise(s, s', n);
    }
  }

  lemma PopViews(cfg: Config, s: State, s0: State, s': State, n: Tid)
    requires Shape(s) && Shape(s0) && Shape(s') && |s0.pc| == |s'.pc| == |s.pc| && ThreadsOk(cfg, s)
    requires n < |s.pc| && n in s.h.core.runq && s.h.status[n] == InterProStop
    requires forall u :: 0 <= u < |s.pc| ==> ViewOf(s0, u) == Entered(cfg, ViewOf(s, u), u == n)
    requires s' == s.(h := s0.h.(core := s.h.core.(runq := s'.h.core.runq)))
    requires s0.h == s.h.(nds := s0.h.nds)
    requires forall u :: u in s'.h.core.runq <==> u in s.h.core.runq && u != n
    ensures forall u :: 0 <= u < |s'.pc| ==> ViewOk(cfg, u, ViewOf(s', u))
  {
    forall u | 0 <= u < |s'.pc| ensures ViewOk(cfg, u, ViewOf(s', u)) {
      assert ViewOk(cfg, u, ViewOf(s, u));
      assert ViewOf(s', u) == ViewOf(s0, u).(inRun := u in s.h.core.runq && u != n);
    }
  }

  lemma PopPromise(s: State, s': State, n: Tid)
    requires Shape(s) && n < |s.pc| && s.h.status[n] == InterProStop && HasPromise(s.h) && s'.h.status == s.h.status
    requires forall u :: u in s'.h.core.runq <==> u in s.h.core.runq && u != n
    ensures HasPromise(s'.h)
  {
    var p :| p in s.h.core.runq && p < |s.h.status| && IsPromise(s.h.status[p]);
    assert p in s'.h.core.runq && IsPromise(s'.h.status[p]);
  }

  /** An empty run queue: somebody other than idle wakes idle, which is asleep. */
  lemma WakeIdleKeeps(cfg: Config, s: State) returns (s1: State)
    requires CoreInv(cfg, s) && Launched(s) && s.phase.Seeking? && s.h.core.runq == []
    ensures s.phase.t != IDLE && IDLE in s.h.core.waitq
    ensures s1 == s.(h := Refill(cfg, s.h, s.phase.t), pc := s.pc[IDLE := App])
    ensures Base(cfg, s1) && AtFront(s1, IDLE) && s1.h.status[IDLE] == Runnable
  {
    assert ViewOk(cfg, IDLE, ViewOf(s, IDLE));
    MoveSane(s.h.core, {IDLE}, 0);
    s1 := s.(h := Refill(cfg, s.h, s.phase.t), pc := s.pc[IDLE := App]);
    assert s1.h.core.runq[0] in s1.h.core.runq;
    forall u | 0 <= u < |s1.pc| ensures ViewOk(cfg, u, ViewOf(s1, u)) && s1.h.core.waits[u].sem == 0 {
      assert ViewOk(cfg, u, ViewOf(s, u));
      assert s.h.core.waits[u].sem == 0;
      assert u != IDLE ==> ViewOf(s1, u) == ViewOf(s, u);
    }
  }

  lemma LookEmpty(cfg: Config, s: State)
    requires CoreInv(cfg, s) && Launched(s) && Guard(s, Look) && s.h.core.runq == []
    ensures CoreSafe(cfg, s, Look)
  {
    if EndOfProgram(s.h, s.phase.t, s.phase.atEnd) {
      var s' := Apply(cfg, s, Look);
      forall u | 0 <= u < |s'.pc| ensures ViewOk(cfg, u, ViewOf(s', u)) {
        assert ViewOf(s', u) == ViewOf(s, u);
      }
    } else {
      var s1 := WakeIdleKeeps(cfg, s);
      GiveKeeps(cfg, s1, IDLE, RunningReg);
    }
  }

  lemma RefillKeeps(cfg: Config, s: State) returns (s1: State)
    requires CoreInv(cfg, s) && s.phase.Seeking? && s.h.core.runq != []
    ensures s1 == s.(h := Refill(cfg, s.h, s.phase.t)) && Base(cfg, s1)
    ensures AtFront(s1, s.h.core.runq[0]) && s1.h.status == s.h.status
    ensures s1.h != s.h ==> s.h.core.runq[0] == IDLE
  {
    s1 := s.(h := Refill(cfg, s.h, s.phase.t));
    SigThreads(cfg, s, NonDetCV, true);
  }

  lemma LookBusy(cfg: Config, s: State)
    requires CoreInv(cfg, s) && Guard(s, Look) && s.h.core.runq != []
    ensures CoreSafe(cfg, s, Look)
  {
    var n := s.h.core.runq[0];
    assert n in s.h.core.runq;
    assert ViewOk(cfg, n, ViewOf(s, n));
    var s1 := RefillKeeps(cfg, s);
    if s.h.status[n] == InterProStop {
      var s' := PopKeeps(cfg, s, n);
    } else {
      GiveKeeps(cfg, s1, n, if s.h.status[n] == Runnable then RunningReg else s.h.status[n]);
    }
  }

  lemma HolderStep(cfg: Config, s: State, l: Label)
    requires CoreInv(cfg, s) && Guard(s, l) && s.phase.Held?
    requires !l.Start? && !l.Finish? && !l.Wake? && !l.Arrive? && !l.Take?
    ensures CoreSafe(cfg, s, l)
  {
    match l
    case Inc(order) => IncSafe(cfg, s, order);
    case Sig(ch, all) => SigSafe(cfg, s, ch, all);
    case Create => CreateSafe(cfg, s);
    case PutTurn => PutTurnSafe(cfg, s);
    case End => EndSafe(cfg, s);
    case WaitOn(ch, timeout, order) => WaitSafe(cfg, s, ch, timeout, order);
    case Block(order) => BlockSafe(cfg, s, order);
    case BeginScan => BeginScanSafe(cfg, s);
  }

  lemma PassingStep(cfg: Config, s: State, l: Label)
    requires CoreInv(cfg, s) && Guard(s, l) && (l.Look? && s.h.core.runq == [] ==> Launched(s))
    requires l.Scan? || l.LeaveIdle? || l.DrainWakeups? || l.Look? || l.Post?
    ensures CoreSafe(cfg, s, l)
  {
    match l
    case Scan => ScanSafe(cfg, s);
    case LeaveIdle => LeaveIdleSafe(cfg, s);
    case DrainWakeups(order) => DrainSafe(cfg, s, order);
    case Look => if s.h.core.runq == [] { LookEmpty(cfg, s); } else { LookBusy(cfg, s); }
    case Post => PostSafe(cfg, s);
  }

  lemma CoreStep(cfg: Config, s: State, l: Label)
    requires CoreInv(cfg, s) && Guard(s, l) && (l.Look? && s.h.core.runq == [] ==> Launched(s))
    ensures CoreSafe(cfg, s, l)
  {
    if l.Start? || l.Finish? || l.Wake? || l.Arrive? {
      SideSafe(cfg, s, l);
    } else if l.Take? {
      TakeSafe(cfg, s, l.t);
    } else if s.phase.Held? {
      HolderStep(cfg, s, l);
    } else {
      PassingStep(cfg, s, l);
    }
  }

  /** Idle waits on its own condition variable only. */
  lemma IdleWaits(cfg: Config, s: State)
    requires CoreInv(cfg, s)
    ensures IDLE in s.h.core.waitq ==> IDLE < |s.h.core.waits| && s.h.core.waits[IDLE].chan == IdleCond
  {
    if IDLE in s.h.core.waitq {
      assert ViewOk(cfg, IDLE, ViewOf(s, IDLE));
    }
  }

  // ----- start-up --------------------------------------------------------------------

  /** From an invariant state, step `l` fails no assertion and ends in an
      invariant state. */
  ghost predicate Safe(cfg: Config, s: State, l: Label)
    requires Shape(s) && Guard(s, l)
  {
    Asserts(cfg, s, l) && Inv(cfg, Apply(cfg, s, l))
  }

  lemma ThreadsStay(cfg: Config, s: State, l: Label)
    requires Shape(s) && Guard(s, l) && Asserts(cfg, s, l)
    ensures |s.pc| <= |Apply(cfg, s, l).pc|
  {
  }

  /** The main thread alone: it keeps its place, whatever it does. */
  lemma BootStep(cfg: Config, s: State, l: Label)
    requires Inv(cfg, s) && !Launched(s) && Guard(s, l) && Asserts(cfg, s, l) && Shape(Apply(cfg, s, l))
    ensures BootOk(Apply(cfg, s, l))
  {
    assert ViewOk(cfg, MAIN, ViewOf(s, MAIN));
  }

  /** Every enabled step of every invariant state is safe. */
  lemma StepSafe(cfg: Config, s: State, l: Label)
    requires Inv(cfg, s) && Guard(s, l)
    ensures Safe(cfg, s, l)
  {
    CoreStep(cfg, s, l);
    if Launched(s) {
      ThreadsStay(cfg, s, l);
    } else {
      BootStep(cfg, s, l);
    }
  }
}
