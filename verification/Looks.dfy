/** nextRunnable, look by look, told on the fields of the state: when the program
    ends, and whom a look wakes. */
module Looks {
  import opened Queues
  import opened SchedCore
  import opened SchedSpec
  import opened Protocol
  import opened ProtocolInv
  import opened ProtocolSteps
  import opened ProtocolTheorems
  import opened WaitFrame

  /** nextRunnable returns InvalidTid exactly when the run queue is empty at a
      thread's end and nobody waits or it is the main thread that ends. */
  lemma StoppedExactly(cfg: Config, s: State)
    requires Reachable(cfg, s) && s.phase.Seeking?
    ensures Shape(s) && Guard(s, Look) && Asserts(cfg, s, Look)
    ensures Apply(cfg, s, Look).phase.Stopped? <==>
            s.h.core.runq == [] && s.phase.atEnd && (s.h.core.waitq == [] || s.phase.t == MAIN)
  {
    ReachableInv(cfg, s);
    StepSafe(cfg, s, Look);
  }

  /** Nothing is posted any more once it has: the turn is gone. */
  lemma {:induction false} StoppedForGood(cfg: Config, s: State, ls: seq<Label>, s': State)
    requires Inv(cfg, s) && s.phase.Stopped? && Reaches(cfg, s, ls, s')
    ensures s'.phase.Stopped? && forall u :: 0 <= u < |s'.h.core.waits| ==> s'.h.core.waits[u].sem == 0
    decreases |ls|
  {
    if ls == [] {
      assert s == s' && TokenOk(s);
    } else {
      StepSafe(cfg, s, ls[0]);
      NoTurnNoStep(cfg, s, ls[0]);
      StoppedForGood(cfg, Apply(cfg, s, ls[0]), ls[1..], s');
    }
  }

  lemma NoTurnNoStep(cfg: Config, s: State, l: Label)
    requires Inv(cfg, s) && s.phase.Stopped? && Guard(s, l) && Asserts(cfg, s, l)
    ensures Apply(cfg, s, l).phase.Stopped?
  {
  }

  // ----- an empty queue -----------------------------------------------------------------

  /** Otherwise an empty run queue means that idle, and nobody else, is woken and
      granted the turn. */
  lemma IdleWoken(cfg: Config, s: State)
    requires Reachable(cfg, s) && s.phase.Seeking? && s.h.core.runq == []
    requires !(s.phase.atEnd && (s.h.core.waitq == [] || s.phase.t == MAIN))
    ensures Shape(s) && Guard(s, Look) && Asserts(cfg, s, Look)
    ensures var s' := Apply(cfg, s, Look);
            && s'.h.core.runq == [IDLE] && s'.phase == Granting(IDLE) && IDLE in s.h.core.waitq
            && (forall t :: t in s'.h.core.waitq <==> t in s.h.core.waitq && t != IDLE)
            && (forall a: Tid, b: Tid :: a != IDLE && b != IDLE ==>
                  (Before(s'.h.core.waitq, a, b) <==> Before(s.h.core.waitq, a, b)))
  {
    ReachableInv(cfg, s);
    StepSafe(cfg, s, Look);
    var s1 := WakeIdleKeeps(cfg, s);
    OneOf(s.h.core.waitq, IDLE);
    EmptyLook(cfg, s);
    RejectIn(s.h.core.waitq, {IDLE});
    forall a: Tid, b: Tid | a != IDLE && b != IDLE
      ensures Before(Reject(s.h.core.waitq, {IDLE}), a, b) <==> Before(s.h.core.waitq, a, b)
    {
      BeforeSplit(s.h.core.waitq, {IDLE}, a, b);
    }
  }

  lemma {:induction false} OneOf(q: seq<Tid>, t: Tid)
    requires NoDup(q)
    ensures Select(q, {t}) == if t in q then [t] else []
  {
    if q == [] {
    } else {
      NoDupTail(q);
      OneOf(q[1..], t);
      assert q == [q[0]] + q[1..];
    }
  }

  lemma EmptyLook(cfg: Config, s: State)
    requires Shape(s) && Guard(s, Look) && Asserts(cfg, s, Look) && s.h.core.runq == []
    requires !EndOfProgram(s.h, s.phase.t, s.phase.atEnd) && IDLE < |s.pc| && s.h.status[IDLE] == Runnable
    requires Select(s.h.core.waitq, {IDLE}) != [] && Select(s.h.core.waitq, {IDLE})[0] == IDLE
    ensures var s' := Apply(cfg, s, Look);
            && s'.h.core.runq == Select(s.h.core.waitq, {IDLE}) && s'.phase == Granting(IDLE)
            && s'.h.core.waitq == Reject(s.h.core.waitq, {IDLE})
  {
  }

  // ----- the waiters on nonDetCV -----------------------------------------------------------

  /** Idle hands over and finds only itself queued. */
  ghost predicate OnlyIdle(cfg: Config, s: State) {
    cfg.annotated && s.phase.Seeking? && s.phase.t == IDLE && s.h.core.runq == [IDLE]
  }

  ghost predicate OnNonDet(s: State, t: Tid) {
    t in s.h.core.waitq && t < |s.h.core.waits| && s.h.core.waits[t].chan == NonDetCV
  }

  /** Then, and only then, a look wakes the threads at the start of a non-det
      region: all of them, in the order of the wait queue, behind idle. */
  lemma NonDetWaiters(cfg: Config, s: State)
    requires Reachable(cfg, s) && s.phase.Seeking?
    ensures Shape(s) && Guard(s, Look) && Asserts(cfg, s, Look)
    ensures var s' := Apply(cfg, s, Look);
            && (OnlyIdle(cfg, s) ==>
                  && s'.phase == Granting(IDLE) && AtFront(s', IDLE)
                  && (forall t: Tid :: t in s'.h.core.runq <==> t == IDLE || OnNonDet(s, t))
                  && (forall t: Tid :: !OnNonDet(s', t))
                  && (forall t: Tid :: OnNonDet(s, t) ==> Before(s'.h.core.runq, IDLE, t))
                  && (forall a: Tid, b: Tid :: OnNonDet(s, a) && OnNonDet(s, b) ==>
                        (Before(s'.h.core.runq, a, b) <==> Before(s.h.core.waitq, a, b))))
            && (!OnlyIdle(cfg, s) ==> forall t: Tid :: OnNonDet(s, t) ==> OnNonDet(s', t))
  {
    ReachableInv(cfg, s);
    StepFrame(cfg, s, Look);
    if OnlyIdle(cfg, s) {
      OnlyIdleLook(cfg, s);
      BroadcastOrder(s);
    } else {
      NonDetStays(cfg, s);
    }
  }

  lemma OnlyIdleLook(cfg: Config, s: State)
    requires Inv(cfg, s) && OnlyIdle(cfg, s) && Guard(s, Look) && Asserts(cfg, s, Look)
    ensures var s', c := Apply(cfg, s, Look), s.h.core;
            && s'.phase == Granting(IDLE)
            && s'.h.core.runq == [IDLE] + Select(c.waitq, OnChan(c, NonDetCV))
            && s'.h.core.waitq == Reject(c.waitq, OnChan(c, NonDetCV))
            && s'.h.core.waits == ResetAll(c.waits, OnChan(c, NonDetCV), 0)
  {
    assert IDLE in s.h.core.runq && ViewOk(cfg, IDLE, ViewOf(s, IDLE));
  }

  lemma BroadcastOrder(s: State)
    requires NoDup(s.h.core.waitq) && IDLE !in s.h.core.waitq
    requires forall t :: t in s.h.core.waitq ==> t < |s.h.core.waits|
    ensures var c := s.h.core;
            var hit := OnChan(c, NonDetCV);
            var q := [IDLE] + Select(c.waitq, hit);
            && (forall t: Tid :: t in q <==> t == IDLE || OnNonDet(s, t))
            && (forall t: Tid :: OnNonDet(s, t) ==> Before(q, IDLE, t))
            && (forall t: Tid :: t in Reject(c.waitq, hit) ==> t in c.waitq && c.waits[t].chan != NonDetCV && t !in hit)
            && (forall a: Tid, b: Tid :: OnNonDet(s, a) && OnNonDet(s, b) ==>
                  (Before(q, a, b) <==> Before(c.waitq, a, b)))
  {
    var hit := OnChan(s.h.core, NonDetCV);
    var woken := Select(s.h.core.waitq, hit);
    SelectIn(s.h.core.waitq, hit);
    RejectIn(s.h.core.waitq, hit);
    forall t: Tid | OnNonDet(s, t) ensures Before([IDLE] + woken, IDLE, t) {
      BeforeConcat([IDLE], woken, IDLE, t);
    }
    forall a: Tid, b: Tid | OnNonDet(s, a) && OnNonDet(s, b)
      ensures Before([IDLE] + woken, a, b) <==> Before(s.h.core.waitq, a, b)
    {
      BeforeConcat([IDLE], woken, a, b);
      BeforeSplit(s.h.core.waitq, hit, a, b);
    }
  }

  lemma NonDetStays(cfg: Config, s: State)
    requires Inv(cfg, s) && s.phase.Seeking? && !OnlyIdle(cfg, s) && Guard(s, Look) && Asserts(cfg, s, Look)
    ensures forall t: Tid :: OnNonDet(s, t) ==> OnNonDet(Apply(cfg, s, Look), t)
  {
    IdleWaits(cfg, s);
    LookCore(cfg, s);
    RejectIn(s.h.core.waitq, {IDLE});
  }
}
