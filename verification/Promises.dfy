/** A thread whose element says RUNNING has been promised the turn.  Besides the
    thread the turn is posted to or held by there is at most one such thread, and
    only while idle sleeps or is about to: the one tryPutTurn marked. */
module Promises {
  import opened Queues
  import opened SchedCore
  import opened SchedSpec
  import opened Protocol
  import opened ProtocolInv
  import opened ProtocolSteps
  import opened ProtocolTheorems
  import opened WaitFrame

  /** The turn is thread `u`'s: granted, posted or held. */
  ghost predicate IsOwner(s: State, u: Tid) {
    !s.phase.Draining? && !s.phase.Seeking? && !s.phase.Stopped? && AtFront(s, u)
  }

  ghost predicate Promised(s: State, u: Tid) {
    u < |s.h.status| && IsPromise(s.h.status[u])
  }

  /** No thread but the owner, and `x` if one is allowed, is promised the turn. */
  ghost predicate Only(s: State, allowed: bool, x: Tid) {
    forall u :: Promised(s, u) ==> IsOwner(s, u) || (allowed && u == x)
  }

  /** Idle is awake and has not marked anybody. */
  ghost predicate Quiet(s: State) {
    IDLE !in s.h.core.waitq && !s.phase.Promised?
  }

  ghost predicate PromisesOk(s: State) {
    (Quiet(s) ==> Only(s, false, 0)) && exists x :: Only(s, true, x)
  }

  /** A step that makes no promise and leaves idle and the owner where they are. */
  lemma NothingNew(s: State, s': State)
    requires PromisesOk(s) && (Quiet(s') ==> Quiet(s))
    requires forall u :: Promised(s', u) ==> Promised(s, u) && (IsOwner(s, u) ==> IsOwner(s', u))
    ensures PromisesOk(s')
  {
    var x :| Only(s, true, x);
    assert Only(s', true, x);
  }

  lemma IdleStays(cfg: Config, s: State, l: Label)
    requires Inv(cfg, s) && Guard(s, l) && Asserts(cfg, s, l) && !l.Look? && !l.LeaveIdle?
    requires l.Sig? ==> l.ch != IdleCond
    ensures IDLE in s.h.core.waitq ==> IDLE in Apply(cfg, s, l).h.core.waitq
  {
    if IDLE in s.h.core.waitq {
      assert ViewOk(cfg, IDLE, ViewOf(s, IDLE));
      StepFrame(cfg, s, l);
      assert FrameAt(s, l, Apply(cfg, s, l), IDLE);
    }
  }

  lemma SideOrTake(cfg: Config, s: State, l: Label)
    requires Inv(cfg, s) && PromisesOk(s) && Guard(s, l) && Asserts(cfg, s, l)
    requires l.Start? || l.Finish? || l.Wake? || l.Arrive? || l.Take?
    ensures PromisesOk(Apply(cfg, s, l))
  {
    NothingNew(s, Apply(cfg, s, l));
  }

  lemma HolderActs(cfg: Config, s: State, l: Label)
    requires Inv(cfg, s) && PromisesOk(s) && Guard(s, l) && Asserts(cfg, s, l)
    requires l.Inc? || l.Sig? || l.Create? || l.BeginScan? || l.Post? || l.DrainWakeups?
    ensures PromisesOk(Apply(cfg, s, l))
  {
    IdleStays(cfg, s, l);
    OthersKeepOrder(cfg, s, l);
    ActStatus(cfg, s, l);
    NothingNew(s, Apply(cfg, s, l));
  }

  lemma ActStatus(cfg: Config, s: State, l: Label)
    requires Shape(s) && Guard(s, l) && Asserts(cfg, s, l)
    requires l.Inc? || l.Sig? || l.Create? || l.BeginScan? || l.Post? || l.DrainWakeups?
    ensures var s' := Apply(cfg, s, l);
            && s'.h.status == (if l.Create? then s.h.status + [Runnable] else s.h.status)
            && !s'.phase.Promised? && !s.phase.Promised? && !s'.phase.Stopped?
            && (s'.phase.Draining? || s'.phase.Seeking? <==> s.phase.Draining? || s.phase.Seeking?)
  {
  }

  lemma OwnerReleases(cfg: Config, s: State, l: Label)
    requires Inv(cfg, s) && PromisesOk(s) && Guard(s, l) && Asserts(cfg, s, l)
    requires l.PutTurn? || l.End? || l.WaitOn? || l.Block?
    ensures PromisesOk(Apply(cfg, s, l))
  {
    IdleStays(cfg, s, l);
    ReleaseStatus(cfg, s, l);
    NothingNew(s, Apply(cfg, s, l));
  }

  lemma ReleaseStatus(cfg: Config, s: State, l: Label)
    requires Shape(s) && Guard(s, l) && Asserts(cfg, s, l)
    requires l.PutTurn? || l.End? || l.WaitOn? || l.Block?
    ensures var s' := Apply(cfg, s, l);
            && AtFront(s, s.phase.t) && s.phase.t < |s.h.status| && s'.phase.Draining? && !s.phase.Promised?
            && |s'.h.status| == |s.h.status| && !IsPromise(s'.h.status[s.phase.t])
            && forall u :: 0 <= u < |s.h.status| && u != s.phase.t ==> s'.h.status[u] == s.h.status[u]
  {
  }

  lemma ScanStatus(cfg: Config, s: State)
    requires Inv(cfg, s) && Guard(s, Scan) && Asserts(cfg, s, Scan)
    ensures var s' := Apply(cfg, s, Scan);
            && s'.h.core == s.h.core && IDLE in s.h.core.runq && AtFront(s, IDLE)
            && (if s'.phase.Promised?
                then s.phase.i < |s.h.core.runq| && s'.h.status == s.h.status[s.h.core.runq[s.phase.i] := RunningReg]
                else s'.h.status == s.h.status && (s'.phase.Scanning? || s'.phase.Held?))
  {
    assert IDLE in s.h.core.runq;
  }

  lemma Scans(cfg: Config, s: State)
    requires Inv(cfg, s) && PromisesOk(s) && Guard(s, Scan) && Asserts(cfg, s, Scan)
    ensures PromisesOk(Apply(cfg, s, Scan))
  {
    var s' := Apply(cfg, s, Scan);
    ScanStatus(cfg, s);
    if s'.phase.Promised? {
      Marked(s, s', s.h.core.runq[s.phase.i]);
    } else {
      NothingNew(s, s');
    }
  }

  lemma Marked(s: State, s': State, p: Tid)
    requires Quiet(s) && Only(s, false, 0) && s'.h.core == s.h.core && s'.phase.Promised?
    requires p < |s.h.status| && s'.h.status == s.h.status[p := RunningReg]
    ensures PromisesOk(s')
  {
    forall u: Tid | Promised(s', u) ensures IsOwner(s', u) || u == p {
      assert u != p ==> Promised(s, u);
    }
    assert Only(s', true, p);
  }

  lemma IdleLeaves(cfg: Config, s: State)
    requires Inv(cfg, s) && PromisesOk(s) && Guard(s, LeaveIdle) && Asserts(cfg, s, LeaveIdle)
    ensures PromisesOk(Apply(cfg, s, LeaveIdle))
  {
    NothingNew(s, Apply(cfg, s, LeaveIdle));
  }

  lemma Looks(cfg: Config, s: State)
    requires Inv(cfg, s) && PromisesOk(s) && Guard(s, Look) && Asserts(cfg, s, Look)
    ensures PromisesOk(Apply(cfg, s, Look))
  {
    var s' := Apply(cfg, s, Look);
    LookStatus(cfg, s);
    if s.h.core.runq == [] {
      NonePromised(cfg, s);
      AfterEmptyLook(s, s');
    } else {
      LookIdleStays(cfg, s);
      AfterLook(s, s');
    }
  }

  /** An empty run queue: nobody is promised anything. */
  lemma NonePromised(cfg: Config, s: State)
    requires Inv(cfg, s) && s.h.core.runq == []
    ensures forall u :: 0 <= u < |s.h.status| ==> !IsPromise(s.h.status[u])
  {
    forall u | 0 <= u < |s.h.status| ensures !IsPromise(s.h.status[u]) {
      assert ViewOk(cfg, u, ViewOf(s, u));
    }
  }

  ghost predicate Looked(s: State, s': State) {
    && |s'.h.status| == |s.h.status| && s.phase.Seeking?
    && (forall u :: 0 <= u < |s.h.status| ==>
          s'.h.status[u] == s.h.status[u] || (s'.phase == Granting(u) && AtFront(s', u)))
  }

  lemma AfterEmptyLook(s: State, s': State)
    requires Looked(s, s') && forall u :: 0 <= u < |s.h.status| ==> !IsPromise(s.h.status[u])
    ensures PromisesOk(s')
  {
    forall u: Tid | Promised(s', u) ensures IsOwner(s', u) {
      assert s'.h.status[u] != s.h.status[u];
    }
    assert Only(s', true, 0);
  }

  lemma AfterLook(s: State, s': State)
    requires Looked(s, s') && PromisesOk(s) && (Quiet(s') ==> Quiet(s))
    ensures PromisesOk(s')
  {
    var x :| Only(s, true, x);
    forall u: Tid | Promised(s', u) ensures Promised(s, u) || IsOwner(s', u) {
      assert s'.h.status[u] == s.h.status[u] || IsOwner(s', u);
    }
    assert Only(s', true, x);
  }

  lemma LookStatus(cfg: Config, s: State)
    requires Inv(cfg, s) && Guard(s, Look) && Asserts(cfg, s, Look)
    ensures var s' := Apply(cfg, s, Look);
            !s'.phase.Promised? && Looked(s, s')
  {
    StepSafe(cfg, s, Look);
  }

  lemma LookIdleStays(cfg: Config, s: State)
    requires Inv(cfg, s) && Guard(s, Look) && Asserts(cfg, s, Look) && s.h.core.runq != []
    ensures IDLE in s.h.core.waitq ==> IDLE in Apply(cfg, s, Look).h.core.waitq
  {
    LookCore(cfg, s);
    RejectIn(s.h.core.waitq, OnChan(s.h.core, NonDetCV));
    IdleWaits(cfg, s);
  }

  lemma PromisesStep(cfg: Config, s: State, l: Label)
    requires Inv(cfg, s) && PromisesOk(s) && Guard(s, l) && Asserts(cfg, s, l)
    ensures PromisesOk(Apply(cfg, s, l))
  {
    if l.Start? || l.Finish? || l.Wake? || l.Arrive? || l.Take? {
      SideOrTake(cfg, s, l);
    } else if l.PutTurn? || l.End? || l.WaitOn? || l.Block? {
      OwnerReleases(cfg, s, l);
    } else if l.Scan? {
      Scans(cfg, s);
    } else if l.LeaveIdle? {
      IdleLeaves(cfg, s);
    } else if l.Look? {
      Looks(cfg, s);
    } else {
      HolderActs(cfg, s, l);
    }
  }

  lemma {:induction false} PromisesRun(cfg: Config, s: State, ls: seq<Label>, s': State)
    requires Inv(cfg, s) && PromisesOk(s) && Reaches(cfg, s, ls, s')
    ensures PromisesOk(s')
    decreases |ls|
  {
    if ls == [] {
      assert s == s';
    } else {
      StepSafe(cfg, s, ls[0]);
      PromisesStep(cfg, s, ls[0]);
      PromisesRun(cfg, Apply(cfg, s, ls[0]), ls[1..], s');
    }
  }

  /** In every reachable state at most one thread besides the owner of the turn is
      promised it, and none while idle is awake and has not marked one. */
  lemma OnePromiseAtMost(cfg: Config, s: State)
    requires Reachable(cfg, s)
    ensures Quiet(s) ==> forall u :: Promised(s, u) ==> IsOwner(s, u)
    ensures forall u, v :: Promised(s, u) && Promised(s, v) && !IsOwner(s, u) && !IsOwner(s, v) ==> u == v
  {
    var ls :| Reaches(cfg, Init(), ls, s);
    InitInv(cfg);
    assert Only(Init(), false, 0) && Only(Init(), true, 0);
    PromisesRun(cfg, Init(), ls, s);
  }
}
