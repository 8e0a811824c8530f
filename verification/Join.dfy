/** pthread_join over the scheduler: a joiner waits on the thread it joins, an
    ending thread signals once and becomes a zombie. */
module Join {
  import opened Queues
  import opened SchedCore
  import opened SchedSpec
  import opened Protocol
  import opened ProtocolInv
  import opened ProtocolSteps
  import opened ProtocolTheorems
  import opened WaitFrame

  /** Joining: inside the loop of pthreadJoin on thread `th`. */
  datatype Act = Free | Joining(th: Tid)

  /** `zombies` as in TidMap, by thread id; `reaped`: joined for good. */
  datatype J = J(s: State, zombies: set<Tid>, reaped: set<Tid>, act: seq<Act>)

  datatype Op =
    | Base(l: Label)                        // any other step of the protocol
    | JoinWait(th: Tid, order: seq<Tid>)    // not a zombie yet: wait(th)
    | JoinDone(th: Tid)                     // a zombie: reap it

  /** Nobody else is joining `th` or has joined it. */
  ghost predicate OnlyJoiner(j: J, t: Tid, th: Tid) {
    th !in j.reaped && forall u :: 0 <= u < |j.act| && u != t ==> j.act[u] != Joining(th)
  }

  ghost predicate Enabled(j: J, op: Op)
    requires Shape(j.s) && |j.act| == |j.s.pc|
  {
    var s := j.s;
    match op
    case Base(l) =>
      && Guard(s, l) && !(l.Sig? && l.ch.ThreadEnd?) && !(l.WaitOn? && l.ch.ThreadEnd?)
      && (Background(l) || (s.phase.Held? && s.phase.t < |j.act| && j.act[s.phase.t] == Free))
    case JoinWait(th, order) =>
      && HolderIs(s, Wanting) && j.act[s.phase.t] in {Free, Joining(th)} && th !in j.zombies && th < |j.act|
      && OnlyJoiner(j, s.phase.t, th) && Guard(s, WaitOn(ThreadEnd(th), FOREVER, order))
    case JoinDone(th) =>
      && HolderIs(s, Wanting) && j.act[s.phase.t] in {Free, Joining(th)} && th in j.zombies
      && OnlyJoiner(j, s.phase.t, th)
  }

  ghost function Steps(op: Op): seq<Label> {
    match op
    case Base(l) => [l]
    case JoinWait(th, order) => [WaitOn(ThreadEnd(th), FOREVER, order)]
    case JoinDone(_) => []
  }

  ghost function Effect(j: J, op: Op, s': State): J
    requires !op.Base? || op.l.End? ==> j.s.phase.Held? && j.s.phase.t < |j.act|
  {
    match op
    case Base(l) =>
      j.(s := s', act := if l.Create? then j.act + [Free] else j.act,
      zombies := if l.End? then j.zombies + {j.s.phase.t} else j.zombies)
    case JoinWait(th, _) => j.(s := s', act := j.act[j.s.phase.t := Joining(th)])
    case JoinDone(th) =>
      j.(zombies := j.zombies - {th}, reaped := j.reaped + {th}, act := j.act[j.s.phase.t := Free])
  }

  ghost predicate CanStep(cfg: Config, j: J, op: Op) {
    && Shape(j.s) && |j.act| == |j.s.pc| && Enabled(j, op)
    && forall l :: l in Steps(op) ==> Guard(j.s, l) && Asserts(cfg, j.s, l)
  }

  ghost function Next(cfg: Config, j: J, op: Op): J
    requires CanStep(cfg, j, op)
  {
    Effect(j, op, if Steps(op) == [] then j.s else Apply(cfg, j.s, Steps(op)[0]))
  }

  // ----- the invariant --------------------------------------------------------------

  ghost predicate ThreadOk(j: J, t: Tid)
    requires Shape(j.s) && |j.act| == |j.s.pc| && t < |j.act|
  {
    var w := j.s.h.core.waits[t];
    && (j.act[t].Joining? ==>
          && j.s.pc[t] == Wanting && t !in j.s.h.pending && t != IDLE
          && (if t in j.s.h.core.waitq
              then w.chan == ThreadEnd(j.act[t].th) && w.timeout == FOREVER && j.act[t].th !in j.zombies
              else j.act[t].th in j.zombies)
          && j.act[t].th !in j.reaped)
    && (t in j.s.h.core.waitq && w.chan.ThreadEnd? ==> j.act[t] == Joining(w.chan.t))
    && (t in j.zombies || t in j.reaped <==> j.s.pc[t] == Ended)
    && !(t in j.zombies && t in j.reaped)
  }

  ghost predicate JoinInv(cfg: Config, j: J) {
    && Inv(cfg, j.s) && |j.act| == |j.s.pc|
    && (forall t :: 0 <= t < |j.act| ==> ThreadOk(j, t))
    && (forall t :: t in j.zombies || t in j.reaped ==> t < |j.act|)
    && (forall t, u :: 0 <= t < u < |j.act| && j.act[t].Joining? ==> j.act[t] != j.act[u])
  }

  // ----- the steps keep it -------------------------------------------------------------

  /** An ended thread takes no step. */
  lemma EndedStays(cfg: Config, s: State, l: Label, s': State, t: Tid)
    requires Inv(cfg, s) && Guard(s, l) && t < |s.pc| && Frame(s, l, s') && s.pc[t] == Ended
    ensures s'.pc[t] == Ended && !Own(s, l, t) && !(s.phase.Held? && s.phase.t == t)
  {
    assert FrameAt(s, l, s', t) && ViewOk(cfg, t, ViewOf(s, t));
  }

  /** A thread ends by its own End only. */
  lemma OnlyEndEnds(cfg: Config, s: State, l: Label, t: Tid)
    requires Shape(s) && Guard(s, l) && Asserts(cfg, s, l) && t < |s.pc| && Shape(Apply(cfg, s, l))
    requires |s.pc| <= |Apply(cfg, s, l).pc|
    requires s.pc[t] != Ended
    ensures Apply(cfg, s, l).pc[t] == Ended <==> l.End? && s.phase.t == t
  {
  }

  lemma CreatedLives(cfg: Config, s: State, l: Label)
    requires Shape(s) && Guard(s, l) && Asserts(cfg, s, l)
    ensures l.Create? ==> Apply(cfg, s, l).pc == s.pc + [App]
  {
  }

  lemma EndCore(cfg: Config, s: State)
    requires Shape(s) && Guard(s, End) && Asserts(cfg, s, End)
    ensures var c, c' := Signal(s.h.core, ThreadEnd(s.phase.t), false), Apply(cfg, s, End).h.core;
            c'.waitq == c.waitq && c'.waits == c.waits
  {
  }

  /** Exactly when everybody who joins a thread is released by its end: at most
      one thread is waiting for it. */
  lemma JoinersReleased(cfg: Config, s: State)
    requires Inv(cfg, s) && Guard(s, End) && Asserts(cfg, s, End)
    ensures OnChan(Apply(cfg, s, End).h.core, ThreadEnd(s.phase.t)) == {} <==>
            |OnChan(s.h.core, ThreadEnd(s.phase.t))| <= 1
  {
    var ch := ThreadEnd(s.phase.t);
    EndCore(cfg, s);
    assert OnChan(Apply(cfg, s, End).h.core, ch) == OnChan(Signal(s.h.core, ch, false), ch);
    ReleasedBySignal(s.h.core, ch);
  }

  lemma ReleasedBySignal(c: Core, ch: Chan)
    requires Sane(c) && ch != Null
    ensures OnChan(Signal(c, ch, false), ch) == {} <==> |OnChan(c, ch)| <= 1
  {
    var on := OnChan(c, ch);
    if on == {} {
      var hit := SignalSane(c, ch, false);
      assert OnChan(Signal(c, ch, false), ch) <= on;
    } else {
      var i := SignalFirst(c, ch);
      var x := c.waitq[i];
      assert on == (on - {x}) + {x};
      assert |on| == |on - {x}| + 1;
    }
  }

  lemma ThreadFramed(cfg: Config, j: J, l: Label, s': State, t: Tid)
    requires Inv(cfg, j.s) && Inv(cfg, s') && |j.act| == |j.s.pc| && t < |j.act| && Enabled(j, Base(l))
    requires Frame(j.s, l, s')
    requires ThreadOk(j, t)
    requires s'.pc[t] == Ended <==> j.s.pc[t] == Ended || (l.End? && j.s.phase.t == t)
    requires l.End? ==> j.act[t] == Joining(j.s.phase.t) ==> t !in s'.h.core.waitq
    requires l.End? ==> j.s.pc[j.s.phase.t] != Ended && j.s.phase.t !in j.zombies && j.s.phase.t !in j.reaped
    ensures ThreadOk(Effect(j, Base(l), s'), t)
  {
    assert FrameAt(j.s, l, s', t) && ViewOk(cfg, t, ViewOf(s', t));
    if j.act[t].Joining? {
      NotOwn(j.s, l, t);
    }
  }

  /** With one joiner per thread at most one thread waits for the ending one. */
  lemma OneWaiter(j: J, th: Tid)
    requires Shape(j.s) && |j.act| == |j.s.pc| && Sane(j.s.h.core)
    requires forall t :: 0 <= t < |j.act| ==> ThreadOk(j, t)
    requires forall t, u :: 0 <= t < u < |j.act| && j.act[t].Joining? ==> j.act[t] != j.act[u]
    ensures |OnChan(j.s.h.core, ThreadEnd(th))| <= 1
  {
    var on := OnChan(j.s.h.core, ThreadEnd(th));
    if on != {} {
      var x :| x in on;
      forall y | y in on ensures y == x {
        assert ThreadOk(j, x) && ThreadOk(j, y);
      }
      assert on == {x};
    }
  }

  lemma BaseKeeps(cfg: Config, j: J, l: Label)
    requires JoinInv(cfg, j) && CanStep(cfg, j, Base(l))
    ensures JoinInv(cfg, Next(cfg, j, Base(l)))
  {
    assert l in Steps(Base(l));
    StepFrame(cfg, j.s, l);
    CreatedLives(cfg, j.s, l);
    var s' := Apply(cfg, j.s, l);
    forall t | 0 <= t < |j.act| ensures s'.pc[t] == Ended <==> j.s.pc[t] == Ended || (l.End? && j.s.phase.t == t) {
      if j.s.pc[t] == Ended {
        EndedStays(cfg, j.s, l, s', t);
      } else {
        OnlyEndEnds(cfg, j.s, l, t);
      }
    }
    if l.End? {
      assert ThreadOk(j, j.s.phase.t);
      OneWaiter(j, j.s.phase.t);
      JoinersReleased(cfg, j.s);
    }
    BaseFramed(cfg, j, l, s');
  }

  lemma BaseFramed(cfg: Config, j: J, l: Label, s': State)
    requires JoinInv(cfg, j) && Enabled(j, Base(l)) && Frame(j.s, l, s') && Inv(cfg, s')
    requires l.Create? ==> s'.pc == j.s.pc + [App]
    requires forall t :: 0 <= t < |j.act| ==>
               (s'.pc[t] == Ended <==> j.s.pc[t] == Ended || (l.End? && j.s.phase.t == t))
    requires l.End? ==> OnChan(s'.h.core, ThreadEnd(j.s.phase.t)) == {} && j.s.pc[j.s.phase.t] != Ended
    ensures JoinInv(cfg, Effect(j, Base(l), s'))
  {
    var j' := Effect(j, Base(l), s');
    forall t | 0 <= t < |j'.act| ensures ThreadOk(j', t) {
      if t < |j.act| {
        assert ThreadOk(j, t) && FrameAt(j.s, l, s', t);
        assert l.End? ==> ThreadOk(j, j.s.phase.t) && t !in OnChan(s'.h.core, ThreadEnd(j.s.phase.t));
        ThreadFramed(cfg, j, l, s', t);
      }
    }
  }

  lemma WaitKeeps(cfg: Config, j: J, th: Tid, order: seq<Tid>)
    requires JoinInv(cfg, j) && CanStep(cfg, j, JoinWait(th, order))
    ensures JoinInv(cfg, Next(cfg, j, JoinWait(th, order)))
  {
    var l := WaitOn(ThreadEnd(th), FOREVER, order);
    assert l in Steps(JoinWait(th, order));
    StepFrame(cfg, j.s, l);
    var s' := Apply(cfg, j.s, l);
    forall t | 0 <= t < |j.act| ensures s'.pc[t] == Ended <==> j.s.pc[t] == Ended {
      if j.s.pc[t] == Ended {
        EndedStays(cfg, j.s, l, s', t);
      } else {
        OnlyEndEnds(cfg, j.s, l, t);
      }
    }
    WaitFramed(cfg, j, th, l, s');
  }

  lemma WaitFramed(cfg: Config, j: J, th: Tid, l: Label, s': State)
    requires JoinInv(cfg, j) && l.WaitOn? && l.ch == ThreadEnd(th) && l.timeout == FOREVER
    requires Enabled(j, JoinWait(th, l.order))
    requires Frame(j.s, l, s') && Inv(cfg, s')
    requires forall t :: 0 <= t < |j.act| ==> (s'.pc[t] == Ended <==> j.s.pc[t] == Ended)
    ensures JoinInv(cfg, Effect(j, JoinWait(th, l.order), s'))
  {
    var j' := Effect(j, JoinWait(th, l.order), s');
    forall t | 0 <= t < |j'.act| ensures ThreadOk(j', t) {
      assert ThreadOk(j, t) && FrameAt(j.s, l, s', t) && ViewOk(cfg, t, ViewOf(s', t));
      if j.act[t].Joining? {
        NotOwn(j.s, l, t);
      }
    }
  }

  lemma DoneKeeps(cfg: Config, j: J, th: Tid)
    requires JoinInv(cfg, j) && CanStep(cfg, j, JoinDone(th))
    ensures JoinInv(cfg, Next(cfg, j, JoinDone(th)))
  {
    var j' := Next(cfg, j, JoinDone(th));
    assert j.s.phase.t in j.s.h.core.runq;
    forall t | 0 <= t < |j'.act| ensures ThreadOk(j', t) {
      assert ThreadOk(j, t);
    }
  }

  lemma JoinStep(cfg: Config, j: J, op: Op)
    requires JoinInv(cfg, j) && CanStep(cfg, j, op)
    ensures JoinInv(cfg, Next(cfg, j, op))
  {
    match op
    case Base(l) => BaseKeeps(cfg, j, l);
    case JoinWait(th, order) => WaitKeeps(cfg, j, th, order);
    case JoinDone(th) => DoneKeeps(cfg, j, th);
  }

  /** No step of a join can fail an assertion of the scheduler. */
  lemma JoinNeverFails(cfg: Config, j: J, op: Op)
    requires JoinInv(cfg, j) && Enabled(j, op)
    ensures CanStep(cfg, j, op)
  {
    if Steps(op) != [] {
      StepSafe(cfg, j.s, Steps(op)[0]);
    }
  }

  // ----- the theorems ------------------------------------------------------------------

  ghost predicate JoinRun(cfg: Config, j: J, ops: seq<Op>, j': J)
    decreases |ops|
  {
    if ops == [] then j == j'
    else CanStep(cfg, j, ops[0]) && JoinRun(cfg, Next(cfg, j, ops[0]), ops[1..], j')
  }

  ghost function JoinInit(): J {
    J(Init(), {}, {}, [Free])
  }

  lemma {:induction false} JoinRunInv(cfg: Config, j: J, ops: seq<Op>, j': J)
    requires JoinInv(cfg, j) && JoinRun(cfg, j, ops, j')
    ensures JoinInv(cfg, j')
    decreases |ops|
  {
    if ops == [] {
    } else {
      JoinStep(cfg, j, ops[0]);
      JoinRunInv(cfg, Next(cfg, j, ops[0]), ops[1..], j');
    }
  }

  /** With one joiner per thread, nobody waits for a thread that has ended, and
      the joiner's loop runs once: off the wait queue, its thread is a zombie. */
  lemma NobodyJoinsTheDead(cfg: Config, ops: seq<Op>, j: J)
    requires JoinRun(cfg, JoinInit(), ops, j)
    ensures forall th :: 0 <= th < |j.s.pc| && (th in j.zombies || j.s.pc[th] == Ended) ==>
              OnChan(j.s.h.core, ThreadEnd(th)) == {}
    ensures forall t :: 0 <= t < |j.act| && j.act[t].Joining? && t !in j.s.h.core.waitq ==> j.act[t].th in j.zombies
    ensures forall t :: t in j.zombies ==> t < |j.s.pc| && j.s.pc[t] == Ended && t !in j.reaped
  {
    InitInv(cfg);
    JoinRunInv(cfg, JoinInit(), ops, j);
    forall th, t: Tid | 0 <= th < |j.s.pc| && t in OnChan(j.s.h.core, ThreadEnd(th))
      ensures th !in j.zombies && j.s.pc[th] != Ended
    {
      assert ThreadOk(j, t) && ThreadOk(j, th);
    }
    forall t | 0 <= t < |j.act|
      ensures j.act[t].Joining? && t !in j.s.h.core.waitq ==> j.act[t].th in j.zombies
      ensures t in j.zombies ==> j.s.pc[t] == Ended && t !in j.reaped
    {
      assert ThreadOk(j, t);
    }
  }

  /** A second joiner is lost: whoever is still waiting for a thread that has
      ended waits in every later state. */
  lemma {:induction false} SecondJoinerStuck(cfg: Config, s: State, ls: seq<Label>, s': State, t: Tid, th: Tid)
    requires Inv(cfg, s) && Reaches(cfg, s, ls, s') && t in OnChan(s.h.core, ThreadEnd(th))
    requires th < |s.pc| && s.pc[th] == Ended && s.h.core.waits[t].timeout == FOREVER
    requires forall l :: l in ls ==> !(l.Sig? && l.ch == ThreadEnd(th))
    ensures t in OnChan(s'.h.core, ThreadEnd(th))
    decreases |ls|
  {
    if ls == [] {
    } else {
      assert ls[0] in ls && forall l :: l in ls[1..] ==> l in ls;
      StepFrame(cfg, s, ls[0]);
      var s1 := Apply(cfg, s, ls[0]);
      StuckStep(cfg, s, ls[0], s1, t, th);
      SecondJoinerStuck(cfg, s1, ls[1..], s', t, th);
    }
  }

  lemma StuckStep(cfg: Config, s: State, l: Label, s': State, t: Tid, th: Tid)
    requires Inv(cfg, s) && Inv(cfg, s') && Guard(s, l) && Frame(s, l, s') && t in OnChan(s.h.core, ThreadEnd(th))
    requires th < |s.pc| && s.pc[th] == Ended && s.h.core.waits[t].timeout == FOREVER
    requires !(l.Sig? && l.ch == ThreadEnd(th))
    ensures t in OnChan(s'.h.core, ThreadEnd(th)) && s'.pc[th] == Ended && s'.h.core.waits[t].timeout == FOREVER
  {
    assert FrameAt(s, l, s', t) && ViewOk(cfg, t, ViewOf(s, t));
    EndedStays(cfg, s, l, s', th);
  }

  // ----- a run to two joiners --------------------------------------------------------------

  lemma DrainNothing(cfg: Config, h: Sched)
    requires h.pending == {}
    ensures Drain(cfg, h, []) == h
  {
    RejectNone(h.nds.list, {});
    assert Elems([]) == {} && h.nds.clock - {} == h.nds.clock && h.core.runq + [] == h.core.runq;
  }

  lemma ReachableOn(cfg: Config, s: State, ls: seq<Label>, s': State)
    requires Reachable(cfg, s) && Reaches(cfg, s, ls, s')
    ensures Reachable(cfg, s')
  {
    var l0 :| Reaches(cfg, Init(), l0, s);
    RunsCompose(cfg, Init(), l0, s, ls, s');
  }

  /** One more step of a run. */
  lemma Then(cfg: Config, s: State, l: Label) returns (s': State)
    requires Reachable(cfg, s) && Shape(s) && Guard(s, l)
    ensures Asserts(cfg, s, l) && s' == Apply(cfg, s, l) && Reachable(cfg, s')
  {
    ReachableInv(cfg, s);
    s' := StepOnce(cfg, s, l);
    ReachableOn(cfg, s, [l], s');
  }

  /** With nobody pending, next() chooses the front thread if it is runnable. */
  lemma ChoosesFront(cfg: Config, s: State) returns (s': State)
    requires Reachable(cfg, s) && Shape(s) && s.phase.Draining? && s.h.pending == {} && s.h.core.runq !in {[], [IDLE]}
    requires s.h.core.runq[0] < |s.pc| && s.h.status[s.h.core.runq[0]] == Runnable
    ensures Reachable(cfg, s')
    ensures var n := s.h.core.runq[0];
            s' == State(s.h.(status := s.h.status[n := RunningReg]), s.pc, Granting(n))
  {
    DrainNothing(cfg, s.h);
    var s1 := Then(cfg, s, DrainWakeups([]));
    s' := Then(cfg, s1, Look);
  }

  /** The chosen thread is posted the turn and comes to take it. */
  lemma Delivered(cfg: Config, s: State) returns (s': State)
    requires Reachable(cfg, s) && Shape(s) && s.phase.Granting? && s.phase.n < |s.pc| && s.pc[s.phase.n] == App
    ensures Reachable(cfg, s') && s' == State(s.h, s.pc[s.phase.n := Wanting], Held(s.phase.n, false))
  {
    var n := s.phase.n;
    CleanRecord(cfg, s, n);
    var s1 := Then(cfg, s, Post);
    var s2 := Then(cfg, s1, Arrive(n));
    s' := Then(cfg, s2, Take(n));
    assert s'.h.core.waits == s.h.core.waits;
  }

  /** Posting and taking the turn leaves the wait record as it was. */
  lemma CleanRecord(cfg: Config, s: State, n: Tid)
    requires Reachable(cfg, s) && Shape(s) && s.phase.Granting? && n < |s.pc|
    ensures s.h.core.waits[n].Post().Consume() == s.h.core.waits[n]
  {
    ReachableInv(cfg, s);
    assert ViewOk(cfg, n, ViewOf(s, n)) && s.h.core.waits[n].sem == 0;
  }

  /** The turn goes to the front thread. */
  lemma HandTo(cfg: Config, s: State) returns (s': State)
    requires Reachable(cfg, s) && Shape(s) && s.phase.Draining? && s.h.pending == {} && s.h.core.runq !in {[], [IDLE]}
    requires s.h.core.runq[0] < |s.pc|
    requires s.h.status[s.h.core.runq[0]] == Runnable && s.pc[s.h.core.runq[0]] == App
    ensures Reachable(cfg, s')
    ensures var n := s.h.core.runq[0];
            s' == State(s.h.(status := s.h.status[n := RunningReg]), s.pc[n := Wanting], Held(n, false))
  {
    var s1 := ChoosesFront(cfg, s);
    s' := Delivered(cfg, s1);
  }

  /** Four threads with turn count `turn`: those in `waiting` join thread 3. */
  ghost function FourThreads(runq: seq<Tid>, waiting: seq<Tid>, turn: nat, status: seq<Status>, pc: seq<Pc>,
                             phase: Phase): State
  {
    var w := Wait(ThreadEnd(3), FOREVER, 0, 0, false);
    var w0, w2 := if 0 in waiting then w else FRESH_WAIT, if 2 in waiting then w else FRESH_WAIT;
    var waits := [w0, FRESH_WAIT, w2, FRESH_WAIT];
    State(Sched(Core(runq, waiting, waits, turn), status, {}, NonDet([], map[])), pc, phase)
  }

  /** Nobody times out while all who wait do so for ever. */
  lemma TickNothing(c: Core)
    requires c.turn < FOREVER
    requires forall t :: t in c.waitq && t < |c.waits| ==> c.waits[t].timeout == FOREVER
    ensures Tick(c) == c.(turn := c.turn + 1)
  {
    var c1 := c.(turn := c.turn + 1);
    assert Expired(c1) == {};
    RejectNone(c1.waitq, {});
    assert ResetAll(c.waits, {}, ETIMEDOUT) == c.waits && c.runq + [] == c.runq;
  }

  lemma IncNothing(cfg: Config, h: Sched)
    requires h.pending == {} && h.core.turn < FOREVER
    requires forall t :: t in h.core.waitq && t < |h.core.waits| ==> h.core.waits[t].timeout == FOREVER
    ensures IncTurn(cfg, h, []) == h.(core := h.core.(turn := h.core.turn + 1))
  {
    TickNothing(h.core);
    DrainNothing(cfg, h.(core := Tick(h.core)));
  }

  lemma FirstTurn(cfg: Config) returns (s: State)
    ensures s == State(Sched(Core([0], [], [FRESH_WAIT], 0), [RunningReg], {}, NonDet([], map[])), [Wanting],
                       Held(0, false))
    ensures Reachable(cfg, s)
  {
    assert Reaches(cfg, Init(), [], Init());
    s := Then(cfg, Init(), Arrive(0));
    s := Then(cfg, s, Take(0));
  }

  lemma Creates(cfg: Config, s: State) returns (s': State)
    requires Reachable(cfg, s) && Shape(s) && HolderIs(s, Wanting) && |s.pc| < MAX_THREADS
    ensures Reachable(cfg, s')
    ensures var h := s.h;
            s' == State(h.(core := h.core.(runq := h.core.runq + [|s.pc|], waits := h.core.waits + [FRESH_WAIT]),
                           status := h.status + [Runnable]), s.pc + [App], s.phase)
  {
    s' := Then(cfg, s, Create);
  }

  /** Main creates the idle thread and threads 2 and 3. */
  lemma FourCreated(cfg: Config) returns (s: State)
    ensures s == FourThreads([0, 1, 2, 3], [], 0, [RunningReg, Runnable, Runnable, Runnable],
                             [Wanting, App, App, App], Held(0, false))
    ensures Reachable(cfg, s)
  {
    s := FirstTurn(cfg);
    s := Creates(cfg, s);
    s := Creates(cfg, s);
    s := Creates(cfg, s);
  }

  /** The holder waits for thread 3 to end. */
  lemma HolderJoins(cfg: Config, s: State) returns (s': State)
    requires Reachable(cfg, s) && Shape(s) && HolderIs(s, Wanting) && s.phase.t != IDLE && Launched(s)
    requires s.h.pending == {} && s.h.core.turn < FOREVER && AtFront(s, s.phase.t)
    requires forall t :: t in s.h.core.waitq && t < |s.h.core.waits| ==> s.h.core.waits[t].timeout == FOREVER
    ensures Reachable(cfg, s') && s.phase.t < |s.h.status| && s.h.status[s.phase.t] == RunningReg
    ensures var t, c := s.phase.t, s.h.core;
            s' == State(s.h.(status := s.h.status[t := Runnable],
                             core := Park(c.(turn := c.turn + 1), t, ThreadEnd(3), FOREVER)), s.pc, Draining(t, false))
  {
    ReachableInv(cfg, s);
    IncNothing(cfg, s.h);
    assert ViewOk(cfg, s.phase.t, ViewOf(s, s.phase.t));
    s' := Then(cfg, s, WaitOn(ThreadEnd(3), FOREVER, []));
  }

  /** The holder counts its turn; nobody is due. */
  lemma Counts(cfg: Config, s: State) returns (s': State)
    requires Reachable(cfg, s) && Shape(s) && HolderIs(s, Wanting)
    requires s.h.pending == {} && s.h.core.turn < FOREVER
    requires forall t :: t in s.h.core.waitq && t < |s.h.core.waits| ==> s.h.core.waits[t].timeout == FOREVER
    ensures Reachable(cfg, s')
    ensures s' == State(s.h.(core := s.h.core.(turn := s.h.core.turn + 1)), s.pc, Held(s.phase.t, true))
  {
    IncNothing(cfg, s.h);
    s' := Then(cfg, s, Inc([]));
  }

  /** The holder puts its turn; the non-det set is empty. */
  lemma Puts(cfg: Config, s: State) returns (s': State)
    requires Reachable(cfg, s) && Shape(s) && HolderIs(s, Wanting) && s.phase.inc
    requires s.h.nds.list == [] && AtFront(s, s.phase.t)
    ensures Reachable(cfg, s')
    ensures s.phase.t < |s.h.status|
    ensures s' == State(StepBack(s.h, s.phase.t), s.pc[s.phase.t := App], Draining(s.phase.t, false))
  {
    s' := Then(cfg, s, PutTurn);
  }

  /** Main joins thread 3, and the turn goes to idle. */
  lemma MainJoins(cfg: Config) returns (s: State)
    ensures s == FourThreads([1, 2, 3], [0], 1, [Runnable, RunningReg, Runnable, Runnable],
                             [Wanting, Wanting, App, App], Held(1, false))
    ensures Reachable(cfg, s)
  {
    s := FourCreated(cfg);
    s := HolderJoins(cfg, s);
    assert s.h.core.runq == [1, 2, 3] && s.h.core.waitq == [0];
    s := HandTo(cfg, s);
  }

  /** Idle takes its turn and puts it, and the turn goes to thread 2. */
  lemma IdleTurn(cfg: Config) returns (s: State)
    ensures s == FourThreads([2, 3, 1], [0], 2, [Runnable, Runnable, RunningReg, Runnable],
                             [Wanting, App, Wanting, App], Held(2, false))
    ensures Reachable(cfg, s)
  {
    s := MainJoins(cfg);
    s := Counts(cfg, s);
    s := Puts(cfg, s);
    assert s.h.core.runq == [2, 3, 1];
    s := HandTo(cfg, s);
  }

  /** Thread 2 joins thread 3 as well, and the turn goes to thread 3. */
  lemma SecondJoins(cfg: Config) returns (s: State)
    ensures s == FourThreads([3, 1], [0, 2], 3, [Runnable, Runnable, Runnable, RunningReg],
                             [Wanting, App, Wanting, Wanting], Held(3, false))
    ensures Reachable(cfg, s)
  {
    s := IdleTurn(cfg);
    s := HolderJoins(cfg, s);
    assert s.h.core.runq == [3, 1] && s.h.core.waitq == [0, 2];
    s := HandTo(cfg, s);
  }

  /** Thread 3 holds the turn and is about to end; main and thread 2 join it. */
  ghost function TwoWaiting(): State {
    FourThreads([3, IDLE], [MAIN, 2], 4, [Runnable, Runnable, Runnable, RunningReg],
                [Wanting, App, Wanting, Wanting], Held(3, true))
  }

  /** That state is reached: main joins, idle takes a turn, thread 2 joins. */
  lemma TwoWaitingReached(cfg: Config)
    ensures Reachable(cfg, TwoWaiting())
  {
    var s := SecondJoins(cfg);
    s := Counts(cfg, s);
  }

  /** Two joiners: when thread 3 has ended, thread 2 still waits for it, and so it
      does in every later state. */
  lemma TwoJoiners(cfg: Config, ls: seq<Label>, s': State)
    requires Reaches(cfg, TwoWaiting(), [End] + ls, s')
    requires forall l :: l in ls ==> !(l.Sig? && l.ch == ThreadEnd(3))
    ensures 2 in OnChan(s'.h.core, ThreadEnd(3))
    ensures Reachable(cfg, TwoWaiting())
  {
    TwoWaitingReached(cfg);
    ReachableInv(cfg, TwoWaiting());
    StepSafe(cfg, TwoWaiting(), End);
    SecondStays(cfg);
    assert ([End] + ls)[0] == End && ([End] + ls)[1..] == ls;
    SecondJoinerStuck(cfg, Apply(cfg, TwoWaiting(), End), ls, s', 2, 3);
  }

  lemma SecondStays(cfg: Config)
    requires Guard(TwoWaiting(), End) && Asserts(cfg, TwoWaiting(), End)
    ensures var s1 := Apply(cfg, TwoWaiting(), End);
            && 2 in OnChan(s1.h.core, ThreadEnd(3)) && |s1.pc| == 4 && s1.pc[3] == Ended
            && s1.h.core.waits[2].timeout == FOREVER
  {
    var c := TwoWaiting().h.core;
    EndCore(cfg, TwoWaiting());
    assert c.waitq == [MAIN, 2];
    assert FirstOn(c.waitq, c.waits, ThreadEnd(3)) == {MAIN};
    RejectIn(c.waitq, {MAIN});
    assert 2 in c.waitq by { assert c.waitq[1] == 2; }
  }

  // ----- what the turn holder does next ------------------------------------------------

  /** The only joiner of `th` reaps it exactly when it is a zombie, and waits otherwise. */
  lemma HolderBranches(j: J, th: Tid, order: seq<Tid>)
    requires Shape(j.s) && |j.act| == |j.s.pc| && HolderIs(j.s, Wanting) && j.s.phase.t != IDLE && th < |j.act|
    requires Launched(j.s) && IsOrder(order, j.s.h.pending) && j.s.h.core.turn < FOREVER
    requires j.act[j.s.phase.t] in {Free, Joining(th)} && OnlyJoiner(j, j.s.phase.t, th)
    ensures Enabled(j, JoinDone(th)) <==> th in j.zombies
    ensures Enabled(j, JoinWait(th, order)) <==> th !in j.zombies
  {
  }

  lemma OthersFree(j: J, l: Label)
    requires Shape(j.s) && |j.act| == |j.s.pc| && Guard(j.s, l)
    requires !(l.Sig? && l.ch.ThreadEnd?) && !(l.WaitOn? && l.ch.ThreadEnd?)
    ensures Background(l) ==> Enabled(j, Base(l))
    ensures j.s.phase.Held? && j.s.phase.t < |j.act| && j.act[j.s.phase.t] == Free ==> Enabled(j, Base(l))
  {
  }
}
