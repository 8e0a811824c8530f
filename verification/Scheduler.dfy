/** RRScheduler as code: one object whose methods update its fields, each
    proved to do what the functions of SchedSpec say.  A set traversed in
    unspecified order reports the order it was traversed in. */
module Scheduler {
  import opened Queues
  import opened SchedCore
  import opened SchedSpec
  import opened Protocol
  import opened ProtocolInv
  import opened ProtocolSteps
  import opened ProtocolTheorems

  // ----- delete-while-iterating loops ------------------------------------------

  /** A loop over the wait queue has passed the first `k` threads of `c0.waitq`,
      moving those in `hit`; it stands at index `i` of what is left. */
  ghost predicate Passed(c0: Core, hit: set<Tid>, st: int, k: nat, c: Core, i: nat) {
    && k <= |c0.waitq| && i <= |c.waitq|
    && c.waitq == Reject(c0.waitq[..k], hit) + c0.waitq[k..] && i == |Reject(c0.waitq[..k], hit)|
    && c.runq == c0.runq + Select(c0.waitq[..k], hit)
    && c.waits == ResetAll(c0.waits, hit * Elems(c0.waitq[..k]), st)
    && c.turn == c0.turn
  }

  lemma PassedStart(c0: Core, hit: set<Tid>, st: int)
    ensures Passed(c0, hit, st, 0, c0, 0)
  {
    assert c0.waitq[..0] == [] && c0.waitq[0..] == c0.waitq;
    assert ResetAll(c0.waits, hit * Elems(c0.waitq[..0]), st) == c0.waits;
  }

  lemma SplitOne(q: seq<Tid>, hit: set<Tid>, k: nat)
    requires k < |q|
    ensures Select(q[..k + 1], hit) == Select(q[..k], hit) + if q[k] in hit then [q[k]] else []
    ensures Reject(q[..k + 1], hit) == Reject(q[..k], hit) + if q[k] in hit then [] else [q[k]]
    ensures Elems(q[..k + 1]) == Elems(q[..k]) + {q[k]}
  {
    assert q[..k + 1] == q[..k] + [q[k]];
    SelectConcat(q[..k], [q[k]], hit);
    RejectConcat(q[..k], [q[k]], hit);
  }

  lemma Uncons(q: seq<Tid>, k: nat)
    requires k < |q|
    ensures q[k..] == [q[k]] + q[k + 1..]
  {
  }

  lemma MissQueues(w: seq<Tid>, hit: set<Tid>, k: nat)
    requires k < |w| && w[k] !in hit
    ensures Reject(w[..k + 1], hit) + w[k + 1..] == Reject(w[..k], hit) + w[k..]
    ensures |Reject(w[..k + 1], hit)| == |Reject(w[..k], hit)| + 1
    ensures Select(w[..k + 1], hit) == Select(w[..k], hit)
    ensures hit * Elems(w[..k + 1]) == hit * Elems(w[..k])
  {
    Uncons(w, k);
    SplitOne(w, hit, k);
  }

  lemma PassedMiss(c0: Core, hit: set<Tid>, st: int, k: nat, c: Core, i: nat)
    requires Sane(c0) && Passed(c0, hit, st, k, c, i) && k < |c0.waitq| && c0.waitq[k] !in hit
    ensures Passed(c0, hit, st, k + 1, c, i + 1)
  {
    MissQueues(c0.waitq, hit, k);
  }

  /** Reset, erase and re-queue the thread at position `i` of the wait queue. */
  ghost function TakeOut(c: Core, i: nat, st: int): Core {
    if i < |c.waitq| && c.waitq[i] < |c.waits| then
      c.(waits := c.waits[c.waitq[i] := c.waits[c.waitq[i]].Reset(st)],
      waitq := c.waitq[..i] + c.waitq[i + 1..], runq := c.runq + [c.waitq[i]])
    else c
  }

  lemma HitQueues(w: seq<Tid>, hit: set<Tid>, k: nat)
    requires k < |w| && w[k] in hit
    ensures var q, i := Reject(w[..k], hit) + w[k..], |Reject(w[..k], hit)|;
            && i < |q| && q[i] == w[k] && q[..i] + q[i + 1..] == Reject(w[..k + 1], hit) + w[k + 1..]
    ensures Select(w[..k + 1], hit) == Select(w[..k], hit) + [w[k]]
    ensures Reject(w[..k + 1], hit) == Reject(w[..k], hit)
  {
    Uncons(w, k);
    CutAt(Reject(w[..k], hit) + w[k..], Reject(w[..k], hit), w[k], w[k + 1..]);
    SplitOne(w, hit, k);
  }

  lemma CutAt(q: seq<Tid>, a: seq<Tid>, t: Tid, b: seq<Tid>)
    requires q == a + ([t] + b)
    ensures |a| < |q| && q[|a|] == t && q[..|a|] + q[|a| + 1..] == a + b
  {
  }

  lemma ResetOneMore(c0: Core, hit: set<Tid>, st: int, k: nat)
    requires Sane(c0) && k < |c0.waitq| && c0.waitq[k] in hit
    ensures var t, w := c0.waitq[k], ResetAll(c0.waits, hit * Elems(c0.waitq[..k]), st);
            && t < |w| && w[t] == c0.waits[t]
            && w[t := w[t].Reset(st)] == ResetAll(c0.waits, hit * Elems(c0.waitq[..k + 1]), st)
  {
    var t := c0.waitq[k];
    assert t in c0.waitq && t !in c0.waitq[..k];
    assert c0.waitq[..k + 1] == c0.waitq[..k] + [t];
  }

  lemma PassedHit(c0: Core, hit: set<Tid>, st: int, k: nat, c: Core, i: nat)
    requires Sane(c0) && Passed(c0, hit, st, k, c, i) && k < |c0.waitq| && c0.waitq[k] in hit
    ensures Passed(c0, hit, st, k + 1, TakeOut(c, i, st), i)
  {
    HitQueues(c0.waitq, hit, k);
    ResetOneMore(c0, hit, st, k);
    assert c0.waitq[k] in c0.waitq;
  }

  datatype Cursor = Cursor(c: Core, i: nat)

  /** The loop, as a function of how many threads it has passed. */
  ghost function Pass(c0: Core, hit: set<Tid>, st: int, k: nat): Cursor
    requires k <= |c0.waitq|
  {
    if k == 0 then Cursor(c0, 0)
    else
      var p := Pass(c0, hit, st, k - 1);
      if c0.waitq[k - 1] in hit then Cursor(TakeOut(p.c, p.i, st), p.i) else Cursor(p.c, p.i + 1)
  }

  lemma {:induction false} PassForm(c0: Core, hit: set<Tid>, st: int, k: nat)
    requires Sane(c0) && k <= |c0.waitq|
    ensures Passed(c0, hit, st, k, Pass(c0, hit, st, k).c, Pass(c0, hit, st, k).i)
  {
    if k == 0 {
      PassedStart(c0, hit, st);
    } else {
      PassForm(c0, hit, st, k - 1);
      var p := Pass(c0, hit, st, k - 1);
      if c0.waitq[k - 1] in hit {
        PassedHit(c0, hit, st, k - 1, p.c, p.i);
      } else {
        PassedMiss(c0, hit, st, k - 1, p.c, p.i);
      }
    }
  }

  /** The loop ends exactly when all threads are passed, and the thread at hand
      has not been touched yet. */
  lemma PassHere(c0: Core, hit: set<Tid>, st: int, k: nat, c: Core, i: nat)
    requires Sane(c0) && k <= |c0.waitq| && Pass(c0, hit, st, k) == Cursor(c, i)
    ensures i <= |c.waitq| && (i == |c.waitq| <==> k == |c0.waitq|)
    ensures |c.waitq| - i == |c0.waitq| - k && c.turn == c0.turn
    ensures k < |c0.waitq| ==> c.waitq[i] == c0.waitq[k] && c0.waitq[k] < |c.waits| == |c0.waits|
    ensures k < |c0.waitq| ==> c.waits[c.waitq[i]] == c0.waits[c0.waitq[k]]
  {
    PassForm(c0, hit, st, k);
    if k < |c0.waitq| {
      var t := c0.waitq[k];
      assert t in c0.waitq && t !in c0.waitq[..k];
    }
  }

  /** Once no thread ahead is in `hit`, the loop has done the whole move. */
  lemma PassDone(c0: Core, hit: set<Tid>, st: int, k: nat)
    requires Sane(c0) && k <= |c0.waitq| && hit <= Elems(c0.waitq)
    requires forall t :: t in c0.waitq[k..] ==> t !in hit
    ensures Pass(c0, hit, st, k).c == Move(c0, hit, st)
  {
    PassForm(c0, hit, st, k);
    var a, b := c0.waitq[..k], c0.waitq[k..];
    assert c0.waitq == a + b;
    SelectConcat(a, b, hit);
    RejectConcat(a, b, hit);
    RejectNone(b, hit);
    assert hit * Elems(a) == hit;
  }

  /** The first waiter met is the one a single signal wakes. */
  lemma FirstMet(c: Core, ch: Chan, k: nat)
    requires Sane(c) && k < |c.waitq| && c.waitq[k] < |c.waits| && c.waits[c.waitq[k]].chan == ch
    requires NoneOn(c, ch, k)
    ensures FirstOn(c.waitq, c.waits, ch) == {c.waitq[k]}
  {
    FirstOnIn(c.waitq, c.waits, ch);
    assert c.waitq[k] in c.waitq;
    var i := LongestWaiter(c.waitq, c.waits, ch);
  }

  ghost predicate NoneOn(c: Core, ch: Chan, k: nat)
    requires k <= |c.waitq|
  {
    forall j :: 0 <= j < k && c.waitq[j] < |c.waits| ==> c.waits[c.waitq[j]].chan != ch
  }

  /** The threads signal() wakes. */
  ghost function HitOf(c: Core, ch: Chan, all: bool): set<Tid> {
    if all then OnChan(c, ch) else FirstOn(c.waitq, c.waits, ch)
  }

  lemma SignalHit(c: Core, ch: Chan, all: bool) returns (hit: set<Tid>)
    requires Sane(c)
    ensures hit == HitOf(c, ch, all)
    ensures hit <= OnChan(c, ch) && hit <= Elems(c.waitq)
    ensures SchedCore.Signal(c, ch, all) == Move(c, hit, 0)
  {
    hit := SignalSane(c, ch, all);
  }

  lemma HitHere(c: Core, ch: Chan, all: bool, hit: set<Tid>, k: nat)
    requires Sane(c) && k < |c.waitq| && c.waitq[k] < |c.waits| && c.waits[c.waitq[k]].chan == ch
    requires hit == HitOf(c, ch, all) && (!all ==> NoneOn(c, ch, k))
    ensures c.waitq[k] in hit && (!all ==> hit == {c.waitq[k]})
  {
    assert c.waitq[k] in c.waitq;
    if !all {
      FirstMet(c, ch, k);
    }
  }

  lemma MissHere(c: Core, ch: Chan, all: bool, hit: set<Tid>, k: nat)
    requires k < |c.waitq| && c.waitq[k] < |c.waits| && c.waits[c.waitq[k]].chan != ch && hit <= OnChan(c, ch)
    requires !all ==> NoneOn(c, ch, k)
    ensures c.waitq[k] !in hit && (!all ==> NoneOn(c, ch, k + 1))
  {
  }

  /** After a single hit nothing further along the queue is in `hit`. */
  lemma AheadClear(c: Core, hit: set<Tid>, k: nat)
    requires Sane(c) && k <= |c.waitq| && (k == |c.waitq| || (k > 0 && hit == {c.waitq[k - 1]}))
    ensures forall t :: t in c.waitq[k..] ==> t !in hit
  {
  }

  ghost predicate RunnableAt(runq: seq<Tid>, status: seq<Status>, i: nat) {
    i < |runq| && runq[i] < |status| && status[runq[i]] == Runnable
  }

  ghost predicate WellFormed(h: Sched) {
    && Sane(h.core) && |h.status| == |h.core.waits|
    && (forall t :: t in h.pending ==> t < |h.core.waits| && t !in h.core.waitq)
  }

  lemma MoveWellFormed(h: Sched, hit: set<Tid>, st: int)
    requires WellFormed(h) && hit <= Elems(h.core.waitq)
    ensures WellFormed(h.(core := Move(h.core, hit, st)))
  {
    MoveSane(h.core, hit, st);
  }

  // ----- traversing the wake-up set ----------------------------------------------

  lemma {:induction false} RejectTwice(q: seq<Tid>, a: set<Tid>, b: set<Tid>)
    ensures Reject(Reject(q, a), b) == Reject(q, a + b)
  {
    if q == [] {
    } else {
      RejectTwice(q[1..], a, b);
      if q[0] in a {
        assert Reject(q, a) == Reject(q[1..], a);
        assert Reject(q, a + b) == Reject(q[1..], a + b);
      } else {
        assert Reject(q, a)[1..] == Reject(q[1..], a);
      }
    }
  }

  /** One iteration of check_wakeup. */
  ghost function DrainOne(cfg: Config, h: Sched, t: Tid): Sched {
    if t in h.core.runq then h
    else h.(core := h.core.(runq := h.core.runq + [t]), nds := if cfg.bound.Within? then h.nds.Erase({t}) else h.nds)
  }

  ghost function DrainLoop(cfg: Config, h: Sched, order: seq<Tid>): Sched {
    if order == [] then h
    else DrainOne(cfg, DrainLoop(cfg, h, order[..|order| - 1]), order[|order| - 1])
  }

  lemma EraseNone(d: NonDet)
    ensures d.Erase({}) == d
  {
    RejectNone(d.list, {});
    assert d.clock - {} == d.clock;
  }

  lemma EraseOne(d: NonDet, w: seq<Tid>, t: Tid)
    ensures d.Erase(Elems(w)).Erase({t}) == d.Erase(Elems(w + [t]))
  {
    RejectTwice(d.list, Elems(w), {t});
    assert Elems(w + [t]) == Elems(w) + {t};
    assert d.clock - Elems(w) - {t} == d.clock - Elems(w + [t]);
  }

  /** Re-queueing one by one is what `Drain` says. */
  lemma {:induction false} DrainLoopForm(cfg: Config, h: Sched, order: seq<Tid>)
    requires NoDup(order)
    ensures DrainLoop(cfg, h, order) == Drain(cfg, h, order).(pending := h.pending)
  {
    if order == [] {
      EraseNone(h.nds);
      assert Woken(h, order) == [] && Elems([]) == {};
    } else {
      var n := |order| - 1;
      var o, t := order[..n], order[n];
      assert order == o + [t];
      DrainLoopForm(cfg, h, o);
      WokenOne(h, o, t);
      EraseOne(h.nds, Woken(h, o), t);
      var w := Woken(h, o);
      assert h.core.runq + (w + [t]) == (h.core.runq + w) + [t] && w + [] == w;
    }
  }

  lemma WokenOne(h: Sched, o: seq<Tid>, t: Tid)
    requires t !in o
    ensures Woken(h, o + [t]) == Woken(h, o) + if t in h.core.runq then [] else [t]
    ensures t in h.core.runq + Woken(h, o) <==> t in h.core.runq
  {
    RejectConcat(o, [t], Elems(h.core.runq));
    RejectIn(o, Elems(h.core.runq));
  }

  lemma OrderGrows(order: seq<Tid>, t: Tid)
    requires NoDup(order) && t !in Elems(order)
    ensures NoDup(order + [t]) && Elems(order + [t]) == Elems(order) + {t} && (order + [t])[..|order|] == order
  {
    NoDupConcat(order, [t]);
  }

  lemma DrainGrows(cfg: Config, h: Sched, order: seq<Tid>, pending: set<Tid>, todo: set<Tid>, t: Tid)
    requires NoDup(order) && Elems(order) == pending - todo && t in todo && todo <= pending
    ensures NoDup(order + [t]) && Elems(order + [t]) == pending - (todo - {t})
    ensures DrainLoop(cfg, h, order + [t]) == DrainOne(cfg, DrainLoop(cfg, h, order), t)
  {
    OrderGrows(order, t);
  }

  lemma DrainWellFormed(cfg: Config, h: Sched, order: seq<Tid>)
    requires WellFormed(h) && IsOrder(order, h.pending)
    ensures WellFormed(Drain(cfg, h, order))
  {
    var w := Woken(h, order);
    RejectIn(order, Elems(h.core.runq));
    RejectNoDup(order, Elems(h.core.runq));
    assert forall t :: t in order <==> t in Elems(order);
    NoDupConcat(h.core.runq, w);
  }

  lemma DrainDone(cfg: Config, h: Sched, order: seq<Tid>)
    requires WellFormed(h) && IsOrder(order, h.pending)
    ensures DrainLoop(cfg, h, order).(pending := {}) == Drain(cfg, h, order) && WellFormed(Drain(cfg, h, order))
  {
    DrainLoopForm(cfg, h, order);
    DrainWellFormed(cfg, h, order);
  }

  lemma InvWellFormed(cfg: Config, s: State)
    requires Inv(cfg, s)
    ensures WellFormed(s.h)
  {
    PendingFacts(cfg, s);
  }

  /** One more iteration of nextRunnable, as a step of the protocol. */
  lemma LookOnce(cfg: Config, s0: State, ls: seq<Label>, s: State) returns (s1: State)
    requires Inv(cfg, s) && Reaches(cfg, s0, ls, s) && s.phase.Seeking?
    ensures WellFormed(s.h) && ExamineOk(cfg, s.h, s.phase.t, s.phase.atEnd)
    ensures Inv(cfg, s1) && Reaches(cfg, s0, ls + [Look], s1)
    ensures s1.h == Examine(cfg, s.h, s.phase.t, s.phase.atEnd).h
    ensures s1.pc == if EndOfProgram(s.h, s.phase.t, s.phase.atEnd) then s.pc else IdleUp(s)
    ensures match Examine(cfg, s.h, s.phase.t, s.phase.atEnd)
            case NoMore(_) => s1.phase == Stopped
            case Again(_) => s1.phase == s.phase && |s1.h.core.runq| < |s.h.core.runq|
            case Give(_, n) => s1.phase == Granting(n)
  {
    InvWellFormed(cfg, s);
    StepSafe(cfg, s, Look);
    LookShrinks(cfg, s);
    RunExtends(cfg, s0, ls, s, Look);
    s1 := Apply(cfg, s, Look);
  }

  lemma DrainOnce(cfg: Config, s: State, order: seq<Tid>) returns (s1: State)
    requires Inv(cfg, s) && s.phase.Draining? && IsOrder(order, s.h.pending)
    ensures Inv(cfg, s1) && Reaches(cfg, s, [DrainWakeups(order)], s1)
    ensures s1.h == Drain(cfg, s.h, order) && s1.phase == Seeking(s.phase.t, s.phase.atEnd) && s1.pc == s.pc
  {
    s1 := StepOnce(cfg, s, DrainWakeups(order));
  }

  lemma PostOnce(cfg: Config, s: State) returns (s1: State)
    requires Inv(cfg, s) && s.phase.Granting?
    ensures Inv(cfg, s1) && Reaches(cfg, s, [Post], s1) && s1.phase == InFlight && s1.pc == s.pc
    ensures s.phase.n < |s.h.core.waits|
    ensures s1.h == s.h.(core := s.h.core.(waits := s.h.core.waits[s.phase.n := s.h.core.waits[s.phase.n].Post()]))
  {
    s1 := StepOnce(cfg, s, Post);
  }

  lemma PutOnce(cfg: Config, s: State) returns (s1: State)
    requires Inv(cfg, s) && s.phase.Held? && s.phase.inc
    ensures Inv(cfg, s1) && Reaches(cfg, s, [PutTurn], s1) && s1.phase == Draining(s.phase.t, false)
    ensures s1.pc == s.pc[s.phase.t := App]
    ensures StepDownOk(s.h, s.phase.t) && CheckBoundOk(cfg, StepBack(s.h, s.phase.t))
    ensures s1.h == CheckBound(cfg, StepBack(s.h, s.phase.t))
  {
    s1 := StepOnce(cfg, s, PutTurn);
  }

  lemma EndOnce(cfg: Config, s: State) returns (s1: State)
    requires Inv(cfg, s) && Launched(s) && s.phase.Held? && s.phase.inc && s.phase.t != IDLE
    ensures Inv(cfg, s1) && Reaches(cfg, s, [End], s1) && s1.phase == Draining(s.phase.t, true)
    ensures s1.pc == s.pc[s.phase.t := Ended]
    ensures CheckBoundOk(cfg, Ending(s.h, s.phase.t))
    ensures StepDownOk(CheckBound(cfg, Ending(s.h, s.phase.t)), s.phase.t)
    ensures s1.h == StepDown(CheckBound(cfg, Ending(s.h, s.phase.t)), s.phase.t)
  {
    s1 := StepOnce(cfg, s, End);
  }

  lemma WaitOnce(cfg: Config, s: State, ch: Chan, timeout: nat, order: seq<Tid>) returns (s1: State)
    requires Inv(cfg, s) && Guard(s, WaitOn(ch, timeout, order))
    ensures Inv(cfg, s1) && Reaches(cfg, s, [WaitOn(ch, timeout, order)], s1) && s1.phase == Draining(s.phase.t, false)
    ensures StepDownOk(IncTurn(cfg, s.h, order), s.phase.t) && s1.pc == s.pc
    ensures s.phase.t < |IncTurn(cfg, s.h, order).core.waits|
    ensures var h1 := IncTurn(cfg, s.h, order);
            s1.h == StepDown(h1, s.phase.t).(core := Park(h1.core, s.phase.t, ch, timeout))
  {
    s1 := StepOnce(cfg, s, WaitOn(ch, timeout, order));
  }

  lemma BlockOnce(cfg: Config, s: State, order: seq<Tid>) returns (s1: State)
    requires Inv(cfg, s) && Guard(s, Block(order))
    ensures Inv(cfg, s1) && Reaches(cfg, s, [Block(order)], s1) && s1.phase == Draining(s.phase.t, false)
    ensures StepDownOk(Leaving(cfg, s.h, s.phase.t, order), s.phase.t)
    ensures s1.pc == s.pc[s.phase.t := if s.pc[s.phase.t] == Blocking then Calling else Detached]
    ensures s1.h == StepDown(Leaving(cfg, s.h, s.phase.t, order), s.phase.t)
  {
    s1 := StepOnce(cfg, s, Block(order));
  }

  /** Entering the non-det set leaves everything incTurnCount() needs. */
  lemma BlockReady(cfg: Config, s: State)
    requires Inv(cfg, s) && s.phase.Held?
    ensures WellFormed(s.h) && s.phase.t in s.h.core.runq
    ensures cfg.bound.Within? ==> forall t :: t in s.h.pending && t !in s.h.core.runq ==> t in s.h.nds.list
  {
    InvWellFormed(cfg, s);
    PendingFacts(cfg, s);
  }

  lemma BeginScanOnce(cfg: Config, s: State) returns (s1: State)
    requires Inv(cfg, s) && s.phase == Held(IDLE, true) && |s.h.core.runq| >= 2
    ensures Inv(cfg, s1) && Reaches(cfg, s, [BeginScan], s1) && s1.phase == Scanning(1)
    ensures s1.h == s.h && s1.pc == s.pc
  {
    s1 := StepOnce(cfg, s, BeginScan);
  }

  lemma ScanOnce(cfg: Config, s0: State, ls: seq<Label>, s: State) returns (s1: State)
    requires Inv(cfg, s) && Reaches(cfg, s0, ls, s) && s.phase.Scanning?
    ensures Inv(cfg, s1) && Reaches(cfg, s0, ls + [Scan], s1) && s1.pc == s.pc
    ensures s.phase.i < |s.h.core.runq| ==> s.h.core.runq[s.phase.i] < |s.h.status|
    ensures if RunnableAt(s.h.core.runq, s.h.status, s.phase.i)
            then s1.phase == Promised && s1.h == s.h.(status := s.h.status[s.h.core.runq[s.phase.i] := RunningReg])
            else && s1.h == s.h
                 && s1.phase == if s.phase.i < |s.h.core.runq| then Scanning(s.phase.i + 1) else Held(IDLE, true)
  {
    StepSafe(cfg, s, Scan);
    s1 := Apply(cfg, s, Scan);
    RunExtends(cfg, s0, ls, s, Scan);
  }

  lemma QueuedKnown(cfg: Config, s: State)
    requires Inv(cfg, s)
    ensures forall t :: t in s.h.core.runq ==> t < |s.h.status|
  {
  }

  ghost predicate OnlyScans(ls: seq<Label>) {
    forall l :: l in ls ==> l.BeginScan? || l.Scan?
  }

  /** An uninterrupted tryPutTurn that passed the positions before `i`. */
  lemma {:induction false} ScanUpTo(cfg: Config, s0: State, i: nat) returns (s: State, ls: seq<Label>)
    requires Inv(cfg, s0) && s0.phase == Held(IDLE, true) && 1 <= i <= |s0.h.core.runq| && |s0.h.core.runq| >= 2
    requires forall j :: 1 <= j < i ==> !RunnableAt(s0.h.core.runq, s0.h.status, j)
    ensures Inv(cfg, s) && Reaches(cfg, s0, ls, s) && s.phase == Scanning(i) && s.h == s0.h && OnlyScans(ls)
  {
    if i == 1 {
      s := BeginScanOnce(cfg, s0);
      ls := [BeginScan];
    } else {
      var s1, l1 := ScanUpTo(cfg, s0, i - 1);
      s := ScanOnce(cfg, s0, l1, s1);
      ls := l1 + [Scan];
    }
  }

  lemma ScanRun(cfg: Config, s0: State, ok: bool, i: nat) returns (s: State, ls: seq<Label>)
    requires Inv(cfg, s0) && s0.phase == Held(IDLE, true) && 1 <= i && |s0.h.core.runq| >= 2
    requires forall j :: 1 <= j < i ==> !RunnableAt(s0.h.core.runq, s0.h.status, j)
    requires if ok then RunnableAt(s0.h.core.runq, s0.h.status, i) else i >= |s0.h.core.runq|
    ensures Inv(cfg, s) && Reaches(cfg, s0, ls, s) && s.phase == if ok then Promised else Held(IDLE, true)
    ensures s.h == if ok then s0.h.(status := s0.h.status[s0.h.core.runq[i] := RunningReg]) else s0.h
    ensures OnlyScans(ls)
  {
    var n := if ok then i else |s0.h.core.runq|;
    var s1, l1 := ScanUpTo(cfg, s0, n);
    s := ScanOnce(cfg, s0, l1, s1);
    ls := l1 + [Scan];
  }

  lemma LeaveIdleOnce(cfg: Config, s: State) returns (s1: State)
    requires Inv(cfg, s) && s.phase == Promised
    ensures Inv(cfg, s1) && Reaches(cfg, s, [LeaveIdle], s1) && s1.phase == Draining(IDLE, false)
    ensures IDLE < |s.pc| && s1.pc == s.pc[IDLE := Parked]
    ensures StepDownOk(s.h, IDLE) && IDLE < |s.h.core.waits|
    ensures s1.h == StepDown(s.h, IDLE).(core := Park(s.h.core, IDLE, IdleCond, FOREVER))
  {
    s1 := StepOnce(cfg, s, LeaveIdle);
  }

  /** When the loop is over, or has made its single hit, the move is done. */
  lemma LoopDone(h: Sched, hit: set<Tid>, st: int, k: nat, c: Core, i: nat)
    requires WellFormed(h) && hit <= Elems(h.core.waitq) && k <= |h.core.waitq|
    requires Pass(h.core, hit, st, k) == Cursor(c, i)
    requires i >= |c.waitq| || (k > 0 && hit == {h.core.waitq[k - 1]})
    ensures c == Move(h.core, hit, st) && WellFormed(h.(core := c))
  {
    PassHere(h.core, hit, st, k, c, i);
    AheadClear(h.core, hit, k);
    PassDone(h.core, hit, st, k);
    MoveWellFormed(h, hit, st);
  }

  lemma PassHit(c0: Core, hit: set<Tid>, st: int, k: nat, c: Core, i: nat)
    requires k < |c0.waitq| && c0.waitq[k] in hit && Pass(c0, hit, st, k) == Cursor(c, i)
    ensures Pass(c0, hit, st, k + 1) == Cursor(TakeOut(c, i, st), i)
  {
  }

  /** The search for idle goes on while it is still ahead. */
  lemma IdleAhead(c: Core, i: nat)
    requires i < |c.waitq| && Pass(c, {IDLE}, 0, i) == Cursor(c, i) && c.waitq[i] != IDLE && IDLE in c.waitq[i..]
    ensures i + 1 < |c.waitq| && Pass(c, {IDLE}, 0, i + 1) == Cursor(c, i + 1) && IDLE in c.waitq[i + 1..]
  {
    Uncons(c.waitq, i);
  }

  lemma IdleMoved(h: Sched, i: nat)
    requires WellFormed(h) && i < |h.core.waitq| && h.core.waitq[i] == IDLE
    requires Pass(h.core, {IDLE}, 0, i) == Cursor(h.core, i)
    ensures TakeOut(h.core, i, 0) == Move(h.core, {IDLE}, 0)
    ensures WellFormed(h.(core := Move(h.core, {IDLE}, 0)))
  {
    assert IDLE in h.core.waitq;
    PassHit(h.core, {IDLE}, 0, i, h.core, i);
    LoopDone(h, {IDLE}, 0, i + 1, TakeOut(h.core, i, 0), i);
  }

  /** The thread the loop stands at is not in the run queue yet. */
  lemma NotQueued(c0: Core, hit: set<Tid>, st: int, k: nat, c: Core, i: nat)
    requires Sane(c0) && k < |c0.waitq| && Pass(c0, hit, st, k) == Cursor(c, i)
    ensures c0.waitq[k] !in c.runq
  {
    PassForm(c0, hit, st, k);
    SelectIn(c0.waitq[..k], hit);
    assert c0.waitq[k] in c0.waitq && c0.waitq[k] !in c0.waitq[..k];
  }

  /** The loop of signal() has passed `k` threads and stands at core `c`, index
      `i`; `done` when it has made its single hit. */
  ghost predicate Signalling(c0: Core, ch: Chan, all: bool, k: nat, c: Core, i: nat, done: bool) {
    && k <= |c0.waitq| && Pass(c0, HitOf(c0, ch, all), 0, k) == Cursor(c, i)
    && if done then k > 0 && HitOf(c0, ch, all) == {c0.waitq[k - 1]} else all || NoneOn(c0, ch, k)
  }

  /** The thread at hand, and where the loop stands after it. */
  lemma SignalHere(c0: Core, ch: Chan, all: bool, k: nat, c: Core, i: nat)
    requires Sane(c0) && Signalling(c0, ch, all, k, c, i, false) && i < |c.waitq|
    ensures k < |c0.waitq| && c.waitq[i] == c0.waitq[k] < |c.waits| && c.waitq[i] in c0.waitq && c.waitq[i] !in c.runq
    ensures if c.waits[c.waitq[i]].chan == ch then Signalling(c0, ch, all, k + 1, TakeOut(c, i, 0), i, !all)
            else Signalling(c0, ch, all, k + 1, c, i + 1, false)
  {
    var hit := SignalHit(c0, ch, all);
    PassHere(c0, hit, 0, k, c, i);
    NotQueued(c0, hit, 0, k, c, i);
    assert c0.waitq[k] in c0.waitq;
    if c.waits[c.waitq[i]].chan == ch {
      HitHere(c0, ch, all, hit, k);
    } else {
      MissHere(c0, ch, all, hit, k);
    }
  }

  lemma SignalEnds(c0: Core, ch: Chan, all: bool, k: nat, c: Core, i: nat, done: bool)
    requires Sane(c0) && Signalling(c0, ch, all, k, c, i, done) && (done || i >= |c.waitq|)
    ensures c == SchedCore.Signal(c0, ch, all)
  {
    var hit := SignalHit(c0, ch, all);
    PassHere(c0, hit, 0, k, c, i);
    AheadClear(c0, hit, k);
    PassDone(c0, hit, 0, k);
  }

  lemma SignalOver(h: Sched, ch: Chan, all: bool, k: nat, c: Core, i: nat, done: bool)
    requires WellFormed(h) && Signalling(h.core, ch, all, k, c, i, done) && (done || i >= |c.waitq|)
    ensures c == SchedCore.Signal(h.core, ch, all) && WellFormed(h.(core := c))
  {
    var hit := SignalHit(h.core, ch, all);
    SignalEnds(h.core, ch, all, k, c, i, done);
    MoveWellFormed(h, hit, 0);
  }

  /** The steps next() takes once its caller has left the front of the queue. */
  ghost predicate Passing(ls: seq<Label>) {
    forall l :: l in ls ==> l.DrainWakeups? || l.Look? || l.Post?
  }

  /** The run of a call whose first step is `l` and that then hands the turn over. */
  ghost predicate CallOf(l: Label, ls: seq<Label>) {
    ls != [] && ls[0] == l && Passing(ls[1..])
  }

  lemma CallStarts(l: Label, ls: seq<Label>)
    requires Passing(ls)
    ensures CallOf(l, [l] + ls)
  {
    assert ([l] + ls)[1..] == ls;
  }

  lemma TakeOnce(cfg: Config, s: State, t: Tid) returns (s1: State)
    requires Inv(cfg, s) && Guard(s, Take(t))
    ensures Inv(cfg, s1) && Reaches(cfg, s, [Take(t)], s1) && s1.phase == Held(t, false) && AtFront(s1, t)
    ensures s1.pc == s.pc
    ensures s1.h == s.h.(core := s.h.core.(waits := s.h.core.waits[t := s.h.core.waits[t].Consume()]))
  {
    s1 := StepOnce(cfg, s, Take(t));
  }

  lemma StartOnce(cfg: Config, s: State, t: Tid) returns (s1: State)
    requires Inv(cfg, s) && Guard(s, Start(t))
    ensures Inv(cfg, s1) && Reaches(cfg, s, [Start(t)], s1) && s1.phase == s.phase
    ensures t < |s.h.status| && s.h.status[t] in {Runnable, RunningReg}
    ensures s1.pc == s.pc[t := if s.h.status[t] == Runnable then Calling else Blocking]
    ensures s1.h == s.h.(status := s.h.status[t := if s.h.status[t] == Runnable then InterProStop else RunningInterPro])
  {
    s1 := StepOnce(cfg, s, Start(t));
  }

  lemma FinishOnce(cfg: Config, s: State, t: Tid) returns (s1: State)
    requires Inv(cfg, s) && Guard(s, Finish(t))
    ensures Inv(cfg, s1) && Reaches(cfg, s, [Finish(t)], s1) && s1.phase == s.phase && s1.pc == s.pc[t := Returned]
    ensures t < |s.h.status| && s1.h == s.h.(status := s.h.status[t := Runnable])
  {
    s1 := StepOnce(cfg, s, Finish(t));
  }

  lemma WakeOnce(cfg: Config, s: State, t: Tid) returns (s1: State)
    requires Inv(cfg, s) && Guard(s, Wake(t))
    ensures Inv(cfg, s1) && Reaches(cfg, s, [Wake(t)], s1) && s1.phase == s.phase && s1.pc == s.pc[t := App]
    ensures s1.h == s.h.(pending := s.h.pending + {t})
  {
    s1 := StepOnce(cfg, s, Wake(t));
  }

  lemma ArriveOnce(cfg: Config, s: State, t: Tid) returns (s1: State)
    requires Inv(cfg, s) && Guard(s, Arrive(t))
    ensures Inv(cfg, s1) && Reaches(cfg, s, [Arrive(t)], s1) && s1.phase == s.phase && s1.pc == s.pc[t := Wanting]
    ensures s1.h == s.h
  {
    s1 := StepOnce(cfg, s, Arrive(t));
  }

  lemma IncOnce(cfg: Config, s: State, order: seq<Tid>) returns (s1: State)
    requires Inv(cfg, s) && Guard(s, Inc(order))
    ensures Inv(cfg, s1) && Reaches(cfg, s, [Inc(order)], s1) && s1.phase == Held(s.phase.t, true) && s1.pc == s.pc
    ensures s1.h == IncTurn(cfg, s.h, order)
  {
    s1 := StepOnce(cfg, s, Inc(order));
  }

  /** Only Create adds threads. */
  lemma {:induction false} SameThreads(cfg: Config, s: State, ls: seq<Label>, s': State)
    requires Reaches(cfg, s, ls, s') && forall l :: l in ls ==> !l.Create?
    ensures |s'.pc| == |s.pc|
    decreases |ls|
  {
    if ls == [] {
      assert s == s';
    } else {
      assert ls[0] in ls && forall l :: l in ls[1..] ==> l in ls;
      SameThreads(cfg, Apply(cfg, s, ls[0]), ls[1..], s');
    }
  }

  lemma SigOnce(cfg: Config, s: State, ch: Chan, all: bool) returns (s1: State)
    requires Inv(cfg, s) && Guard(s, Sig(ch, all))
    ensures Inv(cfg, s1) && Reaches(cfg, s, [Sig(ch, all)], s1) && s1.phase == s.phase && s1.pc == s.pc
    ensures s1.h == s.h.(core := SchedCore.Signal(s.h.core, ch, all))
  {
    s1 := StepOnce(cfg, s, Sig(ch, all));
  }

  lemma CreateOnce(cfg: Config, s: State) returns (s1: State)
    requires Inv(cfg, s) && Guard(s, Create)
    ensures Inv(cfg, s1) && Reaches(cfg, s, [Create], s1) && s1.phase == s.phase && s1.pc == s.pc + [App]
    ensures s1.h == s.h.(core := s.h.core.(runq := s.h.core.runq + [|s.h.status|],
                                           waits := s.h.core.waits + [FRESH_WAIT]),
                         status := s.h.status + [Runnable])
  {
    s1 := StepOnce(cfg, s, Create);
  }

  class RRScheduler {
    const cfg: Config
    var runq: seq<Tid>
    var waitq: seq<Tid>
    var waits: seq<Wait>
    var turnCount: nat
    var status: seq<Status>
    var wakeupTids: set<Tid>
    var wakeupFlag: bool
    var nonDet: NonDet

    ghost function Queue(): Core
      reads this
    {
      Core(runq, waitq, waits, turnCount)
    }

    ghost function Abs(): Sched
      reads this
    {
      Sched(Queue(), status, wakeupTids, nonDet)
    }

    ghost predicate Valid()
      reads this
    {
      WellFormed(Abs()) && (wakeupFlag <==> wakeupTids != {})
    }

    /** One thread, main, with the first turn posted: the protocol's initial state. */
    constructor (cfg: Config)
      ensures this.cfg == cfg && Valid() && Shows(Init())
    {
      InitInv(cfg);
      this.cfg := cfg;
      runq, waitq, waits, turnCount := [MAIN], [], [FRESH_WAIT.Post()], 0;
      status, wakeupTids, wakeupFlag, nonDet := [RunningReg], {}, false, NonDet([], map[]);
    }

    /** waits[tid].reset(st), waitq.erase and runq.push_back of the loops below. */
    method MoveAt(i: nat, st: int)
      requires i < |waitq| && waitq[i] < |waits|
      modifies this`runq, this`waitq, this`waits
      ensures Queue() == TakeOut(old(Queue()), i, st)
    {
      var tid := waitq[i];
      waits := waits[tid := waits[tid].Reset(st)];
      waitq := waitq[..i] + waitq[i + 1..];
      runq := runq + [tid];
    }

    method FireTimeouts() returns (timedout: nat)
      requires Valid()
      modifies this`runq, this`waitq, this`waits
      ensures Valid()
      ensures Queue() == SchedCore.FireTimeouts(old(Queue()))
      ensures timedout == |runq| - old(|runq|)
    {
      ghost var c0, hit, k := Queue(), Expired(Queue()), 0;
      var i := 0;
      timedout := 0;
      while i < |waitq|
        invariant k <= |c0.waitq| && Pass(c0, hit, ETIMEDOUT, k) == Cursor(Queue(), i)
        invariant timedout == |runq| - |c0.runq|
        decreases |c0.waitq| - k
      {
        PassHere(c0, hit, ETIMEDOUT, k, Queue(), i);
        assert c0.waitq[k] in c0.waitq;
        if waits[waitq[i]].timeout < turnCount {
          MoveAt(i, ETIMEDOUT);
          timedout := timedout + 1;
        } else {
          i := i + 1;
        }
        k := k + 1;
      }
      LoopDone(old(Abs()), hit, ETIMEDOUT, k, Queue(), i);
      assert Abs() == old(Abs()).(core := Queue());
    }

    method Signal(ch: Chan, all: bool)
      requires Valid() && ch != Null
      modifies this`runq, this`waitq, this`waits
      ensures Valid()
      ensures Queue() == SchedCore.Signal(old(Queue()), ch, all)
    {
      ghost var c0, k, c := Queue(), 0, Queue();
      var i, done := 0, false;
      while i < |waitq| && !done
        invariant Signalling(c0, ch, all, k, c, i, done) && Queue() == c
        decreases |c0.waitq| - k
      {
        SignalHere(c0, ch, all, k, c, i);
        if waits[waitq[i]].chan == ch {
          MoveAt(i, 0);
          c := TakeOut(c, i, 0);
          done := !all;
        } else {
          i := i + 1;
        }
        k := k + 1;
      }
      SignalOver(old(Abs()), ch, all, k, c, i, done);
      assert Abs() == old(Abs()).(core := c);
    }

    /** check_wakeup.  `order` is the order the unordered set was traversed in. */
    method CheckWakeup() returns (ghost order: seq<Tid>)
      requires Valid()
      requires cfg.bound.Within? ==> forall t :: t in wakeupTids && t !in runq ==> t in nonDet.list
      modifies this`runq, this`wakeupTids, this`wakeupFlag, this`nonDet
      ensures Valid()
      ensures IsOrder(order, old(wakeupTids)) && Abs() == Drain(cfg, old(Abs()), order)
    {
      order := [];
      var todo := wakeupTids;
      ghost var h, h1 := Abs(), Abs();
      while todo != {}
        invariant todo <= wakeupTids == h.pending && NoDup(order) && Elems(order) == wakeupTids - todo
        invariant h1 == DrainLoop(cfg, h, order) && Abs() == h1
        decreases todo
      {
        var t :| t in todo;
        DrainGrows(cfg, h, order, wakeupTids, todo, t);
        Requeue(t);
        todo := todo - {t};
        order, h1 := order + [t], DrainOne(cfg, h1, t);
      }
      assert wakeupTids - todo == wakeupTids;
      wakeupTids, wakeupFlag := {}, false;
      DrainDone(cfg, old(Abs()), order);
    }

    /** One iteration of its loop. */
    method Requeue(t: Tid)
      modifies this`runq, this`nonDet
      ensures Abs() == DrainOne(cfg, old(Abs()), t)
    {
      if t !in runq {
        runq := runq + [t];
        if cfg.bound.Within? {
          nonDet := nonDet.Erase({t});
        }
      }
    }

    method IncTurnCount() returns (ret: nat, ghost order: seq<Tid>)
      requires Valid()
      requires cfg.bound.Within? ==> forall t :: t in wakeupTids && t !in runq ==> t in nonDet.list
      modifies this`turnCount, this`runq, this`waitq, this`waits, this`wakeupTids, this`wakeupFlag, this`nonDet
      ensures Valid() && ret == old(turnCount)
      ensures IsOrder(order, old(wakeupTids)) && Abs() == IncTurn(cfg, old(Abs()), order)
    {
      ret := AdvanceClock();
      order := CheckWakeup();
    }

    /** Increment the counter and fire the timeouts that have expired. */
    method AdvanceClock() returns (ret: nat)
      requires Valid()
      modifies this`turnCount, this`runq, this`waitq, this`waits
      ensures Valid() && ret == old(turnCount) && Abs() == old(Abs()).(core := Tick(old(Queue())))
      ensures old(runq) <= runq
    {
      ret := turnCount;
      turnCount := turnCount + 1;
      assert WellFormed(Abs());
      var n := FireTimeouts();
    }

    // ----- the idle thread ---------------------------------------------------------

    method WakeUpIdleThread()
      requires Valid() && IDLE in waitq
      modifies this`runq, this`waitq, this`waits
      ensures Valid()
      ensures Queue() == Move(old(Queue()), {IDLE}, 0)
    {
      ghost var c0 := Queue();
      var i := 0;
      while waitq[i] != IDLE
        invariant i < |waitq| && Queue() == c0
        invariant Pass(c0, {IDLE}, 0, i) == Cursor(c0, i)
        invariant IDLE in waitq[i..]
        decreases |waitq| - i
      {
        IdleAhead(c0, i);
        i := i + 1;
      }
      MoveAt(i, 0);
      IdleMoved(old(Abs()), i);
    }

    // ----- handing the turn over -----------------------------------------------------

    /** The queue repair at the top of the loop of nextRunnable. */
    method RefillQueue(self: Tid)
      requires Valid() && (runq == [] ==> IDLE in waitq)
      modifies this`runq, this`waitq, this`waits
      ensures Valid() && Abs() == Refill(cfg, old(Abs()), self)
    {
      if runq == [] {
        WakeUpIdleThread();
      } else if cfg.annotated && self == IDLE && |runq| == 1 && runq[0] == IDLE {
        assert runq == [IDLE];
        Signal(NonDetCV, true);
      }
    }

    /** One iteration of nextRunnable; -1 means the head was dropped. */
    method ExamineHead(self: Tid, atEnd: bool) returns (tid: int)
      requires Valid() && ExamineOk(cfg, Abs(), self, atEnd) && !EndOfProgram(Abs(), self, atEnd)
      modifies this`runq, this`waitq, this`waits, this`status, this`nonDet
      ensures Abs() == Examine(cfg, old(Abs()), self, atEnd).h
      ensures Examine(cfg, old(Abs()), self, atEnd) == if tid < 0 then Again(Abs()) else Give(Abs(), tid)
    {
      RefillQueue(self);
      var head := runq[0];
      if status[head] == InterProStop {
        runq := runq[1..];
        if cfg.bound.Within? {
          nonDet := nonDet.Insert(head, turnCount);
        }
        tid := -1;
      } else {
        if status[head] == Runnable {
          status := status[head := RunningReg];
        }
        tid := head;
      }
    }

    // The methods below are whole calls.  `s` is where all threads stand when the
    // call begins; the call, if nobody interferes, is the protocol run `ls`.

    /** The object agrees with protocol state `s`. */
    ghost predicate Shows(s: State)
      reads this
    {
      Inv(cfg, s) && s.h == Abs() && (wakeupFlag <==> wakeupTids != {})
    }

    // ----- the side protocol around blocking system calls ------------------------

    /** Tells whether the thread is promised the turn and so must go to block(). */
    method InterProStart(self: Tid, ghost s0: State) returns (isHead: bool, ghost s: State)
      requires Shows(s0) && Launched(s0) && self < |s0.pc| && self != IDLE && s0.pc[self] == App
      modifies this`status
      ensures Shows(s) && Reaches(cfg, s0, [Start(self)], s) && s.phase == s0.phase
      ensures self < |s0.pc| && s.pc == s0.pc[self := if isHead then Blocking else Calling]
    {
      s := StartOnce(cfg, s0, self);
      isHead := true;
      if status[self] == Runnable {
        isHead := false;
        status := status[self := InterProStop];
      } else {
        status := status[self := RunningInterPro];
      }
    }

    method InterProEnd(self: Tid, ghost s0: State) returns (ghost s: State)
      requires Shows(s0) && self < |s0.pc| && s0.pc[self] == Calling
      modifies this`status
      ensures Shows(s) && Reaches(cfg, s0, [Finish(self)], s) && s.phase == s0.phase
      ensures self < |s0.pc| && s.pc == s0.pc[self := Returned]
    {
      s := FinishOnce(cfg, s0, self);
      status := status[self := Runnable];
    }

    method Wakeup(self: Tid, ghost s0: State) returns (ghost s: State)
      requires Shows(s0) && self < |s0.pc| && s0.pc[self] in {Returned, Detached}
      modifies this`wakeupTids, this`wakeupFlag
      ensures Shows(s) && Reaches(cfg, s0, [Wake(self)], s) && s.phase == s0.phase
      ensures self in wakeupTids && self < |s0.pc| && s.pc == s0.pc[self := App]
    {
      s := WakeOnce(cfg, s0, self);
      wakeupTids := wakeupTids + {self};
      wakeupFlag := true;
    }

    // ----- calls of the turn holder ------------------------------------------------

    /** getTurn() once the turn has been posted. */
    method GetTurn(self: Tid, ghost s0: State) returns (ghost s: State)
      requires Shows(s0) && self < |s0.pc| && s0.pc[self] in {Wanting, Blocking} && waits[self].sem > 0
      modifies this`waits
      ensures Shows(s) && Reaches(cfg, s0, [Take(self)], s) && s.phase == Held(self, false) && s.pc == s0.pc
      ensures runq != [] && runq[0] == self
    {
      s := TakeOnce(cfg, s0, self);
      waits := waits[self := waits[self].Consume()];
    }

    /** incTurnCount() of the turn holder. */
    method CountTurn(ghost s0: State) returns (ret: nat, ghost s: State, ghost l: Label)
      requires Shows(s0) && s0.phase.Held? && s0.pc[s0.phase.t] == Wanting && turnCount < FOREVER
      modifies this`turnCount, this`runq, this`waitq, this`waits, this`wakeupTids, this`wakeupFlag, this`nonDet
      ensures Shows(s) && l.Inc? && Reaches(cfg, s0, [l], s) && ret == old(turnCount) && turnCount == ret + 1
      ensures s.phase == Held(s0.phase.t, true) && s.pc == s0.pc
    {
      BlockReady(cfg, s0);
      ghost var order;
      ret, order := IncTurnCount();
      s := IncOnce(cfg, s0, order);
      l := Inc(order);
    }

    /** signal() of the turn holder. */
    method SignalTurn(ch: Chan, all: bool, ghost s0: State) returns (ghost s: State)
      requires Shows(s0) && s0.phase.Held? && s0.pc[s0.phase.t] == Wanting && ch !in {Null, IdleCond}
      modifies this`runq, this`waitq, this`waits
      ensures Shows(s) && Reaches(cfg, s0, [Sig(ch, all)], s) && s.phase == s0.phase && s.pc == s0.pc
    {
      InvWellFormed(cfg, s0);
      s := SigOnce(cfg, s0, ch, all);
      Signal(ch, all);
    }

    /** Scheduler::create: the new thread joins the end of the run queue. */
    method CreateThread(ghost s0: State) returns (tid: Tid, ghost s: State)
      requires Shows(s0) && s0.phase.Held? && s0.pc[s0.phase.t] == Wanting && |status| < MAX_THREADS
      modifies this`runq, this`waits, this`status
      ensures Shows(s) && Reaches(cfg, s0, [Create], s) && s.phase == s0.phase && s.pc == s0.pc + [App]
      ensures tid == old(|status|) && runq == old(runq) + [tid]
    {
      s := CreateOnce(cfg, s0);
      tid := |status|;
      waits := waits + [FRESH_WAIT];
      status := status + [Runnable];
      runq := runq + [tid];
    }

    /** nextRunnable; -1 is InvalidTid. */
    method NextRunnable(self: Tid, atEnd: bool, ghost s0: State)
      returns (tid: int, ghost s: State, ghost ls: seq<Label>)
      requires Shows(s0) && s0.phase == Seeking(self, atEnd)
      modifies this`runq, this`waitq, this`waits, this`status, this`nonDet
      ensures Shows(s) && Reaches(cfg, s0, ls, s) && Passing(ls)
      ensures s.phase == (if tid < 0 then Stopped else Granting(tid)) && (tid < 0 ==> atEnd)
    {
      s, ls := s0, [];
      tid := -1;
      while true
        invariant Shows(s) && Reaches(cfg, s0, ls, s) && s.phase == Seeking(self, atEnd) && Passing(ls)
        decreases |runq|
      {
        ghost var s1 := LookOnce(cfg, s0, ls, s);
        ls := ls + [Look];
        if runq == [] && atEnd && (waitq == [] || self == MAIN) {
          s := s1;
          return;
        }
        tid := ExamineHead(self, atEnd);
        s := s1;
        if tid >= 0 {
          return;
        }
      }
    }

    /** check_wakeup inside next(). */
    method DrainInNext(ghost s0: State) returns (ghost s: State, ghost ls: seq<Label>)
      requires Shows(s0) && s0.phase.Draining?
      modifies this`runq, this`wakeupTids, this`wakeupFlag, this`nonDet
      ensures Shows(s) && Reaches(cfg, s0, ls, s) && s.phase == Seeking(s0.phase.t, s0.phase.atEnd) && Passing(ls)
      ensures s.pc == s0.pc
    {
      InvWellFormed(cfg, s0);
      PendingFacts(cfg, s0);
      ghost var order := CheckWakeup();
      s := DrainOnce(cfg, s0, order);
      ls := [DrainWakeups(order)];
    }

    /** waits[tid].post(). */
    method PostTurn(tid: Tid, ghost s0: State) returns (ghost s: State)
      requires Shows(s0) && s0.phase == Granting(tid)
      modifies this`waits
      ensures Shows(s) && Reaches(cfg, s0, [Post], s) && s.phase == InFlight && s.pc == s0.pc
    {
      s := PostOnce(cfg, s0);
      waits := waits[tid := waits[tid].Post()];
    }

    /** The second half of next(): drain the wake-ups, choose a thread, post. */
    method HandOver(self: Tid, atEnd: bool, ghost s0: State) returns (ghost s: State, ghost ls: seq<Label>)
      requires Shows(s0) && s0.phase == Draining(self, atEnd)
      modifies this`runq, this`waitq, this`waits, this`status, this`wakeupTids, this`wakeupFlag, this`nonDet
      ensures Shows(s) && Reaches(cfg, s0, ls, s) && (s.phase.InFlight? || (atEnd && s.phase.Stopped?))
      ensures Passing(ls)
    {
      ghost var s1, l1 := DrainInNext(s0);
      s, ls := FindAndPost(self, atEnd, s1);
      RunsCompose(cfg, s0, l1, s1, ls, s);
      ls := l1 + ls;
    }

    method FindAndPost(self: Tid, atEnd: bool, ghost s0: State) returns (ghost s: State, ghost ls: seq<Label>)
      requires Shows(s0) && s0.phase == Seeking(self, atEnd)
      modifies this`runq, this`waitq, this`waits, this`status, this`nonDet
      ensures Shows(s) && Reaches(cfg, s0, ls, s) && (s.phase.InFlight? || (atEnd && s.phase.Stopped?))
      ensures Passing(ls)
    {
      var tid;
      tid, s, ls := NextRunnable(self, atEnd, s0);
      if tid >= 0 {
        ghost var s2 := PostTurn(tid, s);
        RunsCompose(cfg, s0, ls, s, [Post], s2);
        s, ls := s2, ls + [Post];
      }
    }

    /** putTurn() of a thread that goes on. */
    method PutTurn(self: Tid, ghost s0: State) returns (ghost s: State, ghost ls: seq<Label>)
      requires Shows(s0) && s0.phase == Held(self, true)
      modifies this`runq, this`waitq, this`waits, this`status, this`wakeupTids, this`wakeupFlag, this`nonDet
      ensures Shows(s) && Reaches(cfg, s0, ls, s) && s.phase.InFlight?
      ensures CallOf(Label.PutTurn, ls)
    {
      ghost var s1 := PutBack(self, s0);
      s, ls := HandOver(self, false, s1);
      RunsCompose(cfg, s0, [Label.PutTurn], s1, ls, s);
      CallStarts(Label.PutTurn, ls);
      ls := [Label.PutTurn] + ls;
    }

    /** putTurn() up to next(). */
    method PutBack(self: Tid, ghost s0: State) returns (ghost s: State)
      requires Shows(s0) && s0.phase == Held(self, true)
      modifies this`runq, this`status, this`nonDet
      ensures Shows(s) && Reaches(cfg, s0, [Label.PutTurn], s) && s.phase == Draining(self, false)
      ensures self < |s0.pc| && s.pc == s0.pc[self := App]
    {
      s := PutOnce(cfg, s0);
      status := status[self := Runnable];
      runq := runq[1..] + [self];
      CheckNonDetBound();
    }

    /** putTurn(true): the thread ends and its joiner, if any, is woken. */
    method EndThread(self: Tid, ghost s0: State) returns (ghost s: State, ghost ls: seq<Label>)
      requires Shows(s0) && Launched(s0) && s0.phase == Held(self, true) && self != IDLE
      modifies this`runq, this`waitq, this`waits, this`status, this`wakeupTids, this`wakeupFlag, this`nonDet
      ensures Shows(s) && Reaches(cfg, s0, ls, s) && (s.phase.InFlight? || s.phase.Stopped?)
      ensures CallOf(End, ls)
    {
      ghost var s1 := EndInNext(self, s0);
      s, ls := HandOver(self, true, s1);
      RunsCompose(cfg, s0, [End], s1, ls, s);
      CallStarts(End, ls);
      ls := [End] + ls;
    }

    method EndInNext(self: Tid, ghost s0: State) returns (ghost s: State)
      requires Shows(s0) && Launched(s0) && s0.phase == Held(self, true) && self != IDLE
      modifies this`runq, this`waitq, this`waits, this`status, this`nonDet
      ensures Shows(s) && Reaches(cfg, s0, [End], s) && s.phase == Draining(self, true)
      ensures self < |s0.pc| && s.pc == s0.pc[self := Ended]
    {
      InvWellFormed(cfg, s0);
      s := EndOnce(cfg, s0);
      EndFields(self);
    }

    method EndFields(self: Tid)
      requires Valid() && CheckBoundOk(cfg, Ending(Abs(), self))
      requires StepDownOk(CheckBound(cfg, Ending(Abs(), self)), self)
      modifies this`runq, this`waitq, this`waits, this`status, this`nonDet
      ensures Abs() == StepDown(CheckBound(cfg, Ending(old(Abs()), self)), self)
    {
      Signal(ThreadEnd(self), false);
      CheckNonDetBound();
      LeaveFront(self);
    }

    /** wait() up to its getTurn(). */
    method WaitRelease(self: Tid, ch: Chan, timeout: nat, ghost s0: State)
      returns (ghost s: State, ghost ls: seq<Label>)
      requires Shows(s0) && Launched(s0) && s0.phase.Held? && s0.phase.t == self && self != IDLE
      requires s0.pc[self] == Wanting
      requires ch != IdleCond && timeout <= FOREVER && !(ch == Null && timeout == FOREVER) && turnCount < FOREVER
      modifies this
      ensures Shows(s) && Reaches(cfg, s0, ls, s) && s.phase.InFlight?
      ensures ls != [] && ls[0].WaitOn? && ls[0].ch == ch && ls[0].timeout == timeout && CallOf(ls[0], ls)
    {
      ghost var s1, l := ParkSelf(self, ch, timeout, s0);
      s, ls := HandOver(self, false, s1);
      RunsCompose(cfg, s0, [l], s1, ls, s);
      CallStarts(l, ls);
      ls := [l] + ls;
    }

    method ParkSelf(self: Tid, ch: Chan, timeout: nat, ghost s0: State) returns (ghost s: State, ghost l: Label)
      requires Shows(s0) && Launched(s0) && s0.phase.Held? && s0.phase.t == self && self != IDLE
      requires s0.pc[self] == Wanting
      requires ch != IdleCond && timeout <= FOREVER && !(ch == Null && timeout == FOREVER) && turnCount < FOREVER
      modifies this
      ensures Shows(s) && l.WaitOn? && l.ch == ch && l.timeout == timeout && Reaches(cfg, s0, [l], s)
      ensures s.phase == Draining(self, false) && s.pc == s0.pc
    {
      ghost var order := CountForWait(s0);
      s := WaitOnce(cfg, s0, ch, timeout, order);
      l := WaitOn(ch, timeout, order);
      ParkFields(self, ch, timeout);
    }

    /** The incTurnCount() of wait(). */
    method CountForWait(ghost s0: State) returns (ghost order: seq<Tid>)
      requires Shows(s0) && s0.phase.Held?
      modifies this`turnCount, this`runq, this`waitq, this`waits, this`wakeupTids, this`wakeupFlag, this`nonDet
      ensures IsOrder(order, s0.h.pending) && Abs() == IncTurn(cfg, s0.h, order) && (wakeupFlag <==> wakeupTids != {})
    {
      BlockReady(cfg, s0);
      var ret;
      ret, order := IncTurnCount();
    }

    method ParkFields(self: Tid, ch: Chan, timeout: nat)
      requires StepDownOk(Abs(), self) && self < |waits|
      modifies this`runq, this`waitq, this`waits, this`status
      ensures Abs() == StepDown(old(Abs()), self).(core := Park(old(Abs()).core, self, ch, timeout))
    {
      waits := waits[self := waits[self].(chan := ch, timeout := timeout)];
      waitq := waitq + [self];
      LeaveFront(self);
    }

    /** block() after its getTurn(). */
    method BlockRelease(self: Tid, ghost s0: State) returns (ghost s: State, ghost ls: seq<Label>)
      requires Shows(s0) && Launched(s0) && s0.phase.Held? && s0.phase.t == self && self != IDLE && turnCount < FOREVER
      modifies this
      ensures Shows(s) && Reaches(cfg, s0, ls, s) && s.phase.InFlight?
      ensures ls != [] && ls[0].Block? && CallOf(ls[0], ls)
    {
      ghost var s1, l := GoOutside(self, s0);
      s, ls := HandOver(self, false, s1);
      RunsCompose(cfg, s0, [l], s1, ls, s);
      CallStarts(l, ls);
      ls := [l] + ls;
    }

    method GoOutside(self: Tid, ghost s0: State) returns (ghost s: State, ghost l: Label)
      requires Shows(s0) && Launched(s0) && s0.phase.Held? && s0.phase.t == self && self != IDLE && turnCount < FOREVER
      modifies this
      ensures Shows(s) && l.Block? && Reaches(cfg, s0, [l], s) && s.phase == Draining(self, false)
      ensures self < |s0.pc| && s.pc == s0.pc[self := if s0.pc[self] == Blocking then Calling else Detached]
    {
      ghost var order := CountForBlock(self, s0);
      s := BlockOnce(cfg, s0, order);
      l := Block(order);
      LeaveFront(self);
    }

    /** block() enters the non-det set and calls incTurnCount(). */
    method CountForBlock(self: Tid, ghost s0: State) returns (ghost order: seq<Tid>)
      requires Shows(s0) && s0.phase.Held? && s0.phase.t == self
      modifies this`turnCount, this`runq, this`waitq, this`waits, this`wakeupTids, this`wakeupFlag, this`nonDet
      ensures IsOrder(order, s0.h.pending) && Abs() == Leaving(cfg, s0.h, self, order)
      ensures (wakeupFlag <==> wakeupTids != {})
    {
      BlockReady(cfg, s0);
      if cfg.bound.Within? {
        nonDet := nonDet.Insert(self, turnCount);
      }
      var ret;
      ret, order := IncTurnCount();
    }

    /** tryPutTurn promises the turn to the first runnable thread behind idle,
        the one at position `i`, and fails when there is none. */
    method TryPutTurn() returns (ok: bool, i: nat)
      requires forall t :: t in runq ==> t < |status|
      modifies this`status
      ensures 1 <= i && forall j :: 1 <= j < i ==> !RunnableAt(runq, old(status), j)
      ensures if ok then RunnableAt(runq, old(status), i) && status == old(status)[runq[i] := RunningReg]
              else status == old(status) && i >= |runq|
    {
      i := 1;
      while i < |runq|
        invariant 1 <= i && status == old(status)
        invariant forall j :: 1 <= j < i ==> !RunnableAt(runq, status, j)
      {
        assert runq[i] in runq;
        if status[runq[i]] == Runnable {
          status := status[runq[i] := RunningReg];
          return true, i;
        }
        i := i + 1;
      }
      return false, i;
    }

    /** idleThreadCondWait() up to pthread_cond_wait: idle goes to sleep only
        after promising the turn to somebody, else it just puts the turn. */
    method IdleThreadCondWait(ghost s0: State)
      returns (slept: bool, ghost s: State, ghost scan: seq<Label>, ghost call: seq<Label>)
      requires Shows(s0) && s0.phase == Held(IDLE, true) && |runq| >= 2
      modifies this
      ensures slept <==> exists i :: 1 <= i < old(|runq|) && RunnableAt(old(runq), old(status), i)
      ensures OnlyScans(scan) && CallOf(if slept then LeaveIdle else Label.PutTurn, call)
      ensures Shows(s) && Reaches(cfg, s0, scan + call, s) && s.phase.InFlight?
    {
      QueuedKnown(cfg, s0);
      var i;
      slept, i := TryPutTurn();
      ghost var s1;
      s1, scan := ScanRun(cfg, s0, slept, i);
      if slept {
        s, call := SleepAndPass(s1);
      } else {
        s, call := PutTurn(IDLE, s1);
      }
      RunsCompose(cfg, s0, scan, s1, call, s);
    }

    /** Idle goes to sleep and next() passes the turn on. */
    method SleepAndPass(ghost s0: State) returns (ghost s: State, ghost call: seq<Label>)
      requires Shows(s0) && s0.phase == Promised
      modifies this
      ensures Shows(s) && Reaches(cfg, s0, call, s) && s.phase.InFlight?
      ensures CallOf(LeaveIdle, call)
    {
      ghost var s1 := SleepIdle(s0);
      s, call := HandOver(IDLE, false, s1);
      RunsCompose(cfg, s0, [LeaveIdle], s1, call, s);
      CallStarts(LeaveIdle, call);
      call := [LeaveIdle] + call;
    }

    method SleepIdle(ghost s0: State) returns (ghost s: State)
      requires Shows(s0) && s0.phase == Promised
      modifies this`runq, this`waitq, this`waits, this`status
      ensures Shows(s) && Reaches(cfg, s0, [LeaveIdle], s) && s.phase == Draining(IDLE, false)
      ensures IDLE < |s0.pc| && s.pc == s0.pc[IDLE := Parked]
    {
      s := LeaveIdleOnce(cfg, s0);
      ParkFields(IDLE, IdleCond, FOREVER);
    }

    /** The first half of next(): the caller's status changes and it leaves the queue. */
    method LeaveFront(self: Tid)
      requires StepDownOk(Abs(), self)
      modifies this`runq, this`status
      ensures Abs() == StepDown(old(Abs()), self)
    {
      if status[self] == RunningReg {
        status := status[self := Runnable];
      } else {
        status := status[self := InterProStop];
      }
      runq := runq[1..];
    }

    method CheckNonDetBound()
      requires CheckBoundOk(cfg, Abs())
      modifies this`runq, this`nonDet
      ensures Abs() == CheckBound(cfg, old(Abs()))
    {
      if cfg.bound.Within? && |nonDet.list| > 0 {
        var t := nonDet.list[0];
        if turnCount > nonDet.clock[t] + cfg.bound.turns {
          runq := runq + [t];
          nonDet := nonDet.Erase({t});
        }
      }
    }
  }

  lemma CallSameThreads(cfg: Config, s: State, ls: seq<Label>, s': State)
    requires CallOf(PutTurn, ls) && Reaches(cfg, s, ls, s')
    ensures |s'.pc| == |s.pc|
  {
    assert ls == [ls[0]] + ls[1..];
    forall l | l in ls ensures !l.Create? {
      assert l == ls[0] || l in ls[1..];
    }
    SameThreads(cfg, s, ls, s');
  }

  /** In a state of the start-up phase the turn is main's. */
  lemma AloneReady(cfg: Config, s: State)
    requires Inv(cfg, s) && !Launched(s) && s.phase.InFlight?
    ensures s.pc in {[App], [Wanting]} && s.h.core.waits[MAIN].sem > 0
  {
    assert s.h.core.runq[0] == MAIN;
    assert |s.pc| == 1 && s.pc == [s.pc[0]];
  }

  /** One operation of the main thread while it is alone: getTurn, perhaps
      create, incTurnCount, putTurn. */
  method MainRound(o: RRScheduler, creates: bool, ghost s0: State) returns (ghost s: State, ghost ls: seq<Label>)
    requires o.Shows(s0) && !Launched(s0) && s0.phase.InFlight? && o.turnCount < FOREVER
    modifies o
    ensures o.Shows(s) && Reaches(o.cfg, s0, ls, s) && s.phase.InFlight?
    ensures |s.pc| == (if creates then 2 else 1) && o.turnCount == old(o.turnCount) + 1
  {
    ghost var s1, l1 := MainTakes(o, s0);
    if creates {
      ghost var s2;
      var tid;
      tid, s2 := o.CreateThread(s1);
      RunsCompose(o.cfg, s0, l1, s1, [Create], s2);
      s1, l1 := s2, l1 + [Create];
    }
    s, ls := MainPuts(o, s1);
    RunsCompose(o.cfg, s0, l1, s1, ls, s);
    ls := l1 + ls;
  }

  method MainTakes(o: RRScheduler, ghost s0: State) returns (ghost s: State, ghost ls: seq<Label>)
    requires o.Shows(s0) && !Launched(s0) && s0.phase.InFlight?
    modifies o`waits
    ensures o.Shows(s) && Reaches(o.cfg, s0, ls, s) && s.phase == Held(MAIN, false) && s.pc == [Wanting]
  {
    AloneReady(o.cfg, s0);
    ghost var s1 := s0;
    ls := [];
    if s0.pc == [App] {
      s1 := ArriveOnce(o.cfg, s0, MAIN);
      ls := [Arrive(MAIN)];
    }
    s := o.GetTurn(MAIN, s1);
    RunsCompose(o.cfg, s0, ls, s1, [Take(MAIN)], s);
    ls := ls + [Take(MAIN)];
  }

  method MainPuts(o: RRScheduler, ghost s0: State) returns (ghost s: State, ghost ls: seq<Label>)
    requires o.Shows(s0) && s0.phase.Held? && s0.phase.t == MAIN && s0.pc[MAIN] == Wanting && o.turnCount < FOREVER
    modifies o
    ensures o.Shows(s) && Reaches(o.cfg, s0, ls, s) && s.phase.InFlight? && |s.pc| == |s0.pc|
    ensures o.turnCount == old(o.turnCount) + 1
  {
    var ret;
    ghost var s1, l;
    ret, s1, l := o.CountTurn(s0);
    s, ls := o.PutTurn(MAIN, s1);
    CallSameThreads(o.cfg, s1, ls, s);
    RunsCompose(o.cfg, s0, [l], s1, ls, s);
    ls := [l] + ls;
  }

  /** __tern_prog_begin: the main thread begins, initialises idle's mutex and
      creates the idle thread.  From the constructor on, everything is a run of
      the protocol from its initial state. */
  method ProgBegin(cfg: Config) returns (o: RRScheduler, ghost s: State, ghost ls: seq<Label>)
    ensures fresh(o) && o.cfg == cfg && o.Shows(s) && Reaches(cfg, Init(), ls, s)
    ensures Launched(s) && s.phase.InFlight? && o.turnCount == 3 && |s.pc| == 2
  {
    o := new RRScheduler(cfg);
    ghost var s1, l1 := MainRound(o, false, Init());
    ghost var s2, l2 := MainRound(o, false, s1);
    RunsCompose(cfg, Init(), l1, s1, l2, s2);
    s, ls := MainRound(o, true, s2);
    RunsCompose(cfg, Init(), l1 + l2, s2, ls, s);
    ls := l1 + l2 + ls;
  }
}
