/** The soft barrier (tern_lineup): a reference-counted barrier with a timeout,
    over the scheduler.  Batches of threads never mix. */
module Lineup {
  import opened Queues
  import opened SchedCore
  import opened SchedSpec
  import opened Protocol
  import opened ProtocolInv
  import opened ProtocolSteps
  import opened WaitFrame

  /** Entering: inside syncWait in lineupStart.  Inside: between lineupStart and
      lineupEnd.  Both carry the batch the thread arrived in. */
  datatype Act = Outside | Entering(batch: nat) | Inside(batch: nat)

  /** `nactive` and `leaving` are the fields of ref_cnt_barrier_t; `batch`
      counts how often the phase has returned to ARRIVING. */
  datatype L = L(s: State, nactive: nat, leaving: bool, act: seq<Act>, batch: nat)

  const UINT_MAX: nat := 0xFFFF_FFFF

  datatype Op =
    | Base(l: Label)                             // any other step of the protocol
    | StartPass                                  // lineupStart in phase LEAVING
    | StartOpen                                  // lineupStart of the thread that fills the batch
    | StartWait(timeout: nat, order: seq<Tid>)   // lineupStart of an earlier one
    | ResumeOpen                                 // back from syncWait, first to time out
    | ResumePass                                 // back from syncWait otherwise
    | EndLine                                     // lineupEnd

  ghost predicate Enabled(x: L, count: nat, c: Chan, op: Op)
    requires Shape(x.s) && |x.act| == |x.s.pc|
  {
    var s := x.s;
    match op
    case Base(l) =>
      && Guard(s, l) && !(l.Sig? && l.ch == c) && !(l.WaitOn? && l.ch == c)
      && (Background(l) || (s.phase.Held? && s.phase.t < |x.act| && !x.act[s.phase.t].Entering?))
    case StartPass => HolderIs(s, Wanting) && x.act[s.phase.t].Outside? && x.leaving
    case StartOpen =>
      && HolderIs(s, Wanting) && x.act[s.phase.t].Outside? && !x.leaving && x.nactive + 1 == count
      && Guard(s, Sig(c, true))
    case StartWait(timeout, order) =>
      && HolderIs(s, Wanting) && x.act[s.phase.t].Outside? && !x.leaving && x.nactive + 1 != count
      && Guard(s, WaitOn(c, timeout, order))
    case ResumeOpen =>
      && HolderIs(s, Wanting) && x.act[s.phase.t].Entering? && x.nactive < count && !x.leaving
      && Guard(s, Sig(c, true))
    case ResumePass => HolderIs(s, Wanting) && x.act[s.phase.t].Entering? && !(x.nactive < count && !x.leaving)
    case EndLine => HolderIs(s, Wanting) && x.act[s.phase.t].Inside?
  }

  ghost function Steps(c: Chan, op: Op): seq<Label> {
    match op
    case Base(l) => [l]
    case StartWait(timeout, order) => [WaitOn(c, timeout, order)]
    case StartOpen => [Sig(c, true)]
    case ResumeOpen => [Sig(c, true)]
    case _ => []
  }

  ghost function Effect(x: L, op: Op, s': State): L
    requires !op.Base? ==> x.s.phase.Held? && x.s.phase.t < |x.act|
    requires op.ResumeOpen? || op.ResumePass? ==> x.act[x.s.phase.t].Entering?
  {
    var t := if op.Base? then 0 else x.s.phase.t;
    match op
    case Base(l) => x.(s := s', act := if l.Create? then x.act + [Outside] else x.act)
    case StartPass => x.(nactive := x.nactive + 1, act := x.act[t := Inside(x.batch)])
    case StartOpen => x.(s := s', nactive := x.nactive + 1, leaving := true, act := x.act[t := Inside(x.batch)])
    case StartWait(_, _) => x.(s := s', nactive := x.nactive + 1, act := x.act[t := Entering(x.batch)])
    case ResumeOpen => x.(s := s', leaving := true, act := x.act[t := Inside(x.act[t].batch)])
    case ResumePass => x.(act := x.act[t := Inside(x.act[t].batch)])
    case EndLine =>
      var opens := x.nactive == 1 && x.leaving;
      x.(nactive := if x.nactive == 0 then UINT_MAX else x.nactive - 1,
      leaving := x.leaving && !opens, act := x.act[t := Outside],
      batch := if opens then x.batch + 1 else x.batch)
  }

  ghost predicate CanStep(cfg: Config, x: L, count: nat, c: Chan, op: Op) {
    && Shape(x.s) && |x.act| == |x.s.pc| && Enabled(x, count, c, op)
    && forall l :: l in Steps(c, op) ==> Guard(x.s, l) && Asserts(cfg, x.s, l)
  }

  ghost function Next(cfg: Config, x: L, count: nat, c: Chan, op: Op): L
    requires CanStep(cfg, x, count, c, op)
  {
    Effect(x, op, if Steps(c, op) == [] then x.s else Apply(cfg, x.s, Steps(c, op)[0]))
  }

  // ----- the invariant --------------------------------------------------------------

  ghost function Active(x: L): set<Tid> {
    set t | 0 <= t < |x.act| && !x.act[t].Outside?
  }

  /** Threads whose wait has timed out and that have not run since. */
  ghost function TimedOut(x: L): set<Tid> {
    set t | 0 <= t < |x.act| && x.act[t].Entering? && t !in x.s.h.core.waitq
            && t < |x.s.h.core.waits| && x.s.h.core.waits[t].status == ETIMEDOUT
  }

  ghost predicate ThreadOk(x: L, c: Chan, t: Tid)
    requires Shape(x.s) && |x.act| == |x.s.pc| && t < |x.act|
  {
    var w := x.s.h.core.waits[t];
    && (!x.act[t].Outside? ==> x.act[t].batch == x.batch)
    && (x.act[t].Entering? ==>
          && x.s.pc[t] == Wanting && t !in x.s.h.pending && t != IDLE
          && (if t in x.s.h.core.waitq then w.chan == c else (x.leaving || w.status == ETIMEDOUT)))
    && (t in x.s.h.core.waitq && w.chan == c ==> x.act[t].Entering? && !x.leaving)
    && (x.act[t].Inside? ==> x.leaving)
  }

  ghost predicate LineInv(cfg: Config, x: L, count: nat, c: Chan) {
    && Inv(cfg, x.s) && |x.act| == |x.s.pc|
    && (forall t :: 0 <= t < |x.act| ==> ThreadOk(x, c, t))
    && x.nactive == |Active(x)|
    && (if x.leaving then x.nactive >= 1 else x.nactive < count)
  }

  lemma OneMore(a: set<Tid>, t: Tid)
    requires t !in a
    ensures |a + {t}| == |a| + 1
  {
  }

  lemma ActiveWith(x: L, x': L, h: Tid)
    requires h < |x.act| && |x'.act| == |x.act| && !x'.act[h].Outside?
    requires forall t :: 0 <= t < |x.act| && t != h ==> x'.act[t] == x.act[t]
    ensures |Active(x')| == |Active(x)| + (if x.act[h].Outside? then 1 else 0) && |Active(x')| >= 1
  {
    assert Active(x') == Active(x) + {h} && h in Active(x');
    if x.act[h].Outside? {
      OneMore(Active(x), h);
    } else {
      assert Active(x) + {h} == Active(x);
    }
  }

  lemma ActiveWithout(x: L, x': L, h: Tid)
    requires h < |x.act| && !x.act[h].Outside? && x'.act == x.act[h := Outside]
    ensures |Active(x)| == |Active(x')| + 1
    ensures |Active(x)| == 1 ==> Active(x') == {}
  {
    assert Active(x) == Active(x') + {h};
    OneMore(Active(x'), h);
  }

  // ----- the steps keep it -------------------------------------------------------------

  lemma ThreadFramed(x: L, c: Chan, l: Label, s': State, t: Tid)
    requires c.Object? && t < |x.act| && Shape(x.s) && |x.act| == |x.s.pc|
    requires Guard(x.s, l) && Frame(x.s, l, s') && ThreadOk(x, c, t)
    requires x.act[t].Entering? && !Background(l) ==> !(x.s.phase.Held? && x.s.phase.t == t)
    requires !(l.WaitOn? && l.ch == c) && !(l.Sig? && l.ch == c)
    requires t == IDLE && t in s'.h.core.waitq ==> s'.h.core.waits[t].chan != c
    ensures ThreadOk(x.(s := s', act := if l.Create? then x.act + [Outside] else x.act), c, t)
  {
    assert FrameAt(x.s, l, s', t);
    if x.act[t].Entering? {
      NotOwn(x.s, l, t);
    }
  }

  lemma BaseKeeps(cfg: Config, x: L, count: nat, c: Chan, l: Label)
    requires LineInv(cfg, x, count, c) && c.Object? && CanStep(cfg, x, count, c, Base(l))
    ensures LineInv(cfg, Next(cfg, x, count, c, Base(l)), count, c)
  {
    assert l in Steps(c, Base(l));
    StepFrame(cfg, x.s, l);
    BaseFramed(cfg, x, count, c, l, Apply(cfg, x.s, l));
  }

  lemma BaseFramed(cfg: Config, x: L, count: nat, c: Chan, l: Label, s': State)
    requires LineInv(cfg, x, count, c) && c.Object? && Enabled(x, count, c, Base(l)) && Frame(x.s, l, s')
    requires Inv(cfg, s')
    ensures LineInv(cfg, Effect(x, Base(l), s'), count, c)
  {
    var x' := Effect(x, Base(l), s');
    IdleWaits(cfg, s');
    forall t | 0 <= t < |x'.act| ensures ThreadOk(x', c, t) {
      if t < |x.act| {
        assert ThreadOk(x, c, t);
        ThreadFramed(x, c, l, s', t);
      }
    }
    assert Active(x') == Active(x);
  }

  lemma StartWaitKeeps(cfg: Config, x: L, count: nat, c: Chan, timeout: nat, order: seq<Tid>)
    requires LineInv(cfg, x, count, c) && c.Object? && CanStep(cfg, x, count, c, StartWait(timeout, order))
    ensures LineInv(cfg, Next(cfg, x, count, c, StartWait(timeout, order)), count, c)
  {
    var l := WaitOn(c, timeout, order);
    assert l in Steps(c, StartWait(timeout, order));
    StepFrame(cfg, x.s, l);
    StartWaitFramed(cfg, x, count, c, l, Apply(cfg, x.s, l));
  }

  lemma StartWaitFramed(cfg: Config, x: L, count: nat, c: Chan, l: Label, s': State)
    requires LineInv(cfg, x, count, c) && l.WaitOn? && l.ch == c && Enabled(x, count, c, StartWait(l.timeout, l.order))
    requires Frame(x.s, l, s') && Inv(cfg, s') && c.Object?
    ensures LineInv(cfg, Effect(x, StartWait(l.timeout, l.order), s'), count, c)
  {
    var x' := Effect(x, StartWait(l.timeout, l.order), s');
    forall t | 0 <= t < |x'.act| ensures ThreadOk(x', c, t) {
      assert ThreadOk(x, c, t) && FrameAt(x.s, l, s', t) && ViewOk(cfg, t, ViewOf(s', t));
      if x.act[t].Entering? {
        NotOwn(x.s, l, t);
      }
    }
    ActiveWith(x, x', x.s.phase.t);
  }

  /** The batch opens: whoever still waits is signalled. */
  lemma OpenKeeps(cfg: Config, x: L, count: nat, c: Chan, op: Op)
    requires LineInv(cfg, x, count, c) && c.Object? && (op.StartOpen? || op.ResumeOpen?)
    requires CanStep(cfg, x, count, c, op)
    ensures LineInv(cfg, Next(cfg, x, count, c, op), count, c)
  {
    assert Sig(c, true) in Steps(c, op);
    StepFrame(cfg, x.s, Sig(c, true));
    OpenFramed(cfg, x, count, c, op, Apply(cfg, x.s, Sig(c, true)));
  }

  lemma OpenFramed(cfg: Config, x: L, count: nat, c: Chan, op: Op, s': State)
    requires LineInv(cfg, x, count, c) && (op.StartOpen? || op.ResumeOpen?) && Enabled(x, count, c, op)
    requires Frame(x.s, Sig(c, true), s') && Inv(cfg, s')
    ensures LineInv(cfg, Effect(x, op, s'), count, c)
  {
    var x' := Effect(x, op, s');
    var h := x.s.phase.t;
    assert h in x.s.h.core.runq && ThreadOk(x, c, h);
    forall t | 0 <= t < |x'.act| ensures ThreadOk(x', c, t) {
      assert ThreadOk(x, c, t) && FrameAt(x.s, Sig(c, true), s', t);
    }
    ActiveWith(x, x', h);
  }

  lemma PassKeeps(cfg: Config, x: L, count: nat, c: Chan, op: Op)
    requires LineInv(cfg, x, count, c) && (op.StartPass? || op.ResumePass?) && CanStep(cfg, x, count, c, op)
    ensures LineInv(cfg, Next(cfg, x, count, c, op), count, c)
  {
    var x' := Next(cfg, x, count, c, op);
    var h := x.s.phase.t;
    assert h in x.s.h.core.runq && ThreadOk(x, c, h);
    forall t | 0 <= t < |x'.act| ensures ThreadOk(x', c, t) {
      assert ThreadOk(x, c, t);
    }
    ActiveWith(x, x', h);
  }

  lemma EndLineKeeps(cfg: Config, x: L, count: nat, c: Chan)
    requires LineInv(cfg, x, count, c) && count >= 1 && CanStep(cfg, x, count, c, EndLine)
    ensures LineInv(cfg, Next(cfg, x, count, c, EndLine), count, c)
    ensures !Next(cfg, x, count, c, EndLine).leaving ==> Active(Next(cfg, x, count, c, EndLine)) == {}
  {
    var x' := Next(cfg, x, count, c, EndLine);
    var h := x.s.phase.t;
    assert ThreadOk(x, c, h) && h in Active(x);
    ActiveWithout(x, x', h);
    forall t | 0 <= t < |x'.act| ensures ThreadOk(x', c, t) {
      assert ThreadOk(x, c, t);
      assert t in Active(x') <==> !x'.act[t].Outside?;
    }
  }

  lemma LineStep(cfg: Config, x: L, count: nat, c: Chan, op: Op)
    requires LineInv(cfg, x, count, c) && c.Object? && count >= 1 && CanStep(cfg, x, count, c, op)
    ensures LineInv(cfg, Next(cfg, x, count, c, op), count, c)
  {
    match op
    case Base(l) => BaseKeeps(cfg, x, count, c, l);
    case StartWait(timeout, order) => StartWaitKeeps(cfg, x, count, c, timeout, order);
    case EndLine => EndLineKeeps(cfg, x, count, c);
    case StartPass => PassKeeps(cfg, x, count, c, op);
    case ResumePass => PassKeeps(cfg, x, count, c, op);
    case _ => OpenKeeps(cfg, x, count, c, op);
  }

  /** No step of a lineup call can fail an assertion of the scheduler, and
      lineupEnd never wraps the counter around. */
  lemma LineNeverFails(cfg: Config, x: L, count: nat, c: Chan, op: Op)
    requires LineInv(cfg, x, count, c) && Enabled(x, count, c, op)
    ensures CanStep(cfg, x, count, c, op) && (op.EndLine? ==> x.nactive > 0)
  {
    if Steps(c, op) != [] {
      StepSafe(cfg, x.s, Steps(c, op)[0]);
    }
    if op.EndLine? {
      assert x.s.phase.t in Active(x);
    }
  }

  // ----- the theorems ------------------------------------------------------------------

  ghost predicate LineRun(cfg: Config, x: L, count: nat, c: Chan, ops: seq<Op>, x': L)
    decreases |ops|
  {
    if ops == [] then x == x'
    else CanStep(cfg, x, count, c, ops[0]) && LineRun(cfg, Next(cfg, x, count, c, ops[0]), count, c, ops[1..], x')
  }

  ghost function LineInit(): L {
    L(Init(), 0, false, [Outside], 0)
  }

  lemma {:induction false} LineRunInv(cfg: Config, x: L, count: nat, c: Chan, ops: seq<Op>, x': L)
    requires LineInv(cfg, x, count, c) && c.Object? && count >= 1 && LineRun(cfg, x, count, c, ops, x')
    ensures LineInv(cfg, x', count, c)
    decreases |ops|
  {
    if ops == [] {
    } else {
      LineStep(cfg, x, count, c, ops[0]);
      LineRunInv(cfg, Next(cfg, x, count, c, ops[0]), count, c, ops[1..], x');
    }
  }

  lemma LineReach(cfg: Config, count: nat, c: Chan, ops: seq<Op>, x: L)
    requires count >= 1 && c.Object? && LineRun(cfg, LineInit(), count, c, ops, x)
    ensures LineInv(cfg, x, count, c)
  {
    InitInv(cfg);
    assert Active(LineInit()) == {};
    LineRunInv(cfg, LineInit(), count, c, ops, x);
  }

  /** In phase LEAVING nobody waits; in phase ARRIVING the batch is not full,
      nobody is inside, and `nactive` counts the waiting threads and those that
      timed out and have not run yet.  Every thread between its start and its
      end belongs to the current batch, so the check after syncWait never acts
      on a later one. */
  lemma BatchesNeverMix(cfg: Config, count: nat, c: Chan, ops: seq<Op>, x: L)
    requires count >= 1 && c.Object? && LineRun(cfg, LineInit(), count, c, ops, x)
    ensures x.leaving ==> OnChan(x.s.h.core, c) == {} && x.nactive >= 1
    ensures !x.leaving ==> x.nactive < count && x.nactive == |OnChan(x.s.h.core, c)| + |TimedOut(x)|
    ensures forall t :: 0 <= t < |x.act| && !x.act[t].Outside? ==>
              x.act[t].batch == x.batch && (x.act[t].Inside? ==> x.leaving)
    ensures forall t :: t in TimedOut(x) ==> t in x.s.h.core.runq
  {
    LineReach(cfg, count, c, ops, x);
    forall t | 0 <= t < |x.act|
      ensures !x.act[t].Outside? ==> x.act[t].batch == x.batch && (x.act[t].Inside? ==> x.leaving)
      ensures t in OnChan(x.s.h.core, c) ==> !x.leaving && t in Active(x)
      ensures !x.leaving && t in Active(x) ==> t in OnChan(x.s.h.core, c) || t in TimedOut(x)
      ensures t in TimedOut(x) ==> t in x.s.h.core.runq
    {
      assert ThreadOk(x, c, t) && ViewOk(cfg, t, ViewOf(x.s, t));
    }
    if !x.leaving {
      assert Active(x) == OnChan(x.s.h.core, c) + TimedOut(x);
    }
  }

  /** The phase returns to ARRIVING only when every entrant has ended. */
  lemma ReopensEmpty(cfg: Config, count: nat, c: Chan, ops: seq<Op>, x: L, op: Op)
    requires count >= 1 && c.Object? && LineRun(cfg, LineInit(), count, c, ops, x)
    requires CanStep(cfg, x, count, c, op) && x.leaving && !Next(cfg, x, count, c, op).leaving
    ensures Active(Next(cfg, x, count, c, op)) == {} && op == EndLine
  {
    LineReach(cfg, count, c, ops, x);
    assert op == EndLine;
    EndLineKeeps(cfg, x, count, c);
  }

  /** A lineup initialised with count 0 never opens: every thread waits out its
      whole timeout, in every batch.  So count >= 1 is needed above. */
  lemma {:induction false} ZeroCountNeverOpens(cfg: Config, x: L, c: Chan, ops: seq<Op>, x': L)
    requires !x.leaving && LineRun(cfg, x, 0, c, ops, x')
    ensures !x'.leaving && x'.batch == x.batch
    decreases |ops|
  {
    if ops == [] {
    } else {
      ZeroCountNeverOpens(cfg, Next(cfg, x, 0, c, ops[0]), c, ops[1..], x');
    }
  }

  // ----- what the turn holder does next ------------------------------------------------

  /** Which branch of lineupStart, of the code after its wait, and of lineupEnd a
      holder takes, in terms of the phase, the counter and the count. */
  lemma HolderBranches(x: L, count: nat, c: Chan, timeout: nat, order: seq<Tid>)
    requires Shape(x.s) && |x.act| == |x.s.pc| && c.Object? && HolderIs(x.s, Wanting) && x.s.phase.t != IDLE
    requires Launched(x.s) && IsOrder(order, x.s.h.pending) && x.s.h.core.turn < FOREVER && timeout <= FOREVER
    ensures var act := x.act[x.s.phase.t];
            && (Enabled(x, count, c, StartPass) <==> act == Outside && x.leaving)
            && (Enabled(x, count, c, StartOpen) <==> act == Outside && !x.leaving && x.nactive + 1 == count)
            && (Enabled(x, count, c, StartWait(timeout, order)) <==>
                  act == Outside && !x.leaving && x.nactive + 1 != count)
            && (Enabled(x, count, c, ResumeOpen) <==> act.Entering? && !x.leaving && x.nactive < count)
            && (Enabled(x, count, c, ResumePass) <==> act.Entering? && (x.leaving || x.nactive >= count))
            && (Enabled(x, count, c, EndLine) <==> act.Inside?)
  {
  }

  lemma OthersFree(x: L, count: nat, c: Chan, l: Label)
    requires Shape(x.s) && |x.act| == |x.s.pc| && Guard(x.s, l) && !(l.Sig? && l.ch == c) && !(l.WaitOn? && l.ch == c)
    ensures Background(l) ==> Enabled(x, count, c, Base(l))
    ensures x.s.phase.Held? && x.s.phase.t < |x.act| && !x.act[x.s.phase.t].Entering? ==> Enabled(x, count, c, Base(l))
  {
  }
}
