/** What one step of the protocol can do to the waiting threads: who starts to
    wait, who stops, and with which result.  Every primitive built on wait()
    and signal() rests on this. */
module WaitFrame {
  import opened Queues
  import opened SchedCore
  import opened SchedSpec
  import opened Protocol
  import opened ProtocolInv
  import opened ProtocolSteps

  /** The step increments the turn counter and so fires timeouts. */
  ghost predicate Ticks(l: Label) {
    l.Inc? || l.WaitOn? || l.Block?
  }

  /** The step puts `t` on the wait queue. */
  ghost predicate Parks(s: State, l: Label, t: Tid) {
    (l.WaitOn? && s.phase.Held? && s.phase.t == t) || (l.LeaveIdle? && t == IDLE)
  }

  /** The step signals channel `ch`. */
  ghost predicate Signals(s: State, l: Label, ch: Chan) {
    || (l.Sig? && l.ch == ch)
    || (l.End? && s.phase.Held? && ch == ThreadEnd(s.phase.t))
    || (l.Look? && ch in {IdleCond, NonDetCV})
  }

  /** The step is one that thread `t` itself takes. */
  ghost predicate Own(s: State, l: Label, t: Tid) {
    match l
    case Start(u) => u == t
    case Finish(u) => u == t
    case Wake(u) => u == t
    case Arrive(u) => u == t
    case PutTurn => s.phase.Held? && s.phase.t == t
    case End => s.phase.Held? && s.phase.t == t
    case Block(_) => s.phase.Held? && s.phase.t == t
    case LeaveIdle => t == IDLE
    case Look => t == IDLE
    case _ => false
  }

  ghost predicate FrameAt(s: State, l: Label, s': State, t: Tid)
    requires Shape(s) && Shape(s') && t < |s.pc| <= |s'.pc|
  {
    var w, w' := s.h.core.waits[t], s'.h.core.waits[t];
    var before, after := t in s.h.core.waitq, t in s'.h.core.waitq;
    && (Parks(s, l, t) ==> after && (l.WaitOn? ==> w'.chan == l.ch && w'.timeout == l.timeout))
    && (after && !Parks(s, l, t) ==> before && w' == w)
    && (!before ==> w'.status == w.status)
    && (before && !after ==>
          || (w'.status == 0 && Signals(s, l, w.chan))
          || (w'.status == ETIMEDOUT && Ticks(l) && w.timeout < s'.h.core.turn))
    && (before && Ticks(l) && w.timeout < s'.h.core.turn ==> !after)
    && (before && l == Sig(w.chan, true) ==> !after)
    && (!Own(s, l, t) ==> s'.pc[t] == s.pc[t] && (t in s'.h.pending ==> t in s.h.pending))
  }

  ghost predicate Frame(s: State, l: Label, s': State) {
    && Shape(s) && Shape(s') && |s'.pc| == |s.pc| + (if l.Create? then 1 else 0)
    && s'.h.core.turn == s.h.core.turn + (if Ticks(l) then 1 else 0)
    && (forall t :: t in s'.h.core.waitq ==> t < |s.pc|)
    && (forall t :: 0 <= t < |s.pc| ==> FrameAt(s, l, s', t))
  }

  lemma TickAt(c: Core, t: Tid)
    requires Sane(c) && t < |c.waits|
    ensures var c' := Tick(c);
            && (t in c'.waitq <==> t in c.waitq && !(c.waits[t].timeout < c.turn + 1))
            && (c'.waits[t] == if t in c.waitq && c.waits[t].timeout < c.turn + 1 then c.waits[t].Reset(ETIMEDOUT)
                               else c.waits[t])
  {
    TickSane(c);
  }

  /** A step of a thread without the turn moves nobody. */
  lemma SideFrame(cfg: Config, s: State, l: Label)
    requires Shape(s) && Sane(s.h.core) && Guard(s, l) && Asserts(cfg, s, l)
    requires l.Start? || l.Finish? || l.Wake? || l.Arrive? || l.Take?
    ensures Frame(s, l, Apply(cfg, s, l))
  {
  }

  lemma QuietFrame(cfg: Config, s: State, l: Label)
    requires Shape(s) && Sane(s.h.core) && Guard(s, l) && Asserts(cfg, s, l)
    requires l.Create? || l.PutTurn? || l.BeginScan? || l.Scan? || l.Post? || l.DrainWakeups?
    ensures Frame(s, l, Apply(cfg, s, l))
  {
  }

  lemma IncFrame(cfg: Config, s: State, order: seq<Tid>)
    requires Shape(s) && Sane(s.h.core) && Guard(s, Inc(order)) && Asserts(cfg, s, Inc(order))
    ensures Frame(s, Inc(order), Apply(cfg, s, Inc(order)))
  {
    TickSane(s.h.core);
    forall t | 0 <= t < |s.pc| ensures FrameAt(s, Inc(order), Apply(cfg, s, Inc(order)), t) {
      TickAt(s.h.core, t);
    }
  }

  lemma WaitFrame(cfg: Config, s: State, ch: Chan, timeout: nat, order: seq<Tid>)
    requires var l := WaitOn(ch, timeout, order); Shape(s) && Sane(s.h.core) && Guard(s, l) && Asserts(cfg, s, l)
    ensures var l := WaitOn(ch, timeout, order); Frame(s, l, Apply(cfg, s, l))
  {
    var l := WaitOn(ch, timeout, order);
    TickSane(s.h.core);
    forall t | 0 <= t < |s.pc| ensures FrameAt(s, l, Apply(cfg, s, l), t) {
      TickAt(s.h.core, t);
      assert s.phase.t in s.h.core.runq;
    }
  }

  lemma BlockFrame(cfg: Config, s: State, order: seq<Tid>)
    requires Shape(s) && Sane(s.h.core) && Guard(s, Block(order)) && Asserts(cfg, s, Block(order))
    ensures Frame(s, Block(order), Apply(cfg, s, Block(order)))
  {
    TickSane(s.h.core);
    forall t | 0 <= t < |s.pc| ensures FrameAt(s, Block(order), Apply(cfg, s, Block(order)), t) {
      TickAt(s.h.core, t);
    }
  }

  lemma SignalAt(c: Core, ch: Chan, all: bool, t: Tid) returns (hit: bool)
    requires Sane(c) && t < |c.waits|
    ensures hit ==> t in c.waitq && c.waits[t].chan == ch
    ensures all && t in c.waitq && c.waits[t].chan == ch ==> hit
    ensures t in Signal(c, ch, all).waitq <==> t in c.waitq && !hit
    ensures Signal(c, ch, all).waits[t] == if hit then c.waits[t].Reset(0) else c.waits[t]
  {
    var hits := SignalSane(c, ch, all);
    hit := t in hits;
  }

  lemma SignalOthers(c: Core, ch: Chan, all: bool)
    requires Sane(c)
    ensures forall t :: t in Signal(c, ch, all).waitq ==> t in c.waitq
    ensures |Signal(c, ch, all).waits| == |c.waits|
  {
    var hits := SignalSane(c, ch, all);
  }

  lemma SigFrame(cfg: Config, s: State, ch: Chan, all: bool)
    requires Shape(s) && Sane(s.h.core) && Guard(s, Sig(ch, all)) && Asserts(cfg, s, Sig(ch, all))
    ensures Frame(s, Sig(ch, all), Apply(cfg, s, Sig(ch, all)))
  {
    SignalOthers(s.h.core, ch, all);
    forall t | 0 <= t < |s.pc| ensures FrameAt(s, Sig(ch, all), Apply(cfg, s, Sig(ch, all)), t) {
      var hit := SignalAt(s.h.core, ch, all, t);
    }
  }

  lemma EndFrame(cfg: Config, s: State)
    requires Shape(s) && Sane(s.h.core) && Guard(s, End) && Asserts(cfg, s, End)
    ensures Frame(s, End, Apply(cfg, s, End))
  {
    SignalOthers(s.h.core, ThreadEnd(s.phase.t), false);
    forall t | 0 <= t < |s.pc| ensures FrameAt(s, End, Apply(cfg, s, End), t) {
      var hit := SignalAt(s.h.core, ThreadEnd(s.phase.t), false, t);
    }
  }

  lemma LeaveIdleFrame(cfg: Config, s: State)
    requires Shape(s) && Sane(s.h.core) && Guard(s, LeaveIdle) && Asserts(cfg, s, LeaveIdle)
    ensures Frame(s, LeaveIdle, Apply(cfg, s, LeaveIdle))
  {
    assert IDLE in s.h.core.runq;
  }

  /** What the queue repair of nextRunnable does to one waiting thread. */
  lemma RefillAt(cfg: Config, s: State, t: Tid)
    requires Shape(s) && Sane(s.h.core) && s.phase.Seeking? && t < |s.pc|
    requires s.h.core.runq == [] ==> IDLE in s.h.core.waitq && s.h.core.waits[IDLE].chan == IdleCond
    ensures var c, c' := s.h.core, Refill(cfg, s.h, s.phase.t).core;
            || ((t in c'.waitq <==> t in c.waitq) && c'.waits[t] == c.waits[t])
            || (&& t in c.waitq && t !in c'.waitq
                && c.waits[t].chan in {IdleCond, NonDetCV} && c'.waits[t] == c.waits[t].Reset(0))
  {
    if s.h.core.runq == [] {
      MoveSane(s.h.core, {IDLE}, 0);
    } else {
      var hit := SignalAt(s.h.core, NonDetCV, true, t);
    }
  }

  lemma RefillOthers(cfg: Config, s: State)
    requires Shape(s) && Sane(s.h.core) && s.phase.Seeking?
    ensures var c' := Refill(cfg, s.h, s.phase.t).core;
            |c'.waits| == |s.pc| && c'.turn == s.h.core.turn && forall t :: t in c'.waitq ==> t in s.h.core.waitq
  {
    RejectIn(s.h.core.waitq, {IDLE});
    SignalOthers(s.h.core, NonDetCV, true);
  }

  /** A look changes the wait queue by its queue repair only. */
  lemma LookCore(cfg: Config, s: State)
    requires Shape(s) && Guard(s, Look) && Asserts(cfg, s, Look)
    ensures var s' := Apply(cfg, s, Look);
            var c := if EndOfProgram(s.h, s.phase.t, s.phase.atEnd) then s.h.core else Refill(cfg, s.h, s.phase.t).core;
            && s'.h.core.waitq == c.waitq && s'.h.core.waits == c.waits && s'.h.core.turn == c.turn
            && |s'.h.status| == |s'.pc| == |s.pc| && s'.h.pending == s.h.pending
            && forall t :: 0 <= t < |s.pc| && t != IDLE ==> s'.pc[t] == s.pc[t]
  {
  }

  lemma LookFrame(cfg: Config, s: State)
    requires Shape(s) && Sane(s.h.core) && Guard(s, Look) && Asserts(cfg, s, Look)
    requires IDLE in s.h.core.waitq ==> s.h.core.waits[IDLE].chan == IdleCond
    ensures Frame(s, Look, Apply(cfg, s, Look))
  {
    LookCore(cfg, s);
    RefillOthers(cfg, s);
    var s' := Apply(cfg, s, Look);
    forall t | 0 <= t < |s.pc| ensures FrameAt(s, Look, s', t) {
      if !EndOfProgram(s.h, s.phase.t, s.phase.atEnd) {
        RefillAt(cfg, s, t);
      }
    }
  }

  lemma TickFrame(cfg: Config, s: State, l: Label)
    requires Shape(s) && Sane(s.h.core) && Guard(s, l) && Asserts(cfg, s, l) && Ticks(l)
    ensures Frame(s, l, Apply(cfg, s, l))
  {
    match l
    case Inc(order) => IncFrame(cfg, s, order);
    case WaitOn(ch, timeout, order) => WaitFrame(cfg, s, ch, timeout, order);
    case Block(order) => BlockFrame(cfg, s, order);
  }

  lemma WakeFrame(cfg: Config, s: State, l: Label)
    requires Shape(s) && Sane(s.h.core) && Guard(s, l) && Asserts(cfg, s, l)
    requires l.Sig? || l.End? || l.LeaveIdle? || l.Look?
    requires IDLE in s.h.core.waitq ==> s.h.core.waits[IDLE].chan == IdleCond
    ensures Frame(s, l, Apply(cfg, s, l))
  {
    match l
    case Sig(ch, all) => SigFrame(cfg, s, ch, all);
    case End => EndFrame(cfg, s);
    case LeaveIdle => LeaveIdleFrame(cfg, s);
    case Look => LookFrame(cfg, s);
  }

  lemma ApplyFrame(cfg: Config, s: State, l: Label)
    requires Shape(s) && Sane(s.h.core) && Guard(s, l) && Asserts(cfg, s, l)
    requires IDLE in s.h.core.waitq ==> s.h.core.waits[IDLE].chan == IdleCond
    ensures Frame(s, l, Apply(cfg, s, l))
  {
    if Ticks(l) {
      TickFrame(cfg, s, l);
    } else if l.Sig? || l.End? || l.LeaveIdle? || l.Look? {
      WakeFrame(cfg, s, l);
    } else if l.Create? || l.PutTurn? || l.BeginScan? || l.Scan? || l.Post? || l.DrainWakeups? {
      QuietFrame(cfg, s, l);
    } else {
      SideFrame(cfg, s, l);
    }
  }

  lemma StepFrame(cfg: Config, s: State, l: Label)
    requires Inv(cfg, s) && Guard(s, l)
    ensures Safe(cfg, s, l) && Frame(s, l, Apply(cfg, s, l))
  {
    StepSafe(cfg, s, l);
    IdleWaits(cfg, s);
    ApplyFrame(cfg, s, l);
  }

  // ----- what the program of a thread can do --------------------------------------

  /** Steps that are not the turn holder's program acting. */
  ghost predicate Background(l: Label) {
    || l.Start? || l.Finish? || l.Wake? || l.Arrive? || l.Take?
    || l.Scan? || l.LeaveIdle? || l.DrainWakeups? || l.Look? || l.Post?
  }

  /** A waiting or retrying thread takes no step unless it has the turn. */
  lemma NotOwn(s: State, l: Label, t: Tid)
    requires Shape(s) && Guard(s, l) && t < |s.pc| && s.pc[t] == Wanting && t != IDLE
    ensures !Own(s, l, t) || (s.phase.Held? && s.phase.t == t && (l.PutTurn? || l.End? || l.Block?))
  {
  }

  /** While `t` holds the turn, neither others' steps nor its own increment take it away. */
  lemma HolderStays(cfg: Config, s: State, l: Label)
    requires Inv(cfg, s) && HolderIs(s, Wanting) && Guard(s, l) && Asserts(cfg, s, l)
    requires (Background(l) || l.Inc? || l.Sig?)
    ensures HolderIs(Apply(cfg, s, l), Wanting) && Apply(cfg, s, l).phase.t == s.phase.t
  {
  }
}
