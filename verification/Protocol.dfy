/** The scheduler as a concurrent protocol.  A state is the scheduler object,
    where each thread stands in its own code, and where the turn is.  Each
    label is one atomic step: a spin-lock or mutex section, or a stretch of
    code only the turn holder can observe. */
module Protocol {
  import opened Queues
  import opened SchedCore
  import opened SchedSpec

  /** Where a thread stands in its own code.
      App: outside the scheduler.      Wanting: inside getTurn.
      Blocking: interProStart said it is promised the turn, so it is in block().
      Calling: in the blocking system call.  Returned: past interProEnd, wakeup() due.
      Detached: in a non-deterministic region.  Parked: idle in pthread_cond_wait. */
  datatype Pc = App | Wanting | Blocking | Calling | Returned | Detached | Parked | Ended

  /** Where the turn is.
      InFlight: posted, not yet taken.       Held: taken; `inc` once incTurnCount ran.
      Scanning: idle inspects position `i` in tryPutTurn.  Promised: it marked a thread.
      Draining, Seeking: `t` runs next().    Granting: `n` is chosen, post due.
      Stopped: nextRunnable returned InvalidTid. */
  datatype Phase =
    | InFlight
    | Held(t: Tid, inc: bool)
    | Scanning(i: nat)
    | Promised
    | Draining(t: Tid, atEnd: bool)
    | Seeking(t: Tid, atEnd: bool)
    | Granting(n: Tid)
    | Stopped

  datatype State = State(h: Sched, pc: seq<Pc>, phase: Phase)

  datatype Label =
    // steps of a thread without the turn
    | Start(t: Tid) | Finish(t: Tid) | Wake(t: Tid) | Arrive(t: Tid) | Take(t: Tid)
    // steps of the turn holder
    | Inc(order: seq<Tid>) | Sig(ch: Chan, all: bool) | Create | PutTurn | End
    | WaitOn(ch: Chan, timeout: nat, order: seq<Tid>) | Block(order: seq<Tid>)
    | BeginScan | Scan | LeaveIdle
    // steps that hand the turn over
    | DrainWakeups(order: seq<Tid>) | Look | Post

  const MAX_THREADS: nat := 5000   // MAX_THREAD_NUM

  /** Every per-thread array has one entry per thread. */
  ghost predicate Shape(s: State) {
    |s.h.core.waits| == |s.h.status| == |s.pc| >= 1
  }

  /** The main thread has created the idle thread.  Until then it only takes
      turns and creates threads: __tern_prog_begin does nothing else. */
  ghost predicate Launched(s: State) {
    IDLE < |s.pc|
  }

  /** Control flow only: which steps the code can be about to take. */
  ghost predicate Guard(s: State, l: Label)
    requires Shape(s)
  {
    match l
    case Start(t) => Launched(s) && t < |s.pc| && t != IDLE && s.pc[t] == App
    case Finish(t) => t < |s.pc| && s.pc[t] == Calling
    case Wake(t) => t < |s.pc| && s.pc[t] in {Returned, Detached}
    case Arrive(t) => t < |s.pc| && s.pc[t] == App
    case Take(t) => t < |s.pc| && s.pc[t] in {Wanting, Blocking} && s.h.core.waits[t].sem > 0
    case Inc(order) => HolderIs(s, Wanting) && IsOrder(order, s.h.pending) && s.h.core.turn < FOREVER
    case Sig(ch, all) => HolderIs(s, Wanting) && ch !in {Null, IdleCond}
    case Create => HolderIs(s, Wanting) && |s.pc| < MAX_THREADS
    case PutTurn => HolderIs(s, Wanting) && s.phase.inc
    case End => Launched(s) && HolderIs(s, Wanting) && s.phase.inc && s.phase.t != IDLE
    case WaitOn(ch, timeout, order) =>
      && Launched(s) && HolderIs(s, Wanting) && s.phase.t != IDLE && ch != IdleCond && timeout <= FOREVER
      && !(ch == Null && timeout == FOREVER)
      && IsOrder(order, s.h.pending) && s.h.core.turn < FOREVER
    case Block(order) =>
      && Launched(s) && (HolderIs(s, Wanting) || HolderIs(s, Blocking)) && s.phase.t != IDLE
      && IsOrder(order, s.h.pending) && s.h.core.turn < FOREVER
    case BeginScan => HolderIs(s, Wanting) && s.phase.t == IDLE && s.phase.inc && |s.h.core.runq| >= 2
    case Scan => s.phase.Scanning?
    case LeaveIdle => s.phase.Promised?
    case DrainWakeups(order) => s.phase.Draining? && IsOrder(order, s.h.pending)
    case Look => s.phase.Seeking?
    case Post => s.phase.Granting? && s.phase.n < |s.pc|
  }

  ghost predicate HolderIs(s: State, pc: Pc) {
    s.phase.Held? && s.phase.t < |s.pc| && s.pc[s.phase.t] == pc
  }

  ghost predicate AtFront(s: State, t: Tid) {
    s.h.core.runq != [] && s.h.core.runq[0] == t
  }

  /** The scheduler state when the holder of a turn starts to end. */
  function Ending(h: Sched, t: Tid): Sched {
    h.(core := Signal(h.core, ThreadEnd(t), false))
  }

  function Leaving(cfg: Config, h: Sched, t: Tid, order: seq<Tid>): Sched {
    IncTurn(cfg, if cfg.bound.Within? then h.(nds := h.nds.Insert(t, h.core.turn)) else h, order)
  }

  /** Everything the code asserts (or needs in order not to fault) in a step. */
  ghost predicate Asserts(cfg: Config, s: State, l: Label)
    requires Shape(s) && Guard(s, l)
  {
    match l
    case Start(t) => s.h.status[t] in {Runnable, RunningReg}
    case Finish(t) => s.h.status[t] == InterProStop
    case Wake(t) => true
    case Arrive(t) => true
    case Take(t) => AtFront(s, t)
    case Inc(order) => AtFront(s, s.phase.t) && IncOk(cfg, s.h, order)
    case Sig(ch, all) => AtFront(s, s.phase.t) && forall t :: t in s.h.core.waitq ==> t < |s.pc|
    case Create => AtFront(s, s.phase.t)
    case PutTurn =>
      && AtFront(s, s.phase.t) && s.h.status[s.phase.t] == RunningReg
      && CheckBoundOk(cfg, StepBack(s.h, s.phase.t))
    case End =>
      && AtFront(s, s.phase.t)
      && CheckBoundOk(cfg, Ending(s.h, s.phase.t))
      && StepDownOk(CheckBound(cfg, Ending(s.h, s.phase.t)), s.phase.t)
    case WaitOn(ch, timeout, order) =>
      && AtFront(s, s.phase.t) && IncOk(cfg, s.h, order)
      && StepDownOk(IncTurn(cfg, s.h, order), s.phase.t)
    case Block(order) =>
      && AtFront(s, s.phase.t)
      && (cfg.bound.Within? ==> s.phase.t !in s.h.nds.list && s.phase.t !in s.h.nds.clock)
      && IncOk(cfg, if cfg.bound.Within? then s.h.(nds := s.h.nds.Insert(s.phase.t, s.h.core.turn)) else s.h, order)
      && StepDownOk(Leaving(cfg, s.h, s.phase.t, order), s.phase.t)
    case BeginScan => AtFront(s, IDLE)
    case Scan => s.phase.i < |s.h.core.runq| ==> s.h.core.runq[s.phase.i] < |s.h.status|
    case LeaveIdle => AtFront(s, IDLE) && StepDownOk(s.h, IDLE)
    case DrainWakeups(order) => DrainOk(cfg, s.h, order)
    case Look => ExamineOk(cfg, s.h, s.phase.t, s.phase.atEnd)
    case Post => AtFront(s, s.phase.n)
  }

  /** The effect of a step. */
  ghost function Apply(cfg: Config, s: State, l: Label): State
    requires Shape(s) && Guard(s, l) && Asserts(cfg, s, l)
  {
    var h := s.h;
    match l
    case Start(t) =>
      if h.status[t] == Runnable
      then s.(h := h.(status := h.status[t := InterProStop]), pc := s.pc[t := Calling])
      else s.(h := h.(status := h.status[t := RunningInterPro]), pc := s.pc[t := Blocking])
    case Finish(t) => s.(h := h.(status := h.status[t := Runnable]), pc := s.pc[t := Returned])
    case Wake(t) => s.(h := h.(pending := h.pending + {t}), pc := s.pc[t := App])
    case Arrive(t) => s.(pc := s.pc[t := Wanting])
    case Take(t) =>
      s.(h := h.(core := h.core.(waits := h.core.waits[t := h.core.waits[t].Consume()])), phase := Held(t, false))
    case Inc(order) => s.(h := IncTurn(cfg, h, order), phase := s.phase.(inc := true))
    case Sig(ch, all) => s.(h := h.(core := Signal(h.core, ch, all)))
    case Create =>
      State(h.(core := h.core.(runq := h.core.runq + [|s.pc|], waits := h.core.waits + [FRESH_WAIT]),
            status := h.status + [Runnable]),
            s.pc + [App], s.phase)
    case PutTurn =>
      State(CheckBound(cfg, StepBack(h, s.phase.t)), s.pc[s.phase.t := App], Draining(s.phase.t, false))
    case End =>
      State(StepDown(CheckBound(cfg, Ending(h, s.phase.t)), s.phase.t), s.pc[s.phase.t := Ended],
            Draining(s.phase.t, true))
    case WaitOn(ch, timeout, order) =>
      var h1 := IncTurn(cfg, h, order);
      State(StepDown(h1, s.phase.t).(core := Park(h1.core, s.phase.t, ch, timeout)), s.pc, Draining(s.phase.t, false))
    case Block(order) =>
      State(StepDown(Leaving(cfg, h, s.phase.t, order), s.phase.t),
            s.pc[s.phase.t := if s.pc[s.phase.t] == Blocking then Calling else Detached],
            Draining(s.phase.t, false))
    case BeginScan => s.(phase := Scanning(1))
    case Scan =>
      if s.phase.i >= |h.core.runq| then s.(phase := Held(IDLE, true))
      else if h.status[h.core.runq[s.phase.i]] == Runnable then
        s.(h := h.(status := h.status[h.core.runq[s.phase.i] := RunningReg]), phase := Promised)
      else s.(phase := Scanning(s.phase.i + 1))
    case LeaveIdle =>
      State(StepDown(h, IDLE).(core := Park(h.core, IDLE, IdleCond, FOREVER)), s.pc[IDLE := Parked],
            Draining(IDLE, false))
    case DrainWakeups(order) => s.(h := Drain(cfg, h, order), phase := Seeking(s.phase.t, s.phase.atEnd))
    case Look =>
      (match Examine(cfg, h, s.phase.t, s.phase.atEnd)
       case NoMore(_) => s.(phase := Stopped)
       case Again(h') => State(h', IdleUp(s), s.phase)
       case Give(h', n) => State(h', IdleUp(s), Granting(n)))
    case Post =>
      s.(h := h.(core := h.core.(waits := h.core.waits[s.phase.n := h.core.waits[s.phase.n].Post()])),
      phase := InFlight)
  }

  /** A thread that finds the run queue empty signals idle's condition variable. */
  ghost function IdleUp(s: State): seq<Pc>
    requires Shape(s)
  {
    if s.h.core.runq == [] && Launched(s) then s.pc[IDLE := App] else s.pc
  }

  /** The state RRScheduler's constructor leaves: one thread, its turn posted. */
  ghost function Init(): State {
    State(Sched(Core([MAIN], [], [FRESH_WAIT.Post()], 0), [RunningReg], {}, NonDet([], map[])), [App], InFlight)
  }
}
