/** The whole scheduler object: the queues of SchedCore, the status each run
    queue element carries, the set of threads back from a blocking call that
    wait to be re-queued, and the threads currently outside deterministic
    control.  The functions are the critical sections of RRScheduler. */
module SchedSpec {
  import opened Queues
  import opened SchedCore

  /** run_queue::THD_STATUS. */
  datatype Status = Runnable | RunningReg | RunningInterPro | InterProStop

  /** options::enforce_non_det_clock_bound with non_det_clock_bound. */
  datatype Bound = NoBound | Within(turns: nat)

  /** `annotated` is options::enforce_non_det_annotations. */
  datatype Config = Config(bound: Bound, annotated: bool)

  /** non_det_thread_set: arrival list and logical-clock index. */
  datatype NonDet = NonDet(list: seq<Tid>, clock: map<Tid, nat>) {

    function Insert(t: Tid, now: nat): NonDet {
      NonDet(list + [t], clock[t := now])
    }

    function Erase(ts: set<Tid>): NonDet {
      NonDet(Reject(list, ts), clock - ts)
    }
  }

  datatype Sched = Sched(core: Core, status: seq<Status>, pending: set<Tid>, nds: NonDet)

  // ----- check_wakeup and incTurnCount --------------------------------------

  /** An order in which the unordered set `pending` may be traversed. */
  ghost predicate IsOrder(order: seq<Tid>, pending: set<Tid>) {
    NoDup(order) && Elems(order) == pending
  }

  /** The threads check_wakeup really appends: those not already queued. */
  function Woken(h: Sched, order: seq<Tid>): seq<Tid> {
    Reject(order, Elems(h.core.runq))
  }

  /** RRScheduler::check_wakeup, traversing the pending set in `order`. */
  function Drain(cfg: Config, h: Sched, order: seq<Tid>): Sched {
    var woken := Woken(h, order);
    Sched(h.core.(runq := h.core.runq + woken), h.status, {},
          if cfg.bound.Within? then h.nds.Erase(Elems(woken)) else h.nds)
  }

  /** What check_wakeup asserts: an erased thread is in the non-det set. */
  ghost predicate DrainOk(cfg: Config, h: Sched, order: seq<Tid>) {
    cfg.bound.Within? ==> forall t :: t in Woken(h, order) ==> t in h.nds.list
  }

  /** RRScheduler::incTurnCount. */
  function IncTurn(cfg: Config, h: Sched, order: seq<Tid>): Sched {
    Drain(cfg, h.(core := Tick(h.core)), order)
  }

  ghost predicate IncOk(cfg: Config, h: Sched, order: seq<Tid>) {
    && (forall t :: t in h.core.waitq ==> t < |h.core.waits|)
    && DrainOk(cfg, h.(core := Tick(h.core)), order)
  }

  // ----- releasing the turn --------------------------------------------------

  /** The first half of RRScheduler::next: the head leaves the queue. */
  function StepDown(h: Sched, t: Tid): Sched
    requires h.core.runq != [] && t < |h.status|
  {
    h.(core := h.core.(runq := h.core.runq[1..]),
    status := h.status[t := if h.status[t] == RunningReg then Runnable else InterProStop])
  }

  ghost predicate StepDownOk(h: Sched, t: Tid) {
    && h.core.runq != [] && h.core.runq[0] == t && t < |h.status|
    && h.status[t] in {RunningReg, RunningInterPro}
  }

  /** The rotation in RRScheduler::putTurn. */
  function StepBack(h: Sched, t: Tid): Sched
    requires h.core.runq != [] && t < |h.status|
  {
    h.(core := h.core.(runq := h.core.runq[1..] + [t]), status := h.status[t := Runnable])
  }

  /** RRScheduler::checkNonDetBound. */
  function CheckBound(cfg: Config, h: Sched): Sched
    requires CheckBoundReadable(cfg, h)
  {
    if BoundExceeded(cfg, h) then
      var t := h.nds.list[0];
      h.(core := h.core.(runq := h.core.runq + [t]), nds := h.nds.Erase({t}))
    else h
  }

  predicate CheckBoundReadable(cfg: Config, h: Sched) {
    cfg.bound.Within? && h.nds.list != [] ==> h.nds.list[0] in h.nds.clock
  }

  predicate BoundExceeded(cfg: Config, h: Sched)
    requires CheckBoundReadable(cfg, h)
  {
    && cfg.bound.Within? && h.nds.list != []
    && h.core.turn > h.nds.clock[h.nds.list[0]] + cfg.bound.turns
  }

  /** Includes the assertion that is only a comment in the code: the thread
      pushed back is not in the run queue. */
  ghost predicate CheckBoundOk(cfg: Config, h: Sched) {
    && CheckBoundReadable(cfg, h)
    && (BoundExceeded(cfg, h) ==> h.nds.list[0] !in h.core.runq && h.nds.list[0] < |h.status|)
  }

  // ----- nextRunnable --------------------------------------------------------

  datatype Seek = Again(h: Sched) | Give(h: Sched, tid: Tid) | NoMore(h: Sched)

  /** nextRunnable gives up: an ending thread found nobody to run. */
  predicate EndOfProgram(h: Sched, self: Tid, atEnd: bool) {
    h.core.runq == [] && atEnd && (h.core.waitq == [] || self == MAIN)
  }

  /** The queue repair at the top of the nextRunnable loop: wake the idle thread
      when nobody is queued, or the non-det waiters when only idle is. */
  function Refill(cfg: Config, h: Sched, self: Tid): Sched {
    if h.core.runq == [] then
      h.(core := Move(h.core, {IDLE}, 0))
    else if cfg.annotated && self == IDLE && h.core.runq == [IDLE] then
      h.(core := Signal(h.core, NonDetCV, true))
    else h
  }

  /** One iteration of the loop in RRScheduler::nextRunnable. */
  function Examine(cfg: Config, h: Sched, self: Tid, atEnd: bool): Seek
    requires ExamineOk(cfg, h, self, atEnd)
  {
    if EndOfProgram(h, self, atEnd) then NoMore(h)
    else
      var h1 := Refill(cfg, h, self);
      var head := h1.core.runq[0];
      if h1.status[head] == InterProStop then
        Again(h1.(core := h1.core.(runq := h1.core.runq[1..]),
              nds := if cfg.bound.Within? then h1.nds.Insert(head, h1.core.turn) else h1.nds))
      else
        var st := if h1.status[head] == Runnable then RunningReg else h1.status[head];
        Give(h1.(status := h1.status[head := st]), head)
  }

  /** The assertions met by one iteration: the idle thread never has to wake
      itself, a sleeping idle thread is on the wait queue, the queue is then
      not empty, and a removed thread is new to the non-det set. */
  predicate ExamineOk(cfg: Config, h: Sched, self: Tid, atEnd: bool) {
    EndOfProgram(h, self, atEnd) ||
    (&& (h.core.runq == [] ==> self != IDLE && IDLE in h.core.waitq)
     && var h1 := Refill(cfg, h, self);
     && h1.core.runq != [] && h1.core.runq[0] < |h1.status|
     && (cfg.bound.Within? && h1.status[h1.core.runq[0]] == InterProStop ==>
           h1.core.runq[0] !in h1.nds.list && h1.core.runq[0] !in h1.nds.clock))
  }
}
