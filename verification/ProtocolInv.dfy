/** The invariant of the protocol, stated mostly thread by thread: what one
    thread's program point, element status, queue membership, wait record and
    pending wake-up say about each other. */
module ProtocolInv {
  import opened Queues
  import opened SchedCore
  import opened SchedSpec
  import opened Protocol

  /** Everything the scheduler knows about one thread. */
  datatype View = View(inRun: bool, inWait: bool, status: Status, pc: Pc, pending: bool, w: Wait, nonDet: bool)

  ghost function ViewOf(s: State, u: Tid): View
    requires Shape(s) && u < |s.pc|
  {
    View(u in s.h.core.runq, u in s.h.core.waitq, s.h.status[u], s.pc[u], u in s.h.pending,
         s.h.core.waits[u], u in s.h.nds.list)
  }

  /** The thread has been promised the turn. */
  ghost predicate IsPromise(st: Status) {
    st == RunningReg || st == RunningInterPro
  }

  /** Program point and element status agree. */
  ghost predicate PcStatus(v: View) {
    match v.pc
    case App => v.status == Runnable || v.status == RunningReg
    case Wanting => v.status == Runnable || v.status == RunningReg
    case Returned => v.status == Runnable || v.status == RunningReg
    case Detached => v.status == Runnable || v.status == RunningReg
    case Blocking => v.status == RunningInterPro
    case Calling => v.status == InterProStop
    case Parked => v.status == Runnable
    case Ended => v.status == Runnable
  }

  /** Neither queued nor finished: the thread is outside deterministic control. */
  ghost predicate Outside(v: View) {
    !v.inRun && !v.inWait && v.pc != Ended
  }

  ghost predicate ViewOk(cfg: Config, u: Tid, v: View) {
    && !(v.inRun && v.inWait)
    && PcStatus(v)
    // a promise is only made to, and kept for, queued threads
    && (IsPromise(v.status) ==> v.inRun)
    && (v.inWait ==> v.pc == Wanting || v.pc == Parked)
    && (v.pc == Parked ==> v.inWait && u == IDLE)
    && (v.pc == Ended ==> !v.inRun && !v.inWait)
    // nobody is lost: a thread outside is still in its call or will be re-queued
    && (Outside(v) ==> v.pc in {Calling, Returned, Detached} || v.pending)
    && (v.pending ==> !v.inWait && v.pc != Ended)
    // a non-det region is only ever queued again by the clock bound
    && (v.pc == Detached ==> !v.pending && (cfg.bound.NoBound? ==> !v.inRun))
    // wait records are clean off the wait queue
    && (!v.inWait ==> v.w.chan == Null && v.w.timeout == FOREVER)
    && (v.inWait ==> !(v.w.chan == Null && v.w.timeout == FOREVER) && v.w.timeout <= FOREVER)
    // the boolean relay agrees with the semaphore relay
    && v.w.wakenUp == (v.w.sem == 1)
    // the idle thread
    && (u == IDLE ==> (v.inRun || v.inWait) && !v.pending && v.pc in {App, Wanting, Parked})
    && (v.inWait ==> (u == IDLE <==> v.w.chan == IdleCond))
    && (u == IDLE && v.inWait ==> v.pc == Parked && v.w.timeout == FOREVER)
    // bounded non-determinism
    && (v.nonDet <==> cfg.bound.Within? && Outside(v))
  }

  /** The non-det set: list and index agree, and the list is in clock order. */
  ghost predicate NonDetOk(d: NonDet, turn: nat) {
    && NoDup(d.list) && (forall t :: t in d.list <==> t in d.clock)
    && (forall t :: t in d.clock ==> d.clock[t] <= turn)
    && (forall i, j :: 0 <= i < j < |d.list| ==> d.clock[d.list[i]] <= d.clock[d.list[j]])
  }

  ghost predicate HasPromise(h: Sched) {
    exists p :: p in h.core.runq && p < |h.status| && IsPromise(h.status[p])
  }

  /** Where the turn is, and that there is exactly one. */
  ghost predicate PhaseOk(s: State)
    requires Shape(s)
  {
    match s.phase
    case InFlight => PromisedFront(s)
    case Held(t, inc) =>
      && PromisedFront(s) && AtFront(s, t) && s.pc[t] in {Wanting, Blocking}
      && (inc ==> t !in s.h.pending && s.pc[t] == Wanting)
    case Scanning(i) => PromisedFront(s) && AtFront(s, IDLE) && s.pc[IDLE] == Wanting && 1 <= i
    case Promised =>
      && PromisedFront(s) && AtFront(s, IDLE) && s.pc[IDLE] == Wanting
      && exists p :: p in s.h.core.runq[1..] && p < |s.pc| && IsPromise(s.h.status[p])
    case Draining(t, atEnd) => SeekerOk(s, t, atEnd)
    case Seeking(t, atEnd) => SeekerOk(s, t, atEnd)
    case Granting(n) => PromisedFront(s) && AtFront(s, n)
    case Stopped => true
  }

  ghost predicate PromisedFront(s: State)
    requires Shape(s)
  {
    && s.h.core.runq != [] && s.h.core.runq[0] < |s.pc|
    && IsPromise(s.h.status[s.h.core.runq[0]])
  }

  /** If it is idle that hands the turn over, somebody can take it. */
  ghost predicate SeekerOk(s: State, t: Tid, atEnd: bool) {
    t == IDLE ==> !atEnd && (IDLE in s.h.core.runq || HasPromise(s.h))
  }

  /** The number of turns posted to thread `u`. */
  ghost predicate TokenOk(s: State)
    requires Shape(s)
  {
    forall u :: 0 <= u < |s.pc| ==> s.h.core.waits[u].sem == if s.phase.InFlight? && AtFront(s, u) then 1 else 0
  }

  ghost predicate ThreadsOk(cfg: Config, s: State)
    requires Shape(s)
  {
    && (forall u :: 0 <= u < |s.pc| ==> ViewOk(cfg, u, ViewOf(s, u)))
    && (forall u :: u in s.h.pending ==> u < |s.pc|)
    && (forall u :: u in s.h.nds.list ==> u < |s.pc|)
  }

  ghost predicate CoreInv(cfg: Config, s: State) {
    && Shape(s) && Sane(s.h.core) && s.h.core.turn <= FOREVER
    && ThreadsOk(cfg, s) && NonDetOk(s.h.nds, s.h.core.turn)
    && PhaseOk(s) && TokenOk(s)
  }

  /** Until the idle thread exists, the main thread stays in the run queue. */
  ghost predicate BootOk(s: State)
    requires Shape(s)
  {
    Launched(s) || (MAIN in s.h.core.runq && s.pc[MAIN] in {App, Wanting})
  }

  ghost predicate Inv(cfg: Config, s: State) {
    CoreInv(cfg, s) && BootOk(s)
  }

  lemma InitInv(cfg: Config)
    ensures Inv(cfg, Init())
  {
  }

  // ----- the pieces steps are made of ----------------------------------------

  lemma {:induction false} RejectSorted(q: seq<Tid>, hit: set<Tid>, clock: map<Tid, nat>)
    requires NoDup(q) && forall t :: t in q ==> t in clock
    requires forall i, j :: 0 <= i < j < |q| ==> clock[q[i]] <= clock[q[j]]
    ensures forall t :: t in Reject(q, hit) ==> t in clock
    ensures forall i, j :: 0 <= i < j < |Reject(q, hit)| ==> clock[Reject(q, hit)[i]] <= clock[Reject(q, hit)[j]]
  {
    RejectIn(q, hit);
    if q == [] {
    } else {
      NoDupTail(q);
      RejectSorted(q[1..], hit, clock);
      RejectIn(q[1..], hit);
      var r := Reject(q[1..], hit);
      forall j | 0 <= j < |r| ensures clock[q[0]] <= clock[r[j]] {
        assert r[j] in q[1..];
        var k :| 0 <= k < |q[1..]| && q[1..][k] == r[j];
        assert q[k + 1] == r[j];
      }
    }
  }

  lemma EraseOk(d: NonDet, ts: set<Tid>, turn: nat)
    requires NonDetOk(d, turn)
    ensures NonDetOk(d.Erase(ts), turn)
    ensures forall t :: t in d.Erase(ts).list <==> t in d.list && t !in ts
  {
    RejectIn(d.list, ts);
    RejectNoDup(d.list, ts);
    RejectSorted(d.list, ts, d.clock);
  }

  lemma InsertOk(d: NonDet, t: Tid, turn: nat)
    requires NonDetOk(d, turn) && t !in d.list
    ensures NonDetOk(d.Insert(t, turn), turn)
    ensures forall u :: u in d.Insert(t, turn).list <==> u in d.list || u == t
  {
    NoDupConcat(d.list, [t]);
  }

  /** check_wakeup never double-queues a thread. */
  lemma DrainFacts(cfg: Config, h: Sched, order: seq<Tid>)
    requires Sane(h.core) && NonDetOk(h.nds, h.core.turn) && IsOrder(order, h.pending)
    requires forall t :: t in h.pending ==> t < |h.core.waits| && t !in h.core.waitq
    ensures Sane(Drain(cfg, h, order).core) && NonDetOk(Drain(cfg, h, order).nds, h.core.turn)
    ensures forall t :: t in Drain(cfg, h, order).core.runq <==> t in h.core.runq || t in h.pending
    ensures forall t :: t in Woken(h, order) <==> t in h.pending && t !in h.core.runq
    ensures h.core.runq <= Drain(cfg, h, order).core.runq
    ensures forall t :: t in Drain(cfg, h, order).nds.list <==>
                        t in h.nds.list && !(cfg.bound.Within? && t in h.pending && t !in h.core.runq)
  {
    RejectIn(order, Elems(h.core.runq));
    RejectNoDup(order, Elems(h.core.runq));
    assert forall t :: t in order <==> t in Elems(order);
    NoDupConcat(h.core.runq, Woken(h, order));
    EraseOk(h.nds, Elems(Woken(h, order)), h.core.turn);
  }

  lemma NonDetLater(d: NonDet, turn: nat, turn': nat)
    requires NonDetOk(d, turn) && turn <= turn'
    ensures NonDetOk(d, turn')
  {
  }
}
