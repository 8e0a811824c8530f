/** The hand-over of the turn while other threads take their own steps between its
    critical sections: entering and leaving blocking calls, waking up, reaching
    getTurn().  `env(n)` is what they attempt before the n-th section; a step that
    is not possible at that moment is passed over, so every interleaving is some
    `env`.  The whole is still a run of the protocol. */
module Interleaved {
  import opened Queues
  import opened SchedCore
  import opened SchedSpec
  import opened Protocol
  import opened ProtocolInv
  import opened ProtocolSteps
  import opened ProtocolTheorems
  import opened Scheduler

  type Env = nat -> seq<Label>

  // ----- the other threads -------------------------------------------------------------

  /** Step `l` of a thread without the turn is possible at these program points. */
  predicate Ready(pc: seq<Pc>, l: Label) {
    match l
    case Start(t) => IDLE < |pc| && t < |pc| && t != IDLE && pc[t] == App
    case Finish(t) => t < |pc| && pc[t] == Calling
    case Wake(t) => t < |pc| && (pc[t] == Returned || pc[t] == Detached)
    case Arrive(t) => t < |pc| && pc[t] == App
    case _ => false
  }

  lemma ReadyIsGuard(s: State, l: Label)
    requires Shape(s)
    ensures Ready(s.pc, l) <==> Side(l) && Guard(s, l)
  {
  }

  /** The steps of `env` that are possible when their moment comes. */
  ghost function Played(cfg: Config, s: State, env: seq<Label>): seq<Label>
    decreases |env|
  {
    if env == [] then []
    else if Shape(s) && Ready(s.pc, env[0]) && Guard(s, env[0]) && Asserts(cfg, s, env[0])
    then [env[0]] + Played(cfg, Apply(cfg, s, env[0]), env[1..])
    else Played(cfg, s, env[1..])
  }

  /** Any run of the other threads is played as it is. */
  lemma {:induction false} PlayedAll(cfg: Config, s: State, env: seq<Label>, s': State)
    requires Reaches(cfg, s, env, s') && forall l :: l in env ==> Side(l)
    ensures Played(cfg, s, env) == env
    decreases |env|
  {
    if env == [] {
    } else {
      assert env[0] in env && forall l :: l in env[1..] ==> l in env;
      ReadyIsGuard(s, env[0]);
      PlayedAll(cfg, Apply(cfg, s, env[0]), env[1..], s');
      assert env == [env[0]] + env[1..];
    }
  }

  /** One step of another thread. */
  method PlayOne(o: RRScheduler, l: Label, pc: seq<Pc>, ghost s0: State) returns (pc': seq<Pc>, ghost s: State)
    requires o.Shows(s0) && s0.pc == pc && Ready(pc, l)
    modifies o`status, o`wakeupTids, o`wakeupFlag
    ensures o.Shows(s) && s.pc == pc' && s.phase == s0.phase && Reaches(o.cfg, s0, [l], s)
  {
    ReadyIsGuard(s0, l);
    match l
    case Start(t) =>
      var isHead;
      isHead, s := o.InterProStart(t, s0);
      pc' := pc[t := if isHead then Blocking else Calling];
    case Finish(t) =>
      s := o.InterProEnd(t, s0);
      pc' := pc[t := Returned];
    case Wake(t) =>
      s := o.Wakeup(t, s0);
      pc' := pc[t := App];
    case Arrive(t) =>
      s := ArriveOnce(o.cfg, s0, t);
      pc' := pc[t := Wanting];
  }

  /** What the other threads do at one point. */
  method Others(o: RRScheduler, env: seq<Label>, pc: seq<Pc>, ghost s0: State)
    returns (pc': seq<Pc>, ghost s: State, ghost ls: seq<Label>)
    requires o.Shows(s0) && s0.pc == pc
    modifies o`status, o`wakeupTids, o`wakeupFlag
    ensures o.Shows(s) && s.pc == pc' && s.phase == s0.phase && Reaches(o.cfg, s0, ls, s)
    ensures ls == Played(o.cfg, s0, env) && forall l :: l in ls ==> Side(l)
    decreases |env|
  {
    if env == [] {
      return pc, s0, [];
    }
    if Ready(pc, env[0]) {
      ghost var s1;
      pc', s1 := PlayOne(o, env[0], pc, s0);
      PlayedOne(o.cfg, s0, env, s1);
      pc', s, ls := Others(o, env[1..], pc', s1);
      RunsCompose(o.cfg, s0, [env[0]], s1, ls, s);
      ls := [env[0]] + ls;
    } else {
      pc', s, ls := Others(o, env[1..], pc, s0);
    }
  }

  lemma PlayedOne(cfg: Config, s: State, env: seq<Label>, s1: State)
    requires env != [] && Ready(s.pc, env[0]) && Reaches(cfg, s, [env[0]], s1)
    ensures Side(env[0]) && Played(cfg, s, env) == [env[0]] + Played(cfg, s1, env[1..])
  {
    ReadyIsGuard(s, env[0]);
    assert [env[0]][1..] == [];
  }

  // ----- handing the turn over -----------------------------------------------------------

  /** Steps of next() and steps of the other threads. */
  ghost predicate Amid(ls: seq<Label>) {
    forall l :: l in ls ==> l.DrainWakeups? || l.Look? || l.Post? || Side(l)
  }

  /** One iteration of nextRunnable; `stop` when there is nobody left to run. */
  method OneLook(o: RRScheduler, self: Tid, atEnd: bool, pc: seq<Pc>, ghost s0: State)
    returns (tid: int, stop: bool, pc': seq<Pc>, ghost s: State)
    requires o.Shows(s0) && s0.pc == pc && s0.phase == Seeking(self, atEnd)
    modifies o`runq, o`waitq, o`waits, o`status, o`nonDet
    ensures o.Shows(s) && s.pc == pc' && Reaches(o.cfg, s0, [Look], s)
    ensures if stop then atEnd && s.phase == Stopped
            else if tid >= 0 then s.phase == Granting(tid)
            else s.phase == s0.phase && |o.runq| < old(|o.runq|)
  {
    s := LookOnce(o.cfg, s0, [], s0);
    assert [] + [Look] == [Look];
    tid, stop, pc' := -1, false, pc;
    if o.runq == [] && atEnd && (o.waitq == [] || self == MAIN) {
      stop := true;
      return;
    }
    if o.runq == [] && IDLE < |pc| {
      pc' := pc[IDLE := App];
    }
    tid := o.ExamineHead(self, atEnd);
  }

  method LookAfter(o: RRScheduler, self: Tid, atEnd: bool, env: seq<Label>, pc: seq<Pc>, ghost s0: State)
    returns (tid: int, stop: bool, pc': seq<Pc>, ghost s: State, ghost ls: seq<Label>)
    requires o.Shows(s0) && s0.pc == pc && s0.phase == Seeking(self, atEnd)
    modifies o`runq, o`waitq, o`waits, o`status, o`wakeupTids, o`wakeupFlag, o`nonDet
    ensures o.Shows(s) && s.pc == pc' && Reaches(o.cfg, s0, ls, s) && Amid(ls)
    ensures if stop then atEnd && s.phase == Stopped
            else if tid >= 0 then s.phase == Granting(tid)
            else s.phase == s0.phase && |o.runq| < old(|o.runq|)
  {
    ghost var s1;
    pc', s1, ls := Others(o, env, pc, s0);
    tid, stop, pc', s := OneLook(o, self, atEnd, pc', s1);
    RunsCompose(o.cfg, s0, ls, s1, [Look], s);
    ls := ls + [Look];
  }

  /** nextRunnable. */
  method NextRunnable(o: RRScheduler, self: Tid, atEnd: bool, env: Env, n: nat, pc: seq<Pc>, ghost s0: State)
    returns (tid: int, n': nat, pc': seq<Pc>, ghost s: State, ghost ls: seq<Label>)
    requires o.Shows(s0) && s0.pc == pc && s0.phase == Seeking(self, atEnd)
    modifies o`runq, o`waitq, o`waits, o`status, o`wakeupTids, o`wakeupFlag, o`nonDet
    ensures o.Shows(s) && s.pc == pc' && Reaches(o.cfg, s0, ls, s) && Amid(ls)
    ensures s.phase == (if tid < 0 then Stopped else Granting(tid)) && (tid < 0 ==> atEnd)
  {
    n', pc', s, ls := n, pc, s0, [];
    while true
      invariant o.Shows(s) && s.pc == pc' && Reaches(o.cfg, s0, ls, s) && s.phase == Seeking(self, atEnd) && Amid(ls)
      decreases |o.runq|
    {
      ghost var s1, l1;
      var stop;
      tid, stop, pc', s1, l1 := LookAfter(o, self, atEnd, env(n'), pc', s);
      n' := n' + 1;
      RunsCompose(o.cfg, s0, ls, s, l1, s1);
      s, ls := s1, ls + l1;
      if stop {
        tid := -1;
        return;
      }
      if tid >= 0 {
        return;
      }
    }
  }

  /** The search, and the post after whatever the others do in between. */
  method FindAndPost(o: RRScheduler, self: Tid, atEnd: bool, env: Env, n: nat, pc: seq<Pc>, ghost s0: State)
    returns (pc': seq<Pc>, ghost s: State, ghost ls: seq<Label>)
    requires o.Shows(s0) && s0.pc == pc && s0.phase == Seeking(self, atEnd)
    modifies o`runq, o`waitq, o`waits, o`status, o`wakeupTids, o`wakeupFlag, o`nonDet
    ensures o.Shows(s) && s.pc == pc' && Reaches(o.cfg, s0, ls, s) && Amid(ls)
    ensures s.phase.InFlight? || (atEnd && s.phase.Stopped?)
  {
    var tid, n';
    tid, n', pc', s, ls := NextRunnable(o, self, atEnd, env, n, pc, s0);
    if tid >= 0 {
      ghost var s1, l1;
      pc', s1, l1 := PostAfter(o, tid, env(n'), pc', s);
      RunsCompose(o.cfg, s0, ls, s, l1, s1);
      s, ls := s1, ls + l1;
    }
  }

  method PostAfter(o: RRScheduler, tid: Tid, env: seq<Label>, pc: seq<Pc>, ghost s0: State)
    returns (pc': seq<Pc>, ghost s: State, ghost ls: seq<Label>)
    requires o.Shows(s0) && s0.pc == pc && s0.phase == Granting(tid)
    modifies o`waits, o`status, o`wakeupTids, o`wakeupFlag
    ensures o.Shows(s) && s.pc == pc' && Reaches(o.cfg, s0, ls, s) && Amid(ls) && s.phase == InFlight
  {
    ghost var s1;
    pc', s1, ls := Others(o, env, pc, s0);
    s := o.PostTurn(tid, s1);
    RunsCompose(o.cfg, s0, ls, s1, [Post], s);
    ls := ls + [Post];
  }

  /** The second half of next(), with the others acting between its sections. */
  method HandOver(o: RRScheduler, self: Tid, atEnd: bool, env: Env, pc: seq<Pc>, ghost s0: State)
    returns (pc': seq<Pc>, ghost s: State, ghost ls: seq<Label>)
    requires o.Shows(s0) && s0.pc == pc && s0.phase == Draining(self, atEnd)
    modifies o`runq, o`waitq, o`waits, o`status, o`wakeupTids, o`wakeupFlag, o`nonDet
    ensures o.Shows(s) && s.pc == pc' && Reaches(o.cfg, s0, ls, s) && Amid(ls)
    ensures s.phase.InFlight? || (atEnd && s.phase.Stopped?)
  {
    ghost var s1, l1;
    pc', s1, l1 := DrainAfter(o, self, atEnd, env(0), pc, s0);
    pc', s, ls := FindAndPost(o, self, atEnd, env, 1, pc', s1);
    RunsCompose(o.cfg, s0, l1, s1, ls, s);
    ls := l1 + ls;
  }

  method DrainAfter(o: RRScheduler, self: Tid, atEnd: bool, env: seq<Label>, pc: seq<Pc>, ghost s0: State)
    returns (pc': seq<Pc>, ghost s: State, ghost ls: seq<Label>)
    requires o.Shows(s0) && s0.pc == pc && s0.phase == Draining(self, atEnd)
    modifies o`runq, o`status, o`wakeupTids, o`wakeupFlag, o`nonDet
    ensures o.Shows(s) && s.pc == pc' && Reaches(o.cfg, s0, ls, s) && Amid(ls) && s.phase == Seeking(self, atEnd)
  {
    ghost var s1, l1;
    pc', s1, ls := Others(o, env, pc, s0);
    s, l1 := o.DrainInNext(s1);
    RunsCompose(o.cfg, s0, ls, s1, l1, s);
    ls := ls + l1;
  }

  // ----- whole calls -------------------------------------------------------------------------

  /** A call whose first step is `l`, then a hand-over amid the others' steps. */
  ghost predicate CallAmid(l: Label, ls: seq<Label>) {
    ls != [] && ls[0] == l && Amid(ls[1..])
  }

  lemma CallAmidStarts(l: Label, ls: seq<Label>)
    requires Amid(ls)
    ensures CallAmid(l, [l] + ls)
  {
    assert ([l] + ls)[1..] == ls;
  }

  /** putTurn(). */
  method PutTurn(o: RRScheduler, self: Tid, env: Env, pc: seq<Pc>, ghost s0: State)
    returns (pc': seq<Pc>, ghost s: State, ghost ls: seq<Label>)
    requires o.Shows(s0) && s0.pc == pc && s0.phase == Held(self, true)
    modifies o
    ensures o.Shows(s) && s.pc == pc' && Reaches(o.cfg, s0, ls, s) && CallAmid(Label.PutTurn, ls) && s.phase.InFlight?
  {
    ghost var s1 := o.PutBack(self, s0);
    pc', s, ls := HandOver(o, self, false, env, pc[self := App], s1);
    RunsCompose(o.cfg, s0, [Label.PutTurn], s1, ls, s);
    CallAmidStarts(Label.PutTurn, ls);
    ls := [Label.PutTurn] + ls;
  }

  /** putTurn(true). */
  method EndThread(o: RRScheduler, self: Tid, env: Env, pc: seq<Pc>, ghost s0: State)
    returns (pc': seq<Pc>, ghost s: State, ghost ls: seq<Label>)
    requires o.Shows(s0) && s0.pc == pc && Launched(s0) && s0.phase == Held(self, true) && self != IDLE
    modifies o
    ensures o.Shows(s) && s.pc == pc' && Reaches(o.cfg, s0, ls, s) && CallAmid(End, ls)
    ensures s.phase.InFlight? || s.phase.Stopped?
  {
    ghost var s1 := o.EndInNext(self, s0);
    pc', s, ls := HandOver(o, self, true, env, pc[self := Ended], s1);
    RunsCompose(o.cfg, s0, [End], s1, ls, s);
    CallAmidStarts(End, ls);
    ls := [End] + ls;
  }

  /** wait() up to its getTurn(). */
  method WaitRelease(o: RRScheduler, self: Tid, ch: Chan, timeout: nat, env: Env, pc: seq<Pc>, ghost s0: State)
    returns (pc': seq<Pc>, ghost s: State, ghost ls: seq<Label>)
    requires o.Shows(s0) && s0.pc == pc && Launched(s0)
    requires s0.phase.Held? && s0.phase.t == self && self != IDLE && s0.pc[self] == Wanting
    requires ch != IdleCond && timeout <= FOREVER && !(ch == Null && timeout == FOREVER) && o.turnCount < FOREVER
    modifies o
    ensures o.Shows(s) && s.pc == pc' && Reaches(o.cfg, s0, ls, s) && s.phase.InFlight?
    ensures ls != [] && ls[0].WaitOn? && ls[0].ch == ch && ls[0].timeout == timeout && CallAmid(ls[0], ls)
  {
    ghost var s1, l := o.ParkSelf(self, ch, timeout, s0);
    pc', s, ls := HandOver(o, self, false, env, pc, s1);
    RunsCompose(o.cfg, s0, [l], s1, ls, s);
    CallAmidStarts(l, ls);
    ls := [l] + ls;
  }

  /** block() after its getTurn(). */
  method BlockRelease(o: RRScheduler, self: Tid, env: Env, pc: seq<Pc>, ghost s0: State)
    returns (pc': seq<Pc>, ghost s: State, ghost ls: seq<Label>)
    requires o.Shows(s0) && s0.pc == pc && Launched(s0)
    requires s0.phase.Held? && s0.phase.t == self && self != IDLE && o.turnCount < FOREVER
    modifies o
    ensures o.Shows(s) && s.pc == pc' && Reaches(o.cfg, s0, ls, s) && s.phase.InFlight?
    ensures ls != [] && ls[0].Block? && CallAmid(ls[0], ls)
  {
    ghost var s1, l := o.GoOutside(self, s0);
    pc', s, ls := HandOver(o, self, false, env, pc[self := if pc[self] == Blocking then Calling else Detached], s1);
    RunsCompose(o.cfg, s0, [l], s1, ls, s);
    CallAmidStarts(l, ls);
    ls := [l] + ls;
  }

  // ----- the idle thread ---------------------------------------------------------------------

  ghost predicate ScanAmid(ls: seq<Label>) {
    forall l :: l in ls ==> l.BeginScan? || l.Scan? || Side(l)
  }

  /** tryPutTurn, with the others acting between its looks at the queue: when it
      succeeds, somebody is promised the turn, whatever the others do. */
  method TryPutTurn(o: RRScheduler, env: Env, pc: seq<Pc>, ghost s0: State)
    returns (ok: bool, pc': seq<Pc>, ghost s: State, ghost ls: seq<Label>)
    requires o.Shows(s0) && s0.pc == pc && s0.phase == Held(IDLE, true) && |o.runq| >= 2
    modifies o`status, o`wakeupTids, o`wakeupFlag
    ensures o.Shows(s) && s.pc == pc' && Reaches(o.cfg, s0, ls, s) && ScanAmid(ls)
    ensures s.phase == if ok then Promised else Held(IDLE, true)
    ensures ok ==> HasPromise(s.h)
  {
    s := BeginScanOnce(o.cfg, s0);
    ls, pc' := [BeginScan], pc;
    var i := 1;
    ok := false;
    while i < |o.runq| && !ok
      invariant 1 <= i && o.Shows(s) && s.pc == pc' && Reaches(o.cfg, s0, ls, s) && ScanAmid(ls)
      invariant s.phase == if ok then Promised else Scanning(i)
      decreases |o.runq| - i
    {
      ghost var s1, l1;
      ok, pc', s1, l1 := OneScan(o, i, env(i), pc', s);
      RunsCompose(o.cfg, s0, ls, s, l1, s1);
      s, ls := s1, ls + l1;
      i := i + 1;
    }
    if !ok {
      s := ScanOnce(o.cfg, s0, ls, s);
      ls := ls + [Scan];
    }
    PromiseThere(o.cfg, s);
  }

  /** The others act, then idle looks at position `i`. */
  method OneScan(o: RRScheduler, i: nat, env: seq<Label>, pc: seq<Pc>, ghost s0: State)
    returns (ok: bool, pc': seq<Pc>, ghost s: State, ghost ls: seq<Label>)
    requires o.Shows(s0) && s0.pc == pc && s0.phase == Scanning(i) && i < |o.runq|
    modifies o`status, o`wakeupTids, o`wakeupFlag
    ensures o.Shows(s) && s.pc == pc' && Reaches(o.cfg, s0, ls, s) && ScanAmid(ls)
    ensures s.phase == if ok then Promised else Scanning(i + 1)
  {
    ghost var s1;
    pc', s1, ls := Others(o, env, pc, s0);
    ok, s := ScanSection(o, i, s1);
    RunsCompose(o.cfg, s0, ls, s1, [Scan], s);
    ls := ls + [Scan];
  }

  /** The spin-locked look of tryPutTurn at position `i`. */
  method ScanSection(o: RRScheduler, i: nat, ghost s0: State) returns (ok: bool, ghost s: State)
    requires o.Shows(s0) && s0.phase == Scanning(i) && i < |o.runq|
    modifies o`status
    ensures o.Shows(s) && s.pc == s0.pc && Reaches(o.cfg, s0, [Scan], s)
    ensures s.phase == if ok then Promised else Scanning(i + 1)
  {
    s := ScanOnce(o.cfg, s0, [], s0);
    assert [] + [Scan] == [Scan];
    ok := o.status[o.runq[i]] == Runnable;
    if ok {
      o.status := o.status[o.runq[i] := RunningReg];
    }
  }

  lemma PromiseThere(cfg: Config, s: State)
    requires Inv(cfg, s)
    ensures s.phase.Promised? ==> HasPromise(s.h)
  {
    if s.phase.Promised? {
      var p :| p in s.h.core.runq[1..] && p < |s.pc| && IsPromise(s.h.status[p]);
      assert p in s.h.core.runq;
    }
  }

  /** idleThreadCondWait() up to pthread_cond_wait: whatever the others do, idle
      goes to sleep only after a promise, and its hand-over finds a thread. */
  method IdleThreadCondWait(o: RRScheduler, scanEnv: Env, env: Env, pc: seq<Pc>, ghost s0: State)
    returns (slept: bool, pc': seq<Pc>, ghost s: State, ghost scan: seq<Label>, ghost call: seq<Label>)
    requires o.Shows(s0) && s0.pc == pc && s0.phase == Held(IDLE, true) && |o.runq| >= 2
    modifies o
    ensures o.Shows(s) && s.pc == pc' && Reaches(o.cfg, s0, scan + call, s) && s.phase.InFlight?
    ensures ScanAmid(scan) && CallAmid(if slept then LeaveIdle else Label.PutTurn, call)
  {
    ghost var s1;
    slept, pc', s1, scan := TryPutTurn(o, scanEnv, pc, s0);
    if slept {
      pc', s, call := SleepAndPass(o, env, pc', s1);
    } else {
      pc', s, call := PutTurn(o, IDLE, env, pc', s1);
    }
    RunsCompose(o.cfg, s0, scan, s1, call, s);
  }

  method SleepAndPass(o: RRScheduler, env: Env, pc: seq<Pc>, ghost s0: State)
    returns (pc': seq<Pc>, ghost s: State, ghost ls: seq<Label>)
    requires o.Shows(s0) && s0.pc == pc && s0.phase == Promised
    modifies o
    ensures o.Shows(s) && s.pc == pc' && Reaches(o.cfg, s0, ls, s) && CallAmid(LeaveIdle, ls) && s.phase.InFlight?
  {
    ghost var s1 := o.SleepIdle(s0);
    pc', s, ls := HandOver(o, IDLE, false, env, pc[IDLE := Parked], s1);
    RunsCompose(o.cfg, s0, [LeaveIdle], s1, ls, s);
    CallAmidStarts(LeaveIdle, ls);
    ls := [LeaveIdle] + ls;
  }
}
