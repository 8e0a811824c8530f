/** Mutexes and semaphores: an object with some available units, a try call
    that takes one, and a loop around it that waits on the object's address.
    No wake-up is lost, in every run of the scheduler's protocol. */
module UnitSync {
  import opened Queues
  import opened SchedCore
  import opened SchedSpec
  import opened Protocol
  import opened ProtocolInv
  import opened ProtocolSteps
  import opened WaitFrame

  /** Retry: the thread is in the loop and its last try failed; `deadline` is
      the limit it passes to wait() (FOREVER for lock and sem_wait). */
  datatype Act = Free | Retry(deadline: nat)

  /** `units`: what trylock or sem_trywait can still take.  `owed`: the turn
      holder has released a unit and not called signal() yet. */
  datatype U = U(s: State, units: nat, owed: bool, act: seq<Act>)

  datatype Op =
    | Base(l: Label)                          // any other step of the protocol
    | TryTake                                 // a try call that succeeds
    | WaitFor(deadline: nat, order: seq<Tid>) // a try call that fails, then wait()
    | GiveUp                                  // wait() said ETIMEDOUT
    | Release                                 // unlock, sem_post
    | Notify                                  // the signal() that follows a release

  ghost predicate Enabled(u: U, c: Chan, op: Op)
    requires Shape(u.s) && |u.act| == |u.s.pc|
  {
    var s := u.s;
    match op
    case Base(l) =>
      && Guard(s, l)
      && (Background(l) || (s.phase.Held? && s.phase.t < |u.act| && u.act[s.phase.t] == Free && (u.owed ==> l.Inc?)))
      && !(l.Sig? && l.ch == c) && !(l.WaitOn? && l.ch == c)
    case TryTake =>
      && HolderIs(s, Wanting) && !u.owed && u.units > 0
      && (u.act[s.phase.t].Retry? ==> s.h.core.waits[s.phase.t].status != ETIMEDOUT)
    case WaitFor(deadline, order) =>
      && HolderIs(s, Wanting) && !u.owed && u.units == 0 && Guard(s, WaitOn(c, deadline, order))
      && (u.act[s.phase.t].Retry? ==>
            s.h.core.waits[s.phase.t].status != ETIMEDOUT && u.act[s.phase.t].deadline == deadline)
    case GiveUp =>
      && HolderIs(s, Wanting)
      && u.act[s.phase.t].Retry? && s.h.core.waits[s.phase.t].status == ETIMEDOUT
    case Release => HolderIs(s, Wanting) && !u.owed && u.act[s.phase.t] == Free
    case Notify => u.owed && Guard(s, Sig(c, false))
  }

  /** The protocol step a primitive's step performs, if any. */
  ghost function Steps(c: Chan, op: Op): seq<Label> {
    match op
    case Base(l) => [l]
    case WaitFor(deadline, order) => [WaitOn(c, deadline, order)]
    case Notify => [Sig(c, false)]
    case _ => []
  }

  ghost function Effect(u: U, op: Op, s': State): U
    requires op.TryTake? ==> u.units > 0
    requires op.TryTake? || op.WaitFor? || op.GiveUp? ==> u.s.phase.Held? && u.s.phase.t < |u.act|
  {
    match op
    case Base(l) => u.(s := s', act := if l.Create? then u.act + [Free] else u.act)
    case TryTake => u.(units := u.units - 1, act := u.act[u.s.phase.t := Free])
    case WaitFor(deadline, _) => u.(s := s', act := u.act[u.s.phase.t := Retry(deadline)])
    case GiveUp => u.(act := u.act[u.s.phase.t := Free])
    case Release => u.(units := u.units + 1, owed := true)
    case Notify => u.(s := s', owed := false)
  }

  ghost predicate CanStep(cfg: Config, u: U, c: Chan, op: Op) {
    && Shape(u.s) && |u.act| == |u.s.pc| && Enabled(u, c, op)
    && forall l :: l in Steps(c, op) ==> Guard(u.s, l) && Asserts(cfg, u.s, l)
  }

  ghost function Next(cfg: Config, u: U, c: Chan, op: Op): U
    requires CanStep(cfg, u, c, op)
  {
    Effect(u, op, if Steps(c, op) == [] then u.s else Apply(cfg, u.s, Steps(c, op)[0]))
  }

  // ----- the invariant ------------------------------------------------------------

  ghost function Waiters(u: U, c: Chan): set<Tid> {
    OnChan(u.s.h.core, c)
  }

  /** Threads that were signalled and have yet to try again. */
  ghost function Woken(u: U): set<Tid> {
    set t | 0 <= t < |u.act| && u.act[t].Retry? && t !in u.s.h.core.waitq
            && t < |u.s.h.core.waits| && u.s.h.core.waits[t].status == 0
  }

  /** A thread in the loop is in getTurn, on the wait queue or just off it. */
  ghost predicate RetryOk(u: U, c: Chan, t: Tid)
    requires Shape(u.s) && |u.act| == |u.s.pc| && t < |u.act|
  {
    var w := u.s.h.core.waits[t];
    && (u.act[t].Retry? ==>
          && u.s.pc[t] == Wanting && t !in u.s.h.pending && t != IDLE
          && (if t in u.s.h.core.waitq then w.chan == c && w.timeout == u.act[t].deadline
              else w.status == 0 || (w.status == ETIMEDOUT && u.act[t].deadline < FOREVER)))
    && (t in u.s.h.core.waitq && w.chan == c ==> u.act[t].Retry?)
  }

  ghost predicate UnitInv(cfg: Config, u: U, c: Chan) {
    && Inv(cfg, u.s) && |u.act| == |u.s.pc|
    && (forall t :: 0 <= t < |u.act| ==> RetryOk(u, c, t))
    && (u.owed ==> HolderIs(u.s, Wanting) && u.act[u.s.phase.t] == Free)
    && (Waiters(u, c) != {} ==> u.units <= |Woken(u)| + if u.owed then 1 else 0)
  }

  // ----- the steps keep it -----------------------------------------------------------

  lemma Grows(a: set<Tid>, b: set<Tid>)
    requires a <= b
    ensures |a| <= |b|
  {
    assert b == a + (b - a);
  }

  lemma RetryFramed(u: U, c: Chan, l: Label, s': State, t: Tid)
    requires c.Object? && t < |u.act|
    requires Shape(u.s) && |u.act| == |u.s.pc| && Guard(u.s, l) && Frame(u.s, l, s') && RetryOk(u, c, t)
    requires s'.h.core.turn <= FOREVER
    requires u.act[t].Retry? && !Background(l) ==> !(u.s.phase.Held? && u.s.phase.t == t)
    requires !(l.WaitOn? && l.ch == c) && !(l.LeaveIdle? && t == IDLE && u.act[t].Retry?)
    requires t == IDLE && t in s'.h.core.waitq ==> s'.h.core.waits[t].chan != c
    ensures RetryOk(u.(s := s', act := if l.Create? then u.act + [Free] else u.act), c, t)
  {
    assert FrameAt(u.s, l, s', t);
    if u.act[t].Retry? {
      NotOwn(u.s, l, t);
    }
  }

  /** Nobody joins the waiters, nobody signalled is forgotten. */
  lemma CountKept(cfg: Config, u: U, c: Chan, l: Label, s': State)
    requires UnitInv(cfg, u, c) && c.Object? && Frame(u.s, l, s')
    requires forall t :: 0 <= t < |u.act| && Parks(u.s, l, t) ==> !u.act[t].Retry?
    requires l.WaitOn? ==> l.ch != c
    requires IDLE in s'.h.core.waitq ==> s'.h.core.waits[IDLE].chan != c
    ensures var u' := Effect(u, Base(l), s'); Waiters(u', c) <= Waiters(u, c) && Woken(u) <= Woken(u')
  {
    var u' := Effect(u, Base(l), s');
    forall t | t in Waiters(u', c) ensures t in Waiters(u, c) {
      assert FrameAt(u.s, l, s', t);
    }
    forall t | t in Woken(u) ensures t in Woken(u') {
      assert FrameAt(u.s, l, s', t);
    }
  }

  lemma BaseKeeps(cfg: Config, u: U, c: Chan, l: Label)
    requires UnitInv(cfg, u, c) && c.Object? && CanStep(cfg, u, c, Base(l))
    ensures UnitInv(cfg, Next(cfg, u, c, Base(l)), c)
  {
    assert l in Steps(c, Base(l));
    StepFrame(cfg, u.s, l);
    if u.owed {
      HolderStays(cfg, u.s, l);
    }
    BaseFramed(cfg, u, c, l, Apply(cfg, u.s, l));
  }

  lemma BaseFramed(cfg: Config, u: U, c: Chan, l: Label, s': State)
    requires UnitInv(cfg, u, c) && c.Object? && Enabled(u, c, Base(l)) && Frame(u.s, l, s') && Inv(cfg, s')
    requires u.owed ==> HolderIs(s', Wanting) && s'.phase.t == u.s.phase.t && !l.Create?
    ensures UnitInv(cfg, Effect(u, Base(l), s'), c)
  {
    var u' := Effect(u, Base(l), s');
    IdleWaits(cfg, s');
    forall t | 0 <= t < |u'.act| ensures RetryOk(u', c, t) {
      if t < |u.act| {
        assert RetryOk(u, c, t);
        RetryFramed(u, c, l, s', t);
      }
    }
    assert forall t :: 0 <= t < |u.act| && Parks(u.s, l, t) ==> RetryOk(u, c, t);
    CountKept(cfg, u, c, l, s');
    Grows(Woken(u), Woken(u'));
  }

  lemma WaitForKeeps(cfg: Config, u: U, c: Chan, deadline: nat, order: seq<Tid>)
    requires UnitInv(cfg, u, c) && c.Object? && CanStep(cfg, u, c, WaitFor(deadline, order))
    ensures UnitInv(cfg, Next(cfg, u, c, WaitFor(deadline, order)), c)
  {
    var l := WaitOn(c, deadline, order);
    assert l in Steps(c, WaitFor(deadline, order));
    StepFrame(cfg, u.s, l);
    WaitForFramed(cfg, u, c, l, Apply(cfg, u.s, l));
  }

  lemma WaitForFramed(cfg: Config, u: U, c: Chan, l: Label, s': State)
    requires UnitInv(cfg, u, c) && c.Object? && l.WaitOn? && l.ch == c && Guard(u.s, l) && u.units == 0 && !u.owed
    requires Frame(u.s, l, s') && Inv(cfg, s')
    ensures UnitInv(cfg, Effect(u, WaitFor(l.timeout, l.order), s'), c)
  {
    var u' := Effect(u, WaitFor(l.timeout, l.order), s');
    forall t | 0 <= t < |u'.act| ensures RetryOk(u', c, t) {
      assert RetryOk(u, c, t) && FrameAt(u.s, l, s', t);
      assert ViewOk(cfg, t, ViewOf(s', t));
      if u.act[t].Retry? {
        NotOwn(u.s, l, t);
      }
    }
  }

  lemma NotifyKeeps(cfg: Config, u: U, c: Chan)
    requires UnitInv(cfg, u, c) && c.Object? && CanStep(cfg, u, c, Notify)
    ensures UnitInv(cfg, Next(cfg, u, c, Notify), c)
  {
    NotifyIs(cfg, u, c);
    SignalStep(cfg, u.s, c);
    NotifyFramed(cfg, u, c, Apply(cfg, u.s, Sig(c, false)));
  }

  lemma NotifyIs(cfg: Config, u: U, c: Chan)
    requires CanStep(cfg, u, c, Notify)
    ensures u.owed && Guard(u.s, Sig(c, false)) && Asserts(cfg, u.s, Sig(c, false))
    ensures Next(cfg, u, c, Notify) == Effect(u, Notify, Apply(cfg, u.s, Sig(c, false)))
  {
    assert Sig(c, false) in Steps(c, Notify);
  }

  /** What signal(c) does, in the terms used here. */
  lemma SignalStep(cfg: Config, s: State, c: Chan)
    requires Inv(cfg, s) && c.Object? && Guard(s, Sig(c, false)) && Asserts(cfg, s, Sig(c, false))
    ensures var s' := Apply(cfg, s, Sig(c, false));
            && s'.h.core == Signal(s.h.core, c, false) && Frame(s, Sig(c, false), s') && Inv(cfg, s')
            && (IDLE in s'.h.core.waitq ==> s'.h.core.waits[IDLE].chan != c)
  {
    StepFrame(cfg, s, Sig(c, false));
    IdleWaits(cfg, Apply(cfg, s, Sig(c, false)));
  }

  lemma NotifyFramed(cfg: Config, u: U, c: Chan, s': State)
    requires UnitInv(cfg, u, c) && c.Object? && u.owed && Guard(u.s, Sig(c, false))
    requires s'.h.core == Signal(u.s.h.core, c, false) && Frame(u.s, Sig(c, false), s') && Inv(cfg, s')
    requires IDLE in s'.h.core.waitq ==> s'.h.core.waits[IDLE].chan != c
    ensures UnitInv(cfg, Effect(u, Notify, s'), c)
  {
    NotifyRetries(u, c, s');
    NotifyCounts(cfg, u, c, s');
    NotifyDone(cfg, u, c, s');
  }

  lemma NotifyDone(cfg: Config, u: U, c: Chan, s': State)
    requires Inv(cfg, s') && |s'.pc| == |u.act|
    requires forall t :: 0 <= t < |u.act| ==> RetryOk(u.(s := s', owed := false), c, t)
    requires var u' := Effect(u, Notify, s'); Waiters(u', c) != {} ==> u'.units <= |Woken(u')|
    ensures UnitInv(cfg, Effect(u, Notify, s'), c)
  {
  }

  lemma NotifyRetries(u: U, c: Chan, s': State)
    requires c.Object? && Shape(u.s) && |u.act| == |u.s.pc| && u.s.phase.Held?
    requires u.s.phase.t < |u.act| && u.act[u.s.phase.t] == Free
    requires Guard(u.s, Sig(c, false)) && Frame(u.s, Sig(c, false), s') && s'.h.core.turn <= FOREVER
    requires IDLE in s'.h.core.waitq ==> s'.h.core.waits[IDLE].chan != c
    requires forall t :: 0 <= t < |u.act| ==> RetryOk(u, c, t)
    ensures forall t :: 0 <= t < |u.act| ==> RetryOk(u.(s := s', owed := false), c, t)
  {
    forall t | 0 <= t < |u.act| ensures RetryOk(u.(s := s', owed := false), c, t) {
      assert RetryOk(u, c, t);
      RetryFramed(u, c, Sig(c, false), s', t);
    }
  }

  lemma SignalWakesOne(c: Core, ch: Chan) returns (x: Tid)
    requires Sane(c) && ch != Null && OnChan(c, ch) != {}
    ensures x in OnChan(c, ch) && x !in Signal(c, ch, false).waitq && Signal(c, ch, false).waits[x].status == 0
  {
    var i := SignalFirst(c, ch);
    x := c.waitq[i];
    MoveSane(c, {x}, 0);
  }

  /** A signal with a waiter left over has woken one. */
  lemma NotifyCounts(cfg: Config, u: U, c: Chan, s': State)
    requires UnitInv(cfg, u, c) && c.Object? && u.owed && s'.h.core == Signal(u.s.h.core, c, false)
    requires Frame(u.s, Sig(c, false), s') && (IDLE in s'.h.core.waitq ==> s'.h.core.waits[IDLE].chan != c)
    ensures var u' := Effect(u, Notify, s'); Waiters(u', c) != {} ==> u'.units <= |Woken(u')|
  {
    var u' := Effect(u, Notify, s');
    if Waiters(u', c) != {} {
      CountKept(cfg, u, c, Sig(c, false), s');
      var x := SignalWakesOne(u.s.h.core, c);
      assert RetryOk(u, c, x);
      Grows(Woken(u) + {x}, Woken(u'));
    }
  }

  lemma UnitStep(cfg: Config, u: U, c: Chan, op: Op)
    requires UnitInv(cfg, u, c) && c.Object? && CanStep(cfg, u, c, op)
    ensures UnitInv(cfg, Next(cfg, u, c, op), c)
  {
    match op
    case Base(l) => BaseKeeps(cfg, u, c, l);
    case WaitFor(deadline, order) => WaitForKeeps(cfg, u, c, deadline, order);
    case Notify => NotifyKeeps(cfg, u, c);
    case Release => ReleaseKeeps(cfg, u, c);
    case _ => DoneKeeps(cfg, u, c, op);
  }

  lemma ReleaseKeeps(cfg: Config, u: U, c: Chan)
    requires UnitInv(cfg, u, c) && CanStep(cfg, u, c, Release)
    ensures UnitInv(cfg, Next(cfg, u, c, Release), c)
  {
    var u' := Next(cfg, u, c, Release);
    assert Woken(u') == Woken(u);
    forall t | 0 <= t < |u'.act| ensures RetryOk(u', c, t) {
      assert RetryOk(u, c, t);
    }
  }

  /** Leaving the loop, with a unit or without. */
  lemma DoneKeeps(cfg: Config, u: U, c: Chan, op: Op)
    requires UnitInv(cfg, u, c) && CanStep(cfg, u, c, op) && (op.TryTake? || op.GiveUp?)
    ensures UnitInv(cfg, Next(cfg, u, c, op), c)
  {
    var u' := Next(cfg, u, c, op);
    var t := u.s.phase.t;
    assert t in u.s.h.core.runq;
    forall x | 0 <= x < |u'.act| ensures RetryOk(u', c, x) {
      assert RetryOk(u, c, x);
    }
    assert Woken(u') == Woken(u) - {t};
  }

  /** No step of a primitive can fail an assertion of the scheduler. */
  lemma UnitNeverFails(cfg: Config, u: U, c: Chan, op: Op)
    requires UnitInv(cfg, u, c) && Enabled(u, c, op)
    ensures CanStep(cfg, u, c, op)
  {
    if Steps(c, op) != [] {
      StepSafe(cfg, u.s, Steps(c, op)[0]);
    }
  }

  // ----- the theorem -----------------------------------------------------------------

  /** `ops` is a run from `u` to `u'`. */
  ghost predicate UnitRun(cfg: Config, u: U, c: Chan, ops: seq<Op>, u': U)
    decreases |ops|
  {
    if ops == [] then u == u'
    else CanStep(cfg, u, c, ops[0]) && UnitRun(cfg, Next(cfg, u, c, ops[0]), c, ops[1..], u')
  }

  ghost function UnitInit(units: nat): U {
    U(Init(), units, false, [Free])
  }

  lemma {:induction false} UnitRunInv(cfg: Config, u: U, c: Chan, ops: seq<Op>, u': U)
    requires UnitInv(cfg, u, c) && c.Object? && UnitRun(cfg, u, c, ops, u')
    ensures UnitInv(cfg, u', c)
    decreases |ops|
  {
    if ops == [] {
    } else {
      UnitStep(cfg, u, c, ops[0]);
      UnitRunInv(cfg, Next(cfg, u, c, ops[0]), c, ops[1..], u');
    }
  }

  /** No lost wake-up: while a thread waits for a unit, every available unit is
      matched by a signalled thread in the run queue that has yet to retry
      (or by the signal the holder is about to send).  A thread that waits
      without a limit is never told ETIMEDOUT. */
  lemma NoLostWakeup(cfg: Config, units: nat, c: Chan, ops: seq<Op>, u: U)
    requires c.Object? && UnitRun(cfg, UnitInit(units), c, ops, u)
    ensures Waiters(u, c) != {} ==> u.units <= |Woken(u)| + if u.owed then 1 else 0
    ensures forall t :: t in Woken(u) ==> t in u.s.h.core.runq
    ensures forall t ::
              0 <= t < |u.act| && t < |u.s.h.core.waits| && u.act[t] == Retry(FOREVER) && t !in u.s.h.core.waitq ==>
              u.s.h.core.waits[t].status == 0
  {
    InitInv(cfg);
    var u0 := UnitInit(units);
    assert OnChan(u0.s.h.core, c) == {};
    UnitRunInv(cfg, u0, c, ops, u);
    forall t | t in Woken(u) ensures t in u.s.h.core.runq {
      assert RetryOk(u, c, t) && ViewOk(cfg, t, ViewOf(u.s, t));
    }
    forall t | 0 <= t < |u.act| && u.act[t] == Retry(FOREVER) && t !in u.s.h.core.waitq
      ensures u.s.h.core.waits[t].status == 0
    {
      assert RetryOk(u, c, t);
    }
  }

  // ----- units are neither lost nor made ------------------------------------------------

  ghost function Takes(ops: seq<Op>): nat {
    if ops == [] then 0 else (if ops[0].TryTake? then 1 else 0) + Takes(ops[1..])
  }

  ghost function Releases(ops: seq<Op>): nat {
    if ops == [] then 0 else (if ops[0].Release? then 1 else 0) + Releases(ops[1..])
  }

  /** Over every run, what is available is what was there, plus every unlock or
      post, minus every lock or wait that succeeded. */
  lemma {:induction false} UnitsConserved(cfg: Config, u: U, c: Chan, ops: seq<Op>, u': U)
    requires UnitRun(cfg, u, c, ops, u')
    ensures u'.units + Takes(ops) == u.units + Releases(ops)
    decreases |ops|
  {
    if ops == [] {
      assert u == u';
    } else {
      UnitsConserved(cfg, Next(cfg, u, c, ops[0]), c, ops[1..], u');
    }
  }

  /** Who holds units: each successful try gives its caller one, each release
      takes one from its caller. */
  ghost function Owners(cfg: Config, u: U, c: Chan, ops: seq<Op>, own: multiset<Tid>): multiset<Tid>
    decreases |ops|
  {
    if ops == [] || !CanStep(cfg, u, c, ops[0]) then own
    else
      var own1 :=
        if ops[0].TryTake? then own + multiset{u.s.phase.t}
        else if ops[0].Release? then own - multiset{u.s.phase.t}
        else own;
      Owners(cfg, Next(cfg, u, c, ops[0]), c, ops[1..], own1)
  }

  /** Every release is by a thread that holds a unit, as for a mutex. */
  ghost predicate OwnersRelease(cfg: Config, u: U, c: Chan, ops: seq<Op>, own: multiset<Tid>)
    decreases |ops|
  {
    ops == [] || !CanStep(cfg, u, c, ops[0]) ||
    (&& (ops[0].Release? ==> u.s.phase.t in own)
     && OwnersRelease(cfg, Next(cfg, u, c, ops[0]), c, ops[1..],
                      if ops[0].TryTake? then own + multiset{u.s.phase.t}
                      else if ops[0].Release? then own - multiset{u.s.phase.t}
                      else own))
  }

  lemma {:induction false} OwnedOrAvailable(cfg: Config, u: U, c: Chan, ops: seq<Op>, u': U, own: multiset<Tid>)
    requires UnitRun(cfg, u, c, ops, u') && OwnersRelease(cfg, u, c, ops, own)
    ensures |Owners(cfg, u, c, ops, own)| + u'.units == |own| + u.units
    decreases |ops|
  {
    if ops == [] {
      assert u == u';
    } else {
      var t := if ops[0].TryTake? || ops[0].Release? then u.s.phase.t else 0;
      var own1 := if ops[0].TryTake? then own + multiset{t} else if ops[0].Release? then own - multiset{t} else own;
      OwnedOrAvailable(cfg, Next(cfg, u, c, ops[0]), c, ops[1..], u', own1);
    }
  }

  /** A mutex, released only by its owner, has exactly one owner or is free. */
  lemma MutualExclusion(cfg: Config, c: Chan, ops: seq<Op>, u: U)
    requires UnitRun(cfg, UnitInit(1), c, ops, u) && OwnersRelease(cfg, UnitInit(1), c, ops, multiset{})
    ensures var own := Owners(cfg, UnitInit(1), c, ops, multiset{});
            u.units <= 1 && |own| == 1 - u.units
  {
    OwnedOrAvailable(cfg, UnitInit(1), c, ops, u, multiset{});
  }

  /** Who is in the loop: a failed try puts its caller there, success or ETIMEDOUT
      takes it out. */
  ghost function Looping(cfg: Config, u: U, c: Chan, ops: seq<Op>, inside: set<Tid>): set<Tid>
    decreases |ops|
  {
    if ops == [] || !CanStep(cfg, u, c, ops[0]) then inside
    else
      Looping(cfg, Next(cfg, u, c, ops[0]), c, ops[1..],
              if ops[0].WaitFor? then inside + {u.s.phase.t}
              else if ops[0].TryTake? || ops[0].GiveUp? then inside - {u.s.phase.t}
              else inside)
  }

  ghost function Retrying(u: U): set<Tid> {
    set t | 0 <= t < |u.act| && u.act[t].Retry?
  }

  lemma {:induction false} LoopsEnd(cfg: Config, u: U, c: Chan, ops: seq<Op>, u': U)
    requires UnitRun(cfg, u, c, ops, u')
    ensures Retrying(u') == Looping(cfg, u, c, ops, Retrying(u))
    decreases |ops|
  {
    if ops == [] {
      assert u == u';
    } else {
      LoopStep(cfg, u, c, ops[0]);
      LoopsEnd(cfg, Next(cfg, u, c, ops[0]), c, ops[1..], u');
    }
  }

  lemma LoopStep(cfg: Config, u: U, c: Chan, op: Op)
    requires CanStep(cfg, u, c, op)
    ensures Retrying(Next(cfg, u, c, op)) ==
            if op.WaitFor? then Retrying(u) + {u.s.phase.t}
            else if op.TryTake? || op.GiveUp? then Retrying(u) - {u.s.phase.t}
            else Retrying(u)
  {
  }

  // ----- what the turn holder does next ------------------------------------------------

  /** At a try, the branch taken depends on the units alone; back from wait(), on
      its result first.  A release is always followed by its signal. */
  lemma HolderBranches(cfg: Config, u: U, c: Chan, deadline: nat, order: seq<Tid>)
    requires UnitInv(cfg, u, c) && c.Object? && HolderIs(u.s, Wanting) && u.s.phase.t != IDLE && Launched(u.s)
    requires IsOrder(order, u.s.h.pending) && u.s.h.core.turn < FOREVER && deadline <= FOREVER
    ensures var t := u.s.phase.t;
            var told, act := u.s.h.core.waits[t].status, u.act[t];
            && (Enabled(u, c, GiveUp) <==> act.Retry? && told == ETIMEDOUT)
            && (Enabled(u, c, TryTake) <==> !u.owed && u.units > 0 && (act == Free || told == 0))
            && (Enabled(u, c, WaitFor(deadline, order)) <==>
                  !u.owed && u.units == 0 && (act == Free || (act == Retry(deadline) && told == 0)))
            && (Enabled(u, c, Release) <==> !u.owed && act == Free)
            && (Enabled(u, c, Notify) <==> u.owed)
  {
    assert RetryOk(u, c, u.s.phase.t) && u.s.phase.t in u.s.h.core.runq;
  }

  /** Everybody else, and a holder outside the loop, is free to act. */
  lemma OthersFree(u: U, c: Chan, l: Label)
    requires Shape(u.s) && |u.act| == |u.s.pc| && Guard(u.s, l) && !(l.Sig? && l.ch == c) && !(l.WaitOn? && l.ch == c)
    ensures Background(l) ==> Enabled(u, c, Base(l))
    ensures u.s.phase.Held? && u.s.phase.t < |u.act| && u.act[u.s.phase.t] == Free && !u.owed ==> Enabled(u, c, Base(l))
  {
  }
}
