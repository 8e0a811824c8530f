/** pthread_barrier_wait over the scheduler: generations of exactly `count`
    arrivals, nobody leaves before the last has come, one serial thread each. */
module Barrier {
  import opened Queues
  import opened SchedCore
  import opened SchedSpec
  import opened Protocol
  import opened ProtocolInv
  import opened ProtocolSteps
  import opened WaitFrame

  /** Inside: arrived in generation `gen`, not returned, result 0 due.
      Last: completed generation `gen`, result PTHREAD_BARRIER_SERIAL_THREAD due. */
  datatype Act = Free | Inside(gen: nat) | Last(gen: nat)

  datatype Out = Out(gen: nat, t: Tid, serial: bool)

  /** `narrived` is the code's counter.  The rest is history: who arrived in
      the current generation, in each finished one, and what was returned. */
  datatype B = B(s: State, narrived: nat, act: seq<Act>, now: seq<Tid>, past: seq<seq<Tid>>, outs: seq<Out>)

  datatype Op =
    | Base(l: Label)          // any other step of the protocol
    | Join(order: seq<Tid>)   // not the last: wait(barrier)
    | Fill                    // the last: reset the counter, signal(barrier, all)
    | Return                  // leave pthread_barrier_wait

  ghost predicate Enabled(b: B, count: nat, c: Chan, op: Op)
    requires Shape(b.s) && |b.act| == |b.s.pc|
  {
    var s := b.s;
    match op
    case Base(l) =>
      && Guard(s, l) && !(l.Sig? && l.ch == c) && !(l.WaitOn? && l.ch == c)
      && (l.Start? ==> l.t < |b.act| && b.act[l.t] == Free)
      && (Background(l) || (s.phase.Held? && s.phase.t < |b.act| &&
                            (b.act[s.phase.t] == Free || (b.act[s.phase.t].Last? && l.PutTurn?))))
    case Join(order) =>
      HolderIs(s, Wanting) && b.act[s.phase.t] == Free && b.narrived + 1 != count && Guard(s, WaitOn(c, FOREVER, order))
    case Fill =>
      HolderIs(s, Wanting) && b.act[s.phase.t] == Free && b.narrived + 1 == count && Guard(s, Sig(c, true))
    case Return => HolderIs(s, Wanting) && b.act[s.phase.t] != Free
  }

  ghost function Steps(c: Chan, op: Op): seq<Label> {
    match op
    case Base(l) => [l]
    case Join(order) => [WaitOn(c, FOREVER, order)]
    case Fill => [Sig(c, true)]
    case Return => []
  }

  ghost function Effect(b: B, op: Op, s': State): B
    requires !op.Base? ==> b.s.phase.Held? && b.s.phase.t < |b.act|
    requires op.Return? ==> b.act[b.s.phase.t] != Free
  {
    var t := if op.Base? then 0 else b.s.phase.t;
    match op
    case Base(l) => b.(s := s', act := if l.Create? then b.act + [Free] else b.act)
    case Join(_) =>
      b.(s := s', narrived := b.narrived + 1, act := b.act[t := Inside(|b.past|)], now := b.now + [t])
    case Fill =>
      b.(s := s', narrived := 0, act := b.act[t := Last(|b.past|)], now := [], past := b.past + [b.now + [t]])
    case Return =>
      b.(act := b.act[t := Free], outs := b.outs + [Out(b.act[t].gen, t, b.act[t].Last?)])
  }

  ghost predicate CanStep(cfg: Config, b: B, count: nat, c: Chan, op: Op) {
    && Shape(b.s) && |b.act| == |b.s.pc| && Enabled(b, count, c, op)
    && forall l :: l in Steps(c, op) ==> Guard(b.s, l) && Asserts(cfg, b.s, l)
  }

  ghost function Next(cfg: Config, b: B, count: nat, c: Chan, op: Op): B
    requires CanStep(cfg, b, count, c, op)
  {
    Effect(b, op, if Steps(c, op) == [] then b.s else Apply(cfg, b.s, Steps(c, op)[0]))
  }

  // ----- the invariant --------------------------------------------------------------

  ghost predicate ThreadOk(b: B, c: Chan, t: Tid)
    requires Shape(b.s) && |b.act| == |b.s.pc| && t < |b.act|
  {
    var w := b.s.h.core.waits[t];
    var waiting := t in b.s.h.core.waitq && w.chan == c;
    && (b.act[t].Inside? ==>
          && b.s.pc[t] == Wanting && t !in b.s.h.pending && t != IDLE
          && (if t in b.s.h.core.waitq then waiting && w.timeout == FOREVER && b.act[t].gen == |b.past|
              else b.act[t].gen < |b.past|))
    && (b.act[t].Last? ==> b.act[t].gen < |b.past| && !waiting)
    && (waiting <==> t in b.now)
    && (waiting ==> b.act[t].Inside?)
  }

  ghost predicate CountOk(b: B, count: nat) {
    && b.narrived == |b.now| < count && NoDup(b.now)
    && (forall g :: 0 <= g < |b.past| ==> |b.past[g]| == count && NoDup(b.past[g]))
  }

  /** Thread `t` has still to return from generation `g`. */
  ghost predicate Due(b: B, g: nat, t: Tid) {
    t < |b.act| && b.act[t] != Free && b.act[t].gen == g
  }

  ghost predicate Back(b: B, g: nat, t: Tid) {
    exists i :: 0 <= i < |b.outs| && b.outs[i].gen == g && b.outs[i].t == t
  }

  ghost predicate HistoryOk(b: B, count: nat) {
    && (forall i :: 0 <= i < |b.outs| ==> OutOk(b, b.outs[i]))
    && (forall i, j :: 0 <= i < j < |b.outs| ==> b.outs[i].gen != b.outs[j].gen || b.outs[i].t != b.outs[j].t)
    && (forall t :: 0 <= t < |b.act| && b.act[t] != Free && b.act[t].gen < |b.past| ==>
          OutOk(b, Out(b.act[t].gen, t, b.act[t].Last?)) && !Back(b, b.act[t].gen, t))
    && (forall g, t :: 0 <= g < |b.past| && t in b.past[g] ==> Due(b, g, t) || Back(b, g, t))
  }

  /** A result that belongs to a finished generation, serial for its last thread only. */
  ghost predicate OutOk(b: B, o: Out) {
    && o.gen < |b.past| && o.t in b.past[o.gen]
    && (o.serial <==> o.t == b.past[o.gen][|b.past[o.gen]| - 1])
  }

  ghost predicate BarInv(cfg: Config, b: B, count: nat, c: Chan) {
    && Inv(cfg, b.s) && |b.act| == |b.s.pc|
    && (forall t :: t in b.now ==> t < |b.act|)
    && (forall t :: 0 <= t < |b.act| ==> ThreadOk(b, c, t))
    && CountOk(b, count) && HistoryOk(b, count)
  }

  // ----- the steps keep it -------------------------------------------------------------

  lemma ThreadFramed(b: B, c: Chan, l: Label, s': State, t: Tid)
    requires c.Object? && t < |b.act| && Shape(b.s) && |b.act| == |b.s.pc|
    requires Guard(b.s, l) && Frame(b.s, l, s') && ThreadOk(b, c, t) && s'.h.core.turn <= FOREVER
    requires b.act[t].Inside? && !Background(l) ==> !(b.s.phase.Held? && b.s.phase.t == t)
    requires !(l.WaitOn? && l.ch == c) && !(l.Sig? && l.ch == c)
    requires t == IDLE && t in s'.h.core.waitq ==> s'.h.core.waits[t].chan != c
    ensures ThreadOk(b.(s := s', act := if l.Create? then b.act + [Free] else b.act), c, t)
  {
    assert FrameAt(b.s, l, s', t);
    if b.act[t].Inside? {
      NotOwn(b.s, l, t);
    }
  }

  lemma BaseKeeps(cfg: Config, b: B, count: nat, c: Chan, l: Label)
    requires BarInv(cfg, b, count, c) && c.Object? && CanStep(cfg, b, count, c, Base(l))
    ensures BarInv(cfg, Next(cfg, b, count, c, Base(l)), count, c)
  {
    assert l in Steps(c, Base(l));
    StepFrame(cfg, b.s, l);
    BaseFramed(cfg, b, count, c, l, Apply(cfg, b.s, l));
  }

  lemma BaseFramed(cfg: Config, b: B, count: nat, c: Chan, l: Label, s': State)
    requires BarInv(cfg, b, count, c) && c.Object? && Enabled(b, count, c, Base(l)) && Frame(b.s, l, s') && Inv(cfg, s')
    ensures BarInv(cfg, Effect(b, Base(l), s'), count, c)
  {
    var b' := Effect(b, Base(l), s');
    IdleWaits(cfg, s');
    forall t | 0 <= t < |b'.act| ensures ThreadOk(b', c, t) {
      if t < |b.act| {
        assert ThreadOk(b, c, t);
        ThreadFramed(b, c, l, s', t);
      }
    }
    SameHistory(b, b', count);
  }

  lemma SameHistory(b: B, b': B, count: nat)
    requires HistoryOk(b, count) && b'.outs == b.outs && b'.past == b.past && b.act <= b'.act
    requires forall t :: |b.act| <= t < |b'.act| ==> b'.act[t] == Free
    ensures HistoryOk(b', count)
  {
    forall g, t | 0 <= g < |b.past| && t in b.past[g] ensures Due(b', g, t) || Back(b', g, t) {
      assert Due(b, g, t) || Back(b, g, t);
    }
    forall t | 0 <= t < |b'.act| && b'.act[t] != Free && b'.act[t].gen < |b.past|
      ensures OutOk(b', Out(b'.act[t].gen, t, b'.act[t].Last?)) && !Back(b', b'.act[t].gen, t)
    {
      assert b.act[t] == b'.act[t];
    }
  }

  lemma JoinKeeps(cfg: Config, b: B, count: nat, c: Chan, order: seq<Tid>)
    requires BarInv(cfg, b, count, c) && c.Object? && CanStep(cfg, b, count, c, Join(order))
    ensures BarInv(cfg, Next(cfg, b, count, c, Join(order)), count, c)
  {
    var l := WaitOn(c, FOREVER, order);
    assert l in Steps(c, Join(order));
    StepFrame(cfg, b.s, l);
    JoinFramed(cfg, b, count, c, l, Apply(cfg, b.s, l));
  }

  lemma JoinFramed(cfg: Config, b: B, count: nat, c: Chan, l: Label, s': State)
    requires BarInv(cfg, b, count, c) && l.WaitOn? && l.ch == c && l.timeout == FOREVER
    requires Enabled(b, count, c, Join(l.order))
    requires Frame(b.s, l, s') && Inv(cfg, s')
    ensures BarInv(cfg, Effect(b, Join(l.order), s'), count, c)
  {
    var b' := Effect(b, Join(l.order), s');
    var h := b.s.phase.t;
    assert h !in b.now by { assert ThreadOk(b, c, h); }
    NoDupConcat(b.now, [h]);
    forall t | 0 <= t < |b'.act| ensures ThreadOk(b', c, t) {
      assert ThreadOk(b, c, t) && FrameAt(b.s, l, s', t) && ViewOk(cfg, t, ViewOf(s', t));
      if b.act[t].Inside? {
        NotOwn(b.s, l, t);
      }
    }
    JoinHistory(b, b', count, h);
  }

  lemma JoinHistory(b: B, b': B, count: nat, h: Tid)
    requires HistoryOk(b, count) && b'.outs == b.outs && b'.past == b.past
    requires h < |b.act| && b.act[h] == Free && b'.act == b.act[h := Inside(|b.past|)]
    ensures HistoryOk(b', count)
  {
    forall g, t | 0 <= g < |b.past| && t in b.past[g] ensures Due(b', g, t) || Back(b', g, t) {
      assert Due(b, g, t) || Back(b, g, t);
    }
  }

  lemma FillKeeps(cfg: Config, b: B, count: nat, c: Chan)
    requires BarInv(cfg, b, count, c) && c.Object? && CanStep(cfg, b, count, c, Fill)
    ensures BarInv(cfg, Next(cfg, b, count, c, Fill), count, c)
  {
    var l := Sig(c, true);
    assert l in Steps(c, Fill);
    StepFrame(cfg, b.s, l);
    FillFramed(cfg, b, count, c, Apply(cfg, b.s, l));
  }

  lemma FillFramed(cfg: Config, b: B, count: nat, c: Chan, s': State)
    requires BarInv(cfg, b, count, c) && Enabled(b, count, c, Fill)
    requires Frame(b.s, Sig(c, true), s') && Inv(cfg, s')
    ensures BarInv(cfg, Effect(b, Fill, s'), count, c)
  {
    var b' := Effect(b, Fill, s');
    var h := b.s.phase.t;
    assert h !in b.now by { assert ThreadOk(b, c, h); }
    NoDupConcat(b.now, [h]);
    forall t | 0 <= t < |b'.act| ensures ThreadOk(b', c, t) {
      assert ThreadOk(b, c, t) && FrameAt(b.s, Sig(c, true), s', t);
    }
    forall t | t in b.now ensures b.act[t] == Inside(|b.past|) {
      assert ThreadOk(b, c, t);
    }
    forall t | 0 <= t < |b.act| && b.act[t] != Free && t !in b.now ensures b.act[t].gen < |b.past| {
      assert ThreadOk(b, c, t);
    }
    FillHistory(b, b', count, h);
  }

  lemma FillDue(b: B, b': B, h: Tid, g: nat, x: Tid)
    requires b'.outs == b.outs && b'.past == b.past + [b.now + [h]] && g < |b'.past| && x in b'.past[g]
    requires h < |b.act| && b.act[h] == Free && b'.act == b.act[h := Last(|b.past|)]
    requires forall t :: t in b.now ==> t < |b.act| && b.act[t] == Inside(|b.past|)
    requires g < |b.past| ==> Due(b, g, x) || Back(b, g, x)
    ensures Due(b', g, x) || Back(b', g, x)
  {
    if g == |b.past| {
      assert x == h || x in b.now;
    }
  }

  lemma FillHistory(b: B, b': B, count: nat, h: Tid)
    requires HistoryOk(b, count) && b'.outs == b.outs && b'.past == b.past + [b.now + [h]]
    requires h < |b.act| && b.act[h] == Free && b'.act == b.act[h := Last(|b.past|)] && h !in b.now
    requires forall t :: t in b.now ==> t < |b.act| && b.act[t] == Inside(|b.past|)
    requires forall t :: 0 <= t < |b.act| && b.act[t] != Free && t !in b.now ==> b.act[t].gen < |b.past|
    ensures HistoryOk(b', count)
  {
    var n := |b.past|;
    forall i | 0 <= i < |b'.outs| ensures OutOk(b', b'.outs[i]) && b'.outs[i].gen != n {
      assert OutOk(b, b.outs[i]);
    }
    assert b'.past[n][|b'.past[n]| - 1] == h;
    forall t | 0 <= t < |b'.act| && b'.act[t] != Free && b'.act[t].gen < |b'.past|
      ensures OutOk(b', Out(b'.act[t].gen, t, b'.act[t].Last?)) && !Back(b', b'.act[t].gen, t)
    {
      if t != h && t !in b.now {
        assert OutOk(b, Out(b.act[t].gen, t, b.act[t].Last?)) && !Back(b, b.act[t].gen, t);
      }
    }
    forall g, t | 0 <= g < |b'.past| && t in b'.past[g] ensures Due(b', g, t) || Back(b', g, t) {
      assert g < n ==> b'.past[g] == b.past[g];
      FillDue(b, b', h, g, t);
    }
  }

  lemma ReturnKeeps(cfg: Config, b: B, count: nat, c: Chan)
    requires BarInv(cfg, b, count, c) && CanStep(cfg, b, count, c, Return)
    ensures BarInv(cfg, Next(cfg, b, count, c, Return), count, c)
  {
    var b' := Next(cfg, b, count, c, Return);
    var h := b.s.phase.t;
    assert h in b.s.h.core.runq && ThreadOk(b, c, h);
    forall t | 0 <= t < |b'.act| ensures ThreadOk(b', c, t) {
      assert ThreadOk(b, c, t);
    }
    ReturnHistory(b, b', count, h);
  }

  lemma BackAfter(b: B, b': B, o: Out, g: nat, t: Tid)
    requires b'.outs == b.outs + [o]
    ensures Back(b', g, t) <==> Back(b, g, t) || (g == o.gen && t == o.t)
  {
    if Back(b, g, t) {
      var i :| 0 <= i < |b.outs| && b.outs[i].gen == g && b.outs[i].t == t;
      assert b'.outs[i] == b.outs[i];
    }
    assert b'.outs[|b.outs|] == o;
  }

  lemma ReturnHistory(b: B, b': B, count: nat, h: Tid)
    requires HistoryOk(b, count) && h < |b.act| && b.act[h] != Free && b.act[h].gen < |b.past|
    requires b'.past == b.past && b'.act == b.act[h := Free]
    requires b'.outs == b.outs + [Out(b.act[h].gen, h, b.act[h].Last?)]
    ensures HistoryOk(b', count)
  {
    var o := Out(b.act[h].gen, h, b.act[h].Last?);
    assert OutOk(b, o) && !Back(b, o.gen, h);
    forall i | 0 <= i < |b'.outs| ensures OutOk(b', b'.outs[i]) {
      assert OutOk(b, b'.outs[i]);
    }
    forall t | 0 <= t < |b'.act| && b'.act[t] != Free && b'.act[t].gen < |b.past|
      ensures OutOk(b', Out(b'.act[t].gen, t, b'.act[t].Last?)) && !Back(b', b'.act[t].gen, t)
    {
      assert OutOk(b, Out(b.act[t].gen, t, b.act[t].Last?));
      BackAfter(b, b', o, b.act[t].gen, t);
    }
    forall g, t | 0 <= g < |b.past| && t in b.past[g] ensures Due(b', g, t) || Back(b', g, t) {
      assert Due(b, g, t) || Back(b, g, t);
      BackAfter(b, b', o, g, t);
    }
  }

  lemma BarStep(cfg: Config, b: B, count: nat, c: Chan, op: Op)
    requires BarInv(cfg, b, count, c) && c.Object? && CanStep(cfg, b, count, c, op)
    ensures BarInv(cfg, Next(cfg, b, count, c, op), count, c)
  {
    match op
    case Base(l) => BaseKeeps(cfg, b, count, c, l);
    case Join(order) => JoinKeeps(cfg, b, count, c, order);
    case Fill => FillKeeps(cfg, b, count, c);
    case Return => ReturnKeeps(cfg, b, count, c);
  }

  /** No step of a barrier call can fail an assertion: the counter does not
      overflow, and the scheduler's own assertions hold. */
  lemma BarNeverFails(cfg: Config, b: B, count: nat, c: Chan, op: Op)
    requires BarInv(cfg, b, count, c) && Enabled(b, count, c, op)
    ensures CanStep(cfg, b, count, c, op) && (op.Join? || op.Fill? ==> b.narrived + 1 <= count)
  {
    if Steps(c, op) != [] {
      StepSafe(cfg, b.s, Steps(c, op)[0]);
    }
  }

  // ----- the theorem -----------------------------------------------------------------

  ghost predicate BarRun(cfg: Config, b: B, count: nat, c: Chan, ops: seq<Op>, b': B)
    decreases |ops|
  {
    if ops == [] then b == b'
    else CanStep(cfg, b, count, c, ops[0]) && BarRun(cfg, Next(cfg, b, count, c, ops[0]), count, c, ops[1..], b')
  }

  lemma {:induction false} BarRunInv(cfg: Config, b: B, count: nat, c: Chan, ops: seq<Op>, b': B)
    requires BarInv(cfg, b, count, c) && c.Object? && BarRun(cfg, b, count, c, ops, b')
    ensures BarInv(cfg, b', count, c)
    decreases |ops|
  {
    if ops == [] {
    } else {
      BarStep(cfg, b, count, c, ops[0]);
      BarRunInv(cfg, Next(cfg, b, count, c, ops[0]), count, c, ops[1..], b');
    }
  }

  ghost function BarInit(): B {
    B(Init(), 0, [Free], [], [], [])
  }

  lemma BarReach(cfg: Config, count: nat, c: Chan, ops: seq<Op>, b: B)
    requires count >= 1 && c.Object? && BarRun(cfg, BarInit(), count, c, ops, b)
    ensures BarInv(cfg, b, count, c)
  {
    InitInv(cfg);
    BarRunInv(cfg, BarInit(), count, c, ops, b);
  }

  lemma BarHistory(cfg: Config, count: nat, c: Chan, ops: seq<Op>, b: B)
    requires count >= 1 && c.Object? && BarRun(cfg, BarInit(), count, c, ops, b)
    ensures CountOk(b, count) && HistoryOk(b, count)
  {
    BarReach(cfg, count, c, ops, b);
  }

  /** The counter is the number of waiting threads and stays below `count`, so
      it never overflows; every finished generation has `count` distinct threads. */
  lemma BarrierGenerations(cfg: Config, count: nat, c: Chan, ops: seq<Op>, b: B)
    requires count >= 1 && c.Object? && BarRun(cfg, BarInit(), count, c, ops, b)
    ensures b.narrived == |OnChan(b.s.h.core, c)| < count
    ensures forall g :: 0 <= g < |b.past| ==> |b.past[g]| == count && NoDup(b.past[g])
  {
    BarReach(cfg, count, c, ops, b);
    forall t: Tid ensures t in OnChan(b.s.h.core, c) <==> t in b.now {
      if t < |b.act| {
        assert ThreadOk(b, c, t);
      }
    }
    assert OnChan(b.s.h.core, c) == Elems(b.now);
    NoDupSize(b.now);
  }

  /** Nobody returns before its generation is complete, nobody returns from a
      generation twice, and exactly its last arrival is told
      PTHREAD_BARRIER_SERIAL_THREAD. */
  ghost predicate ReturnsOk(b: B, count: nat) {
    && (forall g :: 0 <= g < |b.past| ==> |b.past[g]| == count > 0)
    && (forall i :: 0 <= i < |b.outs| ==>
          && b.outs[i].gen < |b.past| && b.outs[i].t in b.past[b.outs[i].gen]
          && (b.outs[i].serial <==> b.outs[i].t == b.past[b.outs[i].gen][count - 1]))
    && (forall i, j :: 0 <= i < j < |b.outs| ==> b.outs[i].gen != b.outs[j].gen || b.outs[i].t != b.outs[j].t)
  }

  lemma HistoryReturns(b: B, count: nat)
    requires CountOk(b, count) && HistoryOk(b, count)
    ensures ReturnsOk(b, count)
  {
    forall i | 0 <= i < |b.outs| ensures OutOk(b, b.outs[i]) {
    }
  }

  lemma OneSerialEach(cfg: Config, count: nat, c: Chan, ops: seq<Op>, b: B)
    requires count >= 1 && c.Object? && BarRun(cfg, BarInit(), count, c, ops, b)
    ensures ReturnsOk(b, count)
  {
    BarHistory(cfg, count, c, ops, b);
    HistoryReturns(b, count);
  }

  /** Everybody in a finished generation has returned or is off the barrier's
      wait queue, about to return. */
  lemma EveryoneReleased(cfg: Config, count: nat, c: Chan, ops: seq<Op>, b: B, g: nat, t: Tid)
    requires count >= 1 && c.Object? && BarRun(cfg, BarInit(), count, c, ops, b)
    requires g < |b.past| && t in b.past[g]
    ensures Back(b, g, t) <==> !Due(b, g, t)
    ensures Due(b, g, t) ==> t !in OnChan(b.s.h.core, c)
  {
    BarReach(cfg, count, c, ops, b);
    assert Due(b, g, t) || Back(b, g, t);
    if Due(b, g, t) {
      assert ThreadOk(b, c, t);
    }
  }

  // ----- what the turn holder does next ------------------------------------------------

  /** An arriving holder fills the barrier exactly when it is the last of `count`,
      and waits otherwise; one that is due returns. */
  lemma HolderBranches(b: B, count: nat, c: Chan, order: seq<Tid>)
    requires Shape(b.s) && |b.act| == |b.s.pc| && c.Object? && HolderIs(b.s, Wanting) && b.s.phase.t != IDLE
    requires Launched(b.s) && IsOrder(order, b.s.h.pending) && b.s.h.core.turn < FOREVER
    ensures var act := b.act[b.s.phase.t];
            && (Enabled(b, count, c, Fill) <==> act == Free && b.narrived + 1 == count)
            && (Enabled(b, count, c, Join(order)) <==> act == Free && b.narrived + 1 != count)
            && (Enabled(b, count, c, Return) <==> act != Free)
  {
  }

  lemma OthersFree(b: B, count: nat, c: Chan, l: Label)
    requires Shape(b.s) && |b.act| == |b.s.pc| && Guard(b.s, l) && !(l.Sig? && l.ch == c) && !(l.WaitOn? && l.ch == c)
    requires l.Start? ==> l.t < |b.act| && b.act[l.t] == Free
    ensures Background(l) ==> Enabled(b, count, c, Base(l))
    ensures b.s.phase.Held? && b.s.phase.t < |b.act| && b.act[b.s.phase.t] == Free ==> Enabled(b, count, c, Base(l))
  {
  }
}
