/** Bounded non-determinism, told on the fields of the state: when a thread that
    is outside is put back into the run queue, and how soon. */
module ClockBound {
  import opened Queues
  import opened SchedCore
  import opened SchedSpec
  import opened Protocol
  import opened ProtocolInv
  import opened ProtocolSteps
  import opened ProtocolTheorems
  import opened WaitFrame

  /** The non-det set is not empty and its first thread left more than the bound
      before the present turn. */
  ghost predicate Overdue(cfg: Config, s: State) {
    && cfg.bound.Within? && s.h.nds.list != [] && s.h.nds.list[0] in s.h.nds.clock
    && s.h.core.turn > s.h.nds.clock[s.h.nds.list[0]] + cfg.bound.turns
  }

  /** The first thread of the set is the last of the run queue and out of the set;
      nobody else outside moves. */
  ghost predicate PutBackFirst(s: State, s': State)
    requires s.h.nds.list != []
  {
    var d, d', q' := s.h.nds, s'.h.nds, s'.h.core.runq;
    && q' != [] && q'[|q'| - 1] == d.list[0]
    && d'.list == d.list[1..] && d.list[0] !in d'.clock
    && (forall u :: u in d'.list ==> u !in q' && u in d'.clock && u in d.clock && d'.clock[u] == d.clock[u])
  }

  ghost predicate NobodyPutBack(s: State, s': State) {
    s'.h.nds == s.h.nds && forall u :: u in s.h.nds.list ==> u !in s'.h.core.runq
  }

  /** The list without its first thread. */
  lemma FirstErased(d: NonDet, turn: nat)
    requires NonDetOk(d, turn) && d.list != []
    ensures var d' := d.Erase({d.list[0]});
            && d'.list == d.list[1..] && d.list[0] !in d'.clock && d.list[0] in d.clock
            && forall u :: u in d'.list ==> u != d.list[0] && u in d'.clock && u in d.clock && d'.clock[u] == d.clock[u]
  {
    NoDupTail(d.list);
    RejectNone(d.list[1..], {d.list[0]});
  }

  /** putTurn and thread end put the thread of smallest clock back exactly when the
      bound is passed: turn > clock + bound. */
  lemma PutBackExactly(cfg: Config, s: State, l: Label)
    requires Inv(cfg, s) && Guard(s, l) && Asserts(cfg, s, l) && (l.PutTurn? || l.End?)
    ensures Overdue(cfg, s) ==> PutBackFirst(s, Apply(cfg, s, l))
    ensures !Overdue(cfg, s) ==> NobodyPutBack(s, Apply(cfg, s, l))
    ensures cfg.bound.Within? ==> forall u :: u in s.h.nds.list ==>
              && s.h.nds.list[0] in s.h.nds.clock && u in s.h.nds.clock
              && s.h.nds.clock[s.h.nds.list[0]] <= s.h.nds.clock[u]
  {
    NonDetOutside(cfg, s);
    forall u | u in s.h.nds.list
      ensures s.h.nds.list[0] in s.h.nds.clock && u in s.h.nds.clock
      ensures s.h.nds.clock[s.h.nds.list[0]] <= s.h.nds.clock[u]
    {
      assert s.h.nds.list[0] in s.h.nds.list;
      var i :| 0 <= i < |s.h.nds.list| && s.h.nds.list[i] == u;
    }
    if s.h.nds.list != [] {
      FirstErased(s.h.nds, s.h.core.turn);
    }
    if l.PutTurn? {
      PutKeepsOutside(cfg, s);
    } else {
      EndKeepsOutside(cfg, s);
    }
  }

  lemma PutKeepsOutside(cfg: Config, s: State)
    requires Inv(cfg, s) && Guard(s, PutTurn) && Asserts(cfg, s, PutTurn)
    requires forall u :: u in s.h.nds.list ==> u !in s.h.core.runq
    requires s.h.nds.list != [] ==>
               && s.h.nds.Erase({s.h.nds.list[0]}).list == s.h.nds.list[1..]
               && forall u :: u in s.h.nds.list[1..] ==> u != s.h.nds.list[0]
    ensures var s' := Apply(cfg, s, PutTurn);
            && (Overdue(cfg, s) ==>
                  && s'.h.core.runq == s.h.core.runq[1..] + [s.phase.t] + [s.h.nds.list[0]]
                  && s'.h.nds == s.h.nds.Erase({s.h.nds.list[0]})
                  && forall u :: u in s'.h.nds.list ==> u !in s'.h.core.runq)
            && (!Overdue(cfg, s) ==>
                  && s'.h.core.runq == s.h.core.runq[1..] + [s.phase.t] && s'.h.nds == s.h.nds
                  && forall u :: u in s'.h.nds.list ==> u !in s'.h.core.runq)
  {
    assert s.phase.t in s.h.core.runq;
  }

  lemma EndKeepsOutside(cfg: Config, s: State)
    requires Inv(cfg, s) && Guard(s, End) && Asserts(cfg, s, End)
    requires forall u :: u in s.h.nds.list ==> u !in s.h.core.runq && u !in s.h.core.waitq
    requires s.h.nds.list != [] ==>
               && s.h.nds.Erase({s.h.nds.list[0]}).list == s.h.nds.list[1..]
               && forall u :: u in s.h.nds.list[1..] ==> u != s.h.nds.list[0]
    ensures var s', q := Apply(cfg, s, End), Signal(s.h.core, ThreadEnd(s.phase.t), false).runq;
            && q != []
            && (Overdue(cfg, s) ==>
                  && s'.h.core.runq == q[1..] + [s.h.nds.list[0]] && s'.h.nds == s.h.nds.Erase({s.h.nds.list[0]})
                  && forall u :: u in s'.h.nds.list ==> u !in s'.h.core.runq)
            && (!Overdue(cfg, s) ==>
                  && s'.h.core.runq == q[1..] && s'.h.nds == s.h.nds
                  && forall u :: u in s'.h.nds.list ==> u !in s'.h.core.runq)
  {
    var s1 := EndSignals(cfg, s);
    EndApply(cfg, s);
    EndBound(cfg, s1, s.phase.t);
  }

  lemma EndApply(cfg: Config, s: State)
    requires Shape(s) && Guard(s, End) && Asserts(cfg, s, End)
    ensures var h1 := CheckBound(cfg, Ending(s.h, s.phase.t));
            && h1.core.runq != [] && Apply(cfg, s, End).h.core.runq == h1.core.runq[1..]
            && Apply(cfg, s, End).h.nds == h1.nds
  {
  }

  lemma EndBound(cfg: Config, s1: State, t: Tid)
    requires NonDetOk(s1.h.nds, s1.h.core.turn) && AtFront(s1, t)
    requires forall u :: u in s1.h.nds.list ==> u !in s1.h.core.runq
    requires s1.h.nds.list != [] ==>
               && s1.h.nds.Erase({s1.h.nds.list[0]}).list == s1.h.nds.list[1..]
               && forall u :: u in s1.h.nds.list[1..] ==> u != s1.h.nds.list[0]
    ensures CheckBoundReadable(cfg, s1.h)
    ensures var h1, q := CheckBound(cfg, s1.h), s1.h.core.runq;
            && (Overdue(cfg, s1) ==>
                  && h1.core.runq[1..] == q[1..] + [s1.h.nds.list[0]] && h1.nds == s1.h.nds.Erase({s1.h.nds.list[0]})
                  && forall u :: u in h1.nds.list ==> u !in h1.core.runq)
            && (!Overdue(cfg, s1) ==> h1 == s1.h)
  {
    if s1.h.nds.list != [] {
      assert s1.h.nds.list[0] in s1.h.nds.list;
    }
  }

  // ----- how soon -----------------------------------------------------------------------

  /** A duplicate-free queue keeps a thread that is not taken out, no later than before. */
  lemma {:induction false} RejectPosition(q: seq<Tid>, hit: set<Tid>, k: nat) returns (k': nat)
    requires k < |q| && q[k] !in hit
    ensures k' <= k && k' < |Reject(q, hit)| && Reject(q, hit)[k'] == q[k]
  {
    if k == 0 {
      k' := 0;
    } else {
      var r := RejectPosition(q[1..], hit, k - 1);
      k' := if q[0] in hit then r else r + 1;
    }
  }

  /** The non-det set only loses members and gains some at the end, and clocks
      never change; a thread that enters has the present turn as its clock. */
  ghost predicate SetGrowsBehind(s: State, s': State, t: Tid, k: nat, k': nat) {
    && k' <= k && k' < |s'.h.nds.list| && s'.h.nds.list[k'] == t
    && t in s.h.nds.clock && t in s'.h.nds.clock && s'.h.nds.clock[t] == s.h.nds.clock[t]
  }

  lemma ErasePosition(d: NonDet, ts: set<Tid>, turn: nat, k: nat) returns (k': nat)
    requires NonDetOk(d, turn) && k < |d.list| && d.list[k] in d.Erase(ts).list
    ensures k' <= k && k' < |d.Erase(ts).list| && d.Erase(ts).list[k'] == d.list[k]
    ensures d.list[k] in d.clock && d.list[k] in d.Erase(ts).clock && d.Erase(ts).clock[d.list[k]] == d.clock[d.list[k]]
  {
    RejectIn(d.list, ts);
    assert d.list[k] in d.list;
    k' := RejectPosition(d.list, ts, k);
  }

  lemma DrainPosition(cfg: Config, h: Sched, order: seq<Tid>, k: nat) returns (k': nat)
    requires NonDetOk(h.nds, h.core.turn) && k < |h.nds.list| && h.nds.list[k] in Drain(cfg, h, order).nds.list
    ensures var d, d' := h.nds, Drain(cfg, h, order).nds;
            && k' <= k && k' < |d'.list| && d'.list[k'] == d.list[k]
            && d.list[k] in d.clock && d.list[k] in d'.clock && d'.clock[d.list[k]] == d.clock[d.list[k]]
  {
    if cfg.bound.Within? {
      k' := ErasePosition(h.nds, Elems(Woken(h, order)), h.core.turn, k);
    } else {
      assert h.nds.list[k] in h.nds.list;
      k' := k;
    }
  }

  lemma CountPosition(cfg: Config, h: Sched, order: seq<Tid>, k: nat) returns (k': nat)
    requires NonDetOk(h.nds, h.core.turn) && k < |h.nds.list| && h.nds.list[k] in IncTurn(cfg, h, order).nds.list
    ensures var d, d' := h.nds, IncTurn(cfg, h, order).nds;
            && k' <= k && k' < |d'.list| && d'.list[k'] == d.list[k]
            && d.list[k] in d.clock && d.list[k] in d'.clock && d'.clock[d.list[k]] == d.clock[d.list[k]]
  {
    NonDetLater(h.nds, h.core.turn, h.core.turn + 1);
    k' := DrainPosition(cfg, h.(core := Tick(h.core)), order, k);
  }

  /** Steps that put nobody back for being overdue. */
  lemma OtherPosition(cfg: Config, s: State, l: Label, t: Tid, k: nat) returns (k': nat)
    requires Inv(cfg, s) && Guard(s, l) && Asserts(cfg, s, l) && !l.PutTurn? && !l.End?
    requires k < |s.h.nds.list| && s.h.nds.list[k] == t && t in Apply(cfg, s, l).h.nds.list
    ensures SetGrowsBehind(s, Apply(cfg, s, l), t, k, k')
  {
    assert t in s.h.nds.list && t in s.h.nds.clock;
    if l.Inc? || l.WaitOn? {
      k' := CountPosition(cfg, s.h, l.order, k);
    } else if l.DrainWakeups? {
      k' := DrainPosition(cfg, s.h, l.order, k);
    } else if l.Block? {
      k' := BlockPosition(cfg, s, l.order, k);
    } else if l.Look? {
      LookPosition(cfg, s, t, k);
      k' := k;
    } else {
      SetUntouched(cfg, s, l);
      k' := k;
    }
  }

  lemma SetUntouched(cfg: Config, s: State, l: Label)
    requires Shape(s) && Guard(s, l) && Asserts(cfg, s, l)
    requires !l.PutTurn? && !l.End? && !l.Inc? && !l.WaitOn? && !l.DrainWakeups? && !l.Block? && !l.Look?
    ensures Apply(cfg, s, l).h.nds == s.h.nds
  {
  }

  lemma BlockPosition(cfg: Config, s: State, order: seq<Tid>, k: nat) returns (k': nat)
    requires Inv(cfg, s) && Guard(s, Block(order)) && Asserts(cfg, s, Block(order))
    requires k < |s.h.nds.list| && s.h.nds.list[k] in Apply(cfg, s, Block(order)).h.nds.list
    ensures SetGrowsBehind(s, Apply(cfg, s, Block(order)), s.h.nds.list[k], k, k')
  {
    var t := s.phase.t;
    assert t in s.h.core.runq;
    var s0 := EnterViews(cfg, s, t);
    assert s.h.nds.list[k] in s.h.nds.list && s0.h.nds.list[k] == s.h.nds.list[k];
    k' := CountPosition(cfg, s0.h, order, k);
    BlockSet(cfg, s, order);
  }

  lemma BlockSet(cfg: Config, s: State, order: seq<Tid>)
    requires Shape(s) && Guard(s, Block(order)) && Asserts(cfg, s, Block(order))
    ensures var d := if cfg.bound.Within? then s.h.nds.Insert(s.phase.t, s.h.core.turn) else s.h.nds;
            Apply(cfg, s, Block(order)).h.nds == IncTurn(cfg, s.h.(nds := d), order).nds
  {
  }

  lemma LookPosition(cfg: Config, s: State, t: Tid, k: nat)
    requires Inv(cfg, s) && Guard(s, Look) && Asserts(cfg, s, Look)
    requires k < |s.h.nds.list| && s.h.nds.list[k] == t
    ensures SetGrowsBehind(s, Apply(cfg, s, Look), t, k, k)
  {
    assert t in s.h.nds.list;
  }

  /** `t` is in the non-det set in every state of the run. */
  ghost predicate StaysOut(cfg: Config, s: State, ls: seq<Label>, t: Tid)
    decreases |ls|
  {
    && t in s.h.nds.list
    && (ls != [] && Shape(s) && Guard(s, ls[0]) && Asserts(cfg, s, ls[0]) ==>
          StaysOut(cfg, Apply(cfg, s, ls[0]), ls[1..], t))
  }

  ghost function PutCount(ls: seq<Label>): nat {
    if ls == [] then 0 else (if ls[0].PutTurn? || ls[0].End? then 1 else 0) + PutCount(ls[1..])
  }

  /** Thread `t` left more than the bound before the present turn. */
  ghost predicate PastBound(cfg: Config, s: State, t: Tid) {
    cfg.bound.Within? && t in s.h.nds.clock && s.h.core.turn > s.h.nds.clock[t] + cfg.bound.turns
  }

  lemma PutPosition(cfg: Config, s: State, l: Label, t: Tid, k: nat)
    requires Inv(cfg, s) && Guard(s, l) && Asserts(cfg, s, l) && (l.PutTurn? || l.End?)
    requires k < |s.h.nds.list| && s.h.nds.list[k] == t && PastBound(cfg, s, t) && t in Apply(cfg, s, l).h.nds.list
    ensures k > 0 && SetGrowsBehind(s, Apply(cfg, s, l), t, k, k - 1)
  {
    PutBackExactly(cfg, s, l);
    NoDupTail(s.h.nds.list);
    assert t in s.h.nds.list;
  }

  /** Once its bound has passed, a thread at position `k` of the non-det set is in
      the run queue again within `k + 1` turns put or threads ended. */
  lemma {:induction false} BackWithin(cfg: Config, s: State, ls: seq<Label>, s': State, t: Tid, k: nat)
    requires Inv(cfg, s) && Reaches(cfg, s, ls, s') && StaysOut(cfg, s, ls, t)
    requires k < |s.h.nds.list| && s.h.nds.list[k] == t && PastBound(cfg, s, t)
    ensures PutCount(ls) <= k
    decreases |ls|
  {
    if ls == [] {
      assert PutCount(ls) == 0;
    } else {
      var k1 := BackStep(cfg, s, ls[0], t, k);
      BackWithin(cfg, Apply(cfg, s, ls[0]), ls[1..], s', t, k1);
    }
  }

  lemma BackStep(cfg: Config, s: State, l: Label, t: Tid, k: nat) returns (k1: nat)
    requires Inv(cfg, s) && Guard(s, l) && Asserts(cfg, s, l) && t in Apply(cfg, s, l).h.nds.list
    requires k < |s.h.nds.list| && s.h.nds.list[k] == t && PastBound(cfg, s, t)
    ensures var s1 := Apply(cfg, s, l);
            && Inv(cfg, s1) && k1 < |s1.h.nds.list| && s1.h.nds.list[k1] == t && PastBound(cfg, s1, t)
            && k1 + (if l.PutTurn? || l.End? then 1 else 0) <= k
  {
    StepFrame(cfg, s, l);
    if l.PutTurn? || l.End? {
      PutPosition(cfg, s, l, t, k);
      k1 := k - 1;
    } else {
      k1 := OtherPosition(cfg, s, l, t, k);
    }
  }

  /** Leaving the set is being queued again. */
  lemma OutOfTheSet(cfg: Config, s: State, l: Label, t: Tid)
    requires Inv(cfg, s) && cfg.bound.Within? && Guard(s, l) && Asserts(cfg, s, l)
    requires t in s.h.nds.list && t !in Apply(cfg, s, l).h.nds.list
    ensures t in Apply(cfg, s, l).h.core.runq
  {
    StepFrame(cfg, s, l);
    var s' := Apply(cfg, s, l);
    assert ViewOk(cfg, t, ViewOf(s, t)) && ViewOk(cfg, t, ViewOf(s', t)) && FrameAt(s, l, s', t);
    OutsideLives(cfg, s, l, s', t);
  }

  lemma OutsideLives(cfg: Config, s: State, l: Label, s': State, t: Tid)
    requires Inv(cfg, s) && Guard(s, l) && Asserts(cfg, s, l)
    requires s' == Apply(cfg, s, l) && Shape(s') && |s.pc| <= |s'.pc|
    requires t in s.h.nds.list && t < |s.pc|
    ensures s'.pc[t] != Ended && !Parks(s, l, t)
  {
    assert ViewOk(cfg, t, ViewOf(s, t));
  }

  /** A thread that enters the set has the turn at which it left as its clock. */
  lemma EntersNow(cfg: Config, s: State, l: Label, t: Tid)
    requires Inv(cfg, s) && cfg.bound.Within? && Guard(s, l) && Asserts(cfg, s, l)
    requires t !in s.h.nds.list && t in Apply(cfg, s, l).h.nds.list
    ensures var d' := Apply(cfg, s, l).h.nds;
            (l.Block? || l.Look?) && t in d'.clock && d'.clock[t] == s.h.core.turn && d'.list[|d'.list| - 1] == t
  {
    if l.Block? {
      BlockEnters(cfg, s, l.order, t);
    } else if l.Look? {
      LookEnters(cfg, s, t);
    } else {
      NobodyEnters(cfg, s, l, t);
    }
  }

  lemma CountErases(cfg: Config, h: Sched, order: seq<Tid>, t: Tid)
    ensures t in IncTurn(cfg, h, order).nds.list ==> t in h.nds.list
    ensures t in Drain(cfg, h, order).nds.list ==> t in h.nds.list
    ensures t in IncTurn(cfg, h, order).nds.clock ==>
              t in h.nds.clock && IncTurn(cfg, h, order).nds.clock[t] == h.nds.clock[t]
  {
    RejectIn(h.nds.list, Elems(Woken(h.(core := Tick(h.core)), order)));
    RejectIn(h.nds.list, Elems(Woken(h, order)));
  }

  lemma NobodyEnters(cfg: Config, s: State, l: Label, t: Tid)
    requires Inv(cfg, s) && Guard(s, l) && Asserts(cfg, s, l) && !l.Block? && !l.Look?
    ensures t in Apply(cfg, s, l).h.nds.list ==> t in s.h.nds.list
  {
    if l.Inc? || l.WaitOn? || l.DrainWakeups? {
      CountErases(cfg, s.h, l.order, t);
      CountedSet(cfg, s, l);
    } else if l.PutTurn? || l.End? {
      PutBackExactly(cfg, s, l);
      if s.h.nds.list != [] {
        assert t in s.h.nds.list[1..] ==> t in s.h.nds.list;
      }
    } else {
      SetUntouched(cfg, s, l);
    }
  }

  lemma CountedSet(cfg: Config, s: State, l: Label)
    requires Shape(s) && Guard(s, l) && Asserts(cfg, s, l) && (l.Inc? || l.WaitOn? || l.DrainWakeups?)
    ensures Apply(cfg, s, l).h.nds ==
            if l.DrainWakeups? then Drain(cfg, s.h, l.order).nds else IncTurn(cfg, s.h, l.order).nds
  {
  }

  lemma BlockEnters(cfg: Config, s: State, order: seq<Tid>, t: Tid)
    requires Inv(cfg, s) && cfg.bound.Within? && Guard(s, Block(order)) && Asserts(cfg, s, Block(order))
    requires t !in s.h.nds.list && t in Apply(cfg, s, Block(order)).h.nds.list
    ensures var d' := Apply(cfg, s, Block(order)).h.nds;
            t in d'.clock && d'.clock[t] == s.h.core.turn && d'.list[|d'.list| - 1] == t
  {
    var h0 := s.h.(nds := s.h.nds.Insert(s.phase.t, s.h.core.turn));
    BlockSet(cfg, s, order);
    CountErases(cfg, h0, order, t);
    assert t == s.phase.t;
    StepSafe(cfg, s, Block(order));
    var woken := Elems(Woken(h0.(core := Tick(h0.core)), order));
    RejectConcat(s.h.nds.list, [t], woken);
    RejectIn(s.h.nds.list, woken);
    assert Reject([t], woken) == if t in woken then [] else [t];
  }

  lemma LookEnters(cfg: Config, s: State, t: Tid)
    requires Inv(cfg, s) && cfg.bound.Within? && Guard(s, Look) && Asserts(cfg, s, Look)
    requires t !in s.h.nds.list && t in Apply(cfg, s, Look).h.nds.list
    ensures var d' := Apply(cfg, s, Look).h.nds;
            t in d'.clock && d'.clock[t] == s.h.core.turn && d'.list[|d'.list| - 1] == t
  {
  }
}
