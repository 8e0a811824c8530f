/** What the steps do to the queues and to the non-det set, told on the fields of
    the state: positions, limits, channels and clocks. */
module Effects {
  import opened Queues
  import opened SchedCore
  import opened SchedSpec
  import opened Protocol
  import opened ProtocolInv
  import opened ProtocolSteps
  import opened ProtocolTheorems
  import opened WaitFrame

  // ----- counting a turn: timeouts first, then wake-ups -----------------------------------

  /** The limit of waiting thread `t` is passed when the counter is incremented. */
  ghost predicate TimesOut(s: State, t: Tid) {
    t in s.h.core.waitq && t < |s.h.core.waits| && s.h.core.waits[t].timeout <= s.h.core.turn
  }

  /** Thread `t` is outside and has called wakeup(). */
  ghost predicate ComesBack(s: State, t: Tid) {
    t in s.h.pending && t !in s.h.core.runq
  }

  /** The step takes the front thread `t` out of the run queue. */
  ghost predicate Leaves(s: State, l: Label, t: Tid) {
    (l.WaitOn? || l.Block?) && AtFront(s, t)
  }

  ghost predicate Remains(s: State, l: Label, t: Tid) {
    t in s.h.core.runq && !Leaves(s, l, t)
  }

  /** Where threads `a` and `b` stand in the run queue `q` after a counted turn:
      who remains, in order; then who timed out, in the order of the wait queue;
      then who came back. */
  ghost predicate PairInOrder(s: State, l: Label, q: seq<Tid>, a: Tid, b: Tid) {
    && (a in q <==> Remains(s, l, a) || TimesOut(s, a) || ComesBack(s, a))
    && (Remains(s, l, a) && Remains(s, l, b) ==> (Before(q, a, b) <==> Before(s.h.core.runq, a, b)))
    && (Remains(s, l, a) && (TimesOut(s, b) || ComesBack(s, b)) ==> Before(q, a, b))
    && (TimesOut(s, a) && TimesOut(s, b) ==> (Before(q, a, b) <==> Before(s.h.core.waitq, a, b)))
    && (TimesOut(s, a) && ComesBack(s, b) ==> Before(q, a, b))
  }

  ghost predicate QueuedInOrder(s: State, l: Label, q: seq<Tid>) {
    NoDup(q) && forall a: Tid, b: Tid :: PairInOrder(s, l, q, a, b)
  }

  /** The queue right after incTurnCount, before the caller leaves it. */
  ghost function Counted(cfg: Config, s: State, order: seq<Tid>): seq<Tid> {
    IncTurn(cfg, s.h, order).core.runq
  }

  /** Who times out, in the order of the wait queue. */
  ghost function Late(s: State): seq<Tid> {
    Select(s.h.core.waitq, Expired(s.h.core.(turn := s.h.core.turn + 1)))
  }

  lemma LateAre(s: State)
    ensures forall t :: t in Late(s) <==> TimesOut(s, t)
    ensures forall a, b :: TimesOut(s, a) && TimesOut(s, b) ==>
              (Before(Late(s), a, b) <==> Before(s.h.core.waitq, a, b))
  {
    var due := Expired(s.h.core.(turn := s.h.core.turn + 1));
    SelectIn(s.h.core.waitq, due);
    forall a, b | TimesOut(s, a) && TimesOut(s, b) ensures Before(Late(s), a, b) <==> Before(s.h.core.waitq, a, b) {
      BeforeSplit(s.h.core.waitq, due, a, b);
    }
  }

  lemma CountedIs(cfg: Config, s: State, order: seq<Tid>)
    ensures Tick(s.h.core).runq == s.h.core.runq + Late(s)
    ensures Counted(cfg, s, order) == Tick(s.h.core).runq + Woken(s.h.(core := Tick(s.h.core)), order)
  {
  }

  lemma BackAre(cfg: Config, s: State, order: seq<Tid>) returns (back: seq<Tid>)
    requires Sane(s.h.core) && NonDetOk(s.h.nds, s.h.core.turn) && IsOrder(order, s.h.pending)
    requires forall t :: t in s.h.pending ==> t < |s.h.core.waits| && t !in s.h.core.waitq
    ensures Counted(cfg, s, order) == s.h.core.runq + Late(s) + back && NoDup(Counted(cfg, s, order))
    ensures forall t :: t in back <==> ComesBack(s, t)
  {
    var h1 := s.h.(core := Tick(s.h.core));
    back := Woken(h1, order);
    CountedIs(cfg, s, order);
    LateAre(s);
    TickSane(s.h.core);
    NonDetLater(s.h.nds, s.h.core.turn, s.h.core.turn + 1);
    BackFacts(cfg, h1, order);
  }

  lemma BackFacts(cfg: Config, h: Sched, order: seq<Tid>)
    requires Sane(h.core) && NonDetOk(h.nds, h.core.turn) && IsOrder(order, h.pending)
    requires forall t :: t in h.pending ==> t < |h.core.waits| && t !in h.core.waitq
    ensures NoDup(h.core.runq + Woken(h, order))
    ensures forall t :: t in Woken(h, order) <==> t in h.pending && t !in h.core.runq
  {
    DrainFacts(cfg, h, order);
  }

  /** The three parts of the queue stand in their order. */
  lemma CountedPair(q: seq<Tid>, late: seq<Tid>, back: seq<Tid>, a: Tid, b: Tid)
    requires NoDup(q + late + back)
    ensures a in q && b in q ==> (Before(q + late + back, a, b) <==> Before(q, a, b))
    ensures a in q && (b in late || b in back) ==> Before(q + late + back, a, b)
    ensures a in late && b in late ==> (Before(q + late + back, a, b) <==> Before(late, a, b))
    ensures a in late && b in back ==> Before(q + late + back, a, b)
  {
    BeforeConcat(q + late, back, a, b);
    BeforeConcat(q, late, a, b);
    assert q + late + back == q + (late + back);
    Apart(q, late + back, a);
    Apart(q, late + back, b);
    Apart(q + late, back, a);
    Apart(q + late, back, b);
    OnlyIn(q, a, b);
    OnlyIn(late, a, b);
    OnlyIn(back, a, b);
  }

  lemma Apart(p: seq<Tid>, q: seq<Tid>, t: Tid)
    requires NoDup(p + q)
    ensures !(t in p && t in q)
  {
    if t in p {
      var i :| 0 <= i < |p| && p[i] == t;
      assert (p + q)[i] == t;
      forall j | 0 <= j < |q| ensures q[j] != t {
        assert (p + q)[|p| + j] == q[j];
      }
    }
  }

  lemma OnlyIn(q: seq<Tid>, a: Tid, b: Tid)
    ensures Before(q, a, b) ==> a in q && b in q
  {
  }

  lemma CountedInOrder(cfg: Config, s: State, order: seq<Tid>, a: Tid, b: Tid)
    requires Inv(cfg, s) && IsOrder(order, s.h.pending)
    ensures var q := Counted(cfg, s, order);
            && NoDup(q) && s.h.core.runq <= q
            && (a in q <==> a in s.h.core.runq || TimesOut(s, a) || ComesBack(s, a))
            && (a in s.h.core.runq && b in s.h.core.runq ==> (Before(q, a, b) <==> Before(s.h.core.runq, a, b)))
            && (a in s.h.core.runq && (TimesOut(s, b) || ComesBack(s, b)) ==> Before(q, a, b))
            && (TimesOut(s, a) && TimesOut(s, b) ==> (Before(q, a, b) <==> Before(s.h.core.waitq, a, b)))
            && (TimesOut(s, a) && ComesBack(s, b) ==> Before(q, a, b))
  {
    PendingFacts(cfg, s);
    LateAre(s);
    var back := BackAre(cfg, s, order);
    CountedPair(s.h.core.runq, Late(s), back, a, b);
  }

  /** incTurnCount: whoever timed out stands behind the old queue, in the order of
      the wait queue, and before everybody check_wakeup re-queues. */
  lemma TimeoutsBeforeWakeups(cfg: Config, s: State, l: Label)
    requires Inv(cfg, s) && Guard(s, l) && Asserts(cfg, s, l) && Ticks(l)
    ensures QueuedInOrder(s, l, Apply(cfg, s, l).h.core.runq)
  {
    var q := Apply(cfg, s, l).h.core.runq;
    forall a: Tid, b: Tid ensures PairInOrder(s, l, q, a, b) {
      PairCounted(cfg, s, l, a, b);
    }
    PairCounted(cfg, s, l, 0, 0);
  }

  lemma PairCounted(cfg: Config, s: State, l: Label, a: Tid, b: Tid)
    requires Inv(cfg, s) && Guard(s, l) && Asserts(cfg, s, l) && Ticks(l)
    ensures PairInOrder(s, l, Apply(cfg, s, l).h.core.runq, a, b) && NoDup(Apply(cfg, s, l).h.core.runq)
  {
    TickedQueue(cfg, s, l);
    HolderInFront(cfg, s, l);
    PairInQueue(cfg, s, l, Apply(cfg, s, l).h.core.runq, a, b);
  }

  lemma HolderInFront(cfg: Config, s: State, l: Label)
    requires Inv(cfg, s) && Guard(s, l) && Ticks(l)
    ensures s.h.core.runq != [] && IsOrder(l.order, s.h.pending)
    ensures !TimesOut(s, s.h.core.runq[0]) && !ComesBack(s, s.h.core.runq[0])
  {
    assert s.h.core.runq[0] in s.h.core.runq;
  }

  lemma PairInQueue(cfg: Config, s: State, l: Label, q: seq<Tid>, a: Tid, b: Tid)
    requires Inv(cfg, s) && Ticks(l) && IsOrder(l.order, s.h.pending) && s.h.core.runq != []
    requires !TimesOut(s, s.h.core.runq[0]) && !ComesBack(s, s.h.core.runq[0])
    requires q == if l.Inc? then Counted(cfg, s, l.order) else Counted(cfg, s, l.order)[1..]
    requires Counted(cfg, s, l.order) != []
    ensures PairInOrder(s, l, q, a, b) && NoDup(q)
  {
    CountedInOrder(cfg, s, l.order, a, b);
    if !l.Inc? {
      NoDupTail(Counted(cfg, s, l.order));
      BeforeCons(Counted(cfg, s, l.order), a, b);
    }
  }

  /** wait() and block() take the front thread out of the counted queue. */
  lemma TickedQueue(cfg: Config, s: State, l: Label)
    requires Shape(s) && Guard(s, l) && Asserts(cfg, s, l) && Ticks(l)
    ensures Apply(cfg, s, l).h.core.runq ==
            if l.Inc? then Counted(cfg, s, l.order) else Counted(cfg, s, l.order)[1..]
    ensures !l.Inc? ==> Counted(cfg, s, l.order) != []
  {
  }
}
