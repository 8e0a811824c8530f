/** The part of the round-robin scheduler that only the thread holding the
    turn touches: run queue, wait queue, per-thread wait records and the turn
    counter.  Every wake-up is an instance of `Move`. */
module SchedCore {
  import opened Queues

  const MAIN: Tid := 0   // MainThreadTid
  const IDLE: Tid := 1   // IdleThreadTid
  const FOREVER: nat := 0xFFFF_FFFF
  const ETIMEDOUT: int := 110

  /** What a thread can wait on: the address passed to wait() and signal(). */
  datatype Chan = Null | IdleCond | NonDetCV | ThreadEnd(t: Tid) | Object(addr: nat)

  /** wait_t.  `sem` is the semaphore relay, `wakenUp` the boolean relay. */
  datatype Wait = Wait(chan: Chan, timeout: nat, status: int, sem: nat, wakenUp: bool) {

    function Reset(st: int): Wait {
      this.(chan := Null, timeout := FOREVER, status := st, wakenUp := false)
    }

    function Post(): Wait {
      this.(sem := sem + 1, wakenUp := true)
    }

    function Consume(): Wait
      requires sem > 0
    {
      this.(sem := sem - 1, wakenUp := false)
    }
  }

  const FRESH_WAIT := Wait(Null, FOREVER, 0, 0, false)

  datatype Core = Core(runq: seq<Tid>, waitq: seq<Tid>, waits: seq<Wait>, turn: nat)

  /** Both queues are duplicate-free, disjoint, and hold known threads only. */
  ghost predicate Sane(c: Core) {
    && NoDup(c.runq) && NoDup(c.waitq)
    && (forall t :: t in c.runq ==> t < |c.waits|)
    && (forall t :: t in c.waitq ==> t < |c.waits| && t !in c.runq)
  }

  function ResetAll(waits: seq<Wait>, hit: set<Tid>, st: int): (r: seq<Wait>)
    ensures |r| == |waits|
    ensures forall i :: 0 <= i < |waits| ==> r[i] == if i in hit then waits[i].Reset(st) else waits[i]
  {
    seq(|waits|, i requires 0 <= i < |waits| => if i in hit then waits[i].Reset(st) else waits[i])
  }

  /** Take the threads in `hit` off the wait queue, in order, reset their wait
      records and append them to the run queue. */
  function Move(c: Core, hit: set<Tid>, st: int): Core {
    c.(runq := c.runq + Select(c.waitq, hit),
    waitq := Reject(c.waitq, hit),
    waits := ResetAll(c.waits, hit, st))
  }

  /** The waiters on channel `ch`. */
  function OnChan(c: Core, ch: Chan): set<Tid> {
    set t | t in c.waitq && t < |c.waits| && c.waits[t].chan == ch
  }

  /** The waiter on `ch` nearest the front of `q`, if any. */
  function FirstOn(q: seq<Tid>, waits: seq<Wait>, ch: Chan): set<Tid> {
    if q == [] then {}
    else if q[0] < |waits| && waits[q[0]].chan == ch then {q[0]}
    else FirstOn(q[1..], waits, ch)
  }

  /** RRScheduler::signal. */
  function Signal(c: Core, ch: Chan, all: bool): Core {
    Move(c, if all then OnChan(c, ch) else FirstOn(c.waitq, c.waits, ch), 0)
  }

  function Expired(c: Core): set<Tid> {
    set t | t in c.waitq && t < |c.waits| && c.waits[t].timeout < c.turn
  }

  /** RRScheduler::fireTimeouts. */
  function FireTimeouts(c: Core): Core {
    Move(c, Expired(c), ETIMEDOUT)
  }

  /** The turn-counter half of RRScheduler::incTurnCount. */
  function Tick(c: Core): Core {
    FireTimeouts(c.(turn := c.turn + 1))
  }

  /** The queue half of RRScheduler::wait: thread `t` records what it waits
      for, joins the wait queue and leaves the front of the run queue. */
  function Park(c: Core, t: Tid, ch: Chan, timeout: nat): Core
    requires c.runq != [] && t < |c.waits|
  {
    c.(runq := c.runq[1..],
    waitq := c.waitq + [t],
    waits := c.waits[t := c.waits[t].(chan := ch, timeout := timeout)])
  }

  /** The queue half of RRScheduler::putTurn. */
  function Rotate(c: Core): Core
    requires c.runq != []
  {
    c.(runq := c.runq[1..] + [c.runq[0]])
  }

  // ----- Move keeps the queues sane ---------------------------------------

  lemma MoveSane(c: Core, hit: set<Tid>, st: int)
    requires Sane(c) && hit <= Elems(c.waitq)
    ensures Sane(Move(c, hit, st))
    ensures forall t :: t in Move(c, hit, st).runq <==> t in c.runq || t in hit
    ensures forall t :: t in Move(c, hit, st).waitq <==> t in c.waitq && t !in hit
  {
    SelectIn(c.waitq, hit);
    RejectIn(c.waitq, hit);
    SelectNoDup(c.waitq, hit);
    RejectNoDup(c.waitq, hit);
    NoDupConcat(c.runq, Select(c.waitq, hit));
  }

  lemma {:induction false} FirstOnIn(q: seq<Tid>, waits: seq<Wait>, ch: Chan)
    ensures forall t :: t in FirstOn(q, waits, ch) ==> t in q && t < |waits| && waits[t].chan == ch
    ensures FirstOn(q, waits, ch) == {} <==> forall t :: t in q && t < |waits| ==> waits[t].chan != ch
    ensures FirstOn(q, waits, ch) == {} || |FirstOn(q, waits, ch)| == 1
  {
    if q == [] {
    } else {
      assert q == [q[0]] + q[1..];
      FirstOnIn(q[1..], waits, ch);
    }
  }

  lemma SignalSane(c: Core, ch: Chan, all: bool) returns (hit: set<Tid>)
    requires Sane(c)
    ensures hit == if all then OnChan(c, ch) else FirstOn(c.waitq, c.waits, ch)
    ensures hit <= OnChan(c, ch)
    ensures (hit == {} <==> OnChan(c, ch) == {}) && (!all ==> |hit| <= 1)
    ensures Signal(c, ch, all) == Move(c, hit, 0) && Sane(Signal(c, ch, all))
    ensures forall t :: t in Signal(c, ch, all).runq <==> t in c.runq || t in hit
    ensures forall t :: t in Signal(c, ch, all).waitq <==> t in c.waitq && t !in hit
  {
    hit := if all then OnChan(c, ch) else FirstOn(c.waitq, c.waits, ch);
    FirstOnIn(c.waitq, c.waits, ch);
    if OnChan(c, ch) != {} {
      var t :| t in OnChan(c, ch);
      assert t in c.waitq;
    }
    MoveSane(c, hit, 0);
  }

  lemma TickSane(c: Core)
    requires Sane(c)
    ensures Sane(Tick(c)) && Tick(c).turn == c.turn + 1
    ensures forall t :: t in Tick(c).runq <==> t in c.runq || t in Expired(c.(turn := c.turn + 1))
    ensures forall t :: t in Tick(c).waitq <==> t in c.waitq && t !in Expired(c.(turn := c.turn + 1))
  {
    MoveSane(c.(turn := c.turn + 1), Expired(c.(turn := c.turn + 1)), ETIMEDOUT);
  }

  lemma ParkSane(c: Core, t: Tid, ch: Chan, timeout: nat)
    requires Sane(c) && c.runq != [] && c.runq[0] == t && t < |c.waits|
    ensures Sane(Park(c, t, ch, timeout))
    ensures forall u :: u in Park(c, t, ch, timeout).runq <==> u in c.runq && u != t
    ensures forall u :: u in Park(c, t, ch, timeout).waitq <==> u in c.waitq || u == t
  {
    NoDupTail(c.runq);
    NoDupConcat(c.waitq, [t]);
  }

  lemma RotateSane(c: Core)
    requires Sane(c) && c.runq != []
    ensures Sane(Rotate(c))
    ensures forall u :: u in Rotate(c).runq <==> u in c.runq
  {
    NoDupTail(c.runq);
    NoDupConcat(c.runq[1..], [c.runq[0]]);
    assert c.runq[0] in c.runq;
    assert forall u :: u in c.runq[1..] + [c.runq[0]] <==> u in c.runq[1..] || u == c.runq[0];
  }

  // ----- As many single signals as there are waiters make one broadcast ----

  /** `k` consecutive single signals on `ch`. */
  function SignalTimes(c: Core, ch: Chan, k: nat): Core
    decreases k
  {
    if k == 0 then c else SignalTimes(Signal(c, ch, false), ch, k - 1)
  }

  /** The waiter woken by a single signal is the one that has waited longest. */
  lemma {:induction false} LongestWaiter(q: seq<Tid>, waits: seq<Wait>, ch: Chan) returns (i: nat)
    requires FirstOn(q, waits, ch) != {}
    ensures i < |q| && FirstOn(q, waits, ch) == {q[i]} && q[i] < |waits| && waits[q[i]].chan == ch
    ensures forall j :: 0 <= j < i && q[j] < |waits| ==> waits[q[j]].chan != ch
  {
    if q[0] < |waits| && waits[q[0]].chan == ch {
      i := 0;
    } else {
      i := LongestWaiter(q[1..], waits, ch);
      i := i + 1;
    }
  }

  lemma SplitAtFirst(a: seq<Tid>, f: Tid, b: seq<Tid>, hit: set<Tid>)
    requires f in hit && forall t :: t in a ==> t !in hit
    ensures Select(a + ([f] + b), hit) == [f] + Select(b, hit)
    ensures Reject(a + ([f] + b), hit) == a + Reject(b, hit)
  {
    RejectNone(a, hit);
    SelectConcat(a, [f] + b, hit);
    RejectConcat(a, [f] + b, hit);
    SplitHead(f, b, hit);
    assert [] + ([f] + Select(b, hit)) == [f] + Select(b, hit);
  }

  lemma SplitHead(f: Tid, b: seq<Tid>, hit: set<Tid>)
    requires f in hit
    ensures Select([f] + b, hit) == [f] + Select(b, hit) && Reject([f] + b, hit) == Reject(b, hit)
  {
    assert ([f] + b)[0] == f && ([f] + b)[1..] == b;
    assert [] + Reject(b, hit) == Reject(b, hit);
  }

  /** Taking the first hit thread and then the rest is taking them all at once. */
  lemma TakeFirst(q: seq<Tid>, hit: set<Tid>, i: nat)
    requires NoDup(q) && i < |q| && q[i] in hit
    requires forall j :: 0 <= j < i ==> q[j] !in hit
    ensures Select(q, {q[i]}) == [q[i]]
    ensures Reject(q, {q[i]}) == q[..i] + q[i + 1..]
    ensures Select(q, hit) == [q[i]] + Select(q[i + 1..], hit)
    ensures Reject(q, hit) == q[..i] + Reject(q[i + 1..], hit)
  {
    var a, f, b := q[..i], q[i], q[i + 1..];
    assert q == a + ([f] + b);
    SplitAtFirst(a, f, b, {f});
    RejectNone(b, {f});
    SplitAtFirst(a, f, b, hit);
  }

  lemma TakeRest(a: seq<Tid>, f: Tid, b: seq<Tid>, hit: set<Tid>)
    requires forall t :: t in a ==> t !in hit
    requires f !in b
    ensures Select(a + b, hit - {f}) == Select(b, hit)
    ensures Reject(a + b, hit - {f}) == a + Reject(b, hit)
  {
    RejectNone(a, hit - {f});
    SelectAgree(b, hit, hit - {f});
    SelectConcat(a, b, hit - {f});
    RejectConcat(a, b, hit - {f});
  }

  lemma MoveFirst(c: Core, hit: set<Tid>, i: nat, st: int)
    requires Sane(c) && i < |c.waitq| && c.waitq[i] in hit
    requires forall j :: 0 <= j < i ==> c.waitq[j] !in hit
    ensures Move(Move(c, {c.waitq[i]}, st), hit - {c.waitq[i]}, st) == Move(c, hit, st)
  {
    var f := c.waitq[i];
    TakeFirst(c.waitq, hit, i);
    TakeRest(c.waitq[..i], f, c.waitq[i + 1..], hit);
    ResetTwice(c.waits, f, hit, st);
    assert c.runq + [f] + Select(c.waitq[i + 1..], hit) == c.runq + ([f] + Select(c.waitq[i + 1..], hit));
  }

  lemma ResetTwice(waits: seq<Wait>, f: Tid, hit: set<Tid>, st: int)
    requires f in hit
    ensures ResetAll(ResetAll(waits, {f}, st), hit - {f}, st) == ResetAll(waits, hit, st)
  {
  }

  /** One single signal takes exactly the longest waiter out of those on `ch`. */
  lemma SignalFirst(c: Core, ch: Chan) returns (i: nat)
    requires Sane(c) && ch != Null && OnChan(c, ch) != {}
    ensures i < |c.waitq| && c.waitq[i] in OnChan(c, ch)
    ensures forall j :: 0 <= j < i ==> c.waitq[j] !in OnChan(c, ch)
    ensures Signal(c, ch, false) == Move(c, {c.waitq[i]}, 0)
    ensures OnChan(Signal(c, ch, false), ch) == OnChan(c, ch) - {c.waitq[i]}
  {
    var h := SignalSane(c, ch, false);
    i := LongestWaiter(c.waitq, c.waits, ch);
    MoveSane(c, {c.waitq[i]}, 0);
  }

  lemma {:induction false} SignalsMakeBroadcast(c: Core, ch: Chan)
    requires Sane(c) && ch != Null
    ensures SignalTimes(c, ch, |OnChan(c, ch)|) == Signal(c, ch, true)
    decreases |OnChan(c, ch)|
  {
    var hit := OnChan(c, ch);
    if hit == {} {
      RejectNone(c.waitq, hit);
      assert Signal(c, ch, true).waits == c.waits;
    } else {
      var i := SignalFirst(c, ch);
      var f := c.waitq[i];
      var c1 := Signal(c, ch, false);
      assert |hit - {f}| == |hit| - 1;
      MoveSane(c, {f}, 0);
      SignalsMakeBroadcast(c1, ch);
      MoveFirst(c, hit, i, 0);
    }
  }

  // ----- Signal and fireTimeouts are stable partitions ---------------------

  /** A wake-up neither loses nor invents a thread, and keeps arrival order:
      the run queue only grows at its end. */
  lemma MoveConserves(c: Core, hit: set<Tid>, st: int)
    ensures multiset(Move(c, hit, st).runq) + multiset(Move(c, hit, st).waitq) == multiset(c.runq) + multiset(c.waitq)
    ensures c.runq <= Move(c, hit, st).runq
    ensures Move(c, hit, st).turn == c.turn && |Move(c, hit, st).waits| == |c.waits|
  {
    SplitConserves(c.waitq, hit);
  }
}
