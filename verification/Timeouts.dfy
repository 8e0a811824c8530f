/** Logical timeouts: how a physical interval becomes a number of turns, and at
    which increment of the turn counter a waiting thread is told ETIMEDOUT. */
module Timeouts {
  import opened Queues
  import opened SchedCore
  import opened SchedSpec
  import opened Protocol
  import opened ProtocolInv
  import opened ProtocolSteps
  import opened ProtocolTheorems
  import opened WaitFrame

  // ----- physical intervals -----------------------------------------------------------

  const BILLION: int := 1_000_000_000
  const MAX_REL: int := 1_000_000
  const TWO_63: int := 0x8000_0000_0000_0000
  const TWO_64: int := 0x1_0000_0000_0000_0000

  datatype Timespec = Timespec(sec: int, nsec: int) {
    function Ns(): int {
      sec * BILLION + nsec
    }

    predicate Normal() {
      0 <= nsec < BILLION
    }
  }

  /** time_diff. */
  function TimeDiff(start: Timespec, end: Timespec): (d: Timespec)
    ensures d.Ns() == end.Ns() - start.Ns()
    ensures start.Normal() && end.Normal() ==> d.Normal()
  {
    if end.nsec - start.nsec < 0
    then Timespec(end.sec - start.sec - 1, BILLION - start.nsec + end.nsec)
    else Timespec(end.sec - start.sec, end.nsec - start.nsec)
  }

  /** time2turn; `perTurn` is options::nanosec_per_turn. */
  function TimeToTurn(nsec: nat, perTurn: nat): int
    requires perTurn > 0
  {
    if nsec / perTurn > MAX_REL then MAX_REL else nsec / perTurn
  }

  /** A signed 64-bit value passed as an unsigned one. */
  function ToUnsigned64(x: int): nat
    requires -TWO_63 <= x < TWO_63
  {
    if x < 0 then x + TWO_64 else x
  }

  ghost predicate FitsInt64(r: Timespec) {
    -TWO_63 <= r.sec * BILLION < TWO_63 && -TWO_63 <= r.Ns() < TWO_63
  }

  /** RecorderRT::relTimeToTurn. */
  function RelTimeToTurn(r: Timespec, perTurn: nat, nthread: nat): int
    requires FitsInt64(r) && perTurn > 0
  {
    var n := TimeToTurn(ToUnsigned64(r.Ns()), perTurn);
    if n < 5 * nthread + 1 then 5 * nthread + 1 else n
  }

  /** What the comment in relTimeToTurn promises: an interval that is too small
      or negative counts as 5 * nthread + 1 turns. */
  function PromisedTurns(r: Timespec, perTurn: nat, nthread: nat): int
    requires perTurn > 0
  {
    var floor := 5 * nthread + 1;
    if r.Ns() < 0 || r.Ns() / perTurn < floor then floor
    else if r.Ns() / perTurn > MAX_REL then MAX_REL else r.Ns() / perTurn
  }

  lemma MulLess(x: nat, y: nat, b: nat)
    requires b > 0 && x * b < y * b
    ensures x < y
  {
    assert (y - x) * b == y * b - x * b;
  }

  /** The quotient is the largest k with k * b <= a. */
  lemma Quotient(a: nat, b: nat, k: nat)
    requires b > 0
    ensures k <= a / b <==> k * b <= a
  {
    var q := a / b;
    assert a == q * b + a % b && (q + 1) * b == q * b + b;
    if k * b <= a {
      MulLess(k, q + 1, b);
    } else {
      MulLess(q, k, b);
    }
  }

  /** The code meets the comment exactly for the intervals that are not
      negative; a negative one waits a million turns. */
  lemma PromiseMet(r: Timespec, perTurn: nat, nthread: nat)
    requires FitsInt64(r) && 0 < perTurn < 0x8000_0000 && nthread <= MAX_THREADS
    ensures RelTimeToTurn(r, perTurn, nthread) == PromisedTurns(r, perTurn, nthread) <==> r.Ns() >= 0
    ensures r.Ns() < 0 ==> RelTimeToTurn(r, perTurn, nthread) == MAX_REL
  {
    if r.Ns() < 0 {
      Quotient(ToUnsigned64(r.Ns()), perTurn, MAX_REL + 1);
    }
  }

  /** A deadline one second in the past is such an interval. */
  lemma PastDeadline(nthread: nat)
    requires nthread <= MAX_THREADS
    ensures RelTimeToTurn(TimeDiff(Timespec(101, 0), Timespec(100, 0)), 3000, nthread) == 1_000_000
  {
    PromiseMet(TimeDiff(Timespec(101, 0), Timespec(100, 0)), 3000, nthread);
  }

  /** The bounds every timed call relies on. */
  lemma TurnsBounded(r: Timespec, perTurn: nat, nthread: nat)
    requires FitsInt64(r) && perTurn > 0
    ensures 5 * nthread + 1 <= RelTimeToTurn(r, perTurn, nthread)
    ensures RelTimeToTurn(r, perTurn, nthread) == 5 * nthread + 1 || RelTimeToTurn(r, perTurn, nthread) <= MAX_REL
    ensures r.Ns() >= 0 ==> RelTimeToTurn(r, perTurn, nthread) == 5 * nthread + 1
                            || RelTimeToTurn(r, perTurn, nthread) * perTurn <= r.Ns()
  {
    var u := ToUnsigned64(r.Ns());
    Quotient(u, perTurn, TimeToTurn(u, perTurn));
  }

  // ----- exact logical timeouts ----------------------------------------------------------

  /** `t` is on the wait queue in every state of the run. */
  ghost predicate Stays(cfg: Config, s: State, ls: seq<Label>, t: Tid)
    decreases |ls|
  {
    && t in s.h.core.waitq
    && (ls != [] && Shape(s) && Guard(s, ls[0]) && Asserts(cfg, s, ls[0]) ==>
          Stays(cfg, Apply(cfg, s, ls[0]), ls[1..], t))
  }

  ghost function Later(a: nat, b: nat): nat {
    if a < b then b else a
  }

  /** A thread that still waits has not been overtaken by the turn counter. */
  lemma {:induction false} StillInTime(cfg: Config, s: State, ls: seq<Label>, s': State, t: Tid, limit: nat, bound: nat)
    requires Inv(cfg, s) && Reaches(cfg, s, ls, s') && Stays(cfg, s, ls, t)
    requires t < |s.pc| && s.h.core.waits[t].timeout == limit <= bound && s.h.core.turn <= bound
    ensures Inv(cfg, s') && t in s'.h.core.waitq && t < |s'.pc|
    ensures s'.h.core.turn <= bound && s'.h.core.waits[t] == s.h.core.waits[t]
    decreases |ls|
  {
    if ls == [] {
    } else {
      StepFrame(cfg, s, ls[0]);
      var s1 := Apply(cfg, s, ls[0]);
      StillInTimeStep(cfg, s, ls[0], s1, t, limit, bound);
      StillInTime(cfg, s1, ls[1..], s', t, limit, bound);
    }
  }

  lemma StillInTimeStep(cfg: Config, s: State, l: Label, s1: State, t: Tid, limit: nat, bound: nat)
    requires Inv(cfg, s) && Frame(s, l, s1) && Guard(s, l) && t < |s.pc| && t in s.h.core.waitq && t in s1.h.core.waitq
    requires s.h.core.waits[t].timeout == limit <= bound && s.h.core.turn <= bound
    ensures s1.h.core.turn <= bound && s1.h.core.waits[t] == s.h.core.waits[t]
  {
    assert FrameAt(s, l, s1, t);
    assert ViewOk(cfg, t, ViewOf(s, t));
  }

  /** Exact timeouts.  Thread `t` calls wait(ch, limit) and the counter then
      stands at `p`.  Whenever it comes off the wait queue, it was either
      signalled on `ch` (result 0), or the counter has just been incremented to
      max(limit, p) + 1 (result ETIMEDOUT): not earlier, not later, not both.
      With limit FOREVER only a signal can wake it. */
  lemma ExactTimeout(cfg: Config, s0: State, ch: Chan, limit: nat, order: seq<Tid>, t: Tid,
                     ls: seq<Label>, s: State, l: Label)
    requires Inv(cfg, s0) && s0.phase.Held? && s0.phase.t == t
    requires Guard(s0, WaitOn(ch, limit, order)) && Asserts(cfg, s0, WaitOn(ch, limit, order))
    requires var s1 := Apply(cfg, s0, WaitOn(ch, limit, order)); Reaches(cfg, s1, ls, s) && Stays(cfg, s1, ls, t)
    requires Shape(s) && Guard(s, l) && Asserts(cfg, s, l) && t !in Apply(cfg, s, l).h.core.waitq
    ensures var s' := Apply(cfg, s, l);
            && t < |s'.h.core.waits|
            && (|| (s'.h.core.waits[t].status == 0 && Signals(s, l, ch))
                || (&& s'.h.core.waits[t].status == ETIMEDOUT && limit < FOREVER
                    && s'.h.core.turn == Later(limit, s0.h.core.turn + 1) + 1 && s'.h.core.turn == s.h.core.turn + 1))
  {
    ParkedBy(cfg, s0, ch, limit, order);
    LeavesInTime(cfg, Apply(cfg, s0, WaitOn(ch, limit, order)), t, ls, s, l);
  }

  lemma ParkedBy(cfg: Config, s0: State, ch: Chan, limit: nat, order: seq<Tid>)
    requires Inv(cfg, s0) && Guard(s0, WaitOn(ch, limit, order)) && Asserts(cfg, s0, WaitOn(ch, limit, order))
    ensures var s1, t := Apply(cfg, s0, WaitOn(ch, limit, order)), s0.phase.t;
            && Inv(cfg, s1) && t < |s1.pc| && t in s1.h.core.waitq && s1.h.core.turn == s0.h.core.turn + 1
            && s1.h.core.waits[t].chan == ch && s1.h.core.waits[t].timeout == limit
  {
    StepFrame(cfg, s0, WaitOn(ch, limit, order));
    assert FrameAt(s0, WaitOn(ch, limit, order), Apply(cfg, s0, WaitOn(ch, limit, order)), s0.phase.t);
  }

  /** The same, from any state in which `t` waits. */
  lemma LeavesInTime(cfg: Config, s1: State, t: Tid, ls: seq<Label>, s: State, l: Label)
    requires Inv(cfg, s1) && t < |s1.pc| && t in s1.h.core.waitq
    requires Reaches(cfg, s1, ls, s) && Stays(cfg, s1, ls, t)
    requires Shape(s) && Guard(s, l) && Asserts(cfg, s, l) && t !in Apply(cfg, s, l).h.core.waitq
    ensures var w, s' := s1.h.core.waits[t], Apply(cfg, s, l);
            && t < |s'.h.core.waits|
            && (|| (s'.h.core.waits[t].status == 0 && Signals(s, l, w.chan))
                || (&& s'.h.core.waits[t].status == ETIMEDOUT && w.timeout < FOREVER
                    && s'.h.core.turn == Later(w.timeout, s1.h.core.turn) + 1 && s'.h.core.turn == s.h.core.turn + 1))
  {
    var limit := s1.h.core.waits[t].timeout;
    StillInTime(cfg, s1, ls, s, t, limit, Later(limit, s1.h.core.turn));
    StepFrame(cfg, s, l);
    LeavesExactly(cfg, s, l, Apply(cfg, s, l), t, s1.h.core.turn);
    TurnGrows(cfg, s1, ls, s);
  }

  lemma LeavesExactly(cfg: Config, s: State, l: Label, s': State, t: Tid, p: nat)
    requires Inv(cfg, s) && Inv(cfg, s') && Frame(s, l, s') && Guard(s, l) && t < |s.pc|
    requires t in s.h.core.waitq && t !in s'.h.core.waitq && s.h.core.turn <= Later(s.h.core.waits[t].timeout, p)
    ensures var w, w' := s.h.core.waits[t], s'.h.core.waits[t];
            || (w'.status == 0 && Signals(s, l, w.chan))
            || (&& w'.status == ETIMEDOUT && w.timeout < FOREVER && w.timeout < s'.h.core.turn
                && s'.h.core.turn <= Later(w.timeout, p) + 1 && s'.h.core.turn == s.h.core.turn + 1)
  {
    assert FrameAt(s, l, s', t);
  }

  lemma {:induction false} TurnGrows(cfg: Config, s: State, ls: seq<Label>, s': State)
    requires Inv(cfg, s) && Reaches(cfg, s, ls, s')
    ensures s.h.core.turn <= s'.h.core.turn
    decreases |ls|
  {
    if ls == [] {
    } else {
      StepFrame(cfg, s, ls[0]);
      TurnGrows(cfg, Apply(cfg, s, ls[0]), ls[1..], s');
    }
  }

  /** A timed call at turn count T: it waits with limit getTurnCount() + n, where
      n comes from relTimeToTurn and getTurnCount() is T - 1.  Unless signalled
      before, it is told ETIMEDOUT at exactly the increment to T + n. */
  lemma RelativeDeadline(cfg: Config, s0: State, ch: Chan, r: Timespec, perTurn: nat, limit: nat, order: seq<Tid>,
                         t: Tid, ls: seq<Label>, s: State, l: Label)
    requires Inv(cfg, s0) && s0.phase.Held? && s0.phase.t == t
    requires FitsInt64(r) && perTurn > 0 && limit == s0.h.core.turn - 1 + RelTimeToTurn(r, perTurn, |s0.pc|)
    requires Guard(s0, WaitOn(ch, limit, order)) && Asserts(cfg, s0, WaitOn(ch, limit, order))
    requires var s1 := Apply(cfg, s0, WaitOn(ch, limit, order)); Reaches(cfg, s1, ls, s) && Stays(cfg, s1, ls, t)
    requires Shape(s) && Guard(s, l) && Asserts(cfg, s, l) && t !in Apply(cfg, s, l).h.core.waitq
    ensures var s' := Apply(cfg, s, l);
            && t < |s'.h.core.waits|
            && (|| (s'.h.core.waits[t].status == 0 && Signals(s, l, ch))
                || (&& s'.h.core.waits[t].status == ETIMEDOUT
                    && s'.h.core.turn == s0.h.core.turn + RelTimeToTurn(r, perTurn, |s0.pc|)))
  {
    TurnsBounded(r, perTurn, |s0.pc|);
    ExactTimeout(cfg, s0, ch, limit, order, t, ls, s, l);
  }
}
