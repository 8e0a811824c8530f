/** The scheduler's operations on the containers it really uses: the linked run
    queue and the non-det set with its index.  Each does to what the containers
    stand for exactly what SchedSpec says. */
module Containers {
  import opened Queues
  import opened SchedCore
  import opened SchedSpec
  import opened RunQueue
  import opened NonDetSet
  import Scheduler

  /** The containers stand for the run queue and the non-det set of `h`. */
  ghost predicate Represent(q: RunQ, nd: NonDetThreadSet, h: Sched)
    reads q, q.index.Values, nd
  {
    q.Valid() && nd.Valid() && q.Contents() == h.core.runq && nd.Abs() == h.nds
  }

  /** One iteration of check_wakeup. */
  method Requeue(cfg: Config, q: RunQ, nd: NonDetThreadSet, t: Tid, ghost h: Sched)
    requires Represent(q, nd, h) && t in q.index && (cfg.bound.Within? && t !in q.Contents() ==> t in nd.list)
    modifies q`head, q`tail, q`size, q`elems, q.index.Values, nd
    ensures Represent(q, nd, Scheduler.DrainOne(cfg, h, t))
  {
    var queued := q.In(t);
    if !queued {
      q.PushBack(t);
      if cfg.bound.Within? {
        nd.Erase(t);
      }
    }
  }

  /** Re-queueing one thread leaves the others in the non-det set. */
  lemma StillThere(cfg: Config, h: Sched, t: Tid, todo: set<Tid>)
    requires forall u :: u in todo && u !in h.core.runq ==> u in h.nds.list
    ensures var h1 := Scheduler.DrainOne(cfg, h, t);
            forall u :: u in todo && u != t && u !in h1.core.runq ==> u in h1.nds.list
  {
    RejectIn(h.nds.list, {t});
  }

  /** check_wakeup, in whichever order the set is traversed. */
  method CheckWakeup(cfg: Config, q: RunQ, nd: NonDetThreadSet, pending: set<Tid>, ghost h: Sched)
    returns (ghost order: seq<Tid>)
    requires Represent(q, nd, h) && h.pending == pending && forall t :: t in pending ==> t in q.index
    requires cfg.bound.Within? ==> forall t :: t in pending && t !in q.Contents() ==> t in nd.list
    modifies q`head, q`tail, q`size, q`elems, q.index.Values, nd
    ensures IsOrder(order, pending) && Represent(q, nd, Drain(cfg, h, order))
  {
    order := [];
    var todo := pending;
    ghost var h1 := h;
    while todo != {}
      invariant todo <= pending && NoDup(order) && Elems(order) == pending - todo
      invariant h1 == Scheduler.DrainLoop(cfg, h, order) && Represent(q, nd, h1)
      invariant cfg.bound.Within? ==> forall t :: t in todo && t !in q.Contents() ==> t in nd.list
      decreases todo
    {
      var t :| t in todo;
      Scheduler.DrainGrows(cfg, h, order, pending, todo, t);
      if cfg.bound.Within? {
        StillThere(cfg, h1, t, todo);
      }
      Requeue(cfg, q, nd, t, h1);
      todo := todo - {t};
      order, h1 := order + [t], Scheduler.DrainOne(cfg, h1, t);
    }
    assert pending - todo == pending;
    DrainSame(cfg, h, order);
  }

  lemma DrainSame(cfg: Config, h: Sched, order: seq<Tid>)
    requires NoDup(order)
    ensures Scheduler.DrainLoop(cfg, h, order).core.runq == Drain(cfg, h, order).core.runq
    ensures Scheduler.DrainLoop(cfg, h, order).nds == Drain(cfg, h, order).nds
  {
    Scheduler.DrainLoopForm(cfg, h, order);
  }

  /** checkNonDetBound. */
  method CheckNonDetBound(cfg: Config, q: RunQ, nd: NonDetThreadSet, turn: nat, ghost h: Sched)
    requires Represent(q, nd, h) && h.core.turn == turn && CheckBoundOk(cfg, h)
    requires forall t :: t in nd.list ==> t in q.index
    modifies q`head, q`tail, q`size, q`elems, q.index.Values, nd
    ensures Represent(q, nd, CheckBound(cfg, h))
  {
    if cfg.bound.Within? {
      var n := nd.Size();
      if n > 0 {
        var t := nd.FirstThread();
        var clock := nd.GetClock(t);
        if turn > clock + cfg.bound.turns {
          Recall(q, nd, t, h);
        }
      }
    }
  }

  /** A thread outside is put back into the run queue. */
  method Recall(q: RunQ, nd: NonDetThreadSet, t: Tid, ghost h: Sched)
    requires Represent(q, nd, h) && t in q.index && t !in h.core.runq && t in nd.list
    modifies q`head, q`tail, q`size, q`elems, q.index.Values, nd
    ensures Represent(q, nd, h.(core := h.core.(runq := h.core.runq + [t]), nds := h.nds.Erase({t})))
  {
    q.PushBack(t);
    nd.Erase(t);
  }

  /** The rotation in putTurn. */
  method RotateFront(q: RunQ, nd: NonDetThreadSet, self: Tid, ghost h: Sched)
    requires Represent(q, nd, h) && h.core.runq != [] && h.core.runq[0] == self && self in q.index
    modifies q`head, q`tail, q`size, q`elems, q.index.Values
    ensures Represent(q, nd, h.(core := Rotate(h.core)))
  {
    q.ContentsNoDup();
    q.PopFront();
    q.PushBack(self);
  }

  /** nextRunnable drops a front thread that is blocked in a system call. */
  method DropStopped(cfg: Config, q: RunQ, nd: NonDetThreadSet, turn: nat, ghost h: Sched) returns (head: Tid)
    requires Represent(q, nd, h) && h.core.runq != [] && (cfg.bound.Within? ==> h.core.runq[0] !in nd.list)
    modifies q`head, q`tail, q`size, q`elems, q.index.Values, nd
    ensures head == h.core.runq[0]
    ensures Represent(q, nd, h.(core := h.core.(runq := h.core.runq[1..]),
                      nds := if cfg.bound.Within? then h.nds.Insert(head, turn) else h.nds))
  {
    head := q.Front();
    q.PopFront();
    if cfg.bound.Within? {
      nd.Insert(head, turn);
    }
  }

  /** The search of tryPutTurn, along the links: the position of the first runnable
      thread behind the front, or null. */
  method FirstRunnable(q: RunQ, status: seq<Status>) returns (cur: Elem?, i: nat)
    requires q.Valid() && q.Contents() != [] && forall t :: t in q.Contents() ==> t < |status|
    ensures 1 <= i && forall j :: 1 <= j < i ==> !Scheduler.RunnableAt(q.Contents(), status, j)
    ensures if cur == null then i >= |q.Contents()|
            else Scheduler.RunnableAt(q.Contents(), status, i) && cur.tid == q.Contents()[i]
  {
    i := 1;
    assert q.elems[0].next == if 1 < |q.elems| then q.elems[1] else null;
    cur := q.head.next;
    while cur != null
      invariant 1 <= i && (if cur == null then i >= |q.elems| else i < |q.elems| && cur == q.elems[i])
      invariant forall j :: 1 <= j < i ==> !Scheduler.RunnableAt(q.Contents(), status, j)
      decreases |q.elems| - i
    {
      assert cur.tid == q.Contents()[i] && q.Contents()[i] in q.Contents();
      assert q.elems[i].next == if i + 1 < |q.elems| then q.elems[i + 1] else null;
      if status[cur.tid] == Runnable {
        return;
      }
      cur := cur.next;
      i := i + 1;
    }
  }

  // ----- the delete-while-iterating loops ------------------------------------------

  /** The queues of core `c`, with the run queue linked. */
  ghost predicate Shown(q: RunQ, waitq: seq<Tid>, waits: seq<Wait>, c: Core)
    reads q, q.index.Values
  {
    q.Valid() && q.Contents() == c.runq && waitq == c.waitq && waits == c.waits
  }

  /** Reset, erase from the wait queue, push_back. */
  method MoveAt(q: RunQ, waitq: seq<Tid>, waits: seq<Wait>, i: nat, st: int, ghost c: Core)
    returns (waitq': seq<Tid>, waits': seq<Wait>)
    requires Shown(q, waitq, waits, c) && i < |waitq| && waitq[i] < |waits| && waitq[i] in q.index
    requires waitq[i] !in c.runq
    modifies q`head, q`tail, q`size, q`elems, q.index.Values
    ensures Shown(q, waitq', waits', Scheduler.TakeOut(c, i, st))
  {
    var tid := waitq[i];
    waits' := waits[tid := waits[tid].Reset(st)];
    waitq' := waitq[..i] + waitq[i + 1..];
    q.PushBack(tid);
  }

  /** fireTimeouts. */
  method FireTimeouts(q: RunQ, waitq0: seq<Tid>, waits0: seq<Wait>, turn: nat, ghost c0: Core)
    returns (waitq: seq<Tid>, waits: seq<Wait>)
    requires Shown(q, waitq0, waits0, c0) && Sane(c0) && c0.turn == turn && forall t :: t in waitq0 ==> t in q.index
    modifies q`head, q`tail, q`size, q`elems, q.index.Values
    ensures Shown(q, waitq, waits, SchedCore.FireTimeouts(c0))
  {
    waitq, waits := waitq0, waits0;
    ghost var hit, k, c := Expired(c0), 0, c0;
    var i := 0;
    while i < |waitq|
      invariant k <= |c0.waitq| && Scheduler.Pass(c0, hit, ETIMEDOUT, k) == Scheduler.Cursor.Cursor(c, i)
      invariant Shown(q, waitq, waits, c)
      decreases |c0.waitq| - k
    {
      Scheduler.PassHere(c0, hit, ETIMEDOUT, k, c, i);
      assert c0.waitq[k] in c0.waitq;
      if waits[waitq[i]].timeout < turn {
        Scheduler.NotQueued(c0, hit, ETIMEDOUT, k, c, i);
        waitq, waits := MoveAt(q, waitq, waits, i, ETIMEDOUT, c);
        c := Scheduler.TakeOut(c, i, ETIMEDOUT);
      } else {
        i := i + 1;
      }
      k := k + 1;
    }
    Scheduler.PassHere(c0, hit, ETIMEDOUT, k, c, i);
    Scheduler.PassDone(c0, hit, ETIMEDOUT, k);
  }

  /** signal. */
  method Signal(q: RunQ, waitq0: seq<Tid>, waits0: seq<Wait>, ch: Chan, all: bool, ghost c0: Core)
    returns (waitq: seq<Tid>, waits: seq<Wait>)
    requires Shown(q, waitq0, waits0, c0) && Sane(c0) && ch != Null && forall t :: t in waitq0 ==> t in q.index
    modifies q`head, q`tail, q`size, q`elems, q.index.Values
    ensures Shown(q, waitq, waits, SchedCore.Signal(c0, ch, all))
  {
    waitq, waits := waitq0, waits0;
    ghost var k, c := 0, c0;
    var i, done := 0, false;
    while i < |waitq| && !done
      invariant Scheduler.Signalling(c0, ch, all, k, c, i, done) && Shown(q, waitq, waits, c)
      decreases |c0.waitq| - k
    {
      Scheduler.SignalHere(c0, ch, all, k, c, i);
      if waits[waitq[i]].chan == ch {
        waitq, waits := MoveAt(q, waitq, waits, i, 0, c);
        c := Scheduler.TakeOut(c, i, 0);
        done := !all;
      } else {
        i := i + 1;
      }
      k := k + 1;
    }
    Scheduler.SignalEnds(c0, ch, all, k, c, i, done);
  }
}
