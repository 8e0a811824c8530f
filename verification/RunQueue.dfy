/** run_queue: an intrusive doubly linked list with an index by thread id, and
    the duplicate-free sequence it stands for.  pop_front leaves a stale `prev`
    pointer in the new head; the invariant says so. */
module RunQueue {
  import opened Queues

  class Elem {
    const tid: Tid
    var prev: Elem?
    var next: Elem?

    constructor (tid: Tid)
      ensures this.tid == tid && prev == null && next == null
    {
      this.tid := tid;
      prev, next := null, null;
    }
  }

  function Tids(q: seq<Elem>): seq<Tid> {
    seq(|q|, i requires 0 <= i < |q| => q[i].tid)
  }

  class RunQ {
    var head: Elem?
    var tail: Elem?
    var size: nat
    var index: map<Tid, Elem>
    ghost var elems: seq<Elem>

    ghost predicate Known(e: Elem)
      reads this`index
    {
      e.tid in index && index[e.tid] == e
    }

    ghost predicate Valid()
      reads this, index.Values
    {
      && (forall t :: t in index ==> index[t].tid == t)
      && (forall i :: 0 <= i < |elems| ==> Known(elems[i]))
      && (forall i, j :: 0 <= i < j < |elems| ==> elems[i] != elems[j])
      && size == |elems|
      && (if elems == [] then head == null && tail == null else head == elems[0] && tail == elems[|elems| - 1])
      && (forall i {:trigger elems[i].next} :: 0 <= i < |elems| ==>
            elems[i].next == if i + 1 < |elems| then elems[i + 1] else null)
      && (forall i {:trigger elems[i].prev} :: 0 < i < |elems| ==> elems[i].prev == elems[i - 1])
      // the head's `prev` may be stale: any other known element
      && (elems != [] && elems[0].prev != null ==> Known(elems[0].prev) && elems[0].prev != elems[0])
      && (forall t :: t in index && index[t] !in elems ==> index[t].prev == null && index[t].next == null)
    }

    /** The queue as the scheduler sees it. */
    ghost function Contents(): seq<Tid>
      reads this`elems
    {
      Tids(elems)
    }

    constructor ()
      ensures Valid() && Contents() == [] && index == map[]
    {
      head, tail, size, index, elems := null, null, 0, map[], [];
    }

    lemma ContentsNoDup()
      requires Valid()
      ensures NoDup(Contents())
    {
      forall i, j | 0 <= i < j < |elems| ensures Contents()[i] != Contents()[j] {
        assert Known(elems[i]) && Known(elems[j]);
      }
    }

    method CreateThdElem(tid: Tid) returns (e: Elem)
      requires Valid() && tid !in index
      modifies this`index
      ensures Valid() && fresh(e) && index == old(index)[tid := e] && elems == old(elems)
    {
      e := new Elem(tid);
      index := index[tid := e];
      assert forall i :: 0 <= i < |elems| ==> elems[i] != e;
    }

    lemma Queued(tid: Tid)
      requires Valid() && tid in index
      ensures tid in Contents() <==> index[tid] in elems
    {
      if tid in Contents() {
        var i :| 0 <= i < |elems| && Contents()[i] == tid;
        assert Known(elems[i]);
      }
      if index[tid] in elems {
        var i :| 0 <= i < |elems| && elems[i] == index[tid];
        assert Contents()[i] == tid;
      }
    }

    /** A queued element has a neighbour or is alone. */
    lemma Linked(e: Elem)
      requires Valid() && Known(e)
      ensures e in elems <==> e.prev != null || e.next != null || (head == e && tail == e)
    {
      if e in elems {
        var i :| 0 <= i < |elems| && elems[i] == e;
        assert elems[i].next == if i + 1 < |elems| then elems[i + 1] else null;
        assert i > 0 ==> elems[i].prev == elems[i - 1];
      }
    }

    /** Pointer-based membership is queue membership, stale `prev` or not. */
    method In(tid: Tid) returns (b: bool)
      requires Valid() && tid in index
      ensures b <==> tid in Contents()
    {
      Queued(tid);
      var elem := index[tid];
      Linked(elem);
      if elem.prev != null || elem.next != null {
        return true;
      } else if head == elem && tail == elem {
        return true;
      }
      return false;
    }

    method PushBack(tid: Tid)
      requires Valid() && tid in index && tid !in Contents()
      modifies this`head, this`tail, this`size, this`elems, index.Values
      ensures Valid() && Contents() == old(Contents()) + [tid]
    {
      Queued(tid);
      var elem := index[tid];
      if head == null {
        assert tail == null;
        head, tail := elem, elem;
      } else {
        assert tail != null && Known(elems[|elems| - 1]);
        elem.prev := tail;
        tail.next := elem;
        tail := elem;
      }
      elems := elems + [elem];
      size := size + 1;
    }

    /** create_thd_elem and push_back: what Scheduler::create does. */
    method Add(tid: Tid)
      requires Valid() && tid !in index
      modifies this, index.Values
      ensures Valid() && Contents() == old(Contents()) + [tid] && index.Keys == old(index.Keys) + {tid}
      ensures fresh(index.Values - old(index.Values))
    {
      var e := CreateThdElem(tid);
      Queued(tid);
      PushBack(tid);
    }

    method Front() returns (tid: Tid)
      requires Valid() && Contents() != []
      ensures tid == Contents()[0]
    {
      tid := head.tid;
    }

    method PopFront()
      requires Valid() && Contents() != []
      modifies this`head, this`tail, this`size, this`elems, index.Values
      ensures Valid() && elems == old(elems)[1..] && Contents() == old(Contents())[1..]
      // the new head still points back at the element that left
      ensures elems != [] ==> elems[0].prev == old(elems[0])
    {
      DropHead();
      TidsTail(old(elems));
    }

    method DropHead()
      requires Valid() && elems != []
      modifies this`head, this`tail, this`size, this`elems, index.Values
      ensures Valid() && elems == old(elems)[1..] && (elems != [] ==> elems[0].prev == old(elems[0]))
    {
      var elem := head;
      assert Known(elem) && elems[0].next == if 1 < |elems| then elems[1] else null;
      assert 1 < |elems| ==> Known(elems[1]) && elems[1].prev == elem;
      head := elem.next;
      elem.prev, elem.next := null, null;
      if head == null {
        tail := null;
      }
      elems := elems[1..];
      size := size - 1;
    }

    /** The links of `q`, element by element, when position `k` has been unlinked. */
    ghost predicate Spliced(q: seq<Elem>, k: nat)
      reads this`index, q, index.Values
    {
      && 0 < k < |q|
      && (forall t :: t in index ==> index[t].tid == t)
      && (forall i :: 0 <= i < |q| ==> Known(q[i]))
      && (forall i, j :: 0 <= i < j < |q| ==> q[i] != q[j])
      && q[k].prev == null && q[k].next == null
      && (q[0].prev != null ==> Known(q[0].prev) && q[0].prev != q[0])
      && (forall i {:trigger q[i].next} :: 0 <= i < |q| && i != k ==>
            q[i].next == var n := if i + 1 == k then k + 1 else i + 1; if n < |q| then q[n] else null)
      && (forall i {:trigger q[i].prev} :: 0 < i < |q| && i != k ==>
            q[i].prev == if i - 1 == k then q[k - 1] else q[i - 1])
      && (forall t :: t in index && index[t] !in q ==> index[t].prev == null && index[t].next == null)
    }

    lemma SplicedAt(q: seq<Elem>, k: nat, i: nat)
      requires Spliced(q, k) && elems == q[..k] + q[k + 1..] && i < |elems|
      ensures Known(elems[i]) && elems[i].next == (if i + 1 < |elems| then elems[i + 1] else null)
      ensures i > 0 ==> elems[i].prev == elems[i - 1]
    {
      var j := if i < k then i else i + 1;
      assert elems[i] == q[j] && q[j].next == q[j].next && q[j].prev == q[j].prev;
    }

    lemma SplicedOut(q: seq<Elem>, k: nat, t: Tid)
      requires Spliced(q, k) && elems == q[..k] + q[k + 1..] && t in index
      ensures index[t] in elems || (index[t].prev == null && index[t].next == null)
    {
      if index[t] in q {
        var j :| 0 <= j < |q| && q[j] == index[t];
        if j < k {
          assert elems[j] == q[j];
        } else if j > k {
          assert elems[j - 1] == q[j];
        }
      }
    }

    lemma SplicedDistinct(q: seq<Elem>, k: nat)
      requires Spliced(q, k) && elems == q[..k] + q[k + 1..]
      ensures forall i, j :: 0 <= i < j < |elems| ==> elems[i] != elems[j]
    {
    }

    lemma SplicedValid(q: seq<Elem>, k: nat)
      requires Spliced(q, k) && elems == q[..k] + q[k + 1..] && size == |elems|
      requires head == elems[0] && tail == elems[|elems| - 1]
      ensures Valid()
    {
      SplicedDistinct(q, k);
      forall i | 0 <= i < |elems|
        ensures Known(elems[i]) && elems[i].next == (if i + 1 < |elems| then elems[i + 1] else null)
        ensures i > 0 ==> elems[i].prev == elems[i - 1]
      {
        SplicedAt(q, k, i);
      }
      forall t | t in index && index[t] !in elems ensures index[t].prev == null && index[t].next == null {
        SplicedOut(q, k, t);
      }
    }

    /** erase(): null stands for end().  `k` is the position of `pos`.  The right
        position is removed and the successor returned; the list is proper
        afterwards exactly when `pos` is not a head with a stale `prev`. */
    method Erase(pos: Elem?, ghost k: nat) returns (ret: Elem?)
      requires Valid() && (pos != null ==> k < |elems| && elems[k] == pos)
      modifies this`head, this`tail, this`size, this`elems, index.Values
      ensures pos == null ==> ret == null && Valid() && elems == old(elems)
      ensures pos != null ==> elems == old(elems)[..k] + old(elems)[k + 1..]
      ensures pos != null ==> ret == if k + 1 < old(|elems|) then old(elems)[k + 1] else null
      ensures pos != null ==> (Valid() <==> k != 0 || old(pos.prev) == null)
      ensures pos != null ==> Contents() == old(Contents())[..k] + old(Contents())[k + 1..]
    {
      if pos == null {
        return null;
      }
      assert head == pos <==> k == 0;
      assert elems[k].next == if k + 1 < |elems| then elems[k + 1] else null;
      if head != pos {
        ret := EraseBehind(pos, k);
      } else if pos.next != null {
        ret := EraseHead(pos);
      } else {
        ret := EraseOnly(pos);
      }
      TidsWithout(old(elems), k);
    }

    /** Erasing an element that is not the head. */
    method EraseBehind(pos: Elem, ghost k: nat) returns (ret: Elem?)
      requires Valid() && 0 < k < |elems| && elems[k] == pos
      modifies this`head, this`tail, this`size, this`elems, index.Values
      ensures Valid() && elems == old(elems)[..k] + old(elems)[k + 1..]
      ensures ret == if k + 1 < old(|elems|) then old(elems)[k + 1] else null
    {
      ret := pos.next;
      var before := Splice(pos, k);
      Shrink(pos, before, ret, k);
    }

    /** Erasing the only element: a stale `prev` ends up as the tail. */
    method EraseOnly(pos: Elem) returns (ret: Elem?)
      requires Valid() && elems == [pos]
      modifies this`head, this`tail, this`size, this`elems, index.Values
      ensures Valid() <==> old(pos.prev) == null
      ensures elems == [] && ret == null && head == null && tail == old(pos.prev) && size == 0
    {
      assert Known(pos) && elems[0].next == null;
      var stale := pos.prev;
      ret := pos.next;
      head, tail := if head == pos then ret else head, if tail == pos then stale else tail;
      Unlink(pos);
      size, elems := size - 1, [];
    }

    /** The head, tail and count once `pos` is unlinked. */
    method Shrink(pos: Elem, before: Elem?, after: Elem?, ghost k: nat)
      requires Spliced(elems, k) && elems[k] == pos && before == elems[k - 1]
      requires size == |elems| && head == elems[0] && tail == elems[|elems| - 1]
      modifies this`head, this`tail, this`size, this`elems
      ensures Valid() && elems == old(elems)[..k] + old(elems)[k + 1..]
    {
      ghost var q := elems;
      head, tail := if head == pos then after else head, if tail == pos then before else tail;
      size, elems := size - 1, q[..k] + q[k + 1..];
      SplicedValid(q, k);
    }

    method Splice(pos: Elem, ghost k: nat) returns (before: Elem?)
      requires Valid() && 0 < k < |elems| && elems[k] == pos
      modifies index.Values
      ensures Spliced(elems, k) && before == elems[k - 1]
      ensures old(pos.next) == if k + 1 < |elems| then elems[k + 1] else null
    {
      assert Known(pos) && elems[k].next == if k + 1 < |elems| then elems[k + 1] else null;
      assert Known(elems[k - 1]) && elems[k].prev == elems[k - 1];
      assert k + 1 < |elems| ==> Known(elems[k + 1]);
      before := pos.prev;
      Unlink(pos);
    }

    /** In a proper queue nothing points at the head. */
    lemma NothingBeforeHead(e: Elem)
      requires Valid() && elems != [] && e in index.Values
      ensures e.next != elems[0]
    {
      if e in elems {
        var i :| 0 <= i < |elems| && elems[i] == e;
        assert elems[i].next == if i + 1 < |elems| then elems[i + 1] else null;
      }
    }

    /** Erasing the head of a longer queue gives a proper queue exactly when the
        head's `prev` is not stale: otherwise the stale element is made to point
        at the new head. */
    method EraseHead(pos: Elem) returns (ret: Elem?)
      requires Valid() && |elems| > 1 && elems[0] == pos
      modifies this`head, this`tail, this`size, this`elems, index.Values
      ensures Valid() <==> old(pos.prev) == null
      ensures elems == old(elems)[1..] && ret == elems[0] && head == ret && size == |elems|
    {
      assert Known(pos) && elems[0].next == elems[1] && Known(elems[1]) && elems[1].prev == pos;
      var stale := pos.prev;
      ret := pos.next;
      head, tail := if head == pos then ret else head, if tail == pos then stale else tail;
      Unlink(pos);
      size, elems := size - 1, elems[1..];
      if stale != null && Valid() {
        NothingBeforeHead(stale);
      }
    }

    /** Connect the neighbours of `pos` and clear its links. */
    method Unlink(pos: Elem)
      requires pos in index.Values && (pos.prev != null ==> pos.prev in index.Values)
      requires (pos.next != null ==> pos.next in index.Values)
      requires pos.prev != pos && pos.next != pos
      modifies index.Values
      ensures forall e {:trigger e.next} :: e in index.Values ==>
                e.next == (if e == pos then null else if e == old(pos.prev) then old(pos.next) else old(e.next))
      ensures forall e {:trigger e.prev} :: e in index.Values ==>
                e.prev == (if e == pos then null else if e == old(pos.next) then old(pos.prev) else old(e.prev))
    {
      if pos.prev != null {
        pos.prev.next := pos.next;
      }
      if pos.next != null {
        pos.next.prev := pos.prev;
      }
      pos.prev, pos.next := null, null;
    }
  }

  lemma TidsTail(q: seq<Elem>)
    requires q != []
    ensures Tids(q[1..]) == Tids(q)[1..]
  {
  }

  lemma TidsWithout(q: seq<Elem>, k: nat)
    requires k < |q|
    ensures Tids(q[..k] + q[k + 1..]) == Tids(q)[..k] + Tids(q)[k + 1..]
  {
  }

  /** A head with a stale `prev` is easily had: push two, pop one.  Erasing that
      head leaves the popped element as the tail of an empty list. */
  method StaleHead() returns (q: RunQ)
    ensures !q.Valid() && q.Contents() == []
  {
    q := new RunQ();
    q.Add(0);
    q.Add(1);
    q.PopFront();
    var ret := q.Erase(q.head, 0);
  }
}
