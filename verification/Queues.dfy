/** Duplicate-free queues of thread ids, and the one operation every wake-up
    in the scheduler performs on them: splitting a queue, in order, into the
    threads that are taken out and the threads that stay. */
module Queues {

  type Tid = nat

  /** No thread id occurs twice. */
  ghost predicate NoDup(q: seq<Tid>) {
    forall i, j :: 0 <= i < j < |q| ==> q[i] != q[j]
  }

  function Elems(q: seq<Tid>): set<Tid> {
    set t | t in q
  }

  /** The threads of `q` that are in `hit`, in queue order. */
  function Select(q: seq<Tid>, hit: set<Tid>): seq<Tid> {
    if q == [] then []
    else (if q[0] in hit then [q[0]] else []) + Select(q[1..], hit)
  }

  /** The threads of `q` that are not in `hit`, in queue order. */
  function Reject(q: seq<Tid>, hit: set<Tid>): seq<Tid> {
    if q == [] then []
    else (if q[0] in hit then [] else [q[0]]) + Reject(q[1..], hit)
  }

  lemma {:induction false} SelectIn(q: seq<Tid>, hit: set<Tid>)
    ensures forall t :: t in Select(q, hit) <==> t in q && t in hit
  {
    if q == [] {
    } else {
      SelectIn(q[1..], hit);
      assert q == [q[0]] + q[1..];
    }
  }

  lemma {:induction false} RejectIn(q: seq<Tid>, hit: set<Tid>)
    ensures forall t :: t in Reject(q, hit) <==> t in q && t !in hit
  {
    if q == [] {
    } else {
      RejectIn(q[1..], hit);
      assert q == [q[0]] + q[1..];
    }
  }

  lemma NoDupConcat(a: seq<Tid>, b: seq<Tid>)
    requires NoDup(a) && NoDup(b) && forall t :: t in a ==> t !in b
    ensures NoDup(a + b)
  {
    forall i, j | 0 <= i < j < |a + b| ensures (a + b)[i] != (a + b)[j] {
      if i < |a| <= j {
        assert a[i] in a && b[j - |a|] in b;
      }
    }
  }

  lemma NoDupTail(q: seq<Tid>)
    requires NoDup(q) && q != []
    ensures NoDup(q[1..])
    ensures forall t :: t in q[1..] <==> t in q && t != q[0]
  {
    assert q == [q[0]] + q[1..];
    assert q[0] !in q[1..];
  }

  lemma {:induction false} SelectNoDup(q: seq<Tid>, hit: set<Tid>)
    requires NoDup(q)
    ensures NoDup(Select(q, hit))
  {
    if q == [] {
    } else {
      NoDupTail(q);
      SelectNoDup(q[1..], hit);
      SelectIn(q[1..], hit);
      NoDupConcat(if q[0] in hit then [q[0]] else [], Select(q[1..], hit));
    }
  }

  lemma {:induction false} RejectNoDup(q: seq<Tid>, hit: set<Tid>)
    requires NoDup(q)
    ensures NoDup(Reject(q, hit))
  {
    if q == [] {
    } else {
      NoDupTail(q);
      RejectNoDup(q[1..], hit);
      RejectIn(q[1..], hit);
      NoDupConcat(if q[0] in hit then [] else [q[0]], Reject(q[1..], hit));
    }
  }

  lemma {:induction false} SelectConcat(a: seq<Tid>, b: seq<Tid>, hit: set<Tid>)
    ensures Select(a + b, hit) == Select(a, hit) + Select(b, hit)
  {
    if a == [] {
      assert a + b == b;
    } else {
      assert (a + b)[1..] == a[1..] + b && (a + b)[0] == a[0];
      SelectConcat(a[1..], b, hit);
      var h := if a[0] in hit then [a[0]] else [];
      assert Select(a + b, hit) == h + (Select(a[1..], hit) + Select(b, hit));
      assert Select(a, hit) == h + Select(a[1..], hit);
    }
  }

  lemma {:induction false} RejectConcat(a: seq<Tid>, b: seq<Tid>, hit: set<Tid>)
    ensures Reject(a + b, hit) == Reject(a, hit) + Reject(b, hit)
  {
    if a == [] {
      assert a + b == b;
    } else {
      assert (a + b)[1..] == a[1..] + b && (a + b)[0] == a[0];
      RejectConcat(a[1..], b, hit);
      var h := if a[0] in hit then [] else [a[0]];
      assert Reject(a + b, hit) == h + (Reject(a[1..], hit) + Reject(b, hit));
      assert Reject(a, hit) == h + Reject(a[1..], hit);
    }
  }

  /** A queue none of whose threads is hit is left as it is. */
  lemma {:induction false} RejectNone(q: seq<Tid>, hit: set<Tid>)
    requires forall t :: t in q ==> t !in hit
    ensures Reject(q, hit) == q && Select(q, hit) == []
  {
    if q == [] {
    } else {
      assert q == [q[0]] + q[1..];
      RejectNone(q[1..], hit);
    }
  }

  /** Only membership of the queue's own threads in the hit set matters. */
  lemma {:induction false} SelectAgree(q: seq<Tid>, hit: set<Tid>, hit': set<Tid>)
    requires forall t :: t in q ==> (t in hit <==> t in hit')
    ensures Select(q, hit) == Select(q, hit') && Reject(q, hit) == Reject(q, hit')
  {
    if q == [] {
    } else {
      assert q == [q[0]] + q[1..];
      SelectAgree(q[1..], hit, hit');
    }
  }

  /** Splitting and re-joining loses and invents nothing. */
  lemma {:induction false} SplitConserves(q: seq<Tid>, hit: set<Tid>)
    ensures multiset(Select(q, hit)) + multiset(Reject(q, hit)) == multiset(q)
    ensures |Select(q, hit)| + |Reject(q, hit)| == |q|
  {
    if q == [] {
    } else {
      assert q == [q[0]] + q[1..];
      SplitConserves(q[1..], hit);
    }
  }

  /** A duplicate-free queue is as long as its set of threads is large. */
  lemma {:induction false} NoDupSize(q: seq<Tid>)
    requires NoDup(q)
    ensures |Elems(q)| == |q|
  {
    if q == [] {
    } else {
      NoDupTail(q);
      NoDupSize(q[1..]);
      assert Elems(q) == {q[0]} + Elems(q[1..]);
    }
  }

  // ----- order ---------------------------------------------------------------------------

  /** `a` stands somewhere before `b`. */
  ghost predicate Before(q: seq<Tid>, a: Tid, b: Tid) {
    exists i, j :: 0 <= i < j < |q| && q[i] == a && q[j] == b
  }

  lemma BeforeConcat(p: seq<Tid>, q: seq<Tid>, a: Tid, b: Tid)
    ensures Before(p + q, a, b) <==> Before(p, a, b) || Before(q, a, b) || (a in p && b in q)
  {
    if Before(p + q, a, b) {
      var i, j :| 0 <= i < j < |p + q| && (p + q)[i] == a && (p + q)[j] == b;
      if i >= |p| {
        assert q[i - |p|] == a && q[j - |p|] == b;
      } else if j < |p| {
        assert p[i] == a && p[j] == b;
      } else {
        assert p[i] == a && q[j - |p|] == b;
      }
    }
    if Before(p, a, b) {
      var i, j :| 0 <= i < j < |p| && p[i] == a && p[j] == b;
      assert (p + q)[i] == a && (p + q)[j] == b;
    }
    if Before(q, a, b) {
      var i, j :| 0 <= i < j < |q| && q[i] == a && q[j] == b;
      assert (p + q)[|p| + i] == a && (p + q)[|p| + j] == b;
    }
    if a in p && b in q {
      var i :| 0 <= i < |p| && p[i] == a;
      var j :| 0 <= j < |q| && q[j] == b;
      assert (p + q)[i] == a && (p + q)[|p| + j] == b;
    }
  }

  lemma BeforeCons(q: seq<Tid>, a: Tid, b: Tid)
    requires q != []
    ensures Before(q, a, b) <==> Before(q[1..], a, b) || (a == q[0] && b in q[1..])
  {
    assert q == [q[0]] + q[1..];
    BeforeConcat([q[0]], q[1..], a, b);
  }

  /** Splitting a queue keeps the order on both sides. */
  lemma {:induction false} BeforeSplit(q: seq<Tid>, hit: set<Tid>, a: Tid, b: Tid)
    ensures Before(Select(q, hit), a, b) <==> Before(q, a, b) && a in hit && b in hit
    ensures Before(Reject(q, hit), a, b) <==> Before(q, a, b) && a !in hit && b !in hit
  {
    if q == [] {
      assert Select(q, hit) == [] && Reject(q, hit) == [];
    } else {
      BeforeSplit(q[1..], hit, a, b);
      BeforeCons(q, a, b);
      SelectIn(q[1..], hit);
      RejectIn(q[1..], hit);
      BeforeConcat(if q[0] in hit then [q[0]] else [], Select(q[1..], hit), a, b);
      BeforeConcat(if q[0] in hit then [] else [q[0]], Reject(q[1..], hit), a, b);
    }
  }
}
