/** non_det_thread_set: a list in order of arrival and an index from thread id
    to logical clock, kept in step. */
module NonDetSet {
  import opened Queues
  import opened SchedCore
  import opened SchedSpec

  class NonDetThreadSet {
    var list: seq<Tid>
    var clock: map<Tid, nat>

    ghost predicate Valid()
      reads this
    {
      NoDup(list) && forall t :: t in list <==> t in clock
    }

    ghost function Abs(): NonDet
      reads this
    {
      NonDet(list, clock)
    }

    constructor ()
      ensures Valid() && Abs() == NonDet([], map[])
    {
      list, clock := [], map[];
    }

    /** `in`: looks in the index first, then searches the list. */
    method In(tid: Tid) returns (found: bool)
      requires Valid()
      ensures found <==> tid in list
      ensures found <==> tid in clock
    {
      if tid in clock {
        return true;
      }
      found := false;
      for i := 0 to |list|
        invariant !found && forall j :: 0 <= j < i ==> list[j] != tid
      {
        if tid == list[i] {
          found := true;
          break;
        }
      }
    }

    method Insert(tid: Tid, now: nat)
      requires Valid() && tid !in list
      modifies this
      ensures Valid() && Abs() == old(Abs()).Insert(tid, now)
    {
      NoDupConcat(list, [tid]);
      list := list + [tid];
      clock := clock[tid := now];
    }

    /** Linear search, then removal from both. */
    method Erase(tid: Tid)
      requires Valid() && tid in list
      modifies this
      ensures Valid() && Abs() == old(Abs()).Erase({tid})
    {
      var i := 0;
      while i < |list| && tid != list[i]
        invariant 0 <= i <= |list| && forall j :: 0 <= j < i ==> list[j] != tid
      {
        i := i + 1;
      }
      RejectNoDup(list, {tid});
      RejectIn(list, {tid});
      TakeFirst(list, {tid}, i);
      list := list[..i] + list[i + 1..];
      clock := clock - {tid};
    }

    /** The two containers have the same size. */
    method Size() returns (n: nat)
      requires Valid()
      ensures n == |list| == |clock|
    {
      NoDupSize(list);
      assert Elems(list) == clock.Keys;
      n := |list|;
    }

    method FirstThread() returns (tid: Tid)
      requires Valid() && list != []
      ensures tid == list[0] && tid in clock
    {
      tid := list[0];
    }

    method GetClock(tid: Tid) returns (c: nat)
      requires Valid() && tid in list
      ensures c == clock[tid]
    {
      c := clock[tid];
    }
  }
}
