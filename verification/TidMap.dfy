/** TidMap: the two maps between pthread ids and thread ids, and the zombies. */
module TidMaps {
  import opened Queues

  type Pthread = nat

  const INVALID_TID: int := -1

  class TidMap {
    var ptMap: map<Pthread, Tid>
    var tpMap: map<Tid, Pthread>
    var zombies: set<Pthread>
    var nthread: nat
    ghost var given: seq<Pthread>   // whom each thread id was given to, ever

    /** The maps are mutual inverses; a thread id belongs for good to the thread
        it was first given to. */
    ghost predicate Valid()
      reads this
    {
      && (forall p :: p in ptMap ==> ptMap[p] in tpMap && tpMap[ptMap[p]] == p)
      && (forall t :: t in tpMap ==> tpMap[t] in ptMap && ptMap[tpMap[t]] == t)
      && |given| == nthread
      && (forall t :: t in tpMap ==> t < nthread && given[t] == tpMap[t])
    }

    /** No live thread has the pthread id of a zombie: zombie() can be trusted. */
    ghost predicate NoLiveZombie()
      reads this
    {
      forall p :: p in ptMap ==> p !in zombies
    }

    constructor (main: Pthread)
      ensures Valid() && NoLiveZombie() && ptMap == map[main := 0] && zombies == {} && given == [main]
    {
      ptMap, tpMap, zombies, nthread, given := map[main := 0], map[0 := main], {}, 1, [main];
    }

    /** The new thread id has never been given before.  The pthread id may be that
        of a zombie, if it is reused before a join; exactly then a live thread is
        taken for a zombie. */
    method Create(th: Pthread) returns (tid: Tid)
      requires Valid() && th !in ptMap
      modifies this
      ensures Valid() && tid == old(nthread) && given == old(given) + [th]
      ensures ptMap == old(ptMap)[th := tid] && zombies == old(zombies)
      ensures tid !in old(tpMap) && tpMap == old(tpMap)[tid := th]
      ensures old(NoLiveZombie()) ==> (NoLiveZombie() <==> th !in old(zombies))
    {
      ptMap := ptMap[th := nthread];
      tpMap := tpMap[nthread := th];
      tid := nthread;
      nthread := nthread + 1;
      given := given + [th];
    }

    /** The ending thread `tid`, known to pthreads as `th`, becomes a zombie. */
    method Zombify(tid: Tid, th: Pthread)
      requires Valid() && tid in tpMap && tpMap[tid] == th
      modifies this`ptMap, this`tpMap, this`zombies
      ensures Valid() && zombies == old(zombies) + {th} && (old(NoLiveZombie()) ==> NoLiveZombie())
      ensures ptMap == old(ptMap) - {th} && tpMap == old(tpMap) - {tid}
    {
      zombies := zombies + {tpMap[tid]};
      ptMap := ptMap - {tpMap[tid]};
      tpMap := tpMap - {tid};
    }

    method Reap(th: Pthread)
      requires Valid()
      modifies this`zombies
      ensures Valid() && zombies == old(zombies) - {th} && (old(NoLiveZombie()) ==> NoLiveZombie())
    {
      zombies := zombies - {th};
    }

    method GetTid(th: Pthread) returns (tid: int)
      requires Valid()
      ensures tid == INVALID_TID <==> th !in ptMap
      ensures tid != INVALID_TID ==> tid in tpMap && tpMap[tid] == th
    {
      if th in ptMap {
        return ptMap[th];
      }
      return INVALID_TID;
    }

    method GetPthreadTid(tid: int) returns (th: int)
      requires Valid()
      ensures th == INVALID_TID <==> !(tid in tpMap)
      ensures th != INVALID_TID ==> th in ptMap && ptMap[th] == tid
    {
      if tid in tpMap {
        return tpMap[tid];
      }
      return INVALID_TID;
    }
  }
}
