/** The per-user lock registry. Locking itself is not modelled: each ledger call is
    atomic here, so a lock is only an object whose identity matters. */
module LockFactory {
  import opened Longs

  /** A lock object; only its identity is modelled. */
  class ReentrantLock {
    constructor ()
    {
    }
  }

  /** The get-or-create step of `computeIfAbsent`: `m` gains `k -> v` only when `k` is absent. */
  function InsertIfAbsent<K, V>(m: map<K, V>, k: K, v: V): (r: map<K, V>)
    ensures k in r && r[k] == (if k in m then m[k] else v)
    ensures r.Keys == m.Keys + {k}
    ensures forall j :: j in m ==> j in r && r[j] == m[j]
  {
    if k in m then m else m[k := v]
  }

  /** Inserting a key that is already present changes nothing. */
  lemma InsertIfAbsentIdempotent<K, V>(m: map<K, V>, k: K, v: V, w: V)
    ensures InsertIfAbsent(InsertIfAbsent(m, k, v), k, w) == InsertIfAbsent(m, k, v)
  {
  }

  /** At most one entry is added. */
  lemma InsertIfAbsentGrowsByAtMostOne<K, V>(m: map<K, V>, k: K, v: V)
    ensures |InsertIfAbsent(m, k, v)| == if k in m then |m| else |m| + 1
  {
  }

  class ConcurrentAndReentraantLockFactory {
    /** One lock per user id, created on first request; there is no removal. */
    var lockMap: map<long, ReentrantLock>
    /** The single global lock of the comparison variant. */
    const reentrantLock: ReentrantLock

    constructor ()
      ensures lockMap == map[]
      ensures fresh(reentrantLock)
    {
      lockMap := map[];
      reentrantLock := new ReentrantLock();
    }

    /** Returns the lock stored for `id`, creating and storing a new one if there is none. */
    method GetLock(id: long) returns (lock: ReentrantLock)
      modifies this
      ensures lockMap == InsertIfAbsent(old(lockMap), id, lock)
      ensures id in old(lockMap) ==> lock == old(lockMap)[id] && lockMap == old(lockMap)
      ensures id !in old(lockMap) ==> fresh(lock) && lockMap == old(lockMap)[id := lock]
    {
      if id in lockMap {
        lock := lockMap[id];
      } else {
        lock := new ReentrantLock();
        lockMap := lockMap[id := lock];
      }
    }

    /** The global lock; it is fixed at construction, so every call returns the same object. */
    method GetReentrantLock() returns (lock: ReentrantLock)
      ensures lock == reentrantLock
    {
      lock := reentrantLock;
    }
  }

  /** Two requests for the same id yield the same lock, and the second one does not grow the map. */
  method GetLockTwice(factory: ConcurrentAndReentraantLockFactory, id: long)
    returns (first: ReentrantLock, second: ReentrantLock)
    modifies factory
    ensures first == second
    ensures factory.lockMap == InsertIfAbsent(old(factory.lockMap), id, first)
    ensures |factory.lockMap| <= |old(factory.lockMap)| + 1
  {
    first := factory.GetLock(id);
    ghost var between := factory.lockMap;
    second := factory.GetLock(id);
    assert factory.lockMap == between;
    InsertIfAbsentGrowsByAtMostOne(old(factory.lockMap), id, first);
  }
}
