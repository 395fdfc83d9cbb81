/**
 The queue locks of `QueueLockManager`: a map of timed locks that are taken by a two-phase
 lookup, released by their holder and evicted by age by a background cleaner.

 The specification is a plain test-and-set over the map of held keys and their lock times;
 `Held` is the abstraction.
 */
module LockTable {

  datatype TimedLock = TimedLock(locked: bool, time: nat)

  // ---------------------------------------------------------------- specification

  /** One atomic attempt: the key is taken exactly when nobody holds it. */
  function TestAndSet<K>(held: map<K, nat>, k: K, now: nat): (map<K, nat>, bool) {
    if k in held then (held, false) else (held[k := now], true)
  }

  function Release<K>(held: map<K, nat>, k: K): map<K, nat> {
    held - {k}
  }

  /** A hold survives the cleaner up to and including age `expiry`. */
  function Sweep<K>(held: map<K, nat>, keys: set<K>, now: nat, expiry: nat): map<K, nat> {
    map k | k in held && (k in keys ==> now - held[k] <= expiry) :: held[k]
  }

  // ---------------------------------------------------------------- the cache

  /** `TimedLock::try_lock` on an entry that is there. */
  function TryEntry<K>(cache: map<K, TimedLock>, k: K, now: nat): (map<K, TimedLock>, bool)
    requires k in cache
  {
    if cache[k].locked then (cache, false) else (cache[k := TimedLock(true, now)], true)
  }

  /** First phase, under the read lock: no answer when the entry is missing. */
  function Lookup<K>(cache: map<K, TimedLock>, k: K, now: nat): (map<K, TimedLock>, bool)
  {
    if k in cache then TryEntry(cache, k, now) else (cache, false)
  }

  /** Second phase, under the write lock: the entry may have appeared in between. */
  function InsertAndTry<K>(cache: map<K, TimedLock>, k: K, now: nat): (map<K, TimedLock>, bool) {
    var present := if k in cache then cache else cache[k := TimedLock(false, now)];
    TryEntry(present, k, now)
  }

  function Unlock<K>(cache: map<K, TimedLock>, k: K): map<K, TimedLock> {
    if k in cache then cache[k := cache[k].(locked := false)] else cache
  }

  /**
   The cleaner's `retain` over some of the keys at one reading of the clock; it does not look
   at `locked`. A pass is one of these over all keys, or several if the clock moves meanwhile.
   */
  function Evict<K>(cache: map<K, TimedLock>, keys: set<K>, now: nat, expiry: nat): map<K, TimedLock> {
    map k | k in cache && (k in keys ==> now - cache[k].time <= expiry) :: cache[k]
  }

  function Held<K>(cache: map<K, TimedLock>): map<K, nat> {
    map k | k in cache && cache[k].locked :: cache[k].time
  }

  // ---------------------------------------------------------------- refinement

  /** The second phase is a test-and-set, whatever happened since the first. */
  lemma InsertAndTryRefines<K>(cache: map<K, TimedLock>, k: K, now: nat)
    ensures var (cache', ok) := InsertAndTry(cache, k, now);
            (Held(cache'), ok) == TestAndSet(Held(cache), k, now)
  {
    var (cache', ok) := InsertAndTry(cache, k, now);
    assert Held(cache') == TestAndSet(Held(cache), k, now).0;
  }

  /** The first phase is a test-and-set when it finds an entry, and no step at all otherwise. */
  lemma LookupRefines<K>(cache: map<K, TimedLock>, k: K, now: nat)
    ensures var (cache', ok) := Lookup(cache, k, now);
            (Held(cache'), ok) == if k in cache then TestAndSet(Held(cache), k, now) else (Held(cache), false)
  {
    var (cache', ok) := Lookup(cache, k, now);
    if k in cache {
      assert Held(cache') == TestAndSet(Held(cache), k, now).0;
    }
  }

  lemma UnlockRefines<K>(cache: map<K, TimedLock>, k: K)
    ensures Held(Unlock(cache, k)) == Release(Held(cache), k)
  {
  }

  lemma EvictRefines<K>(cache: map<K, TimedLock>, keys: set<K>, now: nat, expiry: nat)
    ensures Held(Evict(cache, keys, now, expiry)) == Sweep(Held(cache), keys, now, expiry)
  {
  }

  /** Two attempts on one key cannot both succeed unless it was released or evicted in between. */
  lemma SecondAttemptFails<K>(cache: map<K, TimedLock>, k: K, now: nat, later: nat)
    ensures !InsertAndTry(InsertAndTry(cache, k, now).0, k, later).1
    ensures InsertAndTry(InsertAndTry(cache, k, now).0, k, later).0 == InsertAndTry(cache, k, now).0
  {
  }

  // ---------------------------------------------------------------- the manager

  class QueueLockManager<K(==)> {
    var cache: map<K, TimedLock>

    constructor ()
      ensures cache == map[]
    {
      cache := map[];
    }

    /** `try_lock_with_key` with nothing in between its two phases. */
    method TryLockWithKey(k: K, now: nat) returns (ok: bool)
      modifies this
      ensures (Held(cache), ok) == TestAndSet(Held(old(cache)), k, now)
      ensures k in cache && cache[k].locked
      ensures cache - {k} == old(cache) - {k}
      ensures !ok ==> cache == old(cache)
    {
      if k in cache {
        if cache[k].locked { return false; }
        cache := cache[k := TimedLock(true, now)];
        ok := true;
      } else {
        cache := cache[k := TimedLock(false, now)];
        cache := cache[k := TimedLock(true, now)];
        ok := true;
      }
      assert Held(cache) == TestAndSet(Held(old(cache)), k, now).0;
    }

    method UnlockWithKey(k: K)
      modifies this
      ensures Held(cache) == Release(Held(old(cache)), k)
      ensures cache.Keys == old(cache).Keys
    {
      if k in cache {
        cache := cache[k := cache[k].(locked := false)];
      }
      assert Held(cache) == Release(Held(old(cache)), k);
    }

    /** `clean_unused_locks`; the result is the size before the pass. */
    method CleanUnusedLocks(now: nat, expiry: nat) returns (count: nat)
      modifies this
      ensures Held(cache) == Sweep(Held(old(cache)), old(cache).Keys, now, expiry)
      ensures forall k :: k in cache <==> k in old(cache) && now - old(cache)[k].time <= expiry
      ensures forall k :: k in cache ==> cache[k] == old(cache)[k]
      ensures count == |old(cache)|
    {
      count := |cache|;
      var todo := cache.Keys;
      while todo != {}
        invariant todo <= old(cache).Keys
        invariant forall k :: k in cache ==> k in old(cache) && cache[k] == old(cache)[k]
        invariant forall k :: k in old(cache) && (k in todo || now - old(cache)[k].time <= expiry) ==> k in cache
        invariant forall k :: k in cache && k !in todo ==> now - old(cache)[k].time <= expiry
        decreases todo
      {
        var k :| k in todo;
        if now - cache[k].time > expiry {
          cache := cache - {k};
        }
        todo := todo - {k};
      }
      assert cache == Evict(old(cache), old(cache).Keys, now, expiry);
      EvictRefines(old(cache), old(cache).Keys, now, expiry);
    }
  }
}
