/**
 The broker as a concurrent machine: any number of workers (pop requests, the scan of the merge
 service, ordered acknowledgements and ordered visibility changes) over any number of queues,
 sharing the lock cache, with the cleaner, the clock and everything that happens outside a lock
 interleaved freely.

 `Refines` says what makes the protocol tractable: as long as the cleaner evicts no lock that is
 being held, every step of the broker is, on each queue, one step of the sequential machine of
 PopQueue or nothing.
 */
module PopBroker {
  import opened Prelude
  import opened LockTable
  import opened PopQueue

  /** What the lock key, the offset key and the counter key are built from. */
  datatype Key = Key(topic: string, group: string, queue: int)

  /** Waiting: the first phase found no entry and the second has not run yet. */
  datatype Worker =
    | Waiting(key: Key, job: Job)
    | Inside(key: Key, phase: Phase, since: nat)

  datatype Broker = Broker(clock: nat, cache: map<Key, TimedLock>, workers: map<nat, Worker>, queues: map<Key, Queue>)

  datatype Event =
    | Tick(elapsed: nat)
    | Try(tid: nat, key: Key, job: Job)
    | Retry(tid: nat)
    | Act(tid: nat, choice: Choice)
    | Finish(tid: nat)
    | Walk(tid: nat)
    | Clean(keys: set<Key>)
    | Happen(key: Key, env: Env)

  predicate Admissible(q: Queue, job: Job) {
    && (job.Pop? ==> job.want <= MAX_POP)
    && (job.AckOrderly? ==> q.ordered)
  }

  predicate InsideAt(b: Broker, tid: nat) {
    tid in b.workers && b.workers[tid].Inside? && b.workers[tid].key in b.queues
  }

  ghost predicate CanDo(cfg: Config, b: Broker, e: Event) {
    match e
    case Tick(_) => true
    case Try(tid, key, job) => tid !in b.workers && key in b.queues && Admissible(b.queues[key], job)
    case Retry(tid) => tid in b.workers && b.workers[tid].Waiting?
    case Act(tid, c) => InsideAt(b, tid) && CanWork(cfg, b.queues[b.workers[tid].key], b.workers[tid].phase, c)
    case Finish(tid) => InsideAt(b, tid) && b.workers[tid].phase.Leaving?
    case Walk(tid) => InsideAt(b, tid) && CanAbandon(b.queues[b.workers[tid].key], b.workers[tid].phase)
    case Clean(_) => true
    case Happen(key, env) => key in b.queues && CanEnv(b.queues[key], env)
  }

  /** The outcome of an attempt that tested the lock. */
  function Attempted(b: Broker, tid: nat, key: Key, job: Job, result: (map<Key, TimedLock>, bool)): Broker {
    if result.1 then b.(cache := result.0, workers := b.workers[tid := Inside(key, Entered(job), b.clock)])
    else b.(cache := result.0, workers := b.workers - {tid})
  }

  ghost function Next(cfg: Config, b: Broker, e: Event): Broker
    requires CanDo(cfg, b, e)
  {
    match e
    case Tick(d) => b.(clock := b.clock + d)
    case Try(tid, key, job) =>
      if key in b.cache then Attempted(b, tid, key, job, Lookup(b.cache, key, b.clock))
      else b.(workers := b.workers[tid := Waiting(key, job)])
    case Retry(tid) =>
      var w := b.workers[tid];
      Attempted(b, tid, w.key, w.job, InsertAndTry(b.cache, w.key, b.clock))
    case Act(tid, c) =>
      var w := b.workers[tid];
      var (q, p) := Work(cfg, b.queues[w.key], w.phase, c);
      b.(queues := b.queues[w.key := q], workers := b.workers[tid := w.(phase := p)])
    case Finish(tid) => b.(cache := Unlock(b.cache, b.workers[tid].key), workers := b.workers - {tid})
    case Walk(tid) => b.(workers := b.workers - {tid})
    case Clean(keys) => b.(cache := LockTable.Evict(b.cache, keys, b.clock, cfg.lease))
    case Happen(key, env) => b.(queues := b.queues[key := ApplyEnv(b.queues[key], env)])
  }

  // ---------------------------------------------------------------- mutual exclusion

  /** Nobody else is inside the same queue. */
  ghost predicate Exclusive(b: Broker) {
    forall s, t | s in b.workers && t in b.workers && b.workers[s].Inside? && b.workers[t].Inside?
                  && b.workers[s].key == b.workers[t].key :: s == t
  }

  /** Whoever is inside holds the lock it took, and the lock still carries the time it was taken. */
  ghost predicate Backed(b: Broker) {
    forall t | t in b.workers && b.workers[t].Inside? ::
      && b.workers[t].key in b.queues
      && b.workers[t].key in b.cache
      && b.cache[b.workers[t].key] == TimedLock(true, b.workers[t].since)
  }

  ghost predicate LockInv(b: Broker) {
    && Exclusive(b)
    && Backed(b)
    && (forall t | t in b.workers && b.workers[t].Waiting? ::
          b.workers[t].key in b.queues && Admissible(b.queues[b.workers[t].key], b.workers[t].job))
  }

  /** The cleaner comes by only while every hold of the swept keys is within the lease. */
  ghost predicate InLease(cfg: Config, b: Broker, e: Event) {
    e.Clean? ==>
      forall t | t in b.workers && b.workers[t].Inside? && b.workers[t].key in e.keys ::
        b.clock - b.workers[t].since <= cfg.lease
  }

  lemma OrderIsFixed(cfg: Config, b: Broker, e: Event, k: Key)
    requires CanDo(cfg, b, e) && k in b.queues
    ensures k in Next(cfg, b, e).queues && Next(cfg, b, e).queues[k].ordered == b.queues[k].ordered
  {
  }

  lemma AttemptKeepsLockInv(b: Broker, tid: nat, key: Key, job: Job, result: (map<Key, TimedLock>, bool))
    requires LockInv(b) && key in b.queues && (tid in b.workers ==> b.workers[tid].Waiting?)
    requires result == InsertAndTry(b.cache, key, b.clock)
    ensures LockInv(Attempted(b, tid, key, job, result))
  {
  }

  lemma NextKeepsLockInv(cfg: Config, b: Broker, e: Event)
    requires LockInv(b) && CanDo(cfg, b, e) && InLease(cfg, b, e)
    ensures LockInv(Next(cfg, b, e))
  {
    match e
    case Try(tid, key, job) =>
      if key in b.cache { AttemptKeepsLockInv(b, tid, key, job, InsertAndTry(b.cache, key, b.clock)); }
    case Retry(tid) =>
      var w := b.workers[tid];
      AttemptKeepsLockInv(b, tid, w.key, w.job, InsertAndTry(b.cache, w.key, b.clock));
    case Act(tid, c) =>
      forall t | t in b.workers && b.workers[t].Waiting?
          ensures Admissible(Next(cfg, b, e).queues[b.workers[t].key], b.workers[t].job) {
        OrderIsFixed(cfg, b, e, b.workers[t].key);
      }
    case Happen(key, env) =>
      forall t | t in b.workers && b.workers[t].Waiting?
          ensures Admissible(Next(cfg, b, e).queues[b.workers[t].key], b.workers[t].job) {
        OrderIsFixed(cfg, b, e, b.workers[t].key);
      }
    case _ =>
  }

  /** The lease is the exact condition: a sweep leaves every holder its lock iff none is over it. */
  lemma CleanIsSafeIffInLease(cfg: Config, b: Broker, keys: set<Key>)
    requires LockInv(b)
    ensures LockInv(Next(cfg, b, Clean(keys))) <==> InLease(cfg, b, Clean(keys))
  {
    if InLease(cfg, b, Clean(keys)) {
      NextKeepsLockInv(cfg, b, Clean(keys));
    } else {
      var t :| t in b.workers && b.workers[t].Inside? && b.workers[t].key in keys
          && b.clock - b.workers[t].since > cfg.lease;
      assert b.cache[b.workers[t].key].time == b.workers[t].since;
      assert b.workers[t].key !in Next(cfg, b, Clean(keys)).cache;
    }
  }

  /**
   What goes wrong past the lease: two attempts later a second worker is inside the same queue.
   */
  lemma OverLeaseBreaksExclusion(cfg: Config, b: Broker, t: nat, s: nat, job: Job)
    requires LockInv(b) && InsideAt(b, t) && b.clock - b.workers[t].since > cfg.lease
    requires s !in b.workers && Admissible(b.queues[b.workers[t].key], job)
    ensures var k := b.workers[t].key;
            var b1 := Next(cfg, b, Clean({k}));
            && CanDo(cfg, b1, Try(s, k, job))
            && CanDo(cfg, Next(cfg, b1, Try(s, k, job)), Retry(s))
            && !Exclusive(Next(cfg, Next(cfg, b1, Try(s, k, job)), Retry(s)))
  {
    var k := b.workers[t].key;
    var b1 := Next(cfg, b, Clean({k}));
    assert k !in b1.cache;
    var b2 := Next(cfg, b1, Try(s, k, job));
    assert b2.workers[s] == Waiting(k, job);
    var b3 := Next(cfg, b2, Retry(s));
    assert b3.workers[s].Inside? && b3.workers[t].Inside? && b3.workers[s].key == b3.workers[t].key && s != t;
  }

  /** What a step does to the holds, in terms of the atomic lock: who walks away leaves the lock held. */
  ghost function HeldAfter(cfg: Config, b: Broker, e: Event): map<Key, nat>
    requires CanDo(cfg, b, e)
  {
    var held := Held(b.cache);
    match e
    case Try(_, key, _) => if key in b.cache then TestAndSet(held, key, b.clock).0 else held
    case Retry(tid) => TestAndSet(held, b.workers[tid].key, b.clock).0
    case Finish(tid) => Release(held, b.workers[tid].key)
    case Clean(keys) => Sweep(held, keys, b.clock, cfg.lease)
    case _ => held
  }

  /** The lock cache of the broker is the atomic lock, step by step, lease kept or not. */
  lemma LocksRefine(cfg: Config, b: Broker, e: Event)
    requires CanDo(cfg, b, e)
    ensures Held(Next(cfg, b, e).cache) == HeldAfter(cfg, b, e)
  {
    match e
    case Try(_, key, _) => LookupRefines(b.cache, key, b.clock);
    case Retry(tid) => InsertAndTryRefines(b.cache, b.workers[tid].key, b.clock);
    case Finish(tid) => UnlockRefines(b.cache, b.workers[tid].key);
    case Clean(keys) => EvictRefines(b.cache, keys, b.clock, cfg.lease);
    case _ =>
  }

  /** A worker that finishes gives its lock back, and nobody else's. */
  lemma FinishReleases(cfg: Config, b: Broker, tid: nat)
    requires LockInv(b) && CanDo(cfg, b, Finish(tid))
    ensures var b', k := Next(cfg, b, Finish(tid)), b.workers[tid].key;
            && k in Held(b.cache) && k !in Held(b'.cache) && !Occupied(b', k)
            && (forall j | j != k :: j in Held(b'.cache) <==> j in Held(b.cache))
            && (forall j | j != k && j in Held(b.cache) :: Held(b'.cache)[j] == Held(b.cache)[j])
  {
    LocksRefine(cfg, b, Finish(tid));
  }

  // ---------------------------------------------------------------- refinement, queue by queue

  ghost predicate Occupied(b: Broker, k: Key) {
    exists t :: t in b.workers && b.workers[t].Inside? && b.workers[t].key == k
  }

  ghost function Occupant(b: Broker, k: Key): (t: nat)
    requires Occupied(b, k)
    ensures t in b.workers && b.workers[t].Inside? && b.workers[t].key == k
  {
    var t :| t in b.workers && b.workers[t].Inside? && b.workers[t].key == k;
    t
  }

  /** The broker seen from one queue. */
  ghost function View(b: Broker, k: Key): KeyState
    requires k in b.queues
  {
    KeyState(b.queues[k], if Occupied(b, k) then Some(b.workers[Occupant(b, k)].phase) else None)
  }

  /** The step of the sequential machine that event `e` is on queue `k`, if any. */
  ghost function Seen(b: Broker, e: Event, k: Key): Option<KeyEvent> {
    match e
    case Try(_, key, job) => if key == k && k in b.cache && !b.cache[k].locked then Some(Enter(job)) else None
    case Retry(tid) =>
      if tid in b.workers && b.workers[tid].key == k && b.workers[tid].Waiting? && !(k in b.cache && b.cache[k].locked)
      then Some(Enter(b.workers[tid].job)) else None
    case Act(tid, c) => if tid in b.workers && b.workers[tid].key == k then Some(Do(c)) else None
    case Finish(tid) => if tid in b.workers && b.workers[tid].key == k then Some(Exit) else None
    case Walk(tid) => if tid in b.workers && b.workers[tid].key == k then Some(Abandon) else None
    case Happen(key, env) => if key == k then Some(Outside(env)) else None
    case _ => None
  }

  ghost predicate Simulates(cfg: Config, b: Broker, e: Event, k: Key)
    requires CanDo(cfg, b, e) && k in b.queues
  {
    && k in Next(cfg, b, e).queues
    && match Seen(b, e, k)
       case None => View(Next(cfg, b, e), k) == View(b, k)
       case Some(ke) => CanStep(cfg, View(b, k), ke) && View(Next(cfg, b, e), k) == Step(cfg, View(b, k), ke)
  }

  /** The view of a queue depends on who is inside it, and on nothing else of the workers. */
  lemma SameView(b: Broker, b': Broker, k: Key)
    requires k in b.queues && k in b'.queues && b.queues[k] == b'.queues[k]
    requires Exclusive(b) && Exclusive(b')
    requires forall t | t in b.workers && b.workers[t].Inside? && b.workers[t].key == k ::
               t in b'.workers && b'.workers[t].Inside? && b'.workers[t].key == k
                   && b'.workers[t].phase == b.workers[t].phase
    requires forall t | t in b'.workers && b'.workers[t].Inside? && b'.workers[t].key == k ::
               t in b.workers && b.workers[t].Inside? && b.workers[t].key == k
    ensures View(b', k) == View(b, k)
  {
  }

  lemma ViewOf(b: Broker, t: nat)
    requires InsideAt(b, t) && Exclusive(b)
    ensures View(b, b.workers[t].key) == KeyState(b.queues[b.workers[t].key], Some(b.workers[t].phase))
  {
    assert Occupied(b, b.workers[t].key);
  }

  lemma TrySimulates(cfg: Config, b: Broker, e: Event, k: Key)
    requires LockInv(b) && CanDo(cfg, b, e) && e.Try? && k in b.queues
    ensures Simulates(cfg, b, e, k)
  {
    NextKeepsLockInv(cfg, b, e);
    var b' := Next(cfg, b, e);
    if Seen(b, e, k).Some? {
      assert !Occupied(b, k);
      ViewOf(b', e.tid);
    } else {
      SameView(b, b', k);
    }
  }

  lemma RetrySimulates(cfg: Config, b: Broker, e: Event, k: Key)
    requires LockInv(b) && CanDo(cfg, b, e) && e.Retry? && k in b.queues
    ensures Simulates(cfg, b, e, k)
  {
    NextKeepsLockInv(cfg, b, e);
    var b' := Next(cfg, b, e);
    if Seen(b, e, k).Some? {
      assert !Occupied(b, k);
      ViewOf(b', e.tid);
    } else {
      SameView(b, b', k);
    }
  }

  lemma WorkerSimulates(cfg: Config, b: Broker, e: Event, k: Key)
    requires LockInv(b) && CanDo(cfg, b, e) && (e.Act? || e.Finish? || e.Walk?) && k in b.queues
    ensures Simulates(cfg, b, e, k)
  {
    NextKeepsLockInv(cfg, b, e);
    var b' := Next(cfg, b, e);
    if b.workers[e.tid].key == k {
      ViewOf(b, e.tid);
      if e.Act? { ViewOf(b', e.tid); }
      else { assert !Occupied(b', k); }
    } else {
      SameView(b, b', k);
    }
  }

  /** The clock, the cleaner and what happens outside the locks leave every worker where it is. */
  lemma OutsideSimulates(cfg: Config, b: Broker, e: Event, k: Key)
    requires LockInv(b) && CanDo(cfg, b, e) && InLease(cfg, b, e) && k in b.queues && (e.Tick? || e.Clean? || e.Happen?)
    ensures Simulates(cfg, b, e, k)
  {
    var b' := Next(cfg, b, e);
    NextKeepsLockInv(cfg, b, e);
    assert b'.workers == b.workers;
    if Occupied(b, k) { ViewOf(b, Occupant(b, k)); ViewOf(b', Occupant(b, k)); }
  }

  lemma Refines(cfg: Config, b: Broker, e: Event, k: Key)
    requires LockInv(b) && CanDo(cfg, b, e) && InLease(cfg, b, e) && k in b.queues
    ensures Simulates(cfg, b, e, k)
  {
    match e
    case Try(_, _, _) => TrySimulates(cfg, b, e, k);
    case Retry(_) => RetrySimulates(cfg, b, e, k);
    case Act(_, _) => WorkerSimulates(cfg, b, e, k);
    case Finish(_) => WorkerSimulates(cfg, b, e, k);
    case Walk(_) => WorkerSimulates(cfg, b, e, k);
    case Tick(_) => OutsideSimulates(cfg, b, e, k);
    case Clean(_) => OutsideSimulates(cfg, b, e, k);
    case Happen(_, _) => OutsideSimulates(cfg, b, e, k);
  }

  /**
   The other direction: whatever the sequential machine of a queue can do, the broker can do, an
   entry as long as nobody holds the lock.
   */
  lemma Realises(cfg: Config, b: Broker, k: Key, ke: KeyEvent, newcomer: nat) returns (e: Event)
    requires LockInv(b) && k in b.queues && CanStep(cfg, View(b, k), ke)
    requires ke.Enter? ==> k in b.cache && !b.cache[k].locked && newcomer !in b.workers
    ensures CanDo(cfg, b, e) && Seen(b, e, k) == Some(ke)
  {
    match ke
    case Enter(job) => e := Try(newcomer, k, job);
    case Outside(env) => e := Happen(k, env);
    case Do(c) => e := Act(Occupant(b, k), c);
    case Exit => e := Finish(Occupant(b, k));
    case Abandon => e := Walk(Occupant(b, k));
  }
}
