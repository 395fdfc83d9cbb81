/**
 The protocol's guarantees, over every run of the broker: any number of workers and queues, any
 interleaving, any outcome of reads and puts.
 */
module PopRuns {
  import opened Prelude
  import opened Checkpoint
  import opened Inflight
  import opened LockTable
  import opened PopQueue
  import opened PopShape
  import opened PopBroker
  import FlowBound
  import Coverage
  import Conservation
  import DisjointDelivery

  ghost predicate Initial(b: Broker) {
    && b.cache == map[] && b.workers == map[]
    && forall k | k in b.queues :: Fresh(b.queues[k]) && 0 <= b.queues[k].minOffset <= b.queues[k].maxOffset
  }

  ghost predicate IsRun(cfg: Config, run: seq<Broker>, events: seq<Event>) {
    && |run| == |events| + 1
    && Initial(run[0])
    && forall i | 0 <= i < |events| :: CanDo(cfg, run[i], events[i]) && run[i + 1] == Next(cfg, run[i], events[i])
  }

  /** Every hold ends within the lease, as far as the cleaner can tell. */
  ghost predicate LeaseKept(cfg: Config, run: seq<Broker>, events: seq<Event>)
    requires |run| == |events| + 1
  {
    forall i | 0 <= i < |events| :: InLease(cfg, run[i], events[i])
  }

  // ---------------------------------------------------------------- one step

  ghost predicate SafeView(cfg: Config, s: KeyState) {
    Shape(cfg, s) && FlowBound.Inv(cfg, s) && Coverage.Inv(s) && Conservation.RecordedHasCk(s)
  }

  ghost predicate Safe(cfg: Config, b: Broker) {
    && LockInv(b)
    && forall k | k in b.queues :: SafeView(cfg, View(b, k))
  }

  lemma NextKeepsQueues(cfg: Config, b: Broker, e: Event)
    requires CanDo(cfg, b, e)
    ensures Next(cfg, b, e).queues.Keys == b.queues.Keys
  {
  }

  lemma StepKeepsSafeView(cfg: Config, s: KeyState, e: KeyEvent)
    requires SafeView(cfg, s) && CanStep(cfg, s, e)
    ensures SafeView(cfg, Step(cfg, s, e))
  {
    StepKeepsShape(cfg, s, e);
    FlowBound.StepKeepsInv(cfg, s, e);
    Coverage.StepKeepsInv(cfg, s, e);
    Conservation.StepKeepsRecordedHasCk(cfg, s, e);
  }

  lemma NextKeepsSafe(cfg: Config, b: Broker, e: Event)
    requires Safe(cfg, b) && CanDo(cfg, b, e) && InLease(cfg, b, e)
    ensures Safe(cfg, Next(cfg, b, e))
  {
    NextKeepsLockInv(cfg, b, e);
    NextKeepsQueues(cfg, b, e);
    var b' := Next(cfg, b, e);
    forall k | k in b'.queues ensures SafeView(cfg, View(b', k)) {
      Refines(cfg, b, e, k);
      if Seen(b, e, k).Some? { StepKeepsSafeView(cfg, View(b, k), Seen(b, e, k).value); }
    }
  }

  lemma InitialSafe(cfg: Config, b: Broker)
    requires Initial(b)
    ensures Safe(cfg, b)
  {
    forall k | k in b.queues ensures SafeView(cfg, View(b, k)) {
      assert !Occupied(b, k);
      FreshIsShaped(cfg, b.queues[k]);
    }
  }

  lemma {:induction false} RunIsSafe(cfg: Config, run: seq<Broker>, events: seq<Event>, i: nat)
    requires IsRun(cfg, run, events) && LeaseKept(cfg, run, events) && i < |run|
    ensures Safe(cfg, run[i])
  {
    if i == 0 {
      InitialSafe(cfg, run[0]);
    } else {
      RunIsSafe(cfg, run, events, i - 1);
      NextKeepsSafe(cfg, run[i - 1], events[i - 1]);
    }
  }

  // ---------------------------------------------------------------- the theorems

  /** Lease mutual exclusion: at no point of the run are two workers inside one queue. */
  lemma MutualExclusion(cfg: Config, run: seq<Broker>, events: seq<Event>)
    requires IsRun(cfg, run, events) && LeaseKept(cfg, run, events)
    ensures forall i | 0 <= i < |run| :: Exclusive(run[i])
  {
    forall i | 0 <= i < |run| ensures Exclusive(run[i]) { RunIsSafe(cfg, run, events, i); }
  }

  /** Flow control: no queue's reported in-flight number ever passes the threshold by more than one pop. */
  lemma InFlightBounded(cfg: Config, run: seq<Broker>, events: seq<Event>, i: nat, k: Key)
    requires IsRun(cfg, run, events) && LeaseKept(cfg, run, events) && i < |run| && k in run[i].queues
    requires cfg.limited
    ensures Reported(run[i].queues[k].inflight) <= Max(cfg.threshold, 0) + Max(MAX_POP, cfg.maxBatch)
  {
    RunIsSafe(cfg, run, events, i);
    assert SafeView(cfg, View(run[i], k));
  }

  /**
   Coverage: the offsets put into a response are exactly those its checkpoint reconstructs, and
   every one the client has not acknowledged, unless another message of the batch strikes it, is
   guarded by a live checkpoint in which nothing marks it.
   */
  lemma DeliveredIsCovered(cfg: Config, run: seq<Broker>, events: seq<Event>, i: nat, k: Key, n: nat)
    requires IsRun(cfg, run, events) && LeaseKept(cfg, run, events) && i < |run| && k in run[i].queues
    requires n < |run[i].queues[k].log|
    ensures var q := run[i].queues[k];
            var d := q.log[n];
            && d.ck < |q.cks|
            && Offsets(q.cks[d.ck].point) == d.offsets
            && q.cks[d.ck].point.num == |d.offsets| <= MAX_POP
            && forall o | o in d.offsets && (d.ck, o) !in q.acked && Own(q.cks[d.ck].point, o) ::
                Coverage.Covered(q, d.ck, o)
  {
    RunIsSafe(cfg, run, events, i);
    var s := View(run[i], k);
    var q, d := s.q, s.q.log[n];
    assert SafeView(cfg, s) && Coverage.EntryExact(q, d) && Coverage.DueCovered(q, d);
    assert CkOk(q.cks[d.ck]);
    forall o | o in d.offsets && (d.ck, o) !in q.acked && Own(q.cks[d.ck].point, o)
        ensures Coverage.Covered(q, d.ck, o) {
      assert Coverage.Due(q, d, o);
    }
  }

  /** No message is left out when the diffs of the batch pass the test; a batch without gaps does. */
  lemma ExactBatchIsCovered(cfg: Config, run: seq<Broker>, events: seq<Event>, i: nat, k: Key, n: nat, o: int)
    requires IsRun(cfg, run, events) && LeaseKept(cfg, run, events) && i < |run| && k in run[i].queues
    requires n < |run[i].queues[k].log| && o in run[i].queues[k].log[n].offsets
    requires var q := run[i].queues[k]; (q.log[n].ck, o) !in q.acked
    ensures var q := run[i].queues[k];
            q.log[n].ck < |q.cks| && (SelfOrOutside(q.cks[q.log[n].ck].point) ==> Coverage.Covered(q, q.log[n].ck, o))
  {
    DeliveredIsCovered(cfg, run, events, i, k, n);
    RunIsSafe(cfg, run, events, i);
    var s := View(run[i], k);
    var d := s.q.log[n];
    assert SafeView(cfg, s) && CkOk(s.q.cks[d.ck]);
    InOffsetSet(s.q.cks[d.ck].point, o);
    MarksExactlyIff(s.q.cks[d.ck].point);
  }

  // ---------------------------------------------------------------- no double delivery

  /** The deque of commit offsets is thrown away only when everything in it is committed. */
  ghost predicate GarbageKept(run: seq<Broker>, events: seq<Event>)
    requires |run| == |events| + 1
  {
    forall i | 0 <= i < |events| && events[i].Happen? && events[i].env.Garbage? && events[i].key in run[i].queues ::
      DisjointDelivery.GarbageHarmless(run[i].queues[events[i].key])
  }

  lemma NextKeepsApart(cfg: Config, b: Broker, e: Event, k: Key)
    requires Safe(cfg, b) && CanDo(cfg, b, e) && InLease(cfg, b, e) && k in b.queues
    requires DisjointDelivery.Inv(View(b, k))
    requires e == Happen(k, Garbage) ==> DisjointDelivery.GarbageHarmless(b.queues[k])
    ensures k in Next(cfg, b, e).queues && DisjointDelivery.Inv(View(Next(cfg, b, e), k))
  {
    Refines(cfg, b, e, k);
    assert SafeView(cfg, View(b, k));
    if Seen(b, e, k).Some? {
      DisjointDelivery.StepKeepsInv(cfg, View(b, k), Seen(b, e, k).value);
    }
  }

  lemma InitialApart(b: Broker, k: Key)
    requires Initial(b) && k in b.queues
    ensures DisjointDelivery.Inv(View(b, k))
  {
    assert !Occupied(b, k);
    DisjointDelivery.FreshInv(b.queues[k]);
  }

  lemma GarbageKeptAt(run: seq<Broker>, events: seq<Event>, j: nat, k: Key)
    requires |run| == |events| + 1 && GarbageKept(run, events) && j < |events| && k in run[j].queues
    ensures events[j] == Happen(k, Garbage) ==> DisjointDelivery.GarbageHarmless(run[j].queues[k])
  {
  }

  lemma {:induction false} QueuesAreFixed(cfg: Config, run: seq<Broker>, events: seq<Event>, i: nat)
    requires IsRun(cfg, run, events) && i < |run|
    ensures run[i].queues.Keys == run[0].queues.Keys
  {
    if i > 0 {
      QueuesAreFixed(cfg, run, events, i - 1);
      NextKeepsQueues(cfg, run[i - 1], events[i - 1]);
    }
  }

  lemma {:induction false} RunIsApart(cfg: Config, run: seq<Broker>, events: seq<Event>, i: nat, k: Key)
    requires IsRun(cfg, run, events) && LeaseKept(cfg, run, events) && GarbageKept(run, events)
    requires i < |run| && k in run[0].queues
    ensures k in run[i].queues && DisjointDelivery.Inv(View(run[i], k))
  {
    if i == 0 {
      InitialApart(run[0], k);
    } else {
      RunIsApart(cfg, run, events, i - 1, k);
      RunIsSafe(cfg, run, events, i - 1);
      GarbageKeptAt(run, events, i - 1, k);
      NextKeepsApart(cfg, run[i - 1], events[i - 1], k);
    }
  }

  /** Between two resets, a later pop of a queue only hands out later messages. */
  lemma NoDoubleDelivery(cfg: Config, run: seq<Broker>, events: seq<Event>, i: nat, k: Key)
    requires IsRun(cfg, run, events) && LeaseKept(cfg, run, events) && GarbageKept(run, events)
    requires i < |run| && k in run[i].queues
    ensures var log := run[i].queues[k].log;
            forall m, n, x, y | 0 <= m < n < |log| && log[m].epoch == log[n].epoch
                                && x in log[m].offsets && y in log[n].offsets :: x < y
  {
    QueuesAreFixed(cfg, run, events, i);
    RunIsApart(cfg, run, events, i, k);
    RunIsSafe(cfg, run, events, i);
    var s := View(run[i], k);
    var log := s.q.log;
    assert SafeView(cfg, s);
    forall m, n, x, y | 0 <= m < n < |log| && log[m].epoch == log[n].epoch && x in log[m].offsets && y in log[n].offsets
      ensures x < y
    {
      assert Coverage.EntryExact(s.q, log[m]) && Coverage.EntryExact(s.q, log[n]);
      InOffsetSet(s.q.cks[log[m].ck].point, x);
      InOffsetSet(s.q.cks[log[n].ck].point, y);
      DisjointDelivery.ApartMessages(cfg, s, m, n, x, y);
    }
  }

  lemma InOffsetSet(ck: PopCheckPoint, o: int)
    requires o in Offsets(ck)
    ensures o in OffsetSet(ck)
  {
    var i :| 0 <= i < |ck.diffs| && Offsets(ck)[i] == o;
    assert AckOffsetByIndex(ck, i) == o;
  }

  /** The log is the history: nothing a run delivered is ever forgotten, lease kept or not. */
  lemma {:induction false} LogOnlyGrows(cfg: Config, run: seq<Broker>, events: seq<Event>, i: nat, j: nat, k: Key)
    requires IsRun(cfg, run, events) && i <= j < |run| && k in run[i].queues
    ensures k in run[j].queues && run[i].queues[k].log <= run[j].queues[k].log
  {
    if i < j {
      LogOnlyGrows(cfg, run, events, i, j - 1, k);
      NextGrowsLog(cfg, run[j - 1], events[j - 1], k);
    }
  }

  lemma NextGrowsLog(cfg: Config, b: Broker, e: Event, k: Key)
    requires CanDo(cfg, b, e) && k in b.queues
    ensures k in Next(cfg, b, e).queues && b.queues[k].log <= Next(cfg, b, e).queues[k].log
  {
    if e.Act? && b.workers[e.tid].key == k { WorkGrowsLog(cfg, b.queues[k], b.workers[e.tid].phase, e.choice); }
    if e.Happen? && e.key == k { assert ApplyEnv(b.queues[k], e.env).log == b.queues[k].log; }
  }

  lemma WorkGrowsLog(cfg: Config, q: Queue, p: Phase, c: Choice)
    ensures q.log <= Work(cfg, q, p, c).0.log
  {
  }

  // ---------------------------------------------------------------- conservation

  /** On queue `k`, every acknowledgement is counted and none repeats an earlier one. */
  ghost predicate AcksOnce(run: seq<Broker>, events: seq<Event>, k: Key)
    requires |run| == |events| + 1
  {
    forall i | 0 <= i < |events| && events[i].Happen? && events[i].key == k && k in run[i].queues ::
      Conservation.AcksOnce(run[i].queues[k], Outside(events[i].env))
  }

  lemma NextKeepsBalance(cfg: Config, b: Broker, e: Event, k: Key)
    requires Safe(cfg, b) && CanDo(cfg, b, e) && InLease(cfg, b, e) && k in b.queues && cfg.maxBatch <= 1
    requires Conservation.Inv(View(b, k))
    requires e.Happen? && e.key == k ==> Conservation.AcksOnce(b.queues[k], Outside(e.env))
    ensures k in Next(cfg, b, e).queues && Conservation.Inv(View(Next(cfg, b, e), k))
  {
    Refines(cfg, b, e, k);
    assert SafeView(cfg, View(b, k));
    if Seen(b, e, k).Some? {
      Conservation.StepKeepsInv(cfg, View(b, k), Seen(b, e, k).value);
    }
  }

  lemma InitialBalanced(b: Broker, k: Key)
    requires Initial(b) && k in b.queues && !b.queues[k].ordered
    ensures Conservation.Inv(View(b, k))
  {
    assert !Occupied(b, k);
    assert Conservation.HandedOut(b.queues[k]) == {};
  }

  lemma {:induction false} RunIsBalanced(cfg: Config, run: seq<Broker>, events: seq<Event>, i: nat, k: Key)
    requires IsRun(cfg, run, events) && LeaseKept(cfg, run, events) && AcksOnce(run, events, k)
    requires cfg.maxBatch <= 1 && i < |run| && k in run[0].queues && !run[0].queues[k].ordered
    ensures k in run[i].queues && Conservation.Inv(View(run[i], k))
  {
    if i == 0 {
      InitialBalanced(run[0], k);
    } else {
      RunIsBalanced(cfg, run, events, i - 1, k);
      RunIsSafe(cfg, run, events, i - 1);
      NextKeepsBalance(cfg, run[i - 1], events[i - 1], k);
    }
  }

  /** The counter is what was handed out minus what was acknowledged, at every point of the run. */
  lemma CounterIsBalance(cfg: Config, run: seq<Broker>, events: seq<Event>, i: nat, k: Key)
    requires IsRun(cfg, run, events) && LeaseKept(cfg, run, events) && AcksOnce(run, events, k)
    requires cfg.maxBatch <= 1 && i < |run| && k in run[0].queues && !run[0].queues[k].ordered
    ensures k in run[i].queues
    ensures var q := run[i].queues[k];
            q.acked <= Conservation.HandedOut(q) && q.inflight == |Conservation.HandedOut(q)| - |q.acked| >= 0
  {
    RunIsBalanced(cfg, run, events, i, k);
    var q := run[i].queues[k];
    Conservation.SubsetSize(q.acked, Conservation.HandedOut(q));
  }

  // ---------------------------------------------------------------- lease recovery

  /** The key whose lock this step takes. */
  ghost function Taken(b: Broker, e: Event): Option<Key> {
    match e
    case Try(_, key, _) => if key in b.cache && !b.cache[key].locked then Some(key) else None
    case Retry(tid) =>
      if tid in b.workers && !(b.workers[tid].key in b.cache && b.cache[b.workers[tid].key].locked)
      then Some(b.workers[tid].key) else None
    case _ => None
  }

  /** Leases kept or not: the time on a held lock is the time of some acquisition, never of a failed attempt. */
  lemma {:induction false} HeldSinceTaken(cfg: Config, run: seq<Broker>, events: seq<Event>, i: nat, k: Key)
      returns (m: nat)
    requires IsRun(cfg, run, events) && i < |run|
    requires k in run[i].cache && run[i].cache[k].locked
    ensures m < i && Taken(run[m], events[m]) == Some(k) && run[i].cache[k].time == run[m].clock
  {
    var b, e := run[i - 1], events[i - 1];
    assert run[i] == Next(cfg, b, e);
    if Taken(b, e) == Some(k) {
      m := i - 1;
    } else {
      assert k in b.cache && b.cache[k] == run[i].cache[k];
      m := HeldSinceTaken(cfg, run, events, i - 1, k);
    }
  }

  /**
   Lease recovery, in every run, even with holders that walked away: a cleaning pass that comes
   later than the lease after the last acquisition leaves the key free, so that the next attempt
   gets it.
   */
  lemma LeaseRecovers(cfg: Config, run: seq<Broker>, events: seq<Event>, j: nat, k: Key, tid: nat, job: Job)
    requires IsRun(cfg, run, events) && j < |events| && events[j].Clean? && k in events[j].keys
    requires forall m | 0 <= m < j && Taken(run[m], events[m]) == Some(k) :: run[m].clock + cfg.lease < run[j].clock
    requires tid !in run[j + 1].workers && k in run[j + 1].queues && Admissible(run[j + 1].queues[k], job)
    ensures k !in Held(run[j + 1].cache)
    ensures Acquires(cfg, run[j + 1], tid, k, job)
  {
    if k in run[j].cache && run[j].cache[k].locked {
      var m := HeldSinceTaken(cfg, run, events, j, k);
    }
    FreeIsAcquirable(cfg, run[j + 1], tid, k, job);
  }

  /** An attempt of `tid` on `k`, with nothing in between its phases, ends inside. */
  ghost predicate Acquires(cfg: Config, b: Broker, tid: nat, k: Key, job: Job) {
    && CanDo(cfg, b, Try(tid, k, job))
    && var b1 := Next(cfg, b, Try(tid, k, job));
       || (tid in b1.workers && b1.workers[tid].Inside?)
       || (CanDo(cfg, b1, Retry(tid)) &&
           var b2 := Next(cfg, b1, Retry(tid));
           tid in b2.workers && b2.workers[tid].Inside? && b2.workers[tid].key == k)
  }

  lemma FreeIsAcquirable(cfg: Config, b: Broker, tid: nat, k: Key, job: Job)
    requires tid !in b.workers && k in b.queues && Admissible(b.queues[k], job)
    ensures Acquires(cfg, b, tid, k, job) <==> k !in Held(b.cache)
  {
  }

  /** A pop that finishes makes room: the next attempt on its queue gets in. */
  lemma FinishMakesRoom(cfg: Config, b: Broker, tid: nat, other: nat, job: Job)
    requires LockInv(b) && CanDo(cfg, b, Finish(tid)) && other !in b.workers
    requires Admissible(b.queues[b.workers[tid].key], job)
    ensures Acquires(cfg, Next(cfg, b, Finish(tid)), other, b.workers[tid].key, job)
  {
    FinishReleases(cfg, b, tid);
    FreeIsAcquirable(cfg, Next(cfg, b, Finish(tid)), other, b.workers[tid].key, job);
  }

  /** Nobody walks away from queue `k`. */
  ghost predicate NoWalk(run: seq<Broker>, events: seq<Event>, k: Key)
    requires |run| == |events| + 1
  {
    forall i | 0 <= i < |events| && events[i].Walk? && events[i].tid in run[i].workers ::
      run[i].workers[events[i].tid].key != k
  }

  lemma NextKeepsHolders(cfg: Config, b: Broker, e: Event, k: Key)
    requires LockInv(b) && CanDo(cfg, b, e) && InLease(cfg, b, e)
    requires e.Walk? ==> b.workers[e.tid].key != k
    requires k in Held(b.cache) ==> Occupied(b, k)
    ensures k in Held(Next(cfg, b, e).cache) ==> Occupied(Next(cfg, b, e), k)
  {
    var b' := Next(cfg, b, e);
    LocksRefine(cfg, b, e);
    if k in Held(b'.cache) {
      if k in Held(b.cache) {
        var t := Occupant(b, k);
        assert t in b'.workers && b'.workers[t].Inside? && b'.workers[t].key == k;
      } else {
        assert e.tid in b'.workers && b'.workers[e.tid].Inside? && b'.workers[e.tid].key == k;
      }
    }
  }

  lemma OccupiedIsHeld(b: Broker, k: Key)
    requires LockInv(b) && Occupied(b, k)
    ensures k in Held(b.cache)
  {
    var t := Occupant(b, k);
  }

  lemma NoWalkAt(run: seq<Broker>, events: seq<Event>, j: nat, k: Key)
    requires |run| == |events| + 1 && NoWalk(run, events, k) && j < |events|
    ensures events[j].Walk? && events[j].tid in run[j].workers ==> run[j].workers[events[j].tid].key != k
  {
  }

  lemma {:induction false} HeldMeansOccupied(cfg: Config, run: seq<Broker>, events: seq<Event>, i: nat, k: Key)
    requires IsRun(cfg, run, events) && LeaseKept(cfg, run, events) && NoWalk(run, events, k) && i < |run|
    ensures k in Held(run[i].cache) ==> Occupied(run[i], k)
  {
    if i > 0 {
      HeldMeansOccupied(cfg, run, events, i - 1, k);
      RunIsSafe(cfg, run, events, i - 1);
      NoWalkAt(run, events, i - 1, k);
      NextKeepsHolders(cfg, run[i - 1], events[i - 1], k);
    }
  }

  /** Within the lease, a queue from which nobody walks away is locked if and only if somebody is inside. */
  lemma HeldIffOccupied(cfg: Config, run: seq<Broker>, events: seq<Event>, i: nat, k: Key)
    requires IsRun(cfg, run, events) && LeaseKept(cfg, run, events) && NoWalk(run, events, k) && i < |run|
    ensures k in Held(run[i].cache) <==> Occupied(run[i], k)
  {
    RunIsSafe(cfg, run, events, i);
    HeldMeansOccupied(cfg, run, events, i, k);
    if Occupied(run[i], k) { OccupiedIsHeld(run[i], k); }
  }

  /** A held key refuses: the attempt ends outside and changes no lock. */
  lemma HeldIsRefused(cfg: Config, b: Broker, tid: nat, k: Key, job: Job)
    requires CanDo(cfg, b, Try(tid, k, job)) && k in Held(b.cache)
    ensures Next(cfg, b, Try(tid, k, job)) == b
  {
    assert b.workers - {tid} == b.workers;
  }

  /** The same for the second phase. */
  lemma HeldRefusesRetry(cfg: Config, b: Broker, tid: nat)
    requires CanDo(cfg, b, Retry(tid)) && b.workers[tid].key in Held(b.cache)
    ensures Next(cfg, b, Retry(tid)) == b.(workers := b.workers - {tid})
  {
  }

  /** The lease runs out: however a key came to be held, it is free after enough time and one pass. */
  lemma LeaseRunsOut(cfg: Config, b: Broker, k: Key, elapsed: nat)
    requires k in Held(b.cache) && b.clock + elapsed > Held(b.cache)[k] + cfg.lease
    ensures k !in Held(Next(cfg, Next(cfg, b, Tick(elapsed)), Clean({k})).cache)
    ensures forall j | j != k && j in Held(b.cache) ::
              j in Held(Next(cfg, Next(cfg, b, Tick(elapsed)), Clean({k})).cache)
  {
    LocksRefine(cfg, Next(cfg, b, Tick(elapsed)), Clean({k}));
  }
}
