/**
 The asynchronous bounded queue: a deque under a mutex and one tokio `Notify` shared by producers
 and consumers. `Core` is what the mutex and the `Notify` protect; the machine below interleaves
 any number of tasks at every point where they can be suspended, including the window between
 "found it empty, dropped the mutex" and "registered as a waiter", and lets a timeout cancel a
 task anywhere.

 `Notify`: `notify_one` wakes the longest registered waiter, or stores a single permit when there
 is none; the first poll of `notified()` consumes a stored permit or registers; dropping a waiter
 that was woken but has not run yet passes the wake-up on.
 */
module BlockingQueue {
  import opened Prelude

  datatype Core<T> = Core(items: seq<T>, permit: bool, waiters: seq<nat>)

  // ---------------------------------------------------------------- atomic sections

  function NotifyOne<T>(c: Core<T>): (Core<T>, Option<nat>) {
    if c.waiters == [] then (c.(permit := true), None)
    else (c.(waiters := c.waiters[1..]), Some(c.waiters[0]))
  }

  /** One round of `put` under the mutex. */
  function PutSection<T>(c: Core<T>, capacity: nat, item: T): (Core<T>, bool, Option<nat>) {
    if |c.items| < capacity then
      var (c', woken) := NotifyOne(c.(items := c.items + [item]));
      (c', true, woken)
    else (c, false, None)
  }

  /** One round of `take` under the mutex. */
  function TakeSection<T>(c: Core<T>): (Core<T>, Option<T>, Option<nat>) {
    if c.items != [] then
      var (c', woken) := NotifyOne(c.(items := c.items[1..]));
      (c', Some(c.items[0]), woken)
    else (c, None, None)
  }

  /** `try_poll`: notifies when it finds nothing, and not when it takes something. */
  function TryPollSection<T>(c: Core<T>): (Core<T>, Option<T>, Option<nat>) {
    if c.items != [] then (c.(items := c.items[1..]), Some(c.items[0]), None)
    else
      var (c', woken) := NotifyOne(c);
      (c', None, woken)
  }

  /** First poll of `notified()`: true when a stored permit lets it through at once. */
  function RegisterSection<T>(c: Core<T>, tid: nat): (Core<T>, bool) {
    if c.permit then (c.(permit := false), true) else (c.(waiters := c.waiters + [tid]), false)
  }

  // ---------------------------------------------------------------- the queue object

  /** One signal was given: the longest waiter leaves the line with it, or it stays as the permit. */
  predicate Signalled<T(==)>(before: Core<T>, after: Core<T>, woken: Option<nat>) {
    match woken
    case Some(tid) => before.waiters == [tid] + after.waiters && after.permit == before.permit
    case None => before.waiters == [] == after.waiters && after.permit
  }

  /**
   The rounds under the mutex, as the machine below interleaves them. `entered` and `left` are
   the items that ever went in and came out.
   */
  class BlockingQueue<T(==)> {
    const capacity: nat
    var items: seq<T>
    var permit: bool
    var waiters: seq<nat>
    ghost var entered: seq<T>
    ghost var left: seq<T>

    function View(): Core<T>
      reads this
    {
      Core(items, permit, waiters)
    }

    /** First in, first out, within the capacity; nobody waits beside a permit. */
    ghost predicate Valid()
      reads this
    {
      entered == left + items && |items| <= capacity && (permit ==> waiters == [])
    }

    constructor (capacity: nat)
      ensures Valid() && this.capacity == capacity && entered == left == [] && View() == Core([], false, [])
    {
      this.capacity := capacity;
      items, permit, waiters := [], false, [];
      entered, left := [], [];
    }

    method NotifyOneWaiter() returns (woken: Option<nat>)
      requires Valid()
      modifies `permit, `waiters
      ensures Valid() && Signalled(old(View()), View(), woken)
      ensures (View(), woken) == NotifyOne(old(View()))
    {
      if waiters == [] {
        permit := true;
        return None;
      }
      woken := Some(waiters[0]);
      waiters := waiters[1..];
    }

    /** An item that finds room is the last to enter, and one signal goes out; otherwise nothing happens. */
    method PutRound(item: T) returns (done: bool, woken: Option<nat>)
      requires Valid()
      modifies this
      ensures Valid() && left == old(left)
      ensures done <==> |old(entered)| - |left| < capacity
      ensures done ==> entered == old(entered) + [item] && Signalled(old(View()), View(), woken)
      ensures !done ==> unchanged(this) && woken.None?
      ensures (View(), done, woken) == PutSection(old(View()), capacity, item)
    {
      if |items| < capacity {
        items := items + [item];
        entered := entered + [item];
        woken := NotifyOneWaiter();
        return true, woken;
      }
      return false, None;
    }

    /** The item that comes out is the oldest that has not left, and one signal goes out; otherwise nothing happens. */
    method TakeRound() returns (item: Option<T>, woken: Option<nat>)
      requires Valid()
      modifies this
      ensures Valid() && entered == old(entered)
      ensures item.Some? <==> |old(left)| < |entered|
      ensures item.Some? ==> item.value == entered[|old(left)|] && left == entered[..|old(left)| + 1]
      ensures item.Some? ==> Signalled(old(View()), View(), woken)
      ensures item.None? ==> unchanged(this) && woken.None?
      ensures (View(), item, woken) == TakeSection(old(View()))
    {
      if items != [] {
        item := Some(items[0]);
        items := items[1..];
        left := left + [item.value];
        woken := NotifyOneWaiter();
        return item, woken;
      }
      return None, None;
    }

    /** The same item without a signal; the signal goes out when there was nothing to take. */
    method TryPoll() returns (item: Option<T>, woken: Option<nat>)
      requires Valid()
      modifies this
      ensures Valid() && entered == old(entered)
      ensures item.Some? <==> |old(left)| < |entered|
      ensures item.Some? ==> item.value == entered[|old(left)|] && left == entered[..|old(left)| + 1]
      ensures item.Some? ==> woken.None? && permit == old(permit) && waiters == old(waiters)
      ensures item.None? ==> left == old(left) && Signalled(old(View()), View(), woken)
      ensures (View(), item, woken) == TryPollSection(old(View()))
    {
      if items != [] {
        item, woken := Some(items[0]), None;
        items := items[1..];
        left := left + [item.value];
      } else {
        item := None;
        woken := NotifyOneWaiter();
      }
    }
  }

  // ---------------------------------------------------------------- tasks

  /** Where a call is: before the mutex, past it without success, registered, woken, finished. */
  datatype Stage = Ready | Missed | Asleep | Woken

  datatype Task<T> =
    | Put(item: T, stage: Stage)
    | Take(stage: Stage)
    | PutDone(item: T)
    | TakeDone(item: T)
    | GaveUp

  /** The history: items in the order they went in and came out, with the call that moved them. */
  datatype System<T> = System(core: Core<T>, capacity: nat, tasks: map<nat, Task<T>>,
                              puts: seq<(nat, T)>, takes: seq<(nat, T)>)

  datatype Event<T> =
    | StartPut(tid: nat, item: T) | StartTake(tid: nat)
    | Lock(tid: nat) | Register(tid: nat) | Resume(tid: nat)
    | Cancel(tid: nat)
    | Poll(tid: nat)

  predicate Live<T>(t: Task<T>) {
    t.Put? || t.Take?
  }

  predicate At<T>(s: System<T>, tid: nat, stage: Stage) {
    tid in s.tasks && Live(s.tasks[tid]) && s.tasks[tid].stage == stage
  }

  predicate Can<T>(s: System<T>, e: Event<T>) {
    match e
    case StartPut(tid, _) => tid !in s.tasks
    case StartTake(tid) => tid !in s.tasks
    case Lock(tid) => At(s, tid, Ready)
    case Register(tid) => At(s, tid, Missed)
    case Resume(tid) => At(s, tid, Woken)
    case Cancel(tid) => tid in s.tasks && Live(s.tasks[tid])
    case Poll(tid) => tid !in s.tasks
  }

  /** The task a notification picked moves on when it is next polled. */
  function WakeUp<T>(tasks: map<nat, Task<T>>, woken: Option<nat>): map<nat, Task<T>> {
    if woken.Some? && woken.value in tasks && Live(tasks[woken.value])
    then tasks[woken.value := tasks[woken.value].(stage := Woken)] else tasks
  }

  function Without(waiters: seq<nat>, tid: nat): seq<nat> {
    if waiters == [] then []
    else if waiters[0] == tid then Without(waiters[1..], tid)
    else [waiters[0]] + Without(waiters[1..], tid)
  }

  function GiveUp<T>(s: System<T>, tid: nat): System<T> {
    var left := s.tasks[tid := GaveUp];
    if At(s, tid, Asleep) then s.(core := s.core.(waiters := Without(s.core.waiters, tid)), tasks := left)
    else if At(s, tid, Woken) then
      var (core, woken) := NotifyOne(s.core);
      s.(core := core, tasks := WakeUp(left, woken))
    else s.(tasks := left)
  }

  function Next<T>(s: System<T>, e: Event<T>): System<T>
    requires Can(s, e)
  {
    match e
    case StartPut(tid, item) => s.(tasks := s.tasks[tid := Put(item, Ready)])
    case StartTake(tid) => s.(tasks := s.tasks[tid := Take(Ready)])
    case Lock(tid) =>
      (match s.tasks[tid]
       case Put(item, _) =>
         var (core, done, woken) := PutSection(s.core, s.capacity, item);
         if done then s.(core := core, puts := s.puts + [(tid, item)],
                         tasks := WakeUp(s.tasks[tid := PutDone(item)], woken))
         else s.(tasks := s.tasks[tid := Put(item, Missed)])
       case Take(_) =>
         var (core, item, woken) := TakeSection(s.core);
         if item.Some? then s.(core := core, takes := s.takes + [(tid, item.value)],
                               tasks := WakeUp(s.tasks[tid := TakeDone(item.value)], woken))
         else s.(tasks := s.tasks[tid := Take(Missed)])
       case _ => s)
    case Register(tid) =>
      var (core, through) := RegisterSection(s.core, tid);
      s.(core := core, tasks := s.tasks[tid := s.tasks[tid].(stage := if through then Ready else Asleep)])
    case Resume(tid) => s.(tasks := s.tasks[tid := s.tasks[tid].(stage := Ready)])
    case Cancel(tid) => GiveUp(s, tid)
    case Poll(tid) =>
      var (core, item, woken) := TryPollSection(s.core);
      if item.Some? then s.(core := core, takes := s.takes + [(tid, item.value)],
                            tasks := WakeUp(s.tasks[tid := TakeDone(item.value)], woken))
      else s.(core := core, tasks := WakeUp(s.tasks[tid := GaveUp], woken))
  }

  predicate Initial<T>(s: System<T>) {
    s.core == Core([], false, []) && s.tasks == map[] && s.puts == [] && s.takes == []
  }

  ghost predicate IsRun<T>(run: seq<System<T>>, events: seq<Event<T>>) {
    && |run| == |events| + 1 && Initial(run[0])
    && forall i | 0 <= i < |events| :: Can(run[i], events[i]) && run[i + 1] == Next(run[i], events[i])
  }

  // ---------------------------------------------------------------- FIFO conservation

  function Items<T>(log: seq<(nat, T)>): seq<T> {
    seq(|log|, i requires 0 <= i < |log| => log[i].1)
  }

  ghost predicate Conserved<T>(s: System<T>) {
    Items(s.puts) == Items(s.takes) + s.core.items && |s.core.items| <= s.capacity
  }

  /** A call is in the log exactly when it finished, with the item it moved, and only once. */
  ghost predicate Accounted<T>(s: System<T>) {
    && (forall i | 0 <= i < |s.puts| :: s.puts[i].0 in s.tasks && s.tasks[s.puts[i].0] == PutDone(s.puts[i].1))
    && (forall i | 0 <= i < |s.takes| :: s.takes[i].0 in s.tasks && s.tasks[s.takes[i].0] == TakeDone(s.takes[i].1))
    && (forall i, j | 0 <= i < j < |s.puts| :: s.puts[i].0 != s.puts[j].0)
    && (forall i, j | 0 <= i < j < |s.takes| :: s.takes[i].0 != s.takes[j].0)
  }

  lemma ItemsAppend<T>(log: seq<(nat, T)>, x: (nat, T))
    ensures Items(log + [x]) == Items(log) + [x.1]
  {
  }

  lemma NextKeepsConserved<T>(s: System<T>, e: Event<T>)
    requires Conserved(s) && Can(s, e)
    ensures Conserved(Next(s, e))
  {
    var s' := Next(s, e);
    if s'.puts != s.puts { ItemsAppend(s.puts, s'.puts[|s.puts|]); }
    if s'.takes != s.takes {
      ItemsAppend(s.takes, s'.takes[|s.takes|]);
      assert s.core.items == [s.core.items[0]] + s'.core.items;
    }
  }

  /** Finished calls stay finished. */
  ghost predicate KeepsFinished<T>(s: System<T>, s': System<T>) {
    forall tid | tid in s.tasks && !Live(s.tasks[tid]) :: tid in s'.tasks && s'.tasks[tid] == s.tasks[tid]
  }

  lemma NextKeepsFinished<T>(s: System<T>, e: Event<T>)
    requires Can(s, e)
    ensures KeepsFinished(s, Next(s, e))
  {
  }

  /** The logs change by one entry at most, of the call that just finished with it. */
  lemma NextLogsOnce<T>(s: System<T>, e: Event<T>)
    requires Can(s, e)
    ensures var s' := Next(s, e);
            || (s'.puts == s.puts && s'.takes == s.takes)
            || (exists tid, item :: s'.puts == s.puts + [(tid, item)] && s'.takes == s.takes
                  && tid in s'.tasks && s'.tasks[tid] == PutDone(item) && (tid in s.tasks ==> Live(s.tasks[tid])))
            || (exists tid, item :: s'.takes == s.takes + [(tid, item)] && s'.puts == s.puts
                  && tid in s'.tasks && s'.tasks[tid] == TakeDone(item) && (tid in s.tasks ==> Live(s.tasks[tid])))
  {
  }

  lemma NextKeepsAccounted<T>(s: System<T>, e: Event<T>)
    requires Accounted(s) && Can(s, e)
    ensures Accounted(Next(s, e))
  {
    NextKeepsFinished(s, e);
    NextLogsOnce(s, e);
  }

  /**
   FIFO: at every point of every run, timeouts included, what went in is what came out followed
   by what is inside, never more than the capacity is inside, and a call that gave up moved nothing.
   */
  lemma {:induction false} FifoConservation<T>(run: seq<System<T>>, events: seq<Event<T>>, i: nat)
    requires IsRun(run, events) && i < |run|
    ensures Conserved(run[i]) && Accounted(run[i])
    ensures forall tid | tid in run[i].tasks && run[i].tasks[tid].GaveUp? ::
              && (forall k | 0 <= k < |run[i].puts| :: run[i].puts[k].0 != tid)
              && (forall k | 0 <= k < |run[i].takes| :: run[i].takes[k].0 != tid)
  {
    if i == 0 {
      assert Items(run[0].puts) == [];
    } else {
      FifoConservation(run, events, i - 1);
      NextKeepsConserved(run[i - 1], events[i - 1]);
      NextKeepsAccounted(run[i - 1], events[i - 1]);
    }
  }

  // ---------------------------------------------------------------- permits and polls

  /** A stored permit lets one call through to the mutex and no second one. */
  lemma PermitAdmitsOne<T>(s: System<T>, first: nat, second: nat)
    requires s.core.permit && At(s, first, Missed) && At(s, second, Missed) && first != second
    ensures var s1 := Next(s, Register(first));
            && At(s1, first, Ready) && Can(s1, Register(second))
            && At(Next(s1, Register(second)), second, Asleep) && second in Next(s1, Register(second)).core.waiters
  {
    var s1 := Next(s, Register(first));
    assert Next(s1, Register(second)).core.waiters[|s1.core.waiters|] == second;
  }

  /** A call that only looks never waits: it takes the front, or gives up at once. */
  lemma PollAnswersAtOnce<T>(s: System<T>, tid: nat)
    requires tid !in s.tasks && tid !in s.core.waiters
    ensures Can(s, Poll(tid))
    ensures var s' := Next(s, Poll(tid));
            tid in s'.tasks && s'.tasks[tid] == if s.core.items != [] then TakeDone(s.core.items[0]) else GaveUp
  {
  }

  // ---------------------------------------------------------------- no sleeping consumer

  ghost predicate Distinct(waiters: seq<nat>) {
    forall i, j | 0 <= i < j < |waiters| :: waiters[i] != waiters[j]
  }

  ghost predicate Registered<T>(s: System<T>) {
    && (forall i | 0 <= i < |s.core.waiters| :: At(s, s.core.waiters[i], Asleep))
    && Distinct(s.core.waiters)
    && (forall tid | At(s, tid, Asleep) :: tid in s.core.waiters)
    && (s.core.permit ==> s.core.waiters == [])
  }

  ghost predicate ConsumerSleeps<T>(s: System<T>, tid: nat) {
    tid in s.tasks && s.tasks[tid].Take? && (s.tasks[tid].stage.Missed? || s.tasks[tid].stage.Asleep?)
  }

  ghost predicate ConsumerAwake<T>(s: System<T>, tid: nat) {
    tid in s.tasks && s.tasks[tid].Take? && (s.tasks[tid].stage.Ready? || s.tasks[tid].stage.Woken?)
  }

  /** With something to take and a consumer not looking, a wake-up is under way. */
  ghost predicate WakeUpPending<T>(s: System<T>) {
    s.core.items != [] && (exists tid :: ConsumerSleeps(s, tid)) ==>
        s.core.permit || exists tid :: ConsumerAwake(s, tid)
  }

  ghost predicate NoProducerWaits<T>(s: System<T>) {
    forall tid | tid in s.tasks && s.tasks[tid].Put? :: s.tasks[tid].stage.Ready?
  }

  /** A producer looks at a full queue. */
  predicate FindsFull<T>(s: System<T>, e: Event<T>) {
    e.Lock? && e.tid in s.tasks && s.tasks[e.tid].Put? && |s.core.items| >= s.capacity
  }

  /** A consumer times out while it queues for the mutex. */
  predicate TimesOutAtMutex<T>(s: System<T>, e: Event<T>) {
    e.Cancel? && At(s, e.tid, Ready) && s.tasks[e.tid].Take?
  }

  predicate Benign<T>(s: System<T>, e: Event<T>) {
    !FindsFull(s, e) && !TimesOutAtMutex(s, e)
  }

  lemma {:induction false} WithoutProps(waiters: seq<nat>, tid: nat)
    requires Distinct(waiters)
    ensures Distinct(Without(waiters, tid))
    ensures forall t :: t in Without(waiters, tid) <==> t in waiters && t != tid
  {
    if waiters != [] {
      assert waiters[0] !in waiters[1..];
      WithoutProps(waiters[1..], tid);
    }
  }

  /** A task that is not registered before or after may change as it likes. */
  lemma RetaskKeepsRegistered<T>(s: System<T>, tid: nat, t: Task<T>)
    requires Registered(s) && !At(s, tid, Asleep) && !(Live(t) && t.stage.Asleep?)
    ensures Registered(s.(tasks := s.tasks[tid := t]))
  {
    var s' := s.(tasks := s.tasks[tid := t]);
    forall i | 0 <= i < |s.core.waiters| ensures At(s', s.core.waiters[i], Asleep) {
      assert At(s, s.core.waiters[i], Asleep);
    }
    forall u | At(s', u, Asleep) ensures u in s.core.waiters { assert At(s, u, Asleep); }
  }

  /** `notify_one` and what it does to the task it picks. */
  function Notified<T>(s: System<T>): System<T> {
    var (core, woken) := NotifyOne(s.core);
    s.(core := core, tasks := WakeUp(s.tasks, woken))
  }

  lemma NotifyKeepsRegistered<T>(s: System<T>)
    requires Registered(s)
    ensures Registered(Notified(s))
  {
    var s' := Notified(s);
    if s.core.waiters != [] {
      assert At(s, s.core.waiters[0], Asleep);
      forall i | 0 <= i < |s'.core.waiters| ensures At(s', s'.core.waiters[i], Asleep) {
        assert At(s, s.core.waiters[i + 1], Asleep);
      }
      forall u | At(s', u, Asleep) ensures u in s'.core.waiters { assert At(s, u, Asleep); }
    }
  }

  lemma ItemsKeepRegistered<T>(s: System<T>, items: seq<T>, puts: seq<(nat, T)>, takes: seq<(nat, T)>)
    requires Registered(s)
    ensures Registered(s.(core := s.core.(items := items), puts := puts, takes := takes))
  {
    var s' := s.(core := s.core.(items := items), puts := puts, takes := takes);
    assert forall u, g :: At(s', u, g) == At(s, u, g);
  }

  /** The step that moved an item, as: change the items, finish the task, notify. */
  function Moved<T>(s: System<T>, tid: nat, t: Task<T>, items: seq<T>, puts: seq<(nat, T)>, takes: seq<(nat, T)>)
    : System<T>
  {
    s.(core := s.core.(items := items), puts := puts, takes := takes, tasks := s.tasks[tid := t])
  }

  lemma MovedKeepsRegistered<T>(s: System<T>, tid: nat, t: Task<T>, items: seq<T>, puts: seq<(nat, T)>,
      takes: seq<(nat, T)>)
    requires Registered(s) && !At(s, tid, Asleep) && !Live(t)
    ensures Registered(Moved(s, tid, t, items, puts, takes))
        && Registered(Notified(Moved(s, tid, t, items, puts, takes)))
  {
    RetaskKeepsRegistered(s, tid, t);
    ItemsKeepRegistered(s.(tasks := s.tasks[tid := t]), items, puts, takes);
    NotifyKeepsRegistered(Moved(s, tid, t, items, puts, takes));
  }

  lemma RegisterKeepsRegistered<T>(s: System<T>, tid: nat)
    requires Registered(s) && Can(s, Register(tid))
    ensures Registered(Next(s, Register(tid)))
  {
    var s' := Next(s, Register(tid));
    forall i | 0 <= i < |s'.core.waiters| ensures At(s', s'.core.waiters[i], Asleep) {
      if i < |s.core.waiters| { assert At(s, s.core.waiters[i], Asleep); }
    }
    forall u | At(s', u, Asleep) ensures u in s'.core.waiters { if u != tid { assert At(s, u, Asleep); } }
  }

  lemma CancelKeepsRegistered<T>(s: System<T>, tid: nat)
    requires Registered(s) && Can(s, Cancel(tid))
    ensures Registered(Next(s, Cancel(tid)))
  {
    if At(s, tid, Asleep) {
      var s' := Next(s, Cancel(tid));
      WithoutProps(s.core.waiters, tid);
      forall i | 0 <= i < |s'.core.waiters| ensures At(s', s'.core.waiters[i], Asleep) {
        assert s'.core.waiters[i] in s.core.waiters;
      }
      forall u | At(s', u, Asleep) ensures u in s'.core.waiters { assert At(s, u, Asleep); }
    } else {
      RetaskKeepsRegistered(s, tid, GaveUp);
      NotifyKeepsRegistered(s.(tasks := s.tasks[tid := GaveUp]));
    }
  }

  lemma NextKeepsRegistered<T>(s: System<T>, e: Event<T>)
    requires Registered(s) && Can(s, e)
    ensures Registered(Next(s, e))
  {
    match e
    case StartPut(tid, item) => RetaskKeepsRegistered(s, tid, Put(item, Ready));
    case StartTake(tid) => RetaskKeepsRegistered(s, tid, Take(Ready));
    case Lock(tid) => LockKeepsRegistered(s, tid);
    case Register(tid) => RegisterKeepsRegistered(s, tid);
    case Resume(tid) => RetaskKeepsRegistered(s, tid, s.tasks[tid].(stage := Ready));
    case Cancel(tid) => CancelKeepsRegistered(s, tid);
    case Poll(tid) =>
      if s.core.items != [] {
        var item := s.core.items[0];
        MovedKeepsRegistered(s, tid, TakeDone(item), s.core.items[1..], s.puts, s.takes + [(tid, item)]);
      } else {
        MovedKeepsRegistered(s, tid, GaveUp, s.core.items, s.puts, s.takes);
      }
  }

  lemma LockKeepsRegistered<T>(s: System<T>, tid: nat)
    requires Registered(s) && Can(s, Lock(tid))
    ensures Registered(Next(s, Lock(tid)))
  {
    match s.tasks[tid]
    case Put(item, _) =>
      MovedKeepsRegistered(s, tid, PutDone(item), s.core.items + [item], s.puts + [(tid, item)], s.takes);
      RetaskKeepsRegistered(s, tid, Put(item, Missed));
    case Take(_) =>
      RetaskKeepsRegistered(s, tid, Take(Missed));
      if s.core.items != [] {
        var item := s.core.items[0];
        MovedKeepsRegistered(s, tid, TakeDone(item), s.core.items[1..], s.puts, s.takes + [(tid, item)]);
      }
  }

  ghost predicate Pending<T>(s: System<T>) {
    s.core.permit || exists tid :: ConsumerAwake(s, tid)
  }

  /** With no producer registered, every notification reaches a consumer or stays as a permit. */
  lemma NotifyPends<T>(s: System<T>)
    requires Registered(s) && NoProducerWaits(s)
    ensures Pending(Notified(s)) && NoProducerWaits(Notified(s))
  {
    if s.core.waiters != [] {
      assert At(s, s.core.waiters[0], Asleep);
      assert ConsumerAwake(Notified(s), s.core.waiters[0]);
    }
  }

  lemma MovedPends<T>(s: System<T>, tid: nat, t: Task<T>, items: seq<T>, puts: seq<(nat, T)>, takes: seq<(nat, T)>)
    requires Registered(s) && NoProducerWaits(s) && !At(s, tid, Asleep) && !Live(t)
    ensures var s' := Notified(Moved(s, tid, t, items, puts, takes)); Pending(s') && NoProducerWaits(s')
  {
    MovedKeepsRegistered(s, tid, t, items, puts, takes);
    NotifyPends(Moved(s, tid, t, items, puts, takes));
  }

  /** Steps that neither notify nor let a consumer look: whoever was awake still is. */
  lemma QuietKeepsWakeUp<T>(s: System<T>, s': System<T>)
    requires WakeUpPending(s) && s'.core.permit == s.core.permit && (s'.core.items != [] ==> s.core.items != [])
    requires forall tid | ConsumerAwake(s, tid) :: ConsumerAwake(s', tid)
    requires forall tid | ConsumerSleeps(s', tid) :: ConsumerSleeps(s, tid)
    ensures WakeUpPending(s')
  {
    if s'.core.items != [] && exists tid :: ConsumerSleeps(s', tid) {
      var tid :| ConsumerSleeps(s', tid);
      assert ConsumerSleeps(s, tid);
    }
  }

  lemma LockKeepsWakeUp<T>(s: System<T>, tid: nat)
    requires Registered(s) && NoProducerWaits(s) && WakeUpPending(s) && Can(s, Lock(tid)) && Benign(s, Lock(tid))
    ensures NoProducerWaits(Next(s, Lock(tid))) && WakeUpPending(Next(s, Lock(tid)))
  {
    match s.tasks[tid]
    case Put(item, _) => MovedPends(s, tid, PutDone(item), s.core.items + [item], s.puts + [(tid, item)], s.takes);
    case Take(_) =>
      if s.core.items != [] {
        var item := s.core.items[0];
        MovedPends(s, tid, TakeDone(item), s.core.items[1..], s.puts, s.takes + [(tid, item)]);
      }
  }

  lemma CancelKeepsWakeUp<T>(s: System<T>, tid: nat)
    requires Registered(s) && NoProducerWaits(s) && WakeUpPending(s) && Can(s, Cancel(tid)) && Benign(s, Cancel(tid))
    ensures NoProducerWaits(Next(s, Cancel(tid))) && WakeUpPending(Next(s, Cancel(tid)))
  {
    if At(s, tid, Woken) {
      MovedPends(s, tid, GaveUp, s.core.items, s.puts, s.takes);
    } else {
      QuietKeepsWakeUp(s, Next(s, Cancel(tid)));
    }
  }

  lemma NextKeepsWakeUp<T>(s: System<T>, e: Event<T>)
    requires Registered(s) && NoProducerWaits(s) && WakeUpPending(s) && Can(s, e) && Benign(s, e)
    ensures NoProducerWaits(Next(s, e)) && WakeUpPending(Next(s, e))
  {
    var s' := Next(s, e);
    match e
    case Lock(tid) => LockKeepsWakeUp(s, tid);
    case Cancel(tid) => CancelKeepsWakeUp(s, tid);
    case Register(tid) =>
      if s.core.permit {
        assert ConsumerAwake(s', tid);
      } else if s.core.items != [] {
        assert ConsumerSleeps(s, tid);
        var u :| ConsumerAwake(s, u);
        assert ConsumerAwake(s', u);
      }
    case Poll(tid) =>
      if s.core.items != [] {
        QuietKeepsWakeUp(s, s');
      } else {
        MovedPends(s, tid, GaveUp, s.core.items, s.puts, s.takes);
      }
    case _ => QuietKeepsWakeUp(s, s');
  }

  /**
   No sleeping consumer on a non-empty queue: as long as no producer finds the queue full and no
   consumer times out while queueing for the mutex, a consumer that is not looking at a non-empty
   queue has a stored permit waiting for it, or another consumer is about to look.
   */
  lemma {:induction false} NoLostWakeUp<T>(run: seq<System<T>>, events: seq<Event<T>>, i: nat)
    requires IsRun(run, events) && i < |run|
    requires forall j | 0 <= j < i :: Benign(run[j], events[j])
    ensures Registered(run[i]) && NoProducerWaits(run[i]) && WakeUpPending(run[i])
  {
    if i > 0 {
      NoLostWakeUp(run, events, i - 1);
      NextKeepsRegistered(run[i - 1], events[i - 1]);
      NextKeepsWakeUp(run[i - 1], events[i - 1]);
    }
  }

  // ---------------------------------------------------------------- where it ends

  /** Which of the two harmful steps may happen. */
  datatype Policy = Policy(full: bool, timeouts: bool)

  predicate Allowed<T>(p: Policy, s: System<T>, e: Event<T>) {
    (FindsFull(s, e) ==> p.full) && (TimesOutAtMutex(s, e) ==> p.timeouts)
  }

  ghost predicate IsRunUnder<T>(p: Policy, run: seq<System<T>>, events: seq<Event<T>>) {
    IsRun(run, events) && forall i | 0 <= i < |events| :: Allowed(p, run[i], events[i])
  }

  /** Some run under the policy ends here. */
  ghost predicate Reachable<T(!new)>(p: Policy, s: System<T>) {
    exists run: seq<System<T>>, events: seq<Event<T>> :: IsRunUnder(p, run, events) && run[|events|] == s
  }

  function Empty<T>(capacity: nat): System<T> {
    System(Core([], false, []), capacity, map[], [], [])
  }

  lemma Begin<T(!new)>(p: Policy, capacity: nat)
    ensures Reachable(p, Empty<T>(capacity))
  {
    var s := Empty<T>(capacity);
    var run: seq<System<T>>, events: seq<Event<T>> := [s], [];
    assert IsRunUnder(p, run, events) && run[|events|] == s;
  }

  lemma Go<T(!new)>(p: Policy, s: System<T>, e: Event<T>)
    requires Reachable(p, s) && Can(s, e) && Allowed(p, s, e)
    ensures Reachable(p, Next(s, e))
  {
    var run: seq<System<T>>, events: seq<Event<T>> :| IsRunUnder(p, run, events) && run[|events|] == s;
    var run', events' := run + [Next(s, e)], events + [e];
    forall i | 0 <= i < |events'|
      ensures Can(run'[i], events'[i]) && run'[i + 1] == Next(run'[i], events'[i]) && Allowed(p, run'[i], events'[i])
    {
      if i < |events| { assert Can(run[i], events[i]) && Allowed(p, run[i], events[i]); }
    }
    assert IsRunUnder(p, run', events') && run'[|events'|] == Next(s, e);
  }

  /** Who waits, who was woken and has not run yet, which calls are consumers, and a fresh call number. */
  datatype Line = Line(sleepers: seq<nat>, woken: seq<nat>, consumers: set<nat>, next: nat)

  ghost predicate LinedUp<T>(s: System<T>, g: Line) {
    && s.core.waiters == g.sleepers && !s.core.permit
    && Distinct(g.sleepers) && Distinct(g.woken)
    && (forall i | 0 <= i < |g.sleepers| :: At(s, g.sleepers[i], Asleep))
    && (forall i | 0 <= i < |g.woken| :: At(s, g.woken[i], Woken))
    && (forall tid | tid in s.tasks && Live(s.tasks[tid]) ::
          (tid in g.sleepers || tid in g.woken) && (s.tasks[tid].Take? <==> tid in g.consumers))
    && (forall tid | tid in s.tasks :: tid < g.next)
  }

  lemma OldCalls<T>(s: System<T>, g: Line)
    requires LinedUp(s, g)
    ensures forall tid | tid in g.woken || tid in g.sleepers :: tid < g.next
    ensures forall tid | tid in g.woken :: tid !in g.sleepers
  {
    forall i | 0 <= i < |g.woken| ensures g.woken[i] < g.next && g.woken[i] !in g.sleepers {
      assert At(s, g.woken[i], Woken);
    }
    forall i | 0 <= i < |g.sleepers| ensures g.sleepers[i] < g.next { assert At(s, g.sleepers[i], Asleep); }
  }

  /** Call `tid`, which was not in line, sleeps at its end. */
  lemma JoinsLine<T>(s: System<T>, g: Line, tid: nat, t: Task<T>, woken: seq<nat>, s': System<T>, g': Line)
    requires LinedUp(s, g) && Live(t) && t.stage.Asleep? && tid !in g.sleepers
    requires (tid !in g.woken && woken == g.woken) || (g.woken != [] && tid == g.woken[0] && woken == g.woken[1..])
    requires s'.core.waiters == g.sleepers + [tid] && !s'.core.permit && s'.tasks == s.tasks[tid := t]
    requires g'.sleepers == g.sleepers + [tid] && g'.woken == woken && g.next <= g'.next && tid < g'.next
    requires (t.Take? <==> tid in g'.consumers) && g'.consumers - {tid} == g.consumers - {tid}
    ensures LinedUp(s', g')
  {
    forall i | 0 <= i < |g'.sleepers| ensures At(s', g'.sleepers[i], Asleep) {
      if i < |g.sleepers| { assert At(s, g.sleepers[i], Asleep); }
    }
    forall i | 0 <= i < |woken| ensures At(s', woken[i], Woken) {
      var j := if woken == g.woken then i else i + 1;
      assert woken[i] == g.woken[j] && At(s, g.woken[j], Woken);
    }
    forall u | u in s'.tasks && Live(s'.tasks[u])
      ensures (u in g'.sleepers || u in woken) && (s'.tasks[u].Take? <==> u in g'.consumers)
    {
      if u != tid {
        assert u in g.consumers - {tid} <==> u in g.consumers;
        if g.woken != [] { assert g.woken == [g.woken[0]] + g.woken[1..]; }
      } else {
        assert g'.sleepers[|g.sleepers|] == u;
      }
    }
  }

  /** A call at the mutex that fails its round and registers. */
  lemma FailsAndSleeps<T(!new)>(p: Policy, s: System<T>, tid: nat) returns (s': System<T>)
    requires Reachable(p, s) && At(s, tid, Ready) && !s.core.permit
    requires s.tasks[tid].Put? ==> p.full && |s.core.items| >= s.capacity
    requires s.tasks[tid].Take? ==> s.core.items == []
    ensures Reachable(p, s') && s'.capacity == s.capacity && s'.core == s.core.(waiters := s.core.waiters + [tid])
    ensures s'.tasks == s.tasks[tid := s.tasks[tid].(stage := Asleep)]
  {
    Go(p, s, Lock(tid));
    var missed := Next(s, Lock(tid));
    Go(p, missed, Register(tid));
    s' := Next(missed, Register(tid));
  }

  /** A new call that fails its first round and goes to sleep at the end of the line. */
  lemma ArrivesAndSleeps<T(!new)>(p: Policy, s: System<T>, g: Line, t: Task<T>) returns (s': System<T>, g': Line)
    requires Reachable(p, s) && LinedUp(s, g) && Live(t) && t.stage.Ready?
    requires t.Put? ==> p.full && |s.core.items| >= s.capacity
    requires t.Take? ==> s.core.items == []
    ensures var consumers := if t.Take? then g.consumers + {g.next} else g.consumers - {g.next};
            g' == Line(g.sleepers + [g.next], g.woken, consumers, g.next + 1)
    ensures Reachable(p, s') && LinedUp(s', g') && s'.core.items == s.core.items && s'.capacity == s.capacity
  {
    var tid := g.next;
    g' := Line(g.sleepers + [tid], g.woken, if t.Take? then g.consumers + {tid} else g.consumers - {tid}, tid + 1);
    OldCalls(s, g);
    var start := if t.Put? then StartPut(tid, t.item) else StartTake(tid);
    Go(p, s, start);
    s' := FailsAndSleeps(p, Next(s, start), tid);
    assert s'.tasks == s.tasks[tid := t.(stage := Asleep)];
    JoinsLine(s, g, tid, t.(stage := Asleep), g.woken, s', g');
  }

  /** Call `tid` is done and the first in line was woken. */
  ghost predicate HandsOver<T>(s: System<T>, g: Line, tid: nat, done: Task<T>, woken: seq<nat>, s': System<T>) {
    && g.sleepers != [] && g.sleepers[0] in s.tasks && Live(s.tasks[g.sleepers[0]]) && !Live(done) && tid !in g.sleepers
    && ((tid !in g.woken && woken == g.woken) || (g.woken != [] && tid == g.woken[0] && woken == g.woken[1..]))
    && s'.core.waiters == g.sleepers[1..] && !s'.core.permit
    && s'.tasks == s.tasks[tid := done][g.sleepers[0] := s.tasks[g.sleepers[0]].(stage := Woken)]
  }

  lemma SleepersStay<T>(s: System<T>, g: Line, tid: nat, done: Task<T>, woken: seq<nat>, s': System<T>)
    requires LinedUp(s, g) && HandsOver(s, g, tid, done, woken, s')
    ensures Distinct(g.sleepers[1..]) && forall i | 0 <= i < |g.sleepers[1..]| :: At(s', g.sleepers[1..][i], Asleep)
  {
    forall i | 0 <= i < |g.sleepers[1..]| ensures At(s', g.sleepers[1..][i], Asleep) {
      assert At(s, g.sleepers[i + 1], Asleep) && g.sleepers[i + 1] != g.sleepers[0];
    }
  }

  lemma WokenStay<T>(s: System<T>, g: Line, tid: nat, done: Task<T>, woken: seq<nat>, s': System<T>)
    requires LinedUp(s, g) && HandsOver(s, g, tid, done, woken, s')
    ensures Distinct(woken + [g.sleepers[0]])
    ensures forall i | 0 <= i < |woken + [g.sleepers[0]]| :: At(s', (woken + [g.sleepers[0]])[i], Woken)
  {
    OldCalls(s, g);
    forall i | 0 <= i < |woken| ensures woken[i] != g.sleepers[0] && At(s', woken[i], Woken) {
      var j := if woken == g.woken then i else i + 1;
      assert woken[i] == g.woken[j] && At(s, g.woken[j], Woken);
    }
  }

  /** The lists still say who sleeps and who does not. */
  lemma FirstIsWoken<T>(s: System<T>, g: Line, tid: nat, done: Task<T>, woken: seq<nat>, s': System<T>, next: nat)
    requires LinedUp(s, g) && HandsOver(s, g, tid, done, woken, s') && g.next <= next && tid < next
    ensures LinedUp(s', Line(g.sleepers[1..], woken + [g.sleepers[0]], g.consumers, next))
  {
    SleepersStay(s, g, tid, done, woken, s');
    WokenStay(s, g, tid, done, woken, s');
    forall u | u in s'.tasks && Live(s'.tasks[u])
      ensures (u in g.sleepers[1..] || u in woken + [g.sleepers[0]]) && (s'.tasks[u].Take? <==> u in g.consumers)
    {
      if u != g.sleepers[0] { StillListed(g, tid, woken, u); } else { assert (woken + [u])[|woken|] == u; }
    }
  }

  lemma StillListed(g: Line, tid: nat, woken: seq<nat>, u: nat)
    requires g.sleepers != [] && u != g.sleepers[0] && u != tid && (u in g.sleepers || u in g.woken)
    requires woken == g.woken || (g.woken != [] && tid == g.woken[0] && woken == g.woken[1..])
    ensures u in g.sleepers[1..] || u in woken + [g.sleepers[0]]
  {
    assert g.sleepers == [g.sleepers[0]] + g.sleepers[1..];
    if g.woken != [] { assert g.woken == [g.woken[0]] + g.woken[1..]; }
  }

  /** A new put that finds room and wakes the first in line. */
  lemma PutsAndWakes<T(!new)>(p: Policy, s: System<T>, g: Line, item: T) returns (s': System<T>, g': Line)
    requires Reachable(p, s) && LinedUp(s, g) && g.sleepers != [] && |s.core.items| < s.capacity
    ensures g' == Line(g.sleepers[1..], g.woken + [g.sleepers[0]], g.consumers, g.next + 1)
    ensures Reachable(p, s') && LinedUp(s', g') && |s'.core.items| == |s.core.items| + 1 && s'.capacity == s.capacity
  {
    var tid, first := g.next, g.sleepers[0];
    g' := Line(g.sleepers[1..], g.woken + [first], g.consumers, tid + 1);
    OldCalls(s, g);
    Go(p, s, StartPut(tid, item));
    var s1 := Next(s, StartPut(tid, item));
    assert At(s, first, Asleep);
    Go(p, s1, Lock(tid));
    s' := Next(s1, Lock(tid));
    assert s1.tasks[tid := PutDone(item)] == s.tasks[tid := PutDone(item)];
    FirstIsWoken(s, g, tid, PutDone(item), g.woken, s', tid + 1);
  }

  /** A woken call runs, succeeds and wakes the first in line. */
  lemma WokenSucceeds<T(!new)>(p: Policy, s: System<T>, g: Line) returns (s': System<T>, g': Line)
    requires Reachable(p, s) && LinedUp(s, g) && g.sleepers != [] && g.woken != []
    requires if g.woken[0] in g.consumers then s.core.items != [] else |s.core.items| < s.capacity
    ensures g' == Line(g.sleepers[1..], g.woken[1..] + [g.sleepers[0]], g.consumers, g.next)
    ensures Reachable(p, s') && LinedUp(s', g') && s'.capacity == s.capacity
    ensures |s'.core.items| == if g.woken[0] in g.consumers then |s.core.items| - 1 else |s.core.items| + 1
  {
    var tid, first := g.woken[0], g.sleepers[0];
    g' := Line(g.sleepers[1..], g.woken[1..] + [first], g.consumers, g.next);
    assert At(s, tid, Woken) && At(s, first, Asleep);
    OldCalls(s, g);
    Go(p, s, Resume(tid));
    var s1 := Next(s, Resume(tid));
    Go(p, s1, Lock(tid));
    s' := Next(s1, Lock(tid));
    var done: Task<T> := if tid in g.consumers then TakeDone(s.core.items[0]) else PutDone(s.tasks[tid].item);
    assert s1.tasks[tid := done] == s.tasks[tid := done];
    FirstIsWoken(s, g, tid, done, g.woken[1..], s', g.next);
  }

  /** A woken producer runs, finds the queue full and goes back to sleep. */
  lemma WokenFails<T(!new)>(p: Policy, s: System<T>, g: Line) returns (s': System<T>, g': Line)
    requires Reachable(p, s) && LinedUp(s, g) && g.woken != [] && g.woken[0] !in g.consumers
    requires p.full && |s.core.items| >= s.capacity
    ensures g' == Line(g.sleepers + [g.woken[0]], g.woken[1..], g.consumers, g.next)
    ensures Reachable(p, s') && LinedUp(s', g') && s'.core.items == s.core.items && s'.capacity == s.capacity
  {
    var tid := g.woken[0];
    g' := Line(g.sleepers + [tid], g.woken[1..], g.consumers, g.next);
    assert At(s, tid, Woken);
    OldCalls(s, g);
    Go(p, s, Resume(tid));
    s' := FailsAndSleeps(p, Next(s, Resume(tid)), tid);
    assert s'.tasks == s.tasks[tid := s.tasks[tid].(stage := Asleep)];
    JoinsLine(s, g, tid, s.tasks[tid].(stage := Asleep), g.woken[1..], s', g');
  }

  // Whole crowds of the same.

  lemma CrowdSleeps<T(!new)>(p: Policy, s: System<T>, g: Line, t: Task<T>, n: nat) returns (s': System<T>, g': Line)
    requires Reachable(p, s) && LinedUp(s, g) && Live(t) && t.stage.Ready?
    requires t.Put? ==> p.full && |s.core.items| >= s.capacity
    requires t.Take? ==> s.core.items == []
    requires forall tid | tid in g.consumers :: tid < g.next
    ensures Reachable(p, s') && LinedUp(s', g') && s'.core.items == s.core.items && s'.capacity == s.capacity
    ensures |g'.sleepers| == |g.sleepers| + n && g.sleepers <= g'.sleepers && g'.woken == g.woken && g.next <= g'.next
    ensures forall i | |g.sleepers| <= i < |g'.sleepers| ::
        g'.sleepers[i] >= g.next && (g'.sleepers[i] in g'.consumers <==> t.Take?)
    ensures forall tid | tid < g.next :: tid in g'.consumers <==> tid in g.consumers
    ensures forall tid | tid in g'.consumers :: tid < g'.next
  {
    s', g' := s, g;
    for k := 0 to n
      invariant Reachable(p, s') && LinedUp(s', g') && s'.core.items == s.core.items && s'.capacity == s.capacity
      invariant |g'.sleepers| == |g.sleepers| + k && g.sleepers <= g'.sleepers && g'.woken == g.woken
          && g.next <= g'.next
      invariant forall i | |g.sleepers| <= i < |g'.sleepers| ::
                  g.next <= g'.sleepers[i] < g'.next && (g'.sleepers[i] in g'.consumers <==> t.Take?)
      invariant forall tid | tid < g.next :: tid in g'.consumers <==> tid in g.consumers
      invariant forall tid | tid in g'.consumers :: tid < g'.next
    {
      s', g' := ArrivesAndSleeps(p, s', g', t);
    }
  }

  lemma CrowdIsWoken<T(!new)>(p: Policy, s: System<T>, g: Line, item: T, n: nat) returns (s': System<T>, g': Line)
    requires Reachable(p, s) && LinedUp(s, g) && n <= |g.sleepers| && |s.core.items| + n <= s.capacity
    ensures Reachable(p, s') && LinedUp(s', g') && |s'.core.items| == |s.core.items| + n && s'.capacity == s.capacity
    ensures g' == Line(g.sleepers[n..], g.woken + g.sleepers[..n], g.consumers, g'.next) && g.next <= g'.next
  {
    s', g' := s, g;
    for k := 0 to n
      invariant Reachable(p, s') && LinedUp(s', g') && |s'.core.items| == |s.core.items| + k
          && s'.capacity == s.capacity
      invariant g'.sleepers == g.sleepers[k..] && g'.woken == g.woken + g.sleepers[..k]
      invariant g'.consumers == g.consumers && g.next <= g'.next
    {
      s', g' := PutsAndWakes(p, s', g', item);
    }
  }

  /** The line after `k` woken calls have run, each waking one of the sleepers. */
  function Advanced(g: Line, k: nat): Line
    requires k <= |g.woken| && k <= |g.sleepers|
  {
    Line(g.sleepers[k..], g.woken[k..] + g.sleepers[..k], g.consumers, g.next)
  }

  lemma AdvancedOnce(g: Line, k: nat)
    requires k < |g.woken| && k < |g.sleepers|
    ensures var h := Advanced(g, k);
            && h.sleepers != [] && h.woken != [] && h.woken[0] == g.woken[k]
            && Line(h.sleepers[1..], h.woken[1..] + [h.sleepers[0]], h.consumers, h.next) == Advanced(g, k + 1)
  {
  }

  /** The first `n` woken, all of one kind, run; each wakes one of the sleepers. */
  lemma CrowdSucceeds<T(!new)>(p: Policy, s: System<T>, g: Line, n: nat, consumers: bool)
      returns (s': System<T>, g': Line)
    requires Reachable(p, s) && LinedUp(s, g) && n <= |g.woken| && n <= |g.sleepers|
    requires forall i | 0 <= i < n :: g.woken[i] in g.consumers <==> consumers
    requires if consumers then n <= |s.core.items| else |s.core.items| + n <= s.capacity
    ensures Reachable(p, s') && LinedUp(s', g') && s'.capacity == s.capacity
    ensures |s'.core.items| == if consumers then |s.core.items| - n else |s.core.items| + n
    ensures g' == Advanced(g, n)
  {
    s', g' := s, g;
    assert Advanced(g, 0) == g;
    for k := 0 to n
      invariant Reachable(p, s') && LinedUp(s', g') && s'.capacity == s.capacity
      invariant |s'.core.items| == if consumers then |s.core.items| - k else |s.core.items| + k
      invariant g' == Advanced(g, k)
    {
      AdvancedOnce(g, k);
      s', g' := WokenSucceeds(p, s', g');
    }
  }

  lemma CrowdFails<T(!new)>(p: Policy, s: System<T>, g: Line, n: nat) returns (s': System<T>, g': Line)
    requires Reachable(p, s) && LinedUp(s, g) && n <= |g.woken| && p.full && |s.core.items| >= s.capacity
    requires forall i | 0 <= i < n :: g.woken[i] !in g.consumers
    ensures Reachable(p, s') && LinedUp(s', g') && s'.core.items == s.core.items && s'.capacity == s.capacity
    ensures g' == Line(g.sleepers + g.woken[..n], g.woken[n..], g.consumers, g.next)
  {
    s', g' := s, g;
    for k := 0 to n
      invariant Reachable(p, s') && LinedUp(s', g') && s'.core.items == s.core.items && s'.capacity == s.capacity
      invariant g' == Line(g.sleepers + g.woken[..k], g.woken[k..], g.consumers, g.next)
    {
      s', g' := WokenFails(p, s', g');
    }
  }

  /** Everybody is registered, nothing will ever happen again, and there is an item to take. */
  ghost predicate Stuck<T>(s: System<T>) {
    && s.core.items != [] && !s.core.permit
    && (exists tid :: ConsumerSleeps(s, tid))
    && forall tid | tid in s.tasks && Live(s.tasks[tid]) :: s.tasks[tid].stage.Asleep?
  }

  lemma AllAsleepIsStuck<T>(s: System<T>, g: Line, i: nat)
    requires LinedUp(s, g) && g.woken == [] && s.core.items != [] && i < |g.sleepers| && g.sleepers[i] in g.consumers
    ensures Stuck(s)
  {
    assert At(s, g.sleepers[i], Asleep);
    assert ConsumerSleeps(s, g.sleepers[i]);
    forall tid | tid in s.tasks && Live(s.tasks[tid]) ensures s.tasks[tid].stage.Asleep? {
      assert tid in g.sleepers;
    }
  }

  /** A full queue of any capacity: as many consumers woken as there are items, twice as many producers asleep. */
  lemma FullWithCrowds<T(!new)>(p: Policy, capacity: nat, item: T) returns (s: System<T>, g: Line)
    requires 1 <= capacity && p.full
    ensures Reachable(p, s) && LinedUp(s, g) && |s.core.items| == s.capacity == capacity
    ensures |g.woken| == capacity && |g.sleepers| == 2 * capacity
    ensures forall i | 0 <= i < |g.woken| :: g.woken[i] in g.consumers
    ensures forall i | 0 <= i < |g.sleepers| :: g.sleepers[i] !in g.consumers
    ensures forall tid | tid in g.consumers :: tid < g.next
    ensures forall tid | tid in g.sleepers :: tid < g.next
  {
    Begin<T>(p, capacity);
    s, g := Empty<T>(capacity), Line([], [], {}, 0);
    s, g := CrowdSleeps(p, s, g, Take(Ready), capacity);
    ghost var takers := g.sleepers;
    s, g := CrowdIsWoken(p, s, g, item, capacity);
    assert g.woken == takers && g.sleepers == [];
    OldCalls(s, g);
    s, g := CrowdSleeps(p, s, g, Put(item, Ready), 2 * capacity);
    OldCalls(s, g);
  }

  /**
   Blocking producers absorb the wake-up meant for a consumer, without any timeout and at every
   capacity: the takes wake half of the waiting producers, their puts wake the other half, and
   these find the queue full while a consumer sleeps.
   */
  lemma BlockedProducersStrand<T(!new)>(p: Policy, capacity: nat, item: T) returns (s: System<T>)
    requires 1 <= capacity && p.full
    ensures Reachable(p, s) && s.capacity == capacity && Stuck(s)
  {
    var g, n := Line([], [], {}, 0), capacity;
    s, g := FullWithCrowds(p, n, item);
    ghost var producers := g.sleepers;
    s, g := CrowdSucceeds(p, s, g, n, true);
    assert g.woken == producers[..n] && g.sleepers == producers[n..];
    assert s.core.items == [];
    ghost var late := g.next;
    s, g := ArrivesAndSleeps(p, s, g, Take(Ready));
    assert forall i | 0 <= i < 2 * n :: producers[i] in producers && producers[i] !in g.consumers;
    s, g := CrowdSucceeds(p, s, g, n, false);
    assert g.woken == producers[n..] && g.sleepers == [late];
    s, g := CrowdFails(p, s, g, n);
    AllAsleepIsStuck(s, g, 0);
  }

  /** Two consumers wait and a put has woken the first. */
  lemma OneOfTwoWoken<T(!new)>(p: Policy, capacity: nat, item: T) returns (s: System<T>, g: Line)
    requires 1 <= capacity
    ensures Reachable(p, s) && LinedUp(s, g) && s.capacity == capacity && s.core.items != []
    ensures |g.woken| == |g.sleepers| == 1 && g.woken[0] in g.consumers && g.sleepers[0] in g.consumers
  {
    Begin<T>(p, capacity);
    s, g := CrowdSleeps(p, Empty<T>(capacity), Line([], [], {}, 0), Take(Ready), 2);
    s, g := PutsAndWakes(p, s, g, item);
  }

  /** A consumer that times out while it queues for the mutex takes its wake-up with it, at every capacity. */
  lemma TimeoutAtTheMutexStrands<T(!new)>(p: Policy, capacity: nat, item: T) returns (s: System<T>)
    requires 1 <= capacity && p.timeouts
    ensures Reachable(p, s) && s.capacity == capacity && Stuck(s)
  {
    var g: Line;
    s, g := OneOfTwoWoken(p, capacity, item);
    var woken, other := g.woken[0], g.sleepers[0];
    assert At(s, woken, Woken) && At(s, other, Asleep);
    Go(p, s, Resume(woken));
    s := Next(s, Resume(woken));
    Go(p, s, Cancel(woken));
    s := Next(s, Cancel(woken));
    assert ConsumerSleeps(s, other);
  }

  /** Every state some run under the policy reaches keeps its pending wake-up. */
  ghost predicate WakeUpsKept<T(!new)>(p: Policy, capacity: nat) {
    forall s: System<T> | Reachable(p, s) && s.capacity == capacity :: WakeUpPending(s)
  }

  /**
   Wake-ups are kept, over all runs, if and only if no producer may find the queue full and no
   consumer may time out at the mutex; only a queue without any room has nothing to lose.
   */
  lemma WakeUpsKeptIff<T(!new)>(p: Policy, capacity: nat, item: T)
    ensures WakeUpsKept<T>(p, capacity) <==> capacity == 0 || (!p.full && !p.timeouts)
  {
    if capacity > 0 && p.full {
      var s := BlockedProducersStrand(p, capacity, item);
      StuckHasNoWakeUp(s);
    } else if capacity > 0 && p.timeouts {
      var s := TimeoutAtTheMutexStrands(p, capacity, item);
      StuckHasNoWakeUp(s);
    } else {
      forall s: System<T> | Reachable(p, s) && s.capacity == capacity ensures WakeUpPending(s) {
        var run: seq<System<T>>, events: seq<Event<T>> :| IsRunUnder(p, run, events) && run[|events|] == s;
        if capacity == 0 { FifoConservation(run, events, |events|); }
        else { NoLostWakeUp(run, events, |events|); }
      }
    }
  }

  lemma StuckHasNoWakeUp<T>(s: System<T>)
    requires Stuck(s)
    ensures !WakeUpPending(s)
  {
  }
}
