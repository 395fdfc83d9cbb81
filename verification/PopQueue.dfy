/**
 One (topic, group, queue) of the POP protocol as a sequential machine: a single worker at a
 time inside the queue lock (`pop_msg_from_queue`, the commit of the merge service's scan, the
 ordered acknowledgement), and everything that happens outside the lock at any moment
 (acknowledgements, visibility changes, the scan of the checkpoint buffer, the store growing).

 Nondeterminism of the environment (what the store returns, which checkpoint form is accepted,
 whether a put succeeds) is carried by the event, so a run is a sequence of events.
 */
module PopQueue {
  import opened Prelude
  import opened Checkpoint
  import opened Inflight

  /** `max_msg_nums` above this is refused before any queue is touched. */
  const MAX_POP := 32

  /**
   limited, threshold: `enable_pop_message_threshold`, `pop_inflight_message_threshold`.
   lease: the age at which the cleaner evicts a lock. maxBatch: the largest number of
   messages one store unit may hold (1 unless batch units are stored).
   */
  datatype Config = Config(limited: bool, threshold: int, lease: nat, maxBatch: nat)

  // ---------------------------------------------------------------- store

  datatype Status =
    | Found | NoMatchedMessage | MessageWasRemoving | OffsetFoundNull | OffsetOverflowBadly
    | OffsetOverflowOne | OffsetTooSmall | NoMatchedLogicQueue | NoMessageInQueue

  datatype Read = Read(status: Status, offsets: seq<int>, count: nat, next: int)

  /** The statuses on which the pop commits the corrected offset and reads once more. */
  predicate Correcting(s: Status) {
    s.OffsetFoundNull? || s.OffsetOverflowBadly? || s.OffsetTooSmall?
  }

  /** The empty results that still move the offset forward. */
  predicate Skipping(s: Status) {
    s.NoMatchedMessage? || s.OffsetFoundNull? || s.MessageWasRemoving? || s.NoMatchedLogicQueue?
  }

  // ---------------------------------------------------------------- state

  /**
   A checkpoint wrapper of the merge service. `logged` are the offsets whose acknowledgement was
   put into the revive log, where the revive service marks them by the same lookup; `merged`, a
   history, those acknowledged through the buffer; `src` is the delivery whose messages it stands
   for (itself, or the one a visibility change started from).
   */
  datatype Ck = Ck(src: nat, point: PopCheckPoint, next: int, justOffset: bool, stored: bool,
                   bits: set<int>, toStore: set<int>, merged: set<int>, logged: set<int>)

  /** The offsets of the messages put into the response, the epoch and the checkpoint they got. */
  datatype Delivery = Delivery(epoch: nat, ck: nat, offsets: seq<int>)

  /** A visibility change whose new checkpoint is accepted and whose old one is not yet acked. */
  datatype Extension = Extension(origin: nat, offset: int, successor: nat)

  /** The scan's hold on the deque: free, front found ready, or front's offset committed. */
  datatype Scan = NoScan | Claimed | Committed

  datatype Queue = Queue(
    ordered: bool,
    // message store
    created: bool, minOffset: int, maxOffset: int,
    // consumer offset manager
    committed: int, pendingReset: Option<int>,
    // merge service: checkpoints ever made, those in the buffer, the deque of commit offsets
    cks: seq<Ck>, buffer: set<nat>, deque: seq<nat>, scan: Scan,
    // in-flight counter, an absent entry counting as 0
    inflight: int,
    // history: deliveries and the end of the last one since the last reset, deliveries whose
    // messages reached the client, handles the client knows, acknowledged messages
    epoch: nat, high: int, log: seq<Delivery>,
    handed: set<nat>, known: set<nat>, acked: set<(nat, int)>, extending: set<Extension>)

  // ---------------------------------------------------------------- inside the lock

  datatype Job = Pop(want: int) | CommitScan | AckOrderly(offset: int) | ExtendOrderly

  datatype Phase =
    | Entered(job: Job)
    | Admitted(want: int)
    | Positioned(want: int, start: int)
    | Fetched(start: int, read: Read)
    | Recorded(ck: Option<nat>, count: nat)
    | Leaving

  datatype InitPolicy = InitPolicy(fromMin: bool, checkInMem: bool, inMem: bool)

  datatype Outcome = Buffered | JustOffset(put: bool) | Conflict

  datatype Choice =
    | Check
    | Position(init: InitPolicy, blocked: bool)
    | Fetch(first: Option<Read>, second: Option<Read>)
    | Record(outcome: Outcome)
    | Count
    | Commit
    | CommitOrder(next: int)
    | Touch

  // ---------------------------------------------------------------- outside the lock

  datatype AckPath = Merged | Stored(put: bool)

  datatype Env =
    | Grow(more: nat) | Trim(min: int)
    | StoreCk(id: nat) | StoreAcks(id: nat, marks: set<int>) | Evict(id: nat)
    | ClaimScan | AbortScan | PopFront | Garbage
    | SetReset(offset: int)
    | Ack(id: nat, offsets: set<int>, path: AckPath, counted: bool)
    | OrderAcked(counted: bool)
    | BeginExtend(id: nat, offset: int) | EndExtend(x: Extension, path: AckPath)

  datatype KeyEvent = Enter(job: Job) | Do(choice: Choice) | Exit | Abandon | Outside(env: Env)

  datatype KeyState = KeyState(q: Queue, crit: Option<Phase>)

  // ---------------------------------------------------------------- counter

  /** `is_pop_should_stop` */
  predicate ShouldStop(cfg: Config, q: Queue) {
    cfg.limited && Reported(q.inflight) > cfg.threshold
  }

  // ---------------------------------------------------------------- offsets

  /** `get_latest_offset` of the merge service */
  function LatestBuffered(q: Queue): int {
    if q.deque == [] || q.deque[|q.deque| - 1] >= |q.cks| then -1
    else q.cks[q.deque[|q.deque| - 1]].next
  }

  /** `get_init_offset` */
  function InitOffset(q: Queue, p: InitPolicy): int {
    if p.fromMin then q.minOffset
    else if p.checkInMem && q.minOffset <= 0 && p.inMem then 0
    else Max(q.maxOffset - 1, 0)
  }

  /** The offset of `get_pop_offset` when no reset is pending. */
  function PopOffset(q: Queue, p: InitPolicy): int {
    var own := if q.committed < 0 then InitOffset(q, p) else q.committed;
    var buffered := LatestBuffered(q);
    if buffered < 0 then own else Max(buffered, own)
  }

  /** `get_pop_offset(init = true, check_reset_offset = true)` with its writes. */
  function Locate(q: Queue, p: InitPolicy): (Queue, int) {
    match q.pendingReset
    case Some(v) =>
      (q.(deque := [], committed := v, pendingReset := None, epoch := q.epoch + 1, high := -1), v)
    case None =>
      (if q.committed < 0 then q.(committed := InitOffset(q, p)) else q, PopOffset(q, p))
  }

  /** What the local file store promises about a read of `want` messages from `start`. */
  ghost predicate ReadOk(cfg: Config, q: Queue, start: int, want: int, r: Read) {
    && (r.status.Found? <==> r.offsets != [])
    && (r.offsets == [] ==> r.count == 0)
    && |r.offsets| <= r.count <= |r.offsets| * Max(cfg.maxBatch, 1)
    && |r.offsets| <= want
    && r.count <= Max(want, cfg.maxBatch)
    && (|r.offsets| > 1 ==> r.count <= want)
    && (r.offsets != [] ==> r.offsets[0] + r.count <= r.next)
    && (r.status.Found? ==>
          && q.created && q.minOffset <= start
          && Ascending(start, r.offsets)
          && (forall i | 0 <= i < |r.offsets| :: r.offsets[i] < r.next)
          && start <= r.next <= q.maxOffset)
    && (r.status.NoMatchedMessage? || r.status.MessageWasRemoving? || r.status.OffsetFoundNull? ==>
          q.created && start <= r.next)
    && (r.status.OffsetTooSmall? ==>
          q.created && start < q.minOffset && (r.next == q.minOffset || r.next == start))
    && (r.status.OffsetOverflowBadly? ==>
          q.created && start > q.maxOffset && (r.next == q.maxOffset || r.next == start))
    && (r.status.NoMatchedLogicQueue? ==> !q.created)
  }

  // ---------------------------------------------------------------- steps inside the lock

  function Corrected(q: Queue, first: Option<Read>): Queue {
    if first.Some? && Correcting(first.value.status) then q.(committed := first.value.next) else q
  }

  function FetchResult(first: Option<Read>, second: Option<Read>): Option<Read> {
    if first.Some? && Correcting(first.value.status) then second else first
  }

  ghost predicate CanWork(cfg: Config, q: Queue, p: Phase, c: Choice) {
    match p
    case Entered(Pop(_)) => c.Check?
    case Entered(CommitScan) => c.Commit?
    case Entered(AckOrderly(offset)) => c.CommitOrder? && q.ordered && q.committed <= offset
    case Entered(ExtendOrderly) => c.Touch?
    case Admitted(_) => c.Position? && q.scan.NoScan?
    case Positioned(want, start) =>
      && c.Fetch?
      && (c.first.Some? ==> ReadOk(cfg, q, start, want, c.first.value))
      && (c.second.Some? ==> ReadOk(cfg, Corrected(q, c.first), start, want, c.second.value))
    case Fetched(_, _) => c.Record? && q.scan.NoScan?
    case Recorded(_, _) => c.Count?
    case Leaving => false
  }

  function FreshCk(id: nat, point: PopCheckPoint, next: int, justOffset: bool, stored: bool): Ck {
    Ck(id, point, next, justOffset, stored, {}, {}, {}, {})
  }

  /** `append_check_point` accepted: into the deque, the buffer and the history. */
  function Accept(q: Queue, start: int, r: Read, justOffset: bool, put: bool): Queue {
    var id := |q.cks|;
    q.(cks := q.cks + [FreshCk(id, Point(start, r.offsets), r.next, justOffset, put)],
       buffer := q.buffer + {id}, deque := q.deque + [id],
       log := q.log + [Delivery(q.epoch, id, r.offsets)], high := r.next)
  }

  /** `add_ck_mock`: only the deque learns about it. */
  function Mock(q: Queue, start: int, r: Read): Queue {
    var id := |q.cks|;
    q.(cks := q.cks + [FreshCk(id, PopCheckPoint(start, 0, []), r.next, true, true)],
       deque := q.deque + [id])
  }

  function RecordRead(q: Queue, start: int, r: Read, outcome: Outcome): (Queue, Phase) {
    if r.offsets == [] then
      if Skipping(r.status) && r.next > -1 then
        (if q.ordered then q.(committed := r.next) else Mock(q, start, r), Leaving)
      else (q, Leaving)
    else if q.ordered then (q.(committed := start), Recorded(None, r.count))
    else match outcome
      case Conflict => (q, Leaving)
      case Buffered => (Accept(q, start, r, false, false), Recorded(Some(|q.cks|), r.count))
      case JustOffset(put) => (Accept(q, start, r, true, put), Recorded(Some(|q.cks|), r.count))
  }

  function CountHanded(q: Queue, id: Option<nat>, count: nat): Queue {
    var counted := q.(inflight := Inc(q.inflight, count));
    if id.None? then counted
    else counted.(handed := q.handed + {id.value}, known := q.known + {id.value})
  }

  /** The step a worker in phase `p` takes on its queue. */
  function Work(cfg: Config, q: Queue, p: Phase, c: Choice): (Queue, Phase) {
    match (p, c)
    case (Entered(Pop(want)), Check) => (q, if ShouldStop(cfg, q) then Leaving else Admitted(want))
    case (Entered(CommitScan), Commit) =>
      if q.scan.Claimed? && q.deque != [] && q.deque[0] < |q.cks| then
        (q.(committed := q.cks[q.deque[0]].next, scan := Committed), Leaving)
      else (q, Leaving)
    case (Entered(AckOrderly(_)), CommitOrder(next)) =>
      (if next > -1 && q.pendingReset.None? then q.(committed := next) else q, Leaving)
    case (Entered(ExtendOrderly), Touch) => (q, Leaving)
    case (Admitted(want), Position(init, blocked)) =>
      var (located, start) := Locate(q, init);
      if q.ordered && blocked then (located, Leaving)
      else
        var cleared := if q.ordered then located.(inflight := 0) else located;
        (cleared, if want <= 0 then Leaving else Positioned(want, start))
    case (Positioned(_, start), Fetch(first, second)) =>
      var r := FetchResult(first, second);
      (Corrected(q, first), if r.None? then Leaving else Fetched(start, r.value))
    case (Fetched(start, r), Record(outcome)) => RecordRead(q, start, r, outcome)
    case (Recorded(id, count), Count) => (CountHanded(q, id, count), Leaving)
    case _ => (q, p)
  }

  /** The returns that leave the lock bit up: `ack_orderly` and the ordered visibility change. */
  predicate CanAbandon(q: Queue, p: Phase) {
    match p
    case Entered(AckOrderly(offset)) => q.ordered && q.committed > offset
    case Entered(ExtendOrderly) => true
    case _ => false
  }

  // ---------------------------------------------------------------- steps outside the lock

  /** The test by which the scan commits the deque's front, and by which it empties the buffer. */
  predicate Settled(ck: Ck) {
    || (ck.justOffset && ck.stored)
    || Done(ck.point, ck.bits)
    || (DoneForFinish(ck.point, ck.bits, ck.toStore) && ck.stored)
  }

  function Acked(ck: Ck, offsets: set<int>, path: AckPath): Ck {
    match path
    case Merged => ck.(bits := ck.bits + Marks(ck.point, offsets), merged := ck.merged + offsets)
    case Stored(put) => if put then ck.(logged := ck.logged + offsets) else ck
  }

  /** The scan writes raised bits out as acknowledgements of the offsets at those positions. */
  function MarksStored(ck: Ck, marks: set<int>): Ck {
    ck.(toStore := ck.toStore + marks, logged := ck.logged + OffsetsAt(ck.point, marks))
  }

  /** `add_ack` takes the buffer path only for a buffered checkpoint; a mark beyond bit 31 panics. */
  predicate CanAckBy(q: Queue, id: nat, offsets: set<int>, path: AckPath)
    requires id < |q.cks|
  {
    && offsets <= OffsetSet(q.cks[id].point)
    && (path.Merged? ==>
          && id in q.buffer && !q.cks[id].justOffset
          && forall o | o in offsets :: IndexOfAck(q.cks[id].point, o) < MARK_WIDTH)
  }

  predicate CanEnv(q: Queue, e: Env) {
    match e
    case Grow(_) => true
    case Trim(min) => q.minOffset <= min <= q.maxOffset
    case StoreCk(id) => id < |q.cks| && id in q.buffer
    case StoreAcks(id, marks) =>
      && id < |q.cks| && id in q.buffer && q.cks[id].stored && !q.cks[id].justOffset
      && marks <= q.cks[id].bits && forall m | m in marks :: m < |q.cks[id].point.diffs|
    case Evict(id) => id < |q.cks| && id in q.buffer && Settled(q.cks[id])
    case ClaimScan => q.scan.NoScan? && q.deque != [] && q.deque[0] < |q.cks| && Settled(q.cks[q.deque[0]])
    case AbortScan => q.scan.Claimed?
    case PopFront => q.scan.Committed? && q.deque != []
    case Garbage => q.scan.NoScan?
    case SetReset(_) => true
    case Ack(id, offsets, path, _) => id < |q.cks| && id in q.known && offsets != {} && CanAckBy(q, id, offsets, path)
    case OrderAcked(_) => q.ordered
    case BeginExtend(id, offset) => id < |q.cks| && id in q.known && offset in OffsetSet(q.cks[id].point)
    case EndExtend(x, path) => x in q.extending && x.origin < |q.cks| && CanAckBy(q, x.origin, {x.offset}, path)
  }

  function Pairs(src: nat, offsets: set<int>): set<(nat, int)> {
    set o | o in offsets :: (src, o)
  }

  function ApplyEnv(q: Queue, e: Env): Queue
    requires CanEnv(q, e)
  {
    match e
    case Grow(more) => q.(created := true, maxOffset := q.maxOffset + more)
    case Trim(min) => q.(minOffset := min)
    case StoreCk(id) => q.(cks := q.cks[id := q.cks[id].(stored := true)])
    case StoreAcks(id, marks) => q.(cks := q.cks[id := MarksStored(q.cks[id], marks)])
    case Evict(id) => q.(buffer := q.buffer - {id})
    case ClaimScan => q.(scan := Claimed)
    case AbortScan => q.(scan := NoScan)
    case PopFront => q.(deque := q.deque[1..], scan := NoScan)
    case Garbage => q.(deque := [])
    case SetReset(offset) => q.(pendingReset := Some(offset))
    case Ack(id, offsets, path, counted) =>
      q.(cks := q.cks[id := Acked(q.cks[id], offsets, path)],
         acked := q.acked + Pairs(q.cks[id].src, offsets),
         inflight := if counted then Dec(q.inflight, |offsets|) else q.inflight)
    case OrderAcked(counted) => q.(inflight := if counted then Dec(q.inflight, 1) else q.inflight)
    case BeginExtend(id, offset) =>
      q.(cks := q.cks + [FreshCk(q.cks[id].src, Point(offset, [offset]), -1, false, true)],
         extending := q.extending + {Extension(id, offset, |q.cks|)})
    case EndExtend(x, path) =>
      q.(cks := q.cks[x.origin := Acked(q.cks[x.origin], {x.offset}, path)],
         extending := q.extending - {x}, known := q.known + {x.successor})
  }

  // ---------------------------------------------------------------- the machine of one key

  ghost predicate CanStep(cfg: Config, s: KeyState, e: KeyEvent) {
    match e
    case Enter(job) =>
      && s.crit.None?
      && (job.Pop? ==> job.want <= MAX_POP)
      && (job.AckOrderly? ==> s.q.ordered)
    case Do(c) => s.crit.Some? && CanWork(cfg, s.q, s.crit.value, c)
    case Exit => s.crit == Some(Leaving)
    case Abandon => s.crit.Some? && CanAbandon(s.q, s.crit.value)
    case Outside(env) => CanEnv(s.q, env)
  }

  ghost function Step(cfg: Config, s: KeyState, e: KeyEvent): KeyState
    requires CanStep(cfg, s, e)
  {
    match e
    case Enter(job) => s.(crit := Some(Entered(job)))
    case Do(c) => var (q, p) := Work(cfg, s.q, s.crit.value, c); KeyState(q, Some(p))
    case Exit => s.(crit := None)
    case Abandon => s.(crit := None)
    case Outside(env) => s.(q := ApplyEnv(s.q, env))
  }

  /** A queue nobody has consumed from yet, over whatever the store already holds. */
  predicate Fresh(q: Queue) {
    && q.cks == [] && q.buffer == {} && q.deque == [] && q.scan.NoScan?
    && q.inflight == 0 && q.epoch == 0 && q.high == -1 && q.log == []
    && q.handed == {} && q.known == {} && q.acked == {} && q.extending == {}
  }
}
