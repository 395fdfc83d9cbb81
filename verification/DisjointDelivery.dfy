/**
 No double delivery: between two resets the ranges handed out by the pops of one queue are
 pairwise disjoint and increasing over the whole run, because the start offset is recomputed
 inside the lock as the maximum of the buffered and the committed offset.
 */
module DisjointDelivery {
  import opened Prelude
  import opened Checkpoint
  import opened PopQueue
  import opened PopShape

  /** The negative offsets mean "nothing delivered since the last reset". */
  predicate Above(x: int, high: int) {
    high < 0 || high <= x
  }

  /** Where the next pop will start at the earliest, seen from the last delivery. */
  predicate Anchored(q: Queue) {
    Above(if q.deque == [] then q.committed else LatestBuffered(q), q.high)
  }

  /** One entry of the log: its checkpoint's range, and that it ended by `high` if it is current. */
  ghost predicate EntryOk(d: Delivery, cks: seq<Ck>, epoch: nat, high: int) {
    && d.ck < |cks| && d.epoch <= epoch
    && RangeOk(cks[d.ck])
    && (d.epoch == epoch ==> cks[d.ck].next <= high)
  }

  ghost predicate RangeOk(ck: Ck) {
    && ck.point.startOffset <= ck.next && 0 <= ck.next
    && (forall o | o in OffsetSet(ck.point) :: ck.point.startOffset <= o < ck.next)
  }

  ghost predicate EntriesOk(log: seq<Delivery>, cks: seq<Ck>, epoch: nat, high: int) {
    forall i | 0 <= i < |log| :: EntryOk(log[i], cks, epoch, high)
  }

  ghost predicate Apart(log: seq<Delivery>, cks: seq<Ck>) {
    forall i, j | 0 <= i < j < |log| && log[i].epoch == log[j].epoch && log[i].ck < |cks| && log[j].ck < |cks| ::
      cks[log[i].ck].next <= cks[log[j].ck].point.startOffset
  }

  ghost predicate PhaseAnchored(q: Queue, p: Phase) {
    match p
    case Positioned(_, start) => Above(start, q.high) && !q.scan.Committed?
    case Fetched(start, r) =>
      && Above(start, q.high) && !q.scan.Committed?
      && (r.offsets != [] ==> q.created && 0 <= r.next <= q.maxOffset)
      && (Skipping(r.status) ==> Above(r.next, q.high))
    case _ => true
  }

  ghost predicate ScanOk(scan: Scan, deque: seq<nat>, cks: seq<Ck>, committed: int) {
    && (scan.Claimed? ==> deque != [])
    && (scan.Committed? ==> deque != [] && deque[0] < |cks| && committed == cks[deque[0]].next)
  }

  ghost predicate Inv(s: KeyState) {
    var q := s.q;
    && 0 <= q.minOffset <= q.maxOffset
    && Anchored(q)
    && (q.high >= 0 ==> q.created && q.high <= q.maxOffset)
    && ScanOk(q.scan, q.deque, q.cks, q.committed)
    && (q.ordered ==> q.deque == [] && q.high < 0)
    && EntriesOk(q.log, q.cks, q.epoch, q.high)
    && Apart(q.log, q.cks)
    && (s.crit.Some? ==> PhaseAnchored(q, s.crit.value))
  }

  /**
   `scan_garbage` throws the deque of a key away. What the scan could test first: everything in
   the deque is already committed.
   */
  predicate GarbageHarmless(q: Queue) {
    q.deque == [] || LatestBuffered(q) <= q.committed
  }

  predicate Harmless(s: KeyState, e: KeyEvent) {
    e == Outside(Garbage) ==> GarbageHarmless(s.q)
  }

  lemma FreshInv(q: Queue)
    requires Fresh(q) && 0 <= q.minOffset <= q.maxOffset
    ensures Inv(KeyState(q, None))
  {
  }

  /** Later marks or flags of a checkpoint move no offset. */
  ghost predicate SameRanges(cks: seq<Ck>, cks': seq<Ck>) {
    && |cks| <= |cks'|
    && forall i | 0 <= i < |cks| :: cks'[i].point == cks[i].point && cks'[i].next == cks[i].next
  }

  lemma SameRangesKeepLog(log: seq<Delivery>, cks: seq<Ck>, cks': seq<Ck>, epoch: nat, high: int)
    requires EntriesOk(log, cks, epoch, high) && Apart(log, cks) && SameRanges(cks, cks')
    ensures EntriesOk(log, cks', epoch, high) && Apart(log, cks')
  {
    forall i | 0 <= i < |log| ensures EntryOk(log[i], cks', epoch, high) {
      assert EntryOk(log[i], cks, epoch, high);
    }
    forall i, j | 0 <= i < j < |log| && log[i].epoch == log[j].epoch && log[i].ck < |cks'| && log[j].ck < |cks'|
      ensures cks'[log[i].ck].next <= cks'[log[j].ck].point.startOffset
    {
      assert EntryOk(log[i], cks, epoch, high) && EntryOk(log[j], cks, epoch, high);
    }
  }

  /** A delivery that starts at or after `high` extends the log and becomes the new `high`. */
  lemma AppendKeepsLog(log: seq<Delivery>, cks: seq<Ck>, epoch: nat, high: int, ck: Ck, offsets: seq<int>)
    requires EntriesOk(log, cks, epoch, high) && Apart(log, cks)
    requires RangeOk(ck) && Above(ck.point.startOffset, high)
    ensures EntriesOk(log + [Delivery(epoch, |cks|, offsets)], cks + [ck], epoch, ck.next)
    ensures Apart(log + [Delivery(epoch, |cks|, offsets)], cks + [ck])
  {
    var log', cks' := log + [Delivery(epoch, |cks|, offsets)], cks + [ck];
    SameRangesKeepLog(log, cks, cks', epoch, high);
    forall i | 0 <= i < |log| ensures EntryOk(log'[i], cks', epoch, ck.next) {
      assert EntryOk(log[i], cks', epoch, high);
    }
    forall i, j | 0 <= i < j < |log'| && log'[i].epoch == log'[j].epoch
      ensures log'[i].ck < |cks'| && log'[j].ck < |cks'| && cks'[log'[i].ck].next <= cks'[log'[j].ck].point.startOffset
    {
      assert EntryOk(log[i], cks', epoch, high);
      if j < |log| { assert EntryOk(log[j], cks', epoch, high); }
    }
  }

  lemma FreshRange(id: nat, start: int, r: Read, justOffset: bool, put: bool)
    requires r.offsets != [] && Ascending(start, r.offsets) && start <= r.next && 0 <= r.next
    requires forall i | 0 <= i < |r.offsets| :: r.offsets[i] < r.next
    ensures RangeOk(FreshCk(id, Point(start, r.offsets), r.next, justOffset, put))
  {
    PointReconstructs(start, r.offsets);
  }

  /** A reset opens a new epoch: every logged delivery belongs to an older one. */
  lemma ResetKeepsLog(log: seq<Delivery>, cks: seq<Ck>, epoch: nat, high: int)
    requires EntriesOk(log, cks, epoch, high)
    ensures EntriesOk(log, cks, epoch + 1, -1)
  {
    forall i | 0 <= i < |log| ensures EntryOk(log[i], cks, epoch + 1, -1) {
      assert EntryOk(log[i], cks, epoch, high);
    }
  }

  lemma PositionKeepsInv(cfg: Config, s: KeyState, c: Choice)
    requires Shape(cfg, s) && Inv(s) && CanStep(cfg, s, Do(c)) && s.crit.value.Admitted?
    ensures Inv(Step(cfg, s, Do(c)))
  {
    var (q', start) := Locate(s.q, c.init);
    if s.q.pendingReset.Some? {
      ResetKeepsLog(s.q.log, s.q.cks, s.q.epoch, s.q.high);
    }
    assert Above(start, q'.high) && Anchored(q');
  }

  lemma FetchKeepsInv(cfg: Config, s: KeyState, c: Choice)
    requires Shape(cfg, s) && Inv(s) && CanStep(cfg, s, Do(c)) && s.crit.value.Positioned?
    ensures Inv(Step(cfg, s, Do(c)))
  {
    var Positioned(want, start) := s.crit.value;
    var q' := Corrected(s.q, c.first);
    assert Anchored(q');
  }

  /** An accepted delivery: it starts at or after the last one's end and becomes the last one. */
  lemma AcceptKeepsInv(cfg: Config, s: KeyState, start: int, r: Read, justOffset: bool, put: bool)
    requires Shape(cfg, s) && Inv(s) && s.crit == Some(Fetched(start, r)) && r.offsets != [] && !s.q.ordered
    ensures Inv(KeyState(Accept(s.q, start, r, justOffset, put), Some(Recorded(Some(|s.q.cks|), r.count))))
  {
    var q, q' := s.q, Accept(s.q, start, r, justOffset, put);
    FreshRange(|q.cks|, start, r, justOffset, put);
    AppendKeepsLog(q.log, q.cks, q.epoch, q.high, FreshCk(|q.cks|, Point(start, r.offsets), r.next, justOffset, put),
        r.offsets);
    assert LatestBuffered(q') == r.next;
    assert q.deque != [] ==> q'.deque[0] == q.deque[0];
  }

  /** A read that found nothing to deliver but moves the offset on. */
  lemma MockKeepsInv(cfg: Config, s: KeyState, start: int, r: Read)
    requires Shape(cfg, s) && Inv(s) && s.crit == Some(Fetched(start, r)) && Skipping(r.status) && !s.q.ordered
    ensures Inv(KeyState(Mock(s.q, start, r), Some(Leaving)))
  {
    var q, q' := s.q, Mock(s.q, start, r);
    SameRangesKeepLog(q.log, q.cks, q'.cks, q.epoch, q.high);
    assert LatestBuffered(q') == r.next;
    assert q.deque != [] ==> q'.deque[0] == q.deque[0];
  }

  lemma RecordReadKeepsInv(cfg: Config, s: KeyState, start: int, r: Read, outcome: Outcome)
    requires Shape(cfg, s) && Inv(s) && s.crit == Some(Fetched(start, r))
    ensures var (q, p) := RecordRead(s.q, start, r, outcome); Inv(KeyState(q, Some(p)))
  {
    if r.offsets != [] {
      if !s.q.ordered && !outcome.Conflict? {
        AcceptKeepsInv(cfg, s, start, r, outcome.JustOffset?, outcome.JustOffset? && outcome.put);
      }
    } else if Skipping(r.status) && !s.q.ordered {
      MockKeepsInv(cfg, s, start, r);
    }
  }

  lemma RecordKeepsInv(cfg: Config, s: KeyState, c: Choice)
    requires Shape(cfg, s) && Inv(s) && CanStep(cfg, s, Do(c)) && s.crit.value.Fetched?
    ensures Inv(Step(cfg, s, Do(c)))
  {
    RecordReadKeepsInv(cfg, s, s.crit.value.start, s.crit.value.read, c.outcome);
  }

  lemma CommitKeepsInv(cfg: Config, s: KeyState, c: Choice)
    requires Shape(cfg, s) && Inv(s) && CanStep(cfg, s, Do(c)) && s.crit.value.Entered?
    ensures Inv(Step(cfg, s, Do(c)))
  {
    var q, q' := s.q, Step(cfg, s, Do(c)).q;
    assert q'.cks == q.cks && q'.log == q.log && q'.high == q.high && q'.epoch == q.epoch;
    assert Anchored(q') && ScanOk(q'.scan, q'.deque, q'.cks, q'.committed);
  }

  lemma WorkKeepsInv(cfg: Config, s: KeyState, c: Choice)
    requires Shape(cfg, s) && Inv(s) && CanStep(cfg, s, Do(c))
    ensures Inv(Step(cfg, s, Do(c)))
  {
    match s.crit.value
    case Entered(_) => CommitKeepsInv(cfg, s, c);
    case Admitted(_) => PositionKeepsInv(cfg, s, c);
    case Positioned(_, _) => FetchKeepsInv(cfg, s, c);
    case Fetched(_, _) => RecordKeepsInv(cfg, s, c);
    case _ =>
  }

  /** The events that touch checkpoints only, and neither the deque nor an offset. */
  predicate OnlyMarks(e: Env) {
    e.StoreCk? || e.StoreAcks? || e.Evict? || e.Ack? || e.BeginExtend? || e.EndExtend? || e.OrderAcked? || e.SetReset?
  }

  lemma OnlyMarksIsQuiet(q: Queue, e: Env)
    requires CanEnv(q, e) && OnlyMarks(e)
    ensures var q' := ApplyEnv(q, e);
            && SameRanges(q.cks, q'.cks) && q'.log == q.log && q'.deque == q.deque && q'.scan == q.scan
            && q'.committed == q.committed && q'.high == q.high && q'.epoch == q.epoch && q'.ordered == q.ordered
            && q'.minOffset == q.minOffset && q'.maxOffset == q.maxOffset && q'.created == q.created
  {
  }

  lemma OnlyMarksKeepsInv(cfg: Config, s: KeyState, e: Env)
    requires Shape(cfg, s) && Inv(s) && CanStep(cfg, s, Outside(e)) && OnlyMarks(e)
    ensures Inv(Step(cfg, s, Outside(e)))
  {
    var q, q' := s.q, ApplyEnv(s.q, e);
    OnlyMarksIsQuiet(q, e);
    SameRangesKeepLog(q.log, q.cks, q'.cks, q.epoch, q.high);
    assert Anchored(q');
  }

  lemma EnvKeepsInv(cfg: Config, s: KeyState, e: Env)
    requires Shape(cfg, s) && Inv(s) && CanStep(cfg, s, Outside(e)) && Harmless(s, Outside(e))
    ensures Inv(Step(cfg, s, Outside(e)))
  {
    if OnlyMarks(e) {
      OnlyMarksKeepsInv(cfg, s, e);
    }
  }

  lemma StepKeepsInv(cfg: Config, s: KeyState, e: KeyEvent)
    requires Shape(cfg, s) && Inv(s) && CanStep(cfg, s, e) && Harmless(s, e)
    ensures Inv(Step(cfg, s, e))
  {
    match e
    case Do(c) => WorkKeepsInv(cfg, s, c);
    case Outside(env) => EnvKeepsInv(cfg, s, env);
    case _ =>
  }

  /** Read off the invariant: the ranges, and with them the messages, are apart and increasing. */
  lemma ApartMessages(cfg: Config, s: KeyState, i: nat, j: nat, a: int, b: int)
    requires Shape(cfg, s) && Inv(s) && i < j < |s.q.log| && s.q.log[i].epoch == s.q.log[j].epoch
    requires s.q.log[i].ck < |s.q.cks| && s.q.log[j].ck < |s.q.cks|
    requires a in OffsetSet(s.q.cks[s.q.log[i].ck].point) && b in OffsetSet(s.q.cks[s.q.log[j].ck].point)
    ensures a < b
  {
    assert EntryOk(s.q.log[i], s.q.cks, s.q.epoch, s.q.high) && EntryOk(s.q.log[j], s.q.cks, s.q.epoch, s.q.high);
  }

  /** Once an offset is committed, throwing the deque away moves the next start if and only if the test fails. */
  lemma GarbageKeepsStartIff(q: Queue, p: InitPolicy)
    requires CanEnv(q, Garbage) && 0 <= q.committed
    ensures PopOffset(ApplyEnv(q, Garbage), p) == PopOffset(q, p) <==> GarbageHarmless(q)
    ensures PopOffset(ApplyEnv(q, Garbage), p) <= PopOffset(q, p)
  {
  }
}
