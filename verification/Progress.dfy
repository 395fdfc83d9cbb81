/**
 What the steps of one queue achieve, beside what they keep: where a pop starts, what an empty or
 corrected read moves, that acknowledgements mark their messages until the checkpoint is settled
 and its offset committed, that a visibility change hands the message over, and how an ordered
 queue advances.
 */
module Progress {
  import opened Prelude
  import opened Checkpoint
  import opened Inflight
  import opened PopQueue
  import opened PopShape
  import opened Limits
  import Conservation
  import Coverage
  import Notification

  // ---------------------------------------------------------------- where a pop starts

  /** Nothing committed, nothing buffered, no reset: a group that has not consumed the queue yet. */
  predicate NewGroup(q: Queue) {
    q.committed < 0 && q.deque == [] && q.pendingReset.None?
  }

  /** From the minimum: no stored message lies before the start, and the start is committed. */
  lemma MinModeMissesNothing(q: Queue, p: InitPolicy)
    requires NewGroup(q) && p.fromMin
    ensures var (q', start) := Locate(q, p);
            && q'.committed == start
            && (forall o | Notification.Stored(q, o) :: start <= o)
            && (q.minOffset < q.maxOffset ==> Notification.Stored(q, start))
  {
  }

  /** From the maximum: the start is the last stored message, 0 for a queue that never held one, and it is committed. */
  lemma MaxModeStartsAtLast(q: Queue, p: InitPolicy)
    requires NewGroup(q) && !p.fromMin && 0 <= q.minOffset <= q.maxOffset
    requires !p.checkInMem || !p.inMem || 0 < q.minOffset
    ensures var (q', start) := Locate(q, p);
            && q'.committed == start
            && (forall o | Notification.Stored(q, o) :: o <= start)
            && (q.minOffset < q.maxOffset ==> Notification.Stored(q, start))
            && (q.maxOffset == 0 ==> start == 0)
  {
  }

  /** From the maximum, unless the whole queue is still in memory: then nothing is missed either. */
  lemma InMemoryStartsAtFirst(q: Queue, p: InitPolicy)
    requires NewGroup(q) && !p.fromMin && p.checkInMem && p.inMem && q.minOffset == 0
    ensures var (q', start) := Locate(q, p);
            q'.committed == start == 0 && forall o | Notification.Stored(q, o) :: start <= o
  {
  }

  /** A pending reset wins over everything, once: it is the start, it is committed, the deque is gone. */
  lemma ResetIsTheStart(q: Queue, p: InitPolicy, offset: int)
    requires q.pendingReset == Some(offset)
    ensures var (q', start) := Locate(q, p);
            && start == offset == q'.committed && q'.pendingReset.None? && q'.deque == []
            && (0 <= offset ==> PopOffset(q', p) == offset)
  {
  }

  /** From the request to the pop: once a reset is asked for, the next pop under the threshold starts there. */
  lemma ResetTakesEffect(cfg: Config, s: KeyState, want: int, offset: int)
    requires s.crit.None? && !s.q.ordered && s.q.scan.NoScan? && !ShouldStop(cfg, s.q) && 0 < want <= MAX_POP
    ensures var events := [Outside(SetReset(offset)), Enter(Pop(want)), Do(Check), Do(Position(ANY_INIT, false))];
            && CanRun(cfg, s, events)
            && var t := After(cfg, s, events);
               && t.crit == Some(Positioned(want, offset))
               && t.q.committed == offset && t.q.deque == [] && t.q.pendingReset.None?
  {
    var events := [Outside(SetReset(offset)), Enter(Pop(want)), Do(Check), Do(Position(ANY_INIT, false))];
    var q := s.q.(pendingReset := Some(offset));
    var last := KeyState(Locate(q, ANY_INIT).0, Some(Positioned(want, offset)));
    assert Locate(q, ANY_INIT).1 == offset && events[3..] == [Do(Position(ANY_INIT, false))];
    assert Step(cfg, KeyState(q, Some(Admitted(want))), events[3]) == last;
    Stepwise(cfg, KeyState(q, Some(Admitted(want))), events[3..], last);
    Stepwise(cfg, KeyState(q, Some(Entered(Pop(want)))), events[2..], KeyState(q, Some(Admitted(want))));
    Stepwise(cfg, KeyState(q, None), events[1..], KeyState(q, Some(Entered(Pop(want)))));
    Stepwise(cfg, s, events, KeyState(q, None));
  }

  /** Otherwise a pop goes on after everything committed and everything buffered, and moves nothing. */
  lemma GoesOnAfterBoth(q: Queue, p: InitPolicy)
    requires q.pendingReset.None? && 0 <= q.committed
    ensures var (q', start) := Locate(q, p);
            && q' == q && q.committed <= start && LatestBuffered(q) <= start
            && (start == q.committed || start == LatestBuffered(q))
  {
  }

  // ---------------------------------------------------------------- reads that deliver nothing

  /** A pop of `want` messages whose reads return `first` and, when asked again, `second`. */
  function EmptyPop(want: int, first: Option<Read>, second: Option<Read>): seq<KeyEvent> {
    [Enter(Pop(want)), Do(Check), Do(Position(ANY_INIT, false)), Do(Fetch(first, second))]
  }

  const GIVE_UP := [Do(Record(Buffered)), Exit]

  lemma EmptyPopReads(cfg: Config, s: KeyState, want: int, first: Option<Read>, second: Option<Read>)
    requires Idle(s) && !ShouldStop(cfg, s.q) && 0 < want <= MAX_POP
    requires first.Some? ==> ReadOk(cfg, s.q, Start(s.q), want, first.value)
    requires second.Some? ==> ReadOk(cfg, Corrected(s.q, first), Start(s.q), want, second.value)
    ensures var events := EmptyPop(want, first, second);
            && CanRun(cfg, s, events)
            && After(cfg, s, events).q == Corrected(s.q, first)
            && var result := FetchResult(first, second);
               After(cfg, s, events).crit == Some(if result.None? then Leaving else Fetched(Start(s.q), result.value))
  {
    var events, start, q := EmptyPop(want, first, second), Start(s.q), s.q;
    assert Locate(q, ANY_INIT) == (q, start);
    var read := Step(cfg, KeyState(q, Some(Positioned(want, start))), Do(Fetch(first, second)));
    Stepwise(cfg, KeyState(q, Some(Positioned(want, start))), events[3..], read);
    Stepwise(cfg, KeyState(q, Some(Admitted(want))), events[2..], KeyState(q, Some(Positioned(want, start))));
    Stepwise(cfg, KeyState(q, Some(Entered(Pop(want)))), events[1..], KeyState(q, Some(Admitted(want))));
    Stepwise(cfg, s, events, KeyState(q, Some(Entered(Pop(want)))));
  }

  /** The messages a read passed over without delivering: the next pop starts behind them. */
  lemma SkippingMovesOn(cfg: Config, s: KeyState, want: int, r: Read)
    requires Idle(s) && !ShouldStop(cfg, s.q) && 0 < want <= MAX_POP && ReadOk(cfg, s.q, Start(s.q), want, r)
    requires r.status.NoMatchedMessage? || r.status.MessageWasRemoving?
    ensures var events := EmptyPop(want, Some(r), None) + GIVE_UP;
            && CanRun(cfg, s, events)
            && var t := After(cfg, s, events);
               && t.crit.None? && Start(t.q) == r.next && t.q.committed == s.q.committed
               && t.q.log == s.q.log && t.q.inflight == s.q.inflight
  {
    EmptyPopReads(cfg, s, want, Some(r), None);
    var q, q', events := s.q, Mock(s.q, Start(s.q), r), EmptyPop(want, Some(r), None);
    Stepwise(cfg, KeyState(q', Some(Leaving)), GIVE_UP[1..], KeyState(q', None));
    Stepwise(cfg, KeyState(q, Some(Fetched(Start(q), r))), GIVE_UP, KeyState(q', Some(Leaving)));
    RunThenRun(cfg, s, events, GIVE_UP);
    assert LatestBuffered(q') == r.next;
  }

  /** An offset outside the queue: the corrected one is committed, the next pop starts there or behind the buffer. */
  lemma CorrectionIsCommitted(cfg: Config, s: KeyState, want: int, r: Read)
    requires Idle(s) && !ShouldStop(cfg, s.q) && 0 < want <= MAX_POP && ReadOk(cfg, s.q, Start(s.q), want, r)
    requires r.status.OffsetTooSmall? || r.status.OffsetOverflowBadly? || r.status.OffsetFoundNull?
    requires 0 <= r.next
    ensures var events := EmptyPop(want, Some(r), None) + [Exit];
            && CanRun(cfg, s, events)
            && var t := After(cfg, s, events);
               && t == KeyState(s.q.(committed := r.next), None)
               && Start(t.q) == Max(r.next, LatestBuffered(s.q))
  {
    EmptyPopReads(cfg, s, want, Some(r), None);
    var q', events := s.q.(committed := r.next), EmptyPop(want, Some(r), None);
    Stepwise(cfg, KeyState(q', Some(Leaving)), [Exit], KeyState(q', None));
    RunThenRun(cfg, s, events, [Exit]);
  }

  /** The store trims the beginning of a queue away: the next pop moves the group to the new beginning. */
  lemma TrimmedIsCorrected(cfg: Config, s: KeyState, want: int, min: int)
    requires Idle(s) && !ShouldStop(cfg, s.q) && 0 < want <= MAX_POP
    requires s.q.minOffset <= min <= s.q.maxOffset && Start(s.q) < min
    ensures var r := Read(OffsetTooSmall, [], 0, min);
            var events := [Outside(Trim(min))] + (EmptyPop(want, Some(r), None) + [Exit]);
            && CanRun(cfg, s, events)
            && After(cfg, s, events) == KeyState(s.q.(minOffset := min, committed := min), None)
            && Start(After(cfg, s, events).q) == min
  {
    var r, trimmed := Read(OffsetTooSmall, [], 0, min), KeyState(s.q.(minOffset := min), None);
    assert Start(trimmed.q) == Start(s.q);
    CorrectionIsCommitted(cfg, trimmed, want, r);
    var rest := EmptyPop(want, Some(r), None) + [Exit];
    var events := [Outside(Trim(min))] + rest;
    assert events[1..] == rest;
    Stepwise(cfg, s, events, trimmed);
  }

  /** A pop that finds the queue at its end moves nothing at all. */
  lemma EndOfQueueMovesNothing(cfg: Config, s: KeyState, want: int, r: Read)
    requires Idle(s) && !ShouldStop(cfg, s.q) && 0 < want <= MAX_POP && ReadOk(cfg, s.q, Start(s.q), want, r)
    requires r.status.OffsetOverflowOne? || r.status.NoMessageInQueue?
    ensures var events := EmptyPop(want, Some(r), None) + GIVE_UP;
            CanRun(cfg, s, events) && After(cfg, s, events) == s
  {
    EmptyPopReads(cfg, s, want, Some(r), None);
    var events := EmptyPop(want, Some(r), None);
    Stepwise(cfg, KeyState(s.q, Some(Leaving)), GIVE_UP[1..], s);
    Stepwise(cfg, KeyState(s.q, Some(Fetched(Start(s.q), r))), GIVE_UP, KeyState(s.q, Some(Leaving)));
    RunThenRun(cfg, s, events, GIVE_UP);
  }

  /** The re-read's result counts, whatever it is; a queue that does not exist yet is skipped like no match. */
  lemma RereadCounts(cfg: Config, s: KeyState, want: int, first: Read, second: Read)
    requires Idle(s) && !ShouldStop(cfg, s.q) && 0 < want <= MAX_POP && ReadOk(cfg, s.q, Start(s.q), want, first)
    requires first.status.OffsetTooSmall? || first.status.OffsetOverflowBadly? || first.status.OffsetFoundNull?
    requires ReadOk(cfg, s.q.(committed := first.next), Start(s.q), want, second) && second.status.OffsetFoundNull?
    requires 0 <= first.next
    ensures var events := EmptyPop(want, Some(first), Some(second)) + GIVE_UP;
            && CanRun(cfg, s, events)
            && var t := After(cfg, s, events);
               && t.crit.None? && t.q.committed == first.next
               && Start(t.q) == Max(first.next, second.next) && t.q.log == s.q.log
  {
    EmptyPopReads(cfg, s, want, Some(first), Some(second));
    var q := s.q.(committed := first.next);
    var q', events := Mock(q, Start(s.q), second), EmptyPop(want, Some(first), Some(second));
    Stepwise(cfg, KeyState(q', Some(Leaving)), GIVE_UP[1..], KeyState(q', None));
    Stepwise(cfg, KeyState(q, Some(Fetched(Start(s.q), second))), GIVE_UP, KeyState(q', Some(Leaving)));
    RunThenRun(cfg, s, events, GIVE_UP);
    assert LatestBuffered(q') == second.next;
  }

  // ---------------------------------------------------------------- acknowledgements mark

  /** The offsets an event acknowledges on checkpoint `id` through the buffer. */
  function Merges(e: KeyEvent, id: nat): set<int> {
    match e
    case Outside(Ack(j, offsets, Merged, _)) => if j == id then offsets else {}
    case Outside(EndExtend(x, Merged)) => if x.origin == id then {x.offset} else {}
    case _ => {}
  }

  /** The offsets whose acknowledgement an event puts into the revive log, those of raised bits included. */
  function Logs(point: PopCheckPoint, e: KeyEvent, id: nat): set<int> {
    match e
    case Outside(Ack(j, offsets, Stored(true), _)) => if j == id then offsets else {}
    case Outside(EndExtend(x, Stored(true))) => if x.origin == id then {x.offset} else {}
    case Outside(StoreAcks(j, marks)) => if j == id then OffsetsAt(point, marks) else {}
    case _ => {}
  }

  function MergedBy(events: seq<KeyEvent>, id: nat): set<int> {
    if events == [] then {} else Merges(events[0], id) + MergedBy(events[1..], id)
  }

  function LoggedBy(point: PopCheckPoint, events: seq<KeyEvent>, id: nat): set<int> {
    if events == [] then {} else Logs(point, events[0], id) + LoggedBy(point, events[1..], id)
  }

  /** What an event leaves of checkpoint `id`, and exactly what it marks in it. */
  ghost predicate Marked(ck: Ck, ck': Ck, e: KeyEvent, id: nat) {
    && ck'.point == ck.point && ck'.src == ck.src && ck'.justOffset == ck.justOffset && ck'.next == ck.next
    && ck'.bits == ck.bits + Marks(ck.point, Merges(e, id))
    && ck'.logged == ck.logged + Logs(ck.point, e, id)
    && (ck'.stored <==> ck.stored || e == Outside(StoreCk(id)))
  }

  lemma StepMarks(cfg: Config, s: KeyState, e: KeyEvent, id: nat)
    requires CanStep(cfg, s, e) && id < |s.q.cks|
    ensures id < |Step(cfg, s, e).q.cks| && Marked(s.q.cks[id], Step(cfg, s, e).q.cks[id], e, id)
  {
    if e.Outside? {
      EnvMarks(s.q, e.env, id);
    } else {
      WorkKeepsCks(cfg, s, e, id);
      NothingMarked(s.q.cks[id], e, id);
    }
  }

  lemma WorkKeepsCks(cfg: Config, s: KeyState, e: KeyEvent, id: nat)
    requires CanStep(cfg, s, e) && id < |s.q.cks| && !e.Outside?
    ensures id < |Step(cfg, s, e).q.cks| && Step(cfg, s, e).q.cks[id] == s.q.cks[id]
  {
  }

  lemma NothingMarked(ck: Ck, e: KeyEvent, id: nat)
    requires Merges(e, id) == {} == Logs(ck.point, e, id) && e != Outside(StoreCk(id))
    ensures Marked(ck, ck, e, id)
  {
    assert Marks(ck.point, {}) == {};
  }

  lemma AckMarks(ck: Ck, offsets: set<int>, path: AckPath, e: KeyEvent, id: nat)
    requires e.Outside? && !e.env.StoreCk?
    requires Merges(e, id) == (if path.Merged? then offsets else {})
    requires Logs(ck.point, e, id) == (if path == Stored(true) then offsets else {})
    ensures Marked(ck, Acked(ck, offsets, path), e, id)
  {
    assert Marks(ck.point, {}) == {};
  }

  lemma EnvMarks(q: Queue, e: Env, id: nat)
    requires CanEnv(q, e) && id < |q.cks|
    ensures id < |ApplyEnv(q, e).cks| && Marked(q.cks[id], ApplyEnv(q, e).cks[id], Outside(e), id)
  {
    var ck := q.cks[id];
    if e.Ack? && e.id == id {
      AckMarks(ck, e.offsets, e.path, Outside(e), id);
    } else if e.EndExtend? && e.x.origin == id {
      AckMarks(ck, {e.x.offset}, e.path, Outside(e), id);
    } else if e.StoreAcks? && e.id == id {
      assert Marks(ck.point, {}) == {};
    } else if e == StoreCk(id) {
      assert Marks(ck.point, {}) == {};
    } else {
      OthersUntouched(q, e, id);
      NothingMarked(ck, Outside(e), id);
    }
  }

  lemma OthersUntouched(q: Queue, e: Env, id: nat)
    requires CanEnv(q, e) && id < |q.cks|
    requires e.Ack? || e.StoreAcks? || e.StoreCk? ==> e.id != id
    requires e.EndExtend? ==> e.x.origin != id
    ensures id < |ApplyEnv(q, e).cks| && ApplyEnv(q, e).cks[id] == q.cks[id]
  {
  }

  /** Over a whole run, the bits of a checkpoint are exactly those of the acknowledgements it got. */
  lemma {:induction false} RunMarks(cfg: Config, s: KeyState, events: seq<KeyEvent>, id: nat)
    requires CanRun(cfg, s, events) && id < |s.q.cks|
    ensures id < |After(cfg, s, events).q.cks|
    ensures var ck, ck' := s.q.cks[id], After(cfg, s, events).q.cks[id];
            && ck'.point == ck.point && ck'.src == ck.src && ck'.justOffset == ck.justOffset && ck'.next == ck.next
            && ck'.bits == ck.bits + Marks(ck.point, MergedBy(events, id))
            && ck'.logged == ck.logged + LoggedBy(ck.point, events, id)
    decreases |events|
  {
    var point := s.q.cks[id].point;
    assert Marks(point, {}) == {};
    if events != [] {
      StepMarks(cfg, s, events[0], id);
      RunMarks(cfg, Step(cfg, s, events[0]), events[1..], id);
      MarksOfUnion(point, Merges(events[0], id), MergedBy(events[1..], id));
    }
  }

  /** Every acknowledgement that finds a position marks the message there, in the buffer or in the log. */
  lemma AckedIsMarked(cfg: Config, s: KeyState, events: seq<KeyEvent>, id: nat, o: int)
    requires CanRun(cfg, s, events) && id < |s.q.cks|
    requires o in MergedBy(events, id) || o in LoggedBy(s.q.cks[id].point, events, id)
    requires 0 <= IndexOfAck(s.q.cks[id].point, o) < |s.q.cks[id].point.diffs|
    ensures var point := s.q.cks[id].point;
            && id < |After(cfg, s, events).q.cks|
            && !Coverage.Unmarked(After(cfg, s, events).q.cks[id], AckOffsetByIndex(point, IndexOfAck(point, o)))
  {
    RunMarks(cfg, s, events, id);
    var ck, ck' := s.q.cks[id], After(cfg, s, events).q.cks[id];
    var i := IndexOfAck(ck.point, o);
    assert i in Marks(ck.point, MergedBy(events, id)) || i in Marks(ck'.point, ck'.logged);
    assert AckOffsetByIndex(ck'.point, i) == AckOffsetByIndex(ck.point, i);
  }

  lemma GapFreeFindsItself(point: PopCheckPoint, o: int)
    requires WellFormed(point) && point.diffs != [] && GapFree(point) && o in OffsetSet(point)
    ensures 0 <= IndexOfAck(point, o) < |point.diffs| && AckOffsetByIndex(point, IndexOfAck(point, o)) == o
  {
    var i :| 0 <= i < |point.diffs| && AckOffsetByIndex(point, i) == o;
    GapFreeMeansIdentity(point, i);
  }

  /** In a batch without gaps that message is the acknowledged one: its checkpoint no longer guards it. */
  lemma AckedIsUnguarded(cfg: Config, s: KeyState, events: seq<KeyEvent>, id: nat, o: int)
    requires Shape(cfg, s) && CanRun(cfg, s, events) && id < |s.q.cks|
    requires s.q.cks[id].point.diffs != [] && GapFree(s.q.cks[id].point) && o in OffsetSet(s.q.cks[id].point)
    requires o in MergedBy(events, id) || o in LoggedBy(s.q.cks[id].point, events, id)
    ensures !Coverage.Guards(After(cfg, s, events).q, id, s.q.cks[id].src, o)
  {
    assert CkOk(s.q.cks[id]);
    GapFreeFindsItself(s.q.cks[id].point, o);
    AckedIsMarked(cfg, s, events, id, o);
  }

  /** Once all messages of a batch without gaps were acknowledged through the buffer, the scan drops it. */
  lemma FullyMergedIsSettled(cfg: Config, s: KeyState, events: seq<KeyEvent>, id: nat)
    requires Shape(cfg, s) && CanRun(cfg, s, events) && id < |s.q.cks|
    requires s.q.cks[id].point.diffs != [] && GapFree(s.q.cks[id].point)
    requires OffsetSet(s.q.cks[id].point) <= MergedBy(events, id)
    ensures var q := After(cfg, s, events).q;
            && id < |q.cks| && Settled(q.cks[id])
            && (id in q.buffer ==> CanEnv(q, Evict(id)) && id !in ApplyEnv(q, Evict(id)).buffer)
  {
    var ck := s.q.cks[id];
    assert CkOk(ck);
    RunMarks(cfg, s, events, id);
    AllAckedIsDoneIffGapFree(ck.point);
    MarksGrow(ck.point, OffsetSet(ck.point), MergedBy(events, id));
  }

  lemma MarksGrow(ck: PopCheckPoint, a: set<int>, b: set<int>)
    requires a <= b
    ensures Marks(ck, a) <= Marks(ck, b)
  {
  }

  /** Every acknowledgement of delivery `src` in the run goes through its own checkpoint and the buffer. */
  ghost predicate OnlyMerges(cfg: Config, s: KeyState, events: seq<KeyEvent>, src: nat)
    requires CanRun(cfg, s, events)
    decreases |events|
  {
    events == [] || (
      && (events[0].Outside? && events[0].env.Ack? && s.q.cks[events[0].env.id].src == src ==>
            events[0].env.id == src && events[0].env.path.Merged?)
      && OnlyMerges(cfg, Step(cfg, s, events[0]), events[1..], src))
  }

  lemma StepAcked(cfg: Config, s: KeyState, e: KeyEvent)
    requires CanStep(cfg, s, e)
    ensures Step(cfg, s, e).q.acked == if e.Outside? && e.env.Ack?
              then s.q.acked + Pairs(s.q.cks[e.env.id].src, e.env.offsets) else s.q.acked
  {
  }

  lemma {:induction false} AckedWereMerged(cfg: Config, s: KeyState, events: seq<KeyEvent>, src: nat, o: int)
    requires CanRun(cfg, s, events) && OnlyMerges(cfg, s, events, src)
    requires src < |s.q.cks| && s.q.cks[src].src == src && (src, o) !in s.q.acked
    ensures (src, o) in After(cfg, s, events).q.acked ==> o in MergedBy(events, src)
    decreases |events|
  {
    if events != [] {
      StepAcked(cfg, s, events[0]);
      StepMarks(cfg, s, events[0], src);
      if (src, o) !in Step(cfg, s, events[0]).q.acked {
        AckedWereMerged(cfg, Step(cfg, s, events[0]), events[1..], src, o);
      }
    }
  }

  /** As the client sees it: all messages acknowledged, all through the buffer, and the batch is settled. */
  lemma FullyAckedIsSettled(cfg: Config, s: KeyState, events: seq<KeyEvent>, id: nat)
    requires Shape(cfg, s) && CanRun(cfg, s, events) && OnlyMerges(cfg, s, events, id)
    requires id < |s.q.cks| && s.q.cks[id].src == id && s.q.cks[id].point.diffs != [] && GapFree(s.q.cks[id].point)
    requires forall o | o in OffsetSet(s.q.cks[id].point) :: (id, o) !in s.q.acked
    requires forall o | o in OffsetSet(s.q.cks[id].point) :: (id, o) in After(cfg, s, events).q.acked
    ensures id < |After(cfg, s, events).q.cks| && Settled(After(cfg, s, events).q.cks[id])
  {
    forall o | o in OffsetSet(s.q.cks[id].point) ensures o in MergedBy(events, id) {
      AckedWereMerged(cfg, s, events, id, o);
    }
    FullyMergedIsSettled(cfg, s, events, id);
  }

  /** What is settled from the start: a skipped range and a stored offset, not a buffered batch. */
  lemma SettledAtOnceIff(q: Queue, start: int, r: Read, outcome: Outcome)
    requires !q.ordered && Ascending(start, r.offsets) && 0 < |r.offsets| <= MAX_POP && !outcome.Conflict?
    ensures var q' := RecordRead(q, start, r, outcome).0;
            && |q'.cks| == |q.cks| + 1 && |q.cks| in q'.buffer
            && (Settled(q'.cks[|q.cks|]) <==> outcome == JustOffset(true))
  {
    PointReconstructs(start, r.offsets);
    var ck := RecordRead(q, start, r, outcome).0.cks[|q.cks|];
    assert 0 < ck.point.num && 0 !in ck.bits;
  }

  lemma SkippedIsSettled(q: Queue, start: int, r: Read, outcome: Outcome)
    requires !q.ordered && r.offsets == [] && -1 < r.next
    requires || r.status.NoMatchedMessage? || r.status.OffsetFoundNull?
             || r.status.MessageWasRemoving? || r.status.NoMatchedLogicQueue?
    ensures var q' := RecordRead(q, start, r, outcome).0;
            && |q'.cks| == |q.cks| + 1 && Settled(q'.cks[|q.cks|]) && q'.deque == q.deque + [|q.cks|]
            && q'.cks[|q.cks|].justOffset && q'.cks[|q.cks|].stored
            && LatestBuffered(q') == r.next && q'.buffer == q.buffer
  {
  }

  /** Two checkpoints of the same key: the second is refused and the queue is as before. */
  lemma ConflictLeavesNothing(q: Queue, start: int, r: Read)
    requires !q.ordered && r.offsets != []
    ensures RecordRead(q, start, r, Conflict) == (q, Leaving)
  {
  }

  // ---------------------------------------------------------------- the offset is committed

  const COMMIT_FRONT := [Outside(ClaimScan), Enter(CommitScan), Do(Commit), Exit, Outside(PopFront)]

  /** A settled front: its offset is committed and it leaves the deque, and nothing else changes. */
  lemma SettledFrontIsCommitted(cfg: Config, s: KeyState)
    requires s.crit.None? && s.q.scan.NoScan? && s.q.deque != []
    requires s.q.deque[0] < |s.q.cks| && Settled(s.q.cks[s.q.deque[0]])
    ensures CanRun(cfg, s, COMMIT_FRONT)
    ensures var front := s.q.cks[s.q.deque[0]];
            After(cfg, s, COMMIT_FRONT) == s.(q := s.q.(committed := front.next, deque := s.q.deque[1..]))
  {
    var q := s.q.(scan := Claimed);
    var q' := q.(committed := q.cks[q.deque[0]].next, scan := Committed);
    var q'' := q'.(deque := q.deque[1..], scan := NoScan);
    Stepwise(cfg, KeyState(q', None), COMMIT_FRONT[4..], KeyState(q'', None));
    Stepwise(cfg, KeyState(q', Some(Leaving)), COMMIT_FRONT[3..], KeyState(q', None));
    Stepwise(cfg, KeyState(q, Some(Entered(CommitScan))), COMMIT_FRONT[2..], KeyState(q', Some(Leaving)));
    Stepwise(cfg, KeyState(q, None), COMMIT_FRONT[1..], KeyState(q, Some(Entered(CommitScan))));
    Stepwise(cfg, s, COMMIT_FRONT, KeyState(q, None));
  }

  function Contiguous(start: int, n: nat): seq<int> {
    seq(n, i => start + i)
  }

  function Span(start: int, n: nat): set<int> {
    set o | o in Contiguous(start, n)
  }

  lemma ContiguousIsGapFree(start: int, n: nat)
    requires 1 <= n <= MAX_POP
    ensures var point := Point(start, Contiguous(start, n));
            && Ascending(start, Contiguous(start, n)) && WellFormed(point) && OffsetSet(point) == Span(start, n)
            && |point.diffs| == n && forall i | 0 <= i < n :: point.diffs[i] == i
  {
    var offsets := Contiguous(start, n);
    assert forall i | 0 <= i < n :: offsets[i] == start + i;
    PointReconstructs(start, offsets);
  }

  lemma ContiguousPoint(start: int, n: nat)
    requires 1 <= n <= MAX_POP
    ensures var point := Point(start, Contiguous(start, n));
            && Ascending(start, Contiguous(start, n)) && WellFormed(point) && OffsetSet(point) == Span(start, n)
            && |Span(start, n)| == n && Done(point, Marks(point, Span(start, n)))
            && (forall o | o in Span(start, n) :: IndexOfAck(point, o) < MARK_WIDTH)
  {
    var point := Point(start, Contiguous(start, n));
    ContiguousIsGapFree(start, n);
    Conservation.PointSize(point);
    assert point.diffs[n - 1] == n - 1;
    AllAckedIsDoneIffGapFree(point);
    forall o | o in OffsetSet(point) ensures IndexOfAck(point, o) < MARK_WIDTH {
      var i :| 0 <= i < n && AckOffsetByIndex(point, i) == o;
      assert point.diffs[i] == i;
    }
  }

  /** The state of a queue whose one delivery is out and not acknowledged. */
  ghost predicate BatchOut(s: KeyState, start: int, n: nat) {
    && s.crit.None? && s.q.known == {0} && s.q.acked == {} && s.q.buffer == {0} && s.q.deque == [0] && s.q.scan.NoScan?
    && s.q.inflight == n && s.q.cks == [FreshCk(0, Point(start, Contiguous(start, n)), start + n, false, false)]
  }

  lemma SpanCanBeAcked(s: KeyState, start: int, n: nat)
    requires 1 <= n <= MAX_POP && BatchOut(s, start, n)
    ensures CanEnv(s.q, Ack(0, Span(start, n), Merged, true))
  {
    ContiguousPoint(start, n);
    assert Contiguous(start, n)[0] == start;
    assert start in Span(start, n);
  }

  lemma SpanSettles(start: int, n: nat)
    requires 1 <= n <= MAX_POP
    ensures Settled(Acked(FreshCk(0, Point(start, Contiguous(start, n)), start + n, false, false), Span(start, n), Merged))
  {
    ContiguousPoint(start, n);
    var point := Point(start, Contiguous(start, n));
    assert {} + Marks(point, Span(start, n)) == Marks(point, Span(start, n));
  }

  lemma BatchIsAcked(cfg: Config, s: KeyState, start: int, n: nat) returns (t: KeyState)
    requires 1 <= n <= MAX_POP && BatchOut(s, start, n)
    ensures var e := Outside(Ack(0, Span(start, n), Merged, true)); CanStep(cfg, s, e) && t == Step(cfg, s, e)
    ensures t.q == s.q.(cks := t.q.cks, acked := Pairs(0, Span(start, n)), inflight := 0)
    ensures |t.q.cks| == 1 && Settled(t.q.cks[0]) && t.q.cks[0].next == start + n
  {
    SpanCanBeAcked(s, start, n);
    SpanSettles(start, n);
    assert |Span(start, n)| == n by { ContiguousPoint(start, n); }
    t := s.(q := ApplyEnv(s.q, Ack(0, Span(start, n), Merged, true)));
  }

  lemma AckedIsCommitted(cfg: Config, s: KeyState, start: int, n: nat) returns (events: seq<KeyEvent>)
    requires 1 <= n <= MAX_POP && BatchOut(s, start, n)
    ensures CanRun(cfg, s, events)
    ensures var t := After(cfg, s, events);
            && t.crit.None? && t.q.buffer == {} && t.q.deque == [] && t.q.inflight == 0 && t.q.committed == start + n
            && t.q.log == s.q.log && t.q.acked == Pairs(0, Span(start, n))
  {
    var s1 := BatchIsAcked(cfg, s, start, n);
    var s2 := s1.(q := s1.q.(buffer := {}));
    var acks := [Outside(Ack(0, Span(start, n), Merged, true)), Outside(PopQueue.Evict(0))];
    assert s1.q.buffer - {0} == {};
    Stepwise(cfg, s1, acks[1..], s2);
    Stepwise(cfg, s, acks, s1);
    SettledFrontIsCommitted(cfg, s2);
    RunThenRun(cfg, s, acks, COMMIT_FRONT);
    events := acks + COMMIT_FRONT;
  }

  /** The life of a batch: handed out, acknowledged in one go through the buffer, dropped and committed. */
  lemma WholeLife(cfg: Config, start: int, n: nat) returns (q: Queue, events: seq<KeyEvent>)
    requires 0 <= start && 1 <= n <= MAX_POP && (cfg.limited ==> 0 <= cfg.threshold)
    ensures Fresh(q) && CanRun(cfg, KeyState(q, None), events)
    ensures var t := After(cfg, KeyState(q, None), events);
            && t.crit.None? && t.q.buffer == {} && t.q.deque == [] && t.q.inflight == 0 && Start(t.q) == start + n
            && t.q.log == [Delivery(0, 0, Contiguous(start, n))] && t.q.acked == Pairs(0, Span(start, n))
  {
    ContiguousPoint(start, n);
    q, events := BatchGoesOut(cfg, start, Contiguous(start, n));
    var out := After(cfg, KeyState(q, None), events);
    assert BatchOut(out, start, n);
    var more := AckedIsCommitted(cfg, out, start, n);
    RunThenRun(cfg, KeyState(q, None), events, more);
    events := events + more;
  }

  /** A stored checkpoint that passes the finish test is settled. */
  lemma FinishedIsSettled(ck: Ck)
    requires ck.stored && DoneForFinish(ck.point, ck.bits, ck.toStore)
    ensures Settled(ck)
  {
  }

  /** The finish test never decides: what it finds settled, the done test finds settled too. */
  lemma FinishTestNeverDecides(ck: Ck)
    requires ck.toStore <= ck.bits
    ensures Settled(ck) <==> (ck.justOffset && ck.stored) || Done(ck.point, ck.bits)
  {
    FinishTestIsDoneWithNothingStored(ck.point, ck.bits, ck.toStore);
  }

  /**
   The scan of a checkpoint that stays too long: it is stored, then its raised bits are written out,
   once; after that the finish test can no longer succeed.
   */
  lemma ScanWritesOut(cfg: Config, s: KeyState, id: nat, marks: set<int>)
    requires id < |s.q.cks| && id in s.q.buffer && !s.q.cks[id].justOffset && WellFormed(s.q.cks[id].point)
    requires marks <= s.q.cks[id].bits && forall m | m in marks :: 0 <= m < |s.q.cks[id].point.diffs|
    ensures CanStep(cfg, s, Outside(StoreCk(id)))
    ensures var s1, write := s.(q := ApplyEnv(s.q, StoreCk(id))), Outside(StoreAcks(id, marks));
            && CanStep(cfg, s1, write)
            && var ck := Step(cfg, s1, write).q.cks[id];
               && ck.stored && marks <= ck.toStore && OffsetsAt(ck.point, marks) <= ck.logged
               && (marks != {} && ck.toStore <= ck.bits ==> !DoneForFinish(ck.point, ck.bits, ck.toStore))
  {
    var s1 := s.(q := ApplyEnv(s.q, StoreCk(id)));
    var ck := Step(cfg, s1, Outside(StoreAcks(id, marks))).q.cks[id];
    if marks != {} && ck.toStore <= ck.bits {
      var m := Pick(marks);
      assert m in ck.toStore;
      FinishTestIsDoneWithNothingStored(ck.point, ck.bits, ck.toStore);
    }
  }

  /** A front that is not settled stays: the scan cannot even begin. */
  lemma UnsettledFrontStays(q: Queue)
    requires q.deque != [] && q.deque[0] < |q.cks| && !Settled(q.cks[q.deque[0]])
    ensures !CanEnv(q, ClaimScan)
  {
  }

  /** A scan that does not get the lock leaves the queue as it found it. */
  lemma AbortedScanLeavesNothing(cfg: Config, s: KeyState)
    requires CanStep(cfg, s, Outside(ClaimScan))
    ensures var claimed := Step(cfg, s, Outside(ClaimScan));
            CanStep(cfg, claimed, Outside(AbortScan)) && Step(cfg, claimed, Outside(AbortScan)) == s
  {
  }

  // ---------------------------------------------------------------- visibility changes

  /** The message passes to a new handle that the client knows and that guards it; the old one is acknowledged. */
  lemma ExtensionHandsOver(cfg: Config, q: Queue, id: nat, o: int, path: AckPath)
    requires CanEnv(q, BeginExtend(id, o)) && CanAckBy(q, id, {o}, path)
    ensures var n := |q.cks|;
            var q1 := ApplyEnv(q, BeginExtend(id, o));
            var end := EndExtend(Extension(id, o, n), path);
            && CanEnv(q1, end)
            && var q2 := ApplyEnv(q1, end);
               && n in q2.known && Coverage.Guards(q2, n, q.cks[id].src, o)
               && q2.cks[id] == Acked(q.cks[id], {o}, path)
               && q2.acked == q.acked && q2.inflight == q.inflight
  {
    FreshGuards(q, id, o);
  }

  lemma FreshGuards(q: Queue, id: nat, o: int)
    requires CanEnv(q, BeginExtend(id, o))
    ensures Coverage.Guards(ApplyEnv(q, BeginExtend(id, o)), |q.cks|, q.cks[id].src, o)
  {
    PointReconstructs(o, [o]);
    assert Marks(Point(o, [o]), {}) == {};
  }

  /** The new handle does all the old one did: acknowledge the message, extend it again. */
  lemma ExtendedCanBeAcked(q: Queue, n: nat, o: int)
    requires n < |q.cks| && n in q.known && o in OffsetSet(q.cks[n].point)
    ensures CanEnv(q, Ack(n, {o}, Stored(true), true)) && CanEnv(q, BeginExtend(n, o))
  {
  }

  // ---------------------------------------------------------------- ordered queues

  ghost predicate OrderedIdle(s: KeyState) {
    s.crit.None? && s.q.ordered && s.q.scan.NoScan? && s.q.pendingReset.None? && 0 <= s.q.committed
  }

  function OrderedPop(want: int, blocked: bool): seq<KeyEvent> {
    [Enter(Pop(want)), Do(Check), Do(Position(ANY_INIT, blocked))]
  }

  lemma OrderedPopPositions(cfg: Config, s: KeyState, want: int, blocked: bool)
    requires OrderedIdle(s) && !ShouldStop(cfg, s.q) && 0 < want <= MAX_POP
    ensures CanRun(cfg, s, OrderedPop(want, blocked))
    ensures After(cfg, s, OrderedPop(want, blocked)) ==
              if blocked then KeyState(s.q, Some(Leaving))
              else KeyState(s.q.(inflight := 0), Some(Positioned(want, Start(s.q))))
  {
    var events, q := OrderedPop(want, blocked), s.q;
    assert Locate(q, ANY_INIT) == (q, Start(q));
    var last := Step(cfg, KeyState(q, Some(Admitted(want))), events[2]);
    Stepwise(cfg, KeyState(q, Some(Admitted(want))), events[2..], last);
    Stepwise(cfg, KeyState(q, Some(Entered(Pop(want)))), events[1..], KeyState(q, Some(Admitted(want))));
    Stepwise(cfg, s, events, KeyState(q, Some(Entered(Pop(want)))));
  }

  /** While earlier messages are out, an ordered pop delivers nothing and changes nothing. */
  lemma BlockedPopChangesNothing(cfg: Config, s: KeyState, want: int)
    requires OrderedIdle(s) && !ShouldStop(cfg, s.q) && 0 < want <= MAX_POP
    ensures var events := OrderedPop(want, true) + [Exit]; CanRun(cfg, s, events) && After(cfg, s, events) == s
  {
    OrderedPopPositions(cfg, s, want, true);
    Stepwise(cfg, KeyState(s.q, Some(Leaving)), [Exit], s);
    RunThenRun(cfg, s, OrderedPop(want, true), [Exit]);
  }

  function Served(r: Read): seq<KeyEvent> {
    [Do(Fetch(Some(r), None)), Do(Record(Conflict)), Do(Count), Exit]
  }

  /**
   An ordered pop starts the counter anew with what it hands out, leaves no checkpoint and does not
   move the offset: without an acknowledgement the same messages come again.
   */
  lemma OrderedPopDelivers(cfg: Config, s: KeyState, want: int, r: Read)
    requires OrderedIdle(s) && !ShouldStop(cfg, s.q) && 0 < want <= MAX_POP && r.offsets != []
    requires ReadOk(cfg, s.q.(inflight := 0), Start(s.q), want, r)
    ensures var events := OrderedPop(want, false) + Served(r);
            && CanRun(cfg, s, events)
            && After(cfg, s, events) == s.(q := s.q.(inflight := r.count, committed := Start(s.q)))
            && Start(After(cfg, s, events).q) == Start(s.q)
  {
    OrderedPopPositions(cfg, s, want, false);
    var start, events := Start(s.q), Served(r);
    var q := s.q.(inflight := 0);
    var recorded, counted := q.(committed := start), q.(committed := start, inflight := r.count);
    Stepwise(cfg, KeyState(counted, Some(Leaving)), events[3..], KeyState(counted, None));
    Stepwise(cfg, KeyState(recorded, Some(Recorded(None, r.count))), events[2..], KeyState(counted, Some(Leaving)));
    Stepwise(cfg, KeyState(q, Some(Fetched(start, r))), events[1..], KeyState(recorded, Some(Recorded(None, r.count))));
    Stepwise(cfg, KeyState(q, Some(Positioned(want, start))), events, KeyState(q, Some(Fetched(start, r))));
    RunThenRun(cfg, s, OrderedPop(want, false), events);
  }

  /** An ordered acknowledgement of the last message out: the next pop starts behind it. */
  lemma OrderedAckMovesOn(cfg: Config, s: KeyState, offset: int, next: int)
    requires OrderedIdle(s) && s.q.deque == [] && s.q.committed <= offset && 0 <= next
    ensures var events := [Enter(AckOrderly(offset)), Do(CommitOrder(next)), Exit, Outside(OrderAcked(true))];
            && CanRun(cfg, s, events)
            && After(cfg, s, events) == s.(q := s.q.(committed := next, inflight := Dec(s.q.inflight, 1)))
            && Start(After(cfg, s, events).q) == next
  {
    var events := [Enter(AckOrderly(offset)), Do(CommitOrder(next)), Exit, Outside(OrderAcked(true))];
    var q := s.q.(committed := next);
    var last := KeyState(q.(inflight := Dec(q.inflight, 1)), None);
    Stepwise(cfg, KeyState(q, None), events[3..], last);
    Stepwise(cfg, KeyState(q, Some(Leaving)), events[2..], KeyState(q, None));
    Stepwise(cfg, KeyState(s.q, Some(Entered(AckOrderly(offset)))), events[1..], KeyState(q, Some(Leaving)));
    Stepwise(cfg, s, events, KeyState(s.q, Some(Entered(AckOrderly(offset)))));
  }

  /** A message already behind the committed offset: the request ends without unlocking and changes nothing. */
  lemma LateOrderedAckWalksAway(cfg: Config, s: KeyState, offset: int)
    requires OrderedIdle(s) && offset < s.q.committed
    ensures var events := [Enter(AckOrderly(offset)), Abandon];
            CanRun(cfg, s, events) && After(cfg, s, events) == s
    ensures var inside := KeyState(s.q, Some(Entered(AckOrderly(offset))));
            forall c :: !CanStep(cfg, inside, Do(c))
  {
    var inside := KeyState(s.q, Some(Entered(AckOrderly(offset))));
    var events := [Enter(AckOrderly(offset)), Abandon];
    Stepwise(cfg, inside, events[1..], s);
    Stepwise(cfg, s, events, inside);
  }

  /** An ordered pop that passes over messages commits what is behind them. */
  lemma OrderedSkipMovesOn(cfg: Config, s: KeyState, want: int, r: Read)
    requires OrderedIdle(s) && !ShouldStop(cfg, s.q) && 0 < want <= MAX_POP
    requires ReadOk(cfg, s.q.(inflight := 0), Start(s.q), want, r) && -1 < r.next
    requires r.status.NoMatchedMessage? || r.status.MessageWasRemoving?
    ensures var events := OrderedPop(want, false) + [Do(Fetch(Some(r), None)), Do(Record(Conflict)), Exit];
            && CanRun(cfg, s, events)
            && After(cfg, s, events) == s.(q := s.q.(inflight := 0, committed := r.next))
  {
    OrderedPopPositions(cfg, s, want, false);
    var start, events := Start(s.q), [Do(Fetch(Some(r), None)), Do(Record(Conflict)), Exit];
    var q, q' := s.q.(inflight := 0), s.q.(inflight := 0, committed := r.next);
    Stepwise(cfg, KeyState(q', Some(Leaving)), events[2..], KeyState(q', None));
    Stepwise(cfg, KeyState(q, Some(Fetched(start, r))), events[1..], KeyState(q', Some(Leaving)));
    Stepwise(cfg, KeyState(q, Some(Positioned(want, start))), events, KeyState(q, Some(Fetched(start, r))));
    RunThenRun(cfg, s, OrderedPop(want, false), events);
  }

  /** The ordered visibility change, which may also return without unlocking, leaves the queue alone. */
  lemma OrderedExtensionLeavesQueue(cfg: Config, s: KeyState)
    requires s.crit.None?
    ensures var through, away := [Enter(ExtendOrderly), Do(Touch), Exit], [Enter(ExtendOrderly), Abandon];
            && CanRun(cfg, s, through) && After(cfg, s, through) == s
            && CanRun(cfg, s, away) && After(cfg, s, away) == s
  {
    var through, away := [Enter(ExtendOrderly), Do(Touch), Exit], [Enter(ExtendOrderly), Abandon];
    var inside := KeyState(s.q, Some(Entered(ExtendOrderly)));
    Stepwise(cfg, KeyState(s.q, Some(Leaving)), through[2..], s);
    Stepwise(cfg, inside, through[1..], KeyState(s.q, Some(Leaving)));
    Stepwise(cfg, s, through, inside);
    Stepwise(cfg, inside, away[1..], s);
    Stepwise(cfg, s, away, inside);
  }
}
