/**
 Where the guarantees end. Runs of the machine of one queue that leave a delivered message without
 a checkpoint, deliver a message twice after the deque of commit offsets was thrown away, or
 overshoot the 32 messages of one pop, and the exact conditions that exclude them.
 */
module Limits {
  import opened Prelude
  import opened Checkpoint
  import opened Inflight
  import opened PopQueue
  import opened PopShape
  import FlowBound
  import Coverage
  import DisjointDelivery

  ghost predicate CanRun(cfg: Config, s: KeyState, events: seq<KeyEvent>)
    decreases |events|
  {
    events == [] || (CanStep(cfg, s, events[0]) && CanRun(cfg, Step(cfg, s, events[0]), events[1..]))
  }

  ghost function After(cfg: Config, s: KeyState, events: seq<KeyEvent>): KeyState
    requires CanRun(cfg, s, events)
    decreases |events|
  {
    if events == [] then s else After(cfg, Step(cfg, s, events[0]), events[1..])
  }

  lemma {:induction false} RunThenRun(cfg: Config, s: KeyState, a: seq<KeyEvent>, b: seq<KeyEvent>)
    requires CanRun(cfg, s, a) && CanRun(cfg, After(cfg, s, a), b)
    ensures CanRun(cfg, s, a + b) && After(cfg, s, a + b) == After(cfg, After(cfg, s, a), b)
    decreases |a|
  {
    if a == [] {
      assert a + b == b;
    } else {
      assert (a + b)[1..] == a[1..] + b;
      RunThenRun(cfg, Step(cfg, s, a[0]), a[1..], b);
    }
  }

  lemma {:induction false} RunKeepsCoverage(cfg: Config, s: KeyState, events: seq<KeyEvent>)
    requires Shape(cfg, s) && Coverage.Inv(s) && CanRun(cfg, s, events)
    ensures Coverage.Inv(After(cfg, s, events))
    decreases |events|
  {
    if events != [] {
      StepKeepsShape(cfg, s, events[0]);
      Coverage.StepKeepsInv(cfg, s, events[0]);
      RunKeepsCoverage(cfg, Step(cfg, s, events[0]), events[1..]);
    }
  }

  lemma {:induction false} RunKeepsBound(cfg: Config, s: KeyState, events: seq<KeyEvent>)
    requires Shape(cfg, s) && FlowBound.Inv(cfg, s) && CanRun(cfg, s, events)
    ensures FlowBound.Inv(cfg, After(cfg, s, events))
    decreases |events|
  {
    if events != [] {
      StepKeepsShape(cfg, s, events[0]);
      FlowBound.StepKeepsInv(cfg, s, events[0]);
      RunKeepsBound(cfg, Step(cfg, s, events[0]), events[1..]);
    }
  }

  // ---------------------------------------------------------------- one whole pop

  const ANY_INIT := InitPolicy(true, false, false)

  const EMPTY := Queue(false, true, 0, 0, 0, None, [], {}, [], NoScan, 0, 0, -1, [], {}, {}, {}, {})

  /** Nobody inside, nothing pending: a pop can go all the way through. */
  ghost predicate Idle(s: KeyState) {
    && s.crit.None? && !s.q.ordered && s.q.scan.NoScan? && s.q.pendingReset.None? && s.q.created
    && 0 <= s.q.minOffset <= s.q.maxOffset && 0 <= s.q.committed
  }

  function Start(q: Queue): int {
    PopOffset(q, ANY_INIT)
  }

  /** A pop of `want` messages that reads `r`, from the lock to the unlock. */
  function WholePop(want: int, r: Read): seq<KeyEvent> {
    [Enter(Pop(want)), Do(Check)] + FromPosition(r)
  }

  function FromPosition(r: Read): seq<KeyEvent> {
    [Do(Position(ANY_INIT, false)), Do(Fetch(Some(r), None))] + HAND_OUT
  }

  const HAND_OUT := [Do(Record(Buffered)), Do(Count), Exit]

  function Popped(q: Queue, r: Read): Queue {
    CountHanded(Accept(q, Start(q), r, false, false), Some(|q.cks|), r.count)
  }

  /** Unfolds a run by its first event. */
  lemma Stepwise(cfg: Config, s: KeyState, events: seq<KeyEvent>, t: KeyState)
    requires events != [] && CanStep(cfg, s, events[0]) && Step(cfg, s, events[0]) == t && CanRun(cfg, t, events[1..])
    ensures CanRun(cfg, s, events) && After(cfg, s, events) == After(cfg, t, events[1..])
  {
  }

  lemma HandsOut(cfg: Config, q: Queue, r: Read)
    requires Idle(KeyState(q, None)) && r.offsets != []
    ensures var s := KeyState(q, Some(Fetched(Start(q), r)));
            CanRun(cfg, s, HAND_OUT) && After(cfg, s, HAND_OUT) == KeyState(Popped(q, r), None)
  {
    var accepted, popped := Accept(q, Start(q), r, false, false), Popped(q, r);
    var recorded := KeyState(accepted, Some(Recorded(Some(|q.cks|), r.count)));
    Stepwise(cfg, KeyState(popped, Some(Leaving)), HAND_OUT[2..], KeyState(popped, None));
    Stepwise(cfg, recorded, HAND_OUT[1..], KeyState(popped, Some(Leaving)));
    Stepwise(cfg, KeyState(q, Some(Fetched(Start(q), r))), HAND_OUT, recorded);
  }

  lemma Reads(cfg: Config, q: Queue, want: int, r: Read)
    requires Idle(KeyState(q, None)) && 0 < want && r.offsets != [] && ReadOk(cfg, q, Start(q), want, r)
    ensures var s := KeyState(q, Some(Admitted(want)));
            CanRun(cfg, s, FromPosition(r)) && After(cfg, s, FromPosition(r)) == KeyState(Popped(q, r), None)
  {
    var events, start := FromPosition(r), Start(q);
    HandsOut(cfg, q, r);
    assert Locate(q, ANY_INIT) == (q, start);
    assert events[1..][1..] == HAND_OUT;
    Stepwise(cfg, KeyState(q, Some(Positioned(want, start))), events[1..], KeyState(q, Some(Fetched(start, r))));
    Stepwise(cfg, KeyState(q, Some(Admitted(want))), events, KeyState(q, Some(Positioned(want, start))));
  }

  /** From any idle queue under the threshold, every read the store may return is delivered and counted. */
  lemma PopGoesThrough(cfg: Config, s: KeyState, want: int, r: Read)
    requires Idle(s) && !ShouldStop(cfg, s.q) && 0 < want <= MAX_POP && r.offsets != []
    requires ReadOk(cfg, s.q, Start(s.q), want, r)
    ensures CanRun(cfg, s, WholePop(want, r)) && After(cfg, s, WholePop(want, r)) == KeyState(Popped(s.q, r), None)
    ensures Idle(KeyState(Popped(s.q, r), None)) && Popped(s.q, r).inflight == s.q.inflight + r.count
  {
    var events := WholePop(want, r);
    Reads(cfg, s.q, want, r);
    assert events[1..][1..] == FromPosition(r);
    Stepwise(cfg, KeyState(s.q, Some(Entered(Pop(want)))), events[1..], KeyState(s.q, Some(Admitted(want))));
    Stepwise(cfg, s, events, KeyState(s.q, Some(Entered(Pop(want)))));
  }

  /** And nothing else is: what such a pop delivers is a read from its start. */
  lemma PopReadsFromStart(cfg: Config, s: KeyState, want: int, r: Read)
    requires Idle(s) && !ShouldStop(cfg, s.q) && r.offsets != [] && CanRun(cfg, s, WholePop(want, r))
    ensures ReadOk(cfg, s.q, Start(s.q), want, r)
  {
    var events := WholePop(want, r);
    var s1 := KeyState(s.q, Some(Entered(Pop(want))));
    var s2 := KeyState(s.q, Some(Admitted(want)));
    assert CanRun(cfg, s1, events[1..]);
    assert CanRun(cfg, s2, events[1..][1..]) && events[1..][1..] == FromPosition(r);
    var s3 := Step(cfg, s2, Do(Position(ANY_INIT, false)));
    assert FromPosition(r)[0] == Do(Position(ANY_INIT, false)) && CanRun(cfg, s3, FromPosition(r)[1..]);
    assert FromPosition(r)[1..][0] == Do(Fetch(Some(r), None));
  }

  // ---------------------------------------------------------------- uncovered

  /** In every run, a message `o` of a delivery with this checkpoint is covered until it is acknowledged. */
  ghost predicate AlwaysCovered(cfg: Config, point: PopCheckPoint, o: int) {
    forall q: Queue, events: seq<KeyEvent>, n: nat ::
      Fresh(q) && CanRun(cfg, KeyState(q, None), events) ==>
          CoveredIn(After(cfg, KeyState(q, None), events).q, n, point, o)
  }

  ghost predicate CoveredIn(q: Queue, n: nat, point: PopCheckPoint, o: int) {
    n < |q.log| && q.log[n].ck < |q.cks| && q.cks[q.log[n].ck].point == point && (q.log[n].ck, o) !in q.acked ==>
      Coverage.Covered(q, q.log[n].ck, o)
  }

  /** A message is always covered if and only if no other message of its batch strikes it, for every batch. */
  lemma CoveredIffOwn(cfg: Config, start: int, offsets: seq<int>, o: int)
    requires 0 <= start && Ascending(start, offsets) && |offsets| <= MAX_POP && o in offsets
    requires cfg.limited ==> 0 <= cfg.threshold
    ensures AlwaysCovered(cfg, Point(start, offsets), o) <==> Own(Point(start, offsets), o)
  {
    var point := Point(start, offsets);
    if Own(point, o) {
      forall q: Queue, events: seq<KeyEvent>, n: nat | Fresh(q) && CanRun(cfg, KeyState(q, None), events)
        ensures CoveredIn(After(cfg, KeyState(q, None), events).q, n, point, o)
      {
        OwnIsCovered(cfg, q, events, n, start, offsets, o);
      }
    } else {
      var q, events := StruckIsUncovered(cfg, start, offsets, o);
      assert !CoveredIn(After(cfg, KeyState(q, None), events).q, 0, point, o);
    }
  }

  lemma OwnIsCovered(cfg: Config, q: Queue, events: seq<KeyEvent>, n: nat, start: int, offsets: seq<int>, o: int)
    requires Ascending(start, offsets) && o in offsets && Own(Point(start, offsets), o)
    requires Fresh(q) && CanRun(cfg, KeyState(q, None), events)
    ensures CoveredIn(After(cfg, KeyState(q, None), events).q, n, Point(start, offsets), o)
  {
    RunKeepsCoverage(cfg, KeyState(q, None), events);
    PointReconstructs(start, offsets);
    var q' := After(cfg, KeyState(q, None), events).q;
    if n < |q'.log| && q'.log[n].ck < |q'.cks| && q'.cks[q'.log[n].ck].point == Point(start, offsets)
        && (q'.log[n].ck, o) !in q'.acked {
      assert Coverage.EntryExact(q', q'.log[n]) && Coverage.Due(q', q'.log[n], o);
    }
  }

  /** The read of a whole batch and nothing behind it. */
  function BatchRead(offsets: seq<int>): Read
    requires offsets != []
  {
    Read(Found, offsets, |offsets|, offsets[|offsets| - 1] + 1)
  }

  lemma {:induction false} Spread(offsets: seq<int>, i: nat)
    requires i < |offsets| && forall a, b | 0 <= a < b < |offsets| :: offsets[a] < offsets[b]
    ensures offsets[0] + i <= offsets[i]
  {
    if i > 0 { Spread(offsets, i - 1); }
  }

  lemma BatchIsReadable(cfg: Config, q: Queue, start: int, offsets: seq<int>)
    requires offsets != [] && Ascending(start, offsets) && q.created
    requires q.minOffset <= start && offsets[|offsets| - 1] < q.maxOffset
    ensures ReadOk(cfg, q, start, |offsets|, BatchRead(offsets))
  {
    Spread(offsets, |offsets| - 1);
    assert |offsets| <= |offsets| * Max(cfg.maxBatch, 1);
    forall i | 0 <= i < |offsets| ensures offsets[i] < offsets[|offsets| - 1] + 1 {
      assert i < |offsets| - 1 ==> offsets[i] < offsets[|offsets| - 1];
    }
  }

  /** A fresh queue that holds the batch and hands all of it out at once. */
  lemma BatchGoesOut(cfg: Config, start: int, offsets: seq<int>) returns (q: Queue, events: seq<KeyEvent>)
    requires 0 <= start && Ascending(start, offsets) && 0 < |offsets| <= MAX_POP
    requires cfg.limited ==> 0 <= cfg.threshold
    ensures Fresh(q) && CanRun(cfg, KeyState(q, None), events)
    ensures After(cfg, KeyState(q, None), events).crit.None?
    ensures var q' := After(cfg, KeyState(q, None), events).q;
            && q'.cks == [FreshCk(0, Point(start, offsets), offsets[|offsets| - 1] + 1, false, false)]
            && q'.log == [Delivery(0, 0, offsets)] && q'.known == {0} && q'.acked == {}
            && q'.buffer == {0} && q'.deque == [0] && q'.scan.NoScan? && q'.pendingReset.None?
            && q'.inflight == |offsets| && q'.committed == start && !q'.ordered
  {
    var r := BatchRead(offsets);
    assert start <= offsets[|offsets| - 1];
    q := EMPTY.(committed := start, maxOffset := r.next);
    BatchIsReadable(cfg, q, start, offsets);
    PopGoesThrough(cfg, KeyState(q, None), |offsets|, r);
    events := WholePop(|offsets|, r);
  }

  /** The striking message is acknowledged through the revive log. */
  lemma AckStrikes(cfg: Config, s: KeyState, ck: Ck, x: int, o: int) returns (e: KeyEvent)
    requires s.q.cks == [ck] && 0 in s.q.known && s.q.acked == {} && ck.src == 0 && ck.logged == {}
    requires x in OffsetSet(ck.point) && Strikes(ck.point, x, o) && x != o
    ensures CanStep(cfg, s, e)
    ensures var q' := Step(cfg, s, e).q;
            q'.log == s.q.log && |q'.cks| == 1 && q'.cks[0].point == ck.point && (0, o) !in q'.acked
                && !Coverage.Covered(q', 0, o)
  {
    e := Outside(Ack(0, {x}, Stored(true), true));
    StruckIsMarked(Step(cfg, s, e).q, ck.point, x, o);
  }

  /** The batch is popped, the striking message acknowledged: the other one is lost. */
  lemma StruckIsUncovered(cfg: Config, start: int, offsets: seq<int>, o: int) returns (q: Queue, events: seq<KeyEvent>)
    requires 0 <= start && Ascending(start, offsets) && |offsets| <= MAX_POP && o in offsets
    requires cfg.limited ==> 0 <= cfg.threshold
    requires !Own(Point(start, offsets), o)
    ensures Fresh(q) && CanRun(cfg, KeyState(q, None), events)
    ensures !CoveredIn(After(cfg, KeyState(q, None), events).q, 0, Point(start, offsets), o)
  {
    var point := Point(start, offsets);
    var x :| x in OffsetSet(point) && Strikes(point, x, o) && x != o;
    q, events := BatchGoesOut(cfg, start, offsets);
    var popped := After(cfg, KeyState(q, None), events);
    var ack := AckStrikes(cfg, popped, popped.q.cks[0], x, o);
    Stepwise(cfg, popped, [ack], Step(cfg, popped, ack));
    RunThenRun(cfg, KeyState(q, None), events, [ack]);
    events := events + [ack];
  }

  lemma StruckIsMarked(q: Queue, point: PopCheckPoint, x: int, o: int)
    requires |q.cks| == 1 && q.cks[0].point == point && q.cks[0].logged == {x}
    requires Strikes(point, x, o)
    ensures !Coverage.Covered(q, 0, o)
  {
    var i := IndexOfAck(point, x);
    assert i in Marks(point, {x}) && AckOffsetByIndex(point, i) == o;
    assert !Coverage.Unmarked(q.cks[0], o);
  }

  // ---------------------------------------------------------------- delivering twice

  /** Message `o` was delivered since the last reset. */
  ghost predicate Delivered(q: Queue, o: int) {
    exists n :: 0 <= n < |q.log| && q.log[n].epoch == q.epoch && o in q.log[n].offsets
  }

  /** The deque thrown away and one pop: a message comes again. */
  ghost predicate RepeatsAfterGarbage(cfg: Config, s: KeyState) {
    exists want, r, o :: Repeats(cfg, s, want, r, o)
  }

  ghost predicate Repeats(cfg: Config, s: KeyState, want: int, r: Read, o: int) {
    CanRun(cfg, s, [Outside(Garbage)] + WholePop(want, r)) && o in r.offsets && Delivered(s.q, o)
  }

  /** A delivered message the store still has and the next pop would read again from the committed offset. */
  ghost predicate Uncommitted(q: Queue, o: int) {
    Delivered(q, o) && q.minOffset <= q.committed <= o <= q.committed + I32_MAX
  }

  /** From every idle state, a garbage pass and a pop repeat a message if and only if one is not committed. */
  lemma GarbageRepeatsIff(cfg: Config, s: KeyState)
    requires Shape(cfg, s) && Coverage.Inv(s) && DisjointDelivery.Inv(s) && Idle(s) && !ShouldStop(cfg, s.q)
    ensures RepeatsAfterGarbage(cfg, s) <==> exists o :: Uncommitted(s.q, o)
  {
    if RepeatsAfterGarbage(cfg, s) {
      var want, r, o :| Repeats(cfg, s, want, r, o);
      RepeatedWasUncommitted(cfg, s, want, r, o);
    }
    if exists o :: Uncommitted(s.q, o) {
      var o :| Uncommitted(s.q, o);
      DeliveredIsStored(cfg, s, o);
      UncommittedRepeats(cfg, s, o);
    }
  }

  lemma RepeatedWasUncommitted(cfg: Config, s: KeyState, want: int, r: Read, o: int)
    requires Idle(s) && !ShouldStop(cfg, s.q) && Repeats(cfg, s, want, r, o)
    ensures Uncommitted(s.q, o)
  {
    var dropped := KeyState(s.q.(deque := []), None);
    var events := [Outside(Garbage)] + WholePop(want, r);
    assert events[1..] == WholePop(want, r) && Step(cfg, s, events[0]) == dropped;
    assert Start(dropped.q) == s.q.committed;
    PopReadsFromStart(cfg, dropped, want, r);
  }

  lemma UncommittedRepeats(cfg: Config, s: KeyState, o: int)
    requires Idle(s) && !ShouldStop(cfg, s.q) && Uncommitted(s.q, o) && o < s.q.maxOffset
    ensures RepeatsAfterGarbage(cfg, s)
  {
    var dropped, r := KeyState(s.q.(deque := []), None), BatchRead([o]);
    assert Start(dropped.q) == s.q.committed;
    BatchIsReadable(cfg, dropped.q, s.q.committed, [o]);
    PopGoesThrough(cfg, dropped, 1, r);
    var events := [Outside(Garbage)] + WholePop(1, r);
    assert events[1..] == WholePop(1, r);
    Stepwise(cfg, s, events, dropped);
    assert Repeats(cfg, s, 1, r, o);
  }

  lemma DeliveredIsStored(cfg: Config, s: KeyState, o: int)
    requires Shape(cfg, s) && Coverage.Inv(s) && DisjointDelivery.Inv(s) && Delivered(s.q, o)
    ensures o < s.q.maxOffset
  {
    var n :| 0 <= n < |s.q.log| && s.q.log[n].epoch == s.q.epoch && o in s.q.log[n].offsets;
    var d := s.q.log[n];
    assert Coverage.EntryExact(s.q, d) && DisjointDelivery.EntryOk(d, s.q.cks, s.q.epoch, s.q.high);
    var point := s.q.cks[d.ck].point;
    var i :| 0 <= i < |d.offsets| && Offsets(point)[i] == o;
    assert AckOffsetByIndex(point, i) == o && o in OffsetSet(point);
  }

  /** Such states exist: one message popped, nothing committed yet. */
  lemma GarbageDeliversTwice(cfg: Config) returns (s: KeyState, events: seq<KeyEvent>)
    requires cfg.limited ==> cfg.threshold >= 1
    ensures CanRun(cfg, KeyState(EMPTY, None), events) && After(cfg, KeyState(EMPTY, None), events) == s
    ensures RepeatsAfterGarbage(cfg, s)
  {
    events := UnitGoesThrough(cfg, KeyState(EMPTY, None), 1);
    s := After(cfg, KeyState(EMPTY, None), events);
    assert s.q.log[0].offsets[0] == 0 && Delivered(s.q, 0);
    UncommittedRepeats(cfg, s, 0);
  }

  // ---------------------------------------------------------------- overshooting

  ghost predicate Ready(s: KeyState) {
    Idle(s) && s.q.minOffset <= Start(s.q) <= s.q.maxOffset
  }

  /** The unit at the next offset, holding `count` messages. */
  function Unit(q: Queue, count: nat): Read {
    Read(Found, [Start(q)], count, Start(q) + count)
  }

  /** A unit of `count` messages arrives and is popped as soon as the threshold admits it. */
  lemma UnitGoesThrough(cfg: Config, s: KeyState, count: nat) returns (events: seq<KeyEvent>)
    requires Ready(s) && !ShouldStop(cfg, s.q) && 1 <= count <= Max(1, cfg.maxBatch)
    ensures CanRun(cfg, s, events) && Ready(After(cfg, s, events))
    ensures After(cfg, s, events) == KeyState(Popped(s.q.(maxOffset := s.q.maxOffset + count), Unit(s.q, count)), None)
    ensures After(cfg, s, events).q.inflight == s.q.inflight + count
  {
    var grown, r := KeyState(s.q.(maxOffset := s.q.maxOffset + count), None), Unit(s.q, count);
    events := [Outside(Grow(count))] + WholePop(1, r);
    assert Start(grown.q) == Start(s.q);
    PopGoesThrough(cfg, grown, 1, r);
    assert events[1..] == WholePop(1, r);
    Stepwise(cfg, s, events, grown);
    assert LatestBuffered(Popped(grown.q, r)) == r.next;
  }

  /** Single messages bring the counter to any value up to one past the threshold. */
  lemma {:induction false} Fill(cfg: Config, n: nat) returns (events: seq<KeyEvent>)
    requires cfg.limited && n <= cfg.threshold + 1
    ensures CanRun(cfg, KeyState(EMPTY, None), events)
    ensures Ready(After(cfg, KeyState(EMPTY, None), events))
        && After(cfg, KeyState(EMPTY, None), events).q.inflight == n
  {
    events := [];
    if n > 0 {
      var start := KeyState(EMPTY, None);
      events := Fill(cfg, n - 1);
      var more := UnitGoesThrough(cfg, After(cfg, start, events), 1);
      RunThenRun(cfg, start, events, more);
      events := events + more;
    }
  }

  /** The claim that the in-flight number never passes the threshold by more than 32. */
  ghost predicate WithinOnePage(cfg: Config) {
    forall q: Queue, events: seq<KeyEvent> | Fresh(q) && CanRun(cfg, KeyState(q, None), events) ::
      Reported(After(cfg, KeyState(q, None), events).q.inflight) <= cfg.threshold + MAX_POP
  }

  /** It holds if and only if no store unit holds more than 32 messages. */
  lemma WithinOnePageIffSmallUnits(cfg: Config)
    requires cfg.limited && 0 <= cfg.threshold
    ensures WithinOnePage(cfg) <==> cfg.maxBatch <= MAX_POP
  {
    if cfg.maxBatch <= MAX_POP {
      forall q: Queue, events: seq<KeyEvent> | Fresh(q) && CanRun(cfg, KeyState(q, None), events)
        ensures Reported(After(cfg, KeyState(q, None), events).q.inflight) <= cfg.threshold + MAX_POP
      {
        RunKeepsBound(cfg, KeyState(q, None), events);
      }
    } else {
      var start := KeyState(EMPTY, None);
      var events := Fill(cfg, cfg.threshold);
      var more := UnitGoesThrough(cfg, After(cfg, start, events), cfg.maxBatch);
      RunThenRun(cfg, start, events, more);
      assert Reported(After(cfg, start, events + more).q.inflight) > cfg.threshold + MAX_POP;
    }
  }
}
