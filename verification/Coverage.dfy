/**
 Checkpoint coverage: whatever happens to acknowledgements, visibility changes and failing puts,
 every delivered message that the client has not acknowledged, and that no other message of its
 batch strikes, is held by a checkpoint that is still in the buffer or in the revive log and in
 which the message is marked neither by the buffer nor by the acknowledgements in the log.
 */
module Coverage {
  import opened Prelude
  import opened Checkpoint
  import opened PopQueue
  import opened PopShape

  /** The checkpoint will be seen again: by the scan of the buffer or by the revive service. */
  predicate Live(q: Queue, id: nat)
    requires id < |q.cks|
  {
    id in q.buffer || q.cks[id].stored
  }

  /**
   Nobody who reads the checkpoint takes the message for acknowledged: not the scan, by the
   raised bits, and not the revive service, by the bits it raises for the logged offsets.
   */
  ghost predicate Unmarked(ck: Ck, offset: int) {
    && offset in OffsetSet(ck.point)
    && forall i | 0 <= i < |ck.point.diffs| && AckOffsetByIndex(ck.point, i) == offset ::
         i !in ck.bits && i !in Marks(ck.point, ck.logged)
  }

  /** Checkpoint `id` still guards message `offset` of delivery `src`. */
  ghost predicate Guards(q: Queue, id: nat, src: nat, offset: int) {
    id < |q.cks| && Live(q, id) && q.cks[id].src == src && Unmarked(q.cks[id], offset)
  }

  ghost predicate Covered(q: Queue, src: nat, offset: int) {
    exists id :: Guards(q, id, src, offset)
  }

  /** The log entry's messages are exactly what its checkpoint reconstructs, and it says how many. */
  ghost predicate EntryExact(q: Queue, d: Delivery) {
    && d.ck < |q.cks|
    && q.cks[d.ck].src == d.ck
    && Offsets(q.cks[d.ck].point) == d.offsets
    && q.cks[d.ck].point.num == |d.offsets|
  }

  /** Until the old checkpoint is acknowledged, nobody but the pending change knows the new one. */
  ghost predicate ExtensionOk(q: Queue, x: Extension) {
    && x.origin < x.successor < |q.cks|
    && q.cks[x.successor].src == q.cks[x.origin].src
    && q.cks[x.successor].stored
    && OffsetSet(q.cks[x.successor].point) == {x.offset}
    && q.cks[x.successor].bits == {} && q.cks[x.successor].logged == {}
    && x.successor !in q.known
    && (forall y | y in q.extending :: y.origin != x.successor && (y.successor == x.successor ==> y == x))
  }

  /** A checkpoint that continues another one stands for a single message. */
  ghost predicate SourceOk(q: Queue, id: nat)
    requires id < |q.cks|
  {
    q.cks[id].src == id || q.cks[id].point.diffs == [0]
  }

  /** The messages the theorem is about: delivered, not acknowledged, struck by no other one. */
  ghost predicate Due(q: Queue, d: Delivery, o: int)
    requires d.ck < |q.cks|
  {
    o in d.offsets && (d.ck, o) !in q.acked && Own(q.cks[d.ck].point, o)
  }

  ghost predicate DueCovered(q: Queue, d: Delivery) {
    d.ck < |q.cks| && forall o | Due(q, d, o) :: Covered(q, d.ck, o)
  }

  ghost predicate Inv(s: KeyState) {
    var q := s.q;
    && (forall id | 0 <= id < |q.cks| :: SourceOk(q, id))
    && (forall i | 0 <= i < |q.log| :: EntryExact(q, q.log[i]) && DueCovered(q, q.log[i]))
    && (forall x | x in q.extending :: ExtensionOk(q, x))
  }

  /** No checkpoint of the delivery lets another message strike this one. */
  ghost predicate Unstruck(q: Queue, src: nat, o: int) {
    forall id | 0 <= id < |q.cks| && q.cks[id].src == src :: Own(q.cks[id].point, o)
  }

  lemma OwnIsUnstruck(q: Queue, src: nat, o: int)
    requires src < |q.cks| && q.cks[src].src == src && Own(q.cks[src].point, o)
    requires forall id | 0 <= id < |q.cks| :: SourceOk(q, id)
    ensures Unstruck(q, src, o)
  {
    forall id | 0 <= id < |q.cks| && q.cks[id].src == src ensures Own(q.cks[id].point, o) {
      assert SourceOk(q, id);
      if id != src { SingleIsOwn(q.cks[id].point, o); }
    }
  }

  lemma SingleIsOwn(ck: PopCheckPoint, o: int)
    requires ck.diffs == [0]
    ensures Own(ck, o)
  {
    forall x | x in OffsetSet(ck) && Strikes(ck, x, o) ensures x == o {
      assert AckOffsetByIndex(ck, 0) == x;
    }
  }

  /** What a step may do to one checkpoint without dropping a message it guards. */
  ghost predicate Keeps(q: Queue, q': Queue, id: nat, offset: int)
    requires id < |q.cks| <= |q'.cks|
  {
    && q'.cks[id].src == q.cks[id].src && q'.cks[id].point == q.cks[id].point
    && (Guards(q, id, q.cks[id].src, offset) ==> Guards(q', id, q.cks[id].src, offset))
  }

  lemma KeepsCovered(q: Queue, q': Queue, src: nat, offset: int)
    requires |q.cks| <= |q'.cks| && Covered(q, src, offset)
    requires forall id | 0 <= id < |q.cks| && q.cks[id].src == src :: Keeps(q, q', id, offset)
    ensures Covered(q', src, offset)
  {
    var id :| Guards(q, id, src, offset);
    assert Guards(q', id, src, offset);
  }

  /**
   Emptying the buffer is safe: an unstored checkpoint leaves it only when every one of its
   messages was acknowledged through the buffer, in spite of the positional lookup.
   */
  lemma EvictKeeps(cfg: Config, s: KeyState, id: nat, offset: int)
    requires Shape(cfg, s) && CanEnv(s.q, Evict(id))
    ensures !s.q.cks[id].stored ==> s.q.cks[id].merged == OffsetSet(s.q.cks[id].point)
    ensures forall j | 0 <= j < |s.q.cks| :: Keeps(s.q, ApplyEnv(s.q, Evict(id)), j, offset)
  {
    var ck := s.q.cks[id];
    assert CkOk(ck);
    if !ck.stored {
      DoneMeansAllAcked(ck.point, ck.merged);
      assert !Unmarked(ck, offset) by {
        if offset in OffsetSet(ck.point) {
          var i :| 0 <= i < |ck.point.diffs| && AckOffsetByIndex(ck.point, i) == offset;
          assert i in ck.bits;
        }
      }
    }
  }

  /** An acknowledgement leaves every message alone that is not acknowledged and not struck. */
  lemma AckedUnmarked(ck: Ck, offsets: set<int>, path: AckPath, o: int)
    requires CkOk(ck) && offsets <= OffsetSet(ck.point) && Unmarked(ck, o) && Own(ck.point, o) && o !in offsets
    ensures Unmarked(Acked(ck, offsets, path), o)
  {
    var ck', point := Acked(ck, offsets, path), ck.point;
    forall i | 0 <= i < |point.diffs| && AckOffsetByIndex(point, i) == o ensures i !in Marks(point, offsets) {
      if i in Marks(point, offsets) { OwnMarkMeansAcked(point, offsets, i); }
    }
    if path == Stored(true) { MarksOfUnion(point, ck.logged, offsets); }
    assert ck'.bits <= ck.bits + Marks(point, offsets);
    assert Marks(point, ck'.logged) <= Marks(point, ck.logged) + Marks(point, offsets);
  }

  /** Writing raised bits out as acknowledgements marks no message that was not marked and is not struck. */
  lemma StoredUnmarked(ck: Ck, marks: set<int>, o: int)
    requires CkOk(ck) && marks <= ck.bits && Unmarked(ck, o) && Own(ck.point, o)
    ensures Unmarked(MarksStored(ck, marks), o)
  {
    var ck', offsets := MarksStored(ck, marks), OffsetsAt(ck.point, marks);
    MarksOfUnion(ck.point, ck.logged, offsets);
    forall i | 0 <= i < |ck'.point.diffs| && AckOffsetByIndex(ck'.point, i) == o
      ensures i !in ck'.bits && i !in Marks(ck'.point, ck'.logged)
    {
      assert i !in ck.bits && i !in Marks(ck.point, ck.logged);
      if i in Marks(ck.point, offsets) {
        OwnMarkMeansAcked(ck.point, offsets, i);
      }
    }
  }

  /** The messages of one delivery that are neither acknowledged nor struck stay covered. */
  ghost predicate Preserves(q: Queue, q': Queue) {
    forall src: nat, o: int :: Covered(q, src, o) && Unstruck(q, src, o) && (src, o) !in q'.acked ==>
        Covered(q', src, o)
  }

  /** Acknowledging some messages of a checkpoint uncovers no other message, unless it is struck. */
  lemma AckPreserves(cfg: Config, s: KeyState, e: Env)
    requires Shape(cfg, s) && e.Ack? && CanEnv(s.q, e)
    ensures Preserves(s.q, ApplyEnv(s.q, e))
  {
    var q, q', acking, offsets, path := s.q, ApplyEnv(s.q, e), e.id, e.offsets, e.path;
    forall src: nat, o: int | Covered(q, src, o) && Unstruck(q, src, o) && (src, o) !in q'.acked
      ensures Covered(q', src, o)
    {
      forall id | 0 <= id < |q.cks| && q.cks[id].src == src ensures Keeps(q, q', id, o) {
        if id == acking && Guards(q, id, src, o) {
          assert o in offsets ==> (src, o) in Pairs(src, offsets);
          AckedUnmarked(q.cks[id], offsets, path, o);
        }
      }
      KeepsCovered(q, q', src, o);
    }
  }

  /** The visibility change acknowledges the old checkpoint only after the new one guards the message. */
  lemma EndExtendPreserves(cfg: Config, s: KeyState, e: Env)
    requires Shape(cfg, s) && Inv(s) && e.EndExtend? && CanEnv(s.q, e)
    ensures Preserves(s.q, ApplyEnv(s.q, e))
  {
    var q, q', x, path := s.q, ApplyEnv(s.q, e), e.x, e.path;
    assert ExtensionOk(q, x);
    assert Guards(q', x.successor, q.cks[x.origin].src, x.offset);
    forall src: nat, o: int | Covered(q, src, o) && Unstruck(q, src, o) ensures Covered(q', src, o) {
      if src == q.cks[x.origin].src && o == x.offset {
      } else {
        forall id | 0 <= id < |q.cks| && q.cks[id].src == src ensures Keeps(q, q', id, o) {
          if id == x.origin && Guards(q, id, src, o) { AckedUnmarked(q.cks[id], {x.offset}, path, o); }
        }
        KeepsCovered(q, q', src, o);
      }
    }
  }

  lemma StoreAcksPreserves(cfg: Config, s: KeyState, e: Env)
    requires Shape(cfg, s) && e.StoreAcks? && CanEnv(s.q, e)
    ensures Preserves(s.q, ApplyEnv(s.q, e))
  {
    var q, q', storing, marks := s.q, ApplyEnv(s.q, e), e.id, e.marks;
    forall src: nat, o: int | Covered(q, src, o) && Unstruck(q, src, o) ensures Covered(q', src, o) {
      forall id | 0 <= id < |q.cks| && q.cks[id].src == src ensures Keeps(q, q', id, o) {
        if id == storing && Guards(q, id, src, o) { StoredUnmarked(q.cks[id], marks, o); }
      }
      KeepsCovered(q, q', src, o);
    }
  }

  lemma OtherPreserves(cfg: Config, s: KeyState, e: Env)
    requires Shape(cfg, s) && CanEnv(s.q, e) && !e.Ack? && !e.EndExtend? && !e.StoreAcks?
    ensures Preserves(s.q, ApplyEnv(s.q, e))
  {
    var q, q' := s.q, ApplyEnv(s.q, e);
    forall src: nat, o: int | Covered(q, src, o) ensures Covered(q', src, o) {
      if e.Evict? { EvictKeeps(cfg, s, e.id, o); }
      assert forall id | 0 <= id < |q.cks| :: Keeps(q, q', id, o);
      KeepsCovered(q, q', src, o);
    }
  }

  lemma EnvPreserves(cfg: Config, s: KeyState, e: Env)
    requires Shape(cfg, s) && Inv(s) && CanEnv(s.q, e)
    ensures Preserves(s.q, ApplyEnv(s.q, e))
  {
    if e.Ack? { AckPreserves(cfg, s, e); }
    else if e.EndExtend? { EndExtendPreserves(cfg, s, e); }
    else if e.StoreAcks? { StoreAcksPreserves(cfg, s, e); }
    else { OtherPreserves(cfg, s, e); }
  }

  lemma BeginExtendKeepsExtensions(cfg: Config, s: KeyState, e: Env)
    requires Shape(cfg, s) && Inv(s) && CanEnv(s.q, e) && e.BeginExtend?
    ensures forall x | x in ApplyEnv(s.q, e).extending :: ExtensionOk(ApplyEnv(s.q, e), x)
  {
    var q, q' := s.q, ApplyEnv(s.q, e);
    PointReconstructs(e.offset, [e.offset]);
    forall x | x in q'.extending ensures ExtensionOk(q', x) {
      assert forall y | y in q.extending :: ExtensionOk(q, y);
    }
  }

  lemma EnvKeepsExtensions(cfg: Config, s: KeyState, e: Env)
    requires Shape(cfg, s) && Inv(s) && CanEnv(s.q, e)
    ensures forall x | x in ApplyEnv(s.q, e).extending :: ExtensionOk(ApplyEnv(s.q, e), x)
  {
    var q, q' := s.q, ApplyEnv(s.q, e);
    if e.BeginExtend? {
      BeginExtendKeepsExtensions(cfg, s, e);
    } else {
      forall x | x in q'.extending ensures ExtensionOk(q', x) {
        assert ExtensionOk(q, x);
        if e.EndExtend? { assert ExtensionOk(q, e.x); }
      }
    }
  }

  /** A step that leaves the points and the log alone, and preserves coverage, keeps the log's part. */
  lemma LogStaysCovered(q: Queue, q': Queue, d: Delivery)
    requires EntryExact(q, d) && DueCovered(q, d) && Preserves(q, q') && q.acked <= q'.acked
    requires forall id | 0 <= id < |q.cks| :: SourceOk(q, id)
    requires |q.cks| <= |q'.cks|
    requires forall id | 0 <= id < |q.cks| :: q'.cks[id].point == q.cks[id].point && q'.cks[id].src == q.cks[id].src
    ensures EntryExact(q', d) && DueCovered(q', d)
  {
    forall o | Due(q', d, o) ensures Covered(q', d.ck, o) {
      assert Due(q, d, o);
      OwnIsUnstruck(q, d.ck, o);
    }
  }

  lemma EnvKeepsSources(cfg: Config, s: KeyState, e: Env)
    requires Shape(cfg, s) && Inv(s) && CanEnv(s.q, e)
    ensures forall id | 0 <= id < |ApplyEnv(s.q, e).cks| :: SourceOk(ApplyEnv(s.q, e), id)
  {
    var q, q' := s.q, ApplyEnv(s.q, e);
    EnvKeepsPoints(q, e);
    EnvKeepsHistory(q, e);
    forall id | 0 <= id < |q'.cks| ensures SourceOk(q', id) {
      if id < |q.cks| { assert SourceOk(q, id); }
    }
  }

  lemma EnvKeepsInv(cfg: Config, s: KeyState, e: Env)
    requires Shape(cfg, s) && Inv(s) && CanStep(cfg, s, Outside(e))
    ensures Inv(Step(cfg, s, Outside(e)))
  {
    var q, q' := s.q, ApplyEnv(s.q, e);
    EnvPreserves(cfg, s, e);
    EnvKeepsExtensions(cfg, s, e);
    EnvKeepsSources(cfg, s, e);
    EnvKeepsPoints(q, e);
    EnvKeepsHistory(q, e);
    forall i | 0 <= i < |q'.log| ensures EntryExact(q', q'.log[i]) && DueCovered(q', q'.log[i]) {
      LogStaysCovered(q, q', q.log[i]);
    }
  }

  /** A new checkpoint leaves every guard in place. */
  lemma GrowthPreserves(q: Queue, q': Queue)
    requires q.cks <= q'.cks && q.buffer <= q'.buffer
    ensures Preserves(q, q')
  {
    forall src: nat, o: int | Covered(q, src, o) ensures Covered(q', src, o) {
      assert forall id | 0 <= id < |q.cks| :: Keeps(q, q', id, o);
      KeepsCovered(q, q', src, o);
    }
  }

  /** A pop that gets a checkpoint accepted: the new delivery is guarded by it from the start. */
  lemma AcceptKeepsInv(cfg: Config, s: KeyState, start: int, r: Read, justOffset: bool, put: bool)
    requires Shape(cfg, s) && Inv(s) && ReadFacts(cfg, start, r)
    ensures Inv(KeyState(Accept(s.q, start, r, justOffset, put), Some(Recorded(Some(|s.q.cks|), r.count))))
  {
    var q, q' := s.q, Accept(s.q, start, r, justOffset, put);
    PointReconstructs(start, r.offsets);
    GrowthPreserves(q, q');
    forall id | 0 <= id < |q'.cks| ensures SourceOk(q', id) {
      if id < |q.cks| { assert SourceOk(q, id); }
    }
    forall i | 0 <= i < |q'.log| ensures EntryExact(q', q'.log[i]) && DueCovered(q', q'.log[i]) {
      if i < |q.log| {
        LogStaysCovered(q, q', q.log[i]);
      } else {
        assert forall o | o in r.offsets :: Guards(q', |q.cks|, |q.cks|, o);
      }
    }
    forall x | x in q'.extending ensures ExtensionOk(q', x) { assert ExtensionOk(q, x); }
  }

  /** Steps of the worker that record nothing leave every guard in place. */
  lemma QuietKeepsInv(s: KeyState, s': KeyState)
    requires Inv(s) && s'.q.log == s.q.log && s'.q.acked == s.q.acked && s'.q.buffer == s.q.buffer
    requires s'.q.extending == s.q.extending && s.q.cks <= s'.q.cks
    requires forall x | x in s.q.extending :: x.successor !in s'.q.known
    requires forall id | |s.q.cks| <= id < |s'.q.cks| :: s'.q.cks[id].src == id
    ensures Inv(s')
  {
    var q, q' := s.q, s'.q;
    GrowthPreserves(q, q');
    forall id | 0 <= id < |q'.cks| ensures SourceOk(q', id) {
      if id < |q.cks| { assert SourceOk(q, id); }
    }
    forall i | 0 <= i < |q'.log| ensures EntryExact(q', q'.log[i]) && DueCovered(q', q'.log[i]) {
      LogStaysCovered(q, q', q.log[i]);
    }
    forall x | x in q'.extending ensures ExtensionOk(q', x) { assert ExtensionOk(q, x); }
  }

  /** The worker's step records a delivery. */
  ghost predicate Records(s: KeyState, c: Choice)
    requires s.crit.Some? && (s.crit.value.Fetched? ==> c.Record?)
  {
    s.crit.value.Fetched? && s.crit.value.read.offsets != [] && !s.q.ordered && !c.outcome.Conflict?
  }

  /** Nothing but an accepted checkpoint touches the log; no step forgets a checkpoint. */
  lemma WorkIsQuiet(cfg: Config, s: KeyState, c: Choice)
    requires Shape(cfg, s) && CanStep(cfg, s, Do(c)) && !Records(s, c)
    ensures var q' := Step(cfg, s, Do(c)).q;
            && q'.log == s.q.log && q'.acked == s.q.acked && q'.buffer == s.q.buffer
            && q'.extending == s.q.extending && s.q.cks <= q'.cks
            && (forall id | |s.q.cks| <= id < |q'.cks| :: q'.cks[id].src == id)
  {
    if s.crit.value.Admitted? { LocateIsQuiet(s.q, c.init); }
  }

  lemma LocateIsQuiet(q: Queue, p: InitPolicy)
    ensures var q' := Locate(q, p).0;
            && q'.log == q.log && q'.acked == q.acked && q'.buffer == q.buffer
            && q'.extending == q.extending && q'.cks == q.cks && q'.known == q.known
  {
  }

  /** Counting hands out the delivery at hand and no other checkpoint. */
  lemma WorkMakesKnown(cfg: Config, s: KeyState, c: Choice, x: Extension)
    requires Shape(cfg, s) && CanStep(cfg, s, Do(c)) && x in s.q.extending && x.successor !in s.q.known
    ensures x.successor !in Step(cfg, s, Do(c)).q.known
  {
  }

  lemma WorkKeepsInv(cfg: Config, s: KeyState, c: Choice)
    requires Shape(cfg, s) && Inv(s) && CanStep(cfg, s, Do(c))
    ensures Inv(Step(cfg, s, Do(c)))
  {
    if Records(s, c) {
      var p := s.crit.value;
      AcceptKeepsInv(cfg, s, p.start, p.read, c.outcome.JustOffset?, c.outcome.JustOffset? && c.outcome.put);
    } else {
      WorkIsQuiet(cfg, s, c);
      forall x | x in s.q.extending ensures x.successor !in Step(cfg, s, Do(c)).q.known {
        assert ExtensionOk(s.q, x);
        WorkMakesKnown(cfg, s, c, x);
      }
      QuietKeepsInv(s, Step(cfg, s, Do(c)));
    }
  }

  lemma StepKeepsInv(cfg: Config, s: KeyState, e: KeyEvent)
    requires Shape(cfg, s) && Inv(s) && CanStep(cfg, s, e)
    ensures Inv(Step(cfg, s, e))
  {
    match e
    case Do(c) => WorkKeepsInv(cfg, s, c);
    case Outside(env) => EnvKeepsInv(cfg, s, env);
    case _ =>
  }
}
