/** What holds of every checkpoint and of every phase inside the lock, at any point of any run. */
module PopShape {
  import opened Prelude
  import opened Checkpoint
  import opened PopQueue

  ghost predicate CkOk(ck: Ck) {
    && WellFormed(ck.point)
    && ck.merged <= OffsetSet(ck.point)
    && ck.logged <= OffsetSet(ck.point)
    && ck.bits == Marks(ck.point, ck.merged)
  }

  /** The part of the store's promise that outlives the read. */
  ghost predicate ReadFacts(cfg: Config, start: int, r: Read) {
    && |r.offsets| <= MAX_POP
    && r.count <= Max(MAX_POP, cfg.maxBatch)
    && |r.offsets| <= r.count <= |r.offsets| * Max(cfg.maxBatch, 1)
    && Ascending(start, r.offsets)
    && (forall i | 0 <= i < |r.offsets| :: r.offsets[i] < r.next)
    && (r.offsets != [] ==> start <= r.next)
  }

  ghost predicate PhaseOk(cfg: Config, q: Queue, p: Phase) {
    match p
    case Entered(Pop(want)) => want <= MAX_POP
    case Admitted(want) => want <= MAX_POP
    case Positioned(want, _) => 0 < want <= MAX_POP
    case Fetched(start, r) => ReadFacts(cfg, start, r)
    case Recorded(id, count) =>
      && count <= Max(MAX_POP, cfg.maxBatch)
      && (id.Some? ==>
            && id.value < |q.cks| && id.value !in q.handed && id.value !in q.known
            && q.cks[id.value].src == id.value
            && count <= |q.cks[id.value].point.diffs| * Max(cfg.maxBatch, 1)
            && |q.cks[id.value].point.diffs| <= count)
    case _ => true
  }

  ghost predicate Shape(cfg: Config, s: KeyState) {
    && (forall i | 0 <= i < |s.q.cks| :: CkOk(s.q.cks[i]))
    && (forall i | 0 <= i < |s.q.deque| :: s.q.deque[i] < |s.q.cks|)
    && (forall i | i in s.q.known + s.q.handed :: i < |s.q.cks|)
    && (forall x | x in s.q.extending :: x.origin < |s.q.cks| && x.successor < |s.q.cks|)
    && (s.crit.Some? ==> PhaseOk(cfg, s.q, s.crit.value))
    && (forall x | x in s.q.extending && s.crit.Some? && s.crit.value.Recorded? :: Some(x.successor) != s.crit.value.ck)
  }

  lemma FreshIsShaped(cfg: Config, q: Queue)
    requires Fresh(q)
    ensures Shape(cfg, KeyState(q, None))
  {
  }

  lemma MarksOfUnion(ck: PopCheckPoint, a: set<int>, b: set<int>)
    ensures Marks(ck, a + b) == Marks(ck, a) + Marks(ck, b)
  {
    forall m | m in Marks(ck, a + b) ensures m in Marks(ck, a) + Marks(ck, b) {
      var o :| o in a + b && IndexOfAck(ck, o) > -1 && IndexOfAck(ck, o) == m;
      assert o in a || o in b;
    }
  }

  lemma AckKeepsCkOk(ck: Ck, offsets: set<int>, path: AckPath)
    requires CkOk(ck) && offsets <= OffsetSet(ck.point)
    ensures CkOk(Acked(ck, offsets, path))
  {
    MarksOfUnion(ck.point, ck.merged, offsets);
  }

  lemma FreshCkOk(id: nat, start: int, offsets: seq<int>, next: int, justOffset: bool, stored: bool)
    requires Ascending(start, offsets) && |offsets| <= MAX_POP
    ensures CkOk(FreshCk(id, Point(start, offsets), next, justOffset, stored))
  {
    PointReconstructs(start, offsets);
  }

  lemma RecordKeepsShape(cfg: Config, s: KeyState, c: Choice)
    requires Shape(cfg, s) && CanStep(cfg, s, Do(c)) && s.crit.value.Fetched?
    ensures Shape(cfg, Step(cfg, s, Do(c)))
  {
    var r := s.crit.value.read;
    var start := s.crit.value.start;
    if r.offsets == [] {
      assert CkOk(FreshCk(|s.q.cks|, PopCheckPoint(start, 0, []), r.next, true, true));
    } else {
      FreshCkOk(|s.q.cks|, start, r.offsets, r.next, c.outcome.JustOffset?,
                c.outcome.JustOffset? && c.outcome.put);
    }
  }

  lemma FetchKeepsShape(cfg: Config, s: KeyState, c: Choice)
    requires Shape(cfg, s) && CanStep(cfg, s, Do(c)) && s.crit.value.Positioned?
    ensures Shape(cfg, Step(cfg, s, Do(c)))
  {
    var Positioned(want, start) := s.crit.value;
    var q' := Corrected(s.q, c.first);
    var r := FetchResult(c.first, c.second);
    assert q'.cks == s.q.cks && q'.deque == s.q.deque;
    if r.Some? {
      assert ReadOk(cfg, s.q, start, want, r.value) || ReadOk(cfg, q', start, want, r.value);
      assert ReadFacts(cfg, start, r.value);
    }
  }

  lemma CountKeepsShape(cfg: Config, s: KeyState, c: Choice)
    requires Shape(cfg, s) && CanStep(cfg, s, Do(c)) && s.crit.value.Recorded?
    ensures Shape(cfg, Step(cfg, s, Do(c)))
  {
  }

  lemma PositionKeepsShape(cfg: Config, s: KeyState, c: Choice)
    requires Shape(cfg, s) && CanStep(cfg, s, Do(c)) && s.crit.value.Admitted?
    ensures Shape(cfg, Step(cfg, s, Do(c)))
  {
  }

  lemma WorkKeepsShape(cfg: Config, s: KeyState, c: Choice)
    requires Shape(cfg, s) && CanStep(cfg, s, Do(c))
    ensures Shape(cfg, Step(cfg, s, Do(c)))
  {
    match s.crit.value
    case Fetched(_, _) => RecordKeepsShape(cfg, s, c);
    case Positioned(_, _) => FetchKeepsShape(cfg, s, c);
    case Recorded(_, _) => CountKeepsShape(cfg, s, c);
    case Admitted(_) => PositionKeepsShape(cfg, s, c);
    case _ =>
  }

  /** One checkpoint replaced by another that is still sound. */
  lemma UpdateKeepsShape(cfg: Config, s: KeyState, id: nat, ck: Ck)
    requires Shape(cfg, s) && id < |s.q.cks| && CkOk(ck)
    requires ck.point == s.q.cks[id].point && ck.src == s.q.cks[id].src
    ensures Shape(cfg, s.(q := s.q.(cks := s.q.cks[id := ck])))
  {
  }

  /** Acknowledgements and the scan's writes: one checkpoint changes its marks. */
  lemma MarkKeepsShape(cfg: Config, s: KeyState, e: Env)
    requires Shape(cfg, s) && CanStep(cfg, s, Outside(e)) && (e.Ack? || e.StoreCk? || e.StoreAcks?)
    ensures Shape(cfg, Step(cfg, s, Outside(e)))
  {
    match e
    case Ack(id, offsets, path, _) =>
      AckKeepsCkOk(s.q.cks[id], offsets, path);
      UpdateKeepsShape(cfg, s, id, Acked(s.q.cks[id], offsets, path));
    case StoreCk(id) => UpdateKeepsShape(cfg, s, id, s.q.cks[id].(stored := true));
    case StoreAcks(id, marks) => UpdateKeepsShape(cfg, s, id, MarksStored(s.q.cks[id], marks));
  }

  /** What happens outside the lock never changes what a checkpoint stands for. */
  lemma EnvKeepsPoints(q: Queue, e: Env)
    requires CanEnv(q, e)
    ensures var q' := ApplyEnv(q, e);
            && |q.cks| <= |q'.cks| && (|q.cks| < |q'.cks| ==> e.BeginExtend? && |q'.cks| == |q.cks| + 1)
            && (forall id | 0 <= id < |q.cks| :: q'.cks[id].point == q.cks[id].point && q'.cks[id].src == q.cks[id].src)
  {
    match e
    case StoreCk(id) =>
    case StoreAcks(id, _) =>
    case Ack(id, _, _, _) =>
    case BeginExtend(_, _) =>
    case EndExtend(x, _) =>
    case _ => assert ApplyEnv(q, e).cks == q.cks;
  }

  lemma EnvKeepsHistory(q: Queue, e: Env)
    requires CanEnv(q, e)
    ensures var q' := ApplyEnv(q, e); q.acked <= q'.acked && q'.log == q.log && q'.handed == q.handed
  {
  }

  /** The client learns the handle of a finished visibility change. */
  lemma LearnKeepsShape(cfg: Config, s: KeyState, x: Extension)
    requires Shape(cfg, s) && x in s.q.extending
    ensures Shape(cfg, s.(q := s.q.(extending := s.q.extending - {x}, known := s.q.known + {x.successor})))
  {
  }

  lemma EndExtendKeepsShape(cfg: Config, s: KeyState, x: Extension, path: AckPath)
    requires Shape(cfg, s) && CanStep(cfg, s, Outside(EndExtend(x, path)))
    ensures Shape(cfg, Step(cfg, s, Outside(EndExtend(x, path))))
  {
    AckKeepsCkOk(s.q.cks[x.origin], {x.offset}, path);
    UpdateKeepsShape(cfg, s, x.origin, Acked(s.q.cks[x.origin], {x.offset}, path));
    LearnKeepsShape(cfg, s.(q := s.q.(cks := s.q.cks[x.origin := Acked(s.q.cks[x.origin], {x.offset}, path)])), x);
  }

  /** The rest of what happens outside the lock touches no checkpoint. */
  lemma OtherKeepsShape(cfg: Config, s: KeyState, q: Queue)
    requires Shape(cfg, s) && q.cks == s.q.cks && q.known == s.q.known && q.handed == s.q.handed
    requires q.extending == s.q.extending && forall i | 0 <= i < |q.deque| :: q.deque[i] in s.q.deque
    ensures Shape(cfg, s.(q := q))
  {
  }

  lemma EnvKeepsShape(cfg: Config, s: KeyState, e: Env)
    requires Shape(cfg, s) && CanStep(cfg, s, Outside(e))
    ensures Shape(cfg, Step(cfg, s, Outside(e)))
  {
    if e.Ack? || e.StoreCk? || e.StoreAcks? {
      MarkKeepsShape(cfg, s, e);
    } else if e.EndExtend? {
      EndExtendKeepsShape(cfg, s, e.x, e.path);
    } else if e.BeginExtend? {
      ExtendKeepsShape(cfg, s, e.id, e.offset);
    } else {
      OtherKeepsShape(cfg, s, ApplyEnv(s.q, e));
    }
  }

  lemma ExtendKeepsShape(cfg: Config, s: KeyState, id: nat, offset: int)
    requires Shape(cfg, s) && CanStep(cfg, s, Outside(BeginExtend(id, offset)))
    ensures Shape(cfg, Step(cfg, s, Outside(BeginExtend(id, offset))))
  {
    FreshCkOk(s.q.cks[id].src, offset, [offset], -1, false, true);
  }

  lemma StepKeepsShape(cfg: Config, s: KeyState, e: KeyEvent)
    requires Shape(cfg, s) && CanStep(cfg, s, e)
    ensures Shape(cfg, Step(cfg, s, e))
  {
    match e
    case Do(c) => WorkKeepsShape(cfg, s, c);
    case Outside(env) => EnvKeepsShape(cfg, s, env);
    case _ =>
  }
}
