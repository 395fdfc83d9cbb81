/**
 Conservation of the in-flight counter: along every run of non-ordered pops in which each
 delivered message is acknowledged at most once and every acknowledgement is counted, the
 counter is the number of messages handed out minus the number acknowledged, for any split into
 single and batch acknowledgements, on the merged and on the stored path, through any number of
 visibility changes.
 */
module Conservation {
  import opened Prelude
  import opened Checkpoint
  import opened Inflight
  import opened PopQueue
  import opened PopShape

  /** Every message that reached the client, named by its delivery and offset. */
  function HandedOut(q: Queue): set<(nat, int)> {
    set id, o | id in q.handed && id < |q.cks| && o in OffsetSet(q.cks[id].point) :: (id, o)
  }

  predicate Balanced(q: Queue) {
    q.inflight == |HandedOut(q)| - |q.acked|
  }

  /** A handle stands for messages of the delivery it descends from. */
  ghost predicate HandleOk(q: Queue, id: nat) {
    && id < |q.cks| && q.cks[id].src < |q.cks| && q.cks[id].src in q.handed
    && OffsetSet(q.cks[id].point) <= OffsetSet(q.cks[q.cks[id].src].point)
  }

  ghost predicate Inv(s: KeyState) {
    var q := s.q;
    && !q.ordered
    && (forall id | id in q.known :: HandleOk(q, id))
    && (forall x | x in q.extending :: HandleOk(q, x.successor))
    && q.acked <= HandedOut(q)
    && Balanced(q)
  }

  /** The acknowledgement is counted and none of its messages was acknowledged before. */
  predicate AcksOnce(q: Queue, e: KeyEvent) {
    e.Outside? && e.env.Ack? ==>
      && e.env.counted
      && (e.env.id < |q.cks| ==> Pairs(q.cks[e.env.id].src, e.env.offsets) !! q.acked)
  }

  lemma {:induction false} IncreasingSize(s: seq<int>)
    requires forall i, j | 0 <= i < j < |s| :: s[i] < s[j]
    ensures |set x | x in s| == |s|
  {
    if s != [] {
      var last := |s| - 1;
      IncreasingSize(s[..last]);
      assert s == s[..last] + [s[last]];
      assert (set x | x in s) == (set x | x in s[..last]) + {s[last]};
    }
  }

  lemma PointSize(ck: PopCheckPoint)
    requires WellFormed(ck)
    ensures |OffsetSet(ck)| == |ck.diffs|
  {
    var offsets := Offsets(ck);
    IncreasingSize(offsets);
    assert forall i | 0 <= i < |ck.diffs| :: offsets[i] == AckOffsetByIndex(ck, i);
    assert OffsetSet(ck) == set x | x in offsets;
  }

  lemma {:induction false} PairsSize(src: nat, offsets: set<int>)
    ensures |Pairs(src, offsets)| == |offsets|
  {
    if offsets != {} {
      var o := Pick(offsets);
      PairsSize(src, offsets - {o});
      assert Pairs(src, offsets) == Pairs(src, offsets - {o}) + {(src, o)};
    }
  }

  /** The marks of a checkpoint do not matter to what was handed out. */
  lemma SameHandedOut(q: Queue, q': Queue)
    requires q'.handed == q.handed && |q.cks| <= |q'.cks|
    requires forall id | id in q.handed :: id < |q.cks|
    requires forall i | 0 <= i < |q.cks| :: q'.cks[i].point == q.cks[i].point
    ensures HandedOut(q') == HandedOut(q)
  {
  }

  /** Acknowledging through a handle names only messages that were handed out. */
  lemma AckedWereHanded(q: Queue, id: nat, offsets: set<int>)
    requires HandleOk(q, id) && offsets <= OffsetSet(q.cks[id].point)
    ensures Pairs(q.cks[id].src, offsets) <= HandedOut(q)
  {
  }

  /** The arithmetic of one counted acknowledgement. */
  lemma DecBalance<T>(handed: set<T>, acked: set<T>, pairs: set<T>)
    requires acked <= handed && pairs <= handed && pairs != {}
    ensures Dec(|handed| - |acked|, |pairs|) == |handed| - |acked + pairs| <==> pairs !! acked || |handed| == |acked|
  {
    SubsetSize(acked, handed);
    var repeated := pairs * acked;
    assert pairs == (pairs - acked) + repeated;
    assert acked + pairs == acked + (pairs - acked);
    assert |acked + pairs| == |acked| + |pairs| - |repeated|;
    if |handed| == |acked| { assert acked + pairs == acked; }
    assert pairs !! acked <==> |repeated| == 0;
  }

  /**
   One counted acknowledgement keeps the balance if and only if it repeats nothing, or there was
   nothing left to acknowledge.
   */
  lemma AckBalancedIffOnce(q: Queue, e: Env)
    requires e.Ack? && e.counted && CanEnv(q, e)
    requires forall id | id in q.handed :: id < |q.cks|
    requires HandleOk(q, e.id) && q.acked <= HandedOut(q) && Balanced(q)
    ensures HandedOut(ApplyEnv(q, e)) == HandedOut(q)
    ensures ApplyEnv(q, e).acked <= HandedOut(q)
    ensures Balanced(ApplyEnv(q, e)) <==> Pairs(q.cks[e.id].src, e.offsets) !! q.acked || q.inflight == 0
  {
    var pairs := Pairs(q.cks[e.id].src, e.offsets);
    SameHandedOut(q, ApplyEnv(q, e));
    AckedWereHanded(q, e.id, e.offsets);
    PairsSize(q.cks[e.id].src, e.offsets);
    DecBalance(HandedOut(q), q.acked, pairs);
  }

  lemma {:induction false} SubsetSize<T>(a: set<T>, b: set<T>)
    requires a <= b
    ensures |a| <= |b|
    ensures |a| == |b| ==> a == b
  {
    assert b == a + (b - a);
  }

  lemma HandlesSurvive(q: Queue, q': Queue, id: nat)
    requires HandleOk(q, id) && q.handed <= q'.handed && |q.cks| <= |q'.cks|
    requires forall i | 0 <= i < |q.cks| :: q'.cks[i].point == q.cks[i].point && q'.cks[i].src == q.cks[i].src
    ensures HandleOk(q', id)
  {
  }

  lemma BeginExtendKeepsHandles(cfg: Config, s: KeyState, id: nat, offset: int)
    requires Shape(cfg, s) && Inv(s) && CanEnv(s.q, BeginExtend(id, offset))
    ensures var q' := ApplyEnv(s.q, BeginExtend(id, offset)); HandleOk(q', |s.q.cks|)
  {
    PointReconstructs(offset, [offset]);
    assert HandleOk(s.q, id);
  }

  lemma EnvKeepsHandles(cfg: Config, s: KeyState, e: Env)
    requires Shape(cfg, s) && Inv(s) && CanEnv(s.q, e)
    ensures var q' := ApplyEnv(s.q, e);
            && (forall id | id in q'.known :: HandleOk(q', id))
            && (forall x | x in q'.extending :: HandleOk(q', x.successor))
  {
    var q, q' := s.q, ApplyEnv(s.q, e);
    if e.BeginExtend? { BeginExtendKeepsHandles(cfg, s, e.id, e.offset); }
    EnvKeepsPoints(q, e);
    EnvKeepsHistory(q, e);
    forall id | id in q'.known ensures HandleOk(q', id) {
      HandlesSurvive(q, q', id);
    }
    forall x | x in q'.extending ensures HandleOk(q', x.successor) {
      if x in q.extending { HandlesSurvive(q, q', x.successor); }
    }
  }

  lemma EnvKeepsInv(cfg: Config, s: KeyState, e: Env)
    requires Shape(cfg, s) && Inv(s) && CanStep(cfg, s, Outside(e)) && AcksOnce(s.q, Outside(e))
    ensures Inv(Step(cfg, s, Outside(e)))
  {
    EnvKeepsHandles(cfg, s, e);
    if e.Ack? { AckBalancedIffOnce(s.q, e); }
    else { SameHandedOut(s.q, ApplyEnv(s.q, e)); }
  }

  /** Counting a recorded delivery adds exactly its messages. */
  lemma CountAddsMessages(q: Queue, id: nat, count: nat)
    requires id < |q.cks| && id !in q.handed && WellFormed(q.cks[id].point)
    ensures var q' := CountHanded(q, Some(id), count);
            HandedOut(q) <= HandedOut(q') && |HandedOut(q')| == |HandedOut(q)| + |q.cks[id].point.diffs|
  {
    var q' := CountHanded(q, Some(id), count);
    var added := Pairs(id, OffsetSet(q.cks[id].point));
    PointSize(q.cks[id].point);
    PairsSize(id, OffsetSet(q.cks[id].point));
    assert HandedOut(q') == HandedOut(q) + added && HandedOut(q) !! added;
  }

  lemma CountKeepsInv(cfg: Config, s: KeyState, c: Choice)
    requires cfg.maxBatch <= 1
    requires Shape(cfg, s) && Inv(s) && CanStep(cfg, s, Do(c)) && s.crit.value.Recorded? && s.crit.value.ck.Some?
    ensures Inv(Step(cfg, s, Do(c)))
  {
    var id, count := s.crit.value.ck.value, s.crit.value.count;
    var q, q' := s.q, CountHanded(s.q, Some(id), count);
    assert CkOk(q.cks[id]) && count == |q.cks[id].point.diffs|;
    CountAddsMessages(q, id, count);
    assert Balanced(q');
    forall j | j in q'.known ensures HandleOk(q', j) {
      if j != id { HandlesSurvive(q, q', j); }
    }
    forall x | x in q'.extending ensures HandleOk(q', x.successor) { HandlesSurvive(q, q', x.successor); }
  }

  /** No other step of the worker touches the counter of a non-ordered queue. */
  lemma QuietWork(cfg: Config, s: KeyState, c: Choice)
    requires Shape(cfg, s) && !s.q.ordered && CanStep(cfg, s, Do(c)) && !s.crit.value.Recorded?
    ensures var q' := Step(cfg, s, Do(c)).q;
            && !q'.ordered && q'.inflight == s.q.inflight && q'.acked == s.q.acked && q'.handed == s.q.handed
            && q'.known == s.q.known && q'.extending == s.q.extending && s.q.cks <= q'.cks
  {
  }

  /** On a non-ordered queue a recorded delivery always has its checkpoint. */
  ghost predicate RecordedHasCk(s: KeyState) {
    s.crit.Some? && s.crit.value.Recorded? && !s.q.ordered ==> s.crit.value.ck.Some?
  }

  lemma StepKeepsRecordedHasCk(cfg: Config, s: KeyState, e: KeyEvent)
    requires RecordedHasCk(s) && CanStep(cfg, s, e)
    ensures RecordedHasCk(Step(cfg, s, e))
  {
  }

  lemma WorkKeepsInv(cfg: Config, s: KeyState, c: Choice)
    requires cfg.maxBatch <= 1
    requires Shape(cfg, s) && Inv(s) && RecordedHasCk(s) && CanStep(cfg, s, Do(c))
    ensures Inv(Step(cfg, s, Do(c)))
  {
    var q, q' := s.q, Step(cfg, s, Do(c)).q;
    if s.crit.value.Recorded? {
      CountKeepsInv(cfg, s, c);
    } else {
      QuietWork(cfg, s, c);
      SameHandedOut(q, q');
      forall id | id in q'.known ensures HandleOk(q', id) { HandlesSurvive(q, q', id); }
      forall x | x in q'.extending ensures HandleOk(q', x.successor) { HandlesSurvive(q, q', x.successor); }
    }
  }

  lemma StepKeepsInv(cfg: Config, s: KeyState, e: KeyEvent)
    requires cfg.maxBatch <= 1
    requires Shape(cfg, s) && Inv(s) && RecordedHasCk(s) && CanStep(cfg, s, e) && AcksOnce(s.q, e)
    ensures Inv(Step(cfg, s, e))
  {
    match e
    case Do(c) => WorkKeepsInv(cfg, s, c);
    case Outside(env) => EnvKeepsInv(cfg, s, env);
    case _ =>
  }
}
