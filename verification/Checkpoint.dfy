/**
 The checkpoint a pop leaves behind (rocketmq-store/src/pop/pop_check_point.rs) and the
 acknowledgement marks the merge service keeps beside it
 (rocketmq-broker/src/processor/processor_service/pop_buffer_merge_service.rs).

 A mark word is an i32 in the broker; here it is the set of its raised bit positions.
 */
module Checkpoint {
  import opened Prelude

  const U8_RANGE := 0x100
  const I32_RANGE := 0x1_0000_0000
  const MARK_WIDTH := 32

  datatype PopCheckPoint = PopCheckPoint(startOffset: int, num: nat, diffs: seq<int>)

  /** `x as u8` */
  function ToU8(x: nat): nat {
    x % U8_RANGE
  }

  /** `x as i32` on an i64 */
  function ToI32(x: int): int {
    var low := x % I32_RANGE;
    if low <= I32_MAX then low else low - I32_RANGE
  }

  /** What `append_check_point` fills in before it offers the checkpoint to the merge service. */
  function Point(start: int, offsets: seq<int>): PopCheckPoint {
    PopCheckPoint(start, ToU8(|offsets|),
                  seq(|offsets|, i requires 0 <= i < |offsets| => ToI32(offsets[i] - start)))
  }

  /** The queue offsets the checkpoint stands for: `ack_offset_by_index` of every index. */
  function Offsets(ck: PopCheckPoint): seq<int> {
    seq(|ck.diffs|, i requires 0 <= i < |ck.diffs| => AckOffsetByIndex(ck, i))
  }

  function OffsetSet(ck: PopCheckPoint): set<int> {
    set i | 0 <= i < |ck.diffs| :: AckOffsetByIndex(ck, i)
  }

  function AckOffsetByIndex(ck: PopCheckPoint, index: nat): int
    requires ck.diffs == [] || index < |ck.diffs|
  {
    if ck.diffs == [] then ck.startOffset + index else ck.startOffset + ck.diffs[index]
  }

  /** Reads the diff stored AT position `ackOffset - startOffset`; it does not search for it. */
  function IndexOfAck(ck: PopCheckPoint, ackOffset: int): int {
    var index := ackOffset - ck.startOffset;
    if index < 0 then -1
    else if ck.diffs == [] then (if index < ck.num then index else -1)
    else if index >= |ck.diffs| then -1
    else ck.diffs[index]
  }

  /** The bits raised by `add_ack` for a set of acknowledged offsets. */
  function Marks(ck: PopCheckPoint, acks: set<int>): set<int> {
    set o | o in acks && IndexOfAck(ck, o) > -1 :: IndexOfAck(ck, o)
  }

  /** The offsets the scan stores for raised bits: `ack_offset_by_index` of each. */
  function OffsetsAt(ck: PopCheckPoint, bits: set<int>): set<int> {
    set i | i in bits && 0 <= i < |ck.diffs| :: AckOffsetByIndex(ck, i)
  }

  /** Acknowledging `x` raises the mark of message `o`. */
  predicate Strikes(ck: PopCheckPoint, x: int, o: int) {
    var i := IndexOfAck(ck, x);
    0 <= i < |ck.diffs| && AckOffsetByIndex(ck, i) == o
  }

  /** No other message of the batch strikes `o`. */
  ghost predicate Own(ck: PopCheckPoint, o: int) {
    forall x | x in OffsetSet(ck) && Strikes(ck, x, o) :: x == o
  }

  /** `is_ck_done` */
  predicate Done(ck: PopCheckPoint, bits: set<int>) {
    forall i | 0 <= i < ck.num :: i in bits
  }

  /** `is_ck_done_for_finish`: every position differs between the two words. */
  predicate DoneForFinish(ck: PopCheckPoint, bits: set<int>, toStore: set<int>) {
    forall i | 0 <= i < ck.num :: (i in bits) != (i in toStore)
  }

  /** Offsets as the store returns them: ascending, from `start` on, within i32 reach. */
  ghost predicate Ascending(start: int, offsets: seq<int>) {
    && (forall i | 0 <= i < |offsets| :: start <= offsets[i] <= start + I32_MAX)
    && (forall i, j | 0 <= i < j < |offsets| :: offsets[i] < offsets[j])
  }

  ghost predicate WellFormed(ck: PopCheckPoint) {
    && ck.num == |ck.diffs| <= MARK_WIDTH
    && (forall i | 0 <= i < |ck.diffs| :: 0 <= ck.diffs[i])
    && (forall i, j | 0 <= i < j < |ck.diffs| :: ck.diffs[i] < ck.diffs[j])
  }

  /** No gap: the last message sits right where a gap-free batch would put it. */
  predicate GapFree(ck: PopCheckPoint)
    requires ck.diffs != []
  {
    ck.diffs[|ck.diffs| - 1] == |ck.diffs| - 1
  }

  /** The loop of `append_check_point`. */
  method BuildPoint(start: int, offsets: seq<int>) returns (ck: PopCheckPoint)
    ensures ck == Point(start, offsets)
  {
    ck := PopCheckPoint(start, ToU8(|offsets|), []);
    for i := 0 to |offsets|
      invariant ck.startOffset == start && ck.num == ToU8(|offsets|) && |ck.diffs| == i
      invariant forall j | 0 <= j < i :: ck.diffs[j] == ToI32(offsets[j] - start)
    {
      ck := ck.(diffs := ck.diffs + [ToI32(offsets[i] - start)]);
    }
  }

  /**
   `start_offset` plus the diffs gives back exactly the offsets that were read, with no
   truncation of a diff, and `num` survives its u8 cast exactly when there are fewer than 256.
   */
  lemma PointReconstructs(start: int, offsets: seq<int>)
    requires Ascending(start, offsets)
    ensures Offsets(Point(start, offsets)) == offsets
    ensures Point(start, offsets).num == |offsets| <==> |offsets| < U8_RANGE
    ensures |offsets| <= MARK_WIDTH ==> WellFormed(Point(start, offsets))
    ensures OffsetSet(Point(start, offsets)) == set o | o in offsets
  {
    var ck := Point(start, offsets);
    assert forall i | 0 <= i < |offsets| :: ck.diffs[i] == offsets[i] - start;
    assert Offsets(ck) == offsets;
    forall o | o in offsets ensures o in OffsetSet(ck) {
      var i :| 0 <= i < |offsets| && offsets[i] == o;
      assert AckOffsetByIndex(ck, i) == o;
    }
  }

  lemma {:induction false} DiffAtLeastIndex(ck: PopCheckPoint, i: nat)
    requires WellFormed(ck) && i < |ck.diffs|
    ensures i <= ck.diffs[i]
  {
    if i > 0 { DiffAtLeastIndex(ck, i - 1); }
  }

  lemma {:induction false} GapFreeMeansIdentity(ck: PopCheckPoint, i: nat)
    requires WellFormed(ck) && i < |ck.diffs| && GapFree(ck)
    ensures ck.diffs[i] == i
    decreases |ck.diffs| - i
  {
    DiffAtLeastIndex(ck, i);
    if i < |ck.diffs| - 1 { GapFreeMeansIdentity(ck, i + 1); }
  }

  /** A raised bit `i` can only come from a diff stored at a position no later than `i`. */
  lemma {:induction false} RaisedPrefixIsIdentity(ck: PopCheckPoint, acks: set<int>, i: nat)
    requires WellFormed(ck) && i < |ck.diffs|
    requires Done(ck, Marks(ck, acks))
    ensures ck.diffs[i] == i && ck.startOffset + i in acks
  {
    assert i in Marks(ck, acks);
    var o :| o in acks && IndexOfAck(ck, o) == i;
    var d := o - ck.startOffset;
    assert ck.diffs[d] == i;
    DiffAtLeastIndex(ck, d);
    if d < i {
      RaisedPrefixIsIdentity(ck, acks, d);
      assert false;
    }
  }

  /**
   Safety of `is_ck_done` in spite of the positional lookup: when every bit is up, every
   message of the checkpoint was acknowledged, so forgetting the checkpoint loses nothing.
   */
  lemma DoneMeansAllAcked(ck: PopCheckPoint, acks: set<int>)
    requires WellFormed(ck) && acks <= OffsetSet(ck)
    requires Done(ck, Marks(ck, acks))
    ensures acks == OffsetSet(ck)
    ensures ck.diffs != [] ==> GapFree(ck)
  {
    forall o | o in OffsetSet(ck) ensures o in acks {
      var i :| 0 <= i < |ck.diffs| && AckOffsetByIndex(ck, i) == o;
      RaisedPrefixIsIdentity(ck, acks, i);
    }
    if ck.diffs != [] { RaisedPrefixIsIdentity(ck, acks, |ck.diffs| - 1); }
  }

  /**
   Completeness of `is_ck_done` fails on gaps: with every message acknowledged through the
   buffer the checkpoint counts as done if and only if the batch had no gap.
   */
  lemma AllAckedIsDoneIffGapFree(ck: PopCheckPoint)
    requires WellFormed(ck) && ck.diffs != []
    ensures Done(ck, Marks(ck, OffsetSet(ck))) <==> GapFree(ck)
  {
    if Done(ck, Marks(ck, OffsetSet(ck))) {
      DoneMeansAllAcked(ck, OffsetSet(ck));
    }
    if GapFree(ck) {
      forall i | 0 <= i < ck.num ensures i in Marks(ck, OffsetSet(ck)) {
        GapFreeMeansIdentity(ck, i);
        var o := AckOffsetByIndex(ck, i);
        assert o in OffsetSet(ck) && IndexOfAck(ck, o) == i;
      }
    }
  }

  /** `index_of_ack` and `ack_offset_by_index` undo each other exactly on gap-free batches. */
  lemma IndexRoundTripIffGapFree(ck: PopCheckPoint)
    requires WellFormed(ck) && ck.diffs != []
    ensures (forall i | 0 <= i < |ck.diffs| :: IndexOfAck(ck, AckOffsetByIndex(ck, i)) == i) <==> GapFree(ck)
  {
    var last := |ck.diffs| - 1;
    if GapFree(ck) {
      forall i | 0 <= i < |ck.diffs| ensures IndexOfAck(ck, AckOffsetByIndex(ck, i)) == i {
        GapFreeMeansIdentity(ck, i);
      }
    } else {
      DiffAtLeastIndex(ck, last);
      assert IndexOfAck(ck, AckOffsetByIndex(ck, last)) == -1;
    }
  }

  /** Two messages, one offset apart from contiguous: both acknowledged, never done. */
  lemma GapNeverDone()
    ensures var ck := Point(10, [10, 12]);
            WellFormed(ck) && !Done(ck, Marks(ck, OffsetSet(ck)))
  {
    var ck := Point(10, [10, 12]);
    assert Ascending(10, [10, 12]);
    PointReconstructs(10, [10, 12]);
    assert ck.diffs == [0, 2];
    AllAckedIsDoneIffGapFree(ck);
  }

  /**
   The finish test of `is_ck_done_for_finish` is satisfied, for stored bits that are a subset
   of the raised ones, only before any acknowledgement was stored and only when all were raised:
   once one acknowledgement was stored it can never succeed again.
   */
  lemma FinishTestIsDoneWithNothingStored(ck: PopCheckPoint, bits: set<int>, toStore: set<int>)
    requires toStore <= bits
    ensures DoneForFinish(ck, bits, toStore)
       <==> Done(ck, bits) && (forall i | 0 <= i < ck.num :: i !in toStore)
  {
    if DoneForFinish(ck, bits, toStore) {
      forall i | 0 <= i < ck.num ensures i in bits && i !in toStore {
        assert (i in bits) != (i in toStore);
      }
    }
  }

  // ---------------------------------------------------------------- whose mark an acknowledgement raises

  /** The mark of an own message goes up only if the message itself is among the acknowledged. */
  lemma OwnMarkMeansAcked(ck: PopCheckPoint, acks: set<int>, i: nat)
    requires acks <= OffsetSet(ck) && i < |ck.diffs| && Own(ck, AckOffsetByIndex(ck, i)) && i in Marks(ck, acks)
    ensures AckOffsetByIndex(ck, i) in acks
  {
    var x :| x in acks && IndexOfAck(ck, x) == i;
    assert Strikes(ck, x, AckOffsetByIndex(ck, i));
  }

  /** The test on the diffs: a diff that is a position of the batch finds itself there, or nothing of the batch. */
  ghost predicate SelfOrOutside(ck: PopCheckPoint) {
    forall p | 0 <= p < |ck.diffs| && 0 <= ck.diffs[p] < |ck.diffs| ::
      ck.diffs[ck.diffs[p]] == ck.diffs[p] || ck.diffs[ck.diffs[p]] >= |ck.diffs|
  }

  /** Every message raises its own mark or none if and only if the diffs pass that test. */
  lemma MarksExactlyIff(ck: PopCheckPoint)
    requires WellFormed(ck)
    ensures (forall o | o in OffsetSet(ck) :: Own(ck, o)) <==> SelfOrOutside(ck)
  {
    if SelfOrOutside(ck) {
      forall o | o in OffsetSet(ck) ensures Own(ck, o) {
        forall x | x in OffsetSet(ck) && Strikes(ck, x, o) ensures x == o {
          var p :| 0 <= p < |ck.diffs| && AckOffsetByIndex(ck, p) == x;
          assert ck.diffs[ck.diffs[p]] == ck.diffs[p];
        }
      }
    } else {
      var p :| 0 <= p < |ck.diffs| && 0 <= ck.diffs[p] < |ck.diffs|
            && !(ck.diffs[ck.diffs[p]] == ck.diffs[p] || ck.diffs[ck.diffs[p]] >= |ck.diffs|);
      StruckElsewhere(ck, p);
    }
  }

  /** A diff that finds another position of the batch strikes a later message. */
  lemma StruckElsewhere(ck: PopCheckPoint, p: nat)
    requires WellFormed(ck) && p < |ck.diffs| && ck.diffs[p] < |ck.diffs|
    requires ck.diffs[p] != ck.diffs[ck.diffs[p]] < |ck.diffs|
    ensures var x, o := AckOffsetByIndex(ck, p), AckOffsetByIndex(ck, ck.diffs[ck.diffs[p]]);
            x in OffsetSet(ck) && o in OffsetSet(ck) && Strikes(ck, x, o) && x < o && !Own(ck, o)
  {
    var d := ck.diffs[p];
    var x, o := AckOffsetByIndex(ck, p), AckOffsetByIndex(ck, ck.diffs[d]);
    DiffAtLeastIndex(ck, d);
    DiffAtLeastIndex(ck, ck.diffs[d]);
    assert x in OffsetSet(ck) && o in OffsetSet(ck) && IndexOfAck(ck, x) == ck.diffs[d];
    assert Strikes(ck, x, o);
  }

  /** A batch without gaps passes the test. */
  lemma GapFreeMarksExactly(ck: PopCheckPoint)
    requires WellFormed(ck) && ck.diffs != [] && GapFree(ck)
    ensures SelfOrOutside(ck)
  {
    forall p | 0 <= p < |ck.diffs| && 0 <= ck.diffs[p] < |ck.diffs| ensures ck.diffs[ck.diffs[p]] == ck.diffs[p] {
      GapFreeMeansIdentity(ck, p);
    }
  }

  /** The diff at `p` is a position of the batch, and the diff found there is no bit of a mark word. */
  ghost predicate TooWide(ck: PopCheckPoint, p: nat)
    requires WellFormed(ck) && p < |ck.diffs|
  {
    ck.diffs[p] < |ck.diffs| && ck.diffs[ck.diffs[p]] >= MARK_WIDTH
  }

  /**
   Acknowledging the message at `p` fails the width check of the mark word if and only if its diff
   finds such a one.
   */
  lemma AckPanicsIffTooWide(ck: PopCheckPoint, p: nat)
    requires WellFormed(ck) && p < |ck.diffs|
    ensures IndexOfAck(ck, AckOffsetByIndex(ck, p)) >= MARK_WIDTH <==> TooWide(ck, p)
    ensures TooWide(ck, p) ==> !GapFree(ck)
  {
    if TooWide(ck, p) && GapFree(ck) { GapFreeMeansIdentity(ck, ck.diffs[p]); }
  }

  /** Three messages, the last one far behind: acknowledging the second one panics. */
  lemma WideGapPanics()
    ensures var ck := Point(0, [0, 2, 40]); WellFormed(ck) && TooWide(ck, 1)
  {
    assert Ascending(0, [0, 2, 40]);
    PointReconstructs(0, [0, 2, 40]);
    assert Point(0, [0, 2, 40]).diffs == [0, 2, 40];
  }

  /** The cast keeps the low 32 bits: the one number in the range of i32 that differs by a multiple of 2^32. */
  lemma ToI32Wraps(x: int)
    ensures -0x8000_0000 <= ToI32(x) <= I32_MAX && (x - ToI32(x)) % I32_RANGE == 0
    ensures ToI32(x) == x <==> -0x8000_0000 <= x <= I32_MAX
  {
  }

  /** A checkpoint of the old form, without diffs: contiguous from its start, `num` of them. */
  lemma OldFormRoundTrip(ck: PopCheckPoint, o: int)
    requires ck.diffs == []
    ensures IndexOfAck(ck, o) != -1 <==> ck.startOffset <= o < ck.startOffset + ck.num
    ensures IndexOfAck(ck, o) != -1 ==> 0 <= IndexOfAck(ck, o) < ck.num && AckOffsetByIndex(ck, IndexOfAck(ck, o)) == o
  {
  }
}
