/**
 Batch acknowledgements (`process_batch_ack`, the batch half of `append_ack`): a bit set over a
 start offset, restricted to the offsets the queue holds, is acknowledged as one message and
 subtracted from the in-flight counter at once.
 */
module AckBatch {
  import opened Inflight
  import opened Keys
  import opened InflightCounter

  /** The pseudo revive queue of ordered pops. */
  const ORDER_REVIVE_QUEUE := 999

  /** topic is the real topic, the retry flag already resolved. */
  datatype BatchAck = BatchAck(group: string, topic: string, queue: int, reviveQueue: int,
                               startOffset: int, popTime: int, bits: seq<bool>)

  /** The queue's offset range in the store, (-1, -1) for an unknown queue. */
  datatype Range = Range(min: int, max: int)

  predicate Known(r: Range) {
    r.min != -1 && r.max != -1
  }

  predicate Selected(a: BatchAck, r: Range, i: nat)
    requires i < |a.bits|
  {
    a.bits[i] && r.min <= a.startOffset + i <= r.max
  }

  /** The number of raised bits among the first `n` whose offset the queue holds. */
  function CountSelected(a: BatchAck, r: Range, n: nat): nat
    requires n <= |a.bits|
  {
    if n == 0 then 0 else CountSelected(a, r, n - 1) + (if Selected(a, r, n - 1) then 1 else 0)
  }

  /** How many messages the batch takes off the counter. */
  function Acknowledged(a: BatchAck, r: Range): nat {
    if Known(r) && a.reviveQueue != ORDER_REVIVE_QUEUE then CountSelected(a, r, |a.bits|) else 0
  }

  function KeyOf(a: BatchAck): string {
    GroupKey(a.topic, a.group)
  }

  /** An entry of the counter after a list of batches, each with the range its queue had. */
  function EntryAfter(start: int, v: int, acks: seq<BatchAck>, ranges: seq<Range>, key: string, queue: int): int
    requires |acks| == |ranges|
  {
    if acks == [] then v else
      var n := |acks| - 1;
      var before := EntryAfter(start, v, acks[..n], ranges[..n], key, queue);
      var count := Acknowledged(acks[n], ranges[n]);
      if KeyOf(acks[n]) == key && acks[n].queue == queue && acks[n].popTime >= start && count > 0
      then Dec(before, count) else before
  }

  /** Every entry has gone through the batches. */
  ghost predicate Settled(start: int, before: Table, now: Table, acks: seq<BatchAck>, ranges: seq<Range>)
    requires |acks| == |ranges|
  {
    forall k, q :: Entry(now, k, q) == EntryAfter(start, Entry(before, k, q), acks, ranges, k, q)
  }

  /** Their offsets, in order. */
  function SelectedOffsets(a: BatchAck, r: Range, n: nat): (offsets: seq<int>)
    requires n <= |a.bits|
    ensures |offsets| == CountSelected(a, r, n)
  {
    if n == 0 then []
    else SelectedOffsets(a, r, n - 1) + (if Selected(a, r, n - 1) then [a.startOffset + n - 1] else [])
  }

  /** One more bit: its offset at the end, or nothing. */
  lemma SelectedOffsetsGrow(a: BatchAck, r: Range, n: nat)
    requires 0 < n <= |a.bits|
    ensures var before, last := SelectedOffsets(a, r, n - 1), a.startOffset + n - 1;
            SelectedOffsets(a, r, n) == before || SelectedOffsets(a, r, n) == before + [last]
    ensures a.bits[n - 1] && r.min <= a.startOffset + n - 1 <= r.max <==>
              SelectedOffsets(a, r, n) == SelectedOffsets(a, r, n - 1) + [a.startOffset + n - 1]
  {
    assert SelectedOffsets(a, r, n - 1) + [] == SelectedOffsets(a, r, n - 1);
  }

  lemma {:induction false} SelectedOffsetsWithin(a: BatchAck, r: Range, n: nat, k: nat)
    requires n <= |a.bits| && k < |SelectedOffsets(a, r, n)|
    ensures a.startOffset <= SelectedOffsets(a, r, n)[k] < a.startOffset + n
  {
    if n > 0 {
      SelectedOffsetsGrow(a, r, n);
      if k < |SelectedOffsets(a, r, n - 1)| { SelectedOffsetsWithin(a, r, n - 1, k); }
    }
  }

  /** Ascending, so each at most once. */
  lemma {:induction false} SelectedOffsetsAscend(a: BatchAck, r: Range, n: nat, k: nat, l: nat)
    requires n <= |a.bits| && k < l < |SelectedOffsets(a, r, n)|
    ensures SelectedOffsets(a, r, n)[k] < SelectedOffsets(a, r, n)[l]
  {
    if n > 0 {
      var before := SelectedOffsets(a, r, n - 1);
      SelectedOffsetsGrow(a, r, n);
      if l < |before| { SelectedOffsetsAscend(a, r, n - 1, k, l); } else { SelectedOffsetsWithin(a, r, n - 1, k); }
    }
  }

  /** Exactly the offsets of raised bits that the queue holds. */
  lemma {:induction false} SelectedOffsetsExact(a: BatchAck, r: Range, n: nat, i: nat)
    requires i < n <= |a.bits|
    ensures a.startOffset + i in SelectedOffsets(a, r, n) <==> a.bits[i] && r.min <= a.startOffset + i <= r.max
  {
    var before, all, offset := SelectedOffsets(a, r, n - 1), SelectedOffsets(a, r, n), a.startOffset + i;
    SelectedOffsetsGrow(a, r, n);
    if i < n - 1 {
      SelectedOffsetsExact(a, r, n - 1, i);
    } else {
      forall k | 0 <= k < |before| ensures before[k] != offset { SelectedOffsetsWithin(a, r, n - 1, k); }
      if all == before + [offset] { assert all[|before|] == offset; }
    }
  }

  /** The loop over the raised bits: what goes into `ack_offset_list`, or to ordered acks one by one. */
  method CollectOffsets(a: BatchAck, r: Range) returns (offsets: seq<int>)
    ensures offsets == SelectedOffsets(a, r, |a.bits|)
  {
    offsets := [];
    var i := 0;
    while i < |a.bits|
      invariant 0 <= i <= |a.bits|
      invariant offsets == SelectedOffsets(a, r, i)
    {
      if a.bits[i] {
        var offset := a.startOffset + i;
        if r.min <= offset <= r.max {
          offsets := offsets + [offset];
        }
      }
      i := i + 1;
    }
  }

  /**
   One batch. The merge service may take the acknowledgement (`merged`) or it goes to the revive
   log; the counter moves alike. Ordered batches are returned for `ack_orderly`.
   */
  method AppendBatch(counter: PopInflightMessageCounter, a: BatchAck, r: Range, merged: bool)
      returns (orderly: seq<int>)
    requires counter.Valid()
    modifies counter
    ensures counter.Valid()
    ensures Settled(counter.startTime, old(counter.table), counter.table, [a], [r])
    ensures a.reviveQueue != ORDER_REVIVE_QUEUE || !Known(r) ==> orderly == []
    ensures a.reviveQueue == ORDER_REVIVE_QUEUE && Known(r) ==> orderly == SelectedOffsets(a, r, |a.bits|)
  {
    orderly := [];
    assert [a][..0] == [] && [r][..0] == [];
    assert Settled(counter.startTime, counter.table, counter.table, [a][..0], [r][..0]);
    if r.min == -1 || r.max == -1 { return; }
    var offsets := CollectOffsets(a, r);
    if a.reviveQueue == ORDER_REVIVE_QUEUE {
      orderly := offsets;
      return;
    }
    if offsets == [] { return; }
    if merged {
      counter.Decrement(a.topic, a.group, a.popTime, a.queue, |offsets|);
      return;
    }
    counter.Decrement(a.topic, a.group, a.popTime, a.queue, |offsets|);
  }

  lemma EntryAfterAppend(start: int, v: int, acks: seq<BatchAck>, ranges: seq<Range>, a: BatchAck, r: Range,
      key: string, queue: int)
    requires |acks| == |ranges|
    ensures EntryAfter(start, v, acks + [a], ranges + [r], key, queue)
         == EntryAfter(start, EntryAfter(start, v, acks, ranges, key, queue), [a], [r], key, queue)
  {
    assert (acks + [a])[..|acks|] == acks && (ranges + [r])[..|acks|] == ranges;
    assert [a][..0] == [] && [r][..0] == [];
  }

  lemma SettledAppend(start: int, before: Table, was: Table, now: Table,
                      acks: seq<BatchAck>, ranges: seq<Range>, a: BatchAck, r: Range)
    requires |acks| == |ranges| && Settled(start, before, was, acks, ranges) && Settled(start, was, now, [a], [r])
    ensures Settled(start, before, now, acks + [a], ranges + [r])
  {
    var acks', ranges' := acks + [a], ranges + [r];
    forall k, q ensures Entry(now, k, q) == EntryAfter(start, Entry(before, k, q), acks', ranges', k, q) {
      EntryAfterAppend(start, Entry(before, k, q), acks, ranges, a, r, k, q);
    }
  }

  /** `process_batch_ack`: the batches in order, each against the range and the path it meets. */
  method ProcessBatchAck(counter: PopInflightMessageCounter, acks: seq<BatchAck>, ranges: seq<Range>, merged: seq<bool>)
    requires counter.Valid() && |acks| == |ranges| == |merged|
    modifies counter
    ensures counter.Valid()
    ensures Settled(counter.startTime, old(counter.table), counter.table, acks, ranges)
  {
    for i := 0 to |acks|
      invariant counter.Valid()
      invariant Settled(counter.startTime, old(counter.table), counter.table, acks[..i], ranges[..i])
    {
      ghost var was := counter.table;
      var orderly := AppendBatch(counter, acks[i], ranges[i], merged[i]);
      assert acks[..i + 1] == acks[..i] + [acks[i]] && ranges[..i + 1] == ranges[..i] + [ranges[i]];
      SettledAppend(
        counter.startTime, old(counter.table), was, counter.table, acks[..i], ranges[..i], acks[i], ranges[i]);
    }
    assert acks[..|acks|] == acks && ranges[..|acks|] == ranges;
  }

  /** A queue the store does not know, and an ordered batch, take nothing off the counter. */
  lemma NothingCountedIff(a: BatchAck, r: Range)
    ensures Acknowledged(a, r) == 0 <==>
              r.min == -1 || r.max == -1 || a.reviveQueue == 999 || SelectedOffsets(a, r, |a.bits|) == []
  {
  }

  /** The messages one queue loses to a list of counted batches. */
  function Total(start: int, acks: seq<BatchAck>, ranges: seq<Range>, key: string, queue: int): nat
    requires |acks| == |ranges|
  {
    if acks == [] then 0 else
      var n := |acks| - 1;
      Total(start, acks[..n], ranges[..n], key, queue) +
      (if KeyOf(acks[n]) == key && acks[n].queue == queue && acks[n].popTime >= start
          then Acknowledged(acks[n], ranges[n]) else 0)
  }

  /** However the messages are split into batches, the entry loses exactly their number. */
  lemma {:induction false} SplitDoesNotMatter(start: int, v: int, acks: seq<BatchAck>, ranges: seq<Range>,
      key: string, queue: int)
    requires |acks| == |ranges| && Total(start, acks, ranges, key, queue) <= v
    ensures EntryAfter(start, v, acks, ranges, key, queue) == v - Total(start, acks, ranges, key, queue)
  {
    if acks != [] {
      SplitDoesNotMatter(start, v, acks[..|acks| - 1], ranges[..|acks| - 1], key, queue);
    }
  }
}
