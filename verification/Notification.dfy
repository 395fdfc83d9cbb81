/**
 The notification request (`has_msg_from_topic`, `has_msg_from_queue`, the search of
 `process_request`): is there something to pop? The answer may not depend on where the search
 starts, and may not miss a message that a pop would find.
 */
module Notification {
  import opened Prelude
  import opened Rotation
  import opened PopQueue

  datatype Target = Main | Retry | RetryV1

  /** Does some queue of the target have a message? */
  ghost predicate Any(has: (Target, int) -> bool, target: Target, n: nat) {
    exists i :: 0 <= i < n && has(target, i)
  }

  ghost predicate AnyIn(has: (Target, int) -> bool, target: Target, n: Option<nat>) {
    n.Some? && Any(has, target, n.value)
  }

  method HasMsgFromTopic(has: (Target, int) -> bool, target: Target, n: Option<nat>, random: nat) returns (found: bool)
    ensures found <==> AnyIn(has, target, n)
  {
    if n.Some? {
      var count := n.value;
      for i := 0 to count
        invariant forall j | 0 <= j < i :: !has(target, StopAt(random, count, j))
      {
        var queue := StopAt(random, count, i);
        if has(target, queue) { return true; }
      }
      forall queue | 0 <= queue < count ensures !has(target, queue) {
        var i := StopOf(random, count, queue);
      }
    }
    return false;
  }

  method HasMsgFromRetry(has: (Target, int) -> bool, t: Topics, v2: bool, fromV1: bool, random: nat)
      returns (found: bool)
    ensures found <==> AnyIn(has, Retry, t.retry) || (v2 && fromV1 && AnyIn(has, RetryV1, t.retryV1))
  {
    found := HasMsgFromTopic(has, Retry, t.retry, random);
    if !found && v2 && fromV1 {
      found := HasMsgFromTopic(has, RetryV1, t.retryV1, random);
    }
  }

  /**
   The search. `queue` is negative for "any queue of the topic". The answer is the same for every
   random number, whichever side it searches first.
   */
  method Search(has: (Target, int) -> bool, t: Topics, queue: int, v2: bool, fromV1: bool, random: nat)
      returns (hasMsg: bool)
    ensures hasMsg <==>
      || (if queue < 0 then Any(has, Main, t.main) else has(Main, queue))
      || AnyIn(has, Retry, t.retry)
      || (v2 && fromV1 && AnyIn(has, RetryV1, t.retryV1))
  {
    hasMsg := false;
    var needRetry := random % 5 == 0;
    if needRetry {
      hasMsg := HasMsgFromRetry(has, t, v2, fromV1, random);
    }
    if !hasMsg {
      if queue < 0 {
        hasMsg := HasMsgFromTopic(has, Main, Some(t.main), random);
      } else {
        hasMsg := has(Main, queue);
      }
      if !needRetry && !hasMsg {
        hasMsg := HasMsgFromRetry(has, t, v2, fromV1, random);
      }
    }
  }

  // ---------------------------------------------------------------- against pop

  /** `get_pop_offset` of the notification processor: no init mode, no reset. */
  function NotifyOffset(q: Queue): int {
    var own := if q.committed < 0 then q.minOffset else q.committed;
    var buffered := LatestBuffered(q);
    if buffered < 0 then own else Max(buffered, own)
  }

  /** `has_msg_from_queue` of a queue that is not blocked by ordering. */
  predicate HasMsg(q: Queue) {
    q.maxOffset - NotifyOffset(q) > 0
  }

  predicate Stored(q: Queue, o: int) {
    q.minOffset <= o < q.maxOffset
  }

  /** A message the store can still return, at or after `start`. */
  ghost predicate Readable(q: Queue, start: int) {
    exists o :: start <= o && Stored(q, o)
  }

  /** Complete for pop: for every init mode and buffered offset, what a pop would find is announced. */
  lemma NotificationIsComplete(q: Queue, p: InitPolicy)
    requires q.pendingReset.None? && Readable(q, PopOffset(q, p))
    ensures HasMsg(q)
  {
    var o :| PopOffset(q, p) <= o && Stored(q, o);
  }

  /** On a queue that is not empty it announces nothing else either, committed offset or not. */
  lemma NotificationIsExact(q: Queue, p: InitPolicy)
    requires q.pendingReset.None? && 0 <= q.minOffset < q.maxOffset
    ensures HasMsg(q) <==> Readable(q, PopOffset(q, p))
  {
    if HasMsg(q) {
      assert Stored(q, q.maxOffset - 1);
    }
  }
}
