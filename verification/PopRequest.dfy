/**
 One pop request (`_process_request` from the retry draw on, `pop_msg_from_topic`,
 `pop_msg_from_topic_by_name`): which queues it visits, in which order, and how many messages it
 gathers. What a visit returns is left open up to what the store promises: at most what was asked.
 */
module PopRequest {
  import opened Prelude
  import opened Rotation
  import PopQueue

  /** retry marks both retry topics; v1 tells them apart. */
  datatype Visit = Visit(retry: bool, v1: bool, queue: int)

  datatype Settings = Settings(retryProbability: int, enableRetryV2: bool, retrieveFromV1: bool)

  datatype Header = Header(maxMsgNums: nat, queue: int, order: bool)

  predicate NeedRetry(s: Settings, random: nat) {
    random < s.retryProbability
  }

  predicate NeedV1(s: Settings, random: nat) {
    s.enableRetryV2 && s.retrieveFromV1 && random % 2 == 0
  }

  /** The stops of one topic, in order. */
  function Round(retry: bool, v1: bool, n: nat, random: nat): seq<Visit> {
    seq(n, i requires 0 <= i < n => Visit(retry, v1, StopAt(random, n, i)))
  }

  function RetryRound(t: Topics, s: Settings, random: nat): seq<Visit> {
    var v1 := NeedV1(s, random);
    var n := if v1 then t.retryV1 else t.retry;
    if n.None? then [] else Round(true, v1, n.value, random)
  }

  function MainRound(t: Topics, h: Header, random: nat): seq<Visit> {
    if h.queue < 0 then Round(false, false, t.main, random) else [Visit(false, false, h.queue)]
  }

  class Response {
    var visits: seq<Visit>
    var messages: nat

    constructor ()
      ensures visits == [] && messages == 0
    {
      visits := [];
      messages := 0;
    }

    /** `pop_msg_from_queue` as the request sees it: nothing is read once the response is full. */
    method PopFromQueue(v: Visit, max: nat)
      modifies this
      ensures visits == old(visits) + [v]
      ensures old(messages) <= messages
      ensures old(messages) <= max ==> messages <= max
      ensures old(messages) >= max ==> messages == old(messages)
    {
      visits := visits + [v];
      if messages >= max { return; }
      var want := max - messages;
      var got: nat :| got <= want;
      messages := messages + got;
    }

    method PopFromTopic(retry: bool, v1: bool, n: nat, random: nat, max: nat)
      modifies this
      ensures visits == old(visits) + Round(retry, v1, n, random)
      ensures old(messages) <= messages
      ensures old(messages) <= max ==> messages <= max
    {
      for i := 0 to n
        invariant visits == old(visits) + Round(retry, v1, n, random)[..i]
        invariant old(messages) <= messages
        invariant old(messages) <= max ==> messages <= max
      {
        PopFromQueue(Visit(retry, v1, StopAt(random, n, i)), max);
      }
    }

    method PopRetry(t: Topics, s: Settings, random: nat, max: nat)
      modifies this
      ensures visits == old(visits) + RetryRound(t, s, random)
      ensures old(messages) <= messages
      ensures old(messages) <= max ==> messages <= max
    {
      var v1 := NeedV1(s, random);
      var n := if v1 then t.retryV1 else t.retry;
      if n.Some? {
        PopFromTopic(true, v1, n.value, random, max);
      }
    }

    /** False when the request is refused before any queue is touched. */
    method ProcessRequest(t: Topics, s: Settings, h: Header, random: nat) returns (accepted: bool)
      requires visits == [] && messages == 0
      modifies this
      ensures accepted <==> h.maxMsgNums <= PopQueue.MAX_POP && h.queue < t.main
      ensures !accepted ==> visits == [] && messages == 0
      ensures messages <= h.maxMsgNums
      ensures Unrepeated(visits)
      ensures accepted && h.order ==> visits == MainRound(t, h, random)
      ensures accepted && !h.order && NeedRetry(s, random) ==>
          visits == RetryRound(t, s, random) + MainRound(t, h, random)
      ensures accepted && !h.order && !NeedRetry(s, random) ==>
                || visits == MainRound(t, h, random) + RetryRound(t, s, random)
                || (visits == MainRound(t, h, random) && messages == h.maxMsgNums)
    {
      if h.maxMsgNums > PopQueue.MAX_POP { return false; }
      if h.queue >= t.main { return false; }
      var needRetry := NeedRetry(s, random);
      if needRetry && !h.order {
        PopRetry(t, s, random, h.maxMsgNums);
      }
      if h.queue < 0 {
        PopFromTopic(false, false, t.main, random, h.maxMsgNums);
      } else {
        PopFromQueue(Visit(false, false, h.queue), h.maxMsgNums);
      }
      if !needRetry && messages < h.maxMsgNums && !h.order {
        PopRetry(t, s, random, h.maxMsgNums);
      }
      OneVisitPerSlot(t, s, h, random, visits);
      return true;
    }
  }

  /** The whole-request orders `ProcessRequest` can take. */
  predicate VisitOrder(t: Topics, s: Settings, h: Header, random: nat, visits: seq<Visit>) {
    || visits == MainRound(t, h, random)
    || visits == RetryRound(t, s, random) + MainRound(t, h, random)
    || visits == MainRound(t, h, random) + RetryRound(t, s, random)
  }

  predicate SameSlot(a: Visit, b: Visit) {
    a.retry == b.retry && a.queue == b.queue
  }

  /** No slot twice within one part of the visit order. */
  ghost predicate Unrepeated(visits: seq<Visit>) {
    forall i, j | 0 <= i < j < |visits| :: !SameSlot(visits[i], visits[j])
  }

  lemma RoundUnrepeated(retry: bool, v1: bool, n: nat, random: nat)
    ensures Unrepeated(Round(retry, v1, n, random))
    ensures forall i | 0 <= i < n :: Round(retry, v1, n, random)[i].retry == retry
  {
    forall i, j | 0 <= i < j < n ensures !SameSlot(Round(retry, v1, n, random)[i], Round(retry, v1, n, random)[j]) {
      StopsDiffer(random, n, i, j);
    }
  }

  /**
   One visit per request: whatever the draw and the retry settings, no (retry flag, queue) is
   visited twice, which is what the start-offset and message-offset fields of the response need.
   */
  lemma OneVisitPerSlot(t: Topics, s: Settings, h: Header, random: nat, visits: seq<Visit>)
    requires VisitOrder(t, s, h, random, visits)
    ensures Unrepeated(visits)
  {
    var v1 := NeedV1(s, random);
    var n := if v1 then t.retryV1 else t.retry;
    RoundUnrepeated(false, false, t.main, random);
    if n.Some? { RoundUnrepeated(true, v1, n.value, random); }
    assert Unrepeated(MainRound(t, h, random)) && Unrepeated(RetryRound(t, s, random));
  }

  /** An all-queue pop visits each queue of the topic exactly once. */
  lemma EveryQueueOnce(t: Topics, h: Header, random: nat, queue: nat) returns (i: nat)
    requires h.queue < 0 && queue < t.main
    ensures i < |MainRound(t, h, random)| && MainRound(t, h, random)[i].queue == queue
    ensures forall j | 0 <= j < |MainRound(t, h, random)| && MainRound(t, h, random)[j].queue == queue :: j == i
  {
    i := StopOf(random, t.main, queue);
    forall j | 0 <= j < |MainRound(t, h, random)| && MainRound(t, h, random)[j].queue == queue ensures j == i {
      if j < i { StopsDiffer(random, t.main, j, i); }
      if i < j { StopsDiffer(random, t.main, i, j); }
    }
  }

  /** So does the retry round, on the one retry topic the draw picks: v1 only with both flags and an even draw. */
  lemma EveryRetryQueueOnce(t: Topics, s: Settings, random: nat, queue: nat) returns (i: nat)
    requires var picked := if s.enableRetryV2 && s.retrieveFromV1 && random % 2 == 0 then t.retryV1 else t.retry;
             picked.Some? && queue < picked.value
    ensures var round := RetryRound(t, s, random);
            && i < |round|
            && round[i] == Visit(true, s.enableRetryV2 && s.retrieveFromV1 && random % 2 == 0, queue)
            && (forall j | 0 <= j < |round| && round[j].queue == queue :: j == i)
  {
    var n := (if NeedV1(s, random) then t.retryV1 else t.retry).value;
    i := StopOf(random, n, queue);
    forall j | 0 <= j < |RetryRound(t, s, random)| && RetryRound(t, s, random)[j].queue == queue ensures j == i {
      if j < i { StopsDiffer(random, n, j, i); }
      if i < j { StopsDiffer(random, n, i, j); }
    }
  }

  /** No retry topic, no visit; and no visit outside its queues. */
  lemma RetryRoundSize(t: Topics, s: Settings, random: nat)
    ensures var picked := if s.enableRetryV2 && s.retrieveFromV1 && random % 2 == 0 then t.retryV1 else t.retry;
            |RetryRound(t, s, random)| == if picked.Some? then picked.value else 0
  {
  }

  /** The draws of 0 to `n - 1` that go to the retry topic first. */
  function RetryDraws(s: Settings, n: nat): nat {
    if n == 0 then 0 else RetryDraws(s, n - 1) + (if NeedRetry(s, n - 1) then 1 else 0)
  }

  /** Out of a hundred draws, the configured number of requests looks at the retry topic first. */
  lemma {:induction false} RetryShare(s: Settings, n: nat)
    requires 0 <= s.retryProbability
    ensures RetryDraws(s, n) == if s.retryProbability < n then s.retryProbability else n
  {
    if n > 0 { RetryShare(s, n - 1); }
  }
}
