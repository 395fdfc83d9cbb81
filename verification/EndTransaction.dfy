/**
 The second phase of a transactional message: a half message is parked under a system topic
 (`parse_half_message_inner`), and an end-transaction request stores the final message or rolls
 back (`EndTransactionProcessor::process_request`).

 The guard in front of the commit is the source's: it goes on when the check FAILED.
 */
module EndTransaction {
  import opened Prelude
  import Decimal

  const REAL_TOPIC := "REAL_TOPIC"
  const REAL_QUEUE_ID := "REAL_QID"
  const PRODUCER_GROUP := "PGROUP"
  const TRANSACTION_PREPARED := "TRAN_MSG"
  const UNIQUE_KEY := "UNIQ_KEY"
  const TRANSACTION_ID := "__transactionId__"
  const HALF_TOPIC := "RMQ_SYS_TRANS_HALF_TOPIC"

  const NOT_TYPE: bv32 := 0
  const COMMIT_TYPE: bv32 := 8
  const ROLLBACK_TYPE: bv32 := 12

  const I32_MIN := -0x8000_0000

  type Properties = map<string, string>

  datatype Message = Message(topic: string, queueId: int, body: string, properties: Properties, sysFlag: bv32,
                             bornTimestamp: int, storeTimestamp: int, reconsumeTimes: int)

  /** A message as the commit log returns it. */
  datatype Half = Half(message: Message, queueOffset: int, commitLogOffset: int)

  /** `properties_string` is rendered once; `rendered` is the map it was rendered from. */
  datatype Final = Final(message: Message, queueOffset: int, preparedOffset: int, rendered: Properties)

  datatype Request = Request(fromCheck: bool, kind: bv32, producerGroup: string, stateTableOffset: int,
      commitLogOffset: int)

  // ---------------------------------------------------------------- contents

  /** `reset_transaction_value` */
  function ResetTransaction(flag: bv32, kind: bv32): bv32 {
    (flag & !ROLLBACK_TYPE) | kind
  }

  function Get(p: Properties, name: string): Option<string> {
    if name in p then Some(p[name]) else None
  }

  function OrDefault(s: Option<string>): string {
    if s.Some? then s.value else ""
  }

  /** `parse_half_message_inner` */
  function Park(m: Message): Message {
    var tagged := if UNIQUE_KEY in m.properties then m.properties[TRANSACTION_ID := m.properties[UNIQUE_KEY]]
        else m.properties;
    m.(topic := HALF_TOPIC, queueId := 0, sysFlag := ResetTransaction(m.sysFlag, NOT_TYPE),
       properties := tagged[REAL_TOPIC := m.topic][REAL_QUEUE_ID := Decimal.Text(m.queueId)])
  }

  /** `end_message_transaction` and what the commit branch sets on top of it. */
  function FinalOf(h: Half, r: Request): Final {
    var p := h.message.properties;
    var queueId := Decimal.Parse(OrDefault(Get(p, REAL_QUEUE_ID)), I32_MIN, I32_MAX);
    Final(h.message.(topic := OrDefault(Get(p, REAL_TOPIC)),
                     queueId := if queueId.Some? then queueId.value else 0,
                     sysFlag := ResetTransaction(h.message.sysFlag, r.kind),
                     properties := p - {REAL_TOPIC, REAL_QUEUE_ID, TRANSACTION_PREPARED}),
          r.stateTableOffset, r.commitLogOffset, p)
  }

  /** Committing a parked message gives back the producer's topic, queue, body and properties. */
  lemma CommitRestoresMessage(m: Message, r: Request, queueOffset: int, commitLogOffset: int)
    requires I32_MIN <= m.queueId <= I32_MAX
    ensures var f := FinalOf(Half(Park(m), queueOffset, commitLogOffset), r).message;
            && f.topic == m.topic && f.queueId == m.queueId && f.body == m.body
            && f.bornTimestamp == m.bornTimestamp && f.reconsumeTimes == m.reconsumeTimes
            && (forall k | k in m.properties
                && k !in {REAL_TOPIC, REAL_QUEUE_ID, TRANSACTION_PREPARED, TRANSACTION_ID} ::
                  k in f.properties && f.properties[k] == m.properties[k])
            && (forall k | k in f.properties :: k in m.properties || k == TRANSACTION_ID)
  {
    Decimal.RoundTrip(m.queueId, I32_MIN, I32_MAX);
  }

  /** A parked message is out of sight: system topic, queue 0, no transaction bits; nothing else of it is lost. */
  lemma ParkHides(m: Message)
    ensures var p := Park(m);
            && p.topic == "RMQ_SYS_TRANS_HALF_TOPIC" && p.queueId == 0 && p.sysFlag & ROLLBACK_TYPE == 0
            && p.sysFlag & !ROLLBACK_TYPE == m.sysFlag & !ROLLBACK_TYPE
            && p.body == m.body && p.bornTimestamp == m.bornTimestamp
            && (UNIQUE_KEY in m.properties ==> Get(p.properties, TRANSACTION_ID) == Some(m.properties[UNIQUE_KEY]))
            && (forall k | k in m.properties && k !in {REAL_TOPIC, REAL_QUEUE_ID, TRANSACTION_ID} ::
                  Get(p.properties, k) == Some(m.properties[k]))
  {
    ResetTouchesTwoBits(m.sysFlag, NOT_TYPE);
  }

  /** The final message remembers where its half is and when it was stored, and carries the requested kind. */
  lemma FinalRemembersHalf(h: Half, r: Request)
    requires r.kind == COMMIT_TYPE
    ensures var f := FinalOf(h, r);
            && f.queueOffset == r.stateTableOffset && f.preparedOffset == r.commitLogOffset
            && f.message.storeTimestamp == h.message.storeTimestamp && f.message.sysFlag & ROLLBACK_TYPE == COMMIT_TYPE
            && TRANSACTION_PREPARED !in f.message.properties
  {
    ResetTouchesTwoBits(h.message.sysFlag, r.kind);
  }

  /** The text that is stored was rendered before the bookkeeping properties were cleared. */
  lemma RenderedTextKeepsBookkeeping(m: Message, r: Request, queueOffset: int, commitLogOffset: int)
    ensures var f := FinalOf(Half(Park(m), queueOffset, commitLogOffset), r);
            f.rendered != f.message.properties && REAL_TOPIC in f.rendered && REAL_TOPIC !in f.message.properties
  {
  }

  /** The two transaction bits end up as asked, every other bit of the flag is kept. */
  lemma ResetTouchesTwoBits(flag: bv32, kind: bv32)
    requires kind & !ROLLBACK_TYPE == 0
    ensures ResetTransaction(flag, kind) & ROLLBACK_TYPE == kind
    ensures ResetTransaction(flag, kind) & !ROLLBACK_TYPE == flag & !ROLLBACK_TYPE
  {
  }

  // ---------------------------------------------------------------- the step

  datatype Code = Success | SystemError | SlaveNotAvailable | IllegalOperation | ServiceNotAvailable | MessageIllegal

  datatype PutStatus =
    | PutOk | FlushDiskTimeout | FlushSlaveTimeout | ReplicaNotAvailable
    | ServiceDown | CreateMappedFileFailed | Illegal | PropertiesSizeExceeded | OsPageCacheBusy | UnknownError
    | InSyncReplicasNotEnough | PutToRemoteBrokerFail | LmqConsumeQueueNumExceeded
    | WheelTimerFlowControl | WheelTimerMsgIllegal | WheelTimerNotEnable

  predicate Accepted(s: PutStatus) {
    s.PutOk? || s.FlushDiskTimeout? || s.FlushSlaveTimeout? || s.ReplicaNotAvailable?
  }

  /** `send_final_message`: the response to a put outcome. */
  function PutCode(s: PutStatus): Code {
    if Accepted(s) then Success
    else if s.ServiceDown? then ServiceNotAvailable
    else if s.Illegal? || s.PropertiesSizeExceeded? || s.WheelTimerMsgIllegal? then MessageIllegal
    else SystemError
  }

  /** slave: the broker role; expired: past the immunity time; put, deleted: the outcomes of the two writes. */
  datatype Env = Env(slave: bool, expired: bool, put: PutStatus, deleted: bool)

  /** Why a half message was deleted. */
  datatype Cause = Committed(final: nat) | RolledBack(request: Request)

  /** The commit log keeps half messages for good; deleting one means recording it. */
  datatype Store = Store(halves: map<int, Half>, finals: seq<Final>, deletions: seq<(int, Cause)>)

  /** `check_prepare_message` */
  predicate Matches(h: Half, r: Request) {
    && Get(h.message.properties, PRODUCER_GROUP) == Some(r.producerGroup)
    && h.queueOffset == r.stateTableOffset
    && h.commitLogOffset == r.commitLogOffset
  }

  predicate Rejected(r: Request, env: Env) {
    !r.fromCheck && env.expired
  }

  /** None: the request is dropped without a response. */
  function Process(s: Store, r: Request, env: Env): (Store, Option<Code>) {
    if env.slave then (s, Some(SlaveNotAvailable))
    else if r.kind != COMMIT_TYPE && r.kind != ROLLBACK_TYPE then (s, None)
    else if r.commitLogOffset !in s.halves then
      // a commit falls through to a default result, whose code is Success
      (s, Some(if r.kind == COMMIT_TYPE then Success else SystemError))
    else
      var half := s.halves[r.commitLogOffset];
      if Rejected(r, env) then (s, Some(IllegalOperation))
      else if r.kind == COMMIT_TYPE then
        if Matches(half, r) then (s, Some(Success))
        else if !Accepted(env.put) then (s, Some(PutCode(env.put)))
        else
          var stored := s.(finals := s.finals + [FinalOf(half, r)]);
          (if env.deleted then stored.(deletions := s.deletions + [(r.commitLogOffset, Committed(|s.finals|))])
              else stored,
           Some(Success))
      else if Matches(half, r) then
        (if env.deleted then s.(deletions := s.deletions + [(r.commitLogOffset, RolledBack(r))]) else s, Some(Success))
      else (s, Some(SystemError))
  }

  /** The request is not refused and names a half message that is there. */
  predicate Reached(halves: map<int, Half>, r: Request, env: Env) {
    !env.slave && (r.kind == COMMIT_TYPE || r.kind == ROLLBACK_TYPE) && r.commitLogOffset in halves && !Rejected(r, env)
  }

  /** A commit whose check failed, by the inverted guard, and whose final message was accepted. */
  predicate CommitsHalf(h: Half, r: Request, env: Env) {
    r.kind == COMMIT_TYPE && !Matches(h, r) && Accepted(env.put)
  }

  predicate RollsBack(h: Half, r: Request) {
    r.kind == ROLLBACK_TYPE && Matches(h, r)
  }

  class TransactionStore {
    var halves: map<int, Half>
    var finals: seq<Final>
    var deletions: seq<(int, Cause)>

    function Contents(): Store
      reads this
    {
      Store(halves, finals, deletions)
    }

    constructor (halves: map<int, Half>)
      ensures Valid() && Contents() == Store(halves, [], [])
    {
      this.halves := halves;
      finals, deletions := [], [];
    }

    /** Every deletion has its reason. */
    ghost predicate Valid()
      reads this
    {
      AllJustified(Contents())
    }

    /** `check_prepare_message`, in the order the source compares. */
    method CheckPrepareMessage(half: Half, r: Request) returns (code: Code)
      ensures code == Success <==>
                && PRODUCER_GROUP in half.message.properties
                && half.message.properties[PRODUCER_GROUP] == r.producerGroup
                && half.queueOffset == r.stateTableOffset && half.commitLogOffset == r.commitLogOffset
      ensures code == if Matches(half, r) then Success else SystemError
    {
      var group := Get(half.message.properties, PRODUCER_GROUP);
      if group.None? { return SystemError; }
      if group.value != r.producerGroup { return SystemError; }
      if half.queueOffset != r.stateTableOffset { return SystemError; }
      if half.commitLogOffset != r.commitLogOffset { return SystemError; }
      return Success;
    }

    /**
     Whatever the outcome of the two writes, a half message is deleted for a reason, at most one
     final message and one deletion are added, and only a request answered Success changes anything.
     */
    method ProcessRequest(r: Request, env: Env) returns (code: Option<Code>)
      requires Valid()
      modifies this`finals, this`deletions
      ensures Valid()
      ensures old(finals) <= finals && |finals| <= |old(finals)| + 1
      ensures old(deletions) <= deletions && |deletions| <= |old(deletions)| + 1
      ensures code != Some(Success) ==> unchanged(this)
      ensures finals != old(finals) <==> Reached(halves, r, env) && CommitsHalf(halves[r.commitLogOffset], r, env)
      ensures finals != old(finals) ==> finals == old(finals) + [FinalOf(halves[r.commitLogOffset], r)]
      ensures deletions != old(deletions) <==>
                && Reached(halves, r, env) && env.deleted
                && (CommitsHalf(halves[r.commitLogOffset], r, env) || RollsBack(halves[r.commitLogOffset], r))
      ensures deletions != old(deletions) ==>
                deletions == old(deletions) + [(r.commitLogOffset,
                  if r.kind == COMMIT_TYPE then Committed(|old(finals)|) else RolledBack(r))]
      ensures (Contents(), code) == Process(old(Contents()), r, env)
    {
      ProcessKeepsJustified(Contents(), r, env);
      if env.slave { return Some(SlaveNotAvailable); }
      if r.kind != COMMIT_TYPE && r.kind != ROLLBACK_TYPE { return None; }
      if r.commitLogOffset !in halves {
        return Some(if r.kind == COMMIT_TYPE then Success else SystemError);
      }
      var half := halves[r.commitLogOffset];
      if Rejected(r, env) { return Some(IllegalOperation); }
      var check := CheckPrepareMessage(half, r);
      if r.kind == COMMIT_TYPE {
        if check != Success {
          var response := PutCode(env.put);
          if Accepted(env.put) { finals := finals + [FinalOf(half, r)]; }
          if response == Success && env.deleted {
            deletions := deletions + [(r.commitLogOffset, Committed(|finals| - 1))];
          }
          return Some(response);
        }
        return Some(check);
      }
      if check == Success && env.deleted {
        deletions := deletions + [(r.commitLogOffset, RolledBack(r))];
      }
      return Some(check);
    }
  }

  // ---------------------------------------------------------------- over runs

  ghost predicate IsRun(run: seq<Store>, requests: seq<Request>, envs: seq<Env>) {
    && |run| == |requests| + 1 == |envs| + 1
    && run[0].finals == [] && run[0].deletions == []
    && forall i | 0 <= i < |requests| :: run[i + 1] == Process(run[i], requests[i], envs[i]).0
  }

  /** A deletion has its reason: the final message is stored, or the rollback matched in all three respects. */
  ghost predicate Justified(s: Store, offset: int, cause: Cause) {
    && offset in s.halves
    && match cause
       case Committed(f) => f < |s.finals| && s.finals[f].preparedOffset == offset
           && s.finals[f].message.body == s.halves[offset].message.body
       case RolledBack(r) => r.kind == ROLLBACK_TYPE && r.commitLogOffset == offset && Matches(s.halves[offset], r)
  }

  ghost predicate AllJustified(s: Store) {
    forall i | 0 <= i < |s.deletions| :: Justified(s, s.deletions[i].0, s.deletions[i].1)
  }

  lemma ProcessKeepsJustified(s: Store, r: Request, env: Env)
    requires AllJustified(s)
    ensures AllJustified(Process(s, r, env).0)
  {
    var s' := Process(s, r, env).0;
    forall i | 0 <= i < |s'.deletions| ensures Justified(s', s'.deletions[i].0, s'.deletions[i].1) {
      if i < |s.deletions| { assert Justified(s, s.deletions[i].0, s.deletions[i].1); }
    }
  }

  /** No lost half message: in every run, with any outcome of the writes, every deletion is justified. */
  lemma {:induction false} NoLostHalfMessage(run: seq<Store>, requests: seq<Request>, envs: seq<Env>, i: nat)
    requires IsRun(run, requests, envs) && i < |run|
    ensures AllJustified(run[i])
  {
    if i > 0 {
      NoLostHalfMessage(run, requests, envs, i - 1);
      ProcessKeepsJustified(run[i - 1], requests[i - 1], envs[i - 1]);
    }
  }

  /**
   A slave broker, an unknown flag, a request out of its time and an unknown half message change
   nothing; the last one is still answered Success when it was a commit.
   */
  lemma RefusedChangesNothing(s: Store, r: Request, env: Env)
    requires || env.slave || (r.kind != COMMIT_TYPE && r.kind != ROLLBACK_TYPE)
             || Rejected(r, env) || r.commitLogOffset !in s.halves
    ensures Process(s, r, env).0 == s
    ensures Process(s, r, env).1 == Some(Success)
        <==> !env.slave && r.kind == COMMIT_TYPE && r.commitLogOffset !in s.halves
  {
  }

  /** A producer's own request is refused once the immunity time is over; a request from a check never is. */
  lemma LateProducerIsRefused(s: Store, r: Request, env: Env)
    requires !env.slave && (r.kind == COMMIT_TYPE || r.kind == ROLLBACK_TYPE) && r.commitLogOffset in s.halves
    ensures Process(s, r, env).1 == Some(IllegalOperation) <==> !r.fromCheck && env.expired
  {
  }

  /**
   A put that was only slow to flush or to replicate counts as stored; every other outcome stores
   nothing and is reported.
   */
  lemma SlowPutIsStored(s: Store, r: Request, env: Env)
    requires Reached(s.halves, r, env) && r.kind == COMMIT_TYPE && !Matches(s.halves[r.commitLogOffset], r)
    ensures var (s', code) := Process(s, r, env);
            match env.put
            case PutOk | FlushDiskTimeout | FlushSlaveTimeout | ReplicaNotAvailable =>
              |s'.finals| == |s.finals| + 1 && code == Some(Success)
            case ServiceDown => s' == s && code == Some(ServiceNotAvailable)
            case Illegal | PropertiesSizeExceeded | WheelTimerMsgIllegal => s' == s && code == Some(MessageIllegal)
            case _ => s' == s && code == Some(SystemError)
  {
  }

  /** A half message without its bookkeeping goes to the empty topic and queue 0. */
  lemma LostBookkeepingDefaults(h: Half, r: Request)
    requires REAL_TOPIC !in h.message.properties && REAL_QUEUE_ID !in h.message.properties
    ensures FinalOf(h, r).message.topic == "" && FinalOf(h, r).message.queueId == 0
  {
  }

  /** What is answered: Success exactly for what was done, or had nothing to do because it matched or is unknown. */
  lemma AnsweredSuccessIff(s: Store, r: Request, env: Env)
    requires !env.slave && (r.kind == COMMIT_TYPE || r.kind == ROLLBACK_TYPE) && !Rejected(r, env)
    ensures var known := r.commitLogOffset in s.halves;
            Process(s, r, env).1 == Some(Success) <==>
              || (r.kind == COMMIT_TYPE && (!known || Matches(s.halves[r.commitLogOffset], r) || Accepted(env.put)))
              || (r.kind == ROLLBACK_TYPE && known && Matches(s.halves[r.commitLogOffset], r))
  {
  }

  /**
   The inverted guard, exactly: a commit that reaches the check stores the final message if and
   only if the check failed and the put was accepted.
   */
  lemma CommitStoresIffCheckFailed(s: Store, r: Request, env: Env)
    requires !env.slave && r.kind == COMMIT_TYPE && r.commitLogOffset in s.halves && !Rejected(r, env)
    ensures Process(s, r, env).0.finals == s.finals + [FinalOf(s.halves[r.commitLogOffset], r)]
       <==> !Matches(s.halves[r.commitLogOffset], r) && Accepted(env.put)
    ensures Matches(s.halves[r.commitLogOffset], r) ==> Process(s, r, env) == (s, Some(Success))
  {
    if Process(s, r, env).0.finals == s.finals + [FinalOf(s.halves[r.commitLogOffset], r)] {
      assert |Process(s, r, env).0.finals| == |s.finals| + 1;
    }
  }
}
