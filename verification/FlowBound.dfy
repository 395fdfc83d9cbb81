/**
 Flow control: with the threshold on, the reported in-flight number of a queue never exceeds
 the threshold by more than one batch, whatever acknowledgements and scans do in between.
 */
module FlowBound {
  import opened Prelude
  import opened Inflight
  import opened PopQueue
  import opened PopShape

  /** The most one pop can add: 32 messages, or one oversized batch unit. */
  function OnePop(cfg: Config): int {
    Max(MAX_POP, cfg.maxBatch)
  }

  function Bound(cfg: Config): int {
    Max(cfg.threshold, 0) + OnePop(cfg)
  }

  /** The worker has passed the threshold test and has not counted yet. */
  predicate BetweenTestAndCount(p: Phase) {
    p.Admitted? || p.Positioned? || p.Fetched? || p.Recorded?
  }

  predicate Inv(cfg: Config, s: KeyState) {
    cfg.limited ==>
      && Reported(s.q.inflight) <= Bound(cfg)
      && (s.crit.Some? && BetweenTestAndCount(s.crit.value) ==> Reported(s.q.inflight) <= Max(cfg.threshold, 0))
  }

  lemma DecNeverRaises(v: int, d: nat)
    ensures Reported(Dec(v, d)) <= Reported(v)
  {
  }

  lemma StepKeepsInv(cfg: Config, s: KeyState, e: KeyEvent)
    requires Shape(cfg, s) && Inv(cfg, s) && CanStep(cfg, s, e)
    ensures Inv(cfg, Step(cfg, s, e))
  {
    match e
    case Outside(Ack(_, offsets, _, _)) => DecNeverRaises(s.q.inflight, |offsets|);
    case Do(c) =>
      if s.crit.value.Recorded? {
        assert s.crit.value.count <= OnePop(cfg);
      }
    case _ =>
  }
}
