/** One entry of the in-flight counter, an absent entry counting as 0. */
module Inflight {
  import opened Prelude

  function Inc(v: int, n: int): int {
    if n <= 0 then v else v + n
  }

  /** Subtract, unless the value was already spent: then the entry is removed. */
  function Dec(v: int, d: int): int {
    if v <= 0 then 0 else v - d
  }

  function Reported(v: int): int {
    Max(v, 0)
  }

  /**
   What happens to one entry. A decrement carries the pop time of its messages: those popped
   before the counter's start time are not subtracted.
   */
  datatype Op = Add(n: nat) | Sub(popTime: int, d: nat) | Wipe

  function Effective(start: int, op: Op): nat {
    if op.Sub? && op.popTime >= start then op.d else 0
  }

  /** The entry. */
  function Value(start: int, ops: seq<Op>): int {
    if ops == [] then 0 else
      var v, op := Value(start, ops[..|ops| - 1]), ops[|ops| - 1];
      match op
      case Add(n) => Inc(v, n)
      case Sub(popTime, d) => if popTime < start then v else Dec(v, d)
      case Wipe => 0
  }

  /** A counter that never goes below zero, fed the same history. */
  function Saturating(start: int, ops: seq<Op>): nat {
    if ops == [] then 0 else
      var v, op := Saturating(start, ops[..|ops| - 1]), ops[|ops| - 1];
      match op
      case Add(n) => v + n
      case Sub(_, _) => Max(v - Effective(start, op), 0)
      case Wipe => 0
  }

  /** Increments minus effective decrements since the last wipe. */
  function Net(start: int, ops: seq<Op>): int {
    if ops == [] then 0 else
      var v, op := Net(start, ops[..|ops| - 1]), ops[|ops| - 1];
      match op
      case Add(n) => v + n
      case Sub(_, _) => v - Effective(start, op)
      case Wipe => 0
  }

  /** Acknowledgements never exceed deliveries, at any point of the history. */
  predicate NeverOverdrawn(start: int, ops: seq<Op>) {
    forall i | 0 <= i <= |ops| :: 0 <= Net(start, ops[..i])
  }

  lemma {:induction false} ValueBetween(start: int, ops: seq<Op>)
    ensures Net(start, ops) <= Value(start, ops) <= Saturating(start, ops)
  {
    if ops != [] { ValueBetween(start, ops[..|ops| - 1]); }
  }

  /** The reported number lies between the clipped net and the saturating counter. */
  lemma Sandwich(start: int, ops: seq<Op>)
    ensures Max(0, Net(start, ops)) <= Reported(Value(start, ops)) <= Saturating(start, ops)
  {
    ValueBetween(start, ops);
  }

  /** The two ends meet as long as the history is never overdrawn. */
  lemma {:induction false} SandwichMeets(start: int, ops: seq<Op>)
    requires NeverOverdrawn(start, ops)
    ensures Net(start, ops) == Reported(Value(start, ops)) == Value(start, ops) == Saturating(start, ops)
  {
    assert ops[..|ops|] == ops;
    if ops != [] {
      var before := ops[..|ops| - 1];
      forall i | 0 <= i <= |before| ensures 0 <= Net(start, before[..i]) {
        assert before[..i] == ops[..i];
      }
      SandwichMeets(start, before);
    }
  }

  /**
   The exact drift of the source's rule: one overdrawing decrement leaves the entry negative, and
   then the saturating counter is ahead by exactly the overdraft after the next increment.
   */
  lemma OverdraftIsRemembered(start: int, ops: seq<Op>, t: int, d: nat, n: nat)
    requires NeverOverdrawn(start, ops) && t >= start && 0 < Value(start, ops) < d
    ensures var history := ops + [Sub(t, d), Add(n)];
            Saturating(start, history) - Value(start, history) == d - Value(start, ops)
  {
    SandwichMeets(start, ops);
    var history := ops + [Sub(t, d), Add(n)];
    var middle := ops + [Sub(t, d)];
    assert history[..|history| - 1] == middle && middle[..|middle| - 1] == ops;
  }

  /** The next effective decrement forgets the overdraft: the entry is gone and counting starts anew. */
  lemma OverdraftIsForgotten(start: int, ops: seq<Op>, t: int, d: nat, n: nat)
    requires Value(start, ops) <= 0 && t >= start
    ensures Value(start, ops + [Sub(t, d), Add(n)]) == n
  {
    var history, middle := ops + [Sub(t, d), Add(n)], ops + [Sub(t, d)];
    assert history[..|history| - 1] == middle && middle[..|middle| - 1] == ops;
  }

  /** Messages popped before the start time do not count down. */
  lemma EarlyAcksDoNotCount(start: int, ops: seq<Op>, t: int, d: nat)
    requires t < start
    ensures Value(start, ops + [Sub(t, d)]) == Value(start, ops)
  {
    assert (ops + [Sub(t, d)])[..|ops|] == ops;
  }
}
