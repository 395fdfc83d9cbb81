/** The rotating queue order `(random + i) % n` shared by pop and notification. */
module Rotation {
  import opened Prelude

  /** Queue counts of the topics, None when there is no such topic. */
  datatype Topics = Topics(main: nat, retry: Option<nat>, retryV1: Option<nat>)

  function StopAt(random: nat, n: nat, i: nat): (queue: nat)
    requires 0 < n
    ensures queue < n
  {
    (random + i) % n
  }

  lemma {:induction false} ModShift(n: nat, q: nat, x: nat)
    requires x < n
    ensures (n * q + x) % n == x
  {
    if q > 0 {
      ModShift(n, q - 1, x);
      var y := n * (q - 1) + x;
      assert n * q + x == y + n;
      assert (y + n) % n == y % n by { ModAddOne(y, n); }
    }
  }

  lemma ModAddOne(y: nat, n: nat)
    requires 0 < n
    ensures (y + n) % n == y % n
  {
    var q, r := y / n, y % n;
    assert y + n == n * (q + 1) + r;
    DivUnique(y + n, n, q + 1, r);
  }

  lemma {:induction false} MulAtLeast(n: nat, d: nat)
    requires 1 <= d
    ensures n * d >= n
  {
    if d > 1 {
      MulAtLeast(n, d - 1);
      assert n * d == n * (d - 1) + n;
    }
  }

  lemma DivUnique(a: nat, n: nat, q: int, r: nat)
    requires 0 < n && a == n * q + r && r < n
    ensures a % n == r
  {
    var d := q - a / n;
    assert n * d == a % n - r by { assert n * d == n * q - n * (a / n); }
    if d >= 1 { MulAtLeast(n, d); }
    if d <= -1 { MulAtLeast(n, -d); }
  }

  /** The i-th stop, written without a remainder of a sum. */
  lemma Stop(random: nat, n: nat, i: nat)
    requires i < n
    ensures StopAt(random, n, i) == if random % n + i < n then random % n + i else random % n + i - n
  {
    var q, r := random / n, random % n;
    if r + i < n {
      assert random + i == n * q + (r + i);
      ModShift(n, q, r + i);
    } else {
      assert random + i == n * (q + 1) + (r + i - n);
      ModShift(n, q + 1, r + i - n);
    }
  }

  /** No stop comes twice in one round. */
  lemma StopsDiffer(random: nat, n: nat, i: nat, j: nat)
    requires i < j < n
    ensures StopAt(random, n, i) != StopAt(random, n, j)
  {
    Stop(random, n, i);
    Stop(random, n, j);
  }

  /** One round reaches every queue. */
  lemma StopOf(random: nat, n: nat, queue: nat) returns (i: nat)
    requires queue < n
    ensures i < n && StopAt(random, n, i) == queue
  {
    var r := random % n;
    i := if queue >= r then queue - r else queue + n - r;
    Stop(random, n, i);
  }
}
