/**
 `PopInflightMessageCounter`: a two-level table, `topic@group` to queue id to number, updated in
 place. Every method is proved against the entry functions of Inflight, and keeps the table free
 of empty inner maps.
 */
module InflightCounter {
  import opened Inflight
  import opened Keys

  type Table = map<string, map<int, int>>

  /** The raw entry, 0 when there is none. */
  function Entry(table: Table, key: string, queue: int): int {
    if key in table && queue in table[key] then table[key][queue] else 0
  }

  /** No inner map is left empty. */
  ghost predicate Tidy(table: Table) {
    forall k | k in table :: table[k] != map[]
  }

  /** Every other entry is what it was. */
  ghost predicate OthersKept(table: Table, table': Table, key: string, queue: int) {
    forall k, q | (k, q) != (key, queue) :: Entry(table', k, q) == Entry(table, k, q)
  }

  /** `str::contains` */
  predicate Contains(s: string, part: string) {
    exists i | 0 <= i <= |s| :: StartsAt(s, part, i)
  }

  predicate StartsAt(s: string, part: string, i: nat)
    requires i <= |s|
  {
    part <= s[i..]
  }

  lemma {:induction false} LaterPartsAreSuffix(s: string) returns (i: nat)
    ensures |Parts(s)| == 2 ==> i < |s| && s[i + 1..] == Parts(s)[1] && s[..i] == Parts(s)[0]
    ensures |Parts(s)| == 1 ==> Parts(s)[0] == s
  {
    i := 0;
    if s != [] {
      var j := LaterPartsAreSuffix(s[1..]);
      if s[0] != AT {
        i := j + 1;
        if |Parts(s)| == 2 {
          assert s[i + 1..] == s[1..][j + 1..] && s[..i] == [s[0]] + s[1..][..j];
        } else {
          assert s == [s[0]] + s[1..];
        }
      }
    }
  }

  /** The substring test before the split is redundant: it never hides a matching key. */
  lemma SplitImpliesContains(key: string)
    requires SplitKey(key).Some?
    ensures Contains(key, SplitKey(key).value.0) && Contains(key, SplitKey(key).value.1)
  {
    var i := LaterPartsAreSuffix(key);
    var t, g := SplitKey(key).value.0, SplitKey(key).value.1;
    assert StartsAt(key, t, 0);
    assert StartsAt(key, g, i + 1);
  }

  predicate KeyOfGroup(key: string, group: string) {
    SplitKey(key).Some? && SplitKey(key).value.1 == group
  }

  predicate KeyOfTopic(key: string, topic: string) {
    SplitKey(key).Some? && SplitKey(key).value.0 == topic
  }

  /** Clearing a group reaches the entries of (topic, group) if and only if both names are plain. */
  lemma ClearReachesIffPlain(topic: string, group: string)
    ensures KeyOfGroup(GroupKey(topic, group), group) <==> Plain(topic) && Plain(group)
    ensures KeyOfTopic(GroupKey(topic, group), topic) <==> Plain(topic) && Plain(group)
  {
    SplitUndoesBuildIffPlain(topic, group);
  }

  /** What other requests do to the counter meanwhile. */
  datatype Change =
    | Pops(topic: string, group: string, queue: int, num: int)
    | Acks(topic: string, group: string, queue: int, popTime: int, delta: int)

  /** An entry after a list of changes. */
  function Changed(start: int, v: int, changes: seq<Change>, key: string, queue: int): int {
    if changes == [] then v else
      var c, w := changes[|changes| - 1], Changed(start, v, changes[..|changes| - 1], key, queue);
      if GroupKey(c.topic, c.group) != key || c.queue != queue then w
      else match c
        case Pops(_, _, _, num) => Inc(w, num)
        case Acks(_, _, _, popTime, delta) => if popTime < start then w else Dec(w, delta)
  }

  lemma {:induction false} ChangedTwice(start: int, v: int, a: seq<Change>, b: seq<Change>, key: string, queue: int)
    ensures Changed(start, v, a + b, key, queue) == Changed(start, Changed(start, v, a, key, queue), b, key, queue)
  {
    if b == [] {
      assert a + b == a;
    } else {
      assert (a + b)[..|a + b| - 1] == a + b[..|b| - 1];
      ChangedTwice(start, v, a, b[..|b| - 1], key, queue);
    }
  }

  /** The entry holds nothing but what happened after some moment during the call. */
  ghost predicate OnlyLater(start: int, changes: seq<Change>, key: string, queue: int, v: int) {
    exists j | 0 <= j <= |changes| :: v == Changed(start, 0, changes[j..], key, queue)
  }

  datatype Filter = ByGroup(group: string) | ByTopic(topic: string)

  predicate Hits(f: Filter, key: string) {
    match f
    case ByGroup(group) => KeyOfGroup(key, group)
    case ByTopic(topic) => KeyOfTopic(key, topic)
  }

  /** A clear of the keys that `hit` picks: those hold only what came later, all others everything. */
  ghost predicate ClearedAmid(start: int, before: Table, now: Table, changes: seq<Change>, hit: Filter) {
    forall k, q ::
      if Hits(hit, k) then OnlyLater(start, changes, k, q, Entry(now, k, q))
      else Entry(now, k, q) == Changed(start, Entry(before, k, q), changes, k, q)
  }

  /** The moment a key was removed, the beginning for a key that was not there. */
  function Cut(cuts: map<string, nat>, key: string): nat {
    if key in cuts then cuts[key] else 0
  }

  /** What one entry holds `n` changes into the call, with the keys `pending` still to come. */
  ghost predicate Halfway(
    start: int, before: Table, now: Table, changes: seq<Change>, n: nat,
    hit: Filter, pending: set<string>, cuts: map<string, nat>, k: string, q: int)
  {
    && Cut(cuts, k) <= n <= |changes|
    && if Hits(hit, k) && k !in pending
       then Entry(now, k, q) == Changed(start, 0, changes[Cut(cuts, k)..n], k, q)
       else Entry(now, k, q) == Changed(start, Entry(before, k, q), changes[..n], k, q)
  }

  ghost predicate AllHalfway(
    start: int, before: Table, now: Table, changes: seq<Change>, n: nat,
    hit: Filter, pending: set<string>, cuts: map<string, nat>)
  {
    forall k, q :: Halfway(start, before, now, changes, n, hit, pending, cuts, k, q)
  }

  /** At the snapshot. */
  lemma StartIsHalfway(start: int, before: Table, changes: seq<Change>, hit: Filter)
    ensures AllHalfway(start, before, before, changes, 0, hit, before.Keys, map[])
  {
    assert changes[0..0] == [] == changes[..0];
  }

  /** One change between two removals. */
  lemma ChangeKeepsHalfway(
    start: int, before: Table, now: Table, now': Table, changes: seq<Change>, n: nat,
    hit: Filter, pending: set<string>, cuts: map<string, nat>)
    requires AllHalfway(start, before, now, changes, n, hit, pending, cuts) && n < |changes|
    requires forall k, q :: Entry(now', k, q) == Changed(start, Entry(now, k, q), [changes[n]], k, q)
    ensures AllHalfway(start, before, now', changes, n + 1, hit, pending, cuts)
  {
    var n' := n + 1;
    forall k, q ensures Halfway(start, before, now', changes, n', hit, pending, cuts, k, q) {
      assert Halfway(start, before, now, changes, n, hit, pending, cuts, k, q);
      var cleared := Hits(hit, k) && k !in pending;
      var lo, v := if cleared then Cut(cuts, k) else 0, if cleared then 0 else Entry(before, k, q);
      assert changes[lo..n + 1] == changes[lo..n] + [changes[n]];
      assert changes[0..n] == changes[..n] && changes[0..n + 1] == changes[..n + 1];
      ChangedTwice(start, v, changes[lo..n], [changes[n]], k, q);
    }
  }

  /** One key of the snapshot is dealt with. */
  lemma RemovalKeepsHalfway(
    start: int, before: Table, now: Table, changes: seq<Change>, n: nat,
    hit: Filter, pending: set<string>, cuts: map<string, nat>, key: string)
    requires AllHalfway(start, before, now, changes, n, hit, pending, cuts) && n <= |changes|
    ensures var now' := if Hits(hit, key) then now - {key} else now;
            AllHalfway(start, before, now', changes, n, hit, pending - {key}, cuts[key := n])
  {
    var now', cuts' := if Hits(hit, key) then now - {key} else now, cuts[key := n];
    forall k, q ensures Halfway(start, before, now', changes, n, hit, pending - {key}, cuts', k, q) {
      assert Halfway(start, before, now, changes, n, hit, pending, cuts, k, q);
      if k == key && Hits(hit, key) { assert changes[n..n] == []; }
    }
  }

  lemma EndIsCleared(
    start: int, before: Table, now: Table, changes: seq<Change>, hit: Filter, cuts: map<string, nat>)
    requires AllHalfway(start, before, now, changes, |changes|, hit, {}, cuts)
    ensures ClearedAmid(start, before, now, changes, hit)
  {
    forall k, q
      ensures if Hits(hit, k) then OnlyLater(start, changes, k, q, Entry(now, k, q))
              else Entry(now, k, q) == Changed(start, Entry(before, k, q), changes, k, q)
    {
      assert Halfway(start, before, now, changes, |changes|, hit, {}, cuts, k, q);
      assert changes[..|changes|] == changes && changes[Cut(cuts, k)..|changes|] == changes[Cut(cuts, k)..];
    }
  }

  class PopInflightMessageCounter {
    const startTime: int
    var table: Table

    ghost predicate Valid()
      reads this
    {
      Tidy(table)
    }

    constructor (startTime: int)
      ensures Valid() && table == map[] && this.startTime == startTime
    {
      this.startTime := startTime;
      table := map[];
    }

    method Increment(topic: string, group: string, queue: int, num: int)
      requires Valid()
      modifies this
      ensures Valid()
      ensures var k := GroupKey(topic, group);
              Entry(table, k, queue) == Inc(Entry(old(table), k, queue), num) && OthersKept(old(table), table, k, queue)
      ensures num <= 0 ==> table == old(table)
    {
      if num <= 0 { return; }
      var key := GroupKey(topic, group);
      var inner := if key in table then table[key] else map[];
      var v := if queue in inner then inner[queue] else 0;
      inner := inner[queue := v + num];
      assert queue in inner;
      table := table[key := inner];
    }

    method Decrement(topic: string, group: string, popTime: int, queue: int, delta: int)
      requires Valid()
      modifies this
      ensures Valid()
      ensures var k := GroupKey(topic, group);
              && Entry(table, k, queue) == (if popTime < startTime then Entry(old(table), k, queue)
                  else Dec(Entry(old(table), k, queue), delta))
              && OthersKept(old(table), table, k, queue)
    {
      if popTime < startTime { return; }
      DecrementInternal(topic, group, queue, delta);
    }

    method DecrementInternal(topic: string, group: string, queue: int, delta: int)
      requires Valid()
      modifies this
      ensures Valid()
      ensures var k := GroupKey(topic, group);
              && Entry(table, k, queue) == Dec(Entry(old(table), k, queue), delta)
              && OthersKept(old(table), table, k, queue)
    {
      var key := GroupKey(topic, group);
      if key in table {
        var inner := table[key];
        if queue in inner {
          var before := inner[queue];
          inner := inner[queue := before - delta];
          if before <= 0 {
            inner := inner - {queue};
          }
        }
        assert forall q | q in table[key] && q != queue :: q in inner;
        table := table[key := inner];
        if inner == map[] {
          table := table - {key};
        }
      }
    }

    method Clear(topic: string, group: string, queue: int)
      requires Valid()
      modifies this
      ensures Valid()
      ensures var k := GroupKey(topic, group);
              && (k in table ==> queue !in table[k]) && OthersKept(old(table), table, k, queue)
    {
      var key := GroupKey(topic, group);
      if key in table {
        var inner := table[key] - {queue};
        assert forall q | q in table[key] && q != queue :: q in inner;
        table := table[key := inner];
        if inner == map[] {
          table := table - {key};
        }
      }
    }

    /** Other requests run from the `n`-th to the `later`-th change. */
    method Meanwhile(
      changes: seq<Change>, n: nat, later: nat,
      ghost before: Table, ghost hit: Filter, ghost pending: set<string>, ghost cuts: map<string, nat>)
      requires Valid() && n <= later <= |changes|
      requires AllHalfway(startTime, before, table, changes, n, hit, pending, cuts)
      modifies this
      ensures Valid() && AllHalfway(startTime, before, table, changes, later, hit, pending, cuts)
      ensures n == later ==> table == old(table)
    {
      for i := n to later
        invariant Valid() && AllHalfway(startTime, before, table, changes, i, hit, pending, cuts)
        invariant i == n ==> table == old(table)
      {
        ghost var was := table;
        assert [changes[i]][..0] == [];
        match changes[i] {
          case Pops(topic, group, queue, num) => Increment(topic, group, queue, num);
          case Acks(topic, group, queue, popTime, delta) => Decrement(topic, group, popTime, queue, delta);
        }
        assert forall k, q :: Entry(table, k, q) == Changed(startTime, Entry(was, k, q), [changes[i]], k, q);
        ChangeKeepsHalfway(startTime, before, was, table, changes, i, hit, pending, cuts);
      }
    }

    /**
     A snapshot of the keys, then one removal at a time; `changes` is what other requests do to
     the counter from the snapshot on, in between the removals.
     */
    method ClearByGroup(group: string, changes: seq<Change>)
      requires Valid()
      modifies this
      ensures Valid() && ClearedAmid(startTime, old(table), table, changes, ByGroup(group))
      ensures changes == [] ==> table == map k | k in old(table) && !KeyOfGroup(k, group) :: old(table)[k]
    {
      var keys, n := table.Keys, 0;
      ghost var before, hit, cuts: map<string, nat> := table, ByGroup(group), map[];
      StartIsHalfway(startTime, before, changes, hit);
      while keys != {}
        invariant Valid() && n <= |changes|
        invariant AllHalfway(startTime, before, table, changes, n, hit, keys, cuts)
        invariant changes == [] ==> table == map k | k in before && (k in keys || !Hits(hit, k)) :: before[k]
        decreases keys
      {
        var later: nat :| n <= later <= |changes|;
        Meanwhile(changes, n, later, before, hit, keys, cuts);
        n := later;
        var key :| key in keys;
        RemovalKeepsHalfway(startTime, before, table, changes, n, hit, keys, cuts, key);
        if Hits(hit, key) { SplitImpliesContains(key); }
        if Contains(key, group) {
          match SplitKey(key)
          case Some(names) =>
            if names.1 == group { table := table - {key}; }
          case None =>
        }
        keys, cuts := keys - {key}, cuts[key := n];
      }
      Meanwhile(changes, n, |changes|, before, hit, keys, cuts);
      EndIsCleared(startTime, before, table, changes, hit, cuts);
    }

    method ClearByTopic(topic: string, changes: seq<Change>)
      requires Valid()
      modifies this
      ensures Valid() && ClearedAmid(startTime, old(table), table, changes, ByTopic(topic))
      ensures changes == [] ==> table == map k | k in old(table) && !KeyOfTopic(k, topic) :: old(table)[k]
    {
      var keys, n := table.Keys, 0;
      ghost var before, hit, cuts: map<string, nat> := table, ByTopic(topic), map[];
      StartIsHalfway(startTime, before, changes, hit);
      while keys != {}
        invariant Valid() && n <= |changes|
        invariant AllHalfway(startTime, before, table, changes, n, hit, keys, cuts)
        invariant changes == [] ==> table == map k | k in before && (k in keys || !Hits(hit, k)) :: before[k]
        decreases keys
      {
        var later: nat :| n <= later <= |changes|;
        Meanwhile(changes, n, later, before, hit, keys, cuts);
        n := later;
        var key :| key in keys;
        RemovalKeepsHalfway(startTime, before, table, changes, n, hit, keys, cuts, key);
        if Hits(hit, key) { SplitImpliesContains(key); }
        if Contains(key, topic) {
          match SplitKey(key)
          case Some(names) =>
            if names.0 == topic { table := table - {key}; }
          case None =>
        }
        keys, cuts := keys - {key}, cuts[key := n];
      }
      Meanwhile(changes, n, |changes|, before, hit, keys, cuts);
      EndIsCleared(startTime, before, table, changes, hit, cuts);
    }

    method Get(topic: string, group: string, queue: int) returns (num: int)
      ensures num == Reported(Entry(table, GroupKey(topic, group), queue))
    {
      var key := GroupKey(topic, group);
      if key in table && queue in table[key] {
        return if table[key][queue] > 0 then table[key][queue] else 0;
      }
      return 0;
    }
  }
}
