/**
 The text keys of the protocol: `topic@group` of the offset tables and the in-flight counter,
 `topic@group@queue` of the queue locks and the merge service.
 */
module Keys {
  import opened Prelude
  import Decimal

  const AT := '@'

  predicate Plain(s: string) {
    AT !in s
  }

  /** `build_key` */
  function GroupKey(topic: string, group: string): string {
    topic + [AT] + group
  }

  /** `build_lock_key` */
  function LockKey(topic: string, group: string, queue: int): string {
    topic + [AT] + group + [AT] + Decimal.Text(queue)
  }

  /** `str::split('@')` */
  function Parts(s: string): (r: seq<string>)
    ensures r != []
  {
    if s == [] then [""]
    else if s[0] == AT then [""] + Parts(s[1..])
    else
      var rest := Parts(s[1..]);
      [[s[0]] + rest[0]] + rest[1..]
  }

  /** `split_key` */
  function SplitKey(key: string): Option<(string, string)> {
    var parts := Parts(key);
    if |parts| == 2 then Some((parts[0], parts[1])) else None
  }

  lemma {:induction false} PartsOfPlain(s: string)
    requires Plain(s)
    ensures Parts(s) == [s]
  {
    if s != [] {
      PartsOfPlain(s[1..]);
      assert [s[0]] + s[1..] == s;
    }
  }

  /** A plain prefix up to a separator is the first part. */
  lemma {:induction false} PartsAtFirst(a: string, b: string)
    requires Plain(a)
    ensures Parts(a + [AT] + b) == [a] + Parts(b)
  {
    var s := a + [AT] + b;
    if a == [] {
      assert s[1..] == b;
    } else {
      assert s[1..] == a[1..] + [AT] + b;
      PartsAtFirst(a[1..], b);
      assert Parts(s[1..]) == [a[1..]] + Parts(b);
      assert [a[0]] + a[1..] == a && Parts(s[1..])[1..] == Parts(b);
    }
  }

  lemma {:induction false} MorePartsThanOne(s: string)
    requires !Plain(s)
    ensures |Parts(s)| >= 2
  {
    if s[0] != AT { MorePartsThanOne(s[1..]); }
  }

  /** One separator more means one part more, wherever the separators are. */
  lemma {:induction false} PartsAdd(a: string, b: string)
    ensures |Parts(a + [AT] + b)| == |Parts(a)| + |Parts(b)|
  {
    var s := a + [AT] + b;
    if a == [] {
      assert s[1..] == b;
    } else {
      assert s[1..] == a[1..] + [AT] + b;
      PartsAdd(a[1..], b);
    }
  }

  /** `split_key` undoes `build_key` if and only if neither name holds a separator. */
  lemma SplitUndoesBuildIffPlain(topic: string, group: string)
    ensures SplitKey(GroupKey(topic, group)) == Some((topic, group)) <==> Plain(topic) && Plain(group)
    ensures SplitKey(GroupKey(topic, group)).Some? <==> Plain(topic) && Plain(group)
  {
    PartsAdd(topic, group);
    if Plain(topic) && Plain(group) {
      PartsAtFirst(topic, group);
      PartsOfPlain(group);
    } else if Plain(topic) {
      MorePartsThanOne(group);
    } else {
      MorePartsThanOne(topic);
    }
  }

  lemma {:induction false} FirstSeparator(s: string) returns (a: string, b: string)
    requires !Plain(s)
    ensures s == a + [AT] + b && Plain(a)
  {
    if s[0] == AT {
      a, b := [], s[1..];
    } else {
      a, b := FirstSeparator(s[1..]);
      a := [s[0]] + a;
    }
  }

  ghost predicate SharesKey(topic: string, group: string) {
    exists t, g :: (t, g) != (topic, group) && GroupKey(t, g) == GroupKey(topic, group)
  }

  /** Two names share a counter if and only if one of them holds a separator. */
  lemma SharesKeyIffNotPlain(topic: string, group: string)
    ensures SharesKey(topic, group) <==> !Plain(topic) || !Plain(group)
  {
    if !Plain(topic) {
      var a, b := FirstSeparator(topic);
      assert GroupKey(a, b + [AT] + group) == GroupKey(topic, group);
    } else if !Plain(group) {
      var a, b := FirstSeparator(group);
      assert GroupKey(topic + [AT] + a, b) == GroupKey(topic, group);
      assert AT in topic + [AT] + a;
    } else {
      forall t, g | GroupKey(t, g) == GroupKey(topic, group) ensures (t, g) == (topic, group) {
        SplitUndoesBuildIffPlain(topic, group);
        SplitUndoesBuildIffPlain(t, g);
      }
    }
  }

  /** On plain names the lock key determines topic, group and queue. */
  lemma LockKeyInjective(t: string, g: string, q: int, t': string, g': string, q': int)
    requires Plain(t) && Plain(g) && Plain(t') && Plain(g')
    requires LockKey(t, g, q) == LockKey(t', g', q')
    ensures t == t' && g == g' && q == q'
  {
    LockKeyParts(t, g, q);
    LockKeyParts(t', g', q');
    assert [t, g, Decimal.Text(q)][0] == t && [t, g, Decimal.Text(q)][1] == g
        && [t, g, Decimal.Text(q)][2] == Decimal.Text(q);
    Decimal.TextInjective(q, q');
  }

  lemma LockKeyParts(t: string, g: string, q: int)
    requires Plain(t) && Plain(g)
    ensures Parts(LockKey(t, g, q)) == [t, g, Decimal.Text(q)]
  {
    var n := Decimal.Text(q);
    assert Plain(n) by {
      if q < 0 { assert n == "-" + Decimal.NatText(-q); }
    }
    assert LockKey(t, g, q) == t + [AT] + (g + [AT] + n);
    PartsAtFirst(t, g + [AT] + n);
    PartsAtFirst(g, n);
    PartsOfPlain(n);
  }

  /**
   The ordered visibility change asks for (group, topic) where pop asks for (topic, group): it
   takes the same lock if and only if the two names are equal.
   */
  lemma SwappedLockIsAnother(t: string, g: string, q: int)
    requires Plain(t) && Plain(g)
    ensures LockKey(g, t, q) == LockKey(t, g, q) <==> t == g
  {
    if LockKey(g, t, q) == LockKey(t, g, q) { LockKeyInjective(g, t, q, t, g, q); }
  }
}
