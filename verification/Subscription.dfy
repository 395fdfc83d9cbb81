/** The subscription table of a consumer group: `update_subscription` of ConsumerGroupInfo. */
module Subscription {

  datatype Sub = Sub(topic: string, version: int, expression: string)

  type Table = map<string, Sub>

  function Topics(subs: set<Sub>): set<string> {
    set s | s in subs :: s.topic
  }

  /** Every entry is filed under its own topic. */
  ghost predicate Filed(table: Table) {
    forall t | t in table :: table[t].topic == t
  }

  /** The entry that topic `t` must end up with: the newest known, the old one unless something is strictly newer. */
  ghost predicate Newest(before: Table, subs: set<Sub>, t: string, entry: Sub) {
    && entry.topic == t
    && (entry in subs || (t in before && entry == before[t]))
    && (forall s | s in subs && s.topic == t :: s.version <= entry.version)
    && (t in before ==> before[t].version <= entry.version)
    && (t in before && entry != before[t] ==> before[t].version < entry.version)
  }

  /** What one reconciliation does, whatever the iteration order of the incoming set. */
  ghost predicate Reconciled(before: Table, subs: set<Sub>, after: Table, updated: bool) {
    && after.Keys == Topics(subs)
    && (forall t | t in after :: Newest(before, subs, t, after[t]))
    && (updated <==> before.Keys != after.Keys)
  }

  /** Halfway through the incoming set: `done` is merged, nothing is dropped yet. */
  ghost predicate Merging(before: Table, done: set<Sub>, table: Table) {
    && table.Keys == before.Keys + Topics(done)
    && (forall t | t in Topics(done) && t in table :: Newest(before, done, t, table[t]))
    && (forall t | t in table && t !in Topics(done) :: t in before && table[t] == before[t])
  }

  /** One incoming subscription against the table. */
  function Merge(table: Table, sub: Sub): Table {
    if sub.topic in table && sub.version <= table[sub.topic].version then table else table[sub.topic := sub]
  }

  lemma MergeKeepsMerging(before: Table, done: set<Sub>, table: Table, sub: Sub)
    requires Filed(before) && Merging(before, done, table)
    ensures Merging(before, done + {sub}, Merge(table, sub)) && Topics(done + {sub}) == Topics(done) + {sub.topic}
  {
    var done', table' := done + {sub}, Merge(table, sub);
    assert Topics(done') == Topics(done) + {sub.topic};
    forall t | t in Topics(done') && t in table' ensures Newest(before, done', t, table'[t]) {
      if t in Topics(done) {
        assert Newest(before, done, t, table[t]);
      } else {
        assert forall s | s in done :: s.topic in Topics(done);
      }
    }
  }

  lemma RetainReconciles(before: Table, subs: set<Sub>, merged: Table, after: Table, added: bool, updated: bool)
    requires Merging(before, subs, merged)
    requires after == map t | t in merged && t in Topics(subs) :: merged[t]
    requires added <==> merged.Keys != before.Keys
    requires updated <==> added || !(merged.Keys <= Topics(subs))
    ensures Reconciled(before, subs, after, updated) && Filed(after)
  {
  }

  class ConsumerGroupInfo {
    var table: Table

    constructor ()
      ensures table == map[]
    {
      table := map[];
    }

    method UpdateSubscription(subs: set<Sub>) returns (updated: bool)
      requires Filed(table)
      modifies this
      ensures Reconciled(old(table), subs, table, updated) && Filed(table)
    {
      updated := false;
      var topics: set<string> := {};
      var todo := subs;
      ghost var done: set<Sub> := {};
      while todo != {}
        invariant done + todo == subs
        invariant topics == Topics(done)
        invariant Merging(old(table), done, table)
        invariant updated <==> table.Keys != old(table).Keys
        decreases todo
      {
        var sub :| sub in todo;
        MergeKeepsMerging(old(table), done, table, sub);
        if sub.topic in table {
          if sub.version > table[sub.topic].version {
            table := table[sub.topic := sub];
          }
        } else {
          table := table[sub.topic := sub];
          updated := true;
        }
        topics := topics + {sub.topic};
        todo, done := todo - {sub}, done + {sub};
      }
      assert done == subs;
      ghost var merged, added := table, updated;
      updated := Retain(topics, updated);
      RetainReconciles(old(table), subs, merged, table, added, updated);
    }

    /** The `retain` that drops every topic the client no longer names. */
    method Retain(topics: set<string>, updated: bool) returns (u: bool)
      modifies this
      ensures table == map t | t in old(table) && t in topics :: old(table)[t]
      ensures u <==> updated || !(old(table).Keys <= topics)
    {
      u := updated;
      var keys := table.Keys;
      while keys != {}
        invariant keys <= table.Keys <= old(table).Keys
        invariant forall t | t in table :: table[t] == old(table)[t]
        invariant forall t | t in old(table) :: t in table <==> t in keys || t in topics
        invariant u <==> updated || exists t :: t in old(table) && t !in keys && t !in topics
        decreases keys
      {
        var t :| t in keys;
        if t !in topics {
          table := table - {t};
          u := true;
        }
        keys := keys - {t};
      }
    }
  }

  /** The versions that result do not depend on the iteration order. */
  lemma OrderDoesNotMatter(before: Table, subs: set<Sub>, a: Table, u: bool, b: Table, v: bool)
    requires Reconciled(before, subs, a, u) && Reconciled(before, subs, b, v)
    ensures a.Keys == b.Keys && u == v
    ensures forall t | t in a :: a[t].version == b[t].version
  {
    forall t | t in a ensures a[t].version == b[t].version {
      assert Newest(before, subs, t, a[t]) && Newest(before, subs, t, b[t]);
    }
  }

  /** Sending the same set again changes nothing and reports nothing. */
  lemma Idempotent(before: Table, subs: set<Sub>, a: Table, u: bool, b: Table, v: bool)
    requires Reconciled(before, subs, a, u) && Reconciled(a, subs, b, v)
    ensures b == a && !v
  {
    forall t | t in a ensures b[t] == a[t] {
      assert Newest(before, subs, t, a[t]) && Newest(a, subs, t, b[t]);
    }
  }

  /** While a topic stays subscribed its version never goes back, over any run of reconciliations. */
  lemma {:induction false} VersionsNeverDecrease(tables: seq<Table>, subs: seq<set<Sub>>, updated: seq<bool>, i: nat,
      j: nat, t: string)
    requires |tables| == |subs| + 1 == |updated| + 1 && i <= j < |tables|
    requires forall k | 0 <= k < |subs| :: Reconciled(tables[k], subs[k], tables[k + 1], updated[k])
    requires forall k | i <= k <= j :: t in tables[k]
    ensures tables[i][t].version <= tables[j][t].version
  {
    if i < j {
      VersionsNeverDecrease(tables, subs, updated, i, j - 1, t);
      assert Reconciled(tables[j - 1], subs[j - 1], tables[j - 1 + 1], updated[j - 1]);
      assert Newest(tables[j - 1], subs[j - 1], t, tables[j][t]);
    }
  }
}
