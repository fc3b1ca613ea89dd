/**
 Grouping in the manner of d3.groups / d3.rollups: elements are collected
 under their key in an insertion-ordered map, so the groups come out in the
 order in which their keys first occur, and each group keeps its members in
 input order. Nothing is sorted here.
 */
module Grouping {
  import opened Seqs

  /** One entry of d3.groups: a key and the elements that carry it. */
  datatype Group<K, V> = Group(key: K, members: seq<V>)

  function KeyOf<K, V>(g: Group<K, V>): K
  {
    g.key
  }

  /** The keys of the groups, in group order. */
  function Keys<K, V>(gs: seq<Group<K, V>>): seq<K>
  {
    Project(gs, KeyOf)
  }

  /** The predicate "has key `k`", used to name the members a group must hold. */
  function KeyIs<K(==), V>(key: V -> K, k: K): V -> bool
  {
    x => key(x) == k
  }

  /** The sum of `f` over the members of a group (d3.sum over one bucket). */
  function GroupSum<K, V>(f: V -> int): Group<K, V> -> int
  {
    (g: Group<K, V>) => SumOf(g.members, f)
  }

  /**
   Adds `v` under key `k`: appended to the existing group with that key, or
   as a new group at the end when the key has not been seen yet.
   */
  function Append<K(==), V>(gs: seq<Group<K, V>>, k: K, v: V): (r: seq<Group<K, V>>)
    requires Distinct(Keys(gs))
    ensures k in Keys(gs) ==> |r| == |gs|
    ensures k !in Keys(gs) ==> r == gs + [Group(k, [v])]
    ensures forall i :: 0 <= i < |gs| ==>
      r[i].key == gs[i].key &&
      r[i].members == if gs[i].key == k then gs[i].members + [v] else gs[i].members
  {
    if k !in Keys(gs) then gs + [Group(k, [v])]
    else
      var init, last := gs[..|gs| - 1], gs[|gs| - 1];
      KeysOfInit(gs, k);
      if last.key == k then init + [Group(k, last.members + [v])]
      else Append(init, k, v) + [last]
  }

  /** The keys of all groups but the last: still distinct, and holding every key but the last one. */
  lemma KeysOfInit<K, V>(gs: seq<Group<K, V>>, k: K)
    requires gs != [] && Distinct(Keys(gs))
    ensures Keys(gs) == Keys(gs[..|gs| - 1]) + [gs[|gs| - 1].key]
    ensures Distinct(Keys(gs[..|gs| - 1]))
    ensures k in Keys(gs) && k != gs[|gs| - 1].key ==> k in Keys(gs[..|gs| - 1])
    ensures forall i :: 0 <= i < |gs| - 1 ==> gs[i].key != gs[|gs| - 1].key
  {
    var init := gs[..|gs| - 1];
    assert forall i :: 0 <= i < |init| ==> Keys(init)[i] == Keys(gs)[i];
    assert Keys(gs) == Keys(init) + [gs[|gs| - 1].key];
    forall i | 0 <= i < |gs| - 1
      ensures gs[i].key != gs[|gs| - 1].key
    {
      assert Keys(gs)[i] != Keys(gs)[|gs| - 1];
    }
  }

  /** Appending adds exactly `f(v)` to the total over all groups. */
  lemma {:induction false} AppendSum<K, V>(gs: seq<Group<K, V>>, k: K, v: V, f: V -> int)
    requires Distinct(Keys(gs))
    ensures SumOf(Append(gs, k, v), GroupSum(f)) == SumOf(gs, GroupSum(f)) + f(v)
    decreases |gs|
  {
    var r := Append(gs, k, v);
    if k !in Keys(gs) {
      assert r[..|r| - 1] == gs;
      assert [v][..0] == [];
      assert GroupSum(f)(Group(k, [v])) == SumOf([v], f) == f(v);
    } else {
      var init, last := gs[..|gs| - 1], gs[|gs| - 1];
      KeysOfInit(gs, k);
      if last.key == k {
        assert r == init + [Group(k, last.members + [v])];
        assert r[..|r| - 1] == init;
        assert (last.members + [v])[..|last.members|] == last.members;
      } else {
        AppendSum(init, k, v, f);
        assert r == Append(init, k, v) + [last];
        assert r[..|r| - 1] == Append(init, k, v);
      }
    }
  }

  /** A key that no element carries selects nothing. */
  lemma FilterAbsentKey<K, V(!new)>(xs: seq<V>, key: V -> K, k: K)
    requires k !in Project(xs, key)
    ensures Filter(xs, KeyIs(key, k)) == []
  {
  }

  /** The inductive step of GroupBy for the keys: they stay the first appearances. */
  lemma GroupByStepKeys<K(!new), V(!new)>(xs: seq<V>, key: V -> K, gs: seq<Group<K, V>>)
    requires xs != []
    requires Keys(gs) == FirstAppearances(Project(xs[..|xs| - 1], key))
    ensures Distinct(Keys(gs))
    ensures Keys(Append(gs, key(xs[|xs| - 1]), xs[|xs| - 1])) == FirstAppearances(Project(xs, key))
  {
    var init, v := xs[..|xs| - 1], xs[|xs| - 1];
    var k := key(v);
    var r := Append(gs, k, v);
    var ps := Project(xs, key);
    assert ps[..|ps| - 1] == Project(init, key);
    assert ps[|ps| - 1] == k;
    if k !in Keys(gs) {
      assert Keys(r) == Keys(gs) + [k];
    } else {
      assert Keys(r) == Keys(gs);
    }
  }

  /** The inductive step of GroupBy for the members: each group holds exactly its key's elements. */
  lemma GroupByStepMembers<K(!new), V(!new)>(xs: seq<V>, key: V -> K, gs: seq<Group<K, V>>)
    requires xs != []
    requires Distinct(Keys(gs))
    requires forall x :: x in Keys(gs) <==> x in Project(xs[..|xs| - 1], key)
    requires forall i :: 0 <= i < |gs| ==> gs[i].members == Filter(xs[..|xs| - 1], KeyIs(key, gs[i].key))
    requires forall i :: 0 <= i < |gs| ==> gs[i].members != []
    ensures var r := Append(gs, key(xs[|xs| - 1]), xs[|xs| - 1]);
      forall i :: 0 <= i < |r| ==> r[i].members == Filter(xs, KeyIs(key, r[i].key)) && r[i].members != []
  {
    var init, v := xs[..|xs| - 1], xs[|xs| - 1];
    var k := key(v);
    var r := Append(gs, k, v);
    assert xs == init + [v];
    forall i | 0 <= i < |r|
      ensures r[i].members == Filter(xs, KeyIs(key, r[i].key)) && r[i].members != []
    {
      if i < |gs| {
        FilterSnoc(init, v, KeyIs(key, gs[i].key));
      } else {
        assert k !in Keys(gs);
        assert r[i] == Group(k, [v]);
        FilterAbsentKey(init, key, k);
        FilterSnoc(init, v, KeyIs(key, k));
      }
    }
  }

  /** The inductive step of GroupBy: adding the last element keeps all three of its guarantees. */
  lemma GroupByStep<K(!new), V(!new)>(xs: seq<V>, key: V -> K, gs: seq<Group<K, V>>)
    requires xs != []
    requires Keys(gs) == FirstAppearances(Project(xs[..|xs| - 1], key))
    requires forall i :: 0 <= i < |gs| ==> gs[i].members == Filter(xs[..|xs| - 1], KeyIs(key, gs[i].key))
    requires forall i :: 0 <= i < |gs| ==> gs[i].members != []
    ensures Distinct(Keys(gs))
    ensures var r := Append(gs, key(xs[|xs| - 1]), xs[|xs| - 1]);
      && Keys(r) == FirstAppearances(Project(xs, key))
      && (forall i :: 0 <= i < |r| ==> r[i].members == Filter(xs, KeyIs(key, r[i].key)))
      && (forall i :: 0 <= i < |r| ==> r[i].members != [])
  {
    GroupByStepKeys(xs, key, gs);
    GroupByStepMembers(xs, key, gs);
  }

  /**
   d3.groups(xs, key): one group per distinct key, in order of first
   appearance, each holding exactly the elements with that key, in order.
   */
  function GroupBy<K(==, !new), V(!new)>(xs: seq<V>, key: V -> K): (gs: seq<Group<K, V>>)
    ensures Keys(gs) == FirstAppearances(Project(xs, key))
    ensures forall i :: 0 <= i < |gs| ==> gs[i].members == Filter(xs, KeyIs(key, gs[i].key))
    ensures forall i :: 0 <= i < |gs| ==> gs[i].members != []
  {
    if xs == [] then []
    else
      var gs := GroupBy(xs[..|xs| - 1], key);
      GroupByStep(xs, key, gs);
      Append(gs, key(xs[|xs| - 1]), xs[|xs| - 1])
  }

  /** Grouping conserves the sum: the group totals add up to the total over all elements. */
  lemma {:induction false} GroupByConservesSum<K(!new), V(!new)>(xs: seq<V>, key: V -> K, f: V -> int)
    ensures SumOf(GroupBy(xs, key), GroupSum(f)) == SumOf(xs, f)
    decreases |xs|
  {
    if xs != [] {
      var init, v := xs[..|xs| - 1], xs[|xs| - 1];
      var gs := GroupBy(init, key);
      GroupByStep(xs, key, gs);
      AppendSum(gs, key(v), v, f);
      GroupByConservesSum(init, key, f);
    }
  }
}
