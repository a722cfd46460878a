/**
 * Grouping into an insertion-ordered dictionary, the pattern behind both
 * `matches[match_key]` and `markets[market_key]` in `find_arbitrage_opportunities`:
 * a key seen for the first time creates a group, whose header is taken from
 * that first element; every element's items are appended to its key's group;
 * elements without a key are skipped. The input is given as the sequence of
 * what each element contributes.
 */
module Grouping {

  /** One dictionary entry: its key, the fields fixed at creation and the appended items. */
  datatype Group<K, H, V> = Group(key: K, header: H, items: seq<V>)

  /** What one input element contributes: nothing, or items under a key. */
  datatype Entry<K, H, V> = Skip | Add(key: K, header: H, items: seq<V>)

  predicate HasKey<K(==), H, V>(e: Entry<K, H, V>, k: K)
  {
    e.Add? && e.key == k
  }

  /** Dictionary lookup: the position of the group for `k`, or -1. */
  function IndexOfKey<K(==), H, V>(gs: seq<Group<K, H, V>>, k: K): (i: int)
    ensures -1 <= i < |gs|
    ensures i == -1 <==> forall j :: 0 <= j < |gs| ==> gs[j].key != k
    ensures 0 <= i ==> gs[i].key == k && forall j :: 0 <= j < i ==> gs[j].key != k
  {
    if |gs| == 0 then -1
    else if gs[0].key == k then 0
    else
      var j := IndexOfKey(gs[1..], k);
      if j == -1 then -1 else j + 1
  }

  /** One iteration of the grouping loop. */
  function Place<K(==), H, V>(gs: seq<Group<K, H, V>>, e: Entry<K, H, V>): seq<Group<K, H, V>>
  {
    if e.Skip? then gs
    else
      var i := IndexOfKey(gs, e.key);
      if i == -1 then gs + [Group(e.key, e.header, e.items)]
      else gs[i := gs[i].(items := gs[i].items + e.items)]
  }

  /** The groups built from `es` in input order. */
  function GroupAll<K(==), H, V>(es: seq<Entry<K, H, V>>): seq<Group<K, H, V>>
  {
    if |es| == 0 then [] else Place(GroupAll(es[..|es| - 1]), es[|es| - 1])
  }

  /** Reference: the first input position carrying key `k`, or -1. */
  function FirstIndex<K(==), H, V>(es: seq<Entry<K, H, V>>, k: K): (f: int)
    ensures -1 <= f < |es|
  {
    if |es| == 0 then -1
    else
      var n := |es| - 1;
      var f := FirstIndex(es[..n], k);
      if f >= 0 then f else if HasKey(es[n], k) then n else -1
  }

  /** FirstIndex finds the first element with key `k`, and -1 exactly when there is none. */
  lemma {:induction false} FirstIndexIsFirst<K, H, V>(es: seq<Entry<K, H, V>>, k: K)
    ensures var f := FirstIndex(es, k);
      && (f == -1 <==> forall j :: 0 <= j < |es| ==> !HasKey(es[j], k))
      && (0 <= f ==> HasKey(es[f], k) && forall j :: 0 <= j < f ==> !HasKey(es[j], k))
  {
    if |es| > 0 {
      var n := |es| - 1;
      FirstIndexIsFirst(es[..n], k);
      assert forall j :: 0 <= j < n ==> es[..n][j] == es[j];
    }
  }

  /** Reference: every item under key `k`, in input order. */
  function ItemsFor<K(==), H, V>(es: seq<Entry<K, H, V>>, k: K): seq<V>
  {
    if |es| == 0 then []
    else
      var n := |es| - 1;
      ItemsFor(es[..n], k) + (if HasKey(es[n], k) then es[n].items else [])
  }

  /**
   * `gs` is the grouping of `es`: groups in order of first appearance, each with
   * the header of its key's first element and all of its key's items, and a
   * group for every key that occurs.
   */
  ghost predicate GroupedFrom<K, H, V>(es: seq<Entry<K, H, V>>, gs: seq<Group<K, H, V>>)
  {
    && (forall i, j :: 0 <= i < j < |gs| ==> FirstIndex(es, gs[i].key) < FirstIndex(es, gs[j].key))
    && (forall i :: 0 <= i < |gs| ==> GroupMatches(es, gs[i]))
    && (forall j :: 0 <= j < |es| && es[j].Add? ==> IndexOfKey(gs, es[j].key) >= 0)
  }

  /** A single group agrees with the reference definitions for its key. */
  ghost predicate GroupMatches<K, H, V>(es: seq<Entry<K, H, V>>, g: Group<K, H, V>)
  {
    var f := FirstIndex(es, g.key);
    && f >= 0
    && HasKey(es[f], g.key)
    && g.header == es[f].header
    && g.items == ItemsFor(es, g.key)
  }

  lemma FirstIndexAppend<K, H, V>(es: seq<Entry<K, H, V>>, e: Entry<K, H, V>, k: K)
    ensures FirstIndex(es + [e], k)
      == if FirstIndex(es, k) >= 0 then FirstIndex(es, k)
         else if HasKey(e, k) then |es| else -1
    ensures ItemsFor(es + [e], k)
      == ItemsFor(es, k) + (if HasKey(e, k) then e.items else [])
  {
    assert (es + [e])[..|es|] == es;
  }

  lemma {:induction false} ItemsForAbsent<K, H, V>(es: seq<Entry<K, H, V>>, k: K)
    requires FirstIndex(es, k) == -1
    ensures ItemsFor(es, k) == []
  {
    if |es| > 0 {
      var n := |es| - 1;
      assert FirstIndex(es[..n], k) == -1;
      ItemsForAbsent(es[..n], k);
    }
  }

  /** A matched group stays matched when an element with another key, or none, is appended. */
  lemma MatchesAfterAppend<K, H, V>(es: seq<Entry<K, H, V>>, e: Entry<K, H, V>, g: Group<K, H, V>)
    requires GroupMatches(es, g) && !HasKey(e, g.key)
    ensures GroupMatches(es + [e], g)
    ensures FirstIndex(es + [e], g.key) == FirstIndex(es, g.key)
  {
    FirstIndexAppend(es, e, g.key);
    assert (es + [e])[FirstIndex(es, g.key)] == es[FirstIndex(es, g.key)];
  }

  /** A matched group extended by the items of an appended element with its key stays matched. */
  lemma MatchesAfterExtend<K, H, V>(es: seq<Entry<K, H, V>>, e: Entry<K, H, V>, g: Group<K, H, V>)
    requires GroupMatches(es, g) && HasKey(e, g.key)
    ensures GroupMatches(es + [e], g.(items := g.items + e.items))
    ensures FirstIndex(es + [e], g.key) == FirstIndex(es, g.key)
  {
    FirstIndexAppend(es, e, g.key);
    assert (es + [e])[FirstIndex(es, g.key)] == es[FirstIndex(es, g.key)];
  }

  lemma PlaceSkip<K, H, V>(es: seq<Entry<K, H, V>>, e: Entry<K, H, V>, gs: seq<Group<K, H, V>>)
    requires GroupedFrom(es, gs) && e.Skip?
    ensures GroupedFrom(es + [e], Place(gs, e))
  {
    var ys := es + [e];
    forall i | 0 <= i < |gs| ensures GroupMatches(ys, gs[i]) && FirstIndex(ys, gs[i].key) == FirstIndex(es, gs[i].key) {
      MatchesAfterAppend(es, e, gs[i]);
    }
    forall j | 0 <= j < |ys| && ys[j].Add? ensures IndexOfKey(gs, ys[j].key) >= 0 {
      assert ys[j] == es[j];
    }
  }

  /** No element of `es` carries a key that has no group. */
  lemma AbsentKey<K, H, V>(es: seq<Entry<K, H, V>>, gs: seq<Group<K, H, V>>, k: K)
    requires GroupedFrom(es, gs) && IndexOfKey(gs, k) == -1
    ensures FirstIndex(es, k) == -1
  {
    FirstIndexIsFirst(es, k);
    forall j | 0 <= j < |es| ensures !HasKey(es[j], k) {
      if es[j].Add? { assert IndexOfKey(gs, es[j].key) >= 0; }
    }
  }

  lemma PlaceNew<K, H, V>(es: seq<Entry<K, H, V>>, e: Entry<K, H, V>, gs: seq<Group<K, H, V>>)
    requires GroupedFrom(es, gs) && e.Add? && IndexOfKey(gs, e.key) == -1
    ensures GroupedFrom(es + [e], Place(gs, e))
  {
    var ys := es + [e];
    var ng := Group(e.key, e.header, e.items);
    var r := gs + [ng];
    assert Place(gs, e) == r;
    AbsentKey(es, gs, e.key);
    ItemsForAbsent(es, e.key);
    FirstIndexAppend(es, e, e.key);
    assert ys[|es|] == e;
    assert GroupMatches(ys, ng);
    forall i | 0 <= i < |gs|
      ensures GroupMatches(ys, gs[i]) && FirstIndex(ys, gs[i].key) == FirstIndex(es, gs[i].key)
    {
      assert GroupMatches(es, gs[i]);
      MatchesAfterAppend(es, e, gs[i]);
    }
    NewOrder(es, ys, gs, ng, r);
    NewCovered(es, e, gs, r);
  }

  lemma NewOrder<K, H, V>(es: seq<Entry<K, H, V>>, ys: seq<Entry<K, H, V>>, gs: seq<Group<K, H, V>>, ng: Group<K, H, V>, r: seq<Group<K, H, V>>)
    requires r == gs + [ng]
    requires forall i, j :: 0 <= i < j < |gs| ==> FirstIndex(es, gs[i].key) < FirstIndex(es, gs[j].key)
    requires forall i :: 0 <= i < |gs| ==> FirstIndex(ys, gs[i].key) == FirstIndex(es, gs[i].key)
    requires FirstIndex(ys, ng.key) == |es|
    ensures forall i, j :: 0 <= i < j < |r| ==> FirstIndex(ys, r[i].key) < FirstIndex(ys, r[j].key)
  {
    forall i, j | 0 <= i < j < |r| ensures FirstIndex(ys, r[i].key) < FirstIndex(ys, r[j].key) {
      assert r[i] == gs[i];
      var f := FirstIndex(es, gs[i].key);
      assert FirstIndex(ys, gs[i].key) == f;
      if j < |gs| {
        assert r[j] == gs[j];
        assert f < FirstIndex(es, gs[j].key) == FirstIndex(ys, gs[j].key);
      } else {
        assert r[j] == ng;
        assert f < |es|;
      }
    }
  }

  lemma NewCovered<K, H, V>(es: seq<Entry<K, H, V>>, e: Entry<K, H, V>, gs: seq<Group<K, H, V>>, r: seq<Group<K, H, V>>)
    requires GroupedFrom(es, gs) && e.Add? && r == gs + [Group(e.key, e.header, e.items)]
    ensures forall j :: 0 <= j < |es + [e]| && (es + [e])[j].Add? ==> IndexOfKey(r, (es + [e])[j].key) >= 0
  {
    var ys := es + [e];
    forall j | 0 <= j < |ys| && ys[j].Add? ensures IndexOfKey(r, ys[j].key) >= 0 {
      if j < |es| {
        assert ys[j] == es[j];
        var i := IndexOfKey(gs, es[j].key);
        assert r[i] == gs[i];
      } else {
        assert r[|gs|].key == e.key;
      }
    }
  }

  lemma PlaceExisting<K, H, V>(es: seq<Entry<K, H, V>>, e: Entry<K, H, V>, gs: seq<Group<K, H, V>>)
    requires GroupedFrom(es, gs) && e.Add? && IndexOfKey(gs, e.key) >= 0
    ensures GroupedFrom(es + [e], Place(gs, e))
  {
    var ys := es + [e];
    var i0 := IndexOfKey(gs, e.key);
    var r := gs[i0 := gs[i0].(items := gs[i0].items + e.items)];
    assert Place(gs, e) == r;
    forall i | 0 <= i < |r| ensures GroupMatches(ys, r[i]) && FirstIndex(ys, r[i].key) == FirstIndex(es, gs[i].key) {
      assert GroupMatches(es, gs[i]);
      if i == i0 {
        MatchesAfterExtend(es, e, gs[i]);
      } else {
        MatchesAfterAppend(es, e, gs[i]);
      }
    }
    ExistingCovered(es, e, gs, r);
  }

  lemma ExistingCovered<K, H, V>(es: seq<Entry<K, H, V>>, e: Entry<K, H, V>, gs: seq<Group<K, H, V>>, r: seq<Group<K, H, V>>)
    requires GroupedFrom(es, gs) && e.Add? && IndexOfKey(gs, e.key) >= 0
    requires |r| == |gs| && forall i :: 0 <= i < |r| ==> r[i].key == gs[i].key
    ensures forall j :: 0 <= j < |es + [e]| && (es + [e])[j].Add? ==> IndexOfKey(r, (es + [e])[j].key) >= 0
  {
    var ys := es + [e];
    forall j | 0 <= j < |ys| && ys[j].Add? ensures IndexOfKey(r, ys[j].key) >= 0 {
      var k := ys[j].key;
      if j < |es| {
        assert ys[j] == es[j];
      }
      var i := IndexOfKey(gs, k);
      assert r[i].key == k;
    }
  }

  /** The grouping loop builds exactly the reference grouping. */
  lemma {:induction false} GroupAllIsGrouping<K, H, V>(es: seq<Entry<K, H, V>>)
    ensures GroupedFrom(es, GroupAll(es))
  {
    if |es| > 0 {
      var p, e := es[..|es| - 1], es[|es| - 1];
      assert es == p + [e];
      GroupAllIsGrouping(p);
      var gs := GroupAll(p);
      if e.Skip? {
        PlaceSkip(p, e, gs);
      } else if IndexOfKey(gs, e.key) == -1 {
        PlaceNew(p, e, gs);
      } else {
        PlaceExisting(p, e, gs);
      }
    }
  }

  /** Group keys are pairwise distinct. */
  lemma GroupKeysDistinct<K, H, V>(es: seq<Entry<K, H, V>>)
    ensures var gs := GroupAll(es);
      forall i, j :: 0 <= i < j < |gs| ==> gs[i].key != gs[j].key
  {
    GroupAllIsGrouping(es);
  }
}
