/** Ranging over a map: every key once, in whatever order the runtime yields them. */
module Iteration {
  import opened Entities

  /** `order` lists the keys of `m`, each once. */
  ghost predicate ListsKeys<K(!new), V>(order: seq<K>, m: map<K, V>) {
    && Distinct(order)
    && (forall k :: k in order <==> k in m)
    && (forall i :: 0 <= i < |order| ==> order[i] in m)
  }

  lemma SameKeys<K(!new), V>(m: map<K, V>, order: seq<K>)
    requires ListsKeys(order, m)
    ensures SetOf(order) == m.Keys
  {
  }

  lemma SameValues<K(!new), V>(m: map<K, V>, order: seq<K>, values: seq<V>)
    requires ListsKeys(order, m) && |values| == |order|
    requires forall i :: 0 <= i < |order| ==> values[i] == m[order[i]]
    ensures SetOf(values) == ValuesOf(m)
  {
  }

  lemma Concat<T>(a: seq<T>, b: seq<T>, c: seq<T>)
    ensures a + (b + c) == (a + b) + c
  {
  }

  lemma NonEmpty<T(!new)>(s: set<T>)
    requires s != {}
    ensures exists x :: x in s
  {
  }

  method Range<K(==, !new), V>(m: map<K, V>) returns (order: seq<K>)
    ensures ListsKeys(order, m) && |order| == |m|
  {
    order := [];
    var left := m.Keys;
    while left != {}
      invariant left <= m.Keys
      invariant Distinct(order) && |order| + |left| == |m|
      invariant forall k :: k in order <==> k in m && k !in left
    {
      NonEmpty(left);
      var k :| k in left;
      order, left := order + [k], left - {k};
    }
  }
}
