/** Insertion-ordered finite maps: the semantics JavaScript gives to a `Map`.
    Setting an existing key keeps its position, setting a new key appends it
    at the end, deleting a key closes the gap, and iteration visits keys in
    that order. A plain object records its properties' creation order the
    same way, but enumerates them differently (see `PlainObjects`). */
module OrderedMaps {
  import opened Wrappers

  /** `order` lists the keys in insertion order; `entries` holds the values. */
  datatype OrderedMap<K, V> = OrderedMap(order: seq<K>, entries: map<K, V>)

  /** No key occurs twice in `s`. */
  ghost predicate Distinct<K>(s: seq<K>) {
    forall i, j :: 0 <= i < j < |s| ==> s[i] != s[j]
  }

  /** The order lists exactly the keys of the map, each once. */
  ghost predicate Valid<K(!new), V>(m: OrderedMap<K, V>) {
    && Distinct(m.order)
    && forall k :: k in m.entries <==> k in m.order
  }

  type OMap<K(==, !new), V> = m: OrderedMap<K, V> | Valid(m) witness OrderedMap([], map[])

  function Empty<K(==, !new), V>(): (m: OMap<K, V>)
    ensures forall k :: Get(m, k) == None
  {
    OrderedMap([], map[])
  }

  /** `map.get(k)`: the value under `k`, or None when `k` is absent. */
  function Get<K(==, !new), V>(m: OMap<K, V>, k: K): (r: Option<V>)
    ensures r.Some? <==> k in m.order
    ensures r.Some? ==> r.value == m.entries[k]
  {
    if k in m.entries then Some(m.entries[k]) else None
  }

  /** Two maps that answer every lookup alike hold the same entries. */
  lemma SameLookups<K(!new), V>(a: OMap<K, V>, b: OMap<K, V>)
    requires forall k :: Get(a, k) == Get(b, k)
    ensures a.entries == b.entries
  {
    assert a.entries.Keys == b.entries.Keys by {
      forall k
        ensures k in a.entries <==> k in b.entries
      {
        assert Get(a, k).Some? == Get(b, k).Some?;
      }
    }
    forall k | k in a.entries
      ensures a.entries[k] == b.entries[k]
    {
      assert Get(a, k) == Get(b, k);
    }
  }

  /** `map.set(k, v)`. */
  function Put<K(==, !new), V>(m: OMap<K, V>, k: K, v: V): (r: OMap<K, V>)
    ensures Get(r, k) == Some(v)
    ensures forall k' :: k' != k ==> Get(r, k') == Get(m, k')
    ensures k in m.order ==> r.order == m.order
    ensures k !in m.order ==> r.order == m.order + [k]
  {
    if k in m.entries then OrderedMap(m.order, m.entries[k := v])
    else OrderedMap(m.order + [k], m.entries[k := v])
  }

  /** `s` with every occurrence of `k` dropped, the rest in their order. */
  function Without<K(==, !new)>(s: seq<K>, k: K): (r: seq<K>)
    ensures forall x :: x in r <==> x in s && x != k
    ensures |r| <= |s|
  {
    if s == [] then []
    else (if s[0] == k then [] else [s[0]]) + Without(s[1..], k)
  }

  lemma {:induction false} WithoutDistinct<K(!new)>(s: seq<K>, k: K)
    requires Distinct(s)
    ensures Distinct(Without(s, k))
  {
    if s != [] {
      WithoutDistinct(s[1..], k);
      var t := Without(s[1..], k);
      assert s[0] !in t;
    }
  }

  /** Dropping a key that sits at position `i` of a duplicate-free order is
      cutting that one position out. */
  lemma {:induction false} WithoutAt<K(!new)>(s: seq<K>, i: nat)
    requires Distinct(s) && i < |s|
    ensures Without(s, s[i]) == s[..i] + s[i + 1..]
  {
    if i == 0 {
      WithoutAbsent(s[1..], s[0]);
    } else {
      WithoutAt(s[1..], i - 1);
      assert s[1..][..i - 1] + s[1..][i..] == s[1..i] + s[i + 1..];
      assert s[..i] + s[i + 1..] == [s[0]] + (s[1..i] + s[i + 1..]);
    }
  }

  lemma {:induction false} WithoutAbsent<K(!new)>(s: seq<K>, k: K)
    requires k !in s
    ensures Without(s, k) == s
  {
    if s != [] {
      WithoutAbsent(s[1..], k);
      assert [s[0]] + s[1..] == s;
    }
  }

  /** `map.delete(k)`. */
  function Remove<K(==, !new), V>(m: OMap<K, V>, k: K): (r: OMap<K, V>)
    ensures Get(r, k) == None
    ensures forall k' :: k' != k ==> Get(r, k') == Get(m, k')
    ensures r.order == Without(m.order, k)
    ensures k !in m.order ==> r == m
  {
    if k !in m.entries then
      WithoutAbsent(m.order, k);
      m
    else
      WithoutDistinct(m.order, k);
      OrderedMap(Without(m.order, k), m.entries - {k})
  }

  /** `new Map(entries)`: the entries are set one after the other, so a
      repeated key keeps its first position and its last value. */
  function FromEntries<K(==, !new), V>(es: seq<(K, V)>): (r: OMap<K, V>)
    ensures |r.order| <= |es|
  {
    if es == [] then Empty()
    else
      var last := es[|es| - 1];
      Put(FromEntries(es[..|es| - 1]), last.0, last.1)
  }

  /** The keys of the built map are exactly the keys the entries mention. */
  lemma {:induction false} FromEntriesKeys<K(!new), V>(es: seq<(K, V)>)
    ensures forall k :: k in FromEntries(es).order <==> exists i :: 0 <= i < |es| && es[i].0 == k
  {
    if es != [] {
      var p := es[..|es| - 1];
      FromEntriesKeys(p);
      assert forall i :: 0 <= i < |p| ==> p[i] == es[i];
    }
  }

  /** A key maps to the value of its last entry. */
  lemma {:induction false} FromEntriesLastWins<K(!new), V>(es: seq<(K, V)>, i: nat)
    requires i < |es| && forall j :: i < j < |es| ==> es[j].0 != es[i].0
    ensures Get(FromEntries(es), es[i].0) == Some(es[i].1)
  {
    var n := |es| - 1;
    if i < n {
      FromEntriesLastWins(es[..n], i);
    }
  }

  /** Entries with pairwise distinct keys: the keys come out in entry order,
      each with its value. */
  lemma {:induction false} FromDistinctEntries<K(!new), V>(es: seq<(K, V)>)
    requires forall i, j :: 0 <= i < j < |es| ==> es[i].0 != es[j].0
    ensures |FromEntries(es).order| == |es|
    ensures forall i :: 0 <= i < |es| ==> FromEntries(es).order[i] == es[i].0
    ensures forall i :: 0 <= i < |es| ==> Get(FromEntries(es), es[i].0) == Some(es[i].1)
  {
    if es != [] {
      var n := |es| - 1;
      var p := es[..n];
      FromDistinctEntries(p);
      var q := FromEntries(p);
      assert es[n].0 !in q.order by {
        forall i | 0 <= i < |q.order|
          ensures q.order[i] != es[n].0
        {
          assert q.order[i] == es[i].0;
        }
      }
      var r := FromEntries(es);
      assert r == Put(q, es[n].0, es[n].1);
      assert r.order == q.order + [es[n].0];
      forall i | 0 <= i < |es|
        ensures Get(r, es[i].0) == Some(es[i].1)
      {
        FromEntriesLastWins(es, i);
      }
    }
  }
}
