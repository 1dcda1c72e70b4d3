/** Plain objects with string keys. An object keeps its own properties in
    creation order, which an `OrderedMap` records: setting an existing
    property keeps its place, a new property goes last, and `delete` closes
    the gap. `Object.values`, `Object.entries` and `JSON.stringify` do not
    enumerate in that order, though. They follow OrdinaryOwnPropertyKeys
    (section 10.1.11.1 of ECMA-262): first the keys that are array indices,
    in ascending numeric order, then every other key in creation order. */
module PlainObjects {
  import opened Wrappers
  import opened OrderedMaps

  predicate IsDigit(c: char) {
    '0' <= c <= '9'
  }

  predicate AllDigits(s: string) {
    forall i :: 0 <= i < |s| ==> IsDigit(s[i])
  }

  /** The value of a string of decimal digits. */
  function Decimal(s: string): nat
    requires AllDigits(s)
  {
    if s == [] then 0
    else Decimal(s[..|s| - 1]) * 10 + (s[|s| - 1] as int - '0' as int)
  }

  function Pow10(n: nat): (r: nat)
    ensures r >= 1
  {
    if n == 0 then 1 else 10 * Pow10(n - 1)
  }

  /** The largest array index, 2^32 - 2. */
  const MaxArrayIndex: nat := 4294967294

  /** `k` is an array index: the canonical decimal form of an integer from 0
      to 2^32 - 2, with no sign and no leading zero except in "0" itself. */
  predicate IsArrayIndex(k: string) {
    && k != []
    && AllDigits(k)
    && (k[0] != '0' || k == "0")
    && Decimal(k) <= MaxArrayIndex
  }

  /** The numeric value of a key made of digits; 0 for any other key. */
  function IndexOf(k: string): nat {
    if AllDigits(k) then Decimal(k) else 0
  }

  lemma {:induction false} DecimalBelow(s: string)
    requires AllDigits(s)
    ensures Decimal(s) < Pow10(|s|)
  {
    if s != [] {
      DecimalBelow(s[..|s| - 1]);
    }
  }

  lemma {:induction false} DecimalAtLeast(s: string)
    requires AllDigits(s) && s != [] && s[0] != '0'
    ensures Pow10(|s| - 1) <= Decimal(s)
  {
    if |s| > 1 {
      var p := s[..|s| - 1];
      assert p[0] == s[0];
      DecimalAtLeast(p);
    }
  }

  lemma {:induction false} Pow10Monotone(m: nat, n: nat)
    requires m <= n
    ensures Pow10(m) <= Pow10(n)
    decreases n
  {
    if m < n {
      Pow10Monotone(m, n - 1);
    }
  }

  /** Digit strings of the same length with the same value are equal. */
  lemma {:induction false} DecimalSameLength(a: string, b: string)
    requires AllDigits(a) && AllDigits(b) && |a| == |b| && Decimal(a) == Decimal(b)
    ensures a == b
  {
    if a != [] {
      var n := |a| - 1;
      var da := a[n] as int - '0' as int;
      var db := b[n] as int - '0' as int;
      assert Decimal(a[..n]) * 10 + da == Decimal(b[..n]) * 10 + db;
      assert da == db;
      DecimalSameLength(a[..n], b[..n]);
      assert a == a[..n] + [a[n]];
      assert b == b[..n] + [b[n]];
    }
  }

  /** Two array-index keys with the same numeric value are the same key. */
  lemma IndexInjective(a: string, b: string)
    requires IsArrayIndex(a) && IsArrayIndex(b) && IndexOf(a) == IndexOf(b)
    ensures a == b
  {
    if a == "0" || b == "0" {
      assert Decimal("0") == 0;
      if a != "0" {
        DecimalAtLeast(a);
      }
      if b != "0" {
        DecimalAtLeast(b);
      }
    } else {
      DecimalAtLeast(a);
      DecimalAtLeast(b);
      DecimalBelow(a);
      DecimalBelow(b);
      if |a| < |b| {
        Pow10Monotone(|a|, |b| - 1);
      } else if |b| < |a| {
        Pow10Monotone(|b|, |a| - 1);
      }
      DecimalSameLength(a, b);
    }
  }

  /** Keys in non-decreasing numeric order. */
  ghost predicate IndexOrdered(s: seq<string>) {
    forall i, j :: 0 <= i < j < |s| ==> IndexOf(s[i]) <= IndexOf(s[j])
  }

  /** Places `k` in a numerically ordered list of keys, ahead of the first
      key whose number is not smaller. */
  function InsertIndex(k: string, s: seq<string>): seq<string> {
    if s == [] || IndexOf(k) <= IndexOf(s[0]) then [k] + s
    else [s[0]] + InsertIndex(k, s[1..])
  }

  lemma {:induction false} InsertIndexMembers(k: string, s: seq<string>)
    ensures |InsertIndex(k, s)| == |s| + 1
    ensures forall x :: x in InsertIndex(k, s) <==> x == k || x in s
  {
    if !(s == [] || IndexOf(k) <= IndexOf(s[0])) {
      assert s == [s[0]] + s[1..];
      InsertIndexMembers(k, s[1..]);
    }
  }

  lemma {:induction false} InsertIndexOrdered(k: string, s: seq<string>)
    requires IndexOrdered(s)
    ensures IndexOrdered(InsertIndex(k, s))
  {
    if !(s == [] || IndexOf(k) <= IndexOf(s[0])) {
      var t := InsertIndex(k, s[1..]);
      InsertIndexOrdered(k, s[1..]);
      InsertIndexMembers(k, s[1..]);
      assert s == [s[0]] + s[1..];
      forall j | 0 <= j < |t|
        ensures IndexOf(s[0]) <= IndexOf(t[j])
      {
        assert t[j] in t;
        if t[j] != k {
          var m :| 0 <= m < |s[1..]| && s[1..][m] == t[j];
          assert s[m + 1] == t[j];
        }
      }
      assert InsertIndex(k, s) == [s[0]] + t;
    }
  }

  lemma {:induction false} InsertIndexDistinct(k: string, s: seq<string>)
    requires Distinct(s) && k !in s
    ensures Distinct(InsertIndex(k, s))
  {
    if !(s == [] || IndexOf(k) <= IndexOf(s[0])) {
      assert s == [s[0]] + s[1..];
      InsertIndexDistinct(k, s[1..]);
      InsertIndexMembers(k, s[1..]);
      var t := InsertIndex(k, s[1..]);
      assert s[0] !in t;
    }
  }

  /** The keys sorted by number: an insertion sort. */
  function SortIndices(s: seq<string>): seq<string> {
    if s == [] then [] else InsertIndex(s[0], SortIndices(s[1..]))
  }

  lemma {:induction false} SortIndicesMembers(s: seq<string>)
    ensures |SortIndices(s)| == |s|
    ensures forall x :: x in SortIndices(s) <==> x in s
  {
    if s != [] {
      assert s == [s[0]] + s[1..];
      SortIndicesMembers(s[1..]);
      InsertIndexMembers(s[0], SortIndices(s[1..]));
    }
  }

  lemma {:induction false} SortIndicesOrdered(s: seq<string>)
    ensures IndexOrdered(SortIndices(s))
  {
    if s != [] {
      SortIndicesOrdered(s[1..]);
      InsertIndexOrdered(s[0], SortIndices(s[1..]));
    }
  }

  lemma {:induction false} SortIndicesDistinct(s: seq<string>)
    requires Distinct(s)
    ensures Distinct(SortIndices(s))
  {
    if s != [] {
      assert s == [s[0]] + s[1..];
      SortIndicesDistinct(s[1..]);
      SortIndicesMembers(s[1..]);
      InsertIndexDistinct(s[0], SortIndices(s[1..]));
    }
  }

  /** The array-index keys of `s`, in their order in `s`. */
  function IndexKeys(s: seq<string>): seq<string> {
    if s == [] then []
    else (if IsArrayIndex(s[0]) then [s[0]] else []) + IndexKeys(s[1..])
  }

  /** The keys of `s` that are not array indices, in their order in `s`. */
  function NameKeys(s: seq<string>): seq<string> {
    if s == [] then []
    else (if IsArrayIndex(s[0]) then [] else [s[0]]) + NameKeys(s[1..])
  }

  lemma {:induction false} IndexKeysMembers(s: seq<string>)
    ensures forall x :: x in IndexKeys(s) <==> x in s && IsArrayIndex(x)
  {
    if s != [] {
      assert s == [s[0]] + s[1..];
      IndexKeysMembers(s[1..]);
    }
  }

  lemma {:induction false} NameKeysMembers(s: seq<string>)
    ensures forall x :: x in NameKeys(s) <==> x in s && !IsArrayIndex(x)
  {
    if s != [] {
      assert s == [s[0]] + s[1..];
      NameKeysMembers(s[1..]);
    }
  }

  /** Every key is either an array index or not. */
  lemma {:induction false} SplitLength(s: seq<string>)
    ensures |IndexKeys(s)| + |NameKeys(s)| == |s|
  {
    if s != [] {
      SplitLength(s[1..]);
    }
  }

  lemma {:induction false} IndexKeysDistinct(s: seq<string>)
    requires Distinct(s)
    ensures Distinct(IndexKeys(s))
  {
    if s != [] {
      assert s == [s[0]] + s[1..];
      IndexKeysDistinct(s[1..]);
      IndexKeysMembers(s[1..]);
    }
  }

  lemma {:induction false} NameKeysDistinct(s: seq<string>)
    requires Distinct(s)
    ensures Distinct(NameKeys(s))
  {
    if s != [] {
      assert s == [s[0]] + s[1..];
      NameKeysDistinct(s[1..]);
      NameKeysMembers(s[1..]);
    }
  }

  lemma {:induction false} NameKeysConcat(a: seq<string>, b: seq<string>)
    ensures NameKeys(a + b) == NameKeys(a) + NameKeys(b)
  {
    if a == [] {
      assert a + b == b;
    } else {
      var h := if IsArrayIndex(a[0]) then [] else [a[0]];
      assert (a + b)[0] == a[0];
      assert (a + b)[1..] == a[1..] + b;
      assert NameKeys(a + b) == h + NameKeys(a[1..] + b);
      NameKeysConcat(a[1..], b);
      assert h + (NameKeys(a[1..]) + NameKeys(b)) == (h + NameKeys(a[1..])) + NameKeys(b);
    }
  }

  /** Filtering keeps a list whose keys are all names as it is, and empties
      one whose keys are all array indices. */
  lemma {:induction false} NameKeysOfUniform(s: seq<string>)
    ensures (forall x :: x in s ==> !IsArrayIndex(x)) ==> NameKeys(s) == s
    ensures (forall x :: x in s ==> IsArrayIndex(x)) ==> NameKeys(s) == []
  {
    if s != [] {
      assert s == [s[0]] + s[1..];
      NameKeysOfUniform(s[1..]);
    }
  }

  lemma {:induction false} IndexKeysOfNames(s: seq<string>)
    requires forall x :: x in s ==> !IsArrayIndex(x)
    ensures IndexKeys(s) == []
  {
    if s != [] {
      assert s == [s[0]] + s[1..];
      IndexKeysOfNames(s[1..]);
    }
  }

  /** The order in which an object whose properties were created in the
      order `order` enumerates its keys. */
  function PropertyOrder(order: seq<string>): (r: seq<string>)
    ensures |r| == |order|
  {
    SplitLength(order);
    SortIndicesMembers(IndexKeys(order));
    SortIndices(IndexKeys(order)) + NameKeys(order)
  }

  /** The enumeration lists exactly the object's keys. */
  lemma PropertyOrderMembers(order: seq<string>)
    ensures forall k :: k in PropertyOrder(order) <==> k in order
  {
    IndexKeysMembers(order);
    NameKeysMembers(order);
    SortIndicesMembers(IndexKeys(order));
  }

  /** Ordered index keys followed by name keys: every key before an index
      key is an index key with a number no larger. */
  lemma IndicesThenNames(front: seq<string>, back: seq<string>)
    requires forall x :: x in front ==> IsArrayIndex(x)
    requires forall x :: x in back ==> !IsArrayIndex(x)
    requires IndexOrdered(front)
    ensures forall i, j :: 0 <= i < j < |front + back| && IsArrayIndex((front + back)[j]) ==>
              IsArrayIndex((front + back)[i]) && IndexOf((front + back)[i]) <= IndexOf((front + back)[j])
  {
    var r := front + back;
    forall i, j | 0 <= i < j < |r| && IsArrayIndex(r[j])
      ensures IsArrayIndex(r[i]) && IndexOf(r[i]) <= IndexOf(r[j])
    {
      if j < |front| {
        assert r[i] == front[i] && r[j] == front[j];
        assert front[i] in front;
      }
    }
  }

  /** The enumeration order lists the array-index keys first, in ascending
      numeric order, and then the other keys in creation order. */
  lemma PropertyOrderShape(order: seq<string>)
    ensures forall i, j :: 0 <= i < j < |PropertyOrder(order)| && IsArrayIndex(PropertyOrder(order)[j]) ==>
              IsArrayIndex(PropertyOrder(order)[i])
    ensures forall i, j :: 0 <= i < j < |PropertyOrder(order)| && IsArrayIndex(PropertyOrder(order)[j]) ==>
              IndexOf(PropertyOrder(order)[i]) <= IndexOf(PropertyOrder(order)[j])
    ensures NameKeys(PropertyOrder(order)) == NameKeys(order)
  {
    var front := SortIndices(IndexKeys(order));
    var back := NameKeys(order);
    assert PropertyOrder(order) == front + back;
    IndexKeysMembers(order);
    NameKeysMembers(order);
    SortIndicesMembers(IndexKeys(order));
    SortIndicesOrdered(IndexKeys(order));
    IndicesThenNames(front, back);
    NameKeysConcat(front, back);
    NameKeysOfUniform(front);
    NameKeysOfUniform(back);
  }

  /** With distinct keys, array indices come out strictly ascending and no
      key is listed twice. */
  lemma PropertyOrderStrict(order: seq<string>)
    requires Distinct(order)
    ensures Distinct(PropertyOrder(order))
    ensures forall i, j :: 0 <= i < j < |PropertyOrder(order)| && IsArrayIndex(PropertyOrder(order)[j]) ==>
              IndexOf(PropertyOrder(order)[i]) < IndexOf(PropertyOrder(order)[j])
  {
    var front := SortIndices(IndexKeys(order));
    var back := NameKeys(order);
    IndexKeysDistinct(order);
    SortIndicesDistinct(IndexKeys(order));
    NameKeysDistinct(order);
    IndexKeysMembers(order);
    NameKeysMembers(order);
    SortIndicesMembers(IndexKeys(order));
    var r := PropertyOrder(order);
    assert r == front + back;
    PropertyOrderMembers(order);
    PropertyOrderShape(order);
    forall i, j | 0 <= i < j < |r|
      ensures r[i] != r[j]
    {
      if j < |front| {
        assert r[i] == front[i] && r[j] == front[j];
      } else if i >= |front| {
        assert r[i] == back[i - |front|] && r[j] == back[j - |front|];
      } else {
        assert r[i] in front && r[j] in back;
      }
    }
    forall i, j | 0 <= i < j < |r| && IsArrayIndex(r[j])
      ensures IndexOf(r[i]) < IndexOf(r[j])
    {
      if IndexOf(r[i]) == IndexOf(r[j]) {
        IndexInjective(r[i], r[j]);
      }
    }
  }

  /** An object none of whose keys is an array index enumerates its keys in
      creation order. */
  lemma PropertyOrderOfNames(order: seq<string>)
    requires forall k :: k in order ==> !IsArrayIndex(k)
    ensures PropertyOrder(order) == order
  {
    IndexKeysOfNames(order);
    NameKeysOfUniform(order);
    assert SortIndices([]) == [];
    assert [] + order == order;
  }

  /** The values stored under `keys`, in that order (keys the map lacks
      contribute nothing). */
  function ValuesAt<V>(m: OMap<string, V>, keys: seq<string>): seq<V> {
    if keys == [] then []
    else
      var k := keys[|keys| - 1];
      ValuesAt(m, keys[..|keys| - 1]) + if k in m.entries then [m.entries[k]] else []
  }

  /** The key/value pairs stored under `keys`, in that order. */
  function EntriesAt<V>(m: OMap<string, V>, keys: seq<string>): seq<(string, V)> {
    if keys == [] then []
    else
      var k := keys[|keys| - 1];
      EntriesAt(m, keys[..|keys| - 1]) + if k in m.entries then [(k, m.entries[k])] else []
  }

  lemma {:induction false} ValuesAtIndex<V>(m: OMap<string, V>, keys: seq<string>)
    requires forall k :: k in keys ==> k in m.entries
    ensures |ValuesAt(m, keys)| == |keys|
    ensures forall i :: 0 <= i < |keys| ==> ValuesAt(m, keys)[i] == m.entries[keys[i]]
  {
    if keys != [] {
      ValuesAtIndex(m, keys[..|keys| - 1]);
    }
  }

  lemma {:induction false} EntriesAtIndex<V>(m: OMap<string, V>, keys: seq<string>)
    requires forall k :: k in keys ==> k in m.entries
    ensures |EntriesAt(m, keys)| == |keys|
    ensures forall i :: 0 <= i < |keys| ==> EntriesAt(m, keys)[i] == (keys[i], m.entries[keys[i]])
  {
    if keys != [] {
      EntriesAtIndex(m, keys[..|keys| - 1]);
    }
  }

  /** `Object.values(obj)`: the property values in enumeration order. */
  function ObjectValues<V>(m: OMap<string, V>): seq<V> {
    ValuesAt(m, PropertyOrder(m.order))
  }

  /** `Object.values` lists one value per property: position `i` holds the
      value of the `i`-th key in enumeration order. */
  lemma ObjectValuesIndex<V>(m: OMap<string, V>)
    ensures |ObjectValues(m)| == |m.order|
    ensures forall i :: 0 <= i < |m.order| ==>
              PropertyOrder(m.order)[i] in m.entries && ObjectValues(m)[i] == m.entries[PropertyOrder(m.order)[i]]
  {
    PropertyOrderMembers(m.order);
    ValuesAtIndex(m, PropertyOrder(m.order));
  }

  /** `Object.entries(obj)`: key/value pairs in enumeration order. This is
      also the order in which `JSON.stringify` writes an object. */
  function ObjectEntries<V>(m: OMap<string, V>): seq<(string, V)> {
    EntriesAt(m, PropertyOrder(m.order))
  }

  /** `Object.entries` pairs the `i`-th key in enumeration order with its value. */
  lemma ObjectEntriesIndex<V>(m: OMap<string, V>)
    ensures |ObjectEntries(m)| == |m.order|
    ensures forall i :: 0 <= i < |m.order| ==>
              PropertyOrder(m.order)[i] in m.entries
              && ObjectEntries(m)[i] == (PropertyOrder(m.order)[i], m.entries[PropertyOrder(m.order)[i]])
  {
    PropertyOrderMembers(m.order);
    EntriesAtIndex(m, PropertyOrder(m.order));
  }

  /** An object without array-index keys lists its values in creation order. */
  lemma ObjectValuesOfNames<V>(m: OMap<string, V>)
    requires forall k :: k in m.order ==> !IsArrayIndex(k)
    ensures |ObjectValues(m)| == |m.order|
    ensures forall i :: 0 <= i < |m.order| ==> ObjectValues(m)[i] == m.entries[m.order[i]]
  {
    PropertyOrderOfNames(m.order);
    ObjectValuesIndex(m);
  }

  /** Rebuilding a map from the pairs stored under distinct keys lists
      those keys in that order, each with its value, and nothing else. */
  lemma EntriesAtRoundTrip<V>(m: OMap<string, V>, keys: seq<string>)
    requires Distinct(keys)
    requires forall k :: k in keys ==> k in m.entries
    ensures FromEntries(EntriesAt(m, keys)).order == keys
    ensures forall k :: k in keys ==> Get(FromEntries(EntriesAt(m, keys)), k) == Get(m, k)
  {
    var es := EntriesAt(m, keys);
    EntriesAtIndex(m, keys);
    FromDistinctEntries(es);
    var r := FromEntries(es);
    assert r.order == keys;
    forall k | k in keys
      ensures Get(r, k) == Get(m, k)
    {
      var i :| 0 <= i < |keys| && keys[i] == k;
      assert es[i] == (k, m.entries[k]);
    }
  }

  /** `new Map(Object.entries(obj))` rebuilds the object's mapping exactly,
      with the keys in enumeration order. */
  lemma ObjectEntriesRoundTrip<V>(m: OMap<string, V>)
    ensures FromEntries(ObjectEntries(m)).entries == m.entries
    ensures FromEntries(ObjectEntries(m)).order == PropertyOrder(m.order)
  {
    var keys := PropertyOrder(m.order);
    PropertyOrderMembers(m.order);
    PropertyOrderStrict(m.order);
    EntriesAtRoundTrip(m, keys);
    var r := FromEntries(ObjectEntries(m));
    forall k
      ensures Get(r, k) == Get(m, k)
    {
      if k !in keys {
        assert k !in r.order && k !in m.order;
      }
    }
    SameLookups(r, m);
  }

  /** A key that does not start with a digit is not an array index. */
  lemma NotArrayIndex(k: string)
    requires k != [] && !IsDigit(k[0])
    ensures !IsArrayIndex(k)
  {
    assert !AllDigits(k);
  }

  /** An object enumerating two keys lists their two values in that order. */
  lemma TwoValues<V>(m: OMap<string, V>, a: string, b: string)
    requires PropertyOrder(m.order) == [a, b]
    ensures a in m.entries && b in m.entries
    ensures ObjectValues(m) == [m.entries[a], m.entries[b]]
  {
    ObjectValuesIndex(m);
    assert PropertyOrder(m.order)[0] == a && PropertyOrder(m.order)[1] == b;
  }
}
