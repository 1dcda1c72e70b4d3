/** News items and the newest-first ordering of the aggregate news view.
    `Array.prototype.sort` is stable, so items with the same publication
    time keep the order in which they were concatenated. */
module NewsOrder {

  /** A pushed news item; `pubDate` is the publication time as a timestamp. */
  datatype NewsItem = NewsItem(keyword: string, title: string, link: string, pubDate: int)

  ghost predicate NewestFirst(s: seq<NewsItem>) {
    forall i, j :: 0 <= i < j < |s| ==> s[i].pubDate >= s[j].pubDate
  }

  /** The items of `s` published at time `d`, in their order in `s`. */
  function PublishedAt(s: seq<NewsItem>, d: int): (r: seq<NewsItem>)
    ensures |r| <= |s|
  {
    if s == [] then []
    else (if s[0].pubDate == d then [s[0]] else []) + PublishedAt(s[1..], d)
  }

  lemma {:induction false} PublishedAtConcat(a: seq<NewsItem>, b: seq<NewsItem>, d: int)
    ensures PublishedAt(a + b, d) == PublishedAt(a, d) + PublishedAt(b, d)
  {
    if a != [] {
      assert (a + b)[1..] == a[1..] + b;
      PublishedAtConcat(a[1..], b, d);
    } else {
      assert a + b == b;
    }
  }

  /** Places `x` in a newest-first list ahead of every item that is not newer. */
  function Insert(x: NewsItem, s: seq<NewsItem>): (r: seq<NewsItem>)
    requires NewestFirst(s)
    ensures NewestFirst(r)
    ensures multiset(r) == multiset(s) + multiset{x}
  {
    if s == [] || s[0].pubDate <= x.pubDate then
      [x] + s
    else
      var t := Insert(x, s[1..]);
      assert [s[0]] + s[1..] == s;
      NotNewerThanHead(s, x, t);
      PrependNewest(s[0], t);
      [s[0]] + t
  }

  lemma NotNewerThanHead(s: seq<NewsItem>, x: NewsItem, t: seq<NewsItem>)
    requires NewestFirst(s) && s != [] && x.pubDate < s[0].pubDate
    requires multiset(t) == multiset(s[1..]) + multiset{x}
    ensures forall i :: 0 <= i < |t| ==> t[i].pubDate <= s[0].pubDate
  {
    forall i | 0 <= i < |t|
      ensures t[i].pubDate <= s[0].pubDate
    {
      assert t[i] in multiset(t);
      if t[i] != x {
        assert t[i] in multiset(s[1..]);
        assert t[i] in s[1..];
      }
    }
  }

  lemma PrependNewest(a: NewsItem, t: seq<NewsItem>)
    requires NewestFirst(t)
    requires forall i :: 0 <= i < |t| ==> t[i].pubDate <= a.pubDate
    ensures NewestFirst([a] + t)
  {
  }

  /** Inserting `x` puts it ahead of the items of equal date already present. */
  lemma {:induction false} InsertStable(x: NewsItem, s: seq<NewsItem>, d: int)
    requires NewestFirst(s)
    ensures PublishedAt(Insert(x, s), d) == PublishedAt([x], d) + PublishedAt(s, d)
  {
    if s == [] || s[0].pubDate <= x.pubDate {
      PublishedAtConcat([x], s, d);
    } else {
      var t := Insert(x, s[1..]);
      InsertStep(x, s);
      InsertStable(x, s[1..], d);
      PublishedAtConcat([s[0]], t, d);
      PublishedAtConcat([s[0]], s[1..], d);
      assert [s[0]] + s[1..] == s;
      assert PublishedAt([s[0]], d) == [] || PublishedAt([x], d) == [];
    }
  }

  lemma InsertStep(x: NewsItem, s: seq<NewsItem>)
    requires NewestFirst(s) && s != [] && x.pubDate < s[0].pubDate
    ensures Insert(x, s) == [s[0]] + Insert(x, s[1..])
  {
  }

  /** Stable sort, newest first: the order `getAllNews` returns. */
  function SortNewestFirst(s: seq<NewsItem>): (r: seq<NewsItem>)
    ensures NewestFirst(r)
    ensures multiset(r) == multiset(s)
  {
    if s == [] then []
    else
      assert [s[0]] + s[1..] == s;
      Insert(s[0], SortNewestFirst(s[1..]))
  }

  /** Stability: for every publication time, the items published then come
      out in the order they went in. */
  lemma {:induction false} SortStable(s: seq<NewsItem>, d: int)
    ensures PublishedAt(SortNewestFirst(s), d) == PublishedAt(s, d)
  {
    if s != [] {
      SortStable(s[1..], d);
      var t := SortNewestFirst(s[1..]);
      SortStep(s);
      InsertStable(s[0], t, d);
      PublishedAtConcat([s[0]], s[1..], d);
      assert [s[0]] + s[1..] == s;
    }
  }

  lemma SortStep(s: seq<NewsItem>)
    requires s != []
    ensures SortNewestFirst(s) == Insert(s[0], SortNewestFirst(s[1..]))
  {
  }

  /** The buffers laid end to end, in order: `allNews.push(...news)` for each. */
  function Concat(ss: seq<seq<NewsItem>>): (r: seq<NewsItem>)
    ensures forall x :: x in r <==> exists i :: 0 <= i < |ss| && x in ss[i]
  {
    if ss == [] then []
    else
      var rest := Concat(ss[1..]);
      assert forall i :: 0 <= i < |ss| - 1 ==> ss[1..][i] == ss[i + 1];
      ss[0] + rest
  }

  lemma SortStableAll(s: seq<NewsItem>)
    ensures forall d :: PublishedAt(SortNewestFirst(s), d) == PublishedAt(s, d)
  {
    forall d { SortStable(s, d); }
  }

  /** Two buffers concatenate to the first followed by the second. */
  lemma ConcatTwo(a: seq<NewsItem>, b: seq<NewsItem>)
    ensures Concat([a, b]) == a + b
  {
    assert [a, b][1..] == [b];
    assert Concat([b]) == b + Concat([]);
  }

  /** Sorting puts the first item into the sorted rest. */
  lemma SortCons(x: NewsItem, s: seq<NewsItem>)
    ensures SortNewestFirst([x] + s) == Insert(x, SortNewestFirst(s))
  {
    assert ([x] + s)[1..] == s;
  }

  /** An item no older than the head goes in front. */
  lemma InsertFront(x: NewsItem, s: seq<NewsItem>)
    requires NewestFirst(s) && (s == [] || s[0].pubDate <= x.pubDate)
    ensures Insert(x, s) == [x] + s
  {
  }

  /** An item older than the head goes behind it. */
  lemma InsertBehind(x: NewsItem, y: NewsItem, s: seq<NewsItem>)
    requires NewestFirst([y] + s) && x.pubDate < y.pubDate
    ensures NewestFirst(s)
    ensures Insert(x, [y] + s) == [y] + Insert(x, s)
  {
    assert ([y] + s)[1..] == s;
    assert forall i :: 0 <= i < |s| ==> s[i] == ([y] + s)[i + 1];
  }

  /** One item is sorted as it is. */
  lemma SortOne(x: NewsItem)
    ensures SortNewestFirst([x]) == [x]
  {
    SortCons(x, []);
    assert [x] + [] == [x];
    InsertFront(x, []);
  }

  /** Two items come out newest first; on a tie the first stays first. */
  lemma SortTwo(x: NewsItem, y: NewsItem)
    ensures x.pubDate >= y.pubDate ==> SortNewestFirst([x, y]) == [x, y]
    ensures x.pubDate < y.pubDate ==> SortNewestFirst([x, y]) == [y, x]
  {
    SortOne(y);
    SortCons(x, [y]);
    assert [x] + [y] == [x, y];
    if x.pubDate >= y.pubDate {
      InsertFront(x, [y]);
    } else {
      InsertBehind(x, y, []);
      InsertFront(x, []);
    }
  }

  /** Three items, the first of middling time, come out newest first. */
  lemma SortThree(a: NewsItem, b: NewsItem, c: NewsItem)
    requires b.pubDate <= a.pubDate < c.pubDate
    ensures SortNewestFirst([a, b, c]) == [c, a, b]
  {
    SortTwo(b, c);
    SortCons(a, [b, c]);
    assert [a] + [b, c] == [a, b, c];
    InsertBetween(a, c, b);
  }

  /** An item between two sorted items in time lands between them. */
  lemma InsertBetween(x: NewsItem, newer: NewsItem, older: NewsItem)
    requires older.pubDate <= x.pubDate < newer.pubDate
    ensures Insert(x, [newer, older]) == [newer, x, older]
  {
    assert [newer, older][1..] == [older];
    InsertFront(x, [older]);
  }
}
