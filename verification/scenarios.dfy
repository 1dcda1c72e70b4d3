/** Runs of the client that pin down the documented behaviour on small
    inputs: buffer replacement, the newest-first aggregate and its tie order,
    dropped malformed payloads, the keyword order after a restart, and what a
    reconnect replays. */
module Scenarios {
  import opened Wrappers
  import opened OrderedMaps
  import opened PlainObjects
  import opened Text
  import opened NewsOrder
  import opened SubscriptionStore
  import opened NewsSocket

  /** A later delivery for a keyword supersedes the earlier one entirely,
      whichever of `news` and `cached-news` carried it. */
  lemma LatestDeliveryWins(s: State, keyword: string, first: seq<NewsItem>, second: seq<NewsItem>)
    requires keyword != ""
    ensures var t := Handle(s, News(Some(keyword), Some(first)));
            GetNews(Handle(t, CachedNews(Some(keyword), Some(second))), keyword) == second
  {
  }

  /** A push without a keyword, or whose `news` is not an array, changes nothing. */
  lemma MalformedPushDropped(s: State, keyword: Option<string>, news: Option<seq<NewsItem>>)
    requires !Truthy(keyword) || news.None?
    ensures Handle(s, News(keyword, news)) == s
    ensures Handle(s, CachedNews(keyword, news)) == s
  {
  }

  /** On a reconnect whose saved keywords are all already trimmed, the
      settle timer's replay sends no subscribe request at all: each keyword
      is refused as a duplicate of the registry it was read from. What it
      does is queue one cache refresh per saved keyword, in order. */
  lemma ReconnectReplaysNoSubscribe(s: State)
    requires s.connected && s.pending == [ResubscribeTask]
    requires GetAllSubscriptions(s.store) != []
    requires forall k :: k in GetAllSubscriptions(s.store) ==> Trim(k) == k
    ensures var r := Fire(s, 0);
            && r.outbox == s.outbox
            && r.pending == FetchTasks(GetAllSubscriptions(s.store))
            && r.error == Some(AlreadySubscribed(Last(GetAllSubscriptions(s.store))))
            && r.store == s.store
  {
    var t := s.(pending := []);
    assert Fire(s, 0) == ResubscribeAll(t);
    assert [] + FetchTasks(GetAllSubscriptions(s.store)) == FetchTasks(GetAllSubscriptions(s.store));
  }

  /** A keyword whose subscription the server acknowledged is refused when
      the replay offers it again: the saved form is already trimmed, and
      trimming it again changes nothing. */
  lemma AckedKeywordRefusedOnReplay(s: State, keyword: string, id: SubscriptionId)
    requires s.connected && Trim(keyword) != "" && id != ""
    ensures var t := Handle(s, Subscribed(Some(Trim(keyword)), Some(id)));
            Subscribe(t, Trim(keyword), NoOptions) == t.(error := Some(AlreadySubscribed(Trim(keyword))))
  {
    var t := Handle(s, Subscribed(Some(Trim(keyword)), Some(id)));
    assert GetSubscriptionId(t.store, Trim(keyword)) == Some(id);
    TrimIdempotent(keyword);
    assert Registered(t, Trim(Trim(keyword)));
  }

  /** Each queued cache refresh, fired while still connected, sends exactly
      one `get-cached-news` for its keyword; fired after a disconnect it
      sends nothing. */
  lemma QueuedRefreshSends(s: State, i: nat)
    requires i < |s.pending| && s.pending[i].FetchCachedTask?
    ensures s.connected ==> Fire(s, i).outbox == s.outbox + [GetCachedNewsMsg(s.pending[i].keyword)]
    ensures !s.connected ==> Fire(s, i).outbox == s.outbox
  {
  }

  /** The aggregate is newest first across buffers: with news at time 2
      under `ai` and at times 1 and 3 under `rust`, it reads 3, 2, 1. */
  lemma AggregateNewestFirst(s: State, t1: NewsItem, t2: NewsItem, t3: NewsItem)
    requires s.buffers == Empty()
    requires t1.pubDate == 1 && t2.pubDate == 2 && t3.pubDate == 3
    ensures var u := Handle(Handle(s, News(Some("ai"), Some([t2]))), News(Some("rust"), Some([t1, t3])));
            GetAllNews(u) == [t3, t2, t1]
  {
    var u := Handle(Handle(s, News(Some("ai"), Some([t2]))), News(Some("rust"), Some([t1, t3])));
    TwoDeliveries(s, "ai", [t2], "rust", [t1, t3]);
    NotArrayIndex("ai");
    NotArrayIndex("rust");
    PropertyOrderOfNames(["ai", "rust"]);
    TwoValues(u.buffers, "ai", "rust");
    ConcatTwo([t2], [t1, t3]);
    assert [t2] + [t1, t3] == [t2, t1, t3];
    SortThree(t2, t1, t3);
  }

  /** Two deliveries under different keywords into no buffers at all create
      the two buffers in arrival order. */
  lemma TwoDeliveries(s: State, k1: string, v1: seq<NewsItem>, k2: string, v2: seq<NewsItem>)
    requires s.buffers == Empty() && k1 != "" && k2 != "" && k1 != k2
    ensures var u := Handle(Handle(s, News(Some(k1), Some(v1))), News(Some(k2), Some(v2)));
            && u.buffers.order == [k1, k2]
            && u.buffers.entries == map[k1 := v1, k2 := v2]
  {
    var t := Handle(s, News(Some(k1), Some(v1)));
    assert t.buffers == Put(Empty(), k1, v1);
  }

  /** Ties follow `Object.values`, not arrival: a buffer under the keyword
      `1`, an array index, is listed before one under `b` that was created
      earlier, so its item comes first among items of the same time. */
  lemma IndexKeywordFirstAmongTies(s: State, x: NewsItem, y: NewsItem)
    requires s.buffers == Empty()
    requires x.pubDate == y.pubDate
    ensures var u := Handle(Handle(s, News(Some("b"), Some([x]))), News(Some("1"), Some([y])));
            GetAllNews(u) == [y, x]
  {
    var u := Handle(Handle(s, News(Some("b"), Some([x]))), News(Some("1"), Some([y])));
    TwoDeliveries(s, "b", [x], "1", [y]);
    NotArrayIndex("b");
    OneIsArrayIndex();
    NameThenIndex("b", "1");
    TwoValues(u.buffers, "1", "b");
    ConcatTwo([y], [x]);
    assert [y] + [x] == [y, x];
    SortTwo(y, x);
  }

  lemma OneIsArrayIndex()
    ensures IsArrayIndex("1")
  {
    assert "1"[..0] == [];
    assert Decimal("1") == 1;
  }

  lemma YearIsArrayIndex()
    ensures IsArrayIndex("2024")
  {
    assert "2024"[..3] == "202" && "202"[..2] == "20" && "20"[..1] == "2" && "2"[..0] == "";
    assert Decimal("2024") == 2024;
  }

  /** An object with a name key created before an array-index key
      enumerates the index key first. */
  lemma NameThenIndex(name: string, index: string)
    requires !IsArrayIndex(name) && IsArrayIndex(index)
    ensures PropertyOrder([name, index]) == [index, name]
  {
    assert [name, index][1..] == [index];
    assert IndexKeys([index]) == [index] + IndexKeys([]);
    assert IndexKeys([name, index]) == [index];
    assert NameKeys([index]) == [] + NameKeys([]);
    assert NameKeys([name, index]) == [name];
    assert SortIndices([index]) == InsertIndex(index, []) == [index];
  }

  /** After a restart the listing puts array-index keywords first: saving
      `ai` and then `2024` reloads as `2024`, `ai`. */
  lemma RestartListsIndexKeywordFirst(st: Store, id1: SubscriptionId, id2: SubscriptionId)
    requires st.subscriptions == Empty()
    ensures var saved := AddSubscription(AddSubscription(st, "ai", id1), "2024", id2);
            && GetAllSubscriptions(saved) == ["ai", "2024"]
            && Restored(saved.storage).order == ["2024", "ai"]
  {
    var first := AddSubscription(st, "ai", id1);
    var t := first.(subscriptions := Put(first.subscriptions, "2024", id2));
    var saved := AddSubscription(first, "2024", id2);
    assert saved == SaveToStorage(t);
    assert GetAllSubscriptions(saved) == ["ai", "2024"];
    SaveToStorageOrder(t);
    NotArrayIndex("ai");
    YearIsArrayIndex();
    NameThenIndex("ai", "2024");
  }
}
