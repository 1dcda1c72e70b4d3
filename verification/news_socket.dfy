/** The client side of the news socket protocol as a pure transition system.
    Every transport event and every client call maps a state to a new state;
    messages the client would emit are appended to `outbox`, and timer
    callbacks are queued in `pending` until `Fire` runs them against the
    state current at that moment. */
module NewsSocket {
  import opened Wrappers
  import opened OrderedMaps
  import opened PlainObjects
  import opened Text
  import opened NewsOrder
  import opened SubscriptionStore

  /** `DEFAULT_SUBSCRIBE_OPTIONS`: every five minutes, ten items per page. */
  const DefaultInterval: string := "*/5 * * * *"
  const DefaultDisplay: int := 10

  /** The disconnect reason the transport reports when the server closed
      the connection itself. */
  const ServerDisconnectReason: string := "io server disconnect"

  /** The optional second argument of `subscribe`; None is an absent field. */
  datatype SubscribeOptions = SubscribeOptions(interval: Option<string>, display: Option<int>)

  const NoOptions: SubscribeOptions := SubscribeOptions(None, None)

  /** An opaque, truthy server status payload. */
  datatype StatusData = StatusData(body: string)

  /** Messages the client sends to the server. */
  datatype ClientMsg =
    | SubscribeMsg(keyword: string, interval: string, display: int)
    | UnsubscribeMsg(keyword: string, subscriptionId: Option<SubscriptionId>)
    | GetCachedNewsMsg(keyword: string)
    | GetStatusMsg

  /** Events the transport delivers. Payload fields that may be missing,
      empty or of the wrong shape are Options: a `news` field that is not an
      array is None. */
  datatype ServerEvent =
    | Connect
    | Disconnect(reason: string)
    | ConnectError
    | News(keyword: Option<string>, news: Option<seq<NewsItem>>)
    | Subscribed(keyword: Option<string>, subscriptionId: Option<SubscriptionId>)
    | Unsubscribed(keyword: Option<string>)
    | CachedNews(keyword: Option<string>, news: Option<seq<NewsItem>>)
    | Status(data: Option<StatusData>)
    | ServerError

  /** Timer callbacks waiting to run. */
  datatype Task = ResubscribeTask | FetchCachedTask(keyword: string)

  /** The user-visible error conditions (the concrete messages are left out). */
  datatype Fault =
    | NotConnected
    | AlreadySubscribed(keyword: string)
    | ClosedByServer
    | ConnectFailed(attempt: nat)
    | ServerFault

  datatype State = State(
    connected: bool,
    error: Option<Fault>,
    attempts: nat,
    serverStatus: Option<StatusData>,
    store: Store,
    buffers: OMap<string, seq<NewsItem>>,
    outbox: seq<ClientMsg>,
    pending: seq<Task>)

  /** A payload field is truthy: present and not the empty string. */
  predicate Truthy(f: Option<string>) {
    f.Some? && f.value != ""
  }

  /** The keyword already has a saved subscription. */
  predicate Registered(s: State, keyword: string) {
    keyword in s.store.subscriptions.entries
  }

  /** Nothing a client call may not touch has changed: client calls only
      append to the outbox and the timer queue and set the error field. */
  ghost predicate ClientSide(s: State, r: State) {
    && r.connected == s.connected
    && r.attempts == s.attempts
    && r.serverStatus == s.serverStatus
    && r.store == s.store
    && r.buffers == s.buffers
  }

  /** The module-level state when the first consumer is created: the store is
      loaded from the slot, nothing is connected, no news is held. */
  function Start(storage: Option<Blob>): (s: State)
    ensures !s.connected && s.attempts == 0 && s.error == None && s.serverStatus == None
    ensures s.store.initialized && Persisted(s.store)
    ensures s.store.storage == storage && s.store.subscriptions == Restored(storage)
    ensures s.buffers.order == [] && s.outbox == [] && s.pending == []
  {
    State(false, None, 0, None, InitializeFromStorage(Fresh(storage)), Empty(), [], [])
  }

  /** Creating a consumer loads the store when it is not loaded yet. */
  function Use(s: State): (r: State)
    ensures r.store.initialized
    ensures r.store == InitializeFromStorage(s.store)
    ensures s.store.initialized ==> r == s
    ensures r == s.(store := r.store)
  {
    s.(store := InitializeFromStorage(s.store))
  }

  // ---------------------------------------------------------------------
  // Client calls

  /** The payload `subscribe` builds: the trimmed keyword, and each option
      that is falsy replaced by its default. */
  function SubscribeRequest(keyword: string, options: SubscribeOptions): (m: ClientMsg)
    ensures m.SubscribeMsg? && m.keyword == Trim(keyword)
    ensures IsTrimmed(m.keyword) && m.interval != "" && m.display != 0
    ensures Truthy(options.interval) ==> m.interval == options.interval.value
    ensures !Truthy(options.interval) ==> m.interval == DefaultInterval
    ensures options.display.Some? && options.display.value != 0 ==> m.display == options.display.value
    ensures options.display.None? || options.display.value == 0 ==> m.display == DefaultDisplay
  {
    var interval := if Truthy(options.interval) then options.interval.value else DefaultInterval;
    var display := if options.display.Some? && options.display.value != 0 then options.display.value else DefaultDisplay;
    SubscribeMsg(Trim(keyword), interval, display)
  }

  /** `subscribe(keyword, options)`: refused while disconnected, refused
      when the trimmed keyword is already saved, otherwise one request. The
      registry is left to the acknowledgement. */
  function Subscribe(s: State, keyword: string, options: SubscribeOptions): (r: State)
    ensures ClientSide(s, r) && r.pending == s.pending
    ensures !s.connected ==> r == s.(error := Some(NotConnected))
    ensures s.connected && Registered(s, Trim(keyword)) ==>
              r == s.(error := Some(AlreadySubscribed(Trim(keyword))))
    ensures s.connected && !Registered(s, Trim(keyword)) ==>
              r == s.(outbox := s.outbox + [SubscribeRequest(keyword, options)])
  {
    if !s.connected then s.(error := Some(NotConnected))
    else
      var k := Trim(keyword);
      if |s.store.subscriptions.order| > 0 && k in s.store.subscriptions.entries then
        s.(error := Some(AlreadySubscribed(k)))
      else
        s.(outbox := s.outbox + [SubscribeRequest(keyword, options)])
  }

  /** `unsubscribe(keyword)`: sends the keyword as given, with the id the
      registry holds for it (absent when there is none). */
  function Unsubscribe(s: State, keyword: string): (r: State)
    ensures ClientSide(s, r) && r.pending == s.pending && r.error == s.error
    ensures !s.connected ==> r == s
    ensures s.connected ==>
              r.outbox == s.outbox + [UnsubscribeMsg(keyword, GetSubscriptionId(s.store, keyword))]
  {
    if !s.connected then s
    else s.(outbox := s.outbox + [UnsubscribeMsg(keyword, GetSubscriptionId(s.store, keyword))])
  }

  /** `getCachedNews(keyword)`. */
  function GetCachedNews(s: State, keyword: string): (r: State)
    ensures ClientSide(s, r) && r.pending == s.pending && r.error == s.error
    ensures !s.connected ==> r == s
    ensures s.connected ==> r.outbox == s.outbox + [GetCachedNewsMsg(keyword)]
  {
    if !s.connected then s
    else s.(outbox := s.outbox + [GetCachedNewsMsg(keyword)])
  }

  /** `getServerStatus()`. */
  function GetServerStatus(s: State): (r: State)
    ensures ClientSide(s, r) && r.pending == s.pending && r.error == s.error
    ensures !s.connected ==> r == s
    ensures s.connected ==> r.outbox == s.outbox + [GetStatusMsg]
  {
    if !s.connected then s
    else s.(outbox := s.outbox + [GetStatusMsg])
  }

  /** One cache-refresh timer per keyword, in order. */
  function FetchTasks(keywords: seq<Keyword>): (r: seq<Task>)
    ensures |r| == |keywords|
    ensures forall i :: 0 <= i < |keywords| ==> r[i] == FetchCachedTask(keywords[i])
    decreases |keywords|
  {
    if keywords == [] then [] else [FetchCachedTask(keywords[0])] + FetchTasks(keywords[1..])
  }

  /** The subscribe request a replay emits for one saved keyword: none when
      its trimmed form is already saved. */
  function RequestFor(keyword: Keyword, st: Store): seq<ClientMsg> {
    if Trim(keyword) in st.subscriptions.entries then [] else [SubscribeRequest(keyword, NoOptions)]
  }

  /** The subscribe requests a replay of `keywords` emits against a registry
      that the replay itself never changes. */
  function ReplayRequests(keywords: seq<Keyword>, st: Store): seq<ClientMsg>
    decreases |keywords|
  {
    if keywords == [] then [] else RequestFor(keywords[0], st) + ReplayRequests(keywords[1..], st)
  }

  /** One iteration of the `forEach` in `resubscribeAll`: `subscribe(keyword)`
      with no options, then a cache-refresh timer for the keyword. */
  function ReplayOne(s: State, keyword: Keyword): (r: State)
    ensures r.pending == s.pending + [FetchCachedTask(keyword)]
  {
    var t := Subscribe(s, keyword, NoOptions);
    t.(pending := t.pending + [FetchCachedTask(keyword)])
  }

  /** One iteration sends the request `RequestFor` names, if any. */
  lemma ReplayOneOutbox(s: State, keyword: Keyword)
    requires s.connected
    ensures ReplayOne(s, keyword).outbox == s.outbox + RequestFor(keyword, s.store)
  {
  }

  /** One iteration touches only the outbox, the timer queue and the error. */
  lemma ReplayOneFrame(s: State, keyword: Keyword)
    ensures ClientSide(s, ReplayOne(s, keyword))
  {
  }

  /** The whole `forEach` over `keywords`. */
  function Replay(s: State, keywords: seq<Keyword>): State
    decreases |keywords|
  {
    if keywords == [] then s else Replay(ReplayOne(s, keywords[0]), keywords[1..])
  }

  /** A replay only appends to the outbox and the timer queue. */
  lemma {:induction false} ReplayFrame(s: State, keywords: seq<Keyword>)
    ensures ClientSide(s, Replay(s, keywords))
    decreases |keywords|
  {
    if keywords != [] {
      ReplayOneFrame(s, keywords[0]);
      ReplayFrame(ReplayOne(s, keywords[0]), keywords[1..]);
    }
  }

  /** A replay sends one subscribe request per keyword whose trimmed form is
      not saved, in keyword order. */
  lemma {:induction false} ReplayOutbox(s: State, keywords: seq<Keyword>)
    requires s.connected
    ensures Replay(s, keywords).outbox == s.outbox + ReplayRequests(keywords, s.store)
    decreases |keywords|
  {
    if keywords == [] {
      assert s.outbox + [] == s.outbox;
    } else {
      var t := ReplayOne(s, keywords[0]);
      assert Replay(s, keywords) == Replay(t, keywords[1..]);
      ReplayOneOutbox(s, keywords[0]);
      ReplayOneFrame(s, keywords[0]);
      ReplayOutbox(t, keywords[1..]);
      var head := RequestFor(keywords[0], s.store);
      var tail := ReplayRequests(keywords[1..], s.store);
      assert ReplayRequests(keywords, s.store) == head + tail;
      assert t.outbox == s.outbox + head;
      assert t.store == s.store;
      ConcatAssoc(s.outbox, head, tail);
    }
  }

  /** A replay queues one cache refresh per keyword, in keyword order. */
  lemma {:induction false} ReplayPending(s: State, keywords: seq<Keyword>)
    ensures Replay(s, keywords).pending == s.pending + FetchTasks(keywords)
    decreases |keywords|
  {
    if keywords == [] {
      assert s.pending + [] == s.pending;
    } else {
      ReplayPending(ReplayOne(s, keywords[0]), keywords[1..]);
      ReplayPendingStep(s, keywords);
    }
  }

  lemma ReplayPendingStep(s: State, keywords: seq<Keyword>)
    requires keywords != []
    requires var t := ReplayOne(s, keywords[0]);
             Replay(t, keywords[1..]).pending == t.pending + FetchTasks(keywords[1..])
    ensures Replay(s, keywords).pending == s.pending + FetchTasks(keywords)
  {
    ConcatAssoc(s.pending, [FetchCachedTask(keywords[0])], FetchTasks(keywords[1..]));
  }

  lemma ConcatAssoc<T>(a: seq<T>, b: seq<T>, c: seq<T>)
    ensures a + b + c == a + (b + c)
  {
  }

  /** When every replayed keyword's trimmed form is already saved, the replay
      sends nothing and leaves the duplicate error of the last keyword. */
  lemma {:induction false} ReplayAllRejected(s: State, keywords: seq<Keyword>)
    requires s.connected && keywords != []
    requires forall i :: 0 <= i < |keywords| ==> Registered(s, Trim(keywords[i]))
    ensures Replay(s, keywords).outbox == s.outbox
    ensures Replay(s, keywords).error == Some(AlreadySubscribed(Trim(keywords[|keywords| - 1])))
    decreases |keywords|
  {
    var t := ReplayOne(s, keywords[0]);
    if |keywords| > 1 {
      ReplayAllRejected(t, keywords[1..]);
    }
  }

  /** The error a replay of `keywords` leaves behind when it starts with
      error `e`: the duplicate error of the last keyword whose trimmed form
      is saved, or `e` when no keyword is refused. */
  function ReplayError(keywords: seq<Keyword>, st: Store, e: Option<Fault>): Option<Fault>
    decreases |keywords|
  {
    if keywords == [] then e
    else
      var k := keywords[|keywords| - 1];
      if Trim(k) in st.subscriptions.entries then Some(AlreadySubscribed(Trim(k)))
      else ReplayError(keywords[..|keywords| - 1], st, e)
  }

  /** Refusing a first keyword only changes the error the rest starts from. */
  lemma {:induction false} ReplayErrorCons(k: Keyword, ks: seq<Keyword>, st: Store, e: Option<Fault>)
    ensures ReplayError([k] + ks, st, e) == ReplayError(ks, st, ReplayError([k], st, e))
    decreases |ks|
  {
    if ks == [] {
      assert [k] + ks == [k];
    } else {
      var n := |ks| - 1;
      assert ([k] + ks)[..|ks|] == [k] + ks[..n];
      assert ([k] + ks)[|ks|] == ks[n];
      ReplayErrorCons(k, ks[..n], st, e);
    }
  }

  /** A replay ends with the error `ReplayError` names: every refused
      keyword overwrites the error and every sent request leaves it. */
  lemma {:induction false} ReplayErrorFold(s: State, keywords: seq<Keyword>)
    requires s.connected
    ensures Replay(s, keywords).error == ReplayError(keywords, s.store, s.error)
    decreases |keywords|
  {
    if keywords != [] {
      var k := keywords[0];
      var t := ReplayOne(s, k);
      assert [k][..0] == [];
      assert t.error == ReplayError([k], s.store, s.error);
      ReplayOneFrame(s, k);
      ReplayErrorFold(t, keywords[1..]);
      assert [k] + keywords[1..] == keywords;
      ReplayErrorCons(k, keywords[1..], s.store, s.error);
    }
  }

  /** `resubscribeAll()`: nothing when disconnected or when no keyword is
      saved; otherwise a replay of the saved keywords in insertion order. */
  function ResubscribeAll(s: State): (r: State)
    ensures ClientSide(s, r)
    ensures !s.connected || GetAllSubscriptions(s.store) == [] ==> r == s
    ensures s.connected ==>
              && r.outbox == s.outbox + ReplayRequests(GetAllSubscriptions(s.store), s.store)
              && r.pending == s.pending + FetchTasks(GetAllSubscriptions(s.store))
              && r.error == ReplayError(GetAllSubscriptions(s.store), s.store, s.error)
    ensures s.connected && GetAllSubscriptions(s.store) != [] &&
            (forall k :: k in GetAllSubscriptions(s.store) ==> Trim(k) == k) ==>
              && r.outbox == s.outbox
              && r.error == Some(AlreadySubscribed(Last(GetAllSubscriptions(s.store))))
  {
    var saved := s.store.subscriptions.order;
    if !s.connected || |saved| == 0 then s
    else
      ReplayFrame(s, saved);
      ReplayOutbox(s, saved);
      ReplayPending(s, saved);
      ReplayErrorFold(s, saved);
      SavedAlreadyTrimmed(s);
      Replay(s, saved)
  }

  /** When every saved keyword is its own trim, replaying the saved keywords
      is rejected as a duplicate at every step. */
  lemma SavedAlreadyTrimmed(s: State)
    requires s.connected && s.store.subscriptions.order != []
    ensures (forall k :: k in s.store.subscriptions.order ==> Trim(k) == k) ==>
              && Replay(s, s.store.subscriptions.order).outbox == s.outbox
              && Replay(s, s.store.subscriptions.order).error ==
                 Some(AlreadySubscribed(Last(s.store.subscriptions.order)))
  {
    var saved := s.store.subscriptions.order;
    if forall k :: k in saved ==> Trim(k) == k {
      forall i | 0 <= i < |saved|
        ensures Registered(s, Trim(saved[i]))
      {
        assert saved[i] in saved;
      }
      ReplayAllRejected(s, saved);
      assert Last(saved) in saved;
    }
  }

  function Last<T>(s: seq<T>): T
    requires s != []
  {
    s[|s| - 1]
  }

  // ---------------------------------------------------------------------
  // Reads

  /** `getNews(keyword)`: the keyword's buffer, or nothing. */
  function GetNews(s: State, keyword: string): (r: seq<NewsItem>)
    ensures keyword !in s.buffers.order ==> r == []
    ensures keyword in s.buffers.order ==> r == s.buffers.entries[keyword]
  {
    Get(s.buffers, keyword).GetOr([])
  }

  /** `getAllNews`: every buffer's items, newest first. Items with the same
      publication time stay in the order `Object.values` lists the buffers:
      keywords that are array indices first, by number, then the others by
      when their buffer was created. */
  function GetAllNews(s: State): (r: seq<NewsItem>)
    ensures NewestFirst(r)
    ensures multiset(r) == multiset(Concat(ObjectValues(s.buffers)))
    ensures forall d :: PublishedAt(r, d) == PublishedAt(Concat(ObjectValues(s.buffers)), d)
  {
    var all := Concat(ObjectValues(s.buffers));
    SortStableAll(all);
    SortNewestFirst(all)
  }

  // ---------------------------------------------------------------------
  // Transport events

  /** `connect`. */
  function OnConnect(s: State): (r: State)
    ensures r.connected && r.error == None && r.attempts == 0
    ensures r.pending == s.pending + [ResubscribeTask]
    ensures r.store == s.store && r.buffers == s.buffers && r.outbox == s.outbox
    ensures r.serverStatus == s.serverStatus
  {
    s.(connected := true, error := None, attempts := 0, pending := s.pending + [ResubscribeTask])
  }

  /** `disconnect(reason)`: only a server-initiated close is reported. */
  function OnDisconnect(s: State, reason: string): (r: State)
    ensures !r.connected
    ensures reason == ServerDisconnectReason ==> r.error == Some(ClosedByServer)
    ensures reason != ServerDisconnectReason ==> r.error == s.error
    ensures r == s.(connected := false, error := r.error)
  {
    var t := s.(connected := false);
    if reason == ServerDisconnectReason then t.(error := Some(ClosedByServer)) else t
  }

  /** `connect_error`: one more failed attempt, reported with its number. */
  function OnConnectError(s: State): (r: State)
    ensures r.attempts == s.attempts + 1
    ensures r.error == Some(ConnectFailed(r.attempts))
    ensures r == s.(attempts := r.attempts, error := r.error)
  {
    var n := s.attempts + 1;
    s.(attempts := n, error := Some(ConnectFailed(n)))
  }

  /** `news` and `cached-news`: a well-formed payload replaces the keyword's
      buffer wholesale; anything else is dropped. */
  function ReplaceBuffer(s: State, keyword: Option<string>, news: Option<seq<NewsItem>>): (r: State)
    ensures Truthy(keyword) && news.Some? ==>
              && GetNews(r, keyword.value) == news.value
              && (forall k :: k != keyword.value ==> GetNews(r, k) == GetNews(s, k))
              && (keyword.value in s.buffers.order ==> r.buffers.order == s.buffers.order)
              && (keyword.value !in s.buffers.order ==> r.buffers.order == s.buffers.order + [keyword.value])
              && r == s.(buffers := r.buffers)
    ensures !(Truthy(keyword) && news.Some?) ==> r == s
  {
    if Truthy(keyword) && news.Some? then s.(buffers := Put(s.buffers, keyword.value, news.value))
    else s
  }

  /** `subscribed`: a well-formed acknowledgement saves the subscription,
      clears the error and queues a cache refresh for the keyword. */
  function OnSubscribed(s: State, keyword: Option<string>, id: Option<SubscriptionId>): (r: State)
    ensures Truthy(keyword) && Truthy(id) ==>
              && GetSubscriptionId(r.store, keyword.value) == Some(id.value)
              && (forall k :: k != keyword.value ==> GetSubscriptionId(r.store, k) == GetSubscriptionId(s.store, k))
              && Persisted(r.store)
              && r.store.initialized == s.store.initialized
              && (keyword.value in GetAllSubscriptions(s.store) ==>
                    GetAllSubscriptions(r.store) == GetAllSubscriptions(s.store))
              && (keyword.value !in GetAllSubscriptions(s.store) ==>
                    GetAllSubscriptions(r.store) == GetAllSubscriptions(s.store) + [keyword.value])
              && r.error == None
              && r.pending == s.pending + [FetchCachedTask(keyword.value)]
              && r == s.(store := r.store, error := None, pending := r.pending)
    ensures !(Truthy(keyword) && Truthy(id)) ==> r == s
  {
    if Truthy(keyword) && Truthy(id) then
      s.(store := AddSubscription(s.store, keyword.value, id.value),
         error := None,
         pending := s.pending + [FetchCachedTask(keyword.value)])
    else s
  }

  /** `unsubscribed`: forgets the saved subscription and the keyword's buffer. */
  function OnUnsubscribed(s: State, keyword: Option<string>): (r: State)
    ensures Truthy(keyword) ==>
              && GetSubscriptionId(r.store, keyword.value) == None
              && GetNews(r, keyword.value) == []
              && r.buffers.order == Without(s.buffers.order, keyword.value)
              && keyword.value !in r.buffers.order
              && (forall k :: k != keyword.value ==> GetSubscriptionId(r.store, k) == GetSubscriptionId(s.store, k))
              && (forall k :: k != keyword.value ==> GetNews(r, k) == GetNews(s, k))
              && GetAllSubscriptions(r.store) == Without(GetAllSubscriptions(s.store), keyword.value)
              && r.store.initialized == s.store.initialized
              && Persisted(r.store)
              && r == s.(store := r.store, buffers := r.buffers)
    ensures !Truthy(keyword) ==> r == s
  {
    if Truthy(keyword) then
      s.(store := RemoveSubscription(s.store, keyword.value),
         buffers := Remove(s.buffers, keyword.value))
    else s
  }

  /** `status`: a truthy payload becomes the server status. */
  function OnStatus(s: State, data: Option<StatusData>): (r: State)
    ensures data.Some? ==> r == s.(serverStatus := data)
    ensures data.None? ==> r == s
  {
    if data.Some? then s.(serverStatus := data) else s
  }

  /** `error`: reported, nothing else changes. */
  function OnServerError(s: State): (r: State)
    ensures r.error == Some(ServerFault) && r == s.(error := r.error)
  {
    s.(error := Some(ServerFault))
  }

  /** Dispatches a transport event to its handler. */
  function Handle(s: State, e: ServerEvent): (r: State)
    ensures r.outbox == s.outbox
    ensures r.attempts == (if e.Connect? then 0 else if e.ConnectError? then s.attempts + 1 else s.attempts)
    ensures !(e.Subscribed? || e.Unsubscribed?) ==> r.store == s.store
    ensures !(e.News? || e.CachedNews? || e.Unsubscribed?) ==> r.buffers == s.buffers
    ensures r.connected == (if e.Connect? then true else if e.Disconnect? then false else s.connected)
  {
    match e
    case Connect => OnConnect(s)
    case Disconnect(reason) => OnDisconnect(s, reason)
    case ConnectError => OnConnectError(s)
    case News(k, news) => ReplaceBuffer(s, k, news)
    case Subscribed(k, id) => OnSubscribed(s, k, id)
    case Unsubscribed(k) => OnUnsubscribed(s, k)
    case CachedNews(k, news) => ReplaceBuffer(s, k, news)
    case Status(data) => OnStatus(s, data)
    case ServerError => OnServerError(s)
  }

  // ---------------------------------------------------------------------
  // Timers

  /** Runs the `i`-th queued timer callback against the current state. Any
      queued callback may be the next to fire, which covers every order the
      real timers can take (the one due first fires first, and equal delays
      fire in the order they were set). */
  function Fire(s: State, i: nat): (r: State)
    requires i < |s.pending|
    ensures var rest := s.pending[..i] + s.pending[i + 1..];
            match s.pending[i]
            case FetchCachedTask(k) =>
              && (!s.connected ==> r == s.(pending := rest))
              && (s.connected ==> r == s.(pending := rest, outbox := s.outbox + [GetCachedNewsMsg(k)]))
            case ResubscribeTask =>
              r == ResubscribeAll(s.(pending := rest))
  {
    var t := s.(pending := s.pending[..i] + s.pending[i + 1..]);
    match s.pending[i]
    case FetchCachedTask(k) => GetCachedNews(t, k)
    case ResubscribeTask => ResubscribeAll(t)
  }
}
