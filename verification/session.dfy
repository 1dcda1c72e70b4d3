/** Whole-session properties: any interleaving of transport events, client
    calls, timer firings and consumer creation, starting from a freshly
    loaded state, keeps the registry's storage slot in step with memory,
    only ever sends well-formed subscribe requests, and never keeps a news
    buffer under an empty keyword. */
module Session {
  import opened Wrappers
  import opened OrderedMaps
  import opened Text
  import opened SubscriptionStore
  import opened NewsSocket

  /** The calls the consumer-facing write surface offers. */
  datatype ClientCall =
    | SubscribeCall(keyword: string, options: SubscribeOptions)
    | UnsubscribeCall(keyword: string)
    | GetCachedNewsCall(keyword: string)
    | GetServerStatusCall
    | ResubscribeAllCall

  /** One thing that can happen to the client. */
  datatype Step =
    | Transport(event: ServerEvent)
    | Call(call: ClientCall)
    | Timer(index: nat)
    | NewConsumer

  function Invoke(s: State, c: ClientCall): State {
    match c
    case SubscribeCall(k, o) => Subscribe(s, k, o)
    case UnsubscribeCall(k) => Unsubscribe(s, k)
    case GetCachedNewsCall(k) => GetCachedNews(s, k)
    case GetServerStatusCall => GetServerStatus(s)
    case ResubscribeAllCall => ResubscribeAll(s)
  }

  /** A timer index that names no queued callback is no step at all. */
  function Next(s: State, step: Step): State {
    match step
    case Transport(e) => Handle(s, e)
    case Call(c) => Invoke(s, c)
    case Timer(i) => if i < |s.pending| then Fire(s, i) else s
    case NewConsumer => Use(s)
  }

  function Run(s: State, steps: seq<Step>): State
    decreases |steps|
  {
    if steps == [] then s else Run(Next(s, steps[0]), steps[1..])
  }

  /** A subscribe request carries a trimmed keyword and truthy options. */
  predicate WellFormedRequest(m: ClientMsg) {
    m.SubscribeMsg? ==> IsTrimmed(m.keyword) && m.interval != "" && m.display != 0
  }

  ghost predicate Inv(s: State) {
    && Persisted(s.store)
    && (forall i :: 0 <= i < |s.outbox| ==> WellFormedRequest(s.outbox[i]))
    && (forall k :: k in s.buffers.order ==> k != "")
  }

  lemma {:induction false} ReplayRequestsWellFormed(keywords: seq<Keyword>, st: Store)
    ensures forall i :: 0 <= i < |ReplayRequests(keywords, st)| ==> WellFormedRequest(ReplayRequests(keywords, st)[i])
    decreases |keywords|
  {
    if keywords != [] {
      ReplayRequestsWellFormed(keywords[1..], st);
    }
  }

  lemma AppendWellFormed(a: seq<ClientMsg>, b: seq<ClientMsg>)
    requires forall i :: 0 <= i < |a| ==> WellFormedRequest(a[i])
    requires forall i :: 0 <= i < |b| ==> WellFormedRequest(b[i])
    ensures forall i :: 0 <= i < |a + b| ==> WellFormedRequest((a + b)[i])
  {
  }

  lemma ResubscribeKeepsInv(s: State)
    requires Inv(s)
    ensures Inv(ResubscribeAll(s))
  {
    if s.connected {
      ReplayRequestsWellFormed(GetAllSubscriptions(s.store), s.store);
      AppendWellFormed(s.outbox, ReplayRequests(GetAllSubscriptions(s.store), s.store));
    }
  }

  lemma InvokeKeepsInv(s: State, c: ClientCall)
    requires Inv(s)
    ensures Inv(Invoke(s, c))
  {
    match c
    case ResubscribeAllCall => ResubscribeKeepsInv(s);
    case SubscribeCall(k, o) =>
      var r := Subscribe(s, k, o);
      if s.connected && !Registered(s, Trim(k)) {
        assert r.outbox == s.outbox + [r.outbox[|s.outbox|]];
      }
    case _ =>
  }

  lemma HandleKeepsInv(s: State, e: ServerEvent)
    requires Inv(s)
    ensures Inv(Handle(s, e))
  {
    match e
    case Unsubscribed(k) =>
      if Truthy(k) {
        assert Handle(s, e).buffers.order == Without(s.buffers.order, k.value);
      }
    case _ =>
  }

  lemma NextKeepsInv(s: State, step: Step)
    requires Inv(s)
    ensures Inv(Next(s, step))
  {
    match step
    case Transport(e) => HandleKeepsInv(s, e);
    case Call(c) => InvokeKeepsInv(s, c);
    case Timer(i) =>
      if i < |s.pending| {
        var t := s.(pending := s.pending[..i] + s.pending[i + 1..]);
        if s.pending[i].ResubscribeTask? {
          ResubscribeKeepsInv(t);
        }
      }
    case NewConsumer => InitializeKeepsPersisted(s.store);
  }

  /** Every reachable state satisfies the session invariant. */
  lemma {:induction false} RunKeepsInv(s: State, steps: seq<Step>)
    requires Inv(s)
    ensures Inv(Run(s, steps))
    decreases |steps|
  {
    if steps != [] {
      NextKeepsInv(s, steps[0]);
      RunKeepsInv(Next(s, steps[0]), steps[1..]);
    }
  }

  lemma StartInv(storage: Option<Blob>)
    ensures Inv(Start(storage))
  {
  }

  /** From a fresh start, after any steps at all, a restart would load
      exactly the subscriptions in memory. */
  lemma PersistedAfterAnySession(storage: Option<Blob>, steps: seq<Step>)
    ensures Persisted(Run(Start(storage), steps).store)
  {
    StartInv(storage);
    RunKeepsInv(Start(storage), steps);
  }

  function ConnectErrors(steps: seq<Step>): nat
    decreases |steps|
  {
    if steps == [] then 0
    else (if steps[0] == Transport(ConnectError) then 1 else 0) + ConnectErrors(steps[1..])
  }

  /** Between two successful connects the attempt counter counts exactly the
      failed connection attempts. */
  lemma {:induction false} AttemptsCountFailures(s: State, steps: seq<Step>)
    requires forall i :: 0 <= i < |steps| ==> steps[i] != Transport(Connect)
    ensures Run(s, steps).attempts == s.attempts + ConnectErrors(steps)
    decreases |steps|
  {
    if steps != [] {
      AttemptsCountFailures(Next(s, steps[0]), steps[1..]);
      match steps[0]
      case Transport(e) =>
      case Call(c) =>
      case Timer(i) =>
      case NewConsumer =>
    }
  }

  /** A successful connect resets the counter, whatever came before. */
  lemma ConnectResetsAttempts(s: State, steps: seq<Step>)
    ensures Run(s, steps + [Transport(Connect)]).attempts == 0
  {
    RunSnoc(s, steps, Transport(Connect));
  }

  lemma {:induction false} RunSnoc(s: State, steps: seq<Step>, last: Step)
    ensures Run(s, steps + [last]) == Next(Run(s, steps), last)
    decreases |steps|
  {
    if steps == [] {
      assert [] + [last] == [last];
    } else {
      assert (steps + [last])[1..] == steps[1..] + [last];
      RunSnoc(Next(s, steps[0]), steps[1..], last);
    }
  }

  /** The id an `unsubscribe` sends is the one the last `subscribed`
      acknowledgement for that keyword delivered. */
  lemma UnsubscribeSendsAckedId(s: State, keyword: string, id: SubscriptionId)
    requires s.connected && keyword != "" && id != ""
    ensures var t := Handle(s, Subscribed(Some(keyword), Some(id)));
            Unsubscribe(t, keyword).outbox == s.outbox + [UnsubscribeMsg(keyword, Some(id))]
  {
  }

  /** After the server acknowledges an unsubscribe, the keyword has neither a
      saved id nor news, and a later `unsubscribe` sends no id. */
  lemma UnsubscribedForgetsKeyword(s: State, keyword: string)
    requires keyword != ""
    ensures var t := Handle(s, Unsubscribed(Some(keyword)));
            && GetNews(t, keyword) == []
            && GetSubscriptionId(t.store, keyword) == None
            && keyword !in GetAllSubscriptions(t.store)
  {
  }
}
