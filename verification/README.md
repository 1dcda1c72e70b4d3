# News tracker client: subscription registry and socket protocol, in Dafny

This project models the client core of a real-time keyword-news tracker. A
user subscribes to keywords. The server pushes matching news over a
socket.io connection. The client keeps three things consistent across
connects, disconnects and reconnects:

- the set of subscriptions;
- a durable copy of that set in browser storage;
- a per-keyword cache of pushed news.

The model has two parts.

- **The subscription store** (`src/stores/subscriptionStore.js`). It is an
  insertion-ordered map from keyword to subscription id, with an
  `initialized` flag that makes loading happen once. The storage slot is
  `Option<Blob>`: absent, a serialised snapshot, or text that does not
  parse. Every add or remove rewrites the whole slot. Module
  `SubscriptionStore`, built on the generic insertion-ordered map in
  `OrderedMaps`. The slot's text comes from a plain object
  (`Object.fromEntries`), so the keywords are written, and read back, in
  that object's enumeration order.
- **The socket composable** (`src/composables/useNewsSocket.js`). It is a pure
  transition system over
  `State(connected, error, attempts, serverStatus, store, buffers, outbox, pending)`.
  Module `NewsSocket` holds the model:
  - each transport event (`connect`, `disconnect`, `connect_error`,
    `news`, `subscribed`, `unsubscribed`, `cached-news`, `status`,
    `error`) is a function from state to state;
  - so is each client call (`subscribe`, `unsubscribe`, `getCachedNews`,
    `getServerStatus`, `resubscribeAll`);
  - a message the client would emit is appended to `outbox`;
  - each `setTimeout` callback is queued in `pending`, and `Fire(s, i)` runs
    the `i`-th one against the state current at that moment. The model lets
    any queued callback fire next. This covers every order the real timers
    can take: the one due first fires first, and callbacks with equal delays
    fire in the order they were set.

  Server payloads are datatypes whose fields are `Option`s. This lets the
  model state the "logged and dropped" branches. `getNews` and `getAllNews`
  are pure reads. `pubDate` is an integer timestamp.

Supporting modules:

- `PlainObjects` models plain objects with string keys. An object records
  its properties in creation order, kept as an `OrderedMap`; this is how
  the news buffers are held. `Object.values`, `Object.entries` and
  `JSON.stringify` enumerate differently, following OrdinaryOwnPropertyKeys
  (section 10.1.11.1 of ECMA-262). Keys that are array indices come first,
  in ascending numeric order. An array index is the canonical decimal form
  of 0 to 2^32 - 2. All other keys follow, in creation order.
- `Text` models `String.prototype.trim`, using the full ECMAScript
  WhiteSpace and LineTerminator set.
- `NewsOrder` models the stable newest-first sort behind `getAllNews`.
- `Session` models whole runs, meaning any interleaving of steps.
- `Scenarios` holds the documented example behaviours.

**The reconnect replay is modelled as the code does it.** `resubscribeAll`
reads the saved keywords out of the registry and calls `subscribe` on each.
`subscribe` refuses any trimmed keyword that is already in the registry. So
for saved keywords that are already trimmed, the replay sends **no**
`subscribe` request. It sets the duplicate error and queues one
`get-cached-news` per keyword. The function's name, and the "subscribing"
log line it writes for each keyword before the call
(src/composables/useNewsSocket.js:209-211), suggest one subscribe request
per saved keyword. The code does not send them. The model follows the
code:

- `NewsSocket.ResubscribeAll` and `NewsSocket.ReplayOutbox` state the
  general case: one request per saved keyword whose trimmed form is not
  saved;
- `Scenarios.ReconnectReplaysNoSubscribe` states the common case: nothing
  is sent.

## Model

| member | source | states |
|---|---|---|
| `SubscriptionStore.InitializeFromStorage` | src/stores/subscriptionStore.js:9-28 | Sets the flag in every case, including an unparseable slot. Once the flag is set, the call changes nothing, so loading is idempotent. A parseable snapshot replaces the map wholesale. An absent or unparseable slot leaves the map as it was. The slot itself is never touched. |
| `SubscriptionStore.SaveToStorage` | src/stores/subscriptionStore.js:30-38 | The slot becomes a snapshot. Reloading that snapshot yields exactly the in-memory map, and the map itself is unchanged. |
| `SubscriptionStore.SaveToStorageOrder` | src/stores/subscriptionStore.js:32-33 | A reload lists the keywords in the enumeration order of the object that was written: array-index keywords first by number, then the rest in insertion order. |
| `SubscriptionStore.AddSubscription` | src/stores/subscriptionStore.js:40-43 | Afterwards `getSubscriptionId(k)` is the new id. An existing key keeps its position in the listing. A new key is appended at the end. The rewritten slot reloads to the same keyword-to-id map. |
| `SubscriptionStore.AddSubscriptionKeepsOthers` | src/stores/subscriptionStore.js:41 | Adding one keyword leaves every other keyword's id as it was. |
| `SubscriptionStore.RemoveSubscription` | src/stores/subscriptionStore.js:45-48 | Exactly `k` loses its id; the others keep theirs. The listing is the old listing with `k` dropped, in order. Removing an absent key leaves the map unchanged but still writes the slot, which reloads to the same map. |
| `SubscriptionStore.RemoveClosesGap` | src/stores/subscriptionStore.js:46 | Deleting the key at position `i` of the listing cuts out exactly that position. |
| `SubscriptionStore.GetSubscriptionId` | src/stores/subscriptionStore.js:50-52 | An id is returned exactly when the keyword is listed, and it is the id saved for it. |
| `SubscriptionStore.GetAllSubscriptions` | src/stores/subscriptionStore.js:54-56 | The keywords of the map, each once. |
| `SubscriptionStore.ClearAll` | src/stores/subscriptionStore.js:58-61 | The listing becomes empty and the slot absent. A new process loading from that slot starts with an empty registry. |
| `SubscriptionStore.PersistedAfterAnyOps` | src/stores/subscriptionStore.js:40-61 | After any sequence of load, add, remove and clear on a store that agrees with its slot, the slot still decodes to exactly the in-memory map. |
| `OrderedMaps.Get` | src/stores/subscriptionStore.js:51 | `Map.get`: a value exactly for the keys present, and it is the stored one. |
| `OrderedMaps.Put` | src/stores/subscriptionStore.js:41 | `Map.set` semantics: the key gets the value, and other keys are unaffected. Position is kept for an existing key; a new key is appended. |
| `OrderedMaps.Remove` | src/stores/subscriptionStore.js:46 | `Map.delete`, and `delete` on the buffers object (src/composables/useNewsSocket.js:121): the key reads as absent, other keys are unaffected, and the order loses that key only. Deleting an absent key changes nothing. |
| `OrderedMaps.FromEntriesKeys` | src/stores/subscriptionStore.js:18 | `new Map(pairs)` has exactly the keys that occur in the pairs. |
| `OrderedMaps.FromEntriesLastWins` | src/stores/subscriptionStore.js:18 | For a repeated key, `new Map(pairs)` keeps the value of its last pair. |
| `OrderedMaps.FromDistinctEntries` | src/stores/subscriptionStore.js:18 | With distinct keys, `new Map(pairs)` lists the keys in pair order, each with its own value. |
| `PlainObjects.PropertyOrderMembers` | src/composables/useNewsSocket.js:226 | Enumeration lists exactly the object's keys. |
| `PlainObjects.PropertyOrderShape` | src/composables/useNewsSocket.js:226 | Array-index keys come before all other keys, in non-decreasing numeric order, and the other keys keep their creation order. |
| `PlainObjects.PropertyOrderStrict` | src/composables/useNewsSocket.js:226 | For an object's distinct keys, enumeration lists no key twice and the array indices strictly ascend. |
| `PlainObjects.PropertyOrderOfNames` | src/composables/useNewsSocket.js:226 | An object without array-index keys enumerates in creation order. |
| `PlainObjects.IndexInjective` | src/composables/useNewsSocket.js:226 | Two array-index keys with the same number are the same key, so the numeric order of array indices is strict. |
| `PlainObjects.ObjectValuesIndex` | src/composables/useNewsSocket.js:226 | `Object.values` has one value per property: the `i`-th is the value of the `i`-th key in enumeration order. |
| `PlainObjects.ObjectValuesOfNames` | src/composables/useNewsSocket.js:226 | Without array-index keys, `Object.values` follows creation order. |
| `PlainObjects.ObjectEntriesIndex` | src/stores/subscriptionStore.js:32-33 | `Object.entries` pairs the `i`-th key in enumeration order with its value; `JSON.stringify` writes the same sequence. |
| `PlainObjects.ObjectEntriesRoundTrip` | src/stores/subscriptionStore.js:17-18 | `new Map(Object.entries(obj))` holds exactly the object's key/value pairs, and lists the keys in enumeration order. |
| `OrderedMaps.WithoutAt` | src/stores/subscriptionStore.js:46 | Dropping a key from a duplicate-free key order cuts out the one position where it sits. |
| `Text.Trim` | src/composables/useNewsSocket.js:152 | The result has no white space at either end and is no longer than the input. |
| `Text.TrimSlices` | src/composables/useNewsSocket.js:152 | The input is some white space, then the result, then some white space. |
| `NewsSocket.Start` | src/composables/useNewsSocket.js:12-26 | The first consumer starts disconnected, with no error, no server status, zero attempts and no news. Its store holds the given slot, and its registry is exactly what loading that slot yields. |
| `NewsSocket.Use` | src/composables/useNewsSocket.js:22-26 | Creating a consumer runs `initializeFromStorage` on the store, with that function's contract, and changes nothing else. Once the store is loaded, creating another consumer changes nothing at all. |
| `NewsSocket.SubscribeRequest` | src/composables/useNewsSocket.js:162-166 | The payload carries the trimmed keyword. An option that is missing or falsy is replaced by its default, `'*/5 * * * *'` or `10`; a truthy option is kept. The interval is never empty and the display is never 0. |
| `NewsSocket.Subscribe` | src/composables/useNewsSocket.js:145-170 | Never touches the registry, buffers, timers, connection or attempts. While disconnected it only sets the not-connected error. When the trimmed keyword is saved it only sets the duplicate error. Otherwise it appends exactly one subscribe request. |
| `NewsSocket.Unsubscribe` | src/composables/useNewsSocket.js:172-180 | A no-op when disconnected. Otherwise it appends one unsubscribe carrying the untrimmed keyword and the id the registry holds for it, which may be absent. |
| `NewsSocket.GetCachedNews` | src/composables/useNewsSocket.js:182-186 | A no-op when disconnected. Otherwise it appends one `get-cached-news` for the keyword. |
| `NewsSocket.GetServerStatus` | src/composables/useNewsSocket.js:188-192 | A no-op when disconnected. Otherwise it appends one `get-status`. |
| `NewsSocket.ResubscribeAll` | src/composables/useNewsSocket.js:194-218 | A no-op when disconnected or when nothing is saved. Otherwise it sends one request per saved keyword whose trimmed form is not saved, and queues one cache refresh per saved keyword, in insertion order. Registry and buffers are unchanged. The error ends as the duplicate error of the last saved keyword whose trimmed form is saved, or as it was when there is none; so when every saved keyword is already trimmed, nothing is sent and the error names the last keyword. |
| `NewsSocket.ReplayOutbox` | src/composables/useNewsSocket.js:209-212 | Replaying a list of keywords appends exactly the subscribe requests for those whose trimmed form is not saved, in order. |
| `NewsSocket.ReplayPending` | src/composables/useNewsSocket.js:213-216 | Replaying a list of keywords queues exactly one cache refresh per keyword, in order. |
| `NewsSocket.ReplayErrorFold` | src/composables/useNewsSocket.js:152-159 | Replaying a list of keywords leaves the error a refused keyword sets, for the last keyword refused, and the previous error when no keyword is refused. |
| `NewsSocket.ReplayAllRejected` | src/composables/useNewsSocket.js:154-159 | If every replayed keyword's trimmed form is saved, the replay sends nothing and leaves the duplicate error of the last keyword. |
| `NewsSocket.GetNews` | src/composables/useNewsSocket.js:220-222 | An absent keyword reads as the empty list; a present one reads as its buffer. |
| `NewsSocket.GetAllNews` | src/composables/useNewsSocket.js:224-232 | The result is sorted newest first and is a permutation of the buffers laid end to end in `Object.values` order. Items with equal timestamps keep that order. Buffers under array-index keywords therefore come first among ties, by number, and the others follow by when their buffer was created. |
| `NewsOrder.SortNewestFirst` | src/composables/useNewsSocket.js:231 | The result is sorted by non-increasing `pubDate` and is a permutation of the input. |
| `NewsOrder.SortStable` | src/composables/useNewsSocket.js:231 | For every timestamp, the items with that timestamp appear in the same order as in the input. |
| `NewsOrder.Concat` | src/composables/useNewsSocket.js:225-230 | An item is in the concatenation exactly when it is in one of the buffers. |
| `NewsSocket.OnConnect` | src/composables/useNewsSocket.js:68-77 | Sets connected, clears the error and resets attempts to 0. Queues the resubscribe timer. Touches nothing else. |
| `NewsSocket.OnDisconnect` | src/composables/useNewsSocket.js:79-85 | Clears connected. Sets the closed-by-server error only when the reason is `'io server disconnect'`; otherwise the error is kept. Touches nothing else. |
| `NewsSocket.OnConnectError` | src/composables/useNewsSocket.js:87-92 | Increments attempts by exactly 1 and reports the new count. Touches nothing else, not even `connected`. |
| `NewsSocket.ReplaceBuffer` | src/composables/useNewsSocket.js:94-101 | Handles `news`, and also `cached-news` (lines 126-131). A truthy keyword with an array replaces that keyword's buffer wholesale, and other keywords read as before. An existing buffer keeps its place in the creation order; a new one goes last. Any other payload changes nothing. |
| `NewsSocket.OnSubscribed` | src/composables/useNewsSocket.js:103-116 | With a truthy keyword and id, it saves the pair and leaves other ids unchanged. An already listed keyword keeps its place; a new one is listed last. The loaded flag is kept, the slot agrees with memory, the error is cleared, and one cache refresh is queued. Any other payload changes nothing. |
| `NewsSocket.OnUnsubscribed` | src/composables/useNewsSocket.js:118-124 | With a truthy keyword, that keyword loses both its id and its buffer: it leaves both the listing and the buffers' key order, and the others keep their relative order. Other keywords keep their ids and news. The loaded flag is kept and the slot agrees with memory. Otherwise nothing changes. |
| `NewsSocket.OnStatus` | src/composables/useNewsSocket.js:133-137 | A truthy payload becomes the server status; anything else changes nothing. |
| `NewsSocket.OnServerError` | src/composables/useNewsSocket.js:139-142 | Sets the server-error condition and nothing else. |
| `NewsSocket.Handle` | src/composables/useNewsSocket.js:68-142 | No transport event emits a message. Attempts become 0 on `connect`, grow by 1 on `connect_error`, and are otherwise unchanged. Only the two acknowledgements touch the registry. Only pushes, cache responses and unsubscribe acknowledgements touch the buffers. |
| `NewsSocket.Fire` | src/composables/useNewsSocket.js:74-76 | Runs and dequeues any one queued timer against the current state, which covers every order the real timers can fire in. A cache refresh fired while disconnected emits nothing. |
| `Session.RunKeepsInv` | src/composables/useNewsSocket.js:58-218 | After any interleaving of events, calls, timers and consumer creations: the slot agrees with the registry, every subscribe request sent carries a trimmed keyword and truthy options, and no buffer is held under an empty keyword. |
| `Session.PersistedAfterAnySession` | src/stores/subscriptionStore.js:40-48 | From a fresh start, after any steps, a restart would load exactly the subscriptions in memory. |
| `Session.AttemptsCountFailures` | src/composables/useNewsSocket.js:87-88 | Over any run without a successful connect, attempts grow by exactly the number of connect failures. |
| `Session.ConnectResetsAttempts` | src/composables/useNewsSocket.js:68-71 | A successful connect resets the counter, whatever came before. |
| `Session.UnsubscribeSendsAckedId` | src/composables/useNewsSocket.js:172-180 | After a `subscribed` ack for `k` with id `i`, `unsubscribe(k)` sends exactly `{k, i}`. |
| `Session.UnsubscribedForgetsKeyword` | src/composables/useNewsSocket.js:118-124 | After the `unsubscribed` ack, the keyword reads no news, has no id and is not listed. |
| `Scenarios.LatestDeliveryWins` | src/composables/useNewsSocket.js:126-131 | A push of `first` followed by a cache response of `second` for the same keyword leaves exactly `second`. |
| `Scenarios.MalformedPushDropped` | src/composables/useNewsSocket.js:94-101 | A push or cache response without a truthy keyword, or without an array, leaves the whole state unchanged. |
| `Scenarios.ReconnectReplaysNoSubscribe` | src/composables/useNewsSocket.js:194-218 | When the settle timer fires with already-trimmed saved keywords, no subscribe request is sent. One cache refresh per saved keyword is queued, and the error names the last keyword. |
| `Scenarios.AckedKeywordRefusedOnReplay` | src/composables/useNewsSocket.js:103-105 | After the server acknowledges a keyword, offering the saved (trimmed) keyword again sends nothing and only sets the duplicate error. |
| `Scenarios.AggregateNewestFirst` | src/composables/useNewsSocket.js:224-232 | Buffers `ai: [t2]` then `rust: [t1, t3]`, with times 1, 2, 3, aggregate to `[t3, t2, t1]`. |
| `Scenarios.IndexKeywordFirstAmongTies` | src/composables/useNewsSocket.js:226 | With a buffer under `b` created before one under `1`, two items of equal time come out with the `1` item first. |
| `Scenarios.NameThenIndex` | src/composables/useNewsSocket.js:226 | An object with a name key created before an array-index key enumerates the index key first. |
| `Scenarios.RestartListsIndexKeywordFirst` | src/stores/subscriptionStore.js:32-33 | Adding `ai` and then `2024` lists them in that order, but a reload from the slot lists `2024` first. |
| `Scenarios.QueuedRefreshSends` | src/composables/useNewsSocket.js:213-216 | A queued cache refresh sends one `get-cached-news` if still connected, and nothing otherwise. |

## Left out

- The socket.io transport: connection options, backoff delays and the cap of 5 attempts (src/composables/useNewsSocket.js:61-66). The library enforces these, not this code. In the model `attempts` is unbounded and is reset only by `connect`.
- `connectSocket`'s early return when already connected, and socket creation itself. Transport events are inputs to the model.
- `registerEventHandler` and `removeAllEventHandlers` (src/composables/useNewsSocket.js:28-45): the handler table is never populated, so teardown removes nothing. The Vue lifecycle hooks (`onMounted`, `onUnmounted`) and reactivity (`ref`, `computed`) are also left out.
- Logging, and the concrete error strings. Errors are the `Fault` datatype. The connect-error message's `error.message` text is dropped; only the attempt number is kept.
- Real timer durations (500, 200 and 300 ms). Only the queue of pending callbacks is kept, and `Fire` may pick any of them, so the model admits firing orders the real timers never take (a later 300 ms refresh before an earlier one, say). Every property proved over runs holds for all of those orders, hence also for the real ones.
- `Date` parsing: `pubDate` is an integer, so invalid dates (NaN comparisons) are not modelled.
- JSON and localStorage mechanics:
  - A blob that parses to a non-object value (a number, a string, an array) is not modelled apart from unparseable text.
  - A failing `setItem`, such as a full quota, is not modelled: saves always succeed.
- Plain-object prototype keys (`__proto__`, `constructor`) used as keywords in the news buffers.
- Non-string truthy values in payload fields (a numeric keyword, say). Fields are strings or absent.
- `getAllNews` skips non-array buffers. In the model every buffer is an array, because only array payloads are stored.
- `src/composables/useNewsQuery.js` and `src/main.js` are not part of this model. The first only wires a query cache to `getNews`/`getAllNews` and calls a `getNewsPage` that the socket composable does not define; the second only bootstraps the app.
- Pinia unwraps `isInitialized`, so the guard at src/composables/useNewsSocket.js:24 reads `.value` of a boolean. That makes the guard always pass, and every consumer calls `initializeFromStorage`. The function guards itself, so the model's `NewsSocket.Use` calls it unconditionally and gets the same behaviour.
