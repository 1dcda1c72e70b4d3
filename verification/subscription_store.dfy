/** The durable subscription registry: an insertion-ordered map from keyword
    to the server-issued subscription id, mirrored into one storage slot that
    every mutation rewrites in full. */
module SubscriptionStore {
  import opened Wrappers
  import opened OrderedMaps
  import opened PlainObjects

  type Keyword = string
  type SubscriptionId = string

  /** What the storage slot can hold: a serialised object, given by the
      key/value pairs `Object.entries` lists once the text is parsed, or
      text that does not parse. */
  datatype Blob = Snapshot(entries: seq<(Keyword, SubscriptionId)>) | Unparseable

  /** `subscriptions` is the in-memory map, `initialized` guards loading,
      `storage` is the slot's content (None when the key is absent). */
  datatype Store = Store(
    subscriptions: OMap<Keyword, SubscriptionId>,
    initialized: bool,
    storage: Option<Blob>)

  /** The store as a new process creates it, over whatever storage holds. */
  function Fresh(storage: Option<Blob>): (s: Store)
    ensures !s.initialized && s.subscriptions.order == []
  {
    Store(Empty(), false, storage)
  }

  /** `initializeFromStorage`: loads the slot once. A present, parseable slot
      replaces the map wholesale; an absent or unparseable one leaves it as it
      is. The flag is set in every case. */
  function InitializeFromStorage(s: Store): (r: Store)
    ensures r.initialized
    ensures r.storage == s.storage
    ensures s.initialized ==> r == s
    ensures !s.initialized && s.storage.Some? && s.storage.value.Snapshot? ==>
              r.subscriptions == FromEntries(s.storage.value.entries)
    ensures (s.storage.None? || s.storage == Some(Unparseable)) ==>
              r.subscriptions == s.subscriptions
  {
    if s.initialized then s
    else
      match s.storage
      case Some(Snapshot(es)) => Store(FromEntries(es), true, s.storage)
      case _ => s.(initialized := true)
  }

  /** The map a new process holds after loading from `storage`. */
  function Restored(storage: Option<Blob>): OMap<Keyword, SubscriptionId> {
    InitializeFromStorage(Fresh(storage)).subscriptions
  }

  /** The storage slot decodes to exactly the in-memory mapping. */
  ghost predicate Persisted(s: Store) {
    Restored(s.storage).entries == s.subscriptions.entries
  }

  /** `saveToStorage`: overwrites the slot with a snapshot of the whole map. */
  function SaveToStorage(s: Store): (r: Store)
    ensures r.subscriptions == s.subscriptions && r.initialized == s.initialized
    ensures r.storage.Some? && r.storage.value.Snapshot?
    ensures Persisted(r)
  {
    ObjectEntriesRoundTrip(s.subscriptions);
    s.(storage := Some(Snapshot(ObjectEntries(s.subscriptions))))
  }

  /** The map becomes a plain object on the way to the slot
      (`Object.fromEntries`), so the text lists the keywords in that object's
      property order, and parsing it back and reading `Object.entries` gives
      the same order: a reload lists array-index keywords first. */
  lemma SaveToStorageOrder(s: Store)
    ensures Restored(SaveToStorage(s).storage).order == PropertyOrder(s.subscriptions.order)
  {
    ObjectEntriesRoundTrip(s.subscriptions);
  }

  /** `getSubscriptionId`: the id saved for `keyword`, None when there is none. */
  function GetSubscriptionId(s: Store, keyword: Keyword): (r: Option<SubscriptionId>)
    ensures r.Some? <==> keyword in GetAllSubscriptions(s)
    ensures r.Some? ==> r.value == s.subscriptions.entries[keyword]
  {
    Get(s.subscriptions, keyword)
  }

  /** `getAllSubscriptions`: the keywords, each once, in insertion order. */
  function GetAllSubscriptions(s: Store): (r: seq<Keyword>)
    ensures Distinct(r)
    ensures forall k :: k in r <==> k in s.subscriptions.entries
  {
    s.subscriptions.order
  }

  /** `addSubscription`: sets the id for `keyword`, then saves. */
  function AddSubscription(s: Store, keyword: Keyword, id: SubscriptionId): (r: Store)
    ensures GetSubscriptionId(r, keyword) == Some(id)
    ensures keyword in GetAllSubscriptions(s) ==> GetAllSubscriptions(r) == GetAllSubscriptions(s)
    ensures keyword !in GetAllSubscriptions(s) ==> GetAllSubscriptions(r) == GetAllSubscriptions(s) + [keyword]
    ensures r.initialized == s.initialized
    ensures Restored(r.storage).entries == r.subscriptions.entries
  {
    var r := SaveToStorage(s.(subscriptions := Put(s.subscriptions, keyword, id)));
    assert r.subscriptions == Put(s.subscriptions, keyword, id) && Persisted(r);
    r
  }

  /** Adding one keyword leaves every other keyword's id as it was. */
  lemma AddSubscriptionKeepsOthers(s: Store, keyword: Keyword, id: SubscriptionId, k: Keyword)
    requires k != keyword
    ensures GetSubscriptionId(AddSubscription(s, keyword, id), k) == GetSubscriptionId(s, k)
  {
    assert AddSubscription(s, keyword, id).subscriptions == Put(s.subscriptions, keyword, id);
  }

  /** `removeSubscription`: deletes `keyword`, then saves, even when the
      keyword was not there. */
  function RemoveSubscription(s: Store, keyword: Keyword): (r: Store)
    ensures GetSubscriptionId(r, keyword) == None
    ensures forall k :: k != keyword ==> GetSubscriptionId(r, k) == GetSubscriptionId(s, k)
    ensures GetAllSubscriptions(r) == Without(GetAllSubscriptions(s), keyword)
    ensures keyword !in GetAllSubscriptions(s) ==> r.subscriptions == s.subscriptions
    ensures r.initialized == s.initialized
    ensures r.storage.Some? && Restored(r.storage).entries == r.subscriptions.entries
  {
    var r := SaveToStorage(s.(subscriptions := Remove(s.subscriptions, keyword)));
    assert r.subscriptions == Remove(s.subscriptions, keyword) && Persisted(r);
    r
  }

  /** Removing the keyword at position `i` of the listing cuts exactly that
      position out; every other keyword keeps its relative order. */
  lemma RemoveClosesGap(s: Store, i: nat)
    requires i < |GetAllSubscriptions(s)|
    ensures var k := GetAllSubscriptions(s)[i];
            GetAllSubscriptions(RemoveSubscription(s, k)) ==
              GetAllSubscriptions(s)[..i] + GetAllSubscriptions(s)[i + 1..]
  {
    WithoutAt(GetAllSubscriptions(s), i);
  }

  /** `clearAll`: empties the map and deletes the slot. */
  function ClearAll(s: Store): (r: Store)
    ensures GetAllSubscriptions(r) == []
    ensures r.storage == None
    ensures r.initialized == s.initialized
    ensures Restored(r.storage).order == []
  {
    Store(Empty(), s.initialized, None)
  }

  /** Loading never breaks the agreement between the slot and the map. */
  lemma InitializeKeepsPersisted(s: Store)
    requires Persisted(s)
    ensures Persisted(InitializeFromStorage(s))
  {
  }

  /** The registry operations a caller can issue. */
  datatype StoreOp =
    | Initialize
    | Add(keyword: Keyword, id: SubscriptionId)
    | Delete(keyword: Keyword)
    | Clear

  function Apply(s: Store, op: StoreOp): Store {
    match op
    case Initialize => InitializeFromStorage(s)
    case Add(k, id) => AddSubscription(s, k, id)
    case Delete(k) => RemoveSubscription(s, k)
    case Clear => ClearAll(s)
  }

  function ApplyAll(s: Store, ops: seq<StoreOp>): Store
    decreases |ops|
  {
    if ops == [] then s else ApplyAll(Apply(s, ops[0]), ops[1..])
  }

  /** After any sequence of registry operations on a store that starts out
      loaded from its slot, the slot still decodes to exactly the in-memory
      mapping: what a restart would load is what the process holds. */
  lemma {:induction false} PersistedAfterAnyOps(s: Store, ops: seq<StoreOp>)
    requires Persisted(s)
    ensures Persisted(ApplyAll(s, ops))
    decreases |ops|
  {
    if ops != [] {
      ApplyKeepsPersisted(s, ops[0]);
      PersistedAfterAnyOps(Apply(s, ops[0]), ops[1..]);
    }
  }

  lemma ApplyKeepsPersisted(s: Store, op: StoreOp)
    requires Persisted(s)
    ensures Persisted(Apply(s, op))
  {
    if op.Initialize? {
      InitializeKeepsPersisted(s);
    }
  }
}
