/** The key-store and trust-store caches of the server builder
    (`getKeyStore`, `getTrustStore`) and their invalidation on refresh
    (`onApplicationEvent`). Each cache is a slot that is either empty or
    holds a loaded store; a counter records how often the underlying loader
    was consulted, so that reload behaviour can be stated. */
module StoreCache {
  import opened Wrappers
  import opened Netty

  /** What the underlying loader (`SslBuilder.getKeyStore` or
      `getTrustStore`) yields if it is consulted now: a store, no store
      configured, or an exception. */
  datatype LoadOutcome = Found(store: KeyStore) | NotConfigured | LoadFailed(cause: string)

  /** One cache field and the number of times its loader has been run. */
  datatype Slot = Slot(cached: Option<KeyStore>, loads: nat)

  /** A slot after a lookup, and what the lookup returned or threw. */
  datatype SlotLookup = SlotLookup(slot: Slot, result: Result<Option<KeyStore>, string>)

  /** A cached lookup: the loader runs only when the slot is empty; a store it
      returns is kept, "no store" leaves the slot empty, and an exception
      leaves the slot as it was and propagates. The caller always receives
      what the slot holds afterwards. */
  function Lookup(s: Slot, loader: LoadOutcome): (l: SlotLookup)
    ensures s.cached.Some? ==> l.slot == s && l.result == Success(s.cached)
    ensures s.cached.None? ==> l.slot.loads == s.loads + 1
    ensures s.cached.None? ==> (l.slot.cached.Some? <==> loader.Found?)
    ensures loader.Found? ==> l.slot.cached.Some?
    ensures s.cached.None? && loader.Found? ==> l.slot.cached == Some(loader.store)
    ensures l.result.Success? ==> l.result.value == l.slot.cached
    ensures l.result.Failure? <==> s.cached.None? && loader.LoadFailed?
    ensures l.result.Failure? ==> l.slot == s.(loads := s.loads + 1) && l.result.error == loader.cause
  {
    if s.cached.Some? then SlotLookup(s, Success(s.cached))
    else
      match loader
      case Found(ks) => SlotLookup(Slot(Some(ks), s.loads + 1), Success(Some(ks)))
      case NotConfigured => SlotLookup(Slot(None, s.loads + 1), Success(None))
      case LoadFailed(cause) => SlotLookup(Slot(None, s.loads + 1), Failure(cause))
  }

  /** The two cache fields of one builder. */
  datatype Caches = Caches(keyStore: Slot, trustStore: Slot)

  /** A configuration refresh notification; which keys changed does not
      influence the caches. */
  datatype RefreshEvent = RefreshEvent(changedKeys: set<string>)

  /** The state after a store lookup and what the lookup returned. */
  datatype CachesLookup = CachesLookup(caches: Caches, result: Result<Option<KeyStore>, string>)

  /** `getKeyStore`: a cached lookup on the key-store slot that leaves the
      trust-store slot alone. */
  function GetKeyStore(c: Caches, loader: LoadOutcome): (r: CachesLookup)
    ensures r.caches.trustStore == c.trustStore
    ensures SlotLookup(r.caches.keyStore, r.result) == Lookup(c.keyStore, loader)
  {
    var l := Lookup(c.keyStore, loader);
    CachesLookup(c.(keyStore := l.slot), l.result)
  }

  /** `getTrustStore`: a cached lookup on the trust-store slot that leaves
      the key-store slot alone. */
  function GetTrustStore(c: Caches, loader: LoadOutcome): (r: CachesLookup)
    ensures r.caches.keyStore == c.keyStore
    ensures SlotLookup(r.caches.trustStore, r.result) == Lookup(c.trustStore, loader)
  {
    var l := Lookup(c.trustStore, loader);
    CachesLookup(c.(trustStore := l.slot), l.result)
  }

  /** `onApplicationEvent`: whatever the event, both slots become empty. The
      loaders are not consulted. */
  function OnRefresh(c: Caches, e: RefreshEvent): (r: Caches)
    ensures r.keyStore.cached.None? && r.trustStore.cached.None?
    ensures r.keyStore.loads == c.keyStore.loads && r.trustStore.loads == c.trustStore.loads
  {
    Caches(c.keyStore.(cached := None), c.trustStore.(cached := None))
  }

  /** One call on the caches. */
  datatype Call = GetKey(keyLoader: LoadOutcome) | GetTrust(trustLoader: LoadOutcome) | Refresh(event: RefreshEvent)

  function Step(c: Caches, call: Call): Caches {
    match call
    case GetKey(o) => GetKeyStore(c, o).caches
    case GetTrust(o) => GetTrustStore(c, o).caches
    case Refresh(e) => OnRefresh(c, e)
  }

  /** The caches after a sequence of calls, made one after the other. */
  function Run(c: Caches, calls: seq<Call>): Caches
    decreases |calls|
  {
    if |calls| == 0 then c else Run(Step(c, calls[0]), calls[1..])
  }

  predicate NoRefresh(calls: seq<Call>) {
    forall i :: 0 <= i < |calls| ==> !calls[i].Refresh?
  }

  predicate AllRefresh(calls: seq<Call>) {
    forall i :: 0 <= i < |calls| ==> calls[i].Refresh?
  }

  /** Running two call sequences one after the other is running their
      concatenation. */
  lemma {:induction false} RunAppend(c: Caches, a: seq<Call>, b: seq<Call>)
    ensures Run(c, a + b) == Run(Run(c, a), b)
    decreases |a|
  {
    if |a| == 0 {
      assert a + b == b;
    } else {
      assert (a + b)[1..] == a[1..] + b;
      RunAppend(Step(c, a[0]), a[1..], b);
    }
  }

  /** A populated slot is a cache hit for every later lookup until a
      refresh: neither its content nor its load count changes. */
  lemma {:induction false} CachedSlotIsStable(c: Caches, calls: seq<Call>)
    requires NoRefresh(calls)
    ensures c.keyStore.cached.Some? ==> Run(c, calls).keyStore == c.keyStore
    ensures c.trustStore.cached.Some? ==> Run(c, calls).trustStore == c.trustStore
    decreases |calls|
  {
    if |calls| > 0 {
      var c' := Step(c, calls[0]);
      assert c.keyStore.cached.Some? ==> c'.keyStore == c.keyStore;
      assert c.trustStore.cached.Some? ==> c'.trustStore == c.trustStore;
      assert NoRefresh(calls[1..]) by {
        forall i | 0 <= i < |calls[1..]| ensures !calls[1..][i].Refresh? {
          assert calls[1..][i] == calls[i + 1];
        }
      }
      CachedSlotIsStable(c', calls[1..]);
    }
  }

  /** A burst of one or more refreshes leaves both slots empty and the load
      counts untouched, exactly as a single refresh does. */
  lemma {:induction false} RefreshBurstClears(c: Caches, burst: seq<Call>)
    requires |burst| > 0 && AllRefresh(burst)
    ensures Run(c, burst) == Caches(c.keyStore.(cached := None), c.trustStore.(cached := None))
    decreases |burst|
  {
    var c' := Step(c, burst[0]);
    if |burst| > 1 {
      assert AllRefresh(burst[1..]) by {
        forall i | 0 <= i < |burst[1..]| ensures burst[1..][i].Refresh? {
          assert burst[1..][i] == burst[i + 1];
        }
      }
      RefreshBurstClears(c', burst[1..]);
    }
  }

  /** After any burst of refreshes, a key-store and a trust-store lookup whose
      loaders find a store, followed by any further lookups, load each store
      exactly once and keep the freshly loaded stores. */
  lemma {:induction false} BurstThenSingleReload(c: Caches, burst: seq<Call>, key: KeyStore, trust: KeyStore, rest: seq<Call>)
    requires |burst| > 0 && AllRefresh(burst)
    requires NoRefresh(rest)
    ensures var r := Run(c, burst + [GetKey(Found(key)), GetTrust(Found(trust))] + rest);
      && r.keyStore == Slot(Some(key), c.keyStore.loads + 1)
      && r.trustStore == Slot(Some(trust), c.trustStore.loads + 1)
  {
    var reloads := [GetKey(Found(key)), GetTrust(Found(trust))];
    RunAppend(c, burst + reloads, rest);
    RunAppend(c, burst, reloads);
    RefreshBurstClears(c, burst);
    var cleared := Run(c, burst);
    var loaded := Run(cleared, reloads);
    var s1 := Step(cleared, reloads[0]);
    assert loaded == Run(s1, reloads[1..]);
    assert reloads[1..][0] == reloads[1] && reloads[1..][1..] == [];
    assert Run(s1, reloads[1..]) == Run(Step(s1, reloads[1]), []);
    assert loaded.keyStore == Slot(Some(key), c.keyStore.loads + 1);
    assert loaded.trustStore == Slot(Some(trust), c.trustStore.loads + 1);
    CachedSlotIsStable(loaded, rest);
  }

  /** `n` lookups on an empty slot whose loader finds no store each consult
      the loader: an empty result is not cached, for either store. */
  lemma {:induction false} NotConfiguredIsRetried(c: Caches, n: nat)
    ensures c.keyStore.cached.None? ==>
      Run(c, seq(n, _ => GetKey(NotConfigured))).keyStore == Slot(None, c.keyStore.loads + n)
    ensures c.trustStore.cached.None? ==>
      Run(c, seq(n, _ => GetTrust(NotConfigured))).trustStore == Slot(None, c.trustStore.loads + n)
    decreases n
  {
    if n > 0 {
      var keyCalls := seq(n, _ => GetKey(NotConfigured));
      var trustCalls := seq(n, _ => GetTrust(NotConfigured));
      assert keyCalls[1..] == seq(n - 1, _ => GetKey(NotConfigured));
      assert trustCalls[1..] == seq(n - 1, _ => GetTrust(NotConfigured));
      NotConfiguredIsRetried(Step(c, keyCalls[0]), n - 1);
      NotConfiguredIsRetried(Step(c, trustCalls[0]), n - 1);
    }
  }
}
