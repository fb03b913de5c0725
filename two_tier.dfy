/**
 * `TwoTierCache`: a named cache over an optional local tier (L1, Caffeine) and an optional
 * distributed tier (L2, Redis). Each tier is a delegate cache object whose contents the
 * composite changes in place; the composite itself is an immutable record of references,
 * so two records built over the same tiers see and make the same changes.
 */
module TwoTier {
  import opened Wrappers

  /** One delegate cache (a Caffeine, Redis or ConcurrentMap cache), seen as a map. A key may be
      stored with a null value (`None`): Spring's Caffeine and Redis caches allow it by default. */
  class Tier<V> {
    var entries: map<string, Option<V>>

    constructor (init: map<string, Option<V>>)
      ensures entries == init
    {
      entries := init;
    }

    /** `Cache.get(key)`: the `ValueWrapper`, absent on a miss, wrapping null for a stored null. */
    method Get(key: string) returns (r: Option<Option<V>>)
      ensures r == Lookup(entries, key)
    {
      r := if key in entries then Some(entries[key]) else None;
    }

    /** `Cache.get(key, type)`: the value itself, so a stored null reads as a miss. */
    method GetValue(key: string) returns (r: Option<V>)
      ensures r == NonNull(entries, key)
    {
      r := if key in entries then entries[key] else None;
    }

    method Put(key: string, value: Option<V>)
      modifies this
      ensures entries == old(entries)[key := value]
    {
      entries := entries[key := value];
    }

    method Evict(key: string)
      modifies this
      ensures entries == old(entries) - {key}
    {
      entries := entries - {key};
    }

    method Clear()
      modifies this
      ensures entries == map[]
    {
      entries := map[];
    }
  }

  function Lookup<V>(m: map<string, V>, key: string): Option<V> {
    if key in m then Some(m[key]) else None
  }

  /** The value stored under `key`, null (`None`) both for a missing key and for a stored null. */
  function NonNull<V>(m: map<string, Option<V>>, key: string): Option<V> {
    if key in m then m[key] else None
  }

  datatype TwoTierCache<V> = TwoTierCache(name: string, l1: Option<Tier<V>>, l2: Option<Tier<V>>) {
    /** The tiers that are present. */
    function Tiers(): set<Tier<V>> {
      (if l1.Some? then {l1.value} else {}) + (if l2.Some? then {l2.value} else {})
    }

    /** The local tier, as a frame. */
    function Local(): set<Tier<V>> {
      if l1.Some? then {l1.value} else {}
    }
  }

  /** What `get(key)` finds: L1's wrapper if L1 holds the key, else L2's if L2 holds it. A stored
      null is found, as a wrapper around null. */
  ghost function Peek<V>(c: TwoTierCache<V>, key: string): Option<Option<V>>
    reads c.Tiers()
  {
    if c.l1.Some? && key in c.l1.value.entries then Some(c.l1.value.entries[key])
    else if c.l2.Some? && key in c.l2.value.entries then Some(c.l2.value.entries[key])
    else None
  }

  /** What `get(key, type)` finds: L1's value if it is not null, else whatever L2 holds (null
      for a miss or a stored null), else null. */
  ghost function PeekValue<V>(c: TwoTierCache<V>, key: string): Option<V>
    reads c.Tiers()
  {
    if c.l1.Some? && NonNull(c.l1.value.entries, key).Some? then NonNull(c.l1.value.entries, key)
    else if c.l2.Some? then NonNull(c.l2.value.entries, key)
    else None
  }

  /** Where no present tier stores null under `key`, the two reads agree. */
  lemma PeekValueWithoutNulls<V>(c: TwoTierCache<V>, key: string)
    requires forall t | t in c.Tiers() :: key in t.entries ==> t.entries[key].Some?
    ensures PeekValue(c, key) == (if Peek(c, key).Some? then Peek(c, key).value else None)
  {
    if c.l1.Some? {
      assert c.l1.value in c.Tiers();
    }
    if c.l2.Some? {
      assert c.l2.value in c.Tiers();
    }
  }

  /** A stored null in L1 is a hit for `get(key)` but a miss for `get(key, type)`, which falls
      through to L2. */
  lemma StoredNullIsMissForValueReads<V>(c: TwoTierCache<V>, key: string)
    requires c.l1.Some? && key in c.l1.value.entries && c.l1.value.entries[key].None?
    ensures Peek(c, key) == Some(None)
    ensures PeekValue(c, key) == (if c.l2.Some? then NonNull(c.l2.value.entries, key) else None)
  {
  }

  /** L1 after `get(key)` found `r`: unchanged on an L1 hit or a miss, otherwise holding what was
      just read from L2 (null included). */
  ghost function PopulatedL1<V>(l1Before: map<string, Option<V>>, key: string, r: Option<Option<V>>)
    : map<string, Option<V>>
  {
    if key in l1Before || r.None? then l1Before else l1Before[key := r.value]
  }

  /** L1 after a value read found `r`: unchanged when L1 held a non-null value or nothing was found,
      otherwise holding the non-null value just read from L2 (over a stored null, if any). */
  ghost function PopulatedL1Value<V>(l1Before: map<string, Option<V>>, key: string, r: Option<V>)
    : map<string, Option<V>>
  {
    if NonNull(l1Before, key).Some? || r.None? then l1Before else l1Before[key := r]
  }

  /** `get(key)`: L1 first; on an L1 miss, L2, copying an L2 hit into L1. */
  method Get<V>(c: TwoTierCache<V>, key: string) returns (r: Option<Option<V>>)
    modifies c.Local()
    ensures r == old(Peek(c, key))
    ensures c.l1.Some? ==> c.l1.value.entries == PopulatedL1(old(c.l1.value.entries), key, r)
    ensures c.l2.Some? ==> c.l2.value.entries == old(c.l2.value.entries)
  {
    if c.l1.Some? {
      var l1Value := c.l1.value.Get(key);
      if l1Value.Some? {
        return l1Value;
      }
    }
    if c.l2.Some? {
      var l2Value := c.l2.value.Get(key);
      if l2Value.Some? && c.l1.Some? {
        c.l1.value.Put(key, l2Value.value);
      }
      return l2Value;
    }
    return None;
  }

  /** `get(key, type)`: the same order, on values, so a stored null is passed over; only a
      non-null L2 value is copied into L1. */
  method GetTyped<V>(c: TwoTierCache<V>, key: string) returns (r: Option<V>)
    modifies c.Local()
    ensures r == old(PeekValue(c, key))
    ensures c.l1.Some? ==> c.l1.value.entries == PopulatedL1Value(old(c.l1.value.entries), key, r)
    ensures c.l2.Some? ==> c.l2.value.entries == old(c.l2.value.entries)
  {
    if c.l1.Some? {
      var l1Value := c.l1.value.GetValue(key);
      if l1Value.Some? {
        return l1Value;
      }
    }
    if c.l2.Some? {
      var l2Value := c.l2.value.GetValue(key);
      if l2Value.Some? && c.l1.Some? {
        c.l1.value.Put(key, l2Value);
      }
      return l2Value;
    }
    return None;
  }

  /** A loader failure, rethrown as `ValueRetrievalException(key, loader, cause)`. */
  datatype LoadFailure = ValueRetrieval(key: string, cause: string)

  /**
   * `get(key, valueLoader)`. `load` is what the loader returns (possibly null) or throws when
   * called; the loader is called exactly when neither tier holds a non-null value (`loaded`):
   * a stored null counts as a miss.
   */
  method GetOrLoad<V>(c: TwoTierCache<V>, key: string, load: Result<Option<V>, string>)
    returns (r: Result<Option<V>, LoadFailure>, loaded: bool)
    modifies c.Tiers()
    ensures loaded <==> old(PeekValue(c, key)).None?
    ensures !loaded ==> r == Ok(old(PeekValue(c, key)))
    ensures !loaded && c.l1.Some? ==> c.l1.value.entries == PopulatedL1Value(old(c.l1.value.entries), key, old(PeekValue(c, key)))
    ensures !loaded && c.l2.Some? ==> c.l2.value.entries == old(c.l2.value.entries)
    ensures loaded && load.Ok? ==> r == Ok(load.value)
    ensures loaded && load.Ok? ==> forall t :: t in c.Tiers() ==> t.entries == old(t.entries)[key := load.value]
    ensures loaded && load.Err? ==> r == Err(ValueRetrieval(key, load.error))
    ensures loaded && load.Err? ==> forall t :: t in c.Tiers() ==> t.entries == old(t.entries)
  {
    if c.l1.Some? {
      var l1Value := c.l1.value.GetValue(key);
      if l1Value.Some? {
        return Ok(l1Value), false;
      }
    }
    if c.l2.Some? {
      var l2Value := c.l2.value.GetValue(key);
      if l2Value.Some? {
        if c.l1.Some? {
          c.l1.value.Put(key, l2Value);
        }
        return Ok(l2Value), false;
      }
    }
    loaded := true;
    match load
    case Ok(value) =>
      Put(c, key, value);
      r := Ok(value);
    case Err(cause) =>
      r := Err(ValueRetrieval(key, cause));
  }

  /** `put`: write-through, L1 then L2; no other key changes. */
  method Put<V>(c: TwoTierCache<V>, key: string, value: Option<V>)
    modifies c.Tiers()
    ensures forall t :: t in c.Tiers() ==> t.entries == old(t.entries)[key := value]
  {
    if c.l1.Some? {
      c.l1.value.Put(key, value);
    }
    if c.l2.Some? {
      c.l2.value.Put(key, value);
    }
  }

  /** `putIfAbsent`: a wrapper already visible (a stored null included) is returned and nothing
      is written (though the read may copy it from L2 into L1); otherwise the value is put and
      null is returned. */
  method PutIfAbsent<V>(c: TwoTierCache<V>, key: string, value: Option<V>) returns (r: Option<Option<V>>)
    modifies c.Tiers()
    ensures r == old(Peek(c, key))
    ensures r.Some? && c.l1.Some? ==> c.l1.value.entries == PopulatedL1(old(c.l1.value.entries), key, r)
    ensures r.Some? && c.l2.Some? ==> c.l2.value.entries == old(c.l2.value.entries)
    ensures r.None? ==> forall t :: t in c.Tiers() ==> t.entries == old(t.entries)[key := value]
  {
    var existing := Get(c, key);
    if existing.Some? {
      return existing;
    }
    Put(c, key, value);
    return None;
  }

  /** `evict`: the key leaves every present tier; every other key stays. */
  method Evict<V>(c: TwoTierCache<V>, key: string)
    modifies c.Tiers()
    ensures forall t :: t in c.Tiers() ==> t.entries == old(t.entries) - {key}
  {
    if c.l1.Some? {
      c.l1.value.Evict(key);
    }
    if c.l2.Some? {
      c.l2.value.Evict(key);
    }
  }

  /** `clear`: every present tier ends empty. */
  method Clear<V>(c: TwoTierCache<V>)
    modifies c.Tiers()
    ensures forall t :: t in c.Tiers() ==> t.entries == map[]
  {
    if c.l1.Some? {
      c.l1.value.Clear();
    }
    if c.l2.Some? {
      c.l2.value.Clear();
    }
  }

  /** A Spring `Cache` as the coordinator and the endpoint see it: a plain single-tier cache,
      or a two-tier one. */
  datatype Cache<V> = SingleTier(store: Tier<V>) | Layered(cache: TwoTierCache<V>) {
    function Tiers(): set<Tier<V>> {
      match this
      case SingleTier(t) => {t}
      case Layered(c) => c.Tiers()
    }
  }

  /** `Cache.evict` on either kind of cache: the key leaves every tier the cache holds. */
  method EvictFrom<V>(c: Cache<V>, key: string)
    modifies c.Tiers()
    ensures forall t :: t in c.Tiers() ==> t.entries == old(t.entries) - {key}
  {
    match c
    case SingleTier(t) => t.Evict(key);
    case Layered(tt) => Evict(tt, key);
  }

  /** `Cache.clear` on either kind of cache. */
  method ClearCache<V>(c: Cache<V>)
    modifies c.Tiers()
    ensures forall t :: t in c.Tiers() ==> t.entries == map[]
  {
    match c
    case SingleTier(t) => t.Clear();
    case Layered(tt) => Clear(tt);
  }

  function KeySet(ks: seq<string>): set<string> {
    set k | k in ks
  }

  /** `keys.forEach(cache::evict)`: each key, in turn, leaves every tier of the cache. */
  method EvictAll<V>(c: Cache<V>, keys: seq<string>)
    modifies c.Tiers()
    ensures forall t | t in c.Tiers() :: t.entries == old(t.entries) - KeySet(keys)
  {
    var i := 0;
    while i < |keys|
      invariant 0 <= i <= |keys|
      invariant forall t | t in c.Tiers() :: t.entries == old(t.entries) - KeySet(keys[..i])
    {
      assert KeySet(keys[..i + 1]) == KeySet(keys[..i]) + {keys[i]} by {
        assert keys[..i + 1] == keys[..i] + [keys[i]];
      }
      EvictFrom(c, keys[i]);
      i := i + 1;
    }
    assert keys[..|keys|] == keys;
  }
}
