/**
 * Cache managers: the two underlying managers (Caffeine for L1, Redis for L2), each a fixed
 * set of named delegate caches, and `TwoTierCacheManager`, which pairs them per name. The
 * coordinator also accepts a plain single-tier manager.
 */
module Managers {
  import opened Wrappers
  import opened TwoTier

  /** An underlying manager: the names it reports, in its own order, and its caches by name. */
  datatype StoreManager<V> = StoreManager(names: seq<string>, caches: map<string, Tier<V>>) {
    function Find(name: string): Option<Tier<V>> {
      if name in caches then Some(caches[name]) else None
    }

    /** A Spring manager lists exactly the names of the caches it holds. */
    predicate WellFormed() {
      (forall n | n in names :: n in caches) && (forall n | n in caches :: n in names)
    }
  }

  datatype CacheManager<V> =
    | SingleTierManager(stores: StoreManager<V>)
    | TwoTierManager(caffeine: StoreManager<V>, redis: StoreManager<V>)
  {
    /** Every delegate cache reachable through this manager. */
    function Tiers(): set<Tier<V>> {
      match this
      case SingleTierManager(s) => s.caches.Values
      case TwoTierManager(c, r) => c.caches.Values + r.caches.Values
    }

    /** The distributed delegate caches. */
    function DistributedTiers(): set<Tier<V>> {
      match this
      case SingleTierManager(_) => {}
      case TwoTierManager(_, r) => r.caches.Values
    }

    predicate WellFormed() {
      match this
      case SingleTierManager(s) => s.WellFormed()
      case TwoTierManager(c, r) => c.WellFormed() && r.WellFormed()
    }

    /** Distinct managers hand out distinct cache objects: no Caffeine cache is a Redis cache. */
    ghost predicate Valid() {
      TwoTierManager? ==> caffeine.caches.Values !! redis.caches.Values
    }
  }

  /** `TwoTierCacheManager.getCache`: null exactly when neither manager knows the name;
      otherwise a fresh record named `name` over whatever each manager returned. */
  function TwoTierGetCache<V>(caffeine: StoreManager<V>, redis: StoreManager<V>, name: string)
    : (r: Option<TwoTierCache<V>>)
    ensures r.None? <==> caffeine.Find(name).None? && redis.Find(name).None?
    ensures r.Some? ==> r.value.name == name && r.value.l1 == caffeine.Find(name) && r.value.l2 == redis.Find(name)
  {
    var l1 := caffeine.Find(name);
    var l2 := redis.Find(name);
    if l1.None? && l2.None? then None else Some(TwoTierCache(name, l1, l2))
  }

  /** `CacheManager.getCache` for either kind of manager. */
  function GetCache<V>(cm: CacheManager<V>, name: string): (r: Option<Cache<V>>)
    ensures r.Some? ==> r.value.Tiers() <= cm.Tiers()
    ensures cm.SingleTierManager? ==> r == (match cm.stores.Find(name)
                                            case None => None
                                            case Some(t) => Some(SingleTier(t)))
    ensures cm.TwoTierManager? ==> r == (match TwoTierGetCache(cm.caffeine, cm.redis, name)
                                         case None => None
                                         case Some(c) => Some(Layered(c)))
  {
    match cm
    case SingleTierManager(s) =>
      if name in s.caches then Some(SingleTier(s.caches[name])) else None
    case TwoTierManager(c, r) =>
      match TwoTierGetCache(c, r, name)
      case None => None
      case Some(tt) => Some(Layered(tt))
  }

  /** `getCache` keeps no state: it is a function of the name, and the local tier of the record
      it builds is always the Caffeine manager's cache of that name, never a Redis one. */
  lemma GetCacheLocalTierIsCaffeine<V>(cm: CacheManager<V>, name: string)
    requires cm.TwoTierManager? && cm.Valid()
    requires GetCache(cm, name).Some?
    ensures GetCache(cm, name).value.Layered?
    ensures GetCache(cm, name).value.cache.l1.Some? ==> GetCache(cm, name).value.cache.l1.value !in cm.DistributedTiers()
  {
    var l1 := cm.caffeine.Find(name);
    if l1.Some? {
      assert l1.value in cm.caffeine.caches.Values;
    }
  }

  predicate NoDuplicates(s: seq<string>) {
    forall i, j | 0 <= i < j < |s| :: s[i] != s[j]
  }

  /** `Stream.distinct()`: the first occurrence of each element, in encounter order. */
  function Distinct(s: seq<string>): (r: seq<string>)
    ensures NoDuplicates(r)
    ensures forall x :: x in r <==> x in s
  {
    if s == [] then []
    else
      var d := Distinct(s[..|s| - 1]);
      var x := s[|s| - 1];
      assert forall y :: y in s <==> y in s[..|s| - 1] || y == x;
      if x in d then d else d + [x]
  }

  /** The elements of `s` that are not in `drop`, in order. */
  function Without(s: seq<string>, drop: set<string>): (r: seq<string>)
    ensures forall x :: x in r <==> x in s && x !in drop
  {
    if s == [] then []
    else
      var w := Without(s[..|s| - 1], drop);
      assert forall y :: y in s <==> y in s[..|s| - 1] || y == s[|s| - 1];
      if s[|s| - 1] in drop then w else w + [s[|s| - 1]]
  }

  /** First occurrences of a concatenation: those of the first part, then those elements of
      the second part that the first part does not contain. */
  lemma {:induction false} DistinctConcat(a: seq<string>, b: seq<string>)
    ensures Distinct(a + b) == Distinct(a) + Distinct(Without(b, set x | x in a))
  {
    var A := set x | x in a;
    if b == [] {
      assert a + b == a;
    } else {
      var b' := b[..|b| - 1];
      var x := b[|b| - 1];
      DistinctConcat(a, b');
      assert (a + b)[..|a + b| - 1] == a + b';
      assert Without(b, A) == (if x in A then Without(b', A) else Without(b', A) + [x]);
      if x !in A {
        assert Without(b', A) + [x] != [];
        assert (Without(b', A) + [x])[..|Without(b', A) + [x]| - 1] == Without(b', A);
      }
    }
  }

  /** `TwoTierCacheManager.getCacheNames`: the concatenation of both managers' names,
      de-duplicated. */
  function TwoTierCacheNames<V>(caffeine: StoreManager<V>, redis: StoreManager<V>): (r: seq<string>)
    ensures NoDuplicates(r)
    ensures forall n :: n in r <==> n in caffeine.names || n in redis.names
  {
    Distinct(caffeine.names + redis.names)
  }

  /** The Caffeine manager's names come first, then the names only Redis knows, each at its
      first occurrence. */
  lemma CacheNamesOrder<V>(caffeine: StoreManager<V>, redis: StoreManager<V>)
    ensures TwoTierCacheNames(caffeine, redis)
         == Distinct(caffeine.names) + Distinct(Without(redis.names, set n | n in caffeine.names))
  {
    DistinctConcat(caffeine.names, redis.names);
  }

  /** `CacheManager.getCacheNames` for either kind of manager. */
  function GetCacheNames<V>(cm: CacheManager<V>): (r: seq<string>)
    ensures cm.SingleTierManager? ==> r == cm.stores.names
    ensures cm.TwoTierManager? ==> NoDuplicates(r)
    ensures cm.TwoTierManager? ==> forall n :: n in r <==> n in cm.caffeine.names || n in cm.redis.names
  {
    match cm
    case SingleTierManager(s) => s.names
    case TwoTierManager(c, r) => TwoTierCacheNames(c, r)
  }

  /** Every name a well-formed manager lists resolves to a cache. */
  lemma ListedCachesExist<V>(cm: CacheManager<V>, name: string)
    requires cm.WellFormed() && name in GetCacheNames(cm)
    ensures GetCache(cm, name).Some?
  {
  }
}
