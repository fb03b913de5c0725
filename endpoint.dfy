/**
 * `CacheSyncEndpoint`: the actuator operations that evict or clear caches on every instance
 * (publish, then act locally on both tiers), the health status and the uptime.
 */
module Endpoint {
  import opened Wrappers
  import opened JavaText
  import opened Messages
  import opened Config
  import opened TwoTier
  import opened Managers
  import opened Sync

  /** The response maps of the write operations. */
  datatype Response =
    | Evicted(cacheName: string, keysEvicted: nat, keys: seq<string>, instanceId: string)
    | Cleared(cacheName: string, instanceId: string)
    | ClearedAll(cachesCleared: nat, cacheNames: seq<string>, instanceId: string)
    | NotFound(error: string, availableCaches: seq<string>)
    | Rejected(error: string)
    | Crashed   // the catch branch: success false, the exception's message as the error

  /** The message `evict` builds: its cache, a copy of its keys, EVICT. */
  function EvictRequest(name: string, keys: seq<string>): (m: CacheMessage)
    ensures Applicable(m) && m.action == Some(EVICT)
    ensures m.cacheName == Some(name) && m.keys == Some(keys) && m.instanceId.None?
  {
    CacheMessage(Some(name), Some(keys), Some(EVICT), None)
  }

  /** The message `clear` and `clearAll` build: its cache, an empty key list, CLEAR. */
  function ClearRequest(name: string): (m: CacheMessage)
    ensures Applicable(m) && m.action == Some(CLEAR)
    ensures m.cacheName == Some(name) && m.keys == Some([]) && m.instanceId.None?
  {
    CacheMessage(Some(name), Some([]), Some(CLEAR), None)
  }

  /** The names among `names` that resolve to a cache, in order. */
  function Found<V>(cm: CacheManager<V>, names: seq<string>): (r: seq<string>)
    ensures |r| <= |names|
    ensures forall n :: n in r <==> n in names && GetCache(cm, n).Some?
  {
    if names == [] then []
    else
      var rest := Found(cm, names[..|names| - 1]);
      var n := names[|names| - 1];
      assert forall y :: y in names <==> y in names[..|names| - 1] || y == n;
      if GetCache(cm, n).Some? then rest + [n] else rest
  }

  /** When every name resolves, nothing is filtered out. */
  lemma {:induction false} FoundAll<V>(cm: CacheManager<V>, names: seq<string>)
    requires forall n | n in names :: GetCache(cm, n).Some?
    ensures Found(cm, names) == names
  {
    if names != [] {
      FoundAll(cm, names[..|names| - 1]);
      assert names[..|names| - 1] + [names[|names| - 1]] == names;
    }
  }

  /** The tiers of the cache `name` resolves to; none when it does not resolve. */
  function CacheTiers<V>(cm: CacheManager<V>, name: string): (r: set<Tier<V>>)
    ensures r <= cm.Tiers()
    ensures GetCache(cm, name).Some? ==> r == GetCache(cm, name).value.Tiers()
  {
    match GetCache(cm, name)
    case Some(c) => c.Tiers()
    case None => {}
  }

  /** The tiers of the caches `names` resolve to. */
  function TiersOf<V>(cm: CacheManager<V>, names: seq<string>): (r: set<Tier<V>>)
    ensures r <= cm.Tiers()
  {
    if names == [] then {} else TiersOf(cm, names[..|names| - 1]) + CacheTiers(cm, names[|names| - 1])
  }

  /** Every listed name's tiers are among the tiers of the list. */
  lemma {:induction false} TiersOfCovers<V>(cm: CacheManager<V>, names: seq<string>, i: nat)
    requires i < |names|
    ensures CacheTiers(cm, names[i]) <= TiersOf(cm, names)
  {
    if i < |names| - 1 {
      TiersOfCovers(cm, names[..|names| - 1], i);
    }
  }

  /** What `clearAll` sends for `names`: one CLEAR per name that resolves. */
  function ClearAllSends<V>(svc: CacheSyncService<V>, remote: bool, cm: CacheManager<V>, names: seq<string>,
                            sendFails: bool): (r: seq<Send>)
    ensures |r| <= |names|
    ensures remote || sendFails ==> r == []
  {
    if names == [] then []
    else
      var last := names[|names| - 1];
      ClearAllSends(svc, remote, cm, names[..|names| - 1], sendFails)
        + (if GetCache(cm, last).Some? then svc.Outgoing(remote, ClearRequest(last), sendFails) else [])
  }

  /** The metrics calls `clearAll` makes for `names`. */
  function ClearAllEvents<V>(svc: CacheSyncService<V>, remote: bool, metricsOn: bool, cm: CacheManager<V>,
                             names: seq<string>, sendFails: bool): (r: seq<Event>)
    ensures |r| <= |names|
    ensures remote || !metricsOn ==> r == []
  {
    if names == [] then []
    else
      var last := names[|names| - 1];
      ClearAllEvents(svc, remote, metricsOn, cm, names[..|names| - 1], sendFails)
        + (if GetCache(cm, last).Some? && !remote && metricsOn
           then [PublishEvent(Stamp(ClearRequest(last), svc.instanceId), sendFails)]
           else [])
  }

  /** One more name: each summary of `clearAll` grows by that name's contribution. */
  lemma ClearAllSnoc<V>(svc: CacheSyncService<V>, remote: bool, metricsOn: bool, cm: CacheManager<V>,
                        names: seq<string>, i: nat, sendFails: bool)
    requires i < |names|
    ensures Found(cm, names[..i + 1]) == Found(cm, names[..i]) + (if GetCache(cm, names[i]).Some? then [names[i]] else [])
    ensures TiersOf(cm, names[..i + 1]) == TiersOf(cm, names[..i]) + CacheTiers(cm, names[i])
    ensures ClearAllSends(svc, remote, cm, names[..i + 1], sendFails)
         == ClearAllSends(svc, remote, cm, names[..i], sendFails) + ClearAllSends(svc, remote, cm, [names[i]], sendFails)
    ensures ClearAllEvents(svc, remote, metricsOn, cm, names[..i + 1], sendFails)
         == ClearAllEvents(svc, remote, metricsOn, cm, names[..i], sendFails)
            + ClearAllEvents(svc, remote, metricsOn, cm, [names[i]], sendFails)
  {
    assert names[..i + 1][..i] == names[..i];
    assert [names[i]][..0] == [];
  }

  /** A single name contributes its CLEAR when it resolves, and nothing otherwise. */
  lemma ClearAllSingle<V>(svc: CacheSyncService<V>, remote: bool, cm: CacheManager<V>, name: string, sendFails: bool)
    ensures ClearAllSends(svc, remote, cm, [name], sendFails)
         == if GetCache(cm, name).Some? then svc.Outgoing(remote, ClearRequest(name), sendFails) else []
    ensures ClearAllEvents(svc, remote, svc.metricsOn, cm, [name], sendFails)
         == if GetCache(cm, name).Some? then svc.Recorded(remote, ClearRequest(name), sendFails) else []
  {
    assert [name][..0] == [];
  }

  /** `determineHealthStatus`, over the configuration flag, the manager's cache names and the
      coordinator's channel name. */
  function HealthStatus(enabled: bool, cacheNames: seq<string>, channelName: string): (r: string)
    ensures r == "DISABLED" <==> !enabled
    ensures r == "WARNING: No caches configured" <==> enabled && cacheNames == []
    ensures r == "ERROR: Invalid channel configuration" <==> enabled && cacheNames != [] && channelName == ""
    ensures r == "UP" <==> enabled && cacheNames != [] && channelName != ""
  {
    if !enabled then "DISABLED"
    else if cacheNames == [] then "WARNING: No caches configured"
    else if channelName == "" then "ERROR: Invalid channel configuration"
    else "UP"
  }

  /** The channel is only ever invalid when no usable prefix is configured and the channel
      itself is empty: a usable prefix always yields a non-empty channel name. */
  lemma ChannelErrorOnlyWithoutPrefix(p: Properties, cacheNames: seq<string>)
    requires BuildChannelName(p).Some? && p.enabled && cacheNames != []
    ensures HealthStatus(p.enabled, cacheNames, BuildChannelName(p).value) == "ERROR: Invalid channel configuration"
        <==> !UsesPrefix(p) && p.channel == Some("")
  {
    if UsesPrefix(p) {
      var name := BuildChannelName(p).value;
      var prefix := p.channelPrefix.value;
      assert prefix != "";
      assert |name| >= |prefix|;
    }
  }

  /** The default configuration with at least one cache reports "UP". */
  lemma DefaultsAreUp(cacheNames: seq<string>)
    requires cacheNames != []
    ensures HealthStatus(Defaults().enabled, cacheNames, BuildChannelName(Defaults()).value) == "UP"
  {
  }

  /** The shapes `calculateUptime` formats: "%dd %dh %dm", "%dh %dm %ds", "%dm %ds", "%ds". */
  datatype Uptime =
    | Days(days: int, hours: int, minutes: int)
    | Hours(hours: int, minutes: int, seconds: int)
    | Minutes(minutes: int, seconds: int)
    | Seconds(seconds: int)

  /** `calculateUptime` on the elapsed milliseconds, with Java's truncating `long` division. */
  function CalculateUptime(uptimeMillis: int): (u: Uptime)
    ensures uptimeMillis < 60_000 ==> u == Seconds(JavaDiv(uptimeMillis, 1000))
    ensures 60_000 <= uptimeMillis < 3_600_000 ==> u.Minutes?
    ensures 3_600_000 <= uptimeMillis < 86_400_000 ==> u.Hours?
    ensures 86_400_000 <= uptimeMillis ==> u.Days?
  {
    var seconds := JavaDiv(uptimeMillis, 1000);
    var minutes := JavaDiv(seconds, 60);
    var hours := JavaDiv(minutes, 60);
    var days := JavaDiv(hours, 24);
    if days > 0 then Days(days, JavaRem(hours, 24), JavaRem(minutes, 60))
    else if hours > 0 then Hours(hours, JavaRem(minutes, 60), JavaRem(seconds, 60))
    else if minutes > 0 then Minutes(minutes, JavaRem(seconds, 60))
    else Seconds(seconds)
  }

  /** Milliseconds in the whole units an uptime shows. */
  function Shown(u: Uptime): int {
    match u
    case Days(d, h, m) => d * 86_400_000 + h * 3_600_000 + m * 60_000
    case Hours(h, m, s) => h * 3_600_000 + m * 60_000 + s * 1000
    case Minutes(m, s) => m * 60_000 + s * 1000
    case Seconds(s) => s * 1000
  }

  /** The precision an uptime is shown with: a minute once it reaches a day, else a second. */
  function Granularity(u: Uptime): int {
    if u.Days? then 60_000 else 1000
  }

  /** A non-negative uptime is shown in its largest non-zero unit, every smaller field is in
      range, and what is shown is the uptime rounded down to the last unit shown. */
  lemma UptimeDecomposes(ms: int)
    requires ms >= 0
    ensures var u := CalculateUptime(ms);
      && Shown(u) <= ms < Shown(u) + Granularity(u)
      && (u.Days? ==> u.days >= 1 && 0 <= u.hours < 24 && 0 <= u.minutes < 60)
      && (u.Hours? ==> 1 <= u.hours < 24 && 0 <= u.minutes < 60 && 0 <= u.seconds < 60)
      && (u.Minutes? ==> 1 <= u.minutes < 60 && 0 <= u.seconds < 60)
      && (u.Seconds? ==> 0 <= u.seconds < 60)
  {
    var s := ms / 1000;
    var m := s / 60;
    var h := m / 60;
    var d := h / 24;
    assert JavaDiv(ms, 1000) == s && JavaDiv(s, 60) == m && JavaDiv(m, 60) == h && JavaDiv(h, 24) == d;
    assert JavaRem(s, 60) == s % 60 && JavaRem(m, 60) == m % 60 && JavaRem(h, 24) == h % 24;
    assert ms == 1000 * s + ms % 1000;
    assert s == 60 * m + s % 60;
    assert m == 60 * h + m % 60;
    assert h == 24 * d + h % 24;
  }

  /** A negative uptime (the clock went back) shows as a non-positive number of seconds,
      truncated toward zero. */
  lemma NegativeUptimeInSeconds(ms: int)
    requires ms < 0
    ensures var u := CalculateUptime(ms);
      u == Seconds(-((-ms) / 1000)) && u.seconds <= 0
  {
    var s := JavaDiv(ms, 1000);
    assert s <= 0;
    assert JavaDiv(s, 60) <= 0;
    assert JavaDiv(JavaDiv(s, 60), 60) <= 0;
    assert JavaDiv(JavaDiv(JavaDiv(s, 60), 60), 24) <= 0;
  }

  class CacheSyncEndpoint<V> {
    const service: CacheSyncService<V>
    const manager: CacheManager<V>
    const properties: Properties

    constructor (service: CacheSyncService<V>, manager: CacheManager<V>, properties: Properties)
      ensures this.service == service && this.manager == manager && this.properties == properties
    {
      this.service := service;
      this.manager := manager;
      this.properties := properties;
    }

    /** The caches a request for `name` can touch. */
    function Touched(name: Option<string>): set<Tier<V>> {
      if name.Some? then CacheTiers(manager, name.value) else {}
    }

    /** `determineHealthStatus`. */
    function DetermineHealthStatus(): (r: string)
      ensures r == HealthStatus(properties.enabled, GetCacheNames(manager), service.channelName)
    {
      HealthStatus(properties.enabled, GetCacheNames(manager), service.channelName)
    }

    /**
     * `evict` (POST /evict), called on thread `t`. An unknown cache is reported with the
     * available names, then a missing or empty key list is rejected; otherwise the eviction is
     * published and then applied locally to every tier, L2 included.
     */
    method Evict(t: Thread, cacheName: Option<string>, keys: Option<seq<string>>, sendFails: bool)
      returns (r: Response)
      modifies service`sent, service`events, Touched(cacheName)
      ensures cacheName.None? ==> r == Crashed
      ensures cacheName.Some? && GetCache(manager, cacheName.value).None? ==>
                r == NotFound("Cache not found: " + cacheName.value, GetCacheNames(manager))
      ensures Touched(cacheName) != {} && (keys.None? || keys.value == []) ==>
                r == Rejected("No keys provided for eviction")
      ensures r.Evicted? <==> cacheName.Some? && GetCache(manager, cacheName.value).Some? && keys.Some? && keys.value != []
      ensures r.Evicted? ==>
                && r == Evicted(cacheName.value, |keys.value|, keys.value, service.instanceId)
                && service.sent == old(service.sent) + service.Outgoing(t.remoteEviction, EvictRequest(cacheName.value, keys.value), sendFails)
                && service.events == old(service.events) + service.Recorded(t.remoteEviction, EvictRequest(cacheName.value, keys.value), sendFails)
                && forall x | x in Touched(cacheName) :: x.entries == old(x.entries) - KeySet(keys.value)
      ensures !r.Evicted? ==>
                && service.sent == old(service.sent) && service.events == old(service.events)
                && forall x | x in Touched(cacheName) :: x.entries == old(x.entries)
    {
      if cacheName.None? {
        return Crashed;
      }
      var name := cacheName.value;
      var cache := GetCache(manager, name);
      if cache.None? {
        return NotFound("Cache not found: " + name, GetCacheNames(manager));
      }
      if keys.None? || keys.value == [] {
        return Rejected("No keys provided for eviction");
      }
      var ks := keys.value;
      EvictKnown(t, cache.value, name, ks, sendFails);
      return Evicted(name, |ks|, ks, service.instanceId);
    }

    /** The part of `evict` past its checks: build and publish the EVICT for `keys`, then
        remove the keys from every tier of `cache`, the cache `name` resolves to. */
    method EvictKnown(t: Thread, cache: Cache<V>, name: string, keys: seq<string>, sendFails: bool)
      requires GetCache(manager, name) == Some(cache)
      modifies service`sent, service`events, cache.Tiers()
      ensures service.sent == old(service.sent) + service.Outgoing(t.remoteEviction, EvictRequest(name, keys), sendFails)
      ensures service.events == old(service.events) + service.Recorded(t.remoteEviction, EvictRequest(name, keys), sendFails)
      ensures forall x | x in cache.Tiers() :: x.entries == old(x.entries) - KeySet(keys)
    {
      var b := new Builder();
      b.SetCacheName(Some(name));
      b.KeysFromList(Some(keys));
      b.SetAction(Some(EVICT));
      var message := b.Build();
      assert message == EvictRequest(name, keys);
      var _ := service.Publish(t, message, sendFails);
      EvictAll(cache, keys);
    }

    /** `clear` (POST /clear), called on thread `t`: an unknown cache is reported; otherwise the
        clear is published and every tier of the cache emptied locally. */
    method Clear(t: Thread, cacheName: Option<string>, sendFails: bool) returns (r: Response)
      modifies service`sent, service`events, Touched(cacheName)
      ensures cacheName.None? ==> r == Crashed
      ensures cacheName.Some? && GetCache(manager, cacheName.value).None? ==>
                r == NotFound("Cache not found: " + cacheName.value, GetCacheNames(manager))
      ensures r.Cleared? <==> cacheName.Some? && GetCache(manager, cacheName.value).Some?
      ensures r.Cleared? ==>
                && r == Cleared(cacheName.value, service.instanceId)
                && service.sent == old(service.sent) + service.Outgoing(t.remoteEviction, ClearRequest(cacheName.value), sendFails)
                && service.events == old(service.events) + service.Recorded(t.remoteEviction, ClearRequest(cacheName.value), sendFails)
                && forall x | x in Touched(cacheName) :: x.entries == map[]
      ensures !r.Cleared? ==> service.sent == old(service.sent) && service.events == old(service.events)
    {
      if cacheName.None? {
        return Crashed;
      }
      var name := cacheName.value;
      var cache := GetCache(manager, name);
      if cache.None? {
        return NotFound("Cache not found: " + name, GetCacheNames(manager));
      }
      ClearAllSingle(service, t.remoteEviction, manager, name, sendFails);
      var _ := ClearNamed(t, name, sendFails);
      return Cleared(name, service.instanceId);
    }

    /** The step `clear` and `clearAll` share: when `name` resolves, build and publish its
        CLEAR, then empty every tier of the cache. */
    method ClearNamed(t: Thread, name: string, sendFails: bool) returns (found: bool)
      modifies service`sent, service`events, CacheTiers(manager, name)
      ensures found == GetCache(manager, name).Some?
      ensures service.sent == old(service.sent) + ClearAllSends(service, t.remoteEviction, manager, [name], sendFails)
      ensures service.events == old(service.events) + ClearAllEvents(service, t.remoteEviction, service.metricsOn, manager, [name], sendFails)
      ensures forall x | x in CacheTiers(manager, name) :: x.entries == map[]
    {
      ClearAllSingle(service, t.remoteEviction, manager, name, sendFails);
      var cache := GetCache(manager, name);
      if cache.None? {
        return false;
      }
      var b := new Builder();
      b.SetCacheName(Some(name));
      b.SetAction(Some(CLEAR));
      b.KeysFromList(Some([]));
      var message := b.Build();
      assert message == ClearRequest(name);
      var _ := service.Publish(t, message, sendFails);
      ClearCache(cache.value);
      return true;
    }

    /**
     * `clearAll` (POST /clear-all), called on thread `t`: for each listed name that resolves,
     * publish a clear and empty the cache locally. Every tier of a resolved cache ends empty;
     * every other tier is untouched.
     */
    method ClearAll(t: Thread, sendFails: bool) returns (r: Response)
      modifies service`sent, service`events, TiersOf(manager, GetCacheNames(manager))
      ensures var cleared := Found(manager, GetCacheNames(manager));
        r == ClearedAll(|cleared|, cleared, service.instanceId)
      ensures service.sent == old(service.sent) + ClearAllSends(service, t.remoteEviction, manager, GetCacheNames(manager), sendFails)
      ensures service.events == old(service.events) + ClearAllEvents(service, t.remoteEviction, service.metricsOn, manager, GetCacheNames(manager), sendFails)
      ensures forall x | x in TiersOf(manager, GetCacheNames(manager)) :: x.entries == map[]
    {
      var names := GetCacheNames(manager);
      var cleared: seq<string> := [];
      ghost var metricsOn := service.metricsOn;
      var i := 0;
      while i < |names|
        invariant 0 <= i <= |names|
        invariant cleared == Found(manager, names[..i])
        invariant ClearedPrefix(t.remoteEviction, metricsOn, names, i, sendFails, old(service.sent), old(service.events))
      {
        var found := ClearStep(t, names, i, sendFails, metricsOn, old(service.sent), old(service.events));
        if found {
          cleared := cleared + [names[i]];
        }
        i := i + 1;
      }
      assert names[..|names|] == names;
      return ClearedAll(|cleared|, cleared, service.instanceId);
    }

    /** One iteration of `clearAll`'s loop: clears `names[i]` and extends what `clearAll` has
        done for the names before it by that name's contribution. */
    method ClearStep(t: Thread, names: seq<string>, i: nat, sendFails: bool, ghost metricsOn: bool,
                     ghost sent0: seq<Send>, ghost events0: seq<Event>) returns (found: bool)
      requires i < |names| && metricsOn == service.metricsOn
      requires ClearedPrefix(t.remoteEviction, metricsOn, names, i, sendFails, sent0, events0)
      modifies service`sent, service`events, TiersOf(manager, names)
      ensures found == GetCache(manager, names[i]).Some?
      ensures Found(manager, names[..i + 1]) == Found(manager, names[..i]) + (if found then [names[i]] else [])
      ensures ClearedPrefix(t.remoteEviction, metricsOn, names, i + 1, sendFails, sent0, events0)
    {
      ClearAllSnoc(service, t.remoteEviction, metricsOn, manager, names, i, sendFails);
      TiersOfCovers(manager, names, i);
      ghost var sentBefore := ClearAllSends(service, t.remoteEviction, manager, names[..i], sendFails);
      ghost var sentHere := ClearAllSends(service, t.remoteEviction, manager, [names[i]], sendFails);
      assert (sent0 + sentBefore) + sentHere == sent0 + (sentBefore + sentHere);
      ghost var eventsBefore := ClearAllEvents(service, t.remoteEviction, metricsOn, manager, names[..i], sendFails);
      ghost var eventsHere := ClearAllEvents(service, t.remoteEviction, metricsOn, manager, [names[i]], sendFails);
      assert (events0 + eventsBefore) + eventsHere == events0 + (eventsBefore + eventsHere);
      ghost var touched := CacheTiers(manager, names[i]);
      ghost var emptied := TiersOf(manager, names[..i]);
      label before:
      found := ClearNamed(t, names[i], sendFails);
      forall x: Tier<V> | x in emptied + touched
        ensures x.entries == map[]
      {
        if x !in touched {
          assert x.entries == old@before(x.entries);
        }
      }
    }

    /** After clearing `names[..i]`: the log, the metrics and the tiers are as `clearAll` leaves them. */
    ghost predicate ClearedPrefix(remote: bool, metricsOn: bool, names: seq<string>, i: nat, sendFails: bool,
                                  sent0: seq<Send>, events0: seq<Event>)
      requires i <= |names|
      reads service`sent, service`events, TiersOf(manager, names[..i])
    {
      && service.sent == sent0 + ClearAllSends(service, remote, manager, names[..i], sendFails)
      && service.events == events0 + ClearAllEvents(service, remote, metricsOn, manager, names[..i], sendFails)
      && forall x | x in TiersOf(manager, names[..i]) :: x.entries == map[]
    }
  }

  /** With a well-formed manager, `clearAll` reaches every cache it lists. */
  lemma ClearAllReachesEveryCache<V>(cm: CacheManager<V>)
    requires cm.WellFormed()
    ensures Found(cm, GetCacheNames(cm)) == GetCacheNames(cm)
  {
    forall n | n in GetCacheNames(cm)
      ensures GetCache(cm, n).Some?
    {
      ListedCachesExist(cm, n);
    }
    FoundAll(cm, GetCacheNames(cm));
  }
}
