/**
 * `CacheEvictAspect`: after a `@CacheEvict` method returns normally, announce the eviction to
 * the other instances. The key is taken to be the intercepted method's first argument; SpEL
 * key expressions are not evaluated.
 */
module Aspect {
  import opened Wrappers
  import opened Messages
  import opened Sync

  /** The attributes of `@CacheEvict` the aspect reads: the cache names and `allEntries`. */
  datatype CacheEvict = CacheEvict(value: seq<string>, allEntries: bool)

  /**
   * The message `afterEvict` publishes, if any. `args` are the intercepted method's arguments,
   * each as `String.valueOf` renders it, None for a null argument. Only the first cache name
   * is announced.
   */
  function EvictionMessage(annotation: Option<CacheEvict>, args: seq<Option<string>>): (r: Option<CacheMessage>)
    ensures r.None? <==> || annotation.None? || annotation.value.value == []
                         || (!annotation.value.allEntries && (args == [] || args[0].None?))
    ensures r.Some? ==> r.value.cacheName == Some(annotation.value.value[0]) && r.value.instanceId.None?
    ensures r.Some? && annotation.value.allEntries ==> r.value.action == Some(CLEAR) && r.value.keys == Some([])
    ensures r.Some? && !annotation.value.allEntries ==> r.value.action == Some(EVICT) && r.value.keys == Some([args[0].value])
  {
    if annotation.None? || annotation.value.value == [] then None
    else
      var name := annotation.value.value[0];
      if annotation.value.allEntries then Some(Create(Some(name), None, Some(CLEAR), None))
      else if args != [] && args[0].Some? then Some(Create(Some(name), Some([args[0].value]), Some(EVICT), None))
      else None
  }

  /** Every message the aspect publishes is one a receiving instance applies in full: its
      local tier loses the evicted key, or every entry when `allEntries` is set, and nothing else. */
  lemma AnnouncementsAreApplied<V>(annotation: Option<CacheEvict>, args: seq<Option<string>>, id: string,
                                   entries: map<string, V>)
    requires EvictionMessage(annotation, args).Some?
    ensures Applicable(Stamp(EvictionMessage(annotation, args).value, id))
    ensures forall k :: k in RemoteApply(entries, Stamp(EvictionMessage(annotation, args).value, id))
                    <==> k in entries && !annotation.value.allEntries && k != args[0].value
  {
  }

  /** `afterEvict`, on the thread `t` that ran the evicting method. */
  method AfterEvict<V>(svc: CacheSyncService<V>, t: Thread, annotation: Option<CacheEvict>,
                       args: seq<Option<string>>, sendFails: bool)
    modifies svc`sent, svc`events
    ensures EvictionMessage(annotation, args).None? ==> svc.sent == old(svc.sent) && svc.events == old(svc.events)
    ensures EvictionMessage(annotation, args).Some? ==>
              && svc.sent == old(svc.sent) + svc.Outgoing(t.remoteEviction, EvictionMessage(annotation, args).value, sendFails)
              && svc.events == old(svc.events) + svc.Recorded(t.remoteEviction, EvictionMessage(annotation, args).value, sendFails)
  {
    var msg := EvictionMessage(annotation, args);
    if msg.Some? {
      var _ := svc.Publish(t, msg.value, sendFails);
    }
  }
}
