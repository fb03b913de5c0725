/**
 * `CacheSyncService`: the coordinator that publishes invalidation messages to a Redis pub/sub
 * channel and applies the messages other instances publish to this instance's local tier.
 *
 * Redis is not modelled: what `publish` hands to `convertAndSend` is appended to `sent`, and a
 * payload arriving on the channel is an argument of `OnMessage`. The optional metrics bean is
 * the flag `metricsOn` plus the log `events` of the calls made on it.
 */
module Sync {
  import opened Wrappers
  import opened JavaText
  import opened Messages
  import opened Codec
  import opened Config
  import opened TwoTier
  import opened Managers

  /** A call on the metrics bean. */
  datatype Event =
    | Published(cacheName: Option<string>, action: Option<Action>, keyCount: nat)  // recordPublish
    | Received(cacheName: Option<string>, action: Option<Action>, keyCount: nat)   // recordReceive
    | Failed(cacheName: Option<string>)                                              // recordError
    | SelfIgnored                                                                     // recordSelfMessageIgnored

  /** One `convertAndSend(channel, payload)`. */
  datatype Send = Send(channel: string, payload: Payload)

  /**
   * A thread, as far as the static `ThreadLocal` `REMOTE_EVICTION` is concerned: its value of
   * the flag on this thread. Every coordinator in the JVM sees the same flag on a given thread.
   */
  class Thread {
    var remoteEviction: bool

    /** `ThreadLocal.withInitial(() -> false)`. */
    constructor ()
      ensures !remoteEviction
    {
      remoteEviction := false;
    }
  }

  /** A prefix that takes part in the channel name: non-null and not blank. */
  predicate UsesPrefix(p: Properties) {
    p.channelPrefix.Some? && !IsBlank(p.channelPrefix.value)
  }

  /**
   * `buildChannelName`: the prefix followed by the channel when the prefix is usable (a null
   * channel concatenates as "null"), otherwise the channel itself, which may be null.
   */
  function BuildChannelName(p: Properties): (r: Option<string>)
    ensures r.None? <==> !UsesPrefix(p) && p.channel.None?
    ensures UsesPrefix(p) ==> r.Some? && p.channelPrefix.value <= r.value
                              && r.value[|p.channelPrefix.value|..] == Show(p.channel)
    ensures !UsesPrefix(p) ==> r == p.channel
  {
    if UsesPrefix(p) then Some(p.channelPrefix.value + Show(p.channel)) else p.channel
  }

  /** Environment isolation: two configurations with the same channel and different usable
      prefixes publish on different channels. */
  lemma PrefixesIsolate(p1: Properties, p2: Properties)
    requires UsesPrefix(p1) && UsesPrefix(p2) && p1.channel == p2.channel
    requires p1.channelPrefix != p2.channelPrefix
    ensures BuildChannelName(p1) != BuildChannelName(p2)
  {
  }

  /** A null, empty or blank prefix is the same as no prefix at all. */
  lemma BlankPrefixIsIgnored(p: Properties, prefix: string)
    requires IsBlank(prefix)
    ensures BuildChannelName(p.(channelPrefix := Some(prefix))) == BuildChannelName(p.(channelPrefix := None))
    ensures BuildChannelName(p.(channelPrefix := Some(prefix))) == p.channel
  {
  }

  /** The documented examples, and the channel the default configuration uses. */
  lemma ChannelNameExamples()
    ensures BuildChannelName(Defaults().(channelPrefix := Some("prod:"))) == Some("prod:cache-invalidation")
    ensures BuildChannelName(Defaults()) == Some("cache-invalidation")
    ensures BuildChannelName(Defaults().(channelPrefix := Some("staging:"), channel := Some("cache-sync")))
         == Some("staging:cache-sync")
  {
    assert !IsWhitespace("prod:"[0]);
    assert UsesPrefix(Defaults().(channelPrefix := Some("prod:")));
    assert "prod:" + "cache-invalidation" == "prod:cache-invalidation";
    assert !IsWhitespace("staging:"[0]);
    assert UsesPrefix(Defaults().(channelPrefix := Some("staging:"), channel := Some("cache-sync")));
    assert "staging:" + "cache-sync" == "staging:cache-sync";
  }

  /** `UUID.randomUUID().toString()`: 36 characters, hyphens at positions 8, 13, 18 and 23. */
  predicate UuidShaped(s: string) {
    |s| == 36 && s[8] == '-' && s[13] == '-' && s[18] == '-' && s[23] == '-'
  }

  /** The message as `publish` sends it: its instance id overwritten with the sender's. */
  function Stamp(msg: CacheMessage, id: string): (r: CacheMessage)
    ensures r.instanceId == Some(id)
    ensures r.cacheName == msg.cacheName && r.keys == msg.keys && r.action == msg.action
  {
    msg.(instanceId := Some(id))
  }

  /** What `publish` hands to Redis once it gets past the re-entry check: nothing when
      serialising or sending throws, otherwise the encoded stamped message on the channel. */
  function PublishSends(channel: string, compress: bool, stamped: CacheMessage, sendFails: bool): (r: seq<Send>)
    ensures |r| <= 1
    ensures r != [] <==> !sendFails
  {
    if sendFails then [] else [Send(channel, Encode(stamped, compress))]
  }

  /** What `publish` sends reaches the channel and decodes, under the same compression
      setting, to exactly the stamped message. */
  lemma PublishedPayloadDecodes(channel: string, compress: bool, stamped: CacheMessage, sendFails: bool)
    ensures var r := PublishSends(channel, compress, stamped, sendFails);
      r != [] ==> r[0].channel == channel && Decode(r[0].payload, compress) == Some(stamped)
  {
    RoundTrip(stamped, compress);
  }

  /** The metrics call `publish` makes: `recordPublish` after a send, except that a null key
      list makes the debug line (line 178) throw after the send, which turns it into
      `recordError`, as does any failure to send. */
  function PublishEvent(stamped: CacheMessage, sendFails: bool): (e: Event)
    ensures e.Published? <==> !sendFails && stamped.keys.Some?
    ensures e.Published? ==> e == Published(stamped.cacheName, stamped.action, |stamped.keys.value|)
    ensures !e.Published? ==> e == Failed(stamped.cacheName)
  {
    if sendFails || stamped.keys.None? then Failed(stamped.cacheName)
    else Published(stamped.cacheName, stamped.action, |stamped.keys.value|)
  }

  /** The tier a remote message acts on (lines 298-306): a two-tier cache's L1, which may be
      absent, or the whole cache when it is not a two-tier one. */
  function LocalTarget<V>(c: Cache<V>): (r: Option<Tier<V>>)
    ensures r.Some? ==> r.value in c.Tiers()
    ensures c.Layered? ==> r == c.cache.l1
    ensures c.SingleTier? ==> r == Some(c.store)
  {
    match c
    case SingleTier(t) => Some(t)
    case Layered(tt) => tt.l1
  }

  /** Messages `processMessage` completes on a present target: a CLEAR, or an EVICT with a key
      list. A null action (the switch) and an EVICT without keys (the loop) throw. */
  predicate Applicable(msg: CacheMessage) {
    msg.action == Some(CLEAR) || (msg.action == Some(EVICT) && msg.keys.Some?)
  }

  /** The local tier after a remote message: an EVICT removes its keys, a CLEAR removes every
      entry, and a message that throws leaves the tier as it was. Nothing is ever added or
      changed: entries only disappear. */
  function RemoteApply<V>(entries: map<string, V>, msg: CacheMessage): (r: map<string, V>)
    ensures r.Keys <= entries.Keys
    ensures forall k | k in r :: r[k] == entries[k]
    ensures msg.action == Some(CLEAR) ==> r == map[]
    ensures msg.action == Some(EVICT) && msg.keys.Some? ==>
              forall k :: k in r <==> k in entries && k !in msg.keys.value
    ensures !Applicable(msg) ==> r == entries
  {
    if msg.action == Some(CLEAR) then map[]
    else if msg.action == Some(EVICT) && msg.keys.Some? then entries - KeySet(msg.keys.value)
    else entries
  }

  /** Applying a message twice is applying it once, so a redelivered message is harmless. */
  lemma RemoteApplyIdempotent<V>(entries: map<string, V>, msg: CacheMessage)
    ensures RemoteApply(RemoteApply(entries, msg), msg) == RemoteApply(entries, msg)
  {
  }

  /** The order in which two remote messages arrive does not matter to the local tier. */
  lemma RemoteApplyCommutes<V>(entries: map<string, V>, m1: CacheMessage, m2: CacheMessage)
    ensures RemoteApply(RemoteApply(entries, m1), m2) == RemoteApply(RemoteApply(entries, m2), m1)
  {
    var a := RemoteApply(RemoteApply(entries, m1), m2);
    var b := RemoteApply(RemoteApply(entries, m2), m1);
    assert a.Keys == b.Keys;
  }

  /** What `onMessage` does with a payload, up to the point where it acts on a cache. */
  datatype Disposition<V> =
    | Undecodable                              // decompression or JSON parsing failed
    | Own(msg: CacheMessage)                   // published by this instance
    | NoName(msg: CacheMessage)                // null cache name: the managers' lookup throws
    | UnknownCache(msg: CacheMessage)          // no manager knows the name
    | Deliver(msg: CacheMessage, cache: Cache<V>)

  /** Lines 223-245 of the coordinator. */
  function Dispose<V>(manager: CacheManager<V>, compress: bool, id: string, payload: Payload): (d: Disposition<V>)
    ensures d.Undecodable? <==> Decode(payload, compress).None?
    ensures !d.Undecodable? ==> d.msg == Decode(payload, compress).value
    ensures d.Own? <==> !d.Undecodable? && d.msg.instanceId == Some(id)
    ensures d.NoName? <==> !d.Undecodable? && !d.Own? && d.msg.cacheName.None?
    ensures d.UnknownCache? <==>
              !d.Undecodable? && !d.Own? && d.msg.cacheName.Some? && GetCache(manager, d.msg.cacheName.value).None?
    ensures d.Deliver? <==>
              !d.Undecodable? && !d.Own? && d.msg.cacheName.Some? && GetCache(manager, d.msg.cacheName.value).Some?
    ensures d.Deliver? ==> d.msg.cacheName.Some? && GetCache(manager, d.msg.cacheName.value) == Some(d.cache)
  {
    match Decode(payload, compress)
    case None => Undecodable
    case Some(msg) =>
      if msg.instanceId == Some(id) then Own(msg)
      else if msg.cacheName.None? then NoName(msg)
      else match GetCache(manager, msg.cacheName.value)
        case None => UnknownCache(msg)
        case Some(c) => Deliver(msg, c)
  }

  /** The tiers a payload's processing may change. */
  function TargetFrame<V>(d: Disposition<V>): set<Tier<V>> {
    if d.Deliver? && LocalTarget(d.cache).Some? then {LocalTarget(d.cache).value} else {}
  }

  /** The metrics call after a delivered message: `recordReceive` when processing completed
      and the debug line after it evaluated (it needs a key list and a sender id of at least
      eight characters, line 256); otherwise the exception is caught and `recordError` made. */
  function ReceiveEvent(msg: CacheMessage, processed: bool): (e: Event)
    ensures e.Received? <==> processed && msg.keys.Some? && msg.instanceId.Some? && |msg.instanceId.value| >= 8
    ensures e.Received? ==> e == Received(msg.cacheName, msg.action, |msg.keys.value|)
    ensures !e.Received? ==> e == Failed(msg.cacheName)
  {
    if processed && msg.keys.Some? && msg.instanceId.Some? && |msg.instanceId.value| >= 8
    then Received(msg.cacheName, msg.action, |msg.keys.value|)
    else Failed(msg.cacheName)
  }

  /** An instance never acts on what it published itself, under either compression setting
      it shares with itself. */
  lemma OwnMessagesAreIgnored<V>(manager: CacheManager<V>, compress: bool, id: string, m: CacheMessage)
    ensures Dispose(manager, compress, id, Encode(Stamp(m, id), compress)) == Own(Stamp(m, id))
  {
    RoundTrip(Stamp(m, id), compress);
  }

  /** Another instance on the same channel and compression setting receives exactly the
      message that was published, and delivers it to the cache its manager has under that name. */
  lemma OtherInstancesDeliver<V>(manager: CacheManager<V>, compress: bool, sender: string, receiver: string,
                                 m: CacheMessage, c: Cache<V>)
    requires sender != receiver
    requires m.cacheName.Some? && GetCache(manager, m.cacheName.value) == Some(c)
    ensures Dispose(manager, compress, receiver, Encode(Stamp(m, sender), compress)) == Deliver(Stamp(m, sender), c)
  {
    RoundTrip(Stamp(m, sender), compress);
  }

  /** Instances that disagree on compression drop each other's messages. */
  lemma CompressionMismatchIsUndecodable<V>(manager: CacheManager<V>, compress: bool, id: string, m: CacheMessage)
    ensures Dispose(manager, !compress, id, Encode(m, compress)).Undecodable?
  {
    RoundTrip(m, compress);
  }

  /** A message published by a coordinator with a key list is recorded as received by any
      instance that processes it: the sender's UUID is long enough for the debug line. */
  lemma PublishedMessagesAreRecorded(m: CacheMessage, sender: string)
    requires UuidShaped(sender) && m.keys.Some?
    ensures ReceiveEvent(Stamp(m, sender), true) == Received(m.cacheName, m.action, |m.keys.value|)
  {
  }

  /** Remote messages never reach the distributed tier: with a two-tier manager whose Caffeine
      and Redis caches are distinct objects, the only tier a payload can change is a Caffeine one. */
  lemma RemoteMessagesSpareRedis<V>(manager: CacheManager<V>, compress: bool, id: string, payload: Payload)
    requires manager.Valid()
    ensures TargetFrame(Dispose(manager, compress, id, payload)) !! manager.DistributedTiers()
  {
    var d := Dispose(manager, compress, id, payload);
    if d.Deliver? && manager.TwoTierManager? {
      GetCacheLocalTierIsCaffeine(manager, d.msg.cacheName.value);
    }
  }

  class CacheSyncService<V> {
    const manager: CacheManager<V>
    const props: Properties
    const channelName: string
    const instanceId: string
    var metricsOn: bool
    var sent: seq<Send>
    var events: seq<Event>

    /**
     * The constructor. `instanceId` is the random UUID the source draws; subscribing with a
     * null channel name makes `ChannelTopic` throw, so the channel name must exist.
     */
    constructor (manager: CacheManager<V>, props: Properties, instanceId: string, metricsOn: bool)
      requires BuildChannelName(props).Some? && UuidShaped(instanceId)
      ensures this.manager == manager && this.props == props && this.instanceId == instanceId
      ensures channelName == BuildChannelName(props).value
      ensures this.metricsOn == metricsOn && sent == [] && events == []
    {
      this.manager := manager;
      this.props := props;
      this.instanceId := instanceId;
      this.channelName := BuildChannelName(props).value;
      this.metricsOn := metricsOn;
      sent := [];
      events := [];
    }

    /** The metrics calls that happen: `e` when a metrics bean is present, none otherwise. */
    function Metric(e: Event): seq<Event>
      reads this`metricsOn
    {
      if metricsOn then [e] else []
    }

    /** What one `publish` of `msg` sends, given whether the calling thread is applying a
        remote message. */
    function Outgoing(remote: bool, msg: CacheMessage, sendFails: bool): (r: seq<Send>)
      ensures |r| <= 1
      ensures remote || sendFails ==> r == []
    {
      if remote then [] else PublishSends(channelName, props.compressMessages, Stamp(msg, instanceId), sendFails)
    }

    /** A publish from a thread that is not applying a remote message, and whose send does
        not fail, puts exactly one payload on this instance's channel, and that payload decodes
        under this instance's compression setting to the message stamped with its id. */
    lemma OutgoingDecodes(msg: CacheMessage)
      ensures var r := Outgoing(false, msg, false);
        && |r| == 1 && r[0].channel == channelName
        && Decode(r[0].payload, props.compressMessages) == Some(Stamp(msg, instanceId))
    {
      PublishedPayloadDecodes(channelName, props.compressMessages, Stamp(msg, instanceId), false);
    }

    /** The metrics calls one `publish` of `msg` makes. */
    function Recorded(remote: bool, msg: CacheMessage, sendFails: bool): (r: seq<Event>)
      reads this`metricsOn
      ensures |r| <= 1
      ensures remote || !metricsOn ==> r == []
    {
      if remote then [] else Metric(PublishEvent(Stamp(msg, instanceId), sendFails))
    }

    /** `setMetrics`. */
    method SetMetrics(on: bool)
      modifies this`metricsOn
      ensures metricsOn == on
    {
      metricsOn := on;
    }

    /**
     * `publish` on thread `t`. While `t` is applying a remote message nothing happens.
     * Otherwise the message is stamped with this instance's id (`stamped` is the caller's
     * message after `setInstanceId`) and sent; `sendFails` says whether serialising,
     * compressing or sending throws. Exceptions are logged and recorded, never rethrown.
     */
    method Publish(t: Thread, msg: CacheMessage, sendFails: bool) returns (stamped: CacheMessage)
      modifies this`sent, this`events
      ensures t.remoteEviction ==> stamped == msg && sent == old(sent) && events == old(events)
      ensures !t.remoteEviction ==> stamped == Stamp(msg, instanceId)
      ensures sent == old(sent) + Outgoing(t.remoteEviction, msg, sendFails)
      ensures events == old(events) + Recorded(t.remoteEviction, msg, sendFails)
    {
      if t.remoteEviction {
        return msg;
      }
      stamped := Stamp(msg, instanceId);
      if sendFails {
        events := events + Metric(Failed(stamped.cacheName));
        return;
      }
      var payload := Encode(stamped, props.compressMessages);
      sent := sent + [Send(channelName, payload)];
      if stamped.keys.None? {
        events := events + Metric(Failed(stamped.cacheName));
      } else {
        events := events + Metric(Published(stamped.cacheName, stamped.action, |stamped.keys.value|));
      }
    }

    /**
     * `processMessage` on thread `t`, which is applying a remote message: it runs only with the
     * flag raised, so any publish it could cause would be suppressed. It acts on the local target
     * only. `ok` is false when it throws, which happens only on a present target, and then before
     * it changed anything.
     */
    method ProcessMessage(t: Thread, c: Cache<V>, msg: CacheMessage) returns (ok: bool)
      requires t.remoteEviction
      modifies if LocalTarget(c).Some? then {LocalTarget(c).value} else {}
      ensures ok <==> LocalTarget(c).None? || Applicable(msg)
      ensures LocalTarget(c).Some? ==>
                LocalTarget(c).value.entries == RemoteApply(old(LocalTarget(c).value.entries), msg)
    {
      var target := LocalTarget(c);
      if target.None? {
        return true;
      }
      var tier := target.value;
      if msg.action == Some(EVICT) {
        if msg.keys.None? {
          return false;
        }
        var keys := msg.keys.value;
        var i := 0;
        while i < |keys|
          invariant 0 <= i <= |keys|
          invariant tier.entries == old(tier.entries) - KeySet(keys[..i])
        {
          assert KeySet(keys[..i + 1]) == KeySet(keys[..i]) + {keys[i]} by {
            assert keys[..i + 1] == keys[..i] + [keys[i]];
          }
          tier.Evict(keys[i]);
          i := i + 1;
        }
        assert keys[..|keys|] == keys;
        return true;
      } else if msg.action == Some(CLEAR) {
        tier.Clear();
        return true;
      } else {
        return false;
      }
    }

    /**
     * `onMessage` on listener thread `t`. Nothing is ever sent. A payload that does not decode
     * is recorded as an error for cache "unknown"; an own message is recorded as ignored; a
     * null cache name makes the lookup throw; an unknown cache is only logged. A delivered
     * message is applied to the local target with the thread's flag raised, the flag is
     * removed afterwards whatever happens, and the outcome is recorded.
     */
    method OnMessage(t: Thread, payload: Payload)
      modifies this`events, t, TargetFrame(Dispose(manager, props.compressMessages, instanceId, payload))
      ensures sent == old(sent)
      ensures var d := Dispose(manager, props.compressMessages, instanceId, payload);
        match d
        case Undecodable => events == old(events) + Metric(Failed(Some("unknown"))) && t.remoteEviction == old(t.remoteEviction)
        case Own(_) => events == old(events) + Metric(SelfIgnored) && t.remoteEviction == old(t.remoteEviction)
        case NoName(_) => events == old(events) + Metric(Failed(None)) && t.remoteEviction == old(t.remoteEviction)
        case UnknownCache(_) => events == old(events) && t.remoteEviction == old(t.remoteEviction)
        case Deliver(msg, c) =>
          && !t.remoteEviction
          && (LocalTarget(c).Some? ==>
                LocalTarget(c).value.entries == RemoteApply(old(LocalTarget(c).value.entries), msg))
          && events == old(events) + Metric(ReceiveEvent(msg, LocalTarget(c).None? || Applicable(msg)))
      ensures manager.Valid() ==> forall x | x in manager.DistributedTiers() :: x.entries == old(x.entries)
    {
      if manager.Valid() {
        RemoteMessagesSpareRedis(manager, props.compressMessages, instanceId, payload);
      }
      var d := Dispose(manager, props.compressMessages, instanceId, payload);
      match d
      case Undecodable =>
        events := events + Metric(Failed(Some("unknown")));
      case Own(_) =>
        events := events + Metric(SelfIgnored);
      case NoName(_) =>
        events := events + Metric(Failed(None));
      case UnknownCache(_) =>
      case Deliver(msg, c) =>
        t.remoteEviction := true;
        var ok := ProcessMessage(t, c, msg);
        t.remoteEviction := false;
        events := events + Metric(ReceiveEvent(msg, ok));
    }
  }
}
