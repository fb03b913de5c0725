# cache-sync-starter, modelled in Dafny

A Dafny model of the core of *cache-sync-starter*, a Spring Boot starter that keeps a two-tier
cache (a local Caffeine tier, L1, in front of a shared Redis tier, L2) consistent across the
instances of an application by publishing invalidation messages on a Redis pub/sub channel.

What is modelled, module by module:

- `TwoTier`: the delegate caches (`Tier`, a class over a map changed in place) and
  `TwoTierCache`, a record of references to an optional L1 and an optional L2. Its read,
  read-through-loader, write-through, put-if-absent, evict and clear operations are methods
  with exact frames.
- `Managers`: the Caffeine and Redis managers and `TwoTierCacheManager`'s `getCache` and
  `getCacheNames` (`Stream.distinct` included).
- `Messages`: `CacheMessage` as a value with Java's nulls, its constructors, builder,
  `equals`, `hashCode` (32-bit arithmetic written out) and `toString`.
- `Codec`: the wire format kept symbolic (JSON text, GZIP+Base64 text, other text) with the
  decode-after-encode round trip proved.
- `Config`: the configuration properties and their defaults.
- `Sync`: `CacheSyncService`, the coordinator: the channel name rule, `publish` (guarded by
  the per-thread remote-eviction flag, stamping the instance id, one send, failures swallowed
  and recorded), `onMessage` (decode, drop own messages, look the cache up, apply to L1 only
  with the flag raised, always lower it) and `processMessage`. Redis is a log `sent` of
  sends, the metrics bean a log `events` of calls.
- `Aspect`: `CacheEvictAspect.afterEvict`, from a `@CacheEvict` annotation and the
  intercepted method's arguments to at most one message.
- `Endpoint`: `CacheSyncEndpoint`'s `evict`, `clear`, `clearAll`, the health status and
  the uptime decomposition.

The ThreadLocal flag is a `Thread` object whose `remoteEviction` field every coordinator
reads; `isRemoteEviction` is that field read. Which calls throw is decided by explicit
parameters (`sendFails`, a loader's `Result`), and Java `null` is `Option`.

## Model

| member | source | states |
|---|---|---|
| TwoTier.Get | src/main/java/tech/scytalesystems/cache_sync_starter/cache/TwoTierCache.java:33-51 | the wrapper is L1's when L1 holds the key (a stored null included), else L2's, else null; an L2 hit is copied into L1; L2 never changes |
| TwoTier.GetTyped | src/main/java/tech/scytalesystems/cache_sync_starter/cache/TwoTierCache.java:54-72 | the value is L1's when it is not null, else whatever L2 holds (null for a stored null); only a non-null L2 value is copied into L1; L2 never changes |
| TwoTier.PeekValueWithoutNulls | src/main/java/tech/scytalesystems/cache_sync_starter/cache/TwoTierCache.java:33-72 | where no present tier stores null under the key, `get(key)` and `get(key, type)` find the same value |
| TwoTier.StoredNullIsMissForValueReads | src/main/java/tech/scytalesystems/cache_sync_starter/cache/TwoTierCache.java:36-38 | a null stored in L1 is a hit for `get(key)` but a miss for `get(key, type)`, which falls through to L2 |
| TwoTier.GetOrLoad | src/main/java/tech/scytalesystems/cache_sync_starter/cache/TwoTierCache.java:75-103 | the loader runs exactly when neither tier holds a non-null value (a stored null is a miss, lines 78 and 85); a hit returns the value, copying a non-null L2 value into L1; a loaded value, null included, is returned and written to every present tier; a loader failure is rethrown wrapped with the key and nothing is written |
| TwoTier.Put | src/main/java/tech/scytalesystems/cache_sync_starter/cache/TwoTierCache.java:106-111 | every present tier maps the key to the value and no other key changes |
| TwoTier.PutIfAbsent | src/main/java/tech/scytalesystems/cache_sync_starter/cache/TwoTierCache.java:114-121 | returns the visible wrapper (a stored null included) without writing it (apart from `get`'s copy into L1), else puts into every tier and returns null |
| TwoTier.Evict | src/main/java/tech/scytalesystems/cache_sync_starter/cache/TwoTierCache.java:124-129 | the key leaves every present tier; every other key keeps its value |
| TwoTier.Clear | src/main/java/tech/scytalesystems/cache_sync_starter/cache/TwoTierCache.java:132-137 | every present tier ends empty |
| TwoTier.EvictAll | src/main/java/tech/scytalesystems/cache_sync_starter/endpoint/CacheSyncEndpoint.java:182 | after evicting the keys one by one, each tier of the cache is its old map minus exactly the set of keys |
| TwoTier.EvictFrom | src/main/java/tech/scytalesystems/cache_sync_starter/endpoint/CacheSyncEndpoint.java:182 | `cache.evict` on a single-tier or a two-tier cache: the key leaves every tier the cache holds and nothing else changes |
| TwoTier.ClearCache | src/main/java/tech/scytalesystems/cache_sync_starter/endpoint/CacheSyncEndpoint.java:244 | `cache.clear` on a single-tier or a two-tier cache: every tier the cache holds ends empty |
| Managers.TwoTierGetCache | src/main/java/tech/scytalesystems/cache_sync_starter/cache/TwoTierCacheManager.java:23-30 | null exactly when both managers lack the name; otherwise a record of that name whose L1 and L2 are the two managers' caches, either possibly null |
| Managers.GetCache | src/main/java/tech/scytalesystems/cache_sync_starter/cache/TwoTierCacheManager.java:23-30 | a found cache's tiers belong to the manager; on a single-tier manager it is that manager's cache of the name, on a two-tier manager the two-tier lookup |
| Managers.GetCacheLocalTierIsCaffeine | src/main/java/tech/scytalesystems/cache_sync_starter/cache/TwoTierCacheManager.java:19-30 | `getCache` keeps no state and always puts the Caffeine cache, never a Redis one, in L1 |
| Managers.Distinct | src/main/java/tech/scytalesystems/cache_sync_starter/cache/TwoTierCacheManager.java:33-37 | the result has no duplicates and holds exactly the elements of the input |
| Managers.TwoTierCacheNames | src/main/java/tech/scytalesystems/cache_sync_starter/cache/TwoTierCacheManager.java:33-37 | `getCacheNames` lists every name either manager knows, with no duplicates |
| Managers.DistinctConcat | src/main/java/tech/scytalesystems/cache_sync_starter/cache/TwoTierCacheManager.java:34-36 | de-duplicating a concatenation keeps the first part's first occurrences, then the second part's elements not in the first part |
| Managers.CacheNamesOrder | src/main/java/tech/scytalesystems/cache_sync_starter/cache/TwoTierCacheManager.java:34-36 | the Caffeine names come first, then the names only Redis knows, each at its first occurrence |
| Managers.GetCacheNames | src/main/java/tech/scytalesystems/cache_sync_starter/cache/TwoTierCacheManager.java:32-37 | a single-tier manager's own names; for the two-tier manager, every name either delegate knows, without duplicates |
| Managers.ListedCachesExist | src/main/java/tech/scytalesystems/cache_sync_starter/cache/TwoTierCacheManager.java:23-37 | every name a well-formed manager lists resolves to a cache |
| Messages.Empty | src/main/java/tech/scytalesystems/cache_sync_starter/dto/CacheMessage.java:23-25 | the no-argument constructor leaves every field null except an empty key list |
| Messages.Create | src/main/java/tech/scytalesystems/cache_sync_starter/dto/CacheMessage.java:27-32 | a null key list becomes an empty one; the other fields are stored as given |
| Messages.CreateNormalises | src/main/java/tech/scytalesystems/cache_sync_starter/dto/CacheMessage.java:27-32 | normalisation is idempotent and leaves a message with a key list unchanged |
| Messages.Equals | src/main/java/tech/scytalesystems/cache_sync_starter/dto/CacheMessage.java:140-152 | `equals` holds exactly for messages with the same four fields |
| Messages.EqualsIsValueEquality | src/main/java/tech/scytalesystems/cache_sync_starter/dto/CacheMessage.java:140-152 | `equals` holds exactly when all four fields are equal; it is reflexive and symmetric |
| Messages.HashCode | src/main/java/tech/scytalesystems/cache_sync_starter/dto/CacheMessage.java:154-163 | the hash is a Java `int` |
| Messages.HashCodeAgreesWithEquals | src/main/java/tech/scytalesystems/cache_sync_starter/dto/CacheMessage.java:140-163 | messages that are `equals` have the same `hashCode` |
| Messages.ShowInstanceId | src/main/java/tech/scytalesystems/cache_sync_starter/dto/CacheMessage.java:131-138 | "null" exactly for a null id; otherwise the first min(8, length) characters of the id followed by "..." |
| Messages.ToString | src/main/java/tech/scytalesystems/cache_sync_starter/dto/CacheMessage.java:131-138 | the text starts with "CacheMessage{cacheName='" and ends with the truncated instance id and "'}" |
| Messages.ToStringTruncatesInstanceId | src/main/java/tech/scytalesystems/cache_sync_starter/dto/CacheMessage.java:131-138 | ids that agree on their first 8 characters print the same |
| Messages.Builder.constructor | src/main/java/tech/scytalesystems/cache_sync_starter/dto/CacheMessage.java:46-48 | a fresh builder has null fields and an empty, growable key list |
| Messages.Builder.SetCacheName | src/main/java/tech/scytalesystems/cache_sync_starter/dto/CacheMessage.java:50-53 | sets the cache name only |
| Messages.Builder.KeysFromList | src/main/java/tech/scytalesystems/cache_sync_starter/dto/CacheMessage.java:56-59 | a copy of the given keys, or an empty list for null, in a growable list |
| Messages.Builder.KeysFromArrayAsWritten | src/main/java/tech/scytalesystems/cache_sync_starter/dto/CacheMessage.java:61-64 | the given keys, or an empty list for null; the list is fixed-size unless the argument was null |
| Messages.Builder.KeysFromArray | src/main/java/tech/scytalesystems/cache_sync_starter/dto/CacheMessage.java:61-64 | the given keys, or an empty list for null, in a growable list |
| Messages.Builder.AddKey | src/main/java/tech/scytalesystems/cache_sync_starter/dto/CacheMessage.java:66-71 | on a growable list the key is appended; on a fixed-size one the call fails and the keys are unchanged |
| Messages.Builder.SetAction | src/main/java/tech/scytalesystems/cache_sync_starter/dto/CacheMessage.java:73-76 | sets the action only |
| Messages.Builder.SetInstanceId | src/main/java/tech/scytalesystems/cache_sync_starter/dto/CacheMessage.java:78-81 | sets the instance id only |
| Messages.Builder.Build | src/main/java/tech/scytalesystems/cache_sync_starter/dto/CacheMessage.java:83-85 | the built message's four fields are the builder's |
| Messages.BuildWithoutKeys | src/main/java/tech/scytalesystems/cache_sync_starter/dto/CacheMessage.java:46-48 | a message built without keys has an empty, non-null key list |
| Messages.AddKeysInOrder | src/main/java/tech/scytalesystems/cache_sync_starter/dto/CacheMessage.java:66-71 | `addKey` calls on a fresh builder append their keys in call order |
| Messages.AddKeyAfterArrayKeysAsWritten | src/main/java/tech/scytalesystems/cache_sync_starter/dto/CacheMessage.java:61-71 | `builder().keys("a").addKey("b")` fails and leaves the keys as ["a"] |
| Messages.AddKeyAfterArrayKeys | src/main/java/tech/scytalesystems/cache_sync_starter/dto/CacheMessage.java:61-71 | with a growable list, `addKey` after `keys(String...)` extends the given keys |
| Codec.DecompressCompress | src/main/java/tech/scytalesystems/cache_sync_starter/util/CompressionUtil.java:67-70 | decompression inverts compression, the empty string included |
| Codec.RoundTrip | src/main/java/tech/scytalesystems/cache_sync_starter/util/JsonUtil.java:29-55 | decoding inverts encoding under the same compression setting and fails under the other; this holds by construction of the symbolic payload, that is, it is assumed of Jackson, GZIP and Base64 rather than proved of them |
| Codec.GarbageDoesNotDecode | src/main/java/tech/scytalesystems/cache_sync_starter/util/JsonUtil.java:47-55 | text that is not the JSON of a message decodes to null |
| Codec.Encode | src/main/java/tech/scytalesystems/cache_sync_starter/sync/CacheSyncService.java:167-171 | the payload is the message's JSON, compressed when compression is on: decompressing (when on) and parsing it gives the message back |
| Codec.Decode | src/main/java/tech/scytalesystems/cache_sync_starter/sync/CacheSyncService.java:223-226 | a payload decodes to a message only when it is that message's encoding under the same setting |
| Config.Defaults | src/main/java/tech/scytalesystems/cache_sync_starter/config/CacheSyncProperties.java:27-62 | empty prefix, channel "cache-invalidation", enabled, uncompressed, 5-minute L1 TTL, 1000 L1 entries, 30-minute L2 TTL |
| Sync.Thread.constructor | src/main/java/tech/scytalesystems/cache_sync_starter/sync/CacheSyncService.java:71 | the flag starts false on every thread |
| Sync.BuildChannelName | src/main/java/tech/scytalesystems/cache_sync_starter/sync/CacheSyncService.java:129-136 | with a non-null, non-blank prefix the name is the prefix followed by the channel; otherwise it is the channel |
| Sync.PrefixesIsolate | src/main/java/tech/scytalesystems/cache_sync_starter/sync/CacheSyncService.java:129-136 | different usable prefixes with the same channel give different channel names |
| Sync.BlankPrefixIsIgnored | src/main/java/tech/scytalesystems/cache_sync_starter/sync/CacheSyncService.java:129-136 | a blank prefix gives the same channel name as no prefix: the channel itself |
| Sync.ChannelNameExamples | src/main/java/tech/scytalesystems/cache_sync_starter/sync/CacheSyncService.java:129-136 | "prod:" with the default channel gives "prod:cache-invalidation"; the defaults give "cache-invalidation" |
| Sync.Stamp | src/main/java/tech/scytalesystems/cache_sync_starter/sync/CacheSyncService.java:164 | the stamped message carries the sender's id and the original other fields |
| Sync.PublishSends | src/main/java/tech/scytalesystems/cache_sync_starter/sync/CacheSyncService.java:167-175 | at most one send, and one exactly when nothing throws |
| Sync.PublishedPayloadDecodes | src/main/java/tech/scytalesystems/cache_sync_starter/sync/CacheSyncService.java:167-175 | what is sent goes to the channel and decodes to the stamped message |
| Sync.PublishEvent | src/main/java/tech/scytalesystems/cache_sync_starter/sync/CacheSyncService.java:177-188 | `recordPublish` with the key count exactly after a successful send of a message with keys; `recordError` otherwise |
| Sync.LocalTarget | src/main/java/tech/scytalesystems/cache_sync_starter/sync/CacheSyncService.java:298-312 | a remote message acts on a two-tier cache's L1, possibly absent, and on a cache that is not two-tier as a whole: that cache is its own target |
| Sync.RemoteApply | src/main/java/tech/scytalesystems/cache_sync_starter/sync/CacheSyncService.java:315-335 | CLEAR empties the tier; EVICT removes exactly its keys; anything that throws changes nothing; no entry is ever added or changed |
| Sync.RemoteApplyIdempotent | src/main/java/tech/scytalesystems/cache_sync_starter/sync/CacheSyncService.java:315-335 | applying a message twice equals applying it once |
| Sync.RemoteApplyCommutes | src/main/java/tech/scytalesystems/cache_sync_starter/sync/CacheSyncService.java:315-335 | the arrival order of two messages does not matter |
| Sync.Dispose | src/main/java/tech/scytalesystems/cache_sync_starter/sync/CacheSyncService.java:223-245 | undecodable exactly when decoding fails; own exactly when the id is this instance's; otherwise a null name is NoName, a name the manager does not know is UnknownCache, and any other message is delivered to the cache the manager has under its name |
| Sync.ReceiveEvent | src/main/java/tech/scytalesystems/cache_sync_starter/sync/CacheSyncService.java:252-265 | `recordReceive` exactly when processing completed and the debug line's `substring(0, 8)` succeeded; `recordError` otherwise |
| Sync.OwnMessagesAreIgnored | src/main/java/tech/scytalesystems/cache_sync_starter/sync/CacheSyncService.java:230-237 | an instance's own published payload is recognised as its own |
| Sync.OtherInstancesDeliver | src/main/java/tech/scytalesystems/cache_sync_starter/sync/CacheSyncService.java:223-252 | another instance with the same compression setting delivers the published message to its cache of that name |
| Sync.CompressionMismatchIsUndecodable | src/main/java/tech/scytalesystems/cache_sync_starter/sync/CacheSyncService.java:223-226 | a payload encoded under the other compression setting does not decode |
| Sync.PublishedMessagesAreRecorded | src/main/java/tech/scytalesystems/cache_sync_starter/sync/CacheSyncService.java:254-259 | a processed message with keys from a coordinator, whose id is a UUID, is recorded as received |
| Sync.RemoteMessagesSpareRedis | src/main/java/tech/scytalesystems/cache_sync_starter/sync/CacheSyncService.java:296-312 | a payload can change only a Caffeine tier, never a Redis one |
| Sync.CacheSyncService.constructor | src/main/java/tech/scytalesystems/cache_sync_starter/sync/CacheSyncService.java:95-114 | stores the manager, properties and id; the channel name is the rule's result; the logs start empty |
| Sync.CacheSyncService.Outgoing | src/main/java/tech/scytalesystems/cache_sync_starter/sync/CacheSyncService.java:154-175 | nothing is sent while the flag is raised or when the send throws; otherwise one send |
| Sync.CacheSyncService.OutgoingDecodes | src/main/java/tech/scytalesystems/cache_sync_starter/sync/CacheSyncService.java:164-175 | a successful publish with the flag lowered sends exactly once, on this channel, a payload that decodes to the message stamped with this id |
| Sync.CacheSyncService.Recorded | src/main/java/tech/scytalesystems/cache_sync_starter/sync/CacheSyncService.java:177-188 | at most one metrics call, none while the flag is raised or without a metrics bean |
| Sync.CacheSyncService.SetMetrics | src/main/java/tech/scytalesystems/cache_sync_starter/sync/CacheSyncService.java:372-374 | attaches or detaches the metrics bean |
| Sync.CacheSyncService.Publish | src/main/java/tech/scytalesystems/cache_sync_starter/sync/CacheSyncService.java:154-190 | with the flag raised: nothing sent or recorded, the message unchanged; otherwise it is stamped with this id, sent at most once on this channel and the outcome recorded |
| Sync.CacheSyncService.ProcessMessage | src/main/java/tech/scytalesystems/cache_sync_starter/sync/CacheSyncService.java:296-336 | runs only while the thread's flag is raised; completes exactly when there is no local target or the message is applicable; the target becomes `RemoteApply` of its old contents |
| Sync.CacheSyncService.OnMessage | src/main/java/tech/scytalesystems/cache_sync_starter/sync/CacheSyncService.java:218-273 | nothing is sent; each disposition gets its metrics call ("unknown" error, self-ignored, error, none); a delivered message is applied to L1 only, and the flag ends lowered; Redis tiers never change |
| Aspect.EvictionMessage | src/main/java/tech/scytalesystems/cache_sync_starter/aspect/CacheEvictAspect.java:26-44 | no message exactly for a null annotation, no cache names, or no non-null first argument without `allEntries`; the first name only; CLEAR with no keys for `allEntries`, else EVICT of the first argument |
| Aspect.AnnouncementsAreApplied | src/main/java/tech/scytalesystems/cache_sync_starter/aspect/CacheEvictAspect.java:33-43 | every announced message is applied in full by a receiver: the key, or every entry, leaves its local tier and nothing else does |
| Aspect.AfterEvict | src/main/java/tech/scytalesystems/cache_sync_starter/aspect/CacheEvictAspect.java:26-44 | publishes the message `EvictionMessage` gives, if any, and otherwise sends and records nothing |
| Endpoint.EvictRequest | src/main/java/tech/scytalesystems/cache_sync_starter/endpoint/CacheSyncEndpoint.java:173-179 | the EVICT `evict` builds carries the cache name and the keys and no id |
| Endpoint.ClearRequest | src/main/java/tech/scytalesystems/cache_sync_starter/endpoint/CacheSyncEndpoint.java:235-241 | the CLEAR `clear` builds carries the cache name and an empty key list |
| Endpoint.Found | src/main/java/tech/scytalesystems/cache_sync_starter/endpoint/CacheSyncEndpoint.java:282-299 | the names that resolve to a cache, in order |
| Endpoint.FoundAll | src/main/java/tech/scytalesystems/cache_sync_starter/endpoint/CacheSyncEndpoint.java:282-299 | when every name resolves, none is dropped |
| Endpoint.ClearAllSends | src/main/java/tech/scytalesystems/cache_sync_starter/endpoint/CacheSyncEndpoint.java:282-299 | at most one send per name, none while the flag is raised or when sends fail |
| Endpoint.ClearAllEvents | src/main/java/tech/scytalesystems/cache_sync_starter/endpoint/CacheSyncEndpoint.java:282-299 | at most one metrics call per name, none while the flag is raised or without a metrics bean |
| Endpoint.ClearAllSnoc | src/main/java/tech/scytalesystems/cache_sync_starter/endpoint/CacheSyncEndpoint.java:285-299 | one more name extends the found names, the tiers, the sends and the metrics by that name's contribution |
| Endpoint.ClearAllSingle | src/main/java/tech/scytalesystems/cache_sync_starter/endpoint/CacheSyncEndpoint.java:286-298 | a single name contributes one publish of its CLEAR when it resolves, nothing otherwise |
| Endpoint.HealthStatus | src/main/java/tech/scytalesystems/cache_sync_starter/endpoint/CacheSyncEndpoint.java:388-407 | "DISABLED", "WARNING: No caches configured", "ERROR: Invalid channel configuration" and "UP", each exactly under its condition in priority order |
| Endpoint.ChannelErrorOnlyWithoutPrefix | src/main/java/tech/scytalesystems/cache_sync_starter/endpoint/CacheSyncEndpoint.java:388-407 | an enabled coordinator with caches reports the channel error exactly when no usable prefix is set and the channel is empty |
| Endpoint.DefaultsAreUp | src/main/java/tech/scytalesystems/cache_sync_starter/endpoint/CacheSyncEndpoint.java:388-407 | the default configuration with a cache reports "UP" |
| Endpoint.UptimeDecomposes | src/main/java/tech/scytalesystems/cache_sync_starter/endpoint/CacheSyncEndpoint.java:367-383 | the format uses the largest non-zero unit, smaller fields are reduced mod 24/60, and what is shown is the uptime rounded down to its last unit |
| Endpoint.NegativeUptimeInSeconds | src/main/java/tech/scytalesystems/cache_sync_starter/endpoint/CacheSyncEndpoint.java:367-383 | a negative uptime shows as non-positive seconds, truncated toward zero |
| Endpoint.CalculateUptime | src/main/java/tech/scytalesystems/cache_sync_starter/endpoint/CacheSyncEndpoint.java:367-383 | under a minute shows seconds truncated toward zero; a minute up to an hour shows minutes; an hour up to a day shows hours; a day or more shows days |
| Endpoint.CacheSyncEndpoint.constructor | src/main/java/tech/scytalesystems/cache_sync_starter/endpoint/CacheSyncEndpoint.java:57-60 | stores the coordinator, the manager and the properties |
| Endpoint.CacheSyncEndpoint.DetermineHealthStatus | src/main/java/tech/scytalesystems/cache_sync_starter/endpoint/CacheSyncEndpoint.java:388-407 | the status of this endpoint's flag, cache names and channel |
| Endpoint.CacheSyncEndpoint.Evict | src/main/java/tech/scytalesystems/cache_sync_starter/endpoint/CacheSyncEndpoint.java:152-200 | a null name fails; an unknown cache is reported with the names first; then missing or empty keys are rejected; a valid request publishes one EVICT and removes the keys from both tiers; failures publish nothing and change nothing |
| Endpoint.CacheSyncEndpoint.EvictKnown | src/main/java/tech/scytalesystems/cache_sync_starter/endpoint/CacheSyncEndpoint.java:173-182 | publishes the EVICT of the keys, then removes exactly those keys from every tier of the cache |
| Endpoint.CacheSyncEndpoint.Clear | src/main/java/tech/scytalesystems/cache_sync_starter/endpoint/CacheSyncEndpoint.java:221-261 | a null name fails; an unknown cache is reported and nothing is published; otherwise one CLEAR is published and every tier emptied |
| Endpoint.CacheSyncEndpoint.ClearNamed | src/main/java/tech/scytalesystems/cache_sync_starter/endpoint/CacheSyncEndpoint.java:235-244 | for a name that resolves, publishes its CLEAR and empties every tier of the cache |
| Endpoint.CacheSyncEndpoint.ClearAll | src/main/java/tech/scytalesystems/cache_sync_starter/endpoint/CacheSyncEndpoint.java:278-315 | publishes one CLEAR per listed name that resolves, empties all their tiers, and reports those names and their count |
| Endpoint.CacheSyncEndpoint.ClearStep | src/main/java/tech/scytalesystems/cache_sync_starter/endpoint/CacheSyncEndpoint.java:285-298 | one iteration extends the sends, the metrics and the emptied tiers by the current name's contribution |
| Endpoint.ClearAllReachesEveryCache | src/main/java/tech/scytalesystems/cache_sync_starter/endpoint/CacheSyncEndpoint.java:282-305 | with a well-formed manager every listed cache is cleared and counted |

## Left out

- Redis pub/sub, the listener subscription and `convertAndSend` are I/O: a send is appended to the log `sent`, and a received payload is an argument of `OnMessage`.
- Jackson, GZIP and Base64 are foreign calls: the payload is symbolic, and every failure to serialise, compress or send is the single parameter `sendFails`. In `clearAll` one `sendFails` covers the whole loop, so the case where some names' publishes fail and others succeed is not modelled.
- The `ThreadLocal` flag is modelled per `Thread` object; concurrent interleavings of threads are not modelled.
- `UUID.randomUUID()` is randomness: the instance id is a constructor parameter required to be UUID-shaped.
- The coordinator's constructor requires a non-null channel name, because `ChannelTopic` rejects null; a null channel is therefore not reachable in the health status.
- Sync.CacheSyncService.Publish: returns the stamped message instead of calling `setInstanceId` on the caller's object, so the caller's aliasing of its message is not modelled.
- Sync.ReceiveEvent: strings are sequences of Unicode code points, while Java's `length()` and `substring` count UTF-16 units; an id outside the Basic Multilingual Plane (four U+1F600 characters have Java length 8) is judged too short here, so ids are taken to be in that plane, as UUIDs are.
- Messages.ShowInstanceId: truncates after 8 code points where Java truncates after 8 UTF-16 units; the two agree for ids in the Basic Multilingual Plane.
- Messages.HashCode: `String.hashCode` runs over UTF-16 units, `JavaText.StringHash` over code points; they agree for strings in the Basic Multilingual Plane, and a character outside it (hashed as two surrogates in Java) gives a different value.
- Managers.GetCache: each delegate manager is a fixed set of named caches. The shipped configuration's Caffeine and Redis managers create a cache on the first `getCache` of any name, which can also grow `getCacheNames`; that creation on lookup is not modelled. So the unknown-cache paths (`Dispose`'s `UnknownCache`, the endpoint's `NotFound`) happen only with managers configured with fixed names, and "keeps no state" is a claim about `TwoTierCacheManager` itself, not about its delegates.
- Messages.Builder.Build: the built message holds a copy of the key list, while the source hands over the builder's own list, so a later `addKey` on the same builder would also change an already built message; that sharing is not modelled, and nothing in the core builds twice from one builder.
- TwoTier.GetTyped: the type check of `get(key, type)` (an `IllegalStateException` for a value of another type) is not modelled; stored values are taken to be of the requested type.
- The wire format is symbolic, so the round trip of `Codec` holds by construction: that Jackson, GZIP and Base64 invert each other is assumed, not proved.
- Aspect.AnnouncementsAreApplied: every cache key is a string here. With Spring's default key generator, a one-argument `@CacheEvict` method evicts locally under the argument object itself (a `Long` 42, say) and a several-argument method under a `SimpleKey`. The aspect announces `String.valueOf(firstArg)` ("42"), and a peer's `evict("42")` leaves an entry stored under `42L` in place. The model does not capture that mismatch for non-String and multi-argument keys.
- Null elements inside a key list are not modelled (keys are strings); a null key list is.
- `CacheEvictAspect` calls a three-argument `CacheMessage` constructor that does not exist; it is modelled as the four-argument one with a null instance id.
- Aspect.AfterEvict: the `@AfterReturning` pointcut (publishing only after a normal return) is the caller's choice to call it, not something the model enforces; SpEL keys are not evaluated, the first argument is the key.
- Endpoint.CacheSyncEndpoint.Evict: of the exceptions the catch blocks turn into failures, only the one from a null cache name is modelled (`Crashed`); delegate caches that throw are not.
- Endpoint.HealthStatus: the catch branch returning "ERROR: " and an exception's message is not modelled, because no modelled lookup throws there.
- The endpoint's `info`, `caches` and `getCacheInfo`, the `publishedAt` timestamps, the `String.format` rendering of the uptime (kept as the `Uptime` datatype) and the clock behind it are HTTP, UI and clock concerns.
- Caffeine and Redis TTLs and the Caffeine size bound are expiry in external caches: tiers are plain maps.
- Logging is left out, except the debug line at CacheSyncService.java:256, whose `substring(0, 8)` decides which metric is recorded.
- `GzipUtils` and the size and ratio helpers of `CompressionUtil` are floating point and not used by the core.
- Spring auto-configuration, the web extension and the metrics interface are wiring; the metrics bean is the flag `metricsOn` and the log `events`.

## Findings

| source | as written | input that shows it | evidently intended | confidence | as-written member | corrected member |
|---|---|---|---|---|---|---|
| src/main/java/tech/scytalesystems/cache_sync_starter/dto/CacheMessage.java:61-64 | `keys(String...)` stores `Arrays.asList(keys)`, a fixed-size list, so a later `addKey` throws `UnsupportedOperationException` | `CacheMessage.builder().keys("a").addKey("b")` | the keys copied into a growable list, as `keys(List)` does | not executed | Messages.AddKeyAfterArrayKeysAsWritten | Messages.AddKeyAfterArrayKeys |
