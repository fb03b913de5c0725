/** The configuration the coordinator reads (`CacheSyncProperties`), with its defaults. */
module Config {
  import opened Wrappers

  datatype Properties = Properties(
    channelPrefix: Option<string>,
    channel: Option<string>,
    enabled: bool,
    compressMessages: bool,
    caffeineTtlSeconds: int,
    caffeineMaxSize: int,
    redisTtlSeconds: int)

  /** The field initialisers: no prefix, channel "cache-invalidation", enabled, no compression,
      a 5-minute local TTL, 1000 local entries and a 30-minute distributed TTL. */
  function Defaults(): (p: Properties)
    ensures p.channelPrefix == Some("") && p.channel == Some("cache-invalidation")
    ensures p.enabled && !p.compressMessages
    ensures p.caffeineTtlSeconds == 300 && p.caffeineMaxSize == 1000 && p.redisTtlSeconds == 1800
  {
    Properties(Some(""), Some("cache-invalidation"), true, false, 5 * 60, 1000, 30 * 60)
  }
}
