/**
 * The wire format, kept symbolic: a payload is the JSON text of a message, the Base64 text
 * of a GZIP stream of another payload, or any other text. Jackson, GZIP and Base64 are not
 * part of this model; what the coordinator relies on is that decoding inverts encoding under
 * the same compression setting, and that anything else decodes to nothing.
 */
module Codec {
  import opened Wrappers
  import opened Messages

  datatype Payload =
    | Json(message: CacheMessage)   // JsonUtil.toJson(message)
    | Gzip(inner: Payload)          // CompressionUtil.compress(inner)
    | Text(raw: string)             // any other string

  /** `CompressionUtil.compress`: the empty string stays empty, anything else is compressed. */
  function Compress(p: Payload): Payload {
    if p == Text("") then p else Gzip(p)
  }

  /** `CompressionUtil.decompress`: fails on text that is not a Base64 GZIP stream, except
      that the empty string decompresses to itself. */
  function Decompress(p: Payload): Result<Payload, string> {
    match p
    case Gzip(inner) => Ok(inner)
    case Text(raw) => if raw == "" then Ok(p) else Err("not a Base64 GZIP stream")
    case Json(_) => Err("not a Base64 GZIP stream")
  }

  /** `JsonUtil.fromJson`: null when the text is not the JSON of a message. */
  function FromJson(p: Payload): Option<CacheMessage> {
    if p.Json? then Some(p.message) else None
  }

  /** What `publish` sends for a message (lines 167-171 of the coordinator). */
  function Encode(m: CacheMessage, compress: bool): (p: Payload)
    ensures compress ==> Decompress(p) == Ok(Json(m))
    ensures !compress ==> FromJson(p) == Some(m)
  {
    if compress then Compress(Json(m)) else Json(m)
  }

  /** What `onMessage` makes of a payload (lines 223-226): a message, or nothing when
      decompression throws or the JSON does not parse. */
  function Decode(p: Payload, compress: bool): (r: Option<CacheMessage>)
    ensures r.Some? ==> p == Encode(r.value, compress)
  {
    if compress then
      match Decompress(p)
      case Ok(q) => FromJson(q)
      case Err(_) => None
    else FromJson(p)
  }

  /** Decompression inverts compression. */
  lemma DecompressCompress(p: Payload)
    ensures Decompress(Compress(p)) == Ok(p)
  {
  }

  /** Decoding inverts encoding under the same setting, and a payload produced under the
      other setting does not decode. */
  lemma RoundTrip(m: CacheMessage, compress: bool)
    ensures Decode(Encode(m, compress), compress) == Some(m)
    ensures Decode(Encode(m, compress), !compress) == None
  {
  }

  /** Text that is neither a message nor a compressed message never decodes. */
  lemma GarbageDoesNotDecode(raw: string, compress: bool)
    ensures Decode(Text(raw), compress) == None
  {
  }
}
