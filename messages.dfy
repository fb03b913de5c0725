/**
 * The invalidation message sent between instances (`CacheMessage`), its builder, and the
 * Java `equals`, `hashCode` and `toString` it defines. A message is a value here; the
 * source's setters are Dafny's datatype update `m.(instanceId := ...)`.
 */
module Messages {
  import opened Wrappers
  import opened JavaText

  /** `CacheAction`. */
  datatype Action = EVICT | CLEAR

  /** The four fields of a `CacheMessage`; every one of them may be null in Java. */
  datatype CacheMessage = CacheMessage(
    cacheName: Option<string>,
    keys: Option<seq<string>>,
    action: Option<Action>,
    instanceId: Option<string>)

  /** `new CacheMessage()`: every field null except the key list, which starts empty. */
  function Empty(): (m: CacheMessage)
    ensures m.keys == Some([])
    ensures m.cacheName.None? && m.action.None? && m.instanceId.None?
  {
    CacheMessage(None, Some([]), None, None)
  }

  /** The four-argument constructor: a null key list becomes an empty one, the other
      fields are stored as given. */
  function Create(cacheName: Option<string>, keys: Option<seq<string>>, action: Option<Action>,
                  instanceId: Option<string>): (m: CacheMessage)
    ensures m.keys.Some?
    ensures keys.Some? ==> m.keys == keys
    ensures keys.None? ==> m.keys == Some([])
    ensures m.cacheName == cacheName && m.action == action && m.instanceId == instanceId
  {
    CacheMessage(cacheName, if keys.None? then Some([]) else keys, action, instanceId)
  }

  /** Normalising is idempotent, and a message whose key list is not null is its own normal form. */
  lemma CreateNormalises(m: CacheMessage)
    ensures Create(m.cacheName, m.keys, m.action, m.instanceId).keys.Some?
    ensures m.keys.Some? <==> Create(m.cacheName, m.keys, m.action, m.instanceId) == m
  {
  }

  /** `equals`: field by field, with `Objects.equals` on the nullable fields and element-wise
      list equality on the keys. */
  predicate Equals(a: CacheMessage, b: CacheMessage): (r: bool)
    ensures r <==> a == b
  {
    && a.cacheName == b.cacheName
    && a.keys == b.keys
    && a.action == b.action
    && a.instanceId == b.instanceId
  }

  /** `equals` coincides with equality of the message values: it is reflexive, symmetric and
      transitive, and it identifies exactly the messages with the same four fields. */
  lemma EqualsIsValueEquality(a: CacheMessage, b: CacheMessage)
    ensures Equals(a, b) <==> a == b
    ensures Equals(a, a)
    ensures Equals(a, b) ==> Equals(b, a)
  {
  }

  /** `hashCode`: 31-based combination of the field hashes, 0 for a null field.
      `actionHash` is the identity hash the running JVM gives each enum constant. */
  function HashCode(m: CacheMessage, actionHash: Action -> int): (r: int)
    ensures INT_MIN <= r <= INT_MAX
  {
    var h0 := if m.cacheName.None? then 0 else StringHash(m.cacheName.value);
    var h1 := Int32(31 * h0 + (if m.keys.None? then 0 else ListHash(m.keys.value)));
    var h2 := Int32(31 * h1 + (if m.action.None? then 0 else actionHash(m.action.value)));
    Int32(31 * h2 + (if m.instanceId.None? then 0 else StringHash(m.instanceId.value)))
  }

  /** Messages that are `equals` have the same `hashCode`. */
  lemma HashCodeAgreesWithEquals(a: CacheMessage, b: CacheMessage, actionHash: Action -> int)
    requires Equals(a, b)
    ensures HashCode(a, actionHash) == HashCode(b, actionHash)
  {
  }

  /** `List.toString` of a key list: "[a, b]". */
  function ShowKeys(keys: Option<seq<string>>): string {
    match keys
    case None => "null"
    case Some(ks) => "[" + Join(ks) + "]"
  }

  function Join(ks: seq<string>): string {
    if ks == [] then "" else if |ks| == 1 then ks[0] else ks[0] + ", " + Join(ks[1..])
  }

  function ShowAction(a: Option<Action>): string {
    match a
    case None => "null"
    case Some(EVICT) => "EVICT"
    case Some(CLEAR) => "CLEAR"
  }

  /** The instance id as `toString` shows it: at most its first 8 characters followed by
      "...", or "null". */
  function ShowInstanceId(id: Option<string>): (r: string)
    ensures r == "null" <==> id.None?
    ensures id.Some? ==> |r| == Min(8, |id.value|) + 3 && r[..|r| - 3] <= id.value && r[|r| - 3..] == "..."
  {
    match id
    case None => "null"
    case Some(s) =>
      var shown := s[..Min(8, |s|)] + "...";
      assert shown[|shown| - 1] == '.';
      shown
  }

  /** `toString`. */
  function ToString(m: CacheMessage): (r: string)
    ensures "CacheMessage{cacheName='" <= r
    ensures var tail := ShowInstanceId(m.instanceId) + "'}"; |tail| <= |r| && r[|r| - |tail|..] == tail
  {
    "CacheMessage{cacheName='" + Show(m.cacheName) + "', keys=" + ShowKeys(m.keys)
      + ", action=" + ShowAction(m.action) + ", instanceId='" + ShowInstanceId(m.instanceId) + "'}"
  }

  /** `toString` never reveals an instance id beyond its eighth character: two messages that
      differ only in the tails of their ids print the same. */
  lemma ToStringTruncatesInstanceId(m: CacheMessage, id1: string, id2: string)
    requires |id1| >= 8 && |id2| >= 8 && id1[..8] == id2[..8]
    ensures ToString(m.(instanceId := Some(id1))) == ToString(m.(instanceId := Some(id2)))
  {
  }

  /**
   * `CacheMessage.CacheMessageBuilder`. `growable` records whether `keys` is backed by a list
   * that accepts `add` (an `ArrayList`) or by the fixed-size view that `Arrays.asList` returns.
   */
  class Builder {
    var cacheName: Option<string>
    var keys: seq<string>
    var growable: bool
    var action: Option<Action>
    var instanceId: Option<string>

    /** `CacheMessage.builder()`: every field null except an empty, growable key list. */
    constructor ()
      ensures cacheName.None? && action.None? && instanceId.None?
      ensures keys == [] && growable
    {
      cacheName, keys, growable, action, instanceId := None, [], true, None, None;
    }

    method SetCacheName(name: Option<string>)
      modifies this`cacheName
      ensures cacheName == name
    {
      cacheName := name;
    }

    /** `keys(List<String>)`: a defensive copy into a new `ArrayList`; null gives an empty list. */
    method KeysFromList(ks: Option<seq<string>>)
      modifies this`keys, this`growable
      ensures keys == (if ks.None? then [] else ks.value)
      ensures growable
    {
      keys := if ks.None? then [] else ks.value;
      growable := true;
    }

    /** `keys(String...)` as written: `Arrays.asList` wraps the array in a fixed-size list;
        a null array gives an empty `ArrayList`. */
    method KeysFromArrayAsWritten(ks: Option<seq<string>>)
      modifies this`keys, this`growable
      ensures keys == (if ks.None? then [] else ks.value)
      ensures growable <==> ks.None?
    {
      keys := if ks.None? then [] else ks.value;
      growable := ks.None?;
    }

    /** `keys(String...)` as evidently intended: the same keys, in a list that later
        `addKey` calls can extend. */
    method KeysFromArray(ks: Option<seq<string>>)
      modifies this`keys, this`growable
      ensures keys == (if ks.None? then [] else ks.value)
      ensures growable
    {
      keys := if ks.None? then [] else ks.value;
      growable := true;
    }

    /** `addKey`: appends to the key list; on a fixed-size list `add` throws
        `UnsupportedOperationException` and nothing changes. */
    method AddKey(key: string) returns (ok: bool)
      modifies this`keys
      ensures ok == growable
      ensures keys == if ok then old(keys) + [key] else old(keys)
    {
      ok := growable;
      if ok {
        keys := keys + [key];
      }
    }

    method SetAction(a: Option<Action>)
      modifies this`action
      ensures action == a
    {
      action := a;
    }

    method SetInstanceId(id: Option<string>)
      modifies this`instanceId
      ensures instanceId == id
    {
      instanceId := id;
    }

    /** `build()`: the four-argument constructor applied to the builder's fields. */
    method Build() returns (m: CacheMessage)
      ensures m == CacheMessage(cacheName, Some(keys), action, instanceId)
    {
      m := Create(cacheName, Some(keys), action, instanceId);
    }
  }

  /** A builder given no keys builds a message with an empty, non-null key list, whatever
      its other fields are. */
  method BuildWithoutKeys(name: Option<string>, a: Option<Action>) returns (m: CacheMessage)
    ensures m.keys == Some([])
    ensures m.cacheName == name && m.action == a && m.instanceId.None?
  {
    var b := new Builder();
    b.SetCacheName(name);
    b.SetAction(a);
    m := b.Build();
  }

  /** `addKey` calls on a fresh builder append their keys in call order. */
  method AddKeysInOrder(ks: seq<string>) returns (m: CacheMessage)
    ensures m.keys == Some(ks)
  {
    var b := new Builder();
    var i := 0;
    while i < |ks|
      invariant 0 <= i <= |ks|
      invariant b.keys == ks[..i] && b.growable
    {
      var ok := b.AddKey(ks[i]);
      i := i + 1;
    }
    assert ks[..|ks|] == ks;
    m := b.Build();
  }

  /** With `keys(String...)` as written, `builder().keys("a").addKey("b")` throws. */
  method AddKeyAfterArrayKeysAsWritten() returns (ok: bool, keys: seq<string>)
    ensures !ok && keys == ["a"]
  {
    var b := new Builder();
    b.KeysFromArrayAsWritten(Some(["a"]));
    ok := b.AddKey("b");
    keys := b.keys;
  }

  /** With the intended `keys(String...)`, `addKey` extends the keys given as an array. */
  method AddKeyAfterArrayKeys(ks: seq<string>, key: string) returns (ok: bool, m: CacheMessage)
    ensures ok && m.keys == Some(ks + [key])
  {
    var b := new Builder();
    b.KeysFromArray(Some(ks));
    ok := b.AddKey(key);
    m := b.Build();
  }
}
