/**
 * `redis/RedisCache`: a cache over the Redis writer whose storage keys are
 * `generate(convertKey(key))` with the cache's prefix and name and no
 * version, written as UTF-8, and whose values go through a value codec,
 * with null held as the fixed `BINARY_NULL_VALUE` bytes.
 */
module RedisCaches {
  import opened Wrappers
  import opened Utf8
  import opened JavaText
  import opened Durations
  import opened CacheValues
  import opened KeyGenerators
  import opened RedisCacheWriters
  import opened Configurations
  import Glob

  /**
   * The configuration's value serialization pair, as a writer and a
   * reader of bytes, and `BINARY_NULL_VALUE`, the JDK serialization of
   * `NullValue.INSTANCE`.
   */
  datatype ValueCodec<!V> = ValueCodec(write: V -> Bytes, read: Bytes -> V, nullBytes: Bytes)

  /** Every value reads back as itself, and none is written as the null bytes. */
  ghost predicate Faithful<V(!new)>(c: ValueCodec<V>) {
    forall v :: c.read(c.write(v)) == v && c.write(v) != c.nullBytes
  }

  /** A Redis error surfacing through the cache. */
  function StoreError(e: RedisError): CacheError {
    match e
    case WrongType => StoreFailure("WRONGTYPE Operation against a key holding the wrong kind of value")
    case InvalidExpireTime => StoreFailure("ERR invalid expire time in 'set' command")
  }

  /** The pattern `clear` hands to `KEYS`: the key generated for "*", as UTF-8. */
  function ClearPattern(g: FinallyKeyGenerator): Bytes
    requires g.keySeparator != []
  {
    Encode(Generate(g, Some("*"), None))
  }

  /** None of the characters `*`, `?`, `[` and `\` that a Redis pattern gives a meaning to. */
  predicate NoGlobChars(s: string) {
    forall i :: 0 <= i < |s| ==> s[i] != '*' && s[i] != '?' && s[i] != '[' && s[i] != '\\'
  }

  /** Text without pattern characters encodes to bytes without them. */
  lemma PlainEncoding(s: string)
    requires NoGlobChars(s)
    ensures Glob.Plain(Encode(s))
  {
    Utf8.EncodeAsciiBytes(s, Glob.Star);
    Utf8.EncodeAsciiBytes(s, Glob.Question);
    Utf8.EncodeAsciiBytes(s, Glob.Open);
    Utf8.EncodeAsciiBytes(s, Glob.Backslash);
  }

  /** The key "*" contributes itself. */
  lemma StarKeyPart()
    ensures KeyPart(Some("*")) == "*"
  {
    assert Utf16Length("*") == 1;
    assert RemoveSpaces("*") == "*" by {
      assert RemoveSpaces("*"[1..]) == [];
    }
  }

  /**
   * The clear pattern is the generator's prefix and name segments, leading
   * whitespace trimmed, followed by `*`, as long as the separator does not
   * itself end in `*`.
   */
  lemma ClearPatternShape(g: FinallyKeyGenerator)
    requires g.keySeparator != [] && g.keySeparator[|g.keySeparator| - 1] != '*'
    ensures ClearPattern(g) == Encode(TrimStart(Base(g))) + [Glob.Star]
  {
    StarKeyPart();
    var b := TrimStart(Base(g));
    assert Generate(g, Some("*"), None) == b + "*" by {
      KeyLayout(g, Some("*"), None);
    }
    assert Encode(b + "*") == Encode(b) + [Glob.Star] by {
      EncodeAppend(b, "*");
      assert Encode("*") == [Glob.Star];
    }
  }

  /**
   * `clear` deletes exactly the keys that start with the generator's
   * prefix and name segments, provided those hold no pattern character
   * and are not empty.
   */
  lemma ClearMatchesOwnPrefix(g: FinallyKeyGenerator, s: Bytes)
    requires g.keySeparator != [] && g.keySeparator[|g.keySeparator| - 1] != '*'
    requires TrimStart(Base(g)) != [] && NoGlobChars(TrimStart(Base(g)))
    ensures var b := Encode(TrimStart(Base(g)));
      Glob.Match(ClearPattern(g), s) <==> |b| <= |s| && s[..|b|] == b
  {
    ClearPatternShape(g);
    PlainEncoding(TrimStart(Base(g)));
    Glob.PlainPrefixStar(Encode(TrimStart(Base(g))), s);
  }

  /**
   * Every storage key the cache writes for a key whose part neither starts
   * nor ends with whitespace nor ends like the separator starts with the
   * prefix and name segments, so `clear` reaches it.
   */
  lemma ClearReachesStorageKey(g: FinallyKeyGenerator, key: string)
    requires g.keySeparator != [] && g.keySeparator[|g.keySeparator| - 1] != '*'
    requires TrimStart(Base(g)) != [] && NoGlobChars(TrimStart(Base(g)))
    requires var k := KeyPart(Some(key));
      k != [] && !IsTrimmable(k[0]) && !IsTrimmable(k[|k| - 1])
      && k[|k| - 1] != g.keySeparator[|g.keySeparator| - 1]
    ensures Glob.Match(ClearPattern(g), Encode(Generate(g, Some(key), None)))
  {
    var b := TrimStart(Base(g));
    KeyLayout(g, Some(key), None);
    EncodeAppend(b, KeyPart(Some(key)));
    var s := Encode(Generate(g, Some(key), None));
    assert s[..|Encode(b)|] == Encode(b);
    ClearMatchesOwnPrefix(g, s);
  }

  /**
   * `createCacheKey` for a generator: a key's storage key is its
   * `generate(key)`, with no version, as UTF-8.
   */
  function StorageKeys(g: FinallyKeyGenerator): (r: string -> Bytes)
    requires g.keySeparator != []
    ensures forall key {:trigger Generate(g, Some(key), None)} :: r(key) == Encode(Generate(g, Some(key), None))
  {
    (key: string) => StorageKey(g, key)
  }

  function StorageKey(g: FinallyKeyGenerator, key: string): Bytes
    requires g.keySeparator != []
  {
    Encode(Generate(g, Some(key), None))
  }

  class RedisCache<V(!new)> {
    const name: string
    const cacheWriter: DefaultRedisCacheWriter
    const cacheConfig: RedisCacheConfiguration
    const keyGenerator: FinallyKeyGenerator
    const allowNullValues: bool
    const codec: ValueCodec<V>
    /**
     * `createCacheKey` as a function fixed at construction: the serialized
     * key the cache stores a converted key under.
     */
    const storageKey: string -> Bytes

    /** The key generator needs a non-empty separator. */
    ghost predicate Valid() {
      keyGenerator.keySeparator != []
    }

    /** Every storage key is `generate(key)`, no version, as UTF-8. */
    ghost predicate KeyedBy() {
      Valid()
      && forall key {:trigger Generate(keyGenerator, Some(key), None)} ::
           storageKey(key) == Encode(Generate(keyGenerator, Some(key), None))
    }

    /**
     * The constructor: the name, the null policy taken from the
     * configuration, and a generator over the configuration's prefix and
     * separator and the cache's name.
     */
    constructor(name: string, cacheWriter: DefaultRedisCacheWriter, cacheConfig: RedisCacheConfiguration, codec: ValueCodec<V>)
      requires cacheConfig.keySeparator != []
      ensures Valid() && KeyedBy()
      ensures this.name == name && this.cacheWriter == cacheWriter && this.cacheConfig == cacheConfig && this.codec == codec
      ensures allowNullValues == cacheConfig.cacheNullValues
      ensures keyGenerator == GetInstance(name, cacheConfig.keyPrefix, cacheConfig.keySeparator)
    {
      this.name := name;
      this.cacheWriter := cacheWriter;
      this.cacheConfig := cacheConfig;
      this.codec := codec;
      this.allowNullValues := cacheConfig.cacheNullValues;
      var g := GetInstance(name, cacheConfig.keyPrefix, cacheConfig.keySeparator);
      this.keyGenerator := g;
      this.storageKey := StorageKeys(g);
    }

    /** `getName`. */
    function GetName(): (r: string)
      ensures r == name
    {
      name
    }

    /** `preProcessCacheValue`: null becomes `NullValue` when nulls are allowed, and stays null otherwise. */
    function PreProcessCacheValue(value: Option<V>): (r: Option<Stored<V>>)
      ensures value.Some? ==> r == Some(Item(value.value))
      ensures value.None? ==> (r.Some? <==> allowNullValues) && (r.Some? ==> r.value.NullValue?)
    {
      match value
      case Some(v) => Some(Item(v))
      case None => if allowNullValues then Some(NullValue) else None
    }

    /** `serializeCacheValue`: `NullValue` as the null bytes, anything else through the codec. */
    function SerializeCacheValue(s: Stored<V>): Bytes
      requires allowNullValues || s.Item?
    {
      if allowNullValues && s.NullValue? then codec.nullBytes else codec.write(s.value)
    }

    /** `deserializeCacheValue`: the null bytes as `NullValue` when nulls are allowed, else through the codec. */
    function DeserializeCacheValue(b: Bytes): Stored<V> {
      if allowNullValues && b == codec.nullBytes then NullValue else Item(codec.read(b))
    }

    /** With a faithful codec, what is serialized deserializes to itself, a cached null included. */
    lemma SerializationRoundTrip(s: Stored<V>)
      requires Faithful(codec) && (allowNullValues || s.Item?)
      ensures DeserializeCacheValue(SerializeCacheValue(s)) == s
    {
      if s.Item? {
        assert codec.read(codec.write(s.value)) == s.value && codec.write(s.value) != codec.nullBytes;
      }
    }

    /** What `lookup` finds in a keyspace: null for a missing key, else the deserialized value. */
    function LookupIn(ks: Keyspace, key: string): Result<Option<Stored<V>>, CacheError>
      requires Valid()
    {
      var k := storageKey(key);
      if k !in ks then Ok(None)
      else
        match ks[k].value
        case Hash(_) => Err(StoreError(WrongType))
        case Str(b) => Ok(Some(DeserializeCacheValue(b)))
    }

    /** What `get(key)` answers: no wrapper for a miss, else a wrapper of the value, null for a cached null. */
    function GetIn(ks: Keyspace, key: string): Result<Option<Option<V>>, CacheError>
      requires Valid()
    {
      match LookupIn(ks, key)
      case Err(e) => Err(e)
      case Ok(None) => Ok(None)
      case Ok(Some(s)) => Ok(Some(FromStoreValue(s)))
    }

    /** The bytes `put` writes for a value it accepts. */
    function Written(value: Option<V>): Bytes
      requires allowNullValues || value.Some?
    {
      SerializeCacheValue(PreProcessCacheValue(value).value)
    }

    /** `lookup`: the stored value, or null when the key is missing. */
    method Lookup(key: KeyObject) returns (r: Result<Option<Stored<V>>, CacheError>)
      requires Valid()
      ensures ConvertKey(key).Err? ==> r == Err(ConvertKey(key).error)
      ensures ConvertKey(key).Ok? ==> r == LookupIn(cacheWriter.keyspace, ConvertKey(key).value)
    {
      var k :- ConvertKey(key);
      var value := cacheWriter.Get(storageKey(k));
      match value
      case Err(e) => return Err(StoreError(e));
      case Ok(None) => return Ok(None);
      case Ok(Some(b)) => return Ok(Some(DeserializeCacheValue(b)));
    }

    /** `get(key)`: `lookup`, then the value wrapped, a miss unwrapped. */
    method Get(key: KeyObject) returns (r: Result<Option<Option<V>>, CacheError>)
      requires Valid()
      ensures ConvertKey(key).Err? ==> r == Err(ConvertKey(key).error)
      ensures ConvertKey(key).Ok? ==> r == GetIn(cacheWriter.keyspace, ConvertKey(key).value)
    {
      var stored :- Lookup(key);
      match stored
      case None => return Ok(None);
      case Some(s) => return Ok(Some(FromStoreValue(s)));
    }

    /**
     * `put`: a null value where nulls are not allowed is refused before
     * anything is written; otherwise the serialized value is written under
     * the storage key with the configuration's current TTL.
     */
    method Put(key: KeyObject, value: Option<V>) returns (r: Result<(), CacheError>)
      requires Valid()
      modifies cacheWriter
      ensures !allowNullValues && value.None? ==>
        r.Err? && r.error.IllegalArgument? && cacheWriter.keyspace == old(cacheWriter.keyspace)
      ensures (allowNullValues || value.Some?) && ConvertKey(key).Err? ==>
        r == Err(ConvertKey(key).error) && cacheWriter.keyspace == old(cacheWriter.keyspace)
      ensures (allowNullValues || value.Some?) && ConvertKey(key).Ok? ==>
        var ttl := cacheConfig.ttl;
        if ShouldExpireWithin(ttl) && ToMillis(ttl.value) == 0 then
          r == Err(StoreError(InvalidExpireTime)) && cacheWriter.keyspace == old(cacheWriter.keyspace)
        else
          r.Ok? && cacheWriter.keyspace
            == old(cacheWriter.keyspace)[storageKey(ConvertKey(key).value) := Entry(Str(Written(value)), PutExpiry(ttl))]
    {
      var cacheValue := PreProcessCacheValue(value);
      if !allowNullValues && cacheValue.None? {
        return Err(IllegalArgument("Cache '" + name + "' does not allow 'null' values."));
      }
      var k :- ConvertKey(key);
      var written := cacheWriter.Put(storageKey(k), SerializeCacheValue(cacheValue.value), cacheConfig.ttl);
      if written.Err? {
        return Err(StoreError(written.error));
      }
      return Ok(());
    }

    /**
     * `putIfAbsent`: a null value where nulls are not allowed writes
     * nothing and answers `get(key)`. Otherwise the writer's `putIfAbsent`:
     * null when the value was stored, else a wrapper of the value already
     * there, which stays.
     */
    method PutIfAbsent(key: KeyObject, value: Option<V>) returns (r: Result<Option<Option<V>>, CacheError>)
      requires Valid()
      modifies cacheWriter
      ensures ConvertKey(key).Err? ==> r == Err(ConvertKey(key).error) && cacheWriter.keyspace == old(cacheWriter.keyspace)
      ensures !allowNullValues && value.None? && ConvertKey(key).Ok? ==>
        r == GetIn(old(cacheWriter.keyspace), ConvertKey(key).value) && cacheWriter.keyspace == old(cacheWriter.keyspace)
      ensures (allowNullValues || value.Some?) && ConvertKey(key).Ok? ==>
        var k := storageKey(ConvertKey(key).value);
        var ttl := cacheConfig.ttl;
        if k in old(cacheWriter.keyspace) then
          r == GetIn(old(cacheWriter.keyspace), ConvertKey(key).value) && cacheWriter.keyspace == old(cacheWriter.keyspace)
        else
          var stored := old(cacheWriter.keyspace)[k := Entry(Str(Written(value)), None)];
          r == Ok(None)
          && cacheWriter.keyspace == if ShouldExpireWithin(ttl) then Expire(stored, k, ToMillis(ttl.value)) else stored
    {
      var cacheValue := PreProcessCacheValue(value);
      if !allowNullValues && cacheValue.None? {
        r := Get(key);
        return;
      }
      var k :- ConvertKey(key);
      var result := cacheWriter.PutIfAbsent(storageKey(k), SerializeCacheValue(cacheValue.value), cacheConfig.ttl);
      match result
      case Err(e) => return Err(StoreError(e));
      case Ok(None) => return Ok(None);
      case Ok(Some(b)) => return Ok(Some(FromStoreValue(DeserializeCacheValue(b))));
    }

    /** `evict`: the one storage key removed. */
    method Evict(key: KeyObject) returns (r: Result<(), CacheError>)
      requires Valid()
      modifies cacheWriter
      ensures ConvertKey(key).Err? ==> r == Err(ConvertKey(key).error) && cacheWriter.keyspace == old(cacheWriter.keyspace)
      ensures ConvertKey(key).Ok? ==>
        r.Ok? && cacheWriter.keyspace == old(cacheWriter.keyspace) - {storageKey(ConvertKey(key).value)}
    {
      var k :- ConvertKey(key);
      cacheWriter.Remove(storageKey(k));
      return Ok(());
    }

    /** `clear`: every key matching the key generated for "*" removed, the rest untouched. */
    method Clear()
      requires Valid()
      modifies cacheWriter
      ensures cacheWriter.keyspace.Keys == set k | k in old(cacheWriter.keyspace) && !Glob.Match(ClearPattern(keyGenerator), k)
      ensures forall k :: k in cacheWriter.keyspace ==> cacheWriter.keyspace[k] == old(cacheWriter.keyspace)[k]
    {
      cacheWriter.Clean(ClearPattern(keyGenerator));
    }

    /**
     * `get(key, valueLoader)`: a hit answers the wrapped value and does not
     * call the loader; a miss calls it once and puts what it returns, null
     * included; a loader failure is a `ValueRetrievalException` and nothing
     * is put. `loaded` is what the loader returns or throws when called.
     */
    method GetOrLoad(key: KeyObject, loaded: Result<Option<V>, string>) returns (r: Result<Option<V>, CacheError>, loaderCalled: bool)
      requires Valid()
      modifies cacheWriter
      ensures ConvertKey(key).Err? ==> r.Err? && !loaderCalled && cacheWriter.keyspace == old(cacheWriter.keyspace)
      ensures ConvertKey(key).Ok? && GetIn(old(cacheWriter.keyspace), ConvertKey(key).value).Err? ==>
        r == Err(GetIn(old(cacheWriter.keyspace), ConvertKey(key).value).error)
        && !loaderCalled && cacheWriter.keyspace == old(cacheWriter.keyspace)
      ensures ConvertKey(key).Ok? && GetIn(old(cacheWriter.keyspace), ConvertKey(key).value).Ok? && GetIn(old(cacheWriter.keyspace), ConvertKey(key).value).value.Some? ==>
        r == Ok(GetIn(old(cacheWriter.keyspace), ConvertKey(key).value).value.value)
        && !loaderCalled && cacheWriter.keyspace == old(cacheWriter.keyspace)
      ensures ConvertKey(key).Ok? && GetIn(old(cacheWriter.keyspace), ConvertKey(key).value) == Ok(None) ==>
        loaderCalled
      ensures ConvertKey(key).Ok? && GetIn(old(cacheWriter.keyspace), ConvertKey(key).value) == Ok(None) && loaded.Err? ==>
        r == Err(ValueRetrieval(loaded.error)) && cacheWriter.keyspace == old(cacheWriter.keyspace)
      ensures ConvertKey(key).Ok? && GetIn(old(cacheWriter.keyspace), ConvertKey(key).value) == Ok(None) && loaded.Ok? ==>
        if !allowNullValues && loaded.value.None? then
          r.Err? && r.error.IllegalArgument? && cacheWriter.keyspace == old(cacheWriter.keyspace)
        else if ShouldExpireWithin(cacheConfig.ttl) && ToMillis(cacheConfig.ttl.value) == 0 then
          r == Err(StoreError(InvalidExpireTime)) && cacheWriter.keyspace == old(cacheWriter.keyspace)
        else
          r == Ok(loaded.value)
          && cacheWriter.keyspace
             == old(cacheWriter.keyspace)[storageKey(ConvertKey(key).value)
                  := Entry(Str(Written(loaded.value)), PutExpiry(cacheConfig.ttl))]
    {
      loaderCalled := false;
      var wrapper := Get(key);
      if wrapper.Err? {
        return Err(wrapper.error), false;
      }
      if wrapper.value.Some? {
        return Ok(wrapper.value.value), false;
      }
      loaderCalled := true;
      if loaded.Err? {
        return Err(ValueRetrieval(loaded.error)), true;
      }
      var put := Put(key, loaded.value);
      if put.Err? {
        return Err(put.error), true;
      }
      return Ok(loaded.value), true;
    }

    /**
     * What `put` writes, `get` reads back: the value itself, and a cached
     * null as null inside a wrapper, whatever else the keyspace holds.
     */
    lemma PutThenGet(ks: Keyspace, key: string, value: Option<V>, expiry: Option<int>)
      requires Valid() && Faithful(codec) && (allowNullValues || value.Some?)
      ensures LookupIn(ks[storageKey(key) := Entry(Str(Written(value)), expiry)], key)
        == Ok(Some(PreProcessCacheValue(value).value))
      ensures GetIn(ks[storageKey(key) := Entry(Str(Written(value)), expiry)], key) == Ok(Some(value))
    {
      SerializationRoundTrip(PreProcessCacheValue(value).value);
    }

    /** A key that was never written, or was evicted, is a miss: no wrapper, unlike a cached null. */
    lemma MissIsNotCachedNull(ks: Keyspace, key: string)
      requires Valid() && storageKey(key) !in ks
      ensures GetIn(ks, key) == Ok(None) && GetIn(ks, key) != Ok(Some(None))
    {
    }
  }
}
