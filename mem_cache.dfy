/**
 * `memcached/MemCache`: a cache whose storage keys carry a per-cache
 * version, `generate(convertKey(key), version)`. The version lives in a
 * Memcached counter under `generate(nameVersionKey)`, created at 1 the
 * first time it is needed; `clear` only moves the counter on, which leaves
 * every earlier entry under a key nobody asks for any more.
 */
module MemCaches {
  import opened Wrappers
  import opened JavaText
  import opened Durations
  import opened CacheValues
  import opened KeyGenerators
  import opened MemcachedClients
  import opened Configurations
  import TimeUtil

  type Items<V> = map<string, MemItem<V>>

  /** The value a version counter's text stands for. */
  function VersionText(n: nat): (r: string)
    ensures IsVersion(r)
  {
    Decimal(n)
  }

  /**
   * `generateCacheKey(key, nameVersion)` for a generator: a key's storage
   * key under a version is its `generate(key, version)`.
   */
  function DataKeys(g: FinallyKeyGenerator): (r: (string, string) -> string)
    requires g.keySeparator != []
    ensures forall key, version {:trigger Generate(g, Some(key), Some(version))} ::
      r(key, version) == Generate(g, Some(key), Some(version))
  {
    (key: string, version: string) => DataKey(g, key, version)
  }

  function DataKey(g: FinallyKeyGenerator, key: string, version: string): string
    requires g.keySeparator != []
  {
    Generate(g, Some(key), Some(version))
  }

  /** `generateNameVersionKey` for a generator: the counter's key, generated without a version. */
  function NameVersionKey(g: FinallyKeyGenerator, nameVersionName: string): string
    requires g.keySeparator != []
  {
    Generate(g, Some(nameVersionName), None)
  }

  class MemCache<V> {
    const name: string
    const memcachedClient: MemcachedClient<V>
    const keyGenerator: FinallyKeyGenerator
    const allowNullValues: bool
    const ttl: Option<Duration>
    /** `Constants.KEY_PREFIX_NAME_VERSION`, the key the version counter is generated from. */
    const nameVersionName: string
    /** `generateNameVersionKey`, fixed at construction. */
    const nameVersionKey: string
    /** `generateCacheKey(key, nameVersion)` as a function fixed at construction. */
    const dataKey: (string, string) -> string

    ghost predicate Valid() {
      keyGenerator.keySeparator != []
    }

    /** The counter's key and every data key are the generator's. */
    ghost predicate KeyedBy() {
      Valid()
      && nameVersionKey == Generate(keyGenerator, Some(nameVersionName), None)
      && forall key, version {:trigger Generate(keyGenerator, Some(key), Some(version))} ::
           dataKey(key, version) == Generate(keyGenerator, Some(key), Some(version))
    }

    /**
     * The constructor: name, TTL and null policy taken from the
     * configuration as it is now, and a generator over its prefix and
     * separator and the cache's name.
     */
    constructor(name: string, memcachedClient: MemcachedClient<V>, cacheConfig: MemCachedConfiguration, nameVersionName: string)
      requires cacheConfig.keySeparator != []
      ensures Valid() && KeyedBy()
      ensures this.name == name && this.memcachedClient == memcachedClient && this.nameVersionName == nameVersionName
      ensures ttl == cacheConfig.ttl && allowNullValues == cacheConfig.cacheNullValues
      ensures keyGenerator == GetInstance(name, cacheConfig.keyPrefix, cacheConfig.keySeparator)
    {
      this.name := name;
      this.memcachedClient := memcachedClient;
      this.ttl := cacheConfig.ttl;
      this.allowNullValues := cacheConfig.cacheNullValues;
      var g := GetInstance(name, cacheConfig.keyPrefix, cacheConfig.keySeparator);
      this.keyGenerator := g;
      this.nameVersionName := nameVersionName;
      this.nameVersionKey := NameVersionKey(g, nameVersionName);
      this.dataKey := DataKeys(g);
    }

    /**
     * The version `getOrInitNameVersion` answers in a store: "1" when the
     * counter is missing, else the counter's text. A data item under the
     * counter's key is an error.
     */
    function VersionIn(items: Items<V>): (r: Result<string, CacheError>)
      requires Valid()
      ensures r.Ok? ==> IsVersion(r.value)
      ensures nameVersionKey !in items ==> r == Ok("1")
      ensures r.Err? <==> nameVersionKey in items && items[nameVersionKey].Data?
    {
      var vk := nameVersionKey;
      if vk !in items then Ok("1")
      else
        match items[vk]
        case Counter(n) => Ok(VersionText(n))
        case Data(_, _) => Err(ClusterCache("the version key holds a value"))
    }

    /** The store after `getOrInitNameVersion`: the counter created at 1 if it was missing. */
    function VersionedIn(items: Items<V>): (r: Items<V>)
      requires Valid()
      ensures nameVersionKey in r
      ensures VersionIn(r) == VersionIn(items)
      ensures forall k :: k != nameVersionKey ==> (k in r <==> k in items) && (k in r ==> r[k] == items[k])
    {
      if nameVersionKey in items then items else items[nameVersionKey := Counter(1)]
    }

    /** The store after `clear`: the counter moved on by one, or created at 1. */
    function ClearedIn(items: Items<V>): Items<V>
      requires Valid()
    {
      IncrIn(items, nameVersionKey, 1, 1)
    }

    /** `serializeCacheValue`: null as `NullValue` when nulls are allowed. */
    function SerializeCacheValue(value: Option<V>): (r: Stored<V>)
      requires allowNullValues || value.Some?
      ensures FromStoreValue(r) == value
    {
      match value
      case Some(v) => Item(v)
      case None => NullValue
    }

    /** A TTL whose whole seconds, cast to `int`, are negative: the client refuses every `set` with it. */
    predicate ExpiryRefused() {
      ttl.Some? && ToInt32(GetSeconds(ttl.value)) < 0
    }

    /** What `lookup(key)` finds in a store once the version is `version`. */
    function LookupIn(items: Items<V>, key: string, version: string): Option<Stored<V>>
      requires Valid()
    {
      var k := dataKey(key, version);
      if k in items then Payload(items[k]) else None
    }

    /** The store after a `put` the cache accepts, under version `version`. */
    function PutIn(items: Items<V>, key: string, version: string, value: Option<V>, exptime: int): Items<V>
      requires Valid() && (allowNullValues || value.Some?)
    {
      items[dataKey(key, version) := Data(SerializeCacheValue(value), exptime)]
    }

    /** `getOrInitNameVersion`: the version, with the counter created at 1 (by `incr(key, 0, 1)`) if missing. */
    method GetOrInitNameVersion() returns (r: Result<string, CacheError>)
      requires Valid()
      modifies memcachedClient
      ensures r == VersionIn(old(memcachedClient.items))
      ensures memcachedClient.items == VersionedIn(old(memcachedClient.items))
    {
      var version := memcachedClient.Get(nameVersionKey);
      if version.None? {
        var _ := memcachedClient.Incr(nameVersionKey, 0, 1);
        return Ok("1");
      }
      match version.value
      case Counter(n) => return Ok(VersionText(n));
      case Data(_, _) => return Err(ClusterCache("the version key holds a value"));
    }

    /** `generateCacheKey(key)`: the version first, then the key converted. */
    method GenerateCacheKey(key: KeyObject) returns (r: Result<string, CacheError>)
      requires Valid()
      modifies memcachedClient
      ensures memcachedClient.items == VersionedIn(old(memcachedClient.items))
      ensures VersionIn(old(memcachedClient.items)).Err? ==> r == Err(VersionIn(old(memcachedClient.items)).error)
      ensures VersionIn(old(memcachedClient.items)).Ok? ==>
        r == (if ConvertKey(key).Err? then Err(ConvertKey(key).error)
              else Ok(dataKey(ConvertKey(key).value, VersionIn(old(memcachedClient.items)).value)))
    {
      var version :- GetOrInitNameVersion();
      var k :- ConvertKey(key);
      return Ok(dataKey(k, version));
    }

    /**
     * `generateCacheKeyCollection`: the version read once, then every key
     * mapped to its storage key under that version.
     */
    method GenerateCacheKeyCollection(keys: seq<KeyObject>) returns (r: Result<map<KeyObject, string>, CacheError>)
      requires Valid()
      modifies memcachedClient
      ensures memcachedClient.items == VersionedIn(old(memcachedClient.items))
      ensures VersionIn(old(memcachedClient.items)).Err? ==> r == Err(VersionIn(old(memcachedClient.items)).error)
      ensures VersionIn(old(memcachedClient.items)).Ok? ==>
        r == KeysUnder(keys, VersionIn(old(memcachedClient.items)).value)
    {
      var version :- GetOrInitNameVersion();
      return KeysUnder(keys, version);
    }

    /**
     * Every key mapped to its storage key under one version, duplicates
     * collapsing into one entry; any key that cannot be converted fails
     * the whole collection.
     */
    function KeysUnder(keys: seq<KeyObject>, version: string): (r: Result<map<KeyObject, string>, CacheError>)
      requires Valid()
      ensures r.Err? <==> exists k :: k in keys && ConvertKey(k).Err?
      ensures r.Err? ==> r.error == NotConvertible
      ensures r.Ok? ==> r.value.Keys == set k | k in keys
      ensures r.Ok? ==> forall k :: k in r.value ==> r.value[k] == dataKey(ConvertKey(k).value, version)
    {
      if exists k :: k in keys && ConvertKey(k).Err? then Err(NotConvertible)
      else Ok(map k | k in keys :: dataKey(ConvertKey(k).value, version))
    }

    /** `lookup`: the value under the current version's key, or null. */
    method Lookup(key: KeyObject) returns (r: Result<Option<Stored<V>>, CacheError>)
      requires Valid()
      modifies memcachedClient
      ensures memcachedClient.items == VersionedIn(old(memcachedClient.items))
      ensures VersionIn(old(memcachedClient.items)).Err? ==> r == Err(VersionIn(old(memcachedClient.items)).error)
      ensures VersionIn(old(memcachedClient.items)).Ok? && ConvertKey(key).Err? ==> r == Err(ConvertKey(key).error)
      ensures VersionIn(old(memcachedClient.items)).Ok? && ConvertKey(key).Ok? ==>
        r == Ok(LookupIn(old(memcachedClient.items), ConvertKey(key).value, VersionIn(old(memcachedClient.items)).value))
    {
      var k :- GenerateCacheKey(key);
      var item := memcachedClient.Get(k);
      if item.None? {
        return Ok(None);
      }
      return Ok(Payload(item.value));
    }

    /** `get(key)`: `lookup`, then the value wrapped, a miss unwrapped. */
    method Get(key: KeyObject) returns (r: Result<Option<Option<V>>, CacheError>)
      requires Valid()
      modifies memcachedClient
      ensures memcachedClient.items == VersionedIn(old(memcachedClient.items))
      ensures VersionIn(old(memcachedClient.items)).Err? ==> r == Err(VersionIn(old(memcachedClient.items)).error)
      ensures VersionIn(old(memcachedClient.items)).Ok? && ConvertKey(key).Err? ==> r == Err(ConvertKey(key).error)
      ensures VersionIn(old(memcachedClient.items)).Ok? && ConvertKey(key).Ok? ==>
        var found := LookupIn(old(memcachedClient.items), ConvertKey(key).value, VersionIn(old(memcachedClient.items)).value);
        r == Ok(if found.None? then None else Some(FromStoreValue(found.value)))
    {
      var stored :- Lookup(key);
      if stored.None? {
        return Ok(None);
      }
      return Ok(Some(FromStoreValue(stored.value)));
    }

    /**
     * `put`: null where nulls are not allowed is refused before anything
     * else; otherwise the storage key is generated (which may create the
     * counter), then the value is set with the TTL's whole seconds cast to
     * `int`. A missing TTL, or one whose seconds the client refuses as a
     * negative expiry, fails only after the key was generated.
     */
    method Put(key: KeyObject, value: Option<V>) returns (r: Result<(), CacheError>)
      requires Valid()
      modifies memcachedClient
      ensures value.None? && !allowNullValues ==>
        r.Err? && r.error.ClusterCache? && memcachedClient.items == old(memcachedClient.items)
      ensures (value.Some? || allowNullValues) && VersionIn(old(memcachedClient.items)).Err? ==>
        r == Err(VersionIn(old(memcachedClient.items)).error) && memcachedClient.items == old(memcachedClient.items)
      ensures (value.Some? || allowNullValues) && VersionIn(old(memcachedClient.items)).Ok? && ConvertKey(key).Err? ==>
        r == Err(ConvertKey(key).error) && memcachedClient.items == VersionedIn(old(memcachedClient.items))
      ensures (value.Some? || allowNullValues) && VersionIn(old(memcachedClient.items)).Ok? && ConvertKey(key).Ok? && ttl.None? ==>
        r.Err? && r.error.NullPointer? && memcachedClient.items == VersionedIn(old(memcachedClient.items))
      ensures (value.Some? || allowNullValues) && VersionIn(old(memcachedClient.items)).Ok? && ConvertKey(key).Ok? && ExpiryRefused() ==>
        r == Err(NegativeExptime) && memcachedClient.items == VersionedIn(old(memcachedClient.items))
      ensures (value.Some? || allowNullValues) && VersionIn(old(memcachedClient.items)).Ok? && ConvertKey(key).Ok? && ttl.Some? && !ExpiryRefused() ==>
        r.Ok? && memcachedClient.items
          == PutIn(VersionedIn(old(memcachedClient.items)), ConvertKey(key).value,
                   VersionIn(old(memcachedClient.items)).value, value, ToInt32(GetSeconds(ttl.value)))
    {
      if value.None? && !allowNullValues {
        return Err(ClusterCache("Cache '" + name + "' not allow 'null' values."));
      }
      var k :- GenerateCacheKey(key);
      if ttl.None? {
        return Err(NullPointer("ttl"));
      }
      var stored := memcachedClient.Set(k, ToInt32(GetSeconds(ttl.value)), SerializeCacheValue(value));
      if stored.Err? {
        return Err(stored.error);
      }
      return Ok(());
    }

    /** `putIfAbsent`: not supported; it fails and writes nothing. */
    method PutIfAbsent(key: KeyObject, value: Option<V>) returns (r: Result<Option<Option<V>>, CacheError>)
      ensures r == Err(ClusterCache("memcached not support this operation"))
    {
      return Err(ClusterCache("memcached not support this operation"));
    }

    /** `evict`: the key under the current version deleted. */
    method Evict(key: KeyObject) returns (r: Result<(), CacheError>)
      requires Valid()
      modifies memcachedClient
      ensures VersionIn(old(memcachedClient.items)).Err? ==>
        r == Err(VersionIn(old(memcachedClient.items)).error) && memcachedClient.items == old(memcachedClient.items)
      ensures VersionIn(old(memcachedClient.items)).Ok? && ConvertKey(key).Err? ==>
        r == Err(ConvertKey(key).error) && memcachedClient.items == VersionedIn(old(memcachedClient.items))
      ensures VersionIn(old(memcachedClient.items)).Ok? && ConvertKey(key).Ok? ==>
        r.Ok? && memcachedClient.items
          == VersionedIn(old(memcachedClient.items)) - {dataKey(ConvertKey(key).value, VersionIn(old(memcachedClient.items)).value)}
    {
      var k :- GenerateCacheKey(key);
      memcachedClient.Delete(k);
      return Ok(());
    }

    /** `clear`: `incr(versionKey, 1, 1)`; no entry is touched. */
    method Clear() returns (r: Result<(), CacheError>)
      requires Valid()
      modifies memcachedClient
      ensures memcachedClient.items == ClearedIn(old(memcachedClient.items))
      ensures r.Err? <==> VersionIn(old(memcachedClient.items)).Err?
    {
      var count := memcachedClient.Incr(nameVersionKey, 1, 1);
      if count.Err? {
        return Err(count.error);
      }
      return Ok(());
    }

    /**
     * `get(key, valueLoader)`: a hit answers the wrapped value and does not
     * call the loader; a miss calls it once and puts what it returns.
     */
    method GetOrLoad(key: KeyObject, loaded: Result<Option<V>, string>) returns (r: Result<Option<V>, CacheError>, loaderCalled: bool)
      requires Valid()
      modifies memcachedClient
      ensures VersionIn(old(memcachedClient.items)).Err? || ConvertKey(key).Err? ==> r.Err? && !loaderCalled
      ensures VersionIn(old(memcachedClient.items)).Ok? && ConvertKey(key).Ok? && LookupIn(old(memcachedClient.items), ConvertKey(key).value, VersionIn(old(memcachedClient.items)).value).Some? ==>
        r == Ok(FromStoreValue(LookupIn(old(memcachedClient.items), ConvertKey(key).value, VersionIn(old(memcachedClient.items)).value).value)) && !loaderCalled
        && memcachedClient.items == VersionedIn(old(memcachedClient.items))
      ensures VersionIn(old(memcachedClient.items)).Ok? && ConvertKey(key).Ok? && LookupIn(old(memcachedClient.items), ConvertKey(key).value, VersionIn(old(memcachedClient.items)).value).None? ==> loaderCalled
      ensures VersionIn(old(memcachedClient.items)).Ok? && ConvertKey(key).Ok? && LookupIn(old(memcachedClient.items), ConvertKey(key).value, VersionIn(old(memcachedClient.items)).value).None? && loaded.Err? ==>
        r == Err(ValueRetrieval(loaded.error)) && memcachedClient.items == VersionedIn(old(memcachedClient.items))
      ensures VersionIn(old(memcachedClient.items)).Ok? && ConvertKey(key).Ok? && LookupIn(old(memcachedClient.items), ConvertKey(key).value, VersionIn(old(memcachedClient.items)).value).None? && loaded.Ok? && !allowNullValues && loaded.value.None? ==>
        r.Err? && r.error.ClusterCache? && memcachedClient.items == VersionedIn(old(memcachedClient.items))
      ensures VersionIn(old(memcachedClient.items)).Ok? && ConvertKey(key).Ok? && LookupIn(old(memcachedClient.items), ConvertKey(key).value, VersionIn(old(memcachedClient.items)).value).None? && loaded.Ok? && (allowNullValues || loaded.value.Some?) && ttl.None? ==>
        r.Err? && r.error.NullPointer? && memcachedClient.items == VersionedIn(old(memcachedClient.items))
      ensures VersionIn(old(memcachedClient.items)).Ok? && ConvertKey(key).Ok? && LookupIn(old(memcachedClient.items), ConvertKey(key).value, VersionIn(old(memcachedClient.items)).value).None? && loaded.Ok? && (allowNullValues || loaded.value.Some?) && ExpiryRefused() ==>
        r == Err(NegativeExptime) && memcachedClient.items == VersionedIn(old(memcachedClient.items))
      ensures VersionIn(old(memcachedClient.items)).Ok? && ConvertKey(key).Ok? && LookupIn(old(memcachedClient.items), ConvertKey(key).value, VersionIn(old(memcachedClient.items)).value).None? && loaded.Ok? && (allowNullValues || loaded.value.Some?) && ttl.Some? && !ExpiryRefused() ==>
        r == Ok(loaded.value)
        && memcachedClient.items
           == PutIn(VersionedIn(old(memcachedClient.items)), ConvertKey(key).value,
                    VersionIn(old(memcachedClient.items)).value, loaded.value, ToInt32(GetSeconds(ttl.value)))
    {
      var wrapper := Get(key);
      if wrapper.Err? {
        return Err(wrapper.error), false;
      }
      if wrapper.value.Some? {
        return Ok(wrapper.value.value), false;
      }
      if loaded.Err? {
        return Err(ValueRetrieval(loaded.error)), true;
      }
      var put := Put(key, loaded.value);
      if put.Err? {
        return Err(put.error), true;
      }
      return Ok(loaded.value), true;
    }

    /**
     * The conditions under which the counter's key is never a data key:
     * a separator free of whitespace that does not start with a digit, and
     * a counter name that is short, free of whitespace, does not start
     * with a digit and does not end like the separator.
     */
    ghost predicate CounterApart() {
      ClearSeparator(keyGenerator.keySeparator)
      && nameVersionName != [] && !IsDigit(nameVersionName[0]) && NoTrimmable(nameVersionName)
      && nameVersionName[|nameVersionName| - 1] != keyGenerator.keySeparator[|keyGenerator.keySeparator| - 1]
      && Utf16Length(nameVersionName) <= KeyMaxLength
    }

    /** No data key, under any version, is the counter's key, so no `put` or `evict` touches the counter. */
    ghost predicate VersionKeyApart() {
      forall key, version :: IsVersion(version) ==> dataKey(key, version) != nameVersionKey
    }

    /** A generator and counter name that meet `CounterApart` keep every data key off the counter's key. */
    lemma CounterApartKeepsKeysApart()
      requires KeyedBy() && CounterApart()
      ensures VersionKeyApart()
    {
      forall key, version | IsVersion(version)
        ensures dataKey(key, version) != nameVersionKey
      {
        VersionedKeyIsNotUnversionedKey(keyGenerator, nameVersionName, Some(key), version);
      }
    }

    /**
     * What `put` writes under the current version, `get` reads back, a
     * cached null as null, and the version stays.
     */
    lemma PutThenLookup(items: Items<V>, key: string, value: Option<V>, exptime: int)
      requires Valid() && VersionKeyApart() && (allowNullValues || value.Some?) && VersionIn(items).Ok?
      ensures var after := PutIn(VersionedIn(items), key, VersionIn(items).value, value, exptime);
        VersionIn(after) == VersionIn(items)
        && LookupIn(after, key, VersionIn(items).value) == Some(SerializeCacheValue(value))
        && FromStoreValue(SerializeCacheValue(value)) == value
    {
      assert dataKey(key, VersionIn(items).value) != nameVersionKey;
    }

    /** A counter moved on by one never reads as the version it was. */
    lemma IncrementChangesVersion(n: nat)
      ensures VersionText(Incremented(n, 1)) != VersionText(n)
    {
      if VersionText(Incremented(n, 1)) == VersionText(n) {
        DecimalInjective(Incremented(n, 1), n);
        assert false;
      }
    }

    /**
     * After `clear`, every key is addressed under a storage key that
     * differs from every storage key of the version before.
     */
    lemma ClearMovesEveryKey(items: Items<V>, k1: string, k2: string)
      requires KeyedBy() && ClearSeparator(keyGenerator.keySeparator)
      requires nameVersionKey in items && items[nameVersionKey].Counter?
      ensures VersionIn(ClearedIn(items)).Ok?
      ensures dataKey(k1, VersionIn(items).value) != dataKey(k2, VersionIn(ClearedIn(items)).value)
    {
      var n := items[nameVersionKey].count;
      assert VersionIn(ClearedIn(items)) == Ok(VersionText(Incremented(n, 1)));
      IncrementChangesVersion(n);
      if dataKey(k1, VersionText(n)) == dataKey(k2, VersionText(Incremented(n, 1))) {
        EqualKeysHaveEqualVersions(keyGenerator, Some(k1), VersionText(n), Some(k2), VersionText(Incremented(n, 1)));
        assert false;
      }
    }

    /** After `clear`, a key is missed if nothing was stored yet under its next version. */
    lemma ClearedMisses(items: Items<V>, key: string)
      requires Valid() && VersionKeyApart()
      requires nameVersionKey in items && items[nameVersionKey].Counter?
      requires dataKey(key, VersionText(Incremented(items[nameVersionKey].count, 1))) !in items
      ensures VersionIn(ClearedIn(items)) == Ok(VersionText(Incremented(items[nameVersionKey].count, 1)))
      ensures LookupIn(ClearedIn(items), key, VersionIn(ClearedIn(items)).value).None?
    {
      var vk := nameVersionKey;
      var next := VersionText(Incremented(items[vk].count, 1));
      IncrCounter(items, vk, 1, 1);
      assert dataKey(key, next) != vk;
    }

    /**
     * A value put and then cleared is no longer found, provided the store
     * held nothing yet under the key's next version.
     */
    lemma PutThenClearMisses(items: Items<V>, key: string, value: Option<V>, exptime: int)
      requires KeyedBy() && CounterApart() && (allowNullValues || value.Some?)
      requires nameVersionKey in items && items[nameVersionKey].Counter?
      requires dataKey(key, VersionText(Incremented(items[nameVersionKey].count, 1))) !in items
      ensures var after := ClearedIn(PutIn(VersionedIn(items), key, VersionIn(items).value, value, exptime));
        VersionIn(after).Ok? && LookupIn(after, key, VersionIn(after).value).None?
    {
      var vk := nameVersionKey;
      var n := items[vk].count;
      var v := VersionText(n);
      assert VersionIn(items) == Ok(v);
      var put := PutIn(VersionedIn(items), key, v, value, exptime);
      CounterApartKeepsKeysApart();
      assert put[vk] == Counter(n) by {
        assert dataKey(key, v) != vk;
      }
      assert dataKey(key, VersionText(Incremented(n, 1))) != dataKey(key, v) by {
        ClearMovesEveryKey(items, key, key);
      }
      ClearedMisses(put, key);
    }
  }

  /**
   * The "-" expiry hint, meant as "never expires", gives `Forever`, one
   * millisecond below zero, whose whole seconds are -1: a Memcached cache
   * configured with it has every `put` refused by the client.
   */
  lemma NeverExpiringHintRefused<V>(c: MemCache<V>, default: Option<Duration>)
    requires c.ttl == TimeUtil.HintTtl(default, Some("-")).value
    ensures TimeUtil.HintTtl(default, Some("-")) == Ok(Some(Forever))
    ensures c.ExpiryRefused() && ToInt32(GetSeconds(c.ttl.value)) == -1
  {
    assert StartsWith("-", "-");
  }
}
