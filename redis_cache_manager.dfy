/**
 * `redis/RedisCacheManager`: a table from cache name to configuration,
 * filled from the scanned `@CacheExpire` hints, one `RedisCache` per entry,
 * and in-flight creation of any other cache with the default configuration.
 * The scanned map comes in as a value: cache name to the expire text of its
 * hint, or nothing when the method has no hint.
 */
module RedisCacheManagers {
  import opened Wrappers
  import opened Durations
  import opened LinkedMaps
  import opened CacheValues
  import opened RedisCacheWriters
  import opened Configurations
  import opened RedisCaches
  import TimeUtil

  /**
   * `c` is what the table holds for a name with hint `hint`: the default
   * itself without a hint, else a configuration like it with the TTL the
   * hint parses to.
   */
  ghost predicate ConfiguredFrom(c: RedisCacheConfiguration, default: RedisCacheConfiguration, hint: Option<string>)
    reads c, default
  {
    TimeUtil.HintTtl(default.ttl, hint).Ok?
    && c.ttl == TimeUtil.HintTtl(default.ttl, hint).value
    && c.keyPrefix == default.keyPrefix && c.keySeparator == default.keySeparator
    && c.cacheNullValues == default.cacheNullValues
    && (hint.None? ==> c == default)
  }

  /**
   * `table` is what `afterPropertiesSet` has built from `before` after the
   * first `i` scanned names: those names and the old ones are its keys, an
   * old name not yet scanned keeps its entry, and each scanned name holds a
   * configuration made from its hint.
   */
  ghost predicate LoadedFrom(table: LinkedMap<RedisCacheConfiguration>, before: map<string, RedisCacheConfiguration>,
                             default: RedisCacheConfiguration, scanned: LinkedMap<Option<string>>, i: nat)
    requires scanned.Valid() && i <= |scanned.order|
    reads default, table.entries.Values
  {
    var seen := KeysBefore(scanned.order, i);
    table.Valid()
    && (forall k :: k in table.entries <==> k in before || k in seen)
    && (forall name :: name in before && name !in seen ==> table.entries[name] == before[name])
    && (forall k :: k in seen ==> ConfiguredFrom(table.entries[k], default, scanned.entries[k]))
  }

  /** Entering scanned name `i` with a configuration made from its hint extends the table by that name. */
  lemma LoadStep(table: LinkedMap<RedisCacheConfiguration>, before: map<string, RedisCacheConfiguration>,
                 default: RedisCacheConfiguration, scanned: LinkedMap<Option<string>>, i: nat, c: RedisCacheConfiguration)
    requires scanned.Valid() && i < |scanned.order|
    requires LoadedFrom(table, before, default, scanned, i)
    requires ConfiguredFrom(c, default, scanned.entries[scanned.order[i]])
    ensures LoadedFrom(table.Put(scanned.order[i], c), before, default, scanned, i + 1)
  {
  }

  /**
   * Once every scanned name is in, the table holds the old names and the
   * scanned ones, each scanned name configured from its hint and each old
   * name that was not scanned with its old configuration.
   */
  lemma LoadedAll(table: LinkedMap<RedisCacheConfiguration>, before: map<string, RedisCacheConfiguration>,
                  default: RedisCacheConfiguration, scanned: LinkedMap<Option<string>>)
    requires scanned.Valid() && LoadedFrom(table, before, default, scanned, |scanned.order|)
    ensures forall k :: k in table.entries <==> k in before || k in scanned.entries
    ensures forall k :: k in scanned.entries ==> ConfiguredFrom(table.entries[k], default, scanned.entries[k])
    ensures forall k :: k in scanned.entries ==> TimeUtil.HintTtl(default.ttl, scanned.entries[k]).Ok?
    ensures forall name :: name in before && name !in scanned.entries ==> table.entries[name] == before[name]
  {
    KeysBeforePrefix(scanned.order, |scanned.order|);
    assert scanned.order[..|scanned.order|] == scanned.order;
  }

  class RedisCacheManager<V(!new)> {
    const cacheWriter: DefaultRedisCacheWriter
    const cacheConfiguration: RedisCacheConfiguration
    var initialCacheConfiguration: LinkedMap<RedisCacheConfiguration>
    const allowInFlightCacheCreation: bool
    const codec: ValueCodec<V>

    /** The table's own invariant: a well-formed insertion-ordered map. */
    ghost predicate Valid()
      reads this
    {
      initialCacheConfiguration.Valid()
    }

    /** The public constructor: an empty table, and caches created on demand. */
    constructor(cacheWriter: DefaultRedisCacheWriter, defaultCacheConfiguration: RedisCacheConfiguration, codec: ValueCodec<V>)
      ensures Valid()
      ensures this.cacheWriter == cacheWriter && cacheConfiguration == defaultCacheConfiguration && this.codec == codec
      ensures initialCacheConfiguration == Empty() && allowInFlightCacheCreation
    {
      this.cacheWriter := cacheWriter;
      this.cacheConfiguration := defaultCacheConfiguration;
      this.codec := codec;
      this.initialCacheConfiguration := Empty();
      this.allowInFlightCacheCreation := true;
    }

    /**
     * `afterPropertiesSet`: every scanned name, blank ones included, enters
     * the table in scan order. A name without a hint gets the default
     * configuration itself; a name with one gets a copy of it with the TTL
     * its text parses to. A hint that does not parse stops the loop there,
     * with the names before it already in the table; `stoppedAt` counts
     * the names that went in. `LoadedAll` says what a full table holds.
     */
    method AfterPropertiesSet(scanned: LinkedMap<Option<string>>) returns (r: Result<(), TimeUtil.ParseError>, ghost stoppedAt: nat)
      requires Valid() && scanned.Valid()
      modifies this
      ensures Valid()
      ensures stoppedAt <= |scanned.order| && (r.Ok? ==> stoppedAt == |scanned.order|)
      ensures LoadedFrom(initialCacheConfiguration, old(initialCacheConfiguration.entries), cacheConfiguration, scanned, stoppedAt)
      ensures r.Err? ==> (stoppedAt < |scanned.order|
        && TimeUtil.HintTtl(cacheConfiguration.ttl, scanned.entries[scanned.order[stoppedAt]]) == Err(r.error))
    {
      var table;
      table, r, stoppedAt := LoadAll(initialCacheConfiguration, scanned);
      initialCacheConfiguration := table;
    }

    /** The loop of `afterPropertiesSet` on a given table: the table it leaves, and the parse error that stopped it. */
    method LoadAll(start: LinkedMap<RedisCacheConfiguration>, scanned: LinkedMap<Option<string>>)
      returns (table: LinkedMap<RedisCacheConfiguration>, r: Result<(), TimeUtil.ParseError>, ghost stoppedAt: nat)
      requires start.Valid() && scanned.Valid()
      ensures stoppedAt <= |scanned.order| && (r.Ok? ==> stoppedAt == |scanned.order|)
      ensures LoadedFrom(table, start.entries, cacheConfiguration, scanned, stoppedAt)
      ensures r.Err? ==> (stoppedAt < |scanned.order|
        && TimeUtil.HintTtl(cacheConfiguration.ttl, scanned.entries[scanned.order[stoppedAt]]) == Err(r.error))
    {
      table := start;
      var i := 0;
      while i < |scanned.order|
        invariant 0 <= i <= |scanned.order|
        invariant LoadedFrom(table, start.entries, cacheConfiguration, scanned, i)
      {
        var loaded := LoadEntry(table, start.entries, scanned, i);
        if loaded.Err? {
          return table, Err(loaded.error), i;
        }
        table := loaded.value;
        i := i + 1;
      }
      r, stoppedAt := Ok(()), i;
    }

    /** One turn of `afterPropertiesSet`'s loop: scanned name `i` enters the table built so far. */
    method LoadEntry(table: LinkedMap<RedisCacheConfiguration>, ghost before: map<string, RedisCacheConfiguration>,
                     scanned: LinkedMap<Option<string>>, i: nat)
      returns (r: Result<LinkedMap<RedisCacheConfiguration>, TimeUtil.ParseError>)
      requires scanned.Valid() && i < |scanned.order|
      requires LoadedFrom(table, before, cacheConfiguration, scanned, i)
      ensures r.Ok? ==> LoadedFrom(r.value, before, cacheConfiguration, scanned, i + 1)
      ensures r.Err? ==> TimeUtil.HintTtl(cacheConfiguration.ttl, scanned.entries[scanned.order[i]]) == Err(r.error)
    {
      var cacheName := scanned.order[i];
      var cacheConfig := ConfigurationFor(scanned.entries[cacheName]);
      if cacheConfig.Err? {
        return Err(cacheConfig.error);
      }
      LoadStep(table, before, cacheConfiguration, scanned, i, cacheConfig.value);
      return Ok(table.Put(cacheName, cacheConfig.value));
    }

    /**
     * The configuration one scanned entry gets: the default itself without
     * a hint, else `entryTtl` of what the hint parses to.
     */
    method ConfigurationFor(cacheExpire: Option<string>) returns (r: Result<RedisCacheConfiguration, TimeUtil.ParseError>)
      ensures r.Ok? <==> TimeUtil.HintTtl(cacheConfiguration.ttl, cacheExpire).Ok?
      ensures r.Err? ==> r.error == TimeUtil.HintTtl(cacheConfiguration.ttl, cacheExpire).error
      ensures r.Ok? ==> ConfiguredFrom(r.value, cacheConfiguration, cacheExpire)
      ensures r.Ok? && r.value != cacheConfiguration ==> fresh(r.value)
    {
      var cacheConfig := cacheConfiguration;
      if cacheExpire.Some? {
        var ttl := TimeUtil.SimpleParse(cacheExpire.value);
        if ttl.Err? {
          return Err(ttl.error);
        }
        var copy := cacheConfig.EntryTtl(Some(ttl.value));
        cacheConfig := copy.value;
      }
      return Ok(cacheConfig);
    }

    /** `createRedisCache`: a cache over this manager's writer, with the given configuration or else the default. */
    method CreateRedisCache(name: string, cacheConfig: Option<RedisCacheConfiguration>) returns (cache: RedisCache<V>)
      requires (if cacheConfig.Some? then cacheConfig.value else cacheConfiguration).keySeparator != []
      ensures fresh(cache) && cache.Valid()
      ensures cache.name == name && cache.cacheWriter == cacheWriter && cache.codec == codec
      ensures cache.cacheConfig == if cacheConfig.Some? then cacheConfig.value else cacheConfiguration
    {
      cache := new RedisCache(name, cacheWriter, if cacheConfig.Some? then cacheConfig.value else cacheConfiguration, codec);
    }

    /** `getMissingCache`: a new cache with the default configuration, since in-flight creation is on. */
    method GetMissingCache(name: string) returns (cache: Option<RedisCache<V>>)
      requires cacheConfiguration.keySeparator != []
      ensures allowInFlightCacheCreation <==> cache.Some?
      ensures cache.Some? ==> fresh(cache.value) && cache.value.name == name && cache.value.cacheConfig == cacheConfiguration
    {
      if !allowInFlightCacheCreation {
        return None;
      }
      var c := CreateRedisCache(name, None);
      return Some(c);
    }

    /** `loadCaches`: one cache per table entry, in the table's order, each with its entry's configuration. */
    method LoadCaches() returns (caches: seq<RedisCache<V>>)
      requires Valid()
      requires forall name :: name in initialCacheConfiguration.entries ==> initialCacheConfiguration.entries[name].keySeparator != []
      ensures |caches| == |initialCacheConfiguration.order|
      ensures forall i :: 0 <= i < |caches| ==>
        var name := initialCacheConfiguration.order[i];
        fresh(caches[i]) && caches[i].name == name && caches[i].cacheConfig == initialCacheConfiguration.entries[name]
        && caches[i].cacheWriter == cacheWriter
    {
      caches := [];
      var order := initialCacheConfiguration.order;
      var i := 0;
      while i < |order|
        invariant 0 <= i <= |order|
        invariant |caches| == i
        invariant forall j :: 0 <= j < i ==>
          fresh(caches[j]) && caches[j].name == order[j] && caches[j].cacheConfig == initialCacheConfiguration.entries[order[j]]
          && caches[j].cacheWriter == cacheWriter
      {
        var cache := CreateRedisCache(order[i], Some(initialCacheConfiguration.entries[order[i]]));
        caches := caches + [cache];
        i := i + 1;
      }
    }
  }
}
