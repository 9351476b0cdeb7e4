/**
 * `memcached/MemcacheCacheManager`: a table from cache name to
 * configuration, filled from the scanned `@CacheExpire` hints with blank
 * names skipped, and one `MemCache` per entry, all over one client.
 */
module MemcacheCacheManagers {
  import opened Wrappers
  import opened JavaText
  import opened Durations
  import opened LinkedMaps
  import opened CacheValues
  import opened MemcachedClients
  import opened Configurations
  import opened MemCaches
  import TimeUtil

  /** A name `add` ignores: null, or nothing but whitespace. */
  predicate Ignored(cacheName: Option<string>) {
    cacheName.None? || IsBlank(cacheName.value)
  }

  /**
   * `c` is what the table holds for a name with hint `hint`: the default
   * itself without a hint, else a configuration like it with the TTL the
   * hint parses to.
   */
  ghost predicate ConfiguredFrom(c: MemCachedConfiguration, default: MemCachedConfiguration, hint: Option<string>)
    reads c, default
  {
    TimeUtil.HintTtl(default.ttl, hint).Ok?
    && c.ttl == TimeUtil.HintTtl(default.ttl, hint).value
    && c.keyPrefix == default.keyPrefix && c.keySeparator == default.keySeparator
    && c.cacheNullValues == default.cacheNullValues
    && (hint.None? ==> c == default)
  }

  /**
   * `table` is what `afterPropertiesSet` has built from `before` after the
   * first `i` scanned names: the old names and the scanned ones `add` does
   * not ignore are its keys, an old name not yet scanned keeps its entry,
   * and each such scanned name holds a configuration made from its hint.
   */
  ghost predicate LoadedFrom(table: LinkedMap<MemCachedConfiguration>, before: map<string, MemCachedConfiguration>,
                             default: MemCachedConfiguration, scanned: LinkedMap<Option<string>>, i: nat)
    requires scanned.Valid() && i <= |scanned.order|
    reads default, table.entries.Values
  {
    var seen := KeysBefore(scanned.order, i);
    table.Valid()
    && (forall k :: k in table.entries <==> k in before || (k in seen && !Ignored(Some(k))))
    && (forall name :: name in before && name !in seen ==> table.entries[name] == before[name])
    && (forall k :: k in seen && !Ignored(Some(k)) ==> ConfiguredFrom(table.entries[k], default, scanned.entries[k]))
  }

  /** `add` of a kept scanned name `i` with a configuration made from its hint extends the table by that name. */
  lemma LoadStep(table: LinkedMap<MemCachedConfiguration>, before: map<string, MemCachedConfiguration>,
                 default: MemCachedConfiguration, scanned: LinkedMap<Option<string>>, i: nat, c: MemCachedConfiguration)
    requires scanned.Valid() && i < |scanned.order| && !Ignored(Some(scanned.order[i]))
    requires LoadedFrom(table, before, default, scanned, i)
    requires ConfiguredFrom(c, default, scanned.entries[scanned.order[i]])
    ensures LoadedFrom(table.Put(scanned.order[i], c), before, default, scanned, i + 1)
  {
  }

  /** `add` of an ignored scanned name `i` leaves the table as it was built so far. */
  lemma LoadSkip(table: LinkedMap<MemCachedConfiguration>, before: map<string, MemCachedConfiguration>,
                 default: MemCachedConfiguration, scanned: LinkedMap<Option<string>>, i: nat)
    requires scanned.Valid() && i < |scanned.order| && Ignored(Some(scanned.order[i]))
    requires LoadedFrom(table, before, default, scanned, i)
    ensures LoadedFrom(table, before, default, scanned, i + 1)
  {
  }

  /**
   * Once every scanned name has been through `add`, the table holds the old
   * names and the scanned ones `add` keeps, each of those configured from
   * its hint, and each old name that was not scanned with its old
   * configuration.
   */
  lemma LoadedAll(table: LinkedMap<MemCachedConfiguration>, before: map<string, MemCachedConfiguration>,
                  default: MemCachedConfiguration, scanned: LinkedMap<Option<string>>)
    requires scanned.Valid() && LoadedFrom(table, before, default, scanned, |scanned.order|)
    ensures forall k :: k in table.entries <==> k in before || (k in scanned.entries && !Ignored(Some(k)))
    ensures forall k :: k in scanned.entries && !Ignored(Some(k)) ==> ConfiguredFrom(table.entries[k], default, scanned.entries[k])
    ensures forall k :: k in scanned.entries && !Ignored(Some(k)) ==> TimeUtil.HintTtl(default.ttl, scanned.entries[k]).Ok?
    ensures forall name :: name in before && name !in scanned.entries ==> table.entries[name] == before[name]
  {
    KeysBeforePrefix(scanned.order, |scanned.order|);
    assert scanned.order[..|scanned.order|] == scanned.order;
  }

  /** A table built from one that holds no ignored name holds none either. */
  lemma KeepsNoIgnored(table: LinkedMap<MemCachedConfiguration>, before: map<string, MemCachedConfiguration>,
                       default: MemCachedConfiguration, scanned: LinkedMap<Option<string>>, i: nat)
    requires scanned.Valid() && i <= |scanned.order| && LoadedFrom(table, before, default, scanned, i)
    requires forall name :: name in before ==> !Ignored(Some(name))
    ensures forall name :: name in table.entries ==> !Ignored(Some(name))
  {
  }

  class MemcacheCacheManager<V> {
    const memcachedClient: MemcachedClient<V>
    const defaultCacheConfiguration: MemCachedConfiguration
    var initialCacheConfiguration: LinkedMap<MemCachedConfiguration>
    /** `Constants.KEY_PREFIX_NAME_VERSION`, handed to every cache. */
    const nameVersionName: string

    /** A well-formed table that holds no ignored name. */
    ghost predicate Valid()
      reads this
    {
      initialCacheConfiguration.Valid()
      && forall name :: name in initialCacheConfiguration.entries ==> !Ignored(Some(name))
    }

    constructor(memcachedClient: MemcachedClient<V>, defaultCacheConfiguration: MemCachedConfiguration, nameVersionName: string)
      ensures Valid()
      ensures this.memcachedClient == memcachedClient && this.defaultCacheConfiguration == defaultCacheConfiguration
      ensures this.nameVersionName == nameVersionName && initialCacheConfiguration == Empty()
    {
      this.memcachedClient := memcachedClient;
      this.defaultCacheConfiguration := defaultCacheConfiguration;
      this.nameVersionName := nameVersionName;
      this.initialCacheConfiguration := Empty();
    }

    /**
     * `add`: an ignored name leaves the table alone. Otherwise the name is
     * put with the default configuration itself, or, with a hint, a copy of
     * it with the TTL the hint parses to; a later `add` of the same name
     * replaces the earlier entry in its place. A hint that does not parse
     * is an error and the table stays as it was.
     */
    method Add(cacheName: Option<string>, cacheExpire: Option<string>) returns (r: Result<(), TimeUtil.ParseError>)
      requires Valid()
      modifies this
      ensures Valid()
      ensures Ignored(cacheName) ==> r.Ok? && initialCacheConfiguration == old(initialCacheConfiguration)
      ensures !Ignored(cacheName) ==> (r.Ok? <==> TimeUtil.HintTtl(defaultCacheConfiguration.ttl, cacheExpire).Ok?)
      ensures r.Err? ==> (r.error == TimeUtil.HintTtl(defaultCacheConfiguration.ttl, cacheExpire).error
        && initialCacheConfiguration == old(initialCacheConfiguration))
      ensures !Ignored(cacheName) && r.Ok? ==> (cacheName.value in initialCacheConfiguration.entries
        && ConfiguredFrom(initialCacheConfiguration.entries[cacheName.value], defaultCacheConfiguration, cacheExpire)
        && initialCacheConfiguration
           == old(initialCacheConfiguration).Put(cacheName.value, initialCacheConfiguration.entries[cacheName.value]))
    {
      var added := AddTo(initialCacheConfiguration, cacheName, cacheExpire);
      if added.Err? {
        return Err(added.error);
      }
      initialCacheConfiguration := added.value;
      return Ok(());
    }

    /** The steps of `add` on a given table: the table it leaves, or the parse error. */
    method AddTo(table: LinkedMap<MemCachedConfiguration>, cacheName: Option<string>, cacheExpire: Option<string>)
      returns (r: Result<LinkedMap<MemCachedConfiguration>, TimeUtil.ParseError>)
      requires table.Valid()
      ensures Ignored(cacheName) ==> r == Ok(table)
      ensures !Ignored(cacheName) ==> (r.Ok? <==> TimeUtil.HintTtl(defaultCacheConfiguration.ttl, cacheExpire).Ok?)
      ensures r.Err? ==> r.error == TimeUtil.HintTtl(defaultCacheConfiguration.ttl, cacheExpire).error
      ensures !Ignored(cacheName) && r.Ok? ==> (cacheName.value in r.value.entries
        && ConfiguredFrom(r.value.entries[cacheName.value], defaultCacheConfiguration, cacheExpire)
        && r.value == table.Put(cacheName.value, r.value.entries[cacheName.value]))
    {
      if cacheName.Some? {
        BlankIffTrimEmpty(cacheName.value);
      }
      if cacheName.None? || Trim(cacheName.value) == "" {
        return Ok(table);
      }
      var cacheConfiguration := ConfigurationFor(cacheExpire);
      if cacheConfiguration.Err? {
        return Err(cacheConfiguration.error);
      }
      return Ok(table.Put(cacheName.value, cacheConfiguration.value));
    }

    /**
     * The configuration `add` puts for a name: the default itself without
     * a hint, else `entryTtl` of what the hint parses to.
     */
    method ConfigurationFor(cacheExpire: Option<string>) returns (r: Result<MemCachedConfiguration, TimeUtil.ParseError>)
      ensures r.Ok? <==> TimeUtil.HintTtl(defaultCacheConfiguration.ttl, cacheExpire).Ok?
      ensures r.Err? ==> r.error == TimeUtil.HintTtl(defaultCacheConfiguration.ttl, cacheExpire).error
      ensures r.Ok? ==> ConfiguredFrom(r.value, defaultCacheConfiguration, cacheExpire)
      ensures r.Ok? && r.value != defaultCacheConfiguration ==> fresh(r.value)
    {
      var cacheConfiguration := defaultCacheConfiguration;
      if cacheExpire.Some? {
        var ttl := TimeUtil.SimpleParse(cacheExpire.value);
        if ttl.Err? {
          return Err(ttl.error);
        }
        cacheConfiguration := cacheConfiguration.EntryTtl(Some(ttl.value));
      }
      return Ok(cacheConfiguration);
    }

    /**
     * `afterPropertiesSet`: `add` for every scanned entry in scan order; the
     * first hint of a kept name that does not parse stops it there, and
     * `stoppedAt` counts the names that went through. `LoadedAll` says what
     * the table holds when all of them did.
     */
    method AfterPropertiesSet(scanned: LinkedMap<Option<string>>) returns (r: Result<(), TimeUtil.ParseError>, ghost stoppedAt: nat)
      requires Valid() && scanned.Valid()
      modifies this
      ensures Valid()
      ensures stoppedAt <= |scanned.order| && (r.Ok? ==> stoppedAt == |scanned.order|)
      ensures LoadedFrom(initialCacheConfiguration, old(initialCacheConfiguration.entries), defaultCacheConfiguration, scanned, stoppedAt)
      ensures r.Err? ==> (stoppedAt < |scanned.order| && !Ignored(Some(scanned.order[stoppedAt]))
        && TimeUtil.HintTtl(defaultCacheConfiguration.ttl, scanned.entries[scanned.order[stoppedAt]]) == Err(r.error))
    {
      var table;
      table, r, stoppedAt := LoadAll(initialCacheConfiguration, scanned);
      initialCacheConfiguration := table;
    }

    /** The loop of `afterPropertiesSet` on a given table: the table it leaves, and the parse error that stopped it. */
    method LoadAll(start: LinkedMap<MemCachedConfiguration>, scanned: LinkedMap<Option<string>>)
      returns (table: LinkedMap<MemCachedConfiguration>, r: Result<(), TimeUtil.ParseError>, ghost stoppedAt: nat)
      requires start.Valid() && scanned.Valid()
      requires forall name :: name in start.entries ==> !Ignored(Some(name))
      ensures forall name :: name in table.entries ==> !Ignored(Some(name))
      ensures stoppedAt <= |scanned.order| && (r.Ok? ==> stoppedAt == |scanned.order|)
      ensures LoadedFrom(table, start.entries, defaultCacheConfiguration, scanned, stoppedAt)
      ensures r.Err? ==> (stoppedAt < |scanned.order| && !Ignored(Some(scanned.order[stoppedAt]))
        && TimeUtil.HintTtl(defaultCacheConfiguration.ttl, scanned.entries[scanned.order[stoppedAt]]) == Err(r.error))
    {
      table := start;
      var i := 0;
      while i < |scanned.order|
        invariant 0 <= i <= |scanned.order|
        invariant LoadedFrom(table, start.entries, defaultCacheConfiguration, scanned, i)
      {
        var added := AddScanned(table, start.entries, scanned, i);
        if added.Err? {
          KeepsNoIgnored(table, start.entries, defaultCacheConfiguration, scanned, i);
          return table, Err(added.error), i;
        }
        table := added.value;
        i := i + 1;
      }
      KeepsNoIgnored(table, start.entries, defaultCacheConfiguration, scanned, i);
      r, stoppedAt := Ok(()), i;
    }

    /** One turn of `afterPropertiesSet`'s loop: `add` of scanned name `i` to the table built so far. */
    method AddScanned(table: LinkedMap<MemCachedConfiguration>, ghost before: map<string, MemCachedConfiguration>,
                      scanned: LinkedMap<Option<string>>, i: nat)
      returns (r: Result<LinkedMap<MemCachedConfiguration>, TimeUtil.ParseError>)
      requires scanned.Valid() && i < |scanned.order|
      requires LoadedFrom(table, before, defaultCacheConfiguration, scanned, i)
      ensures r.Ok? ==> LoadedFrom(r.value, before, defaultCacheConfiguration, scanned, i + 1)
      ensures r.Err? ==> (!Ignored(Some(scanned.order[i]))
        && TimeUtil.HintTtl(defaultCacheConfiguration.ttl, scanned.entries[scanned.order[i]]) == Err(r.error))
    {
      var cacheName := scanned.order[i];
      r := AddTo(table, Some(cacheName), scanned.entries[cacheName]);
      if r.Ok? {
        if Ignored(Some(cacheName)) {
          LoadSkip(table, before, defaultCacheConfiguration, scanned, i);
        } else {
          LoadStep(table, before, defaultCacheConfiguration, scanned, i, r.value.entries[cacheName]);
        }
      }
    }

    /** `new MemCache(name, memcachedClient, config)`, over the manager's client and counter name. */
    method NewCache(name: string, config: MemCachedConfiguration) returns (cache: MemCache<V>)
      requires config.keySeparator != []
      ensures fresh(cache) && cache.name == name && cache.memcachedClient == memcachedClient
      ensures cache.ttl == config.ttl && cache.allowNullValues == config.cacheNullValues
      ensures cache.keyGenerator == KeyGenerators.GetInstance(name, config.keyPrefix, config.keySeparator)
    {
      cache := new MemCache(name, memcachedClient, config, nameVersionName);
    }

    /** `loadCaches`: one cache per table entry, in the table's order, all over the manager's client. */
    method LoadCaches() returns (caches: seq<MemCache<V>>)
      requires Valid()
      requires forall name :: name in initialCacheConfiguration.entries ==> initialCacheConfiguration.entries[name].keySeparator != []
      ensures |caches| == |initialCacheConfiguration.order|
      ensures forall i :: 0 <= i < |caches| ==>
        var name := initialCacheConfiguration.order[i];
        var config := initialCacheConfiguration.entries[name];
        fresh(caches[i]) && caches[i].name == name && caches[i].memcachedClient == memcachedClient
        && caches[i].ttl == config.ttl && caches[i].allowNullValues == config.cacheNullValues
        && caches[i].keyGenerator == KeyGenerators.GetInstance(name, config.keyPrefix, config.keySeparator)
    {
      caches := [];
      var order := initialCacheConfiguration.order;
      var i := 0;
      while i < |order|
        invariant 0 <= i <= |order|
        invariant |caches| == i
        invariant forall j :: 0 <= j < i ==>
          var config := initialCacheConfiguration.entries[order[j]];
          fresh(caches[j]) && caches[j].name == order[j] && caches[j].memcachedClient == memcachedClient
          && caches[j].ttl == config.ttl && caches[j].allowNullValues == config.cacheNullValues
          && caches[j].keyGenerator == KeyGenerators.GetInstance(order[j], config.keyPrefix, config.keySeparator)
      {
        var memCache := NewCache(order[i], initialCacheConfiguration.entries[order[i]]);
        caches := caches + [memCache];
        i := i + 1;
      }
    }
  }
}
