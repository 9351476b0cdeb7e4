/**
 * `redis/RedisCacheConfiguration` and `memcached/MemCachedConfiguration`:
 * per-cache settings with Lombok's chained setters, which change the
 * receiver and return it, and `entryTtl`, which builds a new
 * configuration and leaves the receiver alone. The conversion service and
 * the serialization pairs are fixed: keys are UTF-8 strings and values go
 * through the cache's value codec.
 */
module Configurations {
  import opened Wrappers
  import opened Durations
  import opened CacheValues

  class RedisCacheConfiguration {
    var ttl: Option<Duration>
    var keyPrefix: Option<string>
    var keySeparator: string
    var cacheNullValues: bool

    constructor(ttl: Option<Duration>, keyPrefix: Option<string>, keySeparator: string, cacheNullValues: bool)
      ensures this.ttl == ttl && this.keyPrefix == keyPrefix
      ensures this.keySeparator == keySeparator && this.cacheNullValues == cacheNullValues
    {
      this.ttl := ttl;
      this.keyPrefix := keyPrefix;
      this.keySeparator := keySeparator;
      this.cacheNullValues := cacheNullValues;
    }

    /** `defaultCacheConfig`: no expiry, empty prefix, ":" separator, nulls cached. */
    static method DefaultCacheConfig() returns (c: RedisCacheConfiguration)
      ensures fresh(c)
      ensures c.ttl == Some(Zero) && c.keyPrefix == Some("") && c.keySeparator == ":" && c.cacheNullValues
    {
      c := new RedisCacheConfiguration(Some(Zero), Some(""), ":", true);
    }

    /**
     * `entryTtl`: a new configuration with the given TTL and every other
     * setting copied; a null TTL fails the assertion.
     */
    method EntryTtl(ttl: Option<Duration>) returns (r: Result<RedisCacheConfiguration, CacheError>)
      ensures ttl.None? ==> r.Err? && r.error.IllegalArgument?
      ensures ttl.Some? ==> r.Ok? && fresh(r.value) && r.value.ttl == ttl
      ensures ttl.Some? ==>
        r.value.keyPrefix == keyPrefix && r.value.keySeparator == keySeparator && r.value.cacheNullValues == cacheNullValues
    {
      if ttl.None? {
        return Err(IllegalArgument("TTL duration must not be null!"));
      }
      var c := new RedisCacheConfiguration(ttl, keyPrefix, keySeparator, cacheNullValues);
      return Ok(c);
    }

    method SetTtl(ttl: Option<Duration>) returns (self: RedisCacheConfiguration)
      modifies this
      ensures self == this && this.ttl == ttl
      ensures keyPrefix == old(keyPrefix) && keySeparator == old(keySeparator) && cacheNullValues == old(cacheNullValues)
    {
      this.ttl := ttl;
      return this;
    }

    method SetKeyPrefix(keyPrefix: Option<string>) returns (self: RedisCacheConfiguration)
      modifies this
      ensures self == this && this.keyPrefix == keyPrefix
      ensures ttl == old(ttl) && keySeparator == old(keySeparator) && cacheNullValues == old(cacheNullValues)
    {
      this.keyPrefix := keyPrefix;
      return this;
    }

    method SetKeySeparator(keySeparator: string) returns (self: RedisCacheConfiguration)
      modifies this
      ensures self == this && this.keySeparator == keySeparator
      ensures ttl == old(ttl) && keyPrefix == old(keyPrefix) && cacheNullValues == old(cacheNullValues)
    {
      this.keySeparator := keySeparator;
      return this;
    }

    method SetCacheNullValues(cacheNullValues: bool) returns (self: RedisCacheConfiguration)
      modifies this
      ensures self == this && this.cacheNullValues == cacheNullValues
      ensures ttl == old(ttl) && keyPrefix == old(keyPrefix) && keySeparator == old(keySeparator)
    {
      this.cacheNullValues := cacheNullValues;
      return this;
    }
  }

  class MemCachedConfiguration {
    var ttl: Option<Duration>
    var cacheNullValues: bool
    var keyPrefix: Option<string>
    var keySeparator: string

    constructor(ttl: Option<Duration>, cacheNullValues: bool, keyPrefix: Option<string>, keySeparator: string)
      ensures this.ttl == ttl && this.cacheNullValues == cacheNullValues
      ensures this.keyPrefix == keyPrefix && this.keySeparator == keySeparator
    {
      this.ttl := ttl;
      this.cacheNullValues := cacheNullValues;
      this.keyPrefix := keyPrefix;
      this.keySeparator := keySeparator;
    }

    /** `defaultCacheConfig`: no expiry, nulls cached, empty prefix, ":" separator. */
    static method DefaultCacheConfig() returns (c: MemCachedConfiguration)
      ensures fresh(c)
      ensures c.ttl == Some(Zero) && c.cacheNullValues && c.keyPrefix == Some("") && c.keySeparator == ":"
    {
      c := new MemCachedConfiguration(Some(Zero), true, Some(""), ":");
    }

    /** `entryTtl`: a new configuration differing only in its TTL, which may be null. */
    method EntryTtl(ttl: Option<Duration>) returns (c: MemCachedConfiguration)
      ensures fresh(c) && c.ttl == ttl
      ensures c.cacheNullValues == cacheNullValues && c.keyPrefix == keyPrefix && c.keySeparator == keySeparator
    {
      c := new MemCachedConfiguration(ttl, cacheNullValues, keyPrefix, keySeparator);
    }

    method SetTtl(ttl: Option<Duration>) returns (self: MemCachedConfiguration)
      modifies this
      ensures self == this && this.ttl == ttl
      ensures cacheNullValues == old(cacheNullValues) && keyPrefix == old(keyPrefix) && keySeparator == old(keySeparator)
    {
      this.ttl := ttl;
      return this;
    }

    method SetCacheNullValues(cacheNullValues: bool) returns (self: MemCachedConfiguration)
      modifies this
      ensures self == this && this.cacheNullValues == cacheNullValues
      ensures ttl == old(ttl) && keyPrefix == old(keyPrefix) && keySeparator == old(keySeparator)
    {
      this.cacheNullValues := cacheNullValues;
      return this;
    }

    method SetKeyPrefix(keyPrefix: Option<string>) returns (self: MemCachedConfiguration)
      modifies this
      ensures self == this && this.keyPrefix == keyPrefix
      ensures ttl == old(ttl) && cacheNullValues == old(cacheNullValues) && keySeparator == old(keySeparator)
    {
      this.keyPrefix := keyPrefix;
      return this;
    }

    method SetKeySeparator(keySeparator: string) returns (self: MemCachedConfiguration)
      modifies this
      ensures self == this && this.keySeparator == keySeparator
      ensures ttl == old(ttl) && cacheNullValues == old(cacheNullValues) && keyPrefix == old(keyPrefix)
    {
      this.keySeparator := keySeparator;
      return this;
    }
  }
}
