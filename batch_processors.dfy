/**
 * The two batch processors `@BatchCacheable` goes through: a multi-get
 * that answers the ids found in the cache with their values, and a
 * multi-set that writes a batch back. Each works on one cache, the one the
 * cache manager answers for the annotation's cache name; ids are prefixed
 * with the annotation's prefix before they reach the cache.
 */
module BatchProcessors {
  import opened Wrappers
  import opened Utf8
  import opened Durations
  import opened CacheValues
  import opened RedisCacheWriters
  import opened RedisCaches
  import opened MemcachedClients
  import opened MemCaches

  /**
   * A store after one write per id of `order`, in that order, each id
   * writing its entry under its slot; a later id sharing a slot with an
   * earlier one overwrites it. Both processors' `mSet` write this way.
   */
  function WriteAll<I, K, E>(m: map<K, E>, order: seq<I>, slot: map<I, K>, entry: map<I, E>): map<K, E>
    requires forall id :: id in order ==> id in slot && id in entry
  {
    if order == [] then m
    else
      var id := order[|order| - 1];
      WriteAll(m, order[..|order| - 1], slot, entry)[slot[id] := entry[id]]
  }

  /** One more id at the end of a batch writes its entry over what the batch before it left. */
  lemma WriteAllSnoc<I, K, E>(m: map<K, E>, order: seq<I>, slot: map<I, K>, entry: map<I, E>, id: I)
    requires forall x :: x in order ==> x in slot && x in entry
    requires id in slot && id in entry
    ensures WriteAll(m, order + [id], slot, entry) == WriteAll(m, order, slot, entry)[slot[id] := entry[id]]
  {
    assert (order + [id])[..|order|] == order;
  }

  /** A batch write adds exactly the slots of its ids to the store. */
  lemma {:induction false} WriteAllKeys<I, K, E>(m: map<K, E>, order: seq<I>, slot: map<I, K>, entry: map<I, E>)
    requires forall id :: id in order ==> id in slot && id in entry
    ensures WriteAll(m, order, slot, entry).Keys == m.Keys + (set id | id in order :: slot[id])
  {
    if order != [] {
      var front := order[..|order| - 1];
      var last := order[|order| - 1];
      assert order == front + [last];
      WriteAllKeys(m, front, slot, entry);
      assert (set id | id in order :: slot[id]) == (set id | id in front :: slot[id]) + {slot[last]};
    }
  }

  /** A batch write leaves every key that is no id's slot as it was. */
  lemma {:induction false} WriteAllKeepsOthers<I, K, E>(m: map<K, E>, order: seq<I>, slot: map<I, K>, entry: map<I, E>, k: K)
    requires forall id :: id in order ==> id in slot && id in entry
    requires forall id :: id in order ==> slot[id] != k
    ensures k in WriteAll(m, order, slot, entry) <==> k in m
    ensures k in m ==> WriteAll(m, order, slot, entry)[k] == m[k]
  {
    if order != [] {
      var front := order[..|order| - 1];
      assert forall id :: id in front ==> id in order;
      WriteAllKeepsOthers(m, front, slot, entry, k);
    }
  }

  /** An id whose slot no other id of the batch shares holds its own entry after the batch. */
  lemma {:induction false} WriteAllOwnSlot<I, K, E>(m: map<K, E>, order: seq<I>, slot: map<I, K>, entry: map<I, E>, id: I)
    requires forall x :: x in order ==> x in slot && x in entry
    requires id in order && forall x :: x in order && slot[x] == slot[id] ==> x == id
    ensures slot[id] in WriteAll(m, order, slot, entry)
    ensures WriteAll(m, order, slot, entry)[slot[id]] == entry[id]
  {
    var front := order[..|order| - 1];
    var last := order[|order| - 1];
    assert order == front + [last];
    if last != id {
      assert id in front;
      assert forall x :: x in front ==> x in order;
      WriteAllOwnSlot(m, front, slot, entry, id);
    }
  }

  /**
   * `RedisBatchCacheableProcessor`: one `get(prefix + id, Object.class)`
   * per id, one `put(prefix + id, value)` per entry.
   */
  class RedisBatchCacheableProcessor<V(!new)> {
    const cache: RedisCache<V>

    constructor(cache: RedisCache<V>)
      ensures this.cache == cache
    {
      this.cache := cache;
    }

    /** The storage key the cache uses for an id under a prefix. */
    function Slot(prefix: string, id: string): Bytes
      requires cache.Valid()
    {
      cache.storageKey(prefix + id)
    }

    /**
     * What `get(prefix + id, Object.class)` answers in a keyspace: the
     * value for a hit, null for a miss and for a cached null alike.
     */
    function Fetched(ks: Keyspace, prefix: string, id: string): (r: Result<Option<V>, CacheError>)
      requires cache.Valid()
      ensures r.Err? <==> cache.LookupIn(ks, prefix + id).Err?
      ensures r.Ok? && r.value.Some? ==> cache.LookupIn(ks, prefix + id) == Ok(Some(Item(r.value.value)))
    {
      match cache.LookupIn(ks, prefix + id)
      case Err(e) => Err(e)
      case Ok(None) => Ok(None)
      case Ok(Some(s)) => Ok(FromStoreValue(s))
    }

    /**
     * `mGet`: the ids whose lookup answers a value, each with that value,
     * and no id whose lookup answers null; the ids are not prefixed. Any
     * lookup failing fails the whole call.
     */
    method MGet(prefix: string, ids: seq<string>) returns (r: Result<map<string, V>, CacheError>)
      requires cache.Valid()
      ensures r.Err? <==> exists i :: 0 <= i < |ids| && Fetched(cache.cacheWriter.keyspace, prefix, ids[i]).Err?
      ensures r.Ok? ==> forall id :: id in r.value <==>
        id in ids && Fetched(cache.cacheWriter.keyspace, prefix, id).Ok? && Fetched(cache.cacheWriter.keyspace, prefix, id).value.Some?
      ensures r.Ok? ==> forall id :: id in r.value ==> Fetched(cache.cacheWriter.keyspace, prefix, id) == Ok(Some(r.value[id]))
    {
      var result: map<string, V> := map[];
      var i := 0;
      while i < |ids|
        invariant 0 <= i <= |ids|
        invariant forall j :: 0 <= j < i ==> Fetched(cache.cacheWriter.keyspace, prefix, ids[j]).Ok?
        invariant forall id :: id in result <==>
          id in ids[..i] && Fetched(cache.cacheWriter.keyspace, prefix, id).Ok? && Fetched(cache.cacheWriter.keyspace, prefix, id).value.Some?
        invariant forall id :: id in result ==> Fetched(cache.cacheWriter.keyspace, prefix, id) == Ok(Some(result[id]))
      {
        assert ConvertKey(StringKey(prefix + ids[i])) == Ok(prefix + ids[i]);
        var stored := cache.Lookup(StringKey(prefix + ids[i]));
        if stored.Err? {
          return Err(stored.error);
        }
        if stored.value.Some? && stored.value.value.Item? {
          result := result[ids[i] := stored.value.value.value];
        }
        assert ids[..i + 1] == ids[..i] + [ids[i]];
        i := i + 1;
      }
      assert ids[..i] == ids;
      return Ok(result);
    }

    /** The entry `put` writes for a batch value. */
    function Backfill(v: V, ttl: Option<Duration>): Entry {
      Entry(Str(cache.Written(Some(v))), PutExpiry(ttl))
    }

    /** The slot of every id of a batch. */
    function Slots(prefix: string, data: map<string, V>): (r: map<string, Bytes>)
      requires cache.Valid()
      ensures r.Keys == data.Keys
    {
      map id | id in data :: Slot(prefix, id)
    }

    /** The entry every id of a batch writes. */
    function Entries(data: map<string, V>, ttl: Option<Duration>): (r: map<string, Entry>)
      ensures r.Keys == data.Keys
    {
      map id | id in data :: Backfill(data[id], ttl)
    }

    /** The TTL makes every `put` fail: it expires, but in under a millisecond. */
    predicate Refused(ttl: Option<Duration>) {
      ShouldExpireWithin(ttl) && ToMillis(ttl.value) == 0
    }

    /**
     * `mSet`: every entry put under `prefix + key`, in the map's own
     * order (`order`, each key once), and nothing else written. A TTL
     * under a millisecond fails the first `put`, so nothing is written.
     */
    method MSet(prefix: string, data: map<string, V>) returns (r: Result<(), CacheError>, ghost order: seq<string>)
      requires cache.Valid()
      modifies cache.cacheWriter
      ensures data == map[] ==> r.Ok? && cache.cacheWriter.keyspace == old(cache.cacheWriter.keyspace)
      ensures data != map[] && Refused(cache.cacheConfig.ttl) ==>
        r == Err(StoreError(InvalidExpireTime)) && cache.cacheWriter.keyspace == old(cache.cacheWriter.keyspace)
      ensures !Refused(cache.cacheConfig.ttl) ==>
        && r.Ok?
        && (forall i, j :: 0 <= i < j < |order| ==> order[i] != order[j])
        && (forall id :: id in order <==> id in data)
        && cache.cacheWriter.keyspace
           == WriteAll(old(cache.cacheWriter.keyspace), order, Slots(prefix, data), Entries(data, cache.cacheConfig.ttl))
    {
      ghost var slots := Slots(prefix, data);
      ghost var entries := Entries(data, cache.cacheConfig.ttl);
      var remaining := data.Keys;
      order := [];
      while remaining != {}
        invariant forall id :: id in data <==> id in remaining || id in order
        invariant forall id :: id in order ==> id !in remaining
        invariant forall i, j :: 0 <= i < j < |order| ==> order[i] != order[j]
        invariant Refused(cache.cacheConfig.ttl) ==> order == [] && cache.cacheWriter.keyspace == old(cache.cacheWriter.keyspace)
        invariant cache.cacheWriter.keyspace == WriteAll(old(cache.cacheWriter.keyspace), order, slots, entries)
        decreases remaining
      {
        var id :| id in remaining;
        assert ConvertKey(StringKey(prefix + id)) == Ok(prefix + id);
        var put := cache.Put(StringKey(prefix + id), Some(data[id]));
        if put.Err? {
          return Err(put.error), order;
        }
        assert slots[id] == cache.storageKey(prefix + id) && entries[id] == Backfill(data[id], cache.cacheConfig.ttl);
        WriteAllSnoc(old(cache.cacheWriter.keyspace), order, slots, entries, id);
        remaining := remaining - {id};
        order := order + [id];
      }
      return Ok(()), order;
    }

    /**
     * What a batch write stored, a later `mGet` finds: an id whose slot no
     * other id of the batch shares answers its own value, provided the
     * codec reads back what it writes.
     */
    lemma BackfillThenFetch(ks: Keyspace, prefix: string, order: seq<string>, data: map<string, V>, ttl: Option<Duration>, id: string)
      requires cache.Valid() && Faithful(cache.codec) && forall x :: x in order ==> x in data
      requires id in order && forall x :: x in order && Slot(prefix, x) == Slot(prefix, id) ==> x == id
      ensures Fetched(WriteAll(ks, order, Slots(prefix, data), Entries(data, ttl)), prefix, id) == Ok(Some(data[id]))
    {
      var after := WriteAll(ks, order, Slots(prefix, data), Entries(data, ttl));
      WriteAllOwnSlot(ks, order, Slots(prefix, data), Entries(data, ttl), id);
      cache.PutThenGet(after, prefix + id, Some(data[id]), PutExpiry(ttl));
      assert after[Slot(prefix, id) := Backfill(data[id], ttl)] == after;
    }
  }

  /**
   * `MemcachedBatchCacheableProcessor`: the prefixed ids mapped to storage
   * keys in one `generateCacheKeyCollection` call, so under one version,
   * and read in one multi-get; one `MemCache.put` per entry written back.
   */
  class MemcachedBatchCacheableProcessor<V> {
    const cache: MemCache<V>

    constructor(cache: MemCache<V>)
      ensures this.cache == cache
    {
      this.cache := cache;
    }

    /**
     * `mGet`: under the version read once (the counter created if
     * missing), the ids whose storage key holds a value, each with that
     * value as stored, a cached null included. Any failure answers an
     * empty map.
     */
    method MGet(prefix: string, ids: seq<string>) returns (r: map<string, Stored<V>>)
      requires cache.Valid()
      modifies cache.memcachedClient
      ensures cache.memcachedClient.items == cache.VersionedIn(old(cache.memcachedClient.items))
      ensures cache.VersionIn(old(cache.memcachedClient.items)).Err? ==> r == map[]
      ensures cache.VersionIn(old(cache.memcachedClient.items)).Ok? ==>
        var version := cache.VersionIn(old(cache.memcachedClient.items)).value;
        (forall id :: id in r <==> id in ids && cache.LookupIn(cache.memcachedClient.items, prefix + id, version).Some?)
        && (forall id :: id in r ==> cache.LookupIn(cache.memcachedClient.items, prefix + id, version) == Some(r[id]))
    {
      // keyCollectionMap: each id with its prefixed key
      var keyCollectionMap := map id | id in ids :: prefix + id;
      var prefixed := seq(|ids|, i requires 0 <= i < |ids| => StringKey(keyCollectionMap[ids[i]]));
      var keyMap := cache.GenerateCacheKeyCollection(prefixed);
      if keyMap.Err? {
        return map[];
      }
      ghost var version := cache.VersionIn(old(cache.memcachedClient.items)).value;
      ghost var items := cache.memcachedClient.items;
      KeysUnderAreSlots(ids, prefix, prefixed, keyMap.value, version);
      var finalKeys := seq(|ids|, i requires 0 <= i < |ids| => keyMap.value[prefixed[i]]);
      var objectMap := cache.memcachedClient.GetMulti(finalKeys);
      var result := Collect(ids, finalKeys, objectMap, prefix, version);
      FoundIsLookup(items, prefix, ids, version, finalKeys);
      return result;
    }

    /**
     * The result loop of `mGet`: every id whose storage key (`slot`) the
     * multi-get found, with the value found.
     */
    method Collect(ids: seq<string>, finalKeys: seq<string>, objectMap: map<string, Stored<V>>, ghost prefix: string, ghost version: string)
      returns (result: map<string, Stored<V>>)
      requires cache.Valid()
      requires |finalKeys| == |ids| && forall i :: 0 <= i < |ids| ==> finalKeys[i] == Slot(prefix, ids[i], version)
      ensures forall id :: id in result <==> id in ids && Slot(prefix, id, version) in objectMap
      ensures forall id :: id in result ==> result[id] == objectMap[Slot(prefix, id, version)]
    {
      result := map[];
      var i := 0;
      while i < |ids|
        invariant 0 <= i <= |ids|
        invariant forall id :: id in result <==> id in ids[..i] && Slot(prefix, id, version) in objectMap
        invariant forall id :: id in result ==> result[id] == objectMap[Slot(prefix, id, version)]
      {
        var finalKey := finalKeys[i];
        if finalKey in objectMap {
          result := result[ids[i] := objectMap[finalKey]];
        }
        assert ids[..i + 1] == ids[..i] + [ids[i]];
        i := i + 1;
      }
      assert ids[..i] == ids;
    }

    /** Every prefixed id maps to its slot under the version the keys were generated at. */
    lemma KeysUnderAreSlots(ids: seq<string>, prefix: string, prefixed: seq<KeyObject>, keyMap: map<KeyObject, string>, version: string)
      requires cache.Valid()
      requires |prefixed| == |ids| && forall i :: 0 <= i < |ids| ==> prefixed[i] == StringKey(prefix + ids[i])
      requires cache.KeysUnder(prefixed, version) == Ok(keyMap)
      ensures forall i :: 0 <= i < |ids| ==> prefixed[i] in keyMap && keyMap[prefixed[i]] == Slot(prefix, ids[i], version)
    {
      forall i | 0 <= i < |ids|
        ensures prefixed[i] in keyMap && keyMap[prefixed[i]] == Slot(prefix, ids[i], version)
      {
        assert ConvertKey(prefixed[i]) == Ok(prefix + ids[i]);
      }
    }

    /** The multi-get over every id's storage key finds exactly what `lookup` would, id by id. */
    lemma FoundIsLookup(items: Items<V>, prefix: string, ids: seq<string>, version: string, finalKeys: seq<string>)
      requires cache.Valid()
      requires |finalKeys| == |ids| && forall i :: 0 <= i < |ids| ==> finalKeys[i] == Slot(prefix, ids[i], version)
      ensures forall id :: id in ids ==>
        (Slot(prefix, id, version) in Found(items, finalKeys) <==> cache.LookupIn(items, prefix + id, version).Some?)
      ensures forall id :: id in ids && Slot(prefix, id, version) in Found(items, finalKeys) ==>
        cache.LookupIn(items, prefix + id, version) == Some(Found(items, finalKeys)[Slot(prefix, id, version)])
    {
      forall id | id in ids
        ensures Slot(prefix, id, version) in finalKeys
      {
      }
    }

    /** The storage key an id under a prefix has at a version. */
    function Slot(prefix: string, id: string, version: string): string
      requires cache.Valid()
    {
      cache.dataKey(prefix + id, version)
    }

    /** The slot of every id of a batch at a version. */
    function Slots(prefix: string, version: string, data: map<string, V>): (r: map<string, string>)
      requires cache.Valid()
      ensures r.Keys == data.Keys
    {
      map id | id in data :: Slot(prefix, id, version)
    }

    /** The item every id of a batch writes. */
    function Entries(data: map<string, V>, exptime: int): (r: map<string, MemItem<V>>)
      ensures r.Keys == data.Keys
    {
      map id | id in data :: Data(Item(data[id]), exptime)
    }

    /**
     * `mSet`: every entry put under `prefix + key`, in the map's own
     * order (`order`, each key once), no failure caught. A version key
     * holding a value fails the first `put` before anything is written; a
     * missing TTL, or one the client refuses as a negative expiry, fails it
     * after the counter was created. When the counter
     * key is apart from every data key, the batch is written under the
     * version read before it, which stays.
     */
    method MSet(prefix: string, data: map<string, V>) returns (r: Result<(), CacheError>, ghost order: seq<string>)
      requires cache.Valid()
      modifies cache.memcachedClient
      ensures data == map[] ==> r.Ok? && cache.memcachedClient.items == old(cache.memcachedClient.items)
      ensures data != map[] && cache.VersionIn(old(cache.memcachedClient.items)).Err? ==>
        r == Err(cache.VersionIn(old(cache.memcachedClient.items)).error)
        && cache.memcachedClient.items == old(cache.memcachedClient.items)
      ensures data != map[] && cache.VersionIn(old(cache.memcachedClient.items)).Ok? && cache.ttl.None? ==>
        r.Err? && r.error.NullPointer? && cache.memcachedClient.items == cache.VersionedIn(old(cache.memcachedClient.items))
      ensures data != map[] && cache.VersionIn(old(cache.memcachedClient.items)).Ok? && cache.ExpiryRefused() ==>
        r == Err(NegativeExptime) && cache.memcachedClient.items == cache.VersionedIn(old(cache.memcachedClient.items))
      ensures cache.VersionKeyApart() && cache.VersionIn(old(cache.memcachedClient.items)).Ok? && cache.ttl.Some? && !cache.ExpiryRefused() ==>
        && r.Ok?
        && (forall i, j :: 0 <= i < j < |order| ==> order[i] != order[j])
        && (forall id :: id in order <==> id in data)
        && cache.VersionIn(cache.memcachedClient.items) == cache.VersionIn(old(cache.memcachedClient.items))
        && (data != map[] ==>
              cache.memcachedClient.items
              == WriteAll(cache.VersionedIn(old(cache.memcachedClient.items)), order,
                          Slots(prefix, cache.VersionIn(old(cache.memcachedClient.items)).value, data),
                          Entries(data, ToInt32(GetSeconds(cache.ttl.value)))))
    {
      ghost var start := cache.VersionedIn(cache.memcachedClient.items);
      ghost var version := cache.VersionIn(cache.memcachedClient.items);
      ghost var slots := Slots(prefix, if version.Ok? then version.value else "", data);
      ghost var entries := Entries(data, if cache.ttl.Some? then ToInt32(GetSeconds(cache.ttl.value)) else 0);
      var remaining := data.Keys;
      order := [];
      while remaining != {}
        invariant forall id :: id in data <==> id in remaining || id in order
        invariant forall id :: id in order ==> id !in remaining
        invariant forall i, j :: 0 <= i < j < |order| ==> order[i] != order[j]
        invariant order == [] ==> cache.memcachedClient.items == old(cache.memcachedClient.items)
        invariant order != [] ==> version.Ok? && cache.ttl.Some? && !cache.ExpiryRefused()
        invariant order != [] && cache.VersionKeyApart() ==>
          cache.VersionIn(cache.memcachedClient.items) == version
          && cache.nameVersionKey in cache.memcachedClient.items
          && cache.memcachedClient.items == WriteAll(start, order, slots, entries)
        decreases remaining
      {
        var id :| id in remaining;
        ghost var before := cache.memcachedClient.items;
        assert ConvertKey(StringKey(prefix + id)) == Ok(prefix + id);
        var put := cache.Put(StringKey(prefix + id), Some(data[id]));
        if put.Err? {
          return Err(put.error), order;
        }
        if cache.VersionKeyApart() {
          assert cache.VersionIn(before) == version;
          assert cache.memcachedClient.items
            == cache.PutIn(cache.VersionedIn(before), prefix + id, version.value, Some(data[id]), ToInt32(GetSeconds(cache.ttl.value)));
          PutExtends(before, start, order, slots, entries, prefix, id, data[id], version.value, ToInt32(GetSeconds(cache.ttl.value)));
        }
        remaining := remaining - {id};
        order := order + [id];
      }
      assert order != [] ==> order[0] in data;
      return Ok(()), order;
    }

    /** One more `put` of a batch extends the batch write, and the version stays. */
    lemma PutExtends(before: Items<V>, start: Items<V>, order: seq<string>, slots: map<string, string>, entries: map<string, MemItem<V>>,
                     prefix: string, id: string, v: V, version: string, exptime: int)
      requires cache.Valid() && cache.VersionKeyApart()
      requires cache.VersionIn(before) == Ok(version)
      requires forall x :: x in order ==> x in slots && x in entries
      requires order == [] ==> start == cache.VersionedIn(before)
      requires order != [] ==> before == WriteAll(start, order, slots, entries) && cache.nameVersionKey in before
      requires id in slots && slots[id] == Slot(prefix, id, version)
      requires id in entries && entries[id] == Data(Item(v), exptime)
      ensures var after := cache.PutIn(cache.VersionedIn(before), prefix + id, version, Some(v), exptime);
        after == WriteAll(start, order + [id], slots, entries)
        && cache.VersionIn(after) == Ok(version) && cache.nameVersionKey in after
    {
      assert cache.dataKey(prefix + id, version) != cache.nameVersionKey;
      assert order != [] ==> cache.VersionedIn(before) == before;
      WriteAllSnoc(start, order, slots, entries, id);
    }

    /**
     * What a batch write stored, a later `mGet` under the same version
     * finds: an id whose slot no other id of the batch shares answers its
     * own value.
     */
    lemma StoredThenFound(items: Items<V>, prefix: string, version: string, order: seq<string>, data: map<string, V>, exptime: int, id: string)
      requires cache.Valid() && forall x :: x in order ==> x in data
      requires id in order && forall x :: x in order && Slot(prefix, x, version) == Slot(prefix, id, version) ==> x == id
      ensures cache.LookupIn(WriteAll(items, order, Slots(prefix, version, data), Entries(data, exptime)), prefix + id, version)
        == Some(Item(data[id]))
    {
      WriteAllOwnSlot(items, order, Slots(prefix, version, data), Entries(data, exptime), id);
    }
  }
}
