/**
 * `BatchCacheableAspect`: the `@BatchCacheable` advice. A method taking a
 * collection of ids and answering a collection of objects is served from
 * the cache for the ids it finds there; only the other ids reach the
 * method, whose objects are then written back under a key read from each
 * object. Anything going wrong on the cache path falls back to calling the
 * method as it was called.
 *
 * The intercepted method is a function from the call to what it answers;
 * reading the key field off an object by reflection is a function from the
 * object to the field's text (null when the field is missing or null).
 */
module BatchCacheableAspects {
  import opened Wrappers
  import opened Durations
  import opened CacheValues
  import opened RedisCacheWriters
  import opened RedisCaches
  import opened MemcachedClients
  import opened MemCaches
  import opened BatchProcessors

  /** Which collection class a value or a declared type is: a `Set`, a `List`, or another `Collection`. */
  datatype Kind = SetKind | ListKind | OtherKind

  /** The declared return type of the intercepted method. */
  datatype ReturnType = NotCollection | CollectionOf(kind: Kind)

  /**
   * An argument value: null, a value that is no collection, or a
   * collection, given by the `toString` of each element in iteration
   * order (null for a null element).
   */
  datatype ArgValue = NullArg | Plain | Coll(kind: Kind, elements: seq<Option<string>>)

  /** A collection the advice builds: a hash set or an array list. */
  datatype Collection<T> = SetOf(s: set<T>) | ListOf(l: seq<T>)

  /**
   * What a call of the intercepted method hands back: the returned
   * collection's elements in iteration order (`None` for a null
   * collection, `None` elements for null elements), or an exception.
   */
  datatype Outcome<V> = Returned(values: Option<seq<Option<V>>>) | Threw(message: string)

  /** A call of the intercepted method: with its own arguments, or with the missed ids in place of the first. */
  datatype Call = Original | WithIds(ids: Collection<string>)

  /** What `around` answers: the method's own outcome, or a collection the advice built. */
  datatype Answer<V> = Proceeded(outcome: Outcome<V>) | Assembled(result: Collection<V>)

  /** Why the cache path gave up; `around` logs it and calls the method itself. */
  datatype Failure =
    | CacheFailed(error: CacheError)
    | UnsupportedType
    | LoaderThrew(message: string)
    | NullLoaded

  /** The `@BatchCacheable` attributes. */
  datatype BatchCacheable = BatchCacheable(cacheName: string, prefix: string, cacheKeyField: string, cacheAsync: bool)

  /** The processor the advice goes through, over one cache. */
  datatype Processor<V(!new)> =
    | Redis(redis: RedisBatchCacheableProcessor<V>)
    | Memcached(memcached: MemcachedBatchCacheableProcessor<V>)

  /** The elements of a collection. */
  function Contents<T>(c: Collection<T>): set<T> {
    match c
    case SetOf(s) => s
    case ListOf(l) => set x | x in l
  }

  /** The ids of a collection argument: the `toString` of each non-null element, in iteration order. */
  function Ids(elements: seq<Option<string>>): seq<string> {
    if elements == [] then []
    else
      var last := elements[|elements| - 1];
      Ids(elements[..|elements| - 1]) + (if last.Some? then [last.value] else [])
  }

  /** An id is taken from the argument exactly when some element has it as its text. */
  lemma {:induction false} IdsAreElements(elements: seq<Option<string>>)
    ensures forall id :: id in Ids(elements) <==> Some(id) in elements
    ensures |Ids(elements)| <= |elements|
  {
    if elements != [] {
      var front := elements[..|elements| - 1];
      IdsAreElements(front);
      assert elements == front + [elements[|elements| - 1]];
    }
  }

  /** The ids not among `cached`, in their original order. */
  function Misses(ids: seq<string>, cached: set<string>): seq<string> {
    if ids == [] then []
    else
      var last := ids[|ids| - 1];
      Misses(ids[..|ids| - 1], cached) + (if last !in cached then [last] else [])
  }

  /** The misses are exactly the ids that are not cached. */
  lemma {:induction false} MissesAreUncached(ids: seq<string>, cached: set<string>)
    ensures forall id :: id in Misses(ids, cached) <==> id in ids && id !in cached
    ensures |Misses(ids, cached)| <= |ids|
  {
    if ids != [] {
      var front := ids[..|ids| - 1];
      MissesAreUncached(front, cached);
      assert ids == front + [ids[|ids| - 1]];
    }
  }

  /** The misses keep the order of the ids: they are the ids with the cached ones taken out. */
  lemma {:induction false} MissesKeepOrder(ids: seq<string>, cached: set<string>)
    ensures (forall id :: id in ids ==> id !in cached) ==> Misses(ids, cached) == ids
    ensures Misses(ids, cached) == [] <==> forall id :: id in ids ==> id in cached
  {
    MissesAreUncached(ids, cached);
    if ids != [] {
      var front := ids[..|ids| - 1];
      MissesKeepOrder(front, cached);
      assert front + [ids[|ids| - 1]] == ids;
      assert Misses(ids, cached) != [] ==> Misses(ids, cached)[0] in Misses(ids, cached);
    }
  }

  /** The values of a batch answer with the cached nulls taken out. */
  function Present<V>(xs: seq<Stored<V>>): seq<V> {
    if xs == [] then []
    else
      var last := xs[|xs| - 1];
      Present(xs[..|xs| - 1]) + (if last.Item? then [last.value] else [])
  }

  lemma {:induction false} PresentAreItems<V>(xs: seq<Stored<V>>)
    ensures forall v :: v in Present(xs) <==> Item(v) in xs
  {
    if xs != [] {
      PresentAreItems(xs[..|xs| - 1]);
      assert xs == xs[..|xs| - 1] + [xs[|xs| - 1]];
    }
  }

  /** The elements of a loaded collection with the nulls taken out. */
  function NonNull<V>(xs: seq<Option<V>>): seq<V> {
    if xs == [] then []
    else
      var last := xs[|xs| - 1];
      NonNull(xs[..|xs| - 1]) + (if last.Some? then [last.value] else [])
  }

  lemma {:induction false} NonNullAreSome<V>(xs: seq<Option<V>>)
    ensures forall v :: v in NonNull(xs) <==> Some(v) in xs
  {
    if xs != [] {
      NonNullAreSome(xs[..|xs| - 1]);
      assert xs == xs[..|xs| - 1] + [xs[|xs| - 1]];
    }
  }

  /**
   * `resolve` of values already free of nulls: collected into a set or a
   * list after the given class; any other class is not supported.
   */
  function Reshape<T>(kind: Kind, xs: seq<T>): (r: Result<Collection<T>, Failure>)
    ensures r.Err? <==> kind == OtherKind
    ensures r.Err? ==> r.error == UnsupportedType
    ensures r.Ok? ==> Contents(r.value) == set x | x in xs
    ensures r.Ok? ==> (r.value.ListOf? <==> kind == ListKind)
    ensures r.Ok? && r.value.ListOf? ==> r.value.l == xs
  {
    match kind
    case SetKind => Ok(SetOf(set x | x in xs))
    case ListKind => Ok(ListOf(xs))
    case OtherKind => Err(UnsupportedType)
  }

  /** `resolve(data, returnType)` of cached values: a set or a list of them with every cached null dropped. */
  function Resolve<V(!new)>(kind: Kind, cached: seq<Stored<V>>): (r: Result<Collection<V>, Failure>)
    ensures r.Err? <==> kind == OtherKind
    ensures r.Ok? ==> forall v :: v in Contents(r.value) <==> Item(v) in cached
  {
    PresentAreItems(cached);
    Reshape(kind, Present(cached))
  }

  /**
   * The values of a batch answer, as `values()` hands them over: one per
   * answered id, taken in the order the ids were asked for.
   */
  function CachedValues<V>(hits: map<string, Stored<V>>, ids: seq<string>): seq<Stored<V>> {
    if ids == [] then []
    else
      var front := ids[..|ids| - 1];
      var last := ids[|ids| - 1];
      CachedValues(hits, front) + (if last in hits && last !in front then [hits[last]] else [])
  }

  /** Every answered id's value is among the cached values, and nothing else is. */
  lemma {:induction false} CachedValuesOfHits<V>(hits: map<string, Stored<V>>, ids: seq<string>)
    ensures forall id :: id in ids && id in hits ==> hits[id] in CachedValues(hits, ids)
    ensures forall x :: x in CachedValues(hits, ids) ==> exists id :: id in ids && id in hits && hits[id] == x
  {
    if ids != [] {
      var front := ids[..|ids| - 1];
      var last := ids[|ids| - 1];
      CachedValuesOfHits(hits, front);
      assert ids == front + [last];
    }
  }

  /**
   * `join(data1, data2, returnType)`: the cached values, then the loaded
   * ones, each with nulls and cached nulls dropped, in a set or a list
   * after the return type; a null loaded collection fails on its stream.
   */
  function Joined<V>(kind: Kind, cached: seq<Stored<V>>, loaded: Option<seq<Option<V>>>): Result<Collection<V>, Failure> {
    if kind == OtherKind then Err(UnsupportedType)
    else if loaded.None? then Err(NullLoaded)
    else Reshape(kind, Present(cached) + NonNull(loaded.value))
  }

  /** A joined collection holds exactly the cached values and the non-null loaded ones, cached ones first in a list. */
  lemma JoinedContents<V>(kind: Kind, cached: seq<Stored<V>>, loaded: Option<seq<Option<V>>>)
    ensures Joined(kind, cached, loaded).Err? <==> kind == OtherKind || loaded.None?
    ensures Joined(kind, cached, loaded).Ok? ==>
      forall v :: v in Contents(Joined(kind, cached, loaded).value) <==> Item(v) in cached || Some(v) in loaded.value
    ensures kind == ListKind && loaded.Some? ==>
      Joined(kind, cached, loaded) == Ok(ListOf(Present(cached) + NonNull(loaded.value)))
  {
    PresentAreItems(cached);
    if loaded.Some? {
      NonNullAreSome(loaded.value);
    }
  }

  /**
   * The map `addCache` hands to `mSet`: each non-null loaded object under
   * the text of its key field, objects whose key field is null skipped, a
   * later object overwriting an earlier one with the same key.
   */
  function Backfill<V>(values: seq<Option<V>>, keyOf: V -> Option<string>): map<string, V> {
    if values == [] then map[]
    else
      var last := values[|values| - 1];
      var before := Backfill(values[..|values| - 1], keyOf);
      if last.Some? && keyOf(last.value).Some? then before[keyOf(last.value).value := last.value] else before
  }

  /** Whether the object at index `i` is non-null and has `key` as its key. */
  predicate KeyedAt<V>(values: seq<Option<V>>, keyOf: V -> Option<string>, i: int, key: string)
    requires 0 <= i < |values|
  {
    values[i].Some? && keyOf(values[i].value) == Some(key)
  }

  /** A key is written back exactly when some loaded object has it, and with the last such object. */
  lemma {:induction false} BackfillHoldsLastKeyed<V>(values: seq<Option<V>>, keyOf: V -> Option<string>, key: string)
    ensures key in Backfill(values, keyOf) <==> exists i :: 0 <= i < |values| && KeyedAt(values, keyOf, i, key)
    ensures key in Backfill(values, keyOf) ==>
      exists i :: 0 <= i < |values| && KeyedAt(values, keyOf, i, key) && values[i].value == Backfill(values, keyOf)[key]
        && forall j :: i < j < |values| ==> !KeyedAt(values, keyOf, j, key)
  {
    if values != [] {
      var n := |values| - 1;
      var front := values[..n];
      BackfillHoldsLastKeyed(front, keyOf, key);
      assert forall i :: 0 <= i < n ==> (KeyedAt(front, keyOf, i, key) <==> KeyedAt(values, keyOf, i, key));
      if KeyedAt(values, keyOf, n, key) {
        assert values[n].value == Backfill(values, keyOf)[key];
      } else if key in Backfill(values, keyOf) {
        var i :| 0 <= i < n && KeyedAt(front, keyOf, i, key) && front[i].value == Backfill(front, keyOf)[key]
          && forall j :: i < j < n ==> !KeyedAt(front, keyOf, j, key);
        assert KeyedAt(values, keyOf, i, key);
      }
    }
  }

  /** The `keyCollection` loop of `around`: every non-null element's text, in iteration order. */
  method CollectIds(elements: seq<Option<string>>) returns (keyCollection: seq<string>)
    ensures keyCollection == Ids(elements)
  {
    keyCollection := [];
    var i := 0;
    while i < |elements|
      invariant 0 <= i <= |elements|
      invariant keyCollection == Ids(elements[..i])
    {
      assert elements[..i + 1][..i] == elements[..i];
      if elements[i].Some? {
        keyCollection := keyCollection + [elements[i].value];
      }
      i := i + 1;
    }
    assert elements[..i] == elements;
  }

  /** `join`: both collections added, element by element, to a new hash set or array list. */
  method Join<V>(data1: seq<Stored<V>>, data2: Option<seq<Option<V>>>, kind: Kind) returns (r: Result<Collection<V>, Failure>)
    ensures r == Joined(kind, data1, data2)
  {
    if kind == OtherKind {
      return Err(UnsupportedType);
    }
    if data2.None? {
      return Err(NullLoaded);
    }
    var objects: seq<V> := [];
    var i := 0;
    while i < |data1|
      invariant 0 <= i <= |data1|
      invariant objects == Present(data1[..i])
    {
      assert data1[..i + 1][..i] == data1[..i];
      if data1[i].Item? {
        objects := objects + [data1[i].value];
      }
      i := i + 1;
    }
    assert data1[..i] == data1;
    var loaded := data2.value;
    var j := 0;
    while j < |loaded|
      invariant 0 <= j <= |loaded|
      invariant objects == Present(data1) + NonNull(loaded[..j])
    {
      assert loaded[..j + 1][..j] == loaded[..j];
      if loaded[j].Some? {
        objects := objects + [loaded[j].value];
      }
      j := j + 1;
    }
    assert loaded[..j] == loaded;
    if kind == SetKind {
      return Ok(SetOf(set x | x in objects));
    }
    return Ok(ListOf(objects));
  }

  /** The loop of `addCache` that fills the map for `mSet`. */
  method CollectBackfill<V>(noCachedValues: seq<Option<V>>, keyOf: V -> Option<string>) returns (data: map<string, V>)
    ensures data == Backfill(noCachedValues, keyOf)
  {
    data := map[];
    var i := 0;
    while i < |noCachedValues|
      invariant 0 <= i <= |noCachedValues|
      invariant data == Backfill(noCachedValues[..i], keyOf)
    {
      assert noCachedValues[..i + 1][..i] == noCachedValues[..i];
      var value := noCachedValues[i];
      if value.Some? {
        var filedValue := keyOf(value.value);
        if filedValue.Some? {
          data := data[filedValue.value := value.value];
        }
      }
      i := i + 1;
    }
    assert noCachedValues[..i] == noCachedValues;
  }

  /** A write-back `doProcess` hands to the executor when `cacheAsync` is set. */
  datatype Pending<V> = Pending(values: Option<seq<Option<V>>>, prefix: string, cacheKeyField: string)

  /**
   * `around` leaves the cache alone and calls the method as it was called:
   * the return type is no collection, there is no argument, the first one
   * is null or no collection, or it has no non-null element.
   */
  predicate Bypassed(returnType: ReturnType, args: seq<ArgValue>) {
    returnType.NotCollection? || args == [] || !args[0].Coll? || Ids(args[0].elements) == []
  }

  /** `addCache` writes nothing: no key field is named, or nothing (or null) was loaded. */
  predicate SkipsBackfill<V>(values: Option<seq<Option<V>>>, cacheKeyField: string) {
    cacheKeyField == [] || values.None? || values.value == []
  }

  /** A batch order that lists every key of a map once and nothing else. */
  ghost predicate Enumerates<V>(order: seq<string>, data: map<string, V>) {
    (forall i, j :: 0 <= i < j < |order| ==> order[i] != order[j]) && forall id :: id in order <==> id in data
  }

  /**
   * The advice, over the processor of the backend configured. The store
   * behind the processor's cache is all it changes: a Redis keyspace or
   * the items of a Memcached server.
   */
  class BatchCacheableAspect<V(==, !new)> {
    const processor: Processor<V>

    constructor(processor: Processor<V>)
      ensures this.processor == processor
    {
      this.processor := processor;
    }

    ghost predicate Valid() {
      match processor
      case Redis(p) => p.cache.Valid()
      case Memcached(p) => p.cache.Valid()
    }

    /** The store behind the processor's cache. */
    function Store(): set<object> {
      match processor
      case Redis(p) => {p.cache.cacheWriter}
      case Memcached(p) => {p.cache.memcachedClient}
    }

    /** The Redis cache's configuration, whose TTL its writes use. */
    function Settings(): set<object> {
      match processor
      case Redis(p) => {p.cache.cacheConfig}
      case Memcached(_) => {}
    }

    /** The Redis keyspace (empty when the backend is Memcached). */
    function RedisKeyspace(): Keyspace
      reads Store()
    {
      match processor
      case Redis(p) => p.cache.cacheWriter.keyspace
      case Memcached(_) => map[]
    }

    /** The Memcached items (empty when the backend is Redis). */
    function MemcachedItems(): Items<V>
      reads Store()
    {
      match processor
      case Redis(_) => map[]
      case Memcached(p) => p.cache.memcachedClient.items
    }

    /** The Memcached items after a read: the version counter is created when it is missing. */
    ghost function AfterRead(items: Items<V>): Items<V>
      requires Valid()
    {
      match processor
      case Redis(_) => items
      case Memcached(p) => p.cache.VersionedIn(items)
    }

    /** The store is as a read left the store `ks`, `items`. */
    ghost predicate OnlyRead(ks: Keyspace, items: Items<V>)
      requires Valid()
      reads Store()
    {
      RedisKeyspace() == ks && MemcachedItems() == AfterRead(items)
    }

    /**
     * What `mGet` answers for ids under a prefix from the store `ks`,
     * `items`. Redis: the ids whose `get` answers a value, each with it,
     * and a failing `get` fails the call. Memcached: never a failure; under
     * the version read, the ids whose storage key holds something, each
     * with what it holds, and nothing when the version cannot be read.
     */
    ghost predicate Answers(ks: Keyspace, items: Items<V>, prefix: string, ids: seq<string>, r: Result<map<string, Stored<V>>, Failure>)
      requires Valid()
    {
      match processor
      case Redis(p) =>
        && (r.Err? <==> exists i :: 0 <= i < |ids| && p.Fetched(ks, prefix, ids[i]).Err?)
        && (r.Ok? ==> forall id :: id in r.value <==>
              id in ids && p.Fetched(ks, prefix, id).Ok? && p.Fetched(ks, prefix, id).value.Some?)
        && (r.Ok? ==> forall id :: id in r.value ==>
              r.value[id].Item? && p.Fetched(ks, prefix, id) == Ok(Some(r.value[id].value)))
      case Memcached(p) =>
        && r.Ok?
        && (p.cache.VersionIn(items).Err? ==> r.value == map[])
        && (p.cache.VersionIn(items).Ok? ==>
              var version := p.cache.VersionIn(items).value;
              (forall id :: id in r.value <==> id in ids && p.cache.LookupIn(AfterRead(items), prefix + id, version).Some?)
              && forall id :: id in r.value ==> p.cache.LookupIn(AfterRead(items), prefix + id, version) == Some(r.value[id]))
    }

    /**
     * What `mSet` of `data` under a prefix does to the store `ks`, `items`,
     * leaving `ks'`, `items'`: an empty batch writes nothing; otherwise each
     * entry is put in the batch order, the first failing `put` ending the
     * call. Redis: a TTL under a millisecond fails the first `put`.
     * Memcached: a version key holding a value fails before anything is
     * written, a missing TTL or a negative expiry after the counter was
     * created; with the
     * counter key apart from the data keys, the batch is written under
     * the version read before it.
     */
    ghost predicate Writes(ks: Keyspace, items: Items<V>, ks': Keyspace, items': Items<V>,
                           prefix: string, data: map<string, V>, order: seq<string>, r: Result<(), Failure>)
      requires Valid()
      reads Settings()
    {
      && (data == map[] ==> r.Ok? && ks' == ks && items' == items)
      && match processor
         case Redis(p) =>
           var ttl := p.cache.cacheConfig.ttl;
           && (data != map[] && p.Refused(ttl) ==> r == Err(CacheFailed(StoreError(InvalidExpireTime))) && ks' == ks)
           && (!p.Refused(ttl) ==>
                 r.Ok? && Enumerates(order, data) && ks' == WriteAll(ks, order, p.Slots(prefix, data), p.Entries(data, ttl)))
         case Memcached(p) =>
           var c := p.cache;
           && (data != map[] && c.VersionIn(items).Err? ==> r == Err(CacheFailed(c.VersionIn(items).error)) && items' == items)
           && (data != map[] && c.VersionIn(items).Ok? && c.ttl.None? ==> r.Err? && items' == c.VersionedIn(items))
           && (data != map[] && c.VersionIn(items).Ok? && c.ExpiryRefused() ==>
                 r == Err(CacheFailed(NegativeExptime)) && items' == c.VersionedIn(items))
           && (c.VersionKeyApart() && c.VersionIn(items).Ok? && c.ttl.Some? && !c.ExpiryRefused() ==>
                 && r.Ok? && Enumerates(order, data) && c.VersionIn(items') == c.VersionIn(items)
                 && (data != map[] ==>
                       items' == WriteAll(c.VersionedIn(items), order, p.Slots(prefix, c.VersionIn(items).value, data),
                                          p.Entries(data, ToInt32(GetSeconds(c.ttl.value))))))
    }

    /** What `addCache` does: nothing when it skips, else `mSet` of the loaded objects under their keys. */
    ghost predicate Backfilled(ks: Keyspace, items: Items<V>, ks': Keyspace, items': Items<V>,
                               values: Option<seq<Option<V>>>, prefix: string, cacheKeyField: string,
                               keyOf: V -> Option<string>, order: seq<string>, r: Result<(), Failure>)
      requires Valid()
      reads Settings()
    {
      if SkipsBackfill(values, cacheKeyField) then r.Ok? && ks' == ks && items' == items
      else Writes(ks, items, ks', items', prefix, Backfill(values.value, keyOf), order, r)
    }

    /** `mGet` of the processor; the Redis answer's values are never a cached null. */
    method MGet(prefix: string, ids: seq<string>) returns (r: Result<map<string, Stored<V>>, Failure>)
      requires Valid()
      modifies Store()
      ensures Answers(old(RedisKeyspace()), old(MemcachedItems()), prefix, ids, r)
      ensures OnlyRead(old(RedisKeyspace()), old(MemcachedItems()))
    {
      match processor
      case Redis(p) =>
        var got := p.MGet(prefix, ids);
        if got.Err? {
          return Err(CacheFailed(got.error));
        }
        return Ok(map id | id in got.value :: Item(got.value[id]));
      case Memcached(p) =>
        var got := p.MGet(prefix, ids);
        return Ok(got);
    }

    /** `mSet` of the processor. */
    method MSet(prefix: string, data: map<string, V>) returns (r: Result<(), Failure>, ghost order: seq<string>)
      requires Valid()
      modifies Store()
      ensures Writes(old(RedisKeyspace()), old(MemcachedItems()), RedisKeyspace(), MemcachedItems(), prefix, data, order, r)
    {
      var put;
      match processor {
        case Redis(p) =>
          put, order := p.MSet(prefix, data);
        case Memcached(p) =>
          put, order := p.MSet(prefix, data);
      }
      r := if put.Err? then Err(CacheFailed(put.error)) else Ok(());
    }

    /** `addCache`: the loaded objects written back under their key field's text, unless it skips. */
    method AddCache(noCachedValues: Option<seq<Option<V>>>, prefix: string, cacheKeyField: string, keyOf: V -> Option<string>)
      returns (r: Result<(), Failure>, ghost order: seq<string>)
      requires Valid()
      modifies Store()
      ensures Backfilled(old(RedisKeyspace()), old(MemcachedItems()), RedisKeyspace(), MemcachedItems(),
                         noCachedValues, prefix, cacheKeyField, keyOf, order, r)
    {
      if SkipsBackfill(noCachedValues, cacheKeyField) {
        return Ok(()), [];
      }
      var data := CollectBackfill(noCachedValues.value, keyOf);
      r, order := MSet(prefix, data);
    }

    /** The executor running a deferred `addCache`; what it fails with is lost. */
    method RunPending(pending: Pending<V>, keyOf: V -> Option<string>) returns (ghost r: Result<(), Failure>, ghost order: seq<string>)
      requires Valid()
      modifies Store()
      ensures Backfilled(old(RedisKeyspace()), old(MemcachedItems()), RedisKeyspace(), MemcachedItems(),
                         pending.values, pending.prefix, pending.cacheKeyField, keyOf, order, r)
    {
      var added;
      added, order := AddCache(pending.values, pending.prefix, pending.cacheKeyField, keyOf);
      r := added;
    }

    /**
     * `doProcess`: the batch answer (`hits`) read first; when every id was
     * answered, the answered values resolved after the return type without
     * calling the method; otherwise the method called once with the missed
     * ids alone, in a collection of the argument's own class, its objects
     * written back (now, or later by the executor when `cacheAsync` is set)
     * and joined after the cached ones. A failure anywhere is `r`'s error.
     */
    method DoProcess(cacheable: BatchCacheable, kind: Kind, argKind: Kind, ids: seq<string>,
                     keyOf: V -> Option<string>, proceed: Call -> Outcome<V>)
      returns (r: Result<Collection<V>, Failure>, calls: seq<Call>, pending: Option<Pending<V>>,
               ghost hits: Result<map<string, Stored<V>>, Failure>, ghost backfilled: Result<(), Failure>, ghost order: seq<string>)
      requires Valid()
      modifies Store()
      ensures Answers(old(RedisKeyspace()), old(MemcachedItems()), cacheable.prefix, ids, hits)
      ensures hits.Err? ==>
        r == Err(hits.error) && calls == [] && pending == None && OnlyRead(old(RedisKeyspace()), old(MemcachedItems()))
      ensures hits.Ok? && Misses(ids, hits.value.Keys) == [] ==>
        r == Resolve(kind, CachedValues(hits.value, ids)) && calls == [] && pending == None
        && OnlyRead(old(RedisKeyspace()), old(MemcachedItems()))
      ensures hits.Ok? && Misses(ids, hits.value.Keys) != [] && argKind == OtherKind ==>
        r == Err(UnsupportedType) && calls == [] && pending == None
        && OnlyRead(old(RedisKeyspace()), old(MemcachedItems()))
      ensures hits.Ok? && Misses(ids, hits.value.Keys) != [] && argKind != OtherKind ==>
        var cached := CachedValues(hits.value, ids);
        && calls == [WithIds(Reshape(argKind, Misses(ids, hits.value.Keys)).value)]
        && (proceed(calls[0]).Threw? ==>
              r == Err(LoaderThrew(proceed(calls[0]).message)) && pending == None
              && OnlyRead(old(RedisKeyspace()), old(MemcachedItems())))
        && (proceed(calls[0]).Returned? && cacheable.cacheAsync ==>
              var loaded := proceed(calls[0]).values;
              && pending == Some(Pending(loaded, cacheable.prefix, cacheable.cacheKeyField))
              && r == Joined(kind, cached, loaded)
              && OnlyRead(old(RedisKeyspace()), old(MemcachedItems())))
        && (proceed(calls[0]).Returned? && !cacheable.cacheAsync ==>
              var loaded := proceed(calls[0]).values;
              && pending == None
              && Backfilled(old(RedisKeyspace()), AfterRead(old(MemcachedItems())), RedisKeyspace(), MemcachedItems(),
                            loaded, cacheable.prefix, cacheable.cacheKeyField, keyOf, order, backfilled)
              && r == (if backfilled.Err? then Err(backfilled.error) else Joined(kind, cached, loaded)))
    {
      calls, pending, backfilled, order := [], None, Ok(()), [];
      var cacheData := MGet(cacheable.prefix, ids);
      hits := cacheData;
      if cacheData.Err? {
        return Err(cacheData.error), calls, pending, hits, backfilled, order;
      }
      var cachedKeys := cacheData.value.Keys;
      var noCacheKeys := Misses(ids, cachedKeys);
      var cachedValues := CachedValues(cacheData.value, ids);
      if noCacheKeys == [] {
        return Resolve(kind, cachedValues), calls, pending, hits, backfilled, order;
      }
      var missed := Reshape(argKind, noCacheKeys);
      if missed.Err? {
        return Err(missed.error), calls, pending, hits, backfilled, order;
      }
      calls := [WithIds(missed.value)];
      var outcome := proceed(calls[0]);
      if outcome.Threw? {
        return Err(LoaderThrew(outcome.message)), calls, pending, hits, backfilled, order;
      }
      var noCachedValues := outcome.values;
      if cacheable.cacheAsync {
        pending := Some(Pending(noCachedValues, cacheable.prefix, cacheable.cacheKeyField));
      } else {
        var added;
        added, order := AddCache(noCachedValues, cacheable.prefix, cacheable.cacheKeyField, keyOf);
        backfilled := added;
        if added.Err? {
          return Err(added.error), calls, pending, hits, backfilled, order;
        }
      }
      r := Join(cachedValues, noCachedValues, kind);
    }

    /**
     * `around`: the method called as it was called when the advice is
     * bypassed or the cache path fails (`processed`'s error), and
     * otherwise the collection the cache path built. A batch whose ids the
     * cache answers in full never reaches the method, and otherwise the
     * method first sees only the missed ids. The store is as `doProcess`
     * left it, and a write-back handed to the executor stays scheduled
     * even when the join that follows it fails.
     */
    method Around(returnType: ReturnType, args: seq<ArgValue>, cacheable: BatchCacheable,
                  keyOf: V -> Option<string>, proceed: Call -> Outcome<V>)
      returns (answer: Answer<V>, calls: seq<Call>, pending: Option<Pending<V>>,
               ghost processed: Result<Collection<V>, Failure>, ghost hits: Result<map<string, Stored<V>>, Failure>,
               ghost backfilled: Result<(), Failure>, ghost order: seq<string>)
      requires Valid()
      modifies Store()
      ensures Bypassed(returnType, args) ==>
        answer == Proceeded(proceed(Original)) && calls == [Original] && pending == None
        && RedisKeyspace() == old(RedisKeyspace()) && MemcachedItems() == old(MemcachedItems())
      ensures !Bypassed(returnType, args) ==>
        var ids := Ids(args[0].elements);
        && Answers(old(RedisKeyspace()), old(MemcachedItems()), cacheable.prefix, ids, hits)
        && (processed.Ok? ==> answer == Assembled(processed.value) && Original !in calls && |calls| <= 1)
        && (processed.Err? ==>
              answer == Proceeded(proceed(Original))
              && 0 < |calls| <= 2 && calls[|calls| - 1] == Original && Original !in calls[..|calls| - 1])
        && (hits.Err? ==> processed == Err(hits.error) && calls == [Original])
        && (hits.Ok? && Misses(ids, hits.value.Keys) == [] ==>
              processed == Resolve(returnType.kind, CachedValues(hits.value, ids))
              && (returnType.kind != OtherKind ==> calls == []))
        && (!(hits.Ok? && Misses(ids, hits.value.Keys) != [] && args[0].kind != OtherKind) ==>
              pending == None && OnlyRead(old(RedisKeyspace()), old(MemcachedItems())))
        && (hits.Ok? && Misses(ids, hits.value.Keys) != [] && args[0].kind != OtherKind ==>
              var call := WithIds(Reshape(args[0].kind, Misses(ids, hits.value.Keys)).value);
              var cached := CachedValues(hits.value, ids);
              && calls != [] && calls[0] == call
              && (proceed(call).Threw? ==>
                    processed == Err(LoaderThrew(proceed(call).message)) && pending == None
                    && OnlyRead(old(RedisKeyspace()), old(MemcachedItems())))
              && (proceed(call).Returned? && cacheable.cacheAsync ==>
                    processed == Joined(returnType.kind, cached, proceed(call).values)
                    && pending == Some(Pending(proceed(call).values, cacheable.prefix, cacheable.cacheKeyField))
                    && OnlyRead(old(RedisKeyspace()), old(MemcachedItems())))
              && (proceed(call).Returned? && !cacheable.cacheAsync ==>
                    && pending == None
                    && Backfilled(old(RedisKeyspace()), AfterRead(old(MemcachedItems())), RedisKeyspace(), MemcachedItems(),
                                  proceed(call).values, cacheable.prefix, cacheable.cacheKeyField, keyOf, order, backfilled)
                    && processed == (if backfilled.Err? then Err(backfilled.error)
                                     else Joined(returnType.kind, cached, proceed(call).values))))
    {
      if returnType.NotCollection? || args == [] || !args[0].Coll? {
        return Proceeded(proceed(Original)), [Original], None, Err(UnsupportedType), Ok(map[]), Ok(()), [];
      }
      var keyCollection := CollectIds(args[0].elements);
      if keyCollection == [] {
        return Proceeded(proceed(Original)), [Original], None, Err(UnsupportedType), Ok(map[]), Ok(()), [];
      }
      var r;
      r, calls, pending, hits, backfilled, order := DoProcess(cacheable, returnType.kind, args[0].kind, keyCollection, keyOf, proceed);
      processed := r;
      if r.Err? {
        // the executor may already hold the write-back: `pending` is kept
        return Proceeded(proceed(Original)), calls + [Original], pending, processed, hits, backfilled, order;
      }
      answer := Assembled(r.value);
    }
  }
}
