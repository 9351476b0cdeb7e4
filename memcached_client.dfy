/**
 * The part of the xmemcached `MemcachedClient` the Memcached cache uses,
 * over one store of items: `get`, `set`, `delete`, `incr` with an initial
 * value, and multi-key `get`. A counter is an item of its own kind, as
 * `incr` creates it; its count wraps at 2^64 like Memcached's.
 */
module MemcachedClients {
  import opened Wrappers
  import opened CacheValues

  const CounterModulus: int := 0x1_0000_0000_0000_0000

  /** What the client throws for a `set` whose expiry is negative. */
  const NegativeExptime := IllegalArgument("Expire time must be greater than or equal to 0")

  /** An item: a stored value with the expiry it was set with, or a counter. */
  datatype MemItem<V> = Data(value: Stored<V>, exptime: int) | Counter(count: nat)

  /** What a read hands back as a cached value: a data item's value; a counter is not one. */
  function Payload<V>(item: MemItem<V>): (r: Option<Stored<V>>)
    ensures r.Some? <==> item.Data?
    ensures r.Some? ==> r.value == item.value
  {
    match item
    case Data(v, _) => Some(v)
    case Counter(_) => None
  }

  /** A counter after `incr` by `delta`, modulo 2^64. */
  function Incremented(count: nat, delta: nat): (r: nat)
    ensures r < CounterModulus
    ensures count + delta < CounterModulus ==> r == count + delta
  {
    (count + delta) % CounterModulus
  }

  /** The store after `incr(key, delta, initValue)`: a new counter at `initValue`, or the counter moved on. */
  function IncrIn<V>(items: map<string, MemItem<V>>, key: string, delta: nat, initValue: nat): map<string, MemItem<V>>
  {
    if key !in items then items[key := Counter(initValue)]
    else
      match items[key]
      case Counter(n) => items[key := Counter(Incremented(n, delta))]
      case Data(_, _) => items
  }

  /** The values `get(keys)` finds: every listed key that holds a data item. */
  function Found<V>(items: map<string, MemItem<V>>, keys: seq<string>): (r: map<string, Stored<V>>)
    ensures forall k :: k in r <==> k in keys && k in items && items[k].Data?
    ensures forall k :: k in r ==> r[k] == items[k].value
  {
    map k | k in keys && k in items && items[k].Data? :: items[k].value
  }

  class MemcachedClient<V> {
    var items: map<string, MemItem<V>>

    constructor(initial: map<string, MemItem<V>>)
      ensures items == initial
    {
      items := initial;
    }

    /** `get(key)`: the item under `key`, or null. */
    method Get(key: string) returns (r: Option<MemItem<V>>)
      ensures r.Some? <==> key in items
      ensures r.Some? ==> r.value == items[key]
    {
      if key in items {
        return Some(items[key]);
      }
      return None;
    }

    /**
     * `set(key, exp, value)`: an unconditional write. The client checks
     * its arguments first and refuses a negative expiry, sending nothing.
     */
    method Set(key: string, exptime: int, value: Stored<V>) returns (r: Result<(), CacheError>)
      modifies this
      ensures exptime < 0 ==> r == Err(NegativeExptime) && items == old(items)
      ensures exptime >= 0 ==> r == Ok(()) && items == old(items)[key := Data(value, exptime)]
    {
      if exptime < 0 {
        return Err(NegativeExptime);
      }
      items := items[key := Data(value, exptime)];
      return Ok(());
    }

    /** `delete(key)`: the one key removed. */
    method Delete(key: string)
      modifies this
      ensures items == old(items) - {key}
    {
      items := items - {key};
    }

    /**
     * `incr(key, delta, initValue, timeout, exp)`: a missing key becomes a
     * counter at `initValue`, which is returned; a counter moves on by
     * `delta` and its new count is returned; a non-numeric item is a
     * client error and stays as it is.
     */
    method Incr(key: string, delta: nat, initValue: nat) returns (r: Result<nat, CacheError>)
      modifies this
      ensures items == IncrIn(old(items), key, delta, initValue)
      ensures key !in old(items) ==> r == Ok(initValue)
      ensures key in old(items) && old(items)[key].Counter? ==> r == Ok(Incremented(old(items)[key].count, delta))
      ensures key in old(items) && old(items)[key].Data? ==> r.Err? && r.error.StoreFailure?
    {
      if key !in items {
        items := items[key := Counter(initValue)];
        return Ok(initValue);
      }
      match items[key]
      case Counter(n) =>
        items := items[key := Counter(Incremented(n, delta))];
        return Ok(Incremented(n, delta));
      case Data(_, _) =>
        return Err(StoreFailure("CLIENT_ERROR cannot increment or decrement non-numeric value"));
    }

    /** `get(keys)`: the found keys and their values. */
    method GetMulti(keys: seq<string>) returns (r: map<string, Stored<V>>)
      ensures r == Found(items, keys)
    {
      r := Found(items, keys);
    }
  }

  /** `incr` on a counter moves just that counter on. */
  lemma IncrCounter<V>(items: map<string, MemItem<V>>, key: string, delta: nat, initValue: nat)
    requires key in items && items[key].Counter?
    ensures IncrIn(items, key, delta, initValue) == items[key := Counter(Incremented(items[key].count, delta))]
  {
  }

  /** `incr` by zero, as the version initialisation uses it, never changes a counter. */
  lemma IncrByZeroKeeps<V>(items: map<string, MemItem<V>>, key: string, initValue: nat)
    requires key in items && items[key].Counter? && items[key].count < CounterModulus
    ensures IncrIn(items, key, 0, initValue) == items
  {
    assert items[key := Counter(items[key].count)] == items;
  }
}
