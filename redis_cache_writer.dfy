/**
 * `redis/DefaultRedisCacheWriter`: the Redis commands the Redis cache
 * issues, over a model of the Redis keyspace. Each entry records its
 * value and its time to live; no clock runs, so nothing expires on its
 * own.
 */
module RedisCacheWriters {
  import opened Wrappers
  import opened Utf8
  import opened Durations
  import Glob

  /** A Redis value: a string, or a hash of fields. */
  datatype RedisValue = Str(bytes: Bytes) | Hash(fields: map<Bytes, Bytes>)

  /** A key's value and its time to live in milliseconds (`None`: persistent). */
  datatype Entry = Entry(value: RedisValue, ttlMillis: Option<int>)

  type Keyspace = map<Bytes, Entry>

  /** The errors Redis answers with. */
  datatype RedisError =
    | WrongType          // a string command on a hash, or a hash command on a string
    | InvalidExpireTime  // `SET ... PX n` with n not positive

  /** `shouldExpireWithin`: a TTL is applied only when it is present and positive. */
  predicate ShouldExpireWithin(ttl: Option<Duration>) {
    ttl.Some? && !IsZero(ttl.value) && !IsNegative(ttl.value)
  }

  /** The zero default TTL, the "never expires" value and no TTL at all store without expiry. */
  lemma ExpiryRule(ttl: Option<Duration>)
    ensures ShouldExpireWithin(ttl) <==> ttl.Some? && ttl.value.nanos > 0
    ensures !ShouldExpireWithin(Some(Zero)) && !ShouldExpireWithin(Some(Forever)) && !ShouldExpireWithin(None)
  {
  }

  /**
   * `EXPIRE`/`PEXPIRE` with a timeout in milliseconds: a missing key is
   * left alone, a timeout that is not positive deletes the key, and any
   * other sets its time to live.
   */
  function Expire(ks: Keyspace, key: Bytes, millis: int): (r: Keyspace)
    ensures key !in ks ==> r == ks
    ensures key in ks && millis <= 0 ==> r == ks - {key}
    ensures key in ks && millis > 0 ==> r == ks[key := ks[key].(ttlMillis := Some(millis))]
  {
    if key !in ks then ks
    else if millis <= 0 then ks - {key}
    else ks[key := ks[key].(ttlMillis := Some(millis))]
  }

  /** `MSET`: each pair in turn, as a persistent string; a later pair for the same key wins. */
  function SetAll(ks: Keyspace, pairs: seq<(Bytes, Bytes)>): Keyspace
    decreases |pairs|
  {
    if pairs == [] then ks
    else
      var last := pairs[|pairs| - 1];
      SetAll(ks, pairs[..|pairs| - 1])[last.0 := Entry(Str(last.1), None)]
  }

  /** `EXPIRE` on the key of every pair, in order, with the same timeout. */
  function ExpireAll(ks: Keyspace, pairs: seq<(Bytes, Bytes)>, millis: int): Keyspace
    decreases |pairs|
  {
    if pairs == [] then ks
    else Expire(ExpireAll(ks, pairs[..|pairs| - 1], millis), pairs[|pairs| - 1].0, millis)
  }

  /** The keys the pairs name. */
  function Keys(pairs: seq<(Bytes, Bytes)>): set<Bytes> {
    set i | 0 <= i < |pairs| :: pairs[i].0
  }

  /** The value of the last pair for `key`. */
  function LastValue(pairs: seq<(Bytes, Bytes)>, key: Bytes): Bytes
    requires key in Keys(pairs)
    decreases |pairs|
  {
    var last := pairs[|pairs| - 1];
    if last.0 == key then last.1
    else
      assert key in Keys(pairs[..|pairs| - 1]) by {
        var i :| 0 <= i < |pairs| && pairs[i].0 == key;
        assert pairs[..|pairs| - 1][i].0 == key;
      }
      LastValue(pairs[..|pairs| - 1], key)
  }

  lemma KeysOfFront(pairs: seq<(Bytes, Bytes)>)
    requires pairs != []
    ensures Keys(pairs) == Keys(pairs[..|pairs| - 1]) + {pairs[|pairs| - 1].0}
  {
    var front := pairs[..|pairs| - 1];
    forall k | k in Keys(pairs)
      ensures k in Keys(front) + {pairs[|pairs| - 1].0}
    {
      var i :| 0 <= i < |pairs| && pairs[i].0 == k;
      if i < |front| {
        assert front[i].0 == k;
      }
    }
    forall k | k in Keys(front)
      ensures k in Keys(pairs)
    {
      var i :| 0 <= i < |front| && front[i].0 == k;
      assert pairs[i].0 == k;
    }
  }

  /** After `MSET`, every named key holds its last value without expiry; every other key is untouched. */
  lemma {:induction false} SetAllEffect(ks: Keyspace, pairs: seq<(Bytes, Bytes)>)
    ensures forall k :: k in SetAll(ks, pairs) <==> k in ks || k in Keys(pairs)
    ensures forall k :: k in Keys(pairs) ==> SetAll(ks, pairs)[k] == Entry(Str(LastValue(pairs, k)), None)
    ensures forall k :: k in ks && k !in Keys(pairs) ==> SetAll(ks, pairs)[k] == ks[k]
    decreases |pairs|
  {
    if pairs != [] {
      SetAllEffect(ks, pairs[..|pairs| - 1]);
      KeysOfFront(pairs);
    }
  }

  /**
   * After `EXPIRE` on keys that all hold entries: with a positive timeout
   * every one of them has that time to live, with any other timeout they
   * are all gone; other keys are untouched.
   */
  lemma {:induction false} ExpireAllEffect(ks: Keyspace, pairs: seq<(Bytes, Bytes)>, millis: int)
    requires Keys(pairs) <= ks.Keys
    ensures millis > 0 ==> ExpireAll(ks, pairs, millis).Keys == ks.Keys
    ensures millis > 0 ==> forall k :: k in Keys(pairs) ==>
      ExpireAll(ks, pairs, millis)[k] == ks[k].(ttlMillis := Some(millis))
    ensures millis <= 0 ==> ExpireAll(ks, pairs, millis).Keys == ks.Keys - Keys(pairs)
    ensures forall k :: k in ks && k !in Keys(pairs) ==> ExpireAll(ks, pairs, millis)[k] == ks[k]
    decreases |pairs|
  {
    if pairs != [] {
      KeysOfFront(pairs);
      ExpireAllEffect(ks, pairs[..|pairs| - 1], millis);
    }
  }

  /** A hash with the given fields set, later pairs winning. */
  function SetFields(fields: map<Bytes, Bytes>, pairs: seq<(Bytes, Bytes)>): map<Bytes, Bytes>
    decreases |pairs|
  {
    if pairs == [] then fields
    else
      var last := pairs[|pairs| - 1];
      SetFields(fields, pairs[..|pairs| - 1])[last.0 := last.1]
  }

  /** The time to live `put` gives a value. */
  function PutExpiry(ttl: Option<Duration>): Option<int> {
    if ShouldExpireWithin(ttl) then Some(ToMillis(ttl.value)) else None
  }

  class DefaultRedisCacheWriter {
    /** The keyspace of the Redis server every connection of the factory reaches. */
    var keyspace: Keyspace

    constructor(initial: Keyspace)
      ensures keyspace == initial
    {
      keyspace := initial;
    }

    /**
     * `put`: an unconditional write. With an expiring TTL the value is set
     * with that many milliseconds to live, which Redis refuses when they
     * round down to zero; otherwise it is set with no expiry.
     */
    method Put(key: Bytes, value: Bytes, ttl: Option<Duration>) returns (r: Result<(), RedisError>)
      modifies this
      ensures ShouldExpireWithin(ttl) && ToMillis(ttl.value) == 0 ==>
        r == Err(InvalidExpireTime) && keyspace == old(keyspace)
      ensures !(ShouldExpireWithin(ttl) && ToMillis(ttl.value) == 0) ==>
        r.Ok? && keyspace == old(keyspace)[key := Entry(Str(value), PutExpiry(ttl))]
    {
      if ShouldExpireWithin(ttl) {
        var millis := ToMillis(ttl.value);
        if millis <= 0 {
          return Err(InvalidExpireTime);
        }
        keyspace := keyspace[key := Entry(Str(value), Some(millis))];
      } else {
        keyspace := keyspace[key := Entry(Str(value), None)];
      }
      return Ok(());
    }

    /** `get`: the stored bytes, null for a missing key; a hash is the wrong type. */
    method Get(key: Bytes) returns (r: Result<Option<Bytes>, RedisError>)
      ensures key !in keyspace ==> r == Ok(None)
      ensures key in keyspace && keyspace[key].value.Str? ==> r == Ok(Some(keyspace[key].value.bytes))
      ensures key in keyspace && keyspace[key].value.Hash? ==> r == Err(WrongType)
    {
      if key !in keyspace {
        return Ok(None);
      }
      match keyspace[key].value
      case Str(bytes) => return Ok(Some(bytes));
      case Hash(_) => return Err(WrongType);
    }

    /**
     * `putIfAbsent`: `SETNX`, then on success `PEXPIRE` with the TTL when it
     * expires, answering null; on a present key, nothing is written and the
     * present value is read back.
     */
    method PutIfAbsent(key: Bytes, value: Bytes, ttl: Option<Duration>) returns (r: Result<Option<Bytes>, RedisError>)
      modifies this
      ensures old(key !in keyspace) ==> r == Ok(None)
      ensures old(key !in keyspace) && !ShouldExpireWithin(ttl) ==>
        keyspace == old(keyspace)[key := Entry(Str(value), None)]
      ensures old(key !in keyspace) && ShouldExpireWithin(ttl) ==>
        keyspace == Expire(old(keyspace)[key := Entry(Str(value), None)], key, ToMillis(ttl.value))
      ensures old(key in keyspace) ==> keyspace == old(keyspace)
      ensures old(key in keyspace) && old(keyspace[key].value.Str?) ==> r == Ok(Some(old(keyspace[key].value.bytes)))
      ensures old(key in keyspace) && old(keyspace[key].value.Hash?) ==> r == Err(WrongType)
    {
      if key !in keyspace {
        keyspace := keyspace[key := Entry(Str(value), None)];
        if ShouldExpireWithin(ttl) {
          keyspace := Expire(keyspace, key, ToMillis(ttl.value));
        }
        return Ok(None);
      }
      r := Get(key);
    }

    /** `remove`: `DEL` of exactly that key. */
    method Remove(key: Bytes)
      modifies this
      ensures keyspace == old(keyspace) - {key}
    {
      keyspace := keyspace - {key};
    }

    /** `clean`: `KEYS pattern`, then one `DEL` of all of them when there are any. */
    method Clean(pattern: Bytes)
      modifies this
      ensures keyspace.Keys == set k | k in old(keyspace) && !Glob.Match(pattern, k)
      ensures forall k :: k in keyspace ==> keyspace[k] == old(keyspace)[k]
    {
      var keys := set k | k in keyspace && Glob.Match(pattern, k);
      if |keys| > 0 {
        keyspace := map k | k in keyspace && k !in keys :: keyspace[k];
      } else {
        forall k | k in keyspace
          ensures !Glob.Match(pattern, k)
        {
          assert k !in keys;
        }
      }
    }

    /**
     * `mSet`: one `MSET` of every pair, then, with an expiring TTL, an
     * `EXPIRE` of every key by `ttl.toMillis() / 1000` whole seconds.
     */
    method MSet(pairs: seq<(Bytes, Bytes)>, ttl: Option<Duration>)
      modifies this
      ensures !ShouldExpireWithin(ttl) ==> keyspace == SetAll(old(keyspace), pairs)
      ensures ShouldExpireWithin(ttl) ==>
        keyspace == ExpireAll(SetAll(old(keyspace), pairs), pairs, 1000 * (ToMillis(ttl.value) / 1000))
    {
      keyspace := SetAll(keyspace, pairs);
      if ShouldExpireWithin(ttl) {
        ghost var written := keyspace;
        var seconds := ToMillis(ttl.value) / 1000;
        var i := 0;
        while i < |pairs|
          invariant 0 <= i <= |pairs|
          invariant keyspace == ExpireAll(written, pairs[..i], 1000 * seconds)
        {
          assert pairs[..i + 1][..i] == pairs[..i];
          keyspace := Expire(keyspace, pairs[i].0, 1000 * seconds);
          i := i + 1;
        }
        assert pairs[..i] == pairs;
      }
    }

    /**
     * The `mSet` the expiry evidently intends: each key lives for the TTL in
     * milliseconds, as `put` and `putIfAbsent` apply it.
     */
    method MSetMillis(pairs: seq<(Bytes, Bytes)>, ttl: Option<Duration>)
      modifies this
      ensures !ShouldExpireWithin(ttl) ==> keyspace == SetAll(old(keyspace), pairs)
      ensures ShouldExpireWithin(ttl) ==>
        keyspace == ExpireAll(SetAll(old(keyspace), pairs), pairs, ToMillis(ttl.value))
    {
      keyspace := SetAll(keyspace, pairs);
      if ShouldExpireWithin(ttl) {
        ghost var written := keyspace;
        var millis := ToMillis(ttl.value);
        var i := 0;
        while i < |pairs|
          invariant 0 <= i <= |pairs|
          invariant keyspace == ExpireAll(written, pairs[..i], millis)
        {
          assert pairs[..i + 1][..i] == pairs[..i];
          keyspace := Expire(keyspace, pairs[i].0, millis);
          i := i + 1;
        }
        assert pairs[..i] == pairs;
      }
    }

    /**
     * `hmSet`: `HMSET` of the fields into the hash at `key` (a string there
     * is the wrong type), then, with an expiring TTL, `EXPIRE` by whole
     * seconds. `HMSET` keeps the key's existing time to live.
     */
    method HmSet(key: Bytes, hashes: seq<(Bytes, Bytes)>, ttl: Option<Duration>) returns (r: Result<(), RedisError>)
      modifies this
      ensures old(key in keyspace && keyspace[key].value.Str?) ==> r == Err(WrongType) && keyspace == old(keyspace)
      ensures old(key !in keyspace || keyspace[key].value.Hash?) ==> r.Ok?
      ensures old(key !in keyspace || keyspace[key].value.Hash?) ==>
        var fields := if old(key in keyspace) then old(keyspace[key].value.fields) else map[];
        var ttlMillis := if old(key in keyspace) then old(keyspace[key].ttlMillis) else None;
        var written := old(keyspace)[key := Entry(Hash(SetFields(fields, hashes)), ttlMillis)];
        keyspace == if ShouldExpireWithin(ttl) then Expire(written, key, 1000 * (ToMillis(ttl.value) / 1000)) else written
    {
      var fields: map<Bytes, Bytes> := map[];
      var ttlMillis: Option<int> := None;
      if key in keyspace {
        match keyspace[key].value
        case Str(_) => return Err(WrongType);
        case Hash(f) =>
          fields := f;
          ttlMillis := keyspace[key].ttlMillis;
      }
      keyspace := keyspace[key := Entry(Hash(SetFields(fields, hashes)), ttlMillis)];
      if ShouldExpireWithin(ttl) {
        keyspace := Expire(keyspace, key, 1000 * (ToMillis(ttl.value) / 1000));
      }
      return Ok(());
    }
  }

  /** The keyspace `mSet` leaves behind, for its expiry in whole seconds. */
  function MSetResult(ks: Keyspace, pairs: seq<(Bytes, Bytes)>, ttl: Option<Duration>): Keyspace {
    if ShouldExpireWithin(ttl) then ExpireAll(SetAll(ks, pairs), pairs, 1000 * (ToMillis(ttl.value) / 1000))
    else SetAll(ks, pairs)
  }

  /**
   * `mSet` with a TTL of at least one second: every pair's key holds its
   * last value and lives for the TTL rounded down to whole seconds;
   * without an expiring TTL the keys are persistent.
   */
  lemma MSetStores(ks: Keyspace, pairs: seq<(Bytes, Bytes)>, ttl: Option<Duration>)
    requires !ShouldExpireWithin(ttl) || ToMillis(ttl.value) >= 1000
    ensures MSetResult(ks, pairs, ttl).Keys == ks.Keys + Keys(pairs)
    ensures forall k :: k in Keys(pairs) ==>
      MSetResult(ks, pairs, ttl)[k] == Entry(Str(LastValue(pairs, k)),
        if ShouldExpireWithin(ttl) then Some(1000 * (ToMillis(ttl.value) / 1000)) else None)
    ensures forall k :: k in ks && k !in Keys(pairs) ==> MSetResult(ks, pairs, ttl)[k] == ks[k]
  {
    SetAllEffect(ks, pairs);
    if ShouldExpireWithin(ttl) {
      ExpireAllEffect(SetAll(ks, pairs), pairs, 1000 * (ToMillis(ttl.value) / 1000));
    }
  }

  /**
   * `mSet` with an expiring TTL under one second (500 ms, say) issues
   * `EXPIRE key 0`, so every key it has just written is gone.
   */
  lemma SubSecondMSetDeletes(ks: Keyspace, pairs: seq<(Bytes, Bytes)>, ttl: Option<Duration>)
    requires ShouldExpireWithin(ttl) && ToMillis(ttl.value) < 1000
    ensures MSetResult(ks, pairs, ttl).Keys == ks.Keys - Keys(pairs)
  {
    SetAllEffect(ks, pairs);
    ExpireAllEffect(SetAll(ks, pairs), pairs, 1000 * (ToMillis(ttl.value) / 1000));
  }

  /** The same for the concrete TTL of 500 milliseconds and one pair. */
  lemma HalfSecondExample(ks: Keyspace, key: Bytes, value: Bytes)
    ensures key !in MSetResult(ks, [(key, value)], Some(OfMillis(500)))
  {
    assert [(key, value)][0].0 == key;
    SubSecondMSetDeletes(ks, [(key, value)], Some(OfMillis(500)));
  }

  /** The keyspace the intended `mSet` leaves behind. */
  function MSetMillisResult(ks: Keyspace, pairs: seq<(Bytes, Bytes)>, ttl: Option<Duration>): Keyspace {
    if ShouldExpireWithin(ttl) then ExpireAll(SetAll(ks, pairs), pairs, ToMillis(ttl.value))
    else SetAll(ks, pairs)
  }

  /**
   * The intended `mSet` keeps every key it writes, with the TTL's
   * milliseconds to live, whenever the TTL is at least one millisecond.
   */
  lemma MSetMillisStores(ks: Keyspace, pairs: seq<(Bytes, Bytes)>, ttl: Option<Duration>)
    requires !ShouldExpireWithin(ttl) || ToMillis(ttl.value) >= 1
    ensures MSetMillisResult(ks, pairs, ttl).Keys == ks.Keys + Keys(pairs)
    ensures forall k :: k in Keys(pairs) ==>
      MSetMillisResult(ks, pairs, ttl)[k] == Entry(Str(LastValue(pairs, k)), PutExpiry(ttl))
    ensures forall k :: k in ks && k !in Keys(pairs) ==> MSetMillisResult(ks, pairs, ttl)[k] == ks[k]
  {
    SetAllEffect(ks, pairs);
    if ShouldExpireWithin(ttl) {
      ExpireAllEffect(SetAll(ks, pairs), pairs, ToMillis(ttl.value));
    }
  }
}
