# clustercache in Dafny

A model of the core of *clustercache*, a Spring Boot cache library with two
backends, Redis and Memcached, and proofs about that model. The library
gives Spring's cache abstraction:

- a storage-key layout, `{prefix}{sep}{name}{sep}{version}{sep}{key}`, built by `FinallyKeyGenerator`;
- per-cache expiry hints (`@CacheExpire`, read by `TimeUtil.simpleParse`);
- a Redis cache over a raw Redis writer;
- a Memcached cache whose `clear` moves a version counter on instead of deleting entries;
- two cache managers that build one cache per configured name;
- a `@BatchCacheable` advice that serves a batch of ids from the cache and sends only the misses to the intercepted method.

It also models a string-valued tool template over either backend.

The Redis keyspace and the Memcached server are values held by the writer
and the client objects. The classes that the library updates in place are
Dafny classes with `modifies` clauses:

- caches, writers and clients;
- managers;
- configurations with chained setters;
- the advice.

The parsers, the key generator and the data transformations are functions.
Each stateful method is specified by functions on the old state, and the
properties are proved about those functions.

Three places where the code and its written description differ; the model follows the code:

- The key generator is described as removing a trailing separator. The code cuts one character when the text ends with the separator, so a multi-character separator leaves all but its last character behind (`KeyGenerators.FinishEmptyTail`).
- The batch paths of the two backends treat a cached null differently:
  - Redis `mGet` calls `get(key, Object.class)`, which answers null for a cached null, so the id counts as a miss.
  - Memcached `mGet` hands back `NullValue` itself. `resolve` and `join` then filter it out, so the id counts as a hit with no value.
- The "-" expiry hint is described as "no expiry". The Memcached cache sends its seconds, -1, as the expiry, and the client refuses a negative expiry, so every `put` fails (`MemCaches.NeverExpiringHintRefused`). The Redis cache writes such an entry without an expiry.

## Model

| member | source | states |
|---|---|---|
| TimeUtil.SimpleParse | clustercache-spring-boot-autoconfigure/src/main/java/com/antelope/clustercache/autoconfigure/util/TimeUtil.java:14-17 | any text starting with '-' is the never-expires value of -1 ms, whatever follows |
| TimeUtil.BySuffix | clustercache-spring-boot-autoconfigure/src/main/java/com/antelope/clustercache/autoconfigure/util/TimeUtil.java:18-37 | a text with none of the six suffixes fails with `DateTimeParseException` carrying the text as given |
| TimeUtil.Magnitude | clustercache-spring-boot-autoconfigure/src/main/java/com/antelope/clustercache/autoconfigure/util/TimeUtil.java:40-42 | the magnitude is the long value (ASCII digits) of the text without its suffix; otherwise `NumberFormatException` names exactly that remainder |
| TimeUtil.WithUnit | clustercache-spring-boot-autoconfigure/src/main/java/com/antelope/clustercache/autoconfigure/util/TimeUtil.java:19-36 | a text with a known suffix can fail only as a number |
| TimeUtil.UnknownSuffix | clustercache-spring-boot-autoconfigure/src/main/java/com/antelope/clustercache/autoconfigure/util/TimeUtil.java:14-37 | rejected as an unknown duration iff the text does not start with '-' and its lower-cased form ends in none of s, m, h, d; the exception carries the original text |
| TimeUtil.ParsesDecimalWithUnit | clustercache-spring-boot-autoconfigure/src/main/java/com/antelope/clustercache/autoconfigure/util/TimeUtil.java:18-36 | a decimal magnitude followed by any unit suffix, in any letter case, is that many of the unit ("ms" and "ns" are checked before "s" and "m") |
| TimeUtil.CaseInsensitive | clustercache-spring-boot-autoconfigure/src/main/java/com/antelope/clustercache/autoconfigure/util/TimeUtil.java:18 | a text and its lower-cased form are accepted together and parse to the same duration |
| TimeUtil.AcceptedExamples | clustercache-spring-boot-autoconfigure/src/main/java/com/antelope/clustercache/autoconfigure/util/TimeUtil.java:28-29 | "10m" is 600 seconds |
| TimeUtil.DaysExample | clustercache-spring-boot-autoconfigure/src/main/java/com/antelope/clustercache/autoconfigure/util/TimeUtil.java:34-35 | "2d" is 48 hours |
| TimeUtil.UpperCaseExample | clustercache-spring-boot-autoconfigure/src/main/java/com/antelope/clustercache/autoconfigure/util/TimeUtil.java:22-23 | "10MS" is 10 milliseconds, not a failed "10m" |
| TimeUtil.NumberFormatExamples | clustercache-spring-boot-autoconfigure/src/main/java/com/antelope/clustercache/autoconfigure/util/TimeUtil.java:40-42 | "s" and "xh" fail as numbers on "" and "x" |
| TimeUtil.DateTimeParseExamples | clustercache-spring-boot-autoconfigure/src/main/java/com/antelope/clustercache/autoconfigure/util/TimeUtil.java:37 | "" and "10x" fail as unknown durations carrying the input |
| LegacyRedisCacheManager.SimpleParse | clustercache-spring-boot-autoconfigure/src/main/java/com/antelope/clustercache/autoconfigure/RedisCacheManager.java:118-121 | the older parser also reads any text starting with '-' as -1 ms |
| LegacyRedisCacheManager.BySuffix | clustercache-spring-boot-autoconfigure/src/main/java/com/antelope/clustercache/autoconfigure/RedisCacheManager.java:122-143 | text shorter than two characters fails on `substring` with the negative end index before any suffix check |
| LegacyRedisCacheManager.AgreesWithTimeUtil | clustercache-spring-boot-autoconfigure/src/main/java/com/antelope/clustercache/autoconfigure/RedisCacheManager.java:118-144 | whenever the older parser accepts a text, `TimeUtil.simpleParse` accepts it with the same duration |
| LegacyRedisCacheManager.ShortInputsRejected | clustercache-spring-boot-autoconfigure/src/main/java/com/antelope/clustercache/autoconfigure/RedisCacheManager.java:122-123 | every text of at most two characters not starting with '-' is rejected |
| LegacyRedisCacheManager.SingleDigitUnitRejected | clustercache-spring-boot-autoconfigure/src/main/java/com/antelope/clustercache/autoconfigure/RedisCacheManager.java:123 | "5s", "9h" and every other single digit with a one-letter unit are rejected, although `TimeUtil` reads them as that many units |
| LegacyRedisCacheManager.NonBlankNamesMembers | clustercache-spring-boot-autoconfigure/src/main/java/com/antelope/clustercache/autoconfigure/RedisCacheManager.java:106-109 | the names `add` keeps are exactly the annotation's names that are neither null nor blank |
| LegacyRedisCacheManager.RedisCacheManager.constructor | clustercache-spring-boot-autoconfigure/src/main/java/com/antelope/clustercache/autoconfigure/RedisCacheManager.java:36 | the name-to-configuration table starts empty |
| LegacyRedisCacheManager.RedisCacheManager.Add | clustercache-spring-boot-autoconfigure/src/main/java/com/antelope/clustercache/autoconfigure/RedisCacheManager.java:105-116 | every non-blank name gets the parsed TTL, a later duplicate overwriting in place; an expiry that does not parse fails at the first kept name and stores nothing |
| KeyGenerators.KeyLayout | clustercache-spring-boot-autoconfigure/src/main/java/com/antelope/clustercache/autoconfigure/core/FinallyKeyGenerator.java:39-62 | when the key part is clean, the key is the prefix, name and version segments, each followed by the separator, then the key part, with only leading whitespace trimmed |
| KeyGenerators.HeadEndsWithSeparator | clustercache-spring-boot-autoconfigure/src/main/java/com/antelope/clustercache/autoconfigure/core/FinallyKeyGenerator.java:41-49 | every non-empty run of segments ends with the separator |
| KeyGenerators.FinishKeepsTail | clustercache-spring-boot-autoconfigure/src/main/java/com/antelope/clustercache/autoconfigure/core/FinallyKeyGenerator.java:57-61 | trimming and the separator cut leave a clean tail in place |
| KeyGenerators.FinishEmptyTail | clustercache-spring-boot-autoconfigure/src/main/java/com/antelope/clustercache/autoconfigure/core/FinallyKeyGenerator.java:57-60 | without a key part, exactly one character is cut, so a multi-character separator leaves all but its last character behind |
| KeyGenerators.EmptyKeyCutsOneCharacter | clustercache-spring-boot-autoconfigure/src/main/java/com/antelope/clustercache/autoconfigure/core/FinallyKeyGenerator.java:50-60 | with an empty key part, the result is the segment run minus its last character |
| KeyGenerators.DigestIsClean | clustercache-spring-boot-autoconfigure/src/main/java/com/antelope/clustercache/autoconfigure/core/FinallyKeyGenerator.java:54 | a digest neither starts nor ends with whitespace and ends in a hex digit |
| KeyGenerators.LongKeyIsDigest | clustercache-spring-boot-autoconfigure/src/main/java/com/antelope/clustercache/autoconfigure/core/FinallyKeyGenerator.java:51-56 | a key longer than 50 UTF-16 units is replaced by the 32 hex digits of the MD5 of its UTF-8 bytes |
| KeyGenerators.LengthCheckedBeforeSpaceRemoval | clustercache-spring-boot-autoconfigure/src/main/java/com/antelope/clustercache/autoconfigure/core/FinallyKeyGenerator.java:51-52 | the length check comes before spaces are removed: one space plus fifty letters is hashed |
| KeyGenerators.ShortKeyGenerated | clustercache-spring-boot-autoconfigure/src/main/java/com/antelope/clustercache/autoconfigure/core/FinallyKeyGenerator.java:50-52 | a short key free of whitespace is used as it is |
| KeyGenerators.TrailingSeparatorInKeyCollides | clustercache-spring-boot-autoconfigure/src/main/java/com/antelope/clustercache/autoconfigure/core/FinallyKeyGenerator.java:52-60 | a key ending in a one-character separator loses it, so "user:" and "user" share one storage key |
| KeyGenerators.VersionedShape | clustercache-spring-boot-autoconfigure/src/main/java/com/antelope/clustercache/autoconfigure/core/FinallyKeyGenerator.java:47-48 | a versioned key is the trimmed prefix and name segments followed by the version, which ends there |
| KeyGenerators.EqualKeysHaveEqualVersions | clustercache-spring-boot-autoconfigure/src/main/java/com/antelope/clustercache/autoconfigure/core/FinallyKeyGenerator.java:39-62 | two equal storage keys of one generator carry equal versions, whatever their keys |
| KeyGenerators.UnversionedShape | clustercache-spring-boot-autoconfigure/src/main/java/com/antelope/clustercache/autoconfigure/core/FinallyKeyGenerator.java:35-37 | the unversioned key of a clean name starting with a non-digit (the version counter's) has a non-digit right after the trimmed prefix and name segments |
| KeyGenerators.VersionedKeyIsNotUnversionedKey | clustercache-spring-boot-autoconfigure/src/main/java/com/antelope/clustercache/autoconfigure/core/FinallyKeyGenerator.java:35-62 | no versioned entry key equals the unversioned key of a name that starts with a non-digit |
| JavaText.TrimStart | clustercache-spring-boot-autoconfigure/src/main/java/com/antelope/clustercache/autoconfigure/core/FinallyKeyGenerator.java:57 | the leading half of `trim`: exactly the leading characters up to U+0020 are dropped |
| JavaText.TrimEnd | clustercache-spring-boot-autoconfigure/src/main/java/com/antelope/clustercache/autoconfigure/core/FinallyKeyGenerator.java:57 | the trailing half of `trim`: exactly the trailing characters up to U+0020 are dropped |
| JavaText.RemoveSpaces | clustercache-spring-boot-autoconfigure/src/main/java/com/antelope/clustercache/autoconfigure/core/FinallyKeyGenerator.java:52 | `replace(" ", "")` leaves no space and keeps every other character with its count (as multisets), and keeps a space-free key as it is |
| JavaText.RemoveSpacesConcat | clustercache-spring-boot-autoconfigure/src/main/java/com/antelope/clustercache/autoconfigure/core/FinallyKeyGenerator.java:52 | the removal works piece by piece, so the characters kept stay in their order |
| JavaText.Utf16Length | clustercache-spring-boot-autoconfigure/src/main/java/com/antelope/clustercache/autoconfigure/core/FinallyKeyGenerator.java:51 | `length()` counts UTF-16 units: between one and two per character |
| Md5.Md5Hex | clustercache-spring-boot-autoconfigure/src/main/java/com/antelope/clustercache/autoconfigure/core/FinallyKeyGenerator.java:54 | `md5DigestAsHex` is always 32 lower-case hex digits |
| Md5.Pad | clustercache-spring-boot-autoconfigure/src/main/java/com/antelope/clustercache/autoconfigure/core/FinallyKeyGenerator.java:54 | section 3.1 and 3.2 of RFC 1321: the padded message is a whole number of 64-byte blocks and starts with the message |
| Md5.Digest | clustercache-spring-boot-autoconfigure/src/main/java/com/antelope/clustercache/autoconfigure/core/FinallyKeyGenerator.java:54 | the MD5 digest is 16 bytes |
| Utf8.EncodeChar | clustercache-spring-boot-autoconfigure/src/main/java/com/antelope/clustercache/autoconfigure/core/FinallyKeyGenerator.java:54 | one to four bytes per character, one byte exactly for ASCII, and only bytes from 0x80 up in a multi-byte sequence |
| Utf8.EncodeAppend | clustercache-spring-boot-autoconfigure/src/main/java/com/antelope/clustercache/autoconfigure/core/FinallyKeyGenerator.java:54 | encoding distributes over concatenation |
| JavaText.Decimal | clustercache-spring-boot-autoconfigure/src/main/java/com/antelope/clustercache/autoconfigure/memcached/MemCache.java:74 | `Long.toString` of a non-negative count: a non-empty digit run without a leading zero |
| KeyGenerators.FinishDropsSeparator | clustercache-spring-boot-autoconfigure/src/main/java/com/antelope/clustercache/autoconfigure/core/FinallyKeyGenerator.java:52-60 | a clean key and the same key plus a one-character separator finish to the same text |
| Utf8.EncodeAscii | clustercache-spring-boot-autoconfigure/src/main/java/com/antelope/clustercache/autoconfigure/core/FinallyKeyGenerator.java:54 | `getBytes(UTF_8)` of ASCII text is byte for byte |
| JavaText.ToLower | clustercache-spring-boot-autoconfigure/src/main/java/com/antelope/clustercache/autoconfigure/util/TimeUtil.java:18 | each ASCII capital lowered and every other character kept, position by position (so the length is kept in this ASCII-only model) |
| JavaText.ParseDecimal | clustercache-spring-boot-autoconfigure/src/main/java/com/antelope/clustercache/autoconfigure/util/TimeUtil.java:41 | `Long.parseLong` reads back every non-negative long's decimal text |
| JavaText.ParseLong | clustercache-spring-boot-autoconfigure/src/main/java/com/antelope/clustercache/autoconfigure/util/TimeUtil.java:41 | `Long.parseLong` accepts only text starting with an ASCII digit or a sign, answers a 64-bit value, and its exception names the input |
| JavaText.BlankIffTrimEmpty | clustercache-spring-boot-autoconfigure/src/main/java/com/antelope/clustercache/autoconfigure/memcached/MemcacheCacheManager.java:69 | a name is blank exactly when `trim` leaves nothing of it |
| CacheValues.ConvertKey | clustercache-spring-boot-autoconfigure/src/main/java/com/antelope/clustercache/autoconfigure/core/AbstractValueAdaptingCache.java:49-61 | the conversion service's string when it has one, else the key's own `toString`, else `IllegalStateException`, exactly when neither exists |
| CacheValues.FromStoreValue | clustercache-spring-boot-autoconfigure/src/main/java/com/antelope/clustercache/autoconfigure/redis/RedisCache.java:78 | a cached null reads back as null, and anything else as its value |
| Durations.GetSeconds | clustercache-spring-boot-autoconfigure/src/main/java/com/antelope/clustercache/autoconfigure/memcached/MemCache.java:90 | `getSeconds` is the whole seconds, rounded down |
| Durations.ToMillis | clustercache-spring-boot-autoconfigure/src/main/java/com/antelope/clustercache/autoconfigure/redis/DefaultRedisCacheWriter.java:40 | `toMillis` is the whole milliseconds, rounded towards zero |
| Durations.ToInt32 | clustercache-spring-boot-autoconfigure/src/main/java/com/antelope/clustercache/autoconfigure/support/CacheToolTemplate.java:24 | the `(int)` cast stays within 32 bits, agrees with its input modulo 2^32 and keeps any value that fits |
| LinkedMaps.LinkedMap.Put | clustercache-spring-boot-autoconfigure/src/main/java/com/antelope/clustercache/autoconfigure/redis/RedisCacheManager.java:93 | `LinkedHashMap.put`: the new value under the key; a new key goes last and an existing key keeps its place |
| LinkedMaps.PutEachEntries | clustercache-spring-boot-autoconfigure/src/main/java/com/antelope/clustercache/autoconfigure/RedisCacheManager.java:106-114 | after putting several names with one value, they hold it and every other entry is unchanged |
| LinkedMaps.PutEachKeepsOrder | clustercache-spring-boot-autoconfigure/src/main/java/com/antelope/clustercache/autoconfigure/RedisCacheManager.java:114 | putting keeps the old insertion order as a prefix |
| RedisCacheWriters.ExpiryRule | clustercache-spring-boot-autoconfigure/src/main/java/com/antelope/clustercache/autoconfigure/redis/DefaultRedisCacheWriter.java:142-144 | a TTL applies iff it is present and positive, so the zero default, -1 ms and null store without expiry |
| RedisCacheWriters.Expire | clustercache-spring-boot-autoconfigure/src/main/java/com/antelope/clustercache/autoconfigure/redis/DefaultRedisCacheWriter.java:53 | `EXPIRE` leaves a missing key alone, deletes a key for a timeout that is not positive, and otherwise sets its time to live |
| RedisCacheWriters.SetAllEffect | clustercache-spring-boot-autoconfigure/src/main/java/com/antelope/clustercache/autoconfigure/redis/DefaultRedisCacheWriter.java:39 | after `MSET` every named key holds its last value without expiry and every other key is untouched |
| RedisCacheWriters.ExpireAllEffect | clustercache-spring-boot-autoconfigure/src/main/java/com/antelope/clustercache/autoconfigure/redis/DefaultRedisCacheWriter.java:40 | `EXPIRE` on keys that all hold entries gives each of them a positive timeout, or deletes them all for any other timeout, and touches no other key |
| RedisCacheWriters.DefaultRedisCacheWriter.constructor | clustercache-spring-boot-autoconfigure/src/main/java/com/antelope/clustercache/autoconfigure/redis/DefaultRedisCacheWriter.java:29-34 | the writer reaches the given keyspace |
| RedisCacheWriters.DefaultRedisCacheWriter.Put | clustercache-spring-boot-autoconfigure/src/main/java/com/antelope/clustercache/autoconfigure/redis/DefaultRedisCacheWriter.java:61-76 | an unconditional upsert, with the TTL in milliseconds when it expires and none otherwise; Redis refuses a TTL that rounds down to 0 ms |
| RedisCacheWriters.DefaultRedisCacheWriter.Get | clustercache-spring-boot-autoconfigure/src/main/java/com/antelope/clustercache/autoconfigure/redis/DefaultRedisCacheWriter.java:78-85 | the stored bytes, null for a missing key, an error for a hash |
| RedisCacheWriters.DefaultRedisCacheWriter.PutIfAbsent | clustercache-spring-boot-autoconfigure/src/main/java/com/antelope/clustercache/autoconfigure/redis/DefaultRedisCacheWriter.java:87-105 | an absent key is stored (expiry only for an expiring TTL) and null is answered; a present key is left as it is and its value answered |
| RedisCacheWriters.DefaultRedisCacheWriter.Remove | clustercache-spring-boot-autoconfigure/src/main/java/com/antelope/clustercache/autoconfigure/redis/DefaultRedisCacheWriter.java:107-114 | exactly that key is deleted |
| RedisCacheWriters.DefaultRedisCacheWriter.Clean | clustercache-spring-boot-autoconfigure/src/main/java/com/antelope/clustercache/autoconfigure/redis/DefaultRedisCacheWriter.java:116-130 | exactly the keys matching the pattern are deleted; the rest keep their entries |
| RedisCacheWriters.DefaultRedisCacheWriter.MSet | clustercache-spring-boot-autoconfigure/src/main/java/com/antelope/clustercache/autoconfigure/redis/DefaultRedisCacheWriter.java:36-46 | every pair written, then with an expiring TTL each key expired after `toMillis()/1000` whole seconds |
| RedisCacheWriters.DefaultRedisCacheWriter.MSetMillis | clustercache-spring-boot-autoconfigure/src/main/java/com/antelope/clustercache/autoconfigure/redis/DefaultRedisCacheWriter.java:36-46 | the intended `mSet`: each key expires after the TTL in milliseconds, as `put` applies it |
| RedisCacheWriters.DefaultRedisCacheWriter.HmSet | clustercache-spring-boot-autoconfigure/src/main/java/com/antelope/clustercache/autoconfigure/redis/DefaultRedisCacheWriter.java:48-59 | the fields merged into the hash at the key, which keeps its time to live, then expiry in whole seconds; a string there is the wrong type and nothing changes |
| RedisCacheWriters.MSetStores | clustercache-spring-boot-autoconfigure/src/main/java/com/antelope/clustercache/autoconfigure/redis/DefaultRedisCacheWriter.java:36-46 | with a TTL of at least one second, every written key holds its last value and lives for the TTL's whole seconds; no other key changes |
| RedisCacheWriters.SubSecondMSetDeletes | clustercache-spring-boot-autoconfigure/src/main/java/com/antelope/clustercache/autoconfigure/redis/DefaultRedisCacheWriter.java:40 | with an expiring TTL under one second, every key `mSet` writes is gone afterwards |
| RedisCacheWriters.HalfSecondExample | clustercache-spring-boot-autoconfigure/src/main/java/com/antelope/clustercache/autoconfigure/redis/DefaultRedisCacheWriter.java:40 | a 500 ms TTL leaves the written key missing |
| RedisCacheWriters.MSetMillisStores | clustercache-spring-boot-autoconfigure/src/main/java/com/antelope/clustercache/autoconfigure/redis/DefaultRedisCacheWriter.java:40 | the intended `mSet` keeps every key it writes, with the TTL's milliseconds to live |
| Glob.Match | clustercache-spring-boot-autoconfigure/src/main/java/com/antelope/clustercache/autoconfigure/redis/DefaultRedisCacheWriter.java:124 | `KEYS` matching: the empty key matches only the empty pattern |
| Glob.StarMatchesNonEmpty | clustercache-spring-boot-autoconfigure/src/main/java/com/antelope/clustercache/autoconfigure/redis/DefaultRedisCacheWriter.java:124 | the pattern `*` matches every non-empty key |
| Glob.PlainPrefixStar | clustercache-spring-boot-autoconfigure/src/main/java/com/antelope/clustercache/autoconfigure/redis/DefaultRedisCacheWriter.java:124 | a plain text followed by `*` matches exactly the keys starting with that text |
| RedisCaches.StarKeyPart | clustercache-spring-boot-autoconfigure/src/main/java/com/antelope/clustercache/autoconfigure/redis/RedisCache.java:89 | the key "*" contributes itself to the clear pattern |
| RedisCaches.ClearPatternShape | clustercache-spring-boot-autoconfigure/src/main/java/com/antelope/clustercache/autoconfigure/redis/RedisCache.java:88-91 | the clear pattern is the prefix and name segments, leading whitespace trimmed, followed by `*` |
| RedisCaches.ClearMatchesOwnPrefix | clustercache-spring-boot-autoconfigure/src/main/java/com/antelope/clustercache/autoconfigure/redis/RedisCache.java:88-91 | `clear` deletes exactly the keys starting with the cache's prefix and name segments |
| RedisCaches.ClearReachesStorageKey | clustercache-spring-boot-autoconfigure/src/main/java/com/antelope/clustercache/autoconfigure/redis/RedisCache.java:88-91 | every storage key the cache writes for a clean key is one that `clear` deletes |
| RedisCaches.StorageKeys | clustercache-spring-boot-autoconfigure/src/main/java/com/antelope/clustercache/autoconfigure/redis/RedisCache.java:125-131 | a key's storage key is its `generate(key)` with no version, as UTF-8 |
| RedisCaches.RedisCache.constructor | clustercache-spring-boot-autoconfigure/src/main/java/com/antelope/clustercache/autoconfigure/redis/RedisCache.java:29-35 | name, writer and configuration kept, null policy from the configuration, generator over its prefix, separator and the name |
| RedisCaches.RedisCache.GetName | clustercache-spring-boot-autoconfigure/src/main/java/com/antelope/clustercache/autoconfigure/redis/RedisCache.java:46-50 | answers the name given at construction |
| RedisCaches.RedisCache.PreProcessCacheValue | clustercache-spring-boot-autoconfigure/src/main/java/com/antelope/clustercache/autoconfigure/redis/RedisCache.java:93-101 | a value is kept; null becomes `NullValue` iff nulls are allowed |
| RedisCaches.RedisCache.SerializationRoundTrip | clustercache-spring-boot-autoconfigure/src/main/java/com/antelope/clustercache/autoconfigure/redis/RedisCache.java:107-123 | what is serialized deserializes to itself, a cached null included |
| RedisCaches.RedisCache.Lookup | clustercache-spring-boot-autoconfigure/src/main/java/com/antelope/clustercache/autoconfigure/redis/RedisCache.java:37-44 | null for a missing storage key, else the deserialized value; a key without a string form fails |
| RedisCaches.RedisCache.Get | clustercache-spring-boot-autoconfigure/src/main/java/com/antelope/clustercache/autoconfigure/redis/RedisCache.java:37-44 | `get(key)` wraps what `lookup` finds, with a cached null as null inside a wrapper and a miss as no wrapper |
| RedisCaches.RedisCache.Put | clustercache-spring-boot-autoconfigure/src/main/java/com/antelope/clustercache/autoconfigure/redis/RedisCache.java:58-65 | a null refused when nulls are not allowed, with nothing written; otherwise the value written under its storage key with the configuration's TTL |
| RedisCaches.RedisCache.PutIfAbsent | clustercache-spring-boot-autoconfigure/src/main/java/com/antelope/clustercache/autoconfigure/redis/RedisCache.java:67-79 | a refused null writes nothing and answers `get`; otherwise null when stored, else the value already there, which stays |
| RedisCaches.RedisCache.Evict | clustercache-spring-boot-autoconfigure/src/main/java/com/antelope/clustercache/autoconfigure/redis/RedisCache.java:82-85 | only the one storage key is removed |
| RedisCaches.RedisCache.Clear | clustercache-spring-boot-autoconfigure/src/main/java/com/antelope/clustercache/autoconfigure/redis/RedisCache.java:87-91 | every key matching the clear pattern removed; the rest untouched |
| RedisCaches.RedisCache.GetOrLoad | clustercache-spring-boot-autoconfigure/src/main/java/com/antelope/clustercache/autoconfigure/core/AbstractValueAdaptingCache.java:36-47 | a hit answers without the loader; a miss calls it once and puts its result, null included; a loader failure is `ValueRetrievalException` and nothing is put |
| RedisCaches.RedisCache.PutThenGet | clustercache-spring-boot-autoconfigure/src/main/java/com/antelope/clustercache/autoconfigure/redis/RedisCache.java:58-65 | what `put` writes, `get` reads back, a cached null as null in a wrapper |
| RedisCaches.RedisCache.MissIsNotCachedNull | clustercache-spring-boot-autoconfigure/src/main/java/com/antelope/clustercache/autoconfigure/redis/RedisCache.java:38-42 | a key never written is a miss, which differs from a cached null |
| MemcachedClients.Payload | clustercache-spring-boot-autoconfigure/src/main/java/com/antelope/clustercache/autoconfigure/memcached/MemCache.java:46 | a read finds a value only in a data item |
| MemcachedClients.Incremented | clustercache-spring-boot-autoconfigure/src/main/java/com/antelope/clustercache/autoconfigure/memcached/MemCache.java:108 | a counter wraps at 2^64 and otherwise adds the delta |
| MemcachedClients.Found | clustercache-spring-boot-autoconfigure/src/main/java/com/antelope/clustercache/autoconfigure/aspect/processor/MemcachedBatchCacheableProcessor.java:40 | the multi-get finds exactly the listed keys that hold data, with their values |
| MemcachedClients.MemcachedClient.Get | clustercache-spring-boot-autoconfigure/src/main/java/com/antelope/clustercache/autoconfigure/memcached/MemCache.java:46 | the item under the key, or null |
| MemcachedClients.MemcachedClient.Set | clustercache-spring-boot-autoconfigure/src/main/java/com/antelope/clustercache/autoconfigure/memcached/MemCache.java:90 | a negative expiry refused with `IllegalArgumentException` and nothing written; otherwise an unconditional write with its expiry |
| MemcachedClients.MemcachedClient.Delete | clustercache-spring-boot-autoconfigure/src/main/java/com/antelope/clustercache/autoconfigure/memcached/MemCache.java:102 | only that key removed |
| MemcachedClients.MemcachedClient.Incr | clustercache-spring-boot-autoconfigure/src/main/java/com/antelope/clustercache/autoconfigure/memcached/MemCache.java:72 | a missing key becomes a counter at the initial value; a counter moves on; a data item is an error and stays |
| MemcachedClients.MemcachedClient.GetMulti | clustercache-spring-boot-autoconfigure/src/main/java/com/antelope/clustercache/autoconfigure/aspect/processor/MemcachedBatchCacheableProcessor.java:40 | the multi-get answer is `Found` of the keys |
| MemcachedClients.IncrCounter | clustercache-spring-boot-autoconfigure/src/main/java/com/antelope/clustercache/autoconfigure/memcached/MemCache.java:108 | `incr` moves just that counter on |
| MemcachedClients.IncrByZeroKeeps | clustercache-spring-boot-autoconfigure/src/main/java/com/antelope/clustercache/autoconfigure/memcached/MemCache.java:72 | `incr` by zero never changes an existing counter |
| MemCaches.VersionText | clustercache-spring-boot-autoconfigure/src/main/java/com/antelope/clustercache/autoconfigure/memcached/MemCache.java:74 | the version text of a counter is a digit run |
| MemCaches.DataKeys | clustercache-spring-boot-autoconfigure/src/main/java/com/antelope/clustercache/autoconfigure/memcached/MemCache.java:49-51 | a key's storage key under a version is `generate(key, version)` |
| MemCaches.MemCache.constructor | clustercache-spring-boot-autoconfigure/src/main/java/com/antelope/clustercache/autoconfigure/memcached/MemCache.java:30-36 | name, client, TTL and null policy as configured now; generator over the configuration's prefix, separator and the name |
| MemCaches.MemCache.VersionIn | clustercache-spring-boot-autoconfigure/src/main/java/com/antelope/clustercache/autoconfigure/memcached/MemCache.java:66-75 | the version is "1" when the counter is missing, else the counter's text; a data item there is an error |
| MemCaches.MemCache.VersionedIn | clustercache-spring-boot-autoconfigure/src/main/java/com/antelope/clustercache/autoconfigure/memcached/MemCache.java:66-75 | reading the version creates the counter if missing, keeps the version it answers and changes no other key |
| MemCaches.MemCache.SerializeCacheValue | clustercache-spring-boot-autoconfigure/src/main/java/com/antelope/clustercache/autoconfigure/memcached/MemCache.java:119-124 | the stored form reads back as the value, null as null |
| MemCaches.MemCache.GetOrInitNameVersion | clustercache-spring-boot-autoconfigure/src/main/java/com/antelope/clustercache/autoconfigure/memcached/MemCache.java:66-75 | answers the version and creates the counter at 1 when it is missing |
| MemCaches.MemCache.GenerateCacheKey | clustercache-spring-boot-autoconfigure/src/main/java/com/antelope/clustercache/autoconfigure/memcached/MemCache.java:53-55 | the version read first, then `generate(convertKey(key), version)` |
| MemCaches.MemCache.GenerateCacheKeyCollection | clustercache-spring-boot-autoconfigure/src/main/java/com/antelope/clustercache/autoconfigure/memcached/MemCache.java:57-60 | one version read, then every key mapped to its storage key under it |
| MemCaches.MemCache.KeysUnder | clustercache-spring-boot-autoconfigure/src/main/java/com/antelope/clustercache/autoconfigure/memcached/MemCache.java:57-60 | the map's keys are exactly the input keys, each with its storage key under the one version; any key without a string form fails the call |
| MemCaches.MemCache.Lookup | clustercache-spring-boot-autoconfigure/src/main/java/com/antelope/clustercache/autoconfigure/memcached/MemCache.java:43-47 | the value under the current version's key, or null |
| MemCaches.MemCache.Get | clustercache-spring-boot-autoconfigure/src/main/java/com/antelope/clustercache/autoconfigure/memcached/MemCache.java:43-47 | `get(key)` wraps what `lookup` finds, a miss unwrapped |
| MemCaches.MemCache.Put | clustercache-spring-boot-autoconfigure/src/main/java/com/antelope/clustercache/autoconfigure/memcached/MemCache.java:84-91 | a null refused before anything else when nulls are not allowed; otherwise the value set under the current version's key with the TTL's seconds cast to int; a missing TTL, or one whose seconds are negative, fails after the counter was created |
| MemCaches.MemCache.PutIfAbsent | clustercache-spring-boot-autoconfigure/src/main/java/com/antelope/clustercache/autoconfigure/memcached/MemCache.java:93-96 | always fails with `ClusterCacheException` and writes nothing |
| MemCaches.MemCache.Evict | clustercache-spring-boot-autoconfigure/src/main/java/com/antelope/clustercache/autoconfigure/memcached/MemCache.java:98-103 | only the key under the current version is deleted |
| MemCaches.MemCache.Clear | clustercache-spring-boot-autoconfigure/src/main/java/com/antelope/clustercache/autoconfigure/memcached/MemCache.java:105-109 | only the version counter moves on, by one or created at 1; no entry is touched |
| MemCaches.MemCache.GetOrLoad | clustercache-spring-boot-autoconfigure/src/main/java/com/antelope/clustercache/autoconfigure/core/AbstractValueAdaptingCache.java:36-47 | a hit answers without the loader; a miss calls it once and puts what it returns under the current version; a load that cannot be put (null refused, no TTL, negative expiry) fails with the put's error |
| MemCaches.MemCache.CounterApartKeepsKeysApart | clustercache-spring-boot-autoconfigure/src/main/java/com/antelope/clustercache/autoconfigure/memcached/MemCache.java:62-64 | with a clean separator and counter name, no data key under any version is the counter's key |
| MemCaches.MemCache.PutThenLookup | clustercache-spring-boot-autoconfigure/src/main/java/com/antelope/clustercache/autoconfigure/memcached/MemCache.java:84-91 | what `put` writes, `lookup` reads back under the same version, and the version stays |
| MemCaches.NeverExpiringHintRefused | clustercache-spring-boot-autoconfigure/src/main/java/com/antelope/clustercache/autoconfigure/memcached/MemCache.java:90 | the "-" hint parses to `Forever`, whose whole seconds cast to int are -1, so a Memcached cache configured with it has every `put` refused |
| MemCaches.MemCache.IncrementChangesVersion | clustercache-spring-boot-autoconfigure/src/main/java/com/antelope/clustercache/autoconfigure/memcached/MemCache.java:108 | a counter moved on by one never reads as its old version |
| MemCaches.MemCache.ClearMovesEveryKey | clustercache-spring-boot-autoconfigure/src/main/java/com/antelope/clustercache/autoconfigure/memcached/MemCache.java:105-109 | after `clear`, no storage key equals any storage key of the version before |
| MemCaches.MemCache.ClearedMisses | clustercache-spring-boot-autoconfigure/src/main/java/com/antelope/clustercache/autoconfigure/memcached/MemCache.java:105-109 | after `clear`, a key misses unless something was stored under its next version |
| MemCaches.MemCache.PutThenClearMisses | clustercache-spring-boot-autoconfigure/src/main/java/com/antelope/clustercache/autoconfigure/memcached/MemCache.java:105-109 | a value put and then cleared is no longer found |
| Configurations.RedisCacheConfiguration.constructor | clustercache-spring-boot-autoconfigure/src/main/java/com/antelope/clustercache/autoconfigure/redis/RedisCacheConfiguration.java:35-50 | every setting stored as given |
| Configurations.RedisCacheConfiguration.DefaultCacheConfig | clustercache-spring-boot-autoconfigure/src/main/java/com/antelope/clustercache/autoconfigure/redis/RedisCacheConfiguration.java:52-58 | zero TTL, empty prefix, ":" separator, nulls cached |
| Configurations.RedisCacheConfiguration.EntryTtl | clustercache-spring-boot-autoconfigure/src/main/java/com/antelope/clustercache/autoconfigure/redis/RedisCacheConfiguration.java:60-63 | a null TTL fails the assertion; otherwise a new configuration with that TTL and every other setting copied |
| Configurations.RedisCacheConfiguration.SetTtl | clustercache-spring-boot-autoconfigure/src/main/java/com/antelope/clustercache/autoconfigure/redis/RedisCacheConfiguration.java:26 | the chained setter changes the TTL in place, returns the receiver and keeps the rest |
| Configurations.RedisCacheConfiguration.SetKeyPrefix | clustercache-spring-boot-autoconfigure/src/main/java/com/antelope/clustercache/autoconfigure/redis/RedisCacheConfiguration.java:27 | the chained setter changes the prefix in place and keeps the rest |
| Configurations.RedisCacheConfiguration.SetKeySeparator | clustercache-spring-boot-autoconfigure/src/main/java/com/antelope/clustercache/autoconfigure/redis/RedisCacheConfiguration.java:28 | the chained setter changes the separator in place and keeps the rest |
| Configurations.RedisCacheConfiguration.SetCacheNullValues | clustercache-spring-boot-autoconfigure/src/main/java/com/antelope/clustercache/autoconfigure/redis/RedisCacheConfiguration.java:29 | the chained setter changes the null policy in place and keeps the rest |
| Configurations.MemCachedConfiguration.constructor | clustercache-spring-boot-autoconfigure/src/main/java/com/antelope/clustercache/autoconfigure/memcached/MemCachedConfiguration.java:26-32 | every setting stored as given |
| Configurations.MemCachedConfiguration.DefaultCacheConfig | clustercache-spring-boot-autoconfigure/src/main/java/com/antelope/clustercache/autoconfigure/memcached/MemCachedConfiguration.java:34-36 | zero TTL, nulls cached, empty prefix, ":" separator |
| Configurations.MemCachedConfiguration.EntryTtl | clustercache-spring-boot-autoconfigure/src/main/java/com/antelope/clustercache/autoconfigure/memcached/MemCachedConfiguration.java:38-40 | a new configuration differing only in its TTL, a null one included |
| Configurations.MemCachedConfiguration.SetTtl | clustercache-spring-boot-autoconfigure/src/main/java/com/antelope/clustercache/autoconfigure/memcached/MemCachedConfiguration.java:20 | the chained setter changes the TTL in place, returns the receiver and keeps the rest |
| Configurations.MemCachedConfiguration.SetCacheNullValues | clustercache-spring-boot-autoconfigure/src/main/java/com/antelope/clustercache/autoconfigure/memcached/MemCachedConfiguration.java:21 | the chained setter changes the null policy in place and keeps the rest |
| Configurations.MemCachedConfiguration.SetKeyPrefix | clustercache-spring-boot-autoconfigure/src/main/java/com/antelope/clustercache/autoconfigure/memcached/MemCachedConfiguration.java:22 | the chained setter changes the prefix in place and keeps the rest |
| Configurations.MemCachedConfiguration.SetKeySeparator | clustercache-spring-boot-autoconfigure/src/main/java/com/antelope/clustercache/autoconfigure/memcached/MemCachedConfiguration.java:23 | the chained setter changes the separator in place and keeps the rest |
| RedisCacheManagers.LoadStep | clustercache-spring-boot-autoconfigure/src/main/java/com/antelope/clustercache/autoconfigure/redis/RedisCacheManager.java:88-95 | entering one scanned name extends the table by that name |
| RedisCacheManagers.LoadedAll | clustercache-spring-boot-autoconfigure/src/main/java/com/antelope/clustercache/autoconfigure/redis/RedisCacheManager.java:85-98 | a full table holds the old and the scanned names, blank ones included, each scanned name configured from its hint and the others unchanged |
| RedisCacheManagers.RedisCacheManager.constructor | clustercache-spring-boot-autoconfigure/src/main/java/com/antelope/clustercache/autoconfigure/redis/RedisCacheManager.java:66-68 | an empty table, the default configuration kept, in-flight creation on |
| RedisCacheManagers.RedisCacheManager.AfterPropertiesSet | clustercache-spring-boot-autoconfigure/src/main/java/com/antelope/clustercache/autoconfigure/redis/RedisCacheManager.java:85-98 | every scanned name enters the table in order, with the default or a copy with its hint's TTL; a hint that does not parse stops it there |
| RedisCacheManagers.RedisCacheManager.LoadAll | clustercache-spring-boot-autoconfigure/src/main/java/com/antelope/clustercache/autoconfigure/redis/RedisCacheManager.java:88-95 | the loop over the scanned map, on a given table |
| RedisCacheManagers.RedisCacheManager.LoadEntry | clustercache-spring-boot-autoconfigure/src/main/java/com/antelope/clustercache/autoconfigure/redis/RedisCacheManager.java:89-93 | one scanned name entered, or the parse error of its hint |
| RedisCacheManagers.RedisCacheManager.ConfigurationFor | clustercache-spring-boot-autoconfigure/src/main/java/com/antelope/clustercache/autoconfigure/redis/RedisCacheManager.java:89-92 | the default itself without a hint, else a fresh copy with the parsed TTL; a failure exactly when the hint does not parse |
| RedisCacheManagers.RedisCacheManager.CreateRedisCache | clustercache-spring-boot-autoconfigure/src/main/java/com/antelope/clustercache/autoconfigure/redis/RedisCacheManager.java:106-108 | a new cache over the manager's writer with the given configuration, or the default for null |
| RedisCacheManagers.RedisCacheManager.GetMissingCache | clustercache-spring-boot-autoconfigure/src/main/java/com/antelope/clustercache/autoconfigure/redis/RedisCacheManager.java:80-83 | a new cache with the default configuration iff in-flight creation is on |
| RedisCacheManagers.RedisCacheManager.LoadCaches | clustercache-spring-boot-autoconfigure/src/main/java/com/antelope/clustercache/autoconfigure/redis/RedisCacheManager.java:70-78 | one new cache per table entry, in table order, each with its entry's configuration |
| MemcacheCacheManagers.LoadStep | clustercache-spring-boot-autoconfigure/src/main/java/com/antelope/clustercache/autoconfigure/memcached/MemcacheCacheManager.java:68-78 | `add` of a kept name extends the table by it |
| MemcacheCacheManagers.LoadSkip | clustercache-spring-boot-autoconfigure/src/main/java/com/antelope/clustercache/autoconfigure/memcached/MemcacheCacheManager.java:69-71 | `add` of a null or blank name leaves the table alone |
| MemcacheCacheManagers.LoadedAll | clustercache-spring-boot-autoconfigure/src/main/java/com/antelope/clustercache/autoconfigure/memcached/MemcacheCacheManager.java:45-50 | a full table holds the old names and the kept scanned ones, each configured from its hint, the others unchanged |
| MemcacheCacheManagers.KeepsNoIgnored | clustercache-spring-boot-autoconfigure/src/main/java/com/antelope/clustercache/autoconfigure/memcached/MemcacheCacheManager.java:69-71 | the table never holds a null or blank name |
| MemcacheCacheManagers.MemcacheCacheManager.constructor | clustercache-spring-boot-autoconfigure/src/main/java/com/antelope/clustercache/autoconfigure/memcached/MemcacheCacheManager.java:35-38 | client and default configuration kept, an empty table |
| MemcacheCacheManagers.MemcacheCacheManager.Add | clustercache-spring-boot-autoconfigure/src/main/java/com/antelope/clustercache/autoconfigure/memcached/MemcacheCacheManager.java:68-78 | a blank name is ignored; otherwise the default or a copy with its hint's TTL is put, replacing an earlier entry in place; a bad hint changes nothing |
| MemcacheCacheManagers.MemcacheCacheManager.AddTo | clustercache-spring-boot-autoconfigure/src/main/java/com/antelope/clustercache/autoconfigure/memcached/MemcacheCacheManager.java:68-78 | the steps of `add` on a given table |
| MemcacheCacheManagers.MemcacheCacheManager.ConfigurationFor | clustercache-spring-boot-autoconfigure/src/main/java/com/antelope/clustercache/autoconfigure/memcached/MemcacheCacheManager.java:72-75 | the default itself without a hint, else a fresh copy with the parsed TTL |
| MemcacheCacheManagers.MemcacheCacheManager.AfterPropertiesSet | clustercache-spring-boot-autoconfigure/src/main/java/com/antelope/clustercache/autoconfigure/memcached/MemcacheCacheManager.java:45-50 | `add` for every scanned entry in order; a bad hint of a kept name stops it there |
| MemcacheCacheManagers.MemcacheCacheManager.LoadAll | clustercache-spring-boot-autoconfigure/src/main/java/com/antelope/clustercache/autoconfigure/memcached/MemcacheCacheManager.java:47-48 | the loop over the scanned map, on a given table, never admitting a blank name |
| MemcacheCacheManagers.MemcacheCacheManager.AddScanned | clustercache-spring-boot-autoconfigure/src/main/java/com/antelope/clustercache/autoconfigure/memcached/MemcacheCacheManager.java:48 | one scanned name through `add` |
| MemcacheCacheManagers.MemcacheCacheManager.NewCache | clustercache-spring-boot-autoconfigure/src/main/java/com/antelope/clustercache/autoconfigure/memcached/MemcacheCacheManager.java:56 | a new cache over the shared client with the entry's name and configuration |
| MemcacheCacheManagers.MemcacheCacheManager.LoadCaches | clustercache-spring-boot-autoconfigure/src/main/java/com/antelope/clustercache/autoconfigure/memcached/MemcacheCacheManager.java:52-60 | one new cache per table entry, in table order, all over the one client |
| BatchProcessors.WriteAllKeys | clustercache-spring-boot-autoconfigure/src/main/java/com/antelope/clustercache/autoconfigure/aspect/processor/RedisBatchCacheableProcessor.java:34 | a batch of puts adds exactly its ids' slots to the store |
| BatchProcessors.WriteAllKeepsOthers | clustercache-spring-boot-autoconfigure/src/main/java/com/antelope/clustercache/autoconfigure/aspect/processor/RedisBatchCacheableProcessor.java:34 | a batch of puts leaves every other key as it was |
| BatchProcessors.WriteAllOwnSlot | clustercache-spring-boot-autoconfigure/src/main/java/com/antelope/clustercache/autoconfigure/aspect/processor/RedisBatchCacheableProcessor.java:34 | an id whose slot no other id shares holds its own entry after the batch |
| BatchProcessors.RedisBatchCacheableProcessor.constructor | clustercache-spring-boot-autoconfigure/src/main/java/com/antelope/clustercache/autoconfigure/aspect/processor/RedisBatchCacheableProcessor.java:19 | the processor works on the given cache |
| BatchProcessors.RedisBatchCacheableProcessor.Fetched | clustercache-spring-boot-autoconfigure/src/main/java/com/antelope/clustercache/autoconfigure/aspect/processor/RedisBatchCacheableProcessor.java:26 | `get(prefix + id, Object.class)` answers a value only for a stored item; it fails iff the lookup does |
| BatchProcessors.RedisBatchCacheableProcessor.MGet | clustercache-spring-boot-autoconfigure/src/main/java/com/antelope/clustercache/autoconfigure/aspect/processor/RedisBatchCacheableProcessor.java:22-28 | the unprefixed ids whose lookup answers a value, each with that value, and no other id; a failing lookup fails the call |
| BatchProcessors.RedisBatchCacheableProcessor.MSet | clustercache-spring-boot-autoconfigure/src/main/java/com/antelope/clustercache/autoconfigure/aspect/processor/RedisBatchCacheableProcessor.java:30-35 | every entry put under `prefix + key`, each key once, nothing else written; a TTL under 1 ms fails the first put and writes nothing |
| BatchProcessors.RedisBatchCacheableProcessor.BackfillThenFetch | clustercache-spring-boot-autoconfigure/src/main/java/com/antelope/clustercache/autoconfigure/aspect/processor/RedisBatchCacheableProcessor.java:22-35 | what `mSet` wrote, `mGet` finds, for an id whose slot no other id shares |
| BatchProcessors.MemcachedBatchCacheableProcessor.constructor | clustercache-spring-boot-autoconfigure/src/main/java/com/antelope/clustercache/autoconfigure/aspect/processor/MemcachedBatchCacheableProcessor.java:26 | the processor works on the given cache |
| BatchProcessors.MemcachedBatchCacheableProcessor.MGet | clustercache-spring-boot-autoconfigure/src/main/java/com/antelope/clustercache/autoconfigure/aspect/processor/MemcachedBatchCacheableProcessor.java:29-54 | under one version, the ids whose storage key holds something, each with what it holds; a failure answers an empty map |
| BatchProcessors.MemcachedBatchCacheableProcessor.Collect | clustercache-spring-boot-autoconfigure/src/main/java/com/antelope/clustercache/autoconfigure/aspect/processor/MemcachedBatchCacheableProcessor.java:44-48 | exactly the ids whose storage key was found, each with the value found |
| BatchProcessors.MemcachedBatchCacheableProcessor.FoundIsLookup | clustercache-spring-boot-autoconfigure/src/main/java/com/antelope/clustercache/autoconfigure/aspect/processor/MemcachedBatchCacheableProcessor.java:40-48 | the multi-get over all storage keys finds exactly what `lookup` would, id by id |
| BatchProcessors.MemcachedBatchCacheableProcessor.MSet | clustercache-spring-boot-autoconfigure/src/main/java/com/antelope/clustercache/autoconfigure/aspect/processor/MemcachedBatchCacheableProcessor.java:56-62 | every entry put under `prefix + key` with no failure caught; a bad version key, a missing TTL or a negative expiry fails the first put; otherwise the batch is written under the version read before it |
| BatchProcessors.MemcachedBatchCacheableProcessor.StoredThenFound | clustercache-spring-boot-autoconfigure/src/main/java/com/antelope/clustercache/autoconfigure/aspect/processor/MemcachedBatchCacheableProcessor.java:29-62 | what `mSet` wrote, `mGet` finds under the same version |
| BatchCacheableAspects.IdsAreElements | clustercache-spring-boot-autoconfigure/src/main/java/com/antelope/clustercache/autoconfigure/aspect/BatchCacheableAspect.java:78-81 | the ids are exactly the texts of the argument's non-null elements |
| BatchCacheableAspects.MissesAreUncached | clustercache-spring-boot-autoconfigure/src/main/java/com/antelope/clustercache/autoconfigure/aspect/BatchCacheableAspect.java:100-102 | the misses are exactly the ids `mGet` did not answer |
| BatchCacheableAspects.MissesKeepOrder | clustercache-spring-boot-autoconfigure/src/main/java/com/antelope/clustercache/autoconfigure/aspect/BatchCacheableAspect.java:102-106 | no misses iff every id was answered; with none answered the misses are the ids in order |
| BatchCacheableAspects.PresentAreItems | clustercache-spring-boot-autoconfigure/src/main/java/com/antelope/clustercache/autoconfigure/aspect/BatchCacheableAspect.java:149 | filtering keeps exactly the values that are not cached nulls |
| BatchCacheableAspects.NonNullAreSome | clustercache-spring-boot-autoconfigure/src/main/java/com/antelope/clustercache/autoconfigure/aspect/BatchCacheableAspect.java:160-161 | filtering keeps exactly the loaded objects that are not null |
| BatchCacheableAspects.Reshape | clustercache-spring-boot-autoconfigure/src/main/java/com/antelope/clustercache/autoconfigure/aspect/BatchCacheableAspect.java:147-155 | a set or a list of the same elements after the class, a list in order; any other class is unsupported |
| BatchCacheableAspects.Resolve | clustercache-spring-boot-autoconfigure/src/main/java/com/antelope/clustercache/autoconfigure/aspect/BatchCacheableAspect.java:147-155 | the resolved collection holds exactly the cached values that are not cached nulls |
| BatchCacheableAspects.CachedValuesOfHits | clustercache-spring-boot-autoconfigure/src/main/java/com/antelope/clustercache/autoconfigure/aspect/BatchCacheableAspect.java:104 | the cached values are exactly the answered ids' values |
| BatchCacheableAspects.JoinedContents | clustercache-spring-boot-autoconfigure/src/main/java/com/antelope/clustercache/autoconfigure/aspect/BatchCacheableAspect.java:157-171 | the join holds exactly the cached and the non-null loaded values, a list with the cached first; another class or a null load fails |
| BatchCacheableAspects.BackfillHoldsLastKeyed | clustercache-spring-boot-autoconfigure/src/main/java/com/antelope/clustercache/autoconfigure/aspect/BatchCacheableAspect.java:125-132 | a key is written back iff some loaded object has it, and with the last such object |
| BatchCacheableAspects.CollectIds | clustercache-spring-boot-autoconfigure/src/main/java/com/antelope/clustercache/autoconfigure/aspect/BatchCacheableAspect.java:78-81 | the id loop answers the non-null elements' texts in order |
| BatchCacheableAspects.Join | clustercache-spring-boot-autoconfigure/src/main/java/com/antelope/clustercache/autoconfigure/aspect/BatchCacheableAspect.java:157-171 | the `join` loops build the joined collection |
| BatchCacheableAspects.CollectBackfill | clustercache-spring-boot-autoconfigure/src/main/java/com/antelope/clustercache/autoconfigure/aspect/BatchCacheableAspect.java:125-132 | the `addCache` loop builds the write-back map |
| BatchCacheableAspects.BatchCacheableAspect.constructor | clustercache-spring-boot-autoconfigure/src/main/java/com/antelope/clustercache/autoconfigure/aspect/BatchCacheableAspect.java:42-44 | the advice goes through the given processor |
| BatchCacheableAspects.BatchCacheableAspect.MGet | clustercache-spring-boot-autoconfigure/src/main/java/com/antelope/clustercache/autoconfigure/aspect/BatchCacheableAspect.java:97 | the processor's `mGet` answer on the store, which it only reads |
| BatchCacheableAspects.BatchCacheableAspect.MSet | clustercache-spring-boot-autoconfigure/src/main/java/com/antelope/clustercache/autoconfigure/aspect/BatchCacheableAspect.java:133 | the processor's `mSet` effect on the store, failures included |
| BatchCacheableAspects.BatchCacheableAspect.AddCache | clustercache-spring-boot-autoconfigure/src/main/java/com/antelope/clustercache/autoconfigure/aspect/BatchCacheableAspect.java:121-134 | nothing written without a key field or loaded objects; otherwise `mSet` of the objects under their key field's text |
| BatchCacheableAspects.BatchCacheableAspect.RunPending | clustercache-spring-boot-autoconfigure/src/main/java/com/antelope/clustercache/autoconfigure/aspect/BatchCacheableAspect.java:113-114 | a deferred write-back does later what `addCache` does |
| BatchCacheableAspects.BatchCacheableAspect.DoProcess | clustercache-spring-boot-autoconfigure/src/main/java/com/antelope/clustercache/autoconfigure/aspect/BatchCacheableAspect.java:96-119 | with no misses the cached values are resolved and the method is not called; otherwise it is called once with the misses alone, then the write-back and the join |
| BatchCacheableAspects.BatchCacheableAspect.Around | clustercache-spring-boot-autoconfigure/src/main/java/com/antelope/clustercache/autoconfigure/aspect/BatchCacheableAspect.java:53-91 | the method is called as it was when bypassed or when the cache path fails; otherwise the cache path's collection, with at most the misses reaching the method. The store is as the cache path left it: only read, or read and then written back; a write-back handed to the executor stays scheduled even when the join that follows fails |
| CacheToolTemplates.NewTemplate | clustercache-spring-boot-autoconfigure/src/main/java/com/antelope/clustercache/autoconfigure/support/CacheToolTemplate.java:22-25 | the default expiry is the TTL's whole seconds cast to int: within 32 bits, wrapped modulo 2^32, exact when it fits |
| CacheToolTemplates.Exist | clustercache-spring-boot-autoconfigure/src/main/java/com/antelope/clustercache/autoconfigure/support/CacheToolTemplate.java:27-29 | holds iff the key holds non-empty text |
| CacheToolTemplates.GetAs | clustercache-spring-boot-autoconfigure/src/main/java/com/antelope/clustercache/autoconfigure/support/CacheToolTemplate.java:36-44 | null for no text; otherwise the parse, null for a failure |
| CacheToolTemplates.GetOr | clustercache-spring-boot-autoconfigure/src/main/java/com/antelope/clustercache/autoconfigure/support/CacheToolTemplate.java:31-34 | the default exactly when the typed get answers null |
| CacheToolTemplates.SetText | clustercache-spring-boot-autoconfigure/src/main/java/com/antelope/clustercache/autoconfigure/support/CacheToolTemplate.java:50-52 | the text written with the default expiry |
| CacheToolTemplates.SetObjectFor | clustercache-spring-boot-autoconfigure/src/main/java/com/antelope/clustercache/autoconfigure/support/CacheToolTemplate.java:58-60 | the object's JSON written with the given expiry |
| CacheToolTemplates.SetObject | clustercache-spring-boot-autoconfigure/src/main/java/com/antelope/clustercache/autoconfigure/support/CacheToolTemplate.java:54-56 | the object's JSON written with the default expiry |
| CacheToolTemplates.IncrFor | clustercache-spring-boot-autoconfigure/src/main/java/com/antelope/clustercache/autoconfigure/support/CacheToolTemplate.java:71-73 | add one, starting at one, with the given expiry |
| CacheToolTemplates.IncrDefault | clustercache-spring-boot-autoconfigure/src/main/java/com/antelope/clustercache/autoconfigure/support/CacheToolTemplate.java:67-69 | add one, starting at one, with the default expiry |
| CacheToolTemplates.SetThenGet | clustercache-spring-boot-autoconfigure/src/main/java/com/antelope/clustercache/autoconfigure/support/CacheToolTemplate.java:31-60 | an object set as JSON reads back as itself, and exists iff its JSON is not empty |
| CacheToolTemplates.MissingGetsDefault | clustercache-spring-boot-autoconfigure/src/main/java/com/antelope/clustercache/autoconfigure/support/CacheToolTemplate.java:31-44 | a key with no text or bad text answers the default; with no text it does not exist |
| CacheToolTemplates.GenerateKeyUnderPrefix | clustercache-spring-boot-autoconfigure/src/main/java/com/antelope/clustercache/autoconfigure/support/CacheToolTemplate.java:79-81 | a clean key under a non-empty prefix is `prefix + separator + key` |
| CacheToolTemplates.GenerateKeyWithoutPrefix | clustercache-spring-boot-autoconfigure/src/main/java/com/antelope/clustercache/autoconfigure/support/CacheToolTemplate.java:79-81 | with no prefix the key is used as it is |

## Left out

- Spring wiring, `ApplicationContext` lookups, auto-configuration and logging are not modelled. The `CacheWrapper` and `RedisCacheWrapper` logging decorators delegate unchanged, so they are left out.
- Scanning for `@CacheExpire` by reflection is an input: the scanned name → hint map arrives as an insertion-ordered map. The root manager's `add(Class)` scan loop is reduced to the `add` step for one annotation.
- `getCache` in the processors: each processor holds the one cache the manager answers for the annotation's name.
- The key field the advice reads off each loaded object by reflection is the function `keyOf`. The intercepted method is the function `proceed`. JSON parsing and rendering in the tool template are functions, and so are the value serializers of the Redis cache.
- The advice's thread pool: an asynchronous write-back is handed out as a `Pending` value, and `RunPending` runs it later.
- `BatchProcessors.RedisBatchCacheableProcessor.MGet`: the Redis `mGet` fills a plain `HashMap` from a `parallelStream`, and `HashMap` is not safe under concurrent `put`s. The model runs the loop sequentially and gives the race-free map; under concurrency the source can lose hits.
- `HashMap` and `HashSet` iteration order is not modelled. A batch's write order is a ghost `order` that lists each key once. Cached values are taken in id order.
- `CacheToolTemplate.getCollection` (support/CacheToolTemplate.java:46-48) is a bare JSON parse into a collection type and is not modelled. `del` and the concrete Redis and Memcached tool templates that implement the primitives are not modelled either.
- The null answer of a Memcached multi-get (MemcachedBatchCacheableProcessor.java:41-43) is not modelled: the model's client always answers a map.
- Java `null` for names, keys and configurations, and the `Assert.notNull` checks on them, are not representable, except where the source treats null as a value: a cache value, a TTL, a key prefix, a name in `add`.
- Opening and closing the Redis connection in `execute` is not modelled.
- No clock runs. A TTL is recorded on the entry or item it applies to, and expiry over time is not modelled.
- `MemcachedClients.MemcachedClient.Set`: to Memcached an expiry above 2592000 seconds (30 days) is an absolute Unix time, so a TTL over 30 days has usually already passed. With no clock, the model only records it, and `MemCaches.MemCache.PutThenLookup` reads such a value back. The refusal of a negative expiry follows the xmemcached client's argument check, which is not among the sources.
- `Duration` is an unbounded count of nanoseconds, so its overflow checks are left out.
- MD5 and UTF-8 are implemented in full, but only their lengths, hex digits and the ASCII case are proved about them.
- `String.length()` counts UTF-16 units. The one-character cut of a key that ends with a surrogate pair is treated as removing the whole character.
- The Memcached version counter is read through `get`. A data item stored under the counter's key is modelled as an error, where Java would take its `toString` as the version. `MemCache.CounterApartKeepsKeysApart` shows that no data key reaches the counter's key when the separator and counter name are clean.
- `KeyGenerators.Generate` requires a non-empty separator. With an empty one, `endsWith("")` always holds, so Java cuts the last character of every key ("user:1" becomes "user:") and throws `StringIndexOutOfBoundsException` only when the trimmed text is empty. That configuration is not modelled.
- `Constants.KEY_PREFIX_NAME_VERSION` (the counter's name) is a parameter of the Memcached cache and manager.
- `BatchProcessors.MemcachedBatchCacheableProcessor.MSet`: the success postcondition is stated only when no data key can be the version counter's key (`VersionKeyApart`). Otherwise a `put` could overwrite the counter in the middle of the batch.
- `BatchCacheableAspects.BatchCacheableAspect.Around`: when the cache path fails after calling the method, the advice calls it again with the original arguments. The postcondition states which failure the cache path ends in, the store and the scheduled write-back. What the second call does to the store is not modelled: the intercepted method is a pure function.
- `JavaText.ParseLong`: only ASCII digits are digits. Java's `Long.parseLong` also accepts the other Unicode decimal digits, so `TimeUtil.Magnitude` and `TimeUtil.SimpleParse` reject text such as "１０m" (fullwidth digits) that Java reads as ten minutes.
- `JavaText.ToLower`: only ASCII capitals are lowered. Java's `toLowerCase` lowers every Unicode letter and can change the length ("İ" becomes two characters).
- `TimeUtil.SimpleParse`: Java's `toLowerCase` is modelled for ASCII letters only, and digits are ASCII only.

## Findings

| source | as written | input that shows it | evidently intended | confidence | as-written member | corrected member |
|---|---|---|---|---|---|---|
| clustercache-spring-boot-autoconfigure/src/main/java/com/antelope/clustercache/autoconfigure/redis/DefaultRedisCacheWriter.java:40 | `mSet` expires every key by `ttl.toMillis() / 1000` seconds, and `EXPIRE key 0` deletes the key | a TTL of 500 ms: every key the batch has just written is deleted | expire by the TTL in milliseconds, as `put` and `putIfAbsent` do | high; not executed | RedisCacheWriters.SubSecondMSetDeletes | RedisCacheWriters.MSetMillisStores |
| clustercache-spring-boot-autoconfigure/src/main/java/com/antelope/clustercache/autoconfigure/RedisCacheManager.java:123 | the older parser reads the text minus two characters as a number before it checks any suffix | "5s": the text minus two characters is "", which `parseLong` rejects, so "5s" fails with `NumberFormatException` | a single digit with a one-letter unit is that many units, as in the newer `TimeUtil.simpleParse`, which the managers use | high; not executed | LegacyRedisCacheManager.SingleDigitUnitRejected | TimeUtil.ParsesDecimalWithUnit |
