/**
 * `CacheToolTemplate`: the string-valued cache helper the Redis and
 * Memcached tool templates share. A concrete template supplies four
 * primitives (`get`, `set` with an expiry, `incr` and `del`); everything
 * here is delegation to them with defaults filled in, JSON between objects
 * and text, and the storage key of a plain key.
 *
 * What a primitive answers is a parameter: `get` is a function from key to
 * the stored text (None for null), and the overloads that write are
 * functions answering the primitive call they make. Parsing JSON is a
 * function from text to the object it reads (None for a parse failure or a
 * null object), and rendering JSON one from object to text.
 */
module CacheToolTemplates {
  import opened Wrappers
  import opened Durations
  import opened JavaText
  import opened KeyGenerators

  /** The settings a template keeps: the default expiry in seconds, the key prefix and the separator. */
  datatype CacheToolTemplate = CacheToolTemplate(defaultExpireTime: int, keyPrefix: Option<string>, keySeparator: string)

  /** A call of one of the primitives a concrete template implements. */
  datatype Primitive =
    | Set(key: string, value: string, expireTime: int)
    | Incr(key: string, incrValue: int, initValue: int, expireTime: int)

  /**
   * The constructor: `defaultExpireTime` is the default TTL's whole seconds
   * cast to `int`, so the seconds themselves when they fit in 32 bits.
   */
  function NewTemplate(defaultTtl: Duration, keyPrefix: Option<string>, keySeparator: string): (t: CacheToolTemplate)
    ensures t.keyPrefix == keyPrefix && t.keySeparator == keySeparator
    ensures -0x8000_0000 <= t.defaultExpireTime < 0x8000_0000
    ensures -0x8000_0000 <= GetSeconds(defaultTtl) < 0x8000_0000 ==>
      t.defaultExpireTime * NanosPerSecond <= defaultTtl.nanos < (t.defaultExpireTime + 1) * NanosPerSecond
    ensures (t.defaultExpireTime - GetSeconds(defaultTtl)) % 0x1_0000_0000 == 0
  {
    CacheToolTemplate(ToInt32(GetSeconds(defaultTtl)), keyPrefix, keySeparator)
  }

  /** `exist(key)`: the key holds text, and it is not empty. */
  function Exist(get: string -> Option<string>, key: string): (r: bool)
    ensures r <==> get(key).Some? && |get(key).value| > 0
  {
    !IsEmpty(get(key))
  }

  /** `get(key, clazz)`: the stored text parsed; a null text, a null object and a parse failure all answer null. */
  function GetAs<T>(get: string -> Option<string>, parse: string -> Option<T>, key: string): (r: Option<T>)
    ensures get(key).None? ==> r.None?
    ensures get(key).Some? ==> r == parse(get(key).value)
  {
    match get(key)
    case None => None
    case Some(json) => parse(json)
  }

  /** `get(key, clazz, defaultValue)`: the parsed object, or the default exactly when there is none. */
  function GetOr<T>(get: string -> Option<string>, parse: string -> Option<T>, key: string, defaultValue: T): (r: T)
    ensures GetAs(get, parse, key).None? ==> r == defaultValue
    ensures GetAs(get, parse, key).Some? ==> r == GetAs(get, parse, key).value
  {
    var value := GetAs(get, parse, key);
    if value.None? then defaultValue else value.value
  }

  /** `set(key, String)`: the text written as it is, with the default expiry. */
  function SetText(t: CacheToolTemplate, key: string, value: string): (r: Primitive)
    ensures r.Set? && r.key == key && r.value == value && r.expireTime == t.defaultExpireTime
  {
    Set(key, value, t.defaultExpireTime)
  }

  /** `set(key, Object, expireTime)`: the object's JSON written with the given expiry. */
  function SetObjectFor<T>(render: T -> string, key: string, value: T, expireTime: int): (r: Primitive)
    ensures r.Set? && r.key == key && r.value == render(value) && r.expireTime == expireTime
  {
    Set(key, render(value), expireTime)
  }

  /** `set(key, Object)`: the object's JSON written with the default expiry. */
  function SetObject<T>(t: CacheToolTemplate, render: T -> string, key: string, value: T): (r: Primitive)
    ensures r == SetObjectFor(render, key, value, t.defaultExpireTime)
    ensures r.Set? && r.value == render(value) && r.expireTime == t.defaultExpireTime
  {
    SetObjectFor(render, key, value, t.defaultExpireTime)
  }

  /** `incr(key, expireTime)`: one added, one as the initial value, with the given expiry. */
  function IncrFor(key: string, expireTime: int): (r: Primitive)
    ensures r.Incr? && r.key == key && r.incrValue == 1 && r.initValue == 1 && r.expireTime == expireTime
  {
    Incr(key, 1, 1, expireTime)
  }

  /** `incr(key)`: one added, one as the initial value, with the default expiry. */
  function IncrDefault(t: CacheToolTemplate, key: string): (r: Primitive)
    ensures r == IncrFor(key, t.defaultExpireTime)
    ensures r.Incr? && r.incrValue == 1 && r.initValue == 1 && r.expireTime == t.defaultExpireTime
  {
    IncrFor(key, t.defaultExpireTime)
  }

  /** `generateKey(key)`: the key under a generator with the template's prefix and separator, no name and no version. */
  function GenerateTemplateKey(t: CacheToolTemplate, key: string): string
    requires t.keySeparator != []
  {
    GenerateKey(GetPrefixInstance(t.keyPrefix, t.keySeparator), Some(key))
  }

  /**
   * What an object's JSON written by `set` reads back as: the object, when
   * the store answers the text written and parsing reads back what
   * rendering wrote; and the key then exists exactly when the text is not
   * empty.
   */
  lemma SetThenGet<T>(get: string -> Option<string>, parse: string -> Option<T>, render: T -> string,
                      key: string, value: T, expireTime: int, defaultValue: T)
    requires parse(render(value)) == Some(value)
    requires get(key) == Some(SetObjectFor(render, key, value, expireTime).value)
    ensures GetAs(get, parse, key) == Some(value)
    ensures GetOr(get, parse, key, defaultValue) == value
    ensures Exist(get, key) <==> render(value) != []
  {
  }

  /** A key holding no text, or text that does not parse, answers the default; with no text it does not exist. */
  lemma MissingGetsDefault<T>(get: string -> Option<string>, parse: string -> Option<T>, key: string, defaultValue: T)
    requires get(key).None? || parse(get(key).value).None?
    ensures GetOr(get, parse, key, defaultValue) == defaultValue
    ensures get(key).None? ==> !Exist(get, key)
  {
  }

  /** A short, whitespace-free key under a non-empty, whitespace-free prefix is `prefix + separator + key`. */
  lemma {:induction false} GenerateKeyUnderPrefix(t: CacheToolTemplate, key: string)
    requires t.keySeparator != [] && NoTrimmable(t.keySeparator)
    requires t.keyPrefix.Some? && t.keyPrefix.value != [] && NoTrimmable(t.keyPrefix.value)
    requires key != [] && NoTrimmable(key) && Utf16Length(key) <= KeyMaxLength
    requires key[|key| - 1] != t.keySeparator[|t.keySeparator| - 1]
    ensures GenerateTemplateKey(t, key) == t.keyPrefix.value + t.keySeparator + key
  {
    var g := GetPrefixInstance(t.keyPrefix, t.keySeparator);
    var h := t.keyPrefix.value + t.keySeparator;
    assert Head(g, None) == h + [];
    assert h + [] == h;
    ShortKeyGenerated(g, key, None);
    NoTrimmableAppend(t.keyPrefix.value, t.keySeparator);
    NoTrimmableTrim(h);
    FinishKeepsTail(h, key, t.keySeparator);
  }

  /** Without a prefix the same key is used as it is. */
  lemma {:induction false} GenerateKeyWithoutPrefix(t: CacheToolTemplate, key: string)
    requires t.keySeparator != []
    requires t.keyPrefix.None? || t.keyPrefix.value == []
    requires key != [] && NoTrimmable(key) && Utf16Length(key) <= KeyMaxLength
    requires key[|key| - 1] != t.keySeparator[|t.keySeparator| - 1]
    ensures GenerateTemplateKey(t, key) == key
  {
    var g := GetPrefixInstance(t.keyPrefix, t.keySeparator);
    assert Head(g, None) == [];
    ShortKeyGenerated(g, key, None);
    FinishKeepsTail([], key, t.keySeparator);
    assert [] + key == key;
  }
}
