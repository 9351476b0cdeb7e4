/**
 * What the two caches share through `core/AbstractValueAdaptingCache`:
 * how a key object becomes a string, how null is held in a store, and
 * the exceptions the cache operations throw.
 */
module CacheValues {
  import opened Wrappers

  /**
   * A value as a cache stores it: Spring's `NullValue.INSTANCE` standing
   * for a cached null, or a real value.
   */
  datatype Stored<V> = NullValue | Item(value: V)

  /**
   * A key object, as far as `convertKey` looks at it: the string the
   * conversion service produces when it can convert the key's type to
   * `String`, and the result of the key's own `toString` when its class
   * overrides `Object.toString`.
   */
  datatype KeyObject = KeyObject(converted: Option<string>, ownToString: Option<string>)

  /** A `String` key: the conversion service converts it to itself. */
  function StringKey(s: string): KeyObject {
    KeyObject(Some(s), Some(s))
  }

  /** The exceptions thrown out of the cache operations. */
  datatype CacheError =
    | IllegalState(message: string)            // a key that cannot be turned into a string
    | IllegalArgument(message: string)         // null where the cache forbids null
    | ClusterCache(message: string)            // the library's own exception
    | ValueRetrieval(cause: string)            // a loader that threw
    | StoreFailure(message: string)            // the store refused the command
    | NullPointer(what: string)                // a null the code dereferences

  /** The `IllegalStateException` for a key that has no string form. */
  const NotConvertible := IllegalState("Cannot convert key to String. Register a Converter or override toString().")

  /**
   * `convertKey`: the conversion service's string if it can make one, else
   * the key's own `toString`, else `IllegalStateException`.
   */
  function ConvertKey(key: KeyObject): (r: Result<string, CacheError>)
    ensures key.converted.Some? ==> r == Ok(key.converted.value)
    ensures key.converted.None? && key.ownToString.Some? ==> r == Ok(key.ownToString.value)
    ensures r.Err? <==> key.converted.None? && key.ownToString.None?
    ensures r.Err? ==> r.error == NotConvertible
  {
    match key.converted
    case Some(s) => Ok(s)
    case None =>
      match key.ownToString
      case Some(s) => Ok(s)
      case None => Err(NotConvertible)
  }

  /**
   * `fromStoreValue` for the caches here, which hold `NullValue` only when
   * they allow nulls: a cached null is null again, anything else its value.
   */
  function FromStoreValue<V>(stored: Stored<V>): (r: Option<V>)
    ensures r.None? <==> stored.NullValue?
    ensures r.Some? ==> stored == Item(r.value)
  {
    match stored
    case NullValue => None
    case Item(v) => Some(v)
  }
}
