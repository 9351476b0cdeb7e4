/**
 * The older Redis cache manager of the root package: its private copy of
 * the expiry parser and the `add` step that fills the name → configuration
 * table from one `@CacheExpire` annotation.
 */
module LegacyRedisCacheManager {
  import opened Wrappers
  import opened JavaText
  import opened Durations
  import opened LinkedMaps
  import TimeUtil

  /**
   * What the older parser throws: `substring` with a negative end index on
   * text shorter than two characters, or one of the exceptions `TimeUtil`
   * also throws.
   */
  datatype LegacyError = StringIndexOutOfBounds(endIndex: int) | Failed(cause: TimeUtil.ParseError)

  /**
   * The root manager's `simpleParse`: it parses the text minus two
   * characters before checking any suffix, and for a one-letter unit parses
   * it again minus one character.
   */
  function SimpleParse(time: string): (r: Result<Duration, LegacyError>)
    ensures StartsWith(time, "-") ==> r == Ok(Forever)
  {
    if StartsWith(time, "-") then Ok(Forever)
    else BySuffix(ToLower(time), time)
  }

  /** The older parser's steps on the lower-cased text `lower` of `time`. */
  function BySuffix(lower: string, time: string): (r: Result<Duration, LegacyError>)
    ensures |lower| < 2 ==> r == Err(StringIndexOutOfBounds(|lower| - 2))
  {
    if |lower| < 2 then Err(StringIndexOutOfBounds(|lower| - 2))
    else match TimeUtil.Magnitude(lower, 2)
      case Err(e) => Err(Failed(e))
      case Ok(value) =>
        if EndsWith(lower, "ns") then Ok(OfNanos(value))
        else if EndsWith(lower, "ms") then Ok(OfMillis(value))
        else match TimeUtil.Magnitude(lower, 1)
          case Err(e) => Err(Failed(e))
          case Ok(value) =>
            if EndsWith(lower, "s") then Ok(OfSeconds(value))
            else if EndsWith(lower, "m") then Ok(OfMinutes(value))
            else if EndsWith(lower, "h") then Ok(OfHours(value))
            else if EndsWith(lower, "d") then Ok(OfDays(value))
            else Err(Failed(TimeUtil.DateTimeParse(time)))
  }

  /** Whenever the older parser accepts a text, `TimeUtil.simpleParse` accepts it with the same duration. */
  lemma AgreesWithTimeUtil(time: string)
    requires SimpleParse(time).Ok?
    ensures TimeUtil.SimpleParse(time) == Ok(SimpleParse(time).value)
  {
    if !StartsWith(time, "-") {
      SuffixStepsAgree(ToLower(time), time);
    }
  }

  lemma SuffixStepsAgree(lower: string, time: string)
    requires BySuffix(lower, time).Ok?
    ensures TimeUtil.BySuffix(lower, time) == Ok(BySuffix(lower, time).value)
  {
    if EndsWith(lower, "ns") {
    } else if EndsWith(lower, "ms") {
    } else if EndsWith(lower, "s") {
    } else if EndsWith(lower, "m") {
    } else if EndsWith(lower, "h") {
    } else {
      assert EndsWith(lower, "d");
    }
  }

  /** Text of at most two characters that does not start with '-' is always rejected. */
  lemma ShortInputsRejected(time: string)
    requires !StartsWith(time, "-") && |time| <= 2
    ensures SimpleParse(time).Err?
    ensures |time| < 2 ==> SimpleParse(time) == Err(StringIndexOutOfBounds(|time| - 2))
  {
    if |time| == 2 {
      assert ToLower(time)[..0] == [];
    }
  }

  /**
   * A single digit and a one-letter unit, such as "5s" or "9h": the older
   * parser rejects it, `TimeUtil.simpleParse` reads it as that many units.
   */
  lemma SingleDigitUnitRejected(n: nat, u: TimeUtil.Unit)
    requires n < 10 && |TimeUtil.Suffix(u)| == 1
    ensures SimpleParse(Decimal(n) + TimeUtil.Suffix(u)).Err?
    ensures TimeUtil.SimpleParse(Decimal(n) + TimeUtil.Suffix(u)) == Ok(TimeUtil.Of(u, n))
  {
    var text := Decimal(n) + TimeUtil.Suffix(u);
    TimeUtil.StartsWithOne(text, '-');
    ShortInputsRejected(text);
    assert ToLower(text) == text;
    TimeUtil.ParsesDecimalWithUnit(text, n, u);
  }

  /** The cache names of one annotation that `add` keeps: neither null nor blank, in order. */
  function NonBlankNames(names: seq<Option<string>>): seq<string> {
    if names == [] then []
    else
      var last := names[|names| - 1];
      NonBlankNames(names[..|names| - 1]) + (if last.Some? && !IsBlank(last.value) then [last.value] else [])
  }

  lemma {:induction false} NonBlankNamesMembers(names: seq<Option<string>>)
    ensures forall k :: k in NonBlankNames(names) <==> Some(k) in names && !IsBlank(k)
    decreases |names|
  {
    if names != [] {
      var front := names[..|names| - 1];
      NonBlankNamesMembers(front);
      assert forall o :: o in names <==> o in front || o == names[|names| - 1];
    }
  }

  class RedisCacheManager {
    /**
     * `initialCacheConfiguration`, in insertion order. Every configuration
     * the root manager builds is Spring's default with string keys and JSON
     * values; only its TTL varies, so the table records the TTL.
     */
    var initialCacheConfiguration: LinkedMap<Duration>

    ghost predicate Valid()
      reads this
    {
      initialCacheConfiguration.Valid()
    }

    constructor()
      ensures Valid() && initialCacheConfiguration == Empty()
    {
      initialCacheConfiguration := Empty();
    }

    /**
     * `add(cacheNames, cacheExpire)`: every non-blank name gets the parsed
     * TTL, a later duplicate overwriting an earlier one. The expiry text is
     * parsed once per non-blank name, so a text the parser rejects fails at
     * the first such name, before anything is stored.
     */
    method Add(cacheNames: seq<Option<string>>, expire: string) returns (r: Result<(), LegacyError>)
      requires Valid()
      modifies this
      ensures Valid()
      ensures SimpleParse(expire).Ok? ==>
        r.Ok? && initialCacheConfiguration
          == old(initialCacheConfiguration).PutEach(NonBlankNames(cacheNames), SimpleParse(expire).value)
      ensures SimpleParse(expire).Err? ==>
        initialCacheConfiguration == old(initialCacheConfiguration)
        && (r.Err? <==> NonBlankNames(cacheNames) != [])
      ensures r.Err? ==> r.error == SimpleParse(expire).error
    {
      ghost var start := initialCacheConfiguration;
      ghost var parsed := SimpleParse(expire);
      ghost var ttlValue := if parsed.Ok? then parsed.value else Zero;
      var i := 0;
      while i < |cacheNames|
        invariant 0 <= i <= |cacheNames|
        invariant start.Valid()
        invariant initialCacheConfiguration == start.PutEach(NonBlankNames(cacheNames[..i]), ttlValue)
        invariant parsed.Err? ==> NonBlankNames(cacheNames[..i]) == []
      {
        assert cacheNames[..i + 1][..i] == cacheNames[..i];
        var cacheName := cacheNames[i];
        if cacheName.Some? && !IsBlank(cacheName.value) {
          assert NonBlankNames(cacheNames[..i + 1]) == NonBlankNames(cacheNames[..i]) + [cacheName.value];
          var ttl := SimpleParse(expire);
          if ttl.Err? {
            assert NonBlankNames(cacheNames) != [] by {
              NonBlankNamesMembers(cacheNames);
              assert Some(cacheName.value) in cacheNames;
              assert cacheName.value in NonBlankNames(cacheNames);
            }
            return Err(ttl.error);
          }
          initialCacheConfiguration := initialCacheConfiguration.Put(cacheName.value, ttl.value);
        } else {
          assert NonBlankNames(cacheNames[..i + 1]) == NonBlankNames(cacheNames[..i]);
        }
        i := i + 1;
      }
      assert cacheNames[..i] == cacheNames;
      return Ok(());
    }
  }

}
