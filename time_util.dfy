/** `TimeUtil.simpleParse`: expiry text such as "10m", "500ms" or "-1" read as a duration. */
module TimeUtil {
  import opened Wrappers
  import opened JavaText
  import opened Durations

  /** The six units the parser knows, in the order their suffixes are tried. */
  datatype Unit = Nanos | Millis | Seconds | Minutes | Hours | Days

  /** The lower-case suffix naming a unit. */
  function Suffix(u: Unit): string {
    match u
    case Nanos => "ns"
    case Millis => "ms"
    case Seconds => "s"
    case Minutes => "m"
    case Hours => "h"
    case Days => "d"
  }

  /** `Duration.ofNanos`, `ofMillis`, ... `ofDays` of a magnitude. */
  function Of(u: Unit, n: int): Duration {
    match u
    case Nanos => OfNanos(n)
    case Millis => OfMillis(n)
    case Seconds => OfSeconds(n)
    case Minutes => OfMinutes(n)
    case Hours => OfHours(n)
    case Days => OfDays(n)
  }

  /**
   * The two exceptions the parser throws: `NumberFormatException` for a
   * magnitude that is not a long (it carries the text that was parsed) and
   * `DateTimeParseException` for an unknown suffix (it carries the input).
   */
  datatype ParseError = NumberFormat(input: string) | DateTimeParse(parsedText: string)

  /** The last character of the lower-cased text is one of the unit letters. */
  predicate HasUnitLetter(lower: string) {
    lower != [] && lower[|lower| - 1] in "smhd"
  }

  /** `parse(value, size)`: the text without its last `size` characters, as a long. */
  function Magnitude(value: string, size: nat): (r: Result<int, ParseError>)
    requires size <= |value|
    ensures r.Ok? ==> IsLong(r.value) && ParseLong(value[..|value| - size]) == Ok(r.value)
    ensures r.Err? ==> r == Err(NumberFormat(value[..|value| - size]))
  {
    match ParseLong(value[..|value| - size])
    case Ok(n) => Ok(n)
    case Err(e) => Err(NumberFormat(e.input))
  }

  /** The text before the suffix of `u`, as a long, in units of `u`. */
  function WithUnit(lower: string, u: Unit): (r: Result<Duration, ParseError>)
    requires |Suffix(u)| <= |lower|
    ensures r.Err? ==> r.error.NumberFormat?
  {
    match Magnitude(lower, |Suffix(u)|)
    case Ok(n) => Ok(Of(u, n))
    case Err(e) => Err(e)
  }

  function SimpleParse(time: string): (r: Result<Duration, ParseError>)
    ensures StartsWith(time, "-") ==> r == Ok(Forever)
  {
    if StartsWith(time, "-") then Ok(Forever)
    else BySuffix(ToLower(time), time)
  }

  /**
   * The suffix checks on the lower-cased text, longest suffix first; an
   * unknown suffix fails with the text as given.
   */
  function BySuffix(lower: string, time: string): (r: Result<Duration, ParseError>)
    ensures r.Err? && r.error.DateTimeParse? ==> r.error.parsedText == time
  {
    if EndsWith(lower, "ns") then WithUnit(lower, Nanos)
    else if EndsWith(lower, "ms") then WithUnit(lower, Millis)
    else if EndsWith(lower, "s") then WithUnit(lower, Seconds)
    else if EndsWith(lower, "m") then WithUnit(lower, Minutes)
    else if EndsWith(lower, "h") then WithUnit(lower, Hours)
    else if EndsWith(lower, "d") then WithUnit(lower, Days)
    else Err(DateTimeParse(time))
  }

  lemma StartsWithOne(s: string, c: char)
    ensures StartsWith(s, [c]) <==> s != [] && s[0] == c
  {
    if s != [] {
      assert s[..1] == [s[0]];
    }
  }

  lemma EndsWithOne(s: string, c: char)
    ensures EndsWith(s, [c]) <==> s != [] && s[|s| - 1] == c
  {
    if s != [] {
      assert s[|s| - 1..] == [s[|s| - 1]];
    }
  }

  lemma EndsWithTwo(s: string, a: char, b: char)
    ensures EndsWith(s, [a, b]) <==> |s| >= 2 && s[|s| - 2] == a && s[|s| - 1] == b
  {
    if |s| >= 2 {
      assert s[|s| - 2..] == [s[|s| - 2], s[|s| - 1]];
    }
  }

  /**
   * Text that does not start with '-' is rejected as an unknown duration
   * exactly when its lower-cased form does not end in one of the unit
   * letters, and the exception then carries the text as given.
   */
  lemma UnknownSuffix(time: string)
    ensures var r := SimpleParse(time);
      r.Err? && r.error.DateTimeParse? <==> !StartsWith(time, "-") && !HasUnitLetter(ToLower(time))
    ensures var r := SimpleParse(time); r.Err? && r.error.DateTimeParse? ==> r.error.parsedText == time
  {
    var lower := ToLower(time);
    EndsWithOne(lower, 's');
    EndsWithOne(lower, 'm');
    EndsWithOne(lower, 'h');
    EndsWithOne(lower, 'd');
    EndsWithTwo(lower, 'n', 's');
    EndsWithTwo(lower, 'm', 's');
  }

  /**
   * A decimal magnitude followed by a unit suffix, in any letter case,
   * parses to that many of the unit: "10ms" and "10MS" are ten
   * milliseconds, not a failed "10m".
   */
  lemma ParsesDecimalWithUnit(text: string, n: nat, u: Unit)
    requires n <= LongMax
    requires ToLower(text) == Decimal(n) + Suffix(u)
    ensures SimpleParse(text) == Ok(Of(u, n))
  {
    var lower := ToLower(text);
    var d := Decimal(n);
    var suffix := Suffix(u);
    assert lower[0] == d[0];
    StartsWithOne(text, '-');
    assert lower[..|lower| - |suffix|] == d;
    assert lower[|lower| - 1] == suffix[|suffix| - 1];
    assert lower[|lower| - 2] == if |suffix| == 1 then d[|d| - 1] else suffix[0];
    EndsWithOne(lower, 's');
    EndsWithOne(lower, 'm');
    EndsWithOne(lower, 'h');
    EndsWithOne(lower, 'd');
    EndsWithTwo(lower, 'n', 's');
    EndsWithTwo(lower, 'm', 's');
    ParseDecimal(n);
  }

  /** Upper- and lower-case spellings of the same text parse to the same duration. */
  lemma CaseInsensitive(time: string)
    ensures SimpleParse(ToLower(time)).Ok? <==> SimpleParse(time).Ok?
    ensures SimpleParse(time).Ok? ==> SimpleParse(ToLower(time)) == SimpleParse(time)
  {
    ToLowerIdempotent(time);
    assert StartsWith(ToLower(time), "-") <==> StartsWith(time, "-") by {
      if |time| > 0 {
        assert ToLower(time)[0] == LowerChar(time[0]);
        assert ToLower(time)[..1] == [ToLower(time)[0]];
        assert time[..1] == [time[0]];
      }
    }
  }

  /** "10m" is 600 seconds. */
  lemma AcceptedExamples()
    ensures SimpleParse("10m") == Ok(OfSeconds(600))
  {
    assert Decimal(10) == "10" by {
      assert Decimal(1) == "1";
    }
    assert ToLower("10m") == "10m";
    ParsesDecimalWithUnit("10m", 10, Minutes);
  }

  /** "2d" is 48 hours. */
  lemma DaysExample()
    ensures SimpleParse("2d") == Ok(OfHours(48))
  {
    assert ToLower("2d") == "2d";
    ParsesDecimalWithUnit("2d", 2, Days);
  }

  /** "10MS" is ten milliseconds: the "ms" check comes before the "s" and "m" checks. */
  lemma UpperCaseExample()
    ensures SimpleParse("10MS") == Ok(OfMillis(10))
  {
    assert Decimal(10) == "10" by {
      assert Decimal(1) == "1";
    }
    assert ToLower("10MS") == "10ms";
    ParsesDecimalWithUnit("10MS", 10, Millis);
  }

  /** A bare unit and a non-numeric magnitude fail as numbers. */
  lemma NumberFormatExamples()
    ensures SimpleParse("s") == Err(NumberFormat(""))
    ensures SimpleParse("xh") == Err(NumberFormat("x"))
  {
    var s := ToLower("s");
    assert s == "s";
    StartsWithOne("s", '-');
    EndsWithTwo(s, 'n', 's');
    EndsWithTwo(s, 'm', 's');
    EndsWithOne(s, 's');
    var xh := ToLower("xh");
    assert xh == "xh";
    StartsWithOne("xh", '-');
    EndsWithTwo(xh, 'n', 's');
    EndsWithTwo(xh, 'm', 's');
    EndsWithOne(xh, 's');
    EndsWithOne(xh, 'm');
    EndsWithOne(xh, 'h');
    assert xh[..1] == "x";
  }

  /** The empty text and an unknown unit fail as durations. */
  lemma DateTimeParseExamples()
    ensures SimpleParse("") == Err(DateTimeParse(""))
    ensures SimpleParse("10x") == Err(DateTimeParse("10x"))
  {
    UnknownSuffix("");
    assert ToLower("10x") == "10x";
    StartsWithOne("10x", '-');
    UnknownSuffix("10x");
  }

  /**
   * The TTL a cache manager gives an entry of its table: the default's
   * without an `@CacheExpire` hint, else what the hint's text parses to.
   */
  function HintTtl(default: Option<Duration>, hint: Option<string>): Result<Option<Duration>, ParseError> {
    match hint
    case None => Ok(default)
    case Some(text) =>
      match SimpleParse(text)
      case Ok(d) => Ok(Some(d))
      case Err(e) => Err(e)
  }
}
