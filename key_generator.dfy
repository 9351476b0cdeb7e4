/**
 * `FinallyKeyGenerator`: the storage key `{prefix}{sep}{name}{sep}{version}{sep}{key}`,
 * with empty segments left out, spaces removed from the key, keys longer
 * than 50 UTF-16 units replaced by their MD5 digest, the whole trimmed and
 * one trailing separator character cut off.
 */
module KeyGenerators {
  import opened Wrappers
  import opened JavaText
  import opened Utf8
  import opened Md5

  const KeyMaxLength: nat := 50

  datatype FinallyKeyGenerator = FinallyKeyGenerator(name: Option<string>, keyPrefix: Option<string>, keySeparator: string)

  /** `getInstance(name, keyPrefix, keySeparator)`: the generator a cache uses. */
  function GetInstance(name: string, keyPrefix: Option<string>, keySeparator: string): FinallyKeyGenerator {
    FinallyKeyGenerator(Some(name), keyPrefix, keySeparator)
  }

  /** `getInstance(keyPrefix, keySeparator)`: a generator without a name. */
  function GetPrefixInstance(keyPrefix: Option<string>, keySeparator: string): FinallyKeyGenerator {
    FinallyKeyGenerator(None, keyPrefix, keySeparator)
  }

  /** `StringUtils.isEmpty`: null or "". */
  predicate IsEmpty(s: Option<string>) {
    s.None? || s.value == []
  }

  /** A segment followed by the separator, or nothing for an empty segment. */
  function Segment(s: Option<string>, sep: string): string {
    if IsEmpty(s) then [] else s.value + sep
  }

  /** What the key contributes: spaces removed if it is short enough, else its digest. */
  function KeyPart(key: Option<string>): string {
    if IsEmpty(key) then []
    else if Utf16Length(key.value) <= KeyMaxLength then RemoveSpaces(key.value)
    else Md5Hex(Encode(key.value))
  }

  /** Prefix and name segments: the part every key of one generator shares. */
  function Base(g: FinallyKeyGenerator): string {
    Segment(g.keyPrefix, g.keySeparator) + Segment(g.name, g.keySeparator)
  }

  /** Prefix, name and version segments, each followed by the separator. */
  function Head(g: FinallyKeyGenerator, nameVersion: Option<string>): string {
    if IsEmpty(nameVersion) then Base(g) else Base(g) + (nameVersion.value + g.keySeparator)
  }

  /**
   * `generate(key, nameVersion)`. An empty separator would make every
   * result lose its last character (and the empty result fail), so the
   * separator is required to be non-empty.
   */
  function Generate(g: FinallyKeyGenerator, key: Option<string>, nameVersion: Option<string>): string
    requires g.keySeparator != []
  {
    Finish(Head(g, nameVersion) + KeyPart(key), g.keySeparator)
  }

  /** The last two steps of `generate`: trim, then cut one trailing separator character. */
  function Finish(s: string, sep: string): string
    requires sep != []
  {
    Cut(Trim(s), sep)
  }

  /** One character less when the text ends with the separator. */
  function Cut(f: string, sep: string): string
    requires sep != []
  {
    if EndsWith(f, sep) then f[..|f| - 1] else f
  }

  /** `generate(key)`: no version segment. */
  function GenerateKey(g: FinallyKeyGenerator, key: Option<string>): string
    requires g.keySeparator != []
  {
    Generate(g, key, None)
  }

  /*
   * The lemmas below come in pairs: one about `Finish` or `Cut` on plain
   * strings, which holds the reasoning, and one about `Generate` that
   * applies it to the segments and the key part.
   */

  /** Trimming the end of a string whose last character is not whitespace changes nothing. */
  lemma TrimEndIdentity(s: string)
    requires s != [] && !IsTrimmable(s[|s| - 1])
    ensures TrimEnd(s) == s
  {
  }

  /** A string whose last character differs from the separator's last character is not cut. */
  lemma CutKeeps(f: string, sep: string)
    requires sep != [] && f != [] && f[|f| - 1] != sep[|sep| - 1]
    ensures Cut(f, sep) == f
  {
    assert !EndsWith(f, sep) by {
      if |sep| <= |f| {
        assert f[|f| - |sep|..][|sep| - 1] == f[|f| - 1];
      }
    }
  }

  /**
   * `Finish` of a head and a tail that neither starts nor ends with
   * whitespace nor ends like the separator: only the head's leading
   * whitespace goes.
   */
  lemma FinishKeepsTail(h: string, k: string, sep: string)
    requires sep != [] && k != [] && !IsTrimmable(k[0]) && !IsTrimmable(k[|k| - 1])
    requires k[|k| - 1] != sep[|sep| - 1]
    ensures Finish(h + k, sep) == TrimStart(h) + k
  {
    TrimKeepsTail(h, k);
    CutKeepsTail(TrimStart(h), k, sep);
  }

  /** Text ending in a tail whose last character differs from the separator's is not cut. */
  lemma CutKeepsTail(f: string, k: string, sep: string)
    requires sep != [] && k != [] && k[|k| - 1] != sep[|sep| - 1]
    ensures Cut(f + k, sep) == f + k
  {
    assert (f + k)[|f + k| - 1] == k[|k| - 1];
    CutKeeps(f + k, sep);
  }

  /** Trimming a head followed by a tail with no whitespace at either end trims only the head's front. */
  lemma TrimKeepsTail(h: string, k: string)
    requires k != [] && !IsTrimmable(k[0]) && !IsTrimmable(k[|k| - 1])
    ensures Trim(h + k) == TrimStart(h) + k
  {
    assert (h + k)[|h + k| - 1] == k[|k| - 1];
    TrimEndIdentity(h + k);
    TrimStartKeeps(h, k);
  }

  /**
   * The layout when the key contributes something that neither starts nor
   * ends with whitespace and does not end like the separator: the segments
   * in order, each followed by the separator, then the key part, with only
   * leading whitespace of the first segment trimmed.
   */
  lemma KeyLayout(g: FinallyKeyGenerator, key: Option<string>, nameVersion: Option<string>)
    requires g.keySeparator != []
    requires var k := KeyPart(key);
      k != [] && !IsTrimmable(k[0]) && !IsTrimmable(k[|k| - 1])
      && k[|k| - 1] != g.keySeparator[|g.keySeparator| - 1]
    ensures Generate(g, key, nameVersion) == TrimStart(Head(g, nameVersion)) + KeyPart(key)
  {
    FinishKeepsTail(Head(g, nameVersion), KeyPart(key), g.keySeparator);
  }

  /** Every non-empty head ends with the separator, since each segment does. */
  lemma HeadEndsWithSeparator(g: FinallyKeyGenerator, nameVersion: Option<string>)
    requires g.keySeparator != [] && Head(g, nameVersion) != []
    ensures EndsWith(Head(g, nameVersion), g.keySeparator)
  {
    var sep := g.keySeparator;
    var s1, s2 := Segment(g.keyPrefix, sep), Segment(g.name, sep);
    if !IsEmpty(nameVersion) {
      SuffixOfAppend(Base(g), nameVersion.value, sep);
    } else if !IsEmpty(g.name) {
      SuffixOfAppend(s1, g.name.value, sep);
    } else {
      assert Base(g) == s1 + [];
      SuffixOfAppend([], g.keyPrefix.value, sep);
    }
  }

  lemma SuffixOfAppend(a: string, b: string, sep: string)
    ensures EndsWith(a + (b + sep), sep)
  {
    assert (a + (b + sep))[|a + (b + sep)| - |sep|..] == sep;
  }

  /**
   * Whitespace-free text that ends with the separator loses one character:
   * the whole separator when it is one character long, and only the
   * separator's last character otherwise.
   */
  lemma FinishEmptyTail(h: string, sep: string)
    requires sep != [] && h != [] && NoTrimmable(h) && EndsWith(h, sep)
    ensures Finish(h + [], sep) == h[..|h| - 1]
    ensures h[..|h| - 1] == h[..|h| - |sep|] + sep[..|sep| - 1]
  {
    assert h + [] == h;
    NoTrimmableTrim(h);
    assert h == h[..|h| - |sep|] + sep;
  }

  /**
   * With an empty key part and a head free of whitespace, the result is
   * the head, which ends with the separator, minus its last character.
   */
  lemma EmptyKeyCutsOneCharacter(g: FinallyKeyGenerator, key: Option<string>, nameVersion: Option<string>)
    requires g.keySeparator != [] && KeyPart(key) == []
    requires Head(g, nameVersion) != [] && NoTrimmable(Head(g, nameVersion))
    ensures EndsWith(Head(g, nameVersion), g.keySeparator)
    ensures var h := Head(g, nameVersion); Generate(g, key, nameVersion) == h[..|h| - 1]
  {
    HeadEndsWithSeparator(g, nameVersion);
    FinishEmptyTail(Head(g, nameVersion), g.keySeparator);
  }

  /** The 32 hex digits of a digest neither start nor end with whitespace. */
  lemma DigestIsClean(key: string)
    ensures var d := Md5Hex(Encode(key));
      !IsTrimmable(d[0]) && !IsTrimmable(d[31]) && IsLowerHex(d[31])
  {
    var d := Md5Hex(Encode(key));
    assert IsLowerHex(d[0]) && IsLowerHex(d[31]);
  }

  /**
   * A key longer than 50 UTF-16 units is replaced by the 32 hex digits of
   * the MD5 digest of its UTF-8 bytes, after the separator-terminated
   * segments (a separator ending in a hex digit could lose one).
   */
  lemma LongKeyIsDigest(g: FinallyKeyGenerator, key: string, nameVersion: Option<string>)
    requires g.keySeparator != [] && !IsLowerHex(g.keySeparator[|g.keySeparator| - 1])
    requires Utf16Length(key) > KeyMaxLength
    ensures Generate(g, Some(key), nameVersion) == TrimStart(Head(g, nameVersion)) + Md5Hex(Encode(key))
    ensures |Generate(g, Some(key), nameVersion)| == |TrimStart(Head(g, nameVersion))| + 32
  {
    DigestIsClean(key);
    FinishKeepsTail(Head(g, nameVersion), Md5Hex(Encode(key)), g.keySeparator);
  }

  /**
   * The length check comes before the spaces are removed: a key of one
   * space and fifty letters is hashed, although without its space it would
   * have fitted.
   */
  lemma LengthCheckedBeforeSpaceRemoval(letters: string)
    requires |letters| == KeyMaxLength && forall i :: 0 <= i < |letters| ==> letters[i] != ' '
    ensures var key := " " + letters;
      |RemoveSpaces(key)| <= KeyMaxLength && KeyPart(Some(key)) == Md5Hex(Encode(key))
  {
    var key := " " + letters;
    assert key[1..] == letters;
  }

  /** A short key free of whitespace is used as it is. */
  lemma ShortKeyGenerated(g: FinallyKeyGenerator, key: string, nameVersion: Option<string>)
    requires g.keySeparator != [] && Utf16Length(key) <= KeyMaxLength && key != [] && NoTrimmable(key)
    ensures Generate(g, Some(key), nameVersion) == Finish(Head(g, nameVersion) + key, g.keySeparator)
  {
    assert KeyPart(Some(key)) == key;
  }

  lemma NoTrimmableAppend(a: string, b: string)
    requires NoTrimmable(a) && NoTrimmable(b)
    ensures NoTrimmable(a + b)
  {
  }

  lemma {:induction false} Utf16LengthAppend(a: string, b: string)
    ensures Utf16Length(a + b) == Utf16Length(a) + Utf16Length(b)
    decreases |a|
  {
    if a == [] {
      assert a + b == b;
    } else {
      assert (a + b)[0] == a[0];
      assert (a + b)[1..] == a[1..] + b;
      Utf16LengthAppend(a[1..], b);
    }
  }

  /** Text free of whitespace that ends with a one-character separator loses just that character. */
  lemma FinishCutsSeparator(x: string, sep: string)
    requires |sep| == 1 && NoTrimmable(x) && NoTrimmable(sep)
    ensures Finish(x + sep, sep) == x
  {
    NoTrimmableTrim(x + sep);
    assert (x + sep)[|x + sep| - 1..] == sep;
    assert (x + sep)[..|x + sep| - 1] == x;
  }

  /** The abstract form of the collision: a whitespace-free tail and the same tail plus the separator. */
  lemma FinishDropsSeparator(h: string, key: string, sep: string)
    requires |sep| == 1 && !IsTrimmable(sep[0]) && NoTrimmable(h)
    requires key != [] && NoTrimmable(key) && key[|key| - 1] != sep[0]
    ensures Finish(h + (key + sep), sep) == Finish(h + key, sep)
  {
    assert h + (key + sep) == (h + key) + sep;
    assert Finish(h + key, sep) == h + key by {
      FinishKeepsTail(h, key, sep);
      NoTrimmableTrim(h);
    }
    assert Finish((h + key) + sep, sep) == h + key by {
      NoTrimmableAppend(h, key);
      FinishCutsSeparator(h + key, sep);
    }
  }

  /** Both keys of the collision are short and whitespace-free, so both are used as they are. */
  lemma KeyWithSeparatorGenerated(g: FinallyKeyGenerator, key: string, nameVersion: Option<string>)
    requires |g.keySeparator| == 1 && !IsTrimmable(g.keySeparator[0])
    requires key != [] && NoTrimmable(key)
    requires Utf16Length(key + g.keySeparator) <= KeyMaxLength
    ensures var h, sep := Head(g, nameVersion), g.keySeparator;
      Generate(g, Some(key + sep), nameVersion) == Finish(h + (key + sep), sep)
      && Generate(g, Some(key), nameVersion) == Finish(h + key, sep)
  {
    var sep := g.keySeparator;
    Utf16LengthAppend(key, sep);
    assert Generate(g, Some(key), nameVersion) == Finish(Head(g, nameVersion) + key, sep) by {
      ShortKeyGenerated(g, key, nameVersion);
    }
    NoTrimmableAppend(key, sep);
    ShortKeyGenerated(g, key + sep, nameVersion);
  }

  /**
   * A key that ends with a one-character separator loses it, so "user:" and
   * "user" share one storage key.
   */
  lemma TrailingSeparatorInKeyCollides(g: FinallyKeyGenerator, key: string, nameVersion: Option<string>)
    requires |g.keySeparator| == 1 && !IsTrimmable(g.keySeparator[0])
    requires NoTrimmable(Head(g, nameVersion))
    requires key != [] && NoTrimmable(key) && key[|key| - 1] != g.keySeparator[0]
    requires Utf16Length(key + g.keySeparator) <= KeyMaxLength
    ensures Generate(g, Some(key + g.keySeparator), nameVersion) == Generate(g, Some(key), nameVersion)
  {
    KeyWithSeparatorGenerated(g, key, nameVersion);
    FinishDropsSeparator(Head(g, nameVersion), key, g.keySeparator);
  }

  /** A version segment: one or more decimal digits, as a counter's `toString` gives. */
  predicate IsVersion(v: string) {
    v != [] && AllDigits(v)
  }

  /** A separator free of whitespace that does not start with a digit. */
  predicate ClearSeparator(sep: string) {
    sep != [] && NoTrimmable(sep) && !IsDigit(sep[0])
  }

  /** `r` continues `b` with the digit run `v`, which ends there. */
  predicate VersionAfter(r: string, b: string, v: string) {
    |b| + |v| <= |r| && r[..|b| + |v|] == b + v && (|r| == |b| + |v| || !IsDigit(r[|b| + |v|]))
  }

  /** `r` continues `b` with a non-digit. */
  predicate NonDigitAfter(r: string, b: string) {
    |b| < |r| && r[..|b|] == b && !IsDigit(r[|b|])
  }

  /** Trimming a base, a version, the separator and a tail removes only the base's leading and the tail's trailing whitespace. */
  lemma TrimVersioned(p: string, v: string, sep: string, k: string)
    requires ClearSeparator(sep) && IsVersion(v)
    ensures Trim(p + (v + sep) + k) == TrimStart(p) + (v + sep + TrimEnd(k))
  {
    var x := p + (v + sep);
    var ke := TrimEnd(k);
    assert TrimEnd(x + k) == x + ke by {
      assert x[|x| - 1] == sep[|sep| - 1];
      TrimEndKeeps(x, k);
    }
    assert x + ke == p + (v + sep + ke);
    assert (v + sep + ke)[0] == v[0];
    TrimStartKeeps(p, v + sep + ke);
  }

  /** Cutting one character after a version and the separator leaves the version in place. */
  lemma CutVersioned(b: string, v: string, sep: string, t: string)
    requires ClearSeparator(sep) && IsVersion(v)
    ensures VersionAfter(Cut(b + (v + sep + t), sep), b, v)
  {
    var f := b + (v + sep + t);
    assert f[..|b| + |v|] == b + v;
    assert f[|b| + |v|] == sep[0];
    var r := Cut(f, sep);
    assert r[..|b| + |v|] == f[..|b| + |v|];
  }

  /**
   * A versioned key starts with the trimmed base and the version, and the
   * version is followed by a non-digit or by nothing.
   */
  lemma VersionedShape(g: FinallyKeyGenerator, key: Option<string>, v: string)
    requires ClearSeparator(g.keySeparator) && IsVersion(v)
    ensures VersionAfter(Generate(g, key, Some(v)), TrimStart(Base(g)), v)
  {
    var sep, k := g.keySeparator, KeyPart(key);
    TrimVersioned(Base(g), v, sep, k);
    CutVersioned(TrimStart(Base(g)), v, sep, TrimEnd(k));
  }

  /** Two digit runs that both follow `b` in `r` are the same run. */
  lemma VersionsAgree(r: string, b: string, v1: string, v2: string)
    requires IsVersion(v1) && IsVersion(v2) && VersionAfter(r, b, v1) && VersionAfter(r, b, v2)
    ensures v1 == v2
  {
    var rest := r[|b|..];
    assert rest == v1 + r[|b| + |v1|..];
    assert rest == v2 + r[|b| + |v2|..];
    DigitRunsAgree(v1, r[|b| + |v1|..], v2, r[|b| + |v2|..]);
  }

  /** Equal storage keys of one generator carry equal versions, whatever the keys. */
  lemma EqualKeysHaveEqualVersions(g: FinallyKeyGenerator, k1: Option<string>, v1: string, k2: Option<string>, v2: string)
    requires ClearSeparator(g.keySeparator) && IsVersion(v1) && IsVersion(v2)
    requires Generate(g, k1, Some(v1)) == Generate(g, k2, Some(v2))
    ensures v1 == v2
  {
    VersionedShape(g, k1, v1);
    VersionedShape(g, k2, v2);
    VersionsAgree(Generate(g, k1, Some(v1)), TrimStart(Base(g)), v1, v2);
  }

  /** `Finish` of a base and a clean name that starts with a non-digit keeps the trimmed base in front of that non-digit. */
  lemma FinishUnversioned(p: string, name: string, sep: string)
    requires ClearSeparator(sep)
    requires name != [] && !IsDigit(name[0]) && NoTrimmable(name) && name[|name| - 1] != sep[|sep| - 1]
    ensures NonDigitAfter(Finish(p + name, sep), TrimStart(p))
  {
    FinishKeepsTail(p, name, sep);
    var b := TrimStart(p);
    var f := b + name;
    assert f[..|b|] == b;
    assert f[|b|] == name[0];
  }

  /**
   * The key of an unversioned name that starts with a non-digit and does
   * not end like the separator (the version counter's own key) continues
   * the trimmed base with a non-digit.
   */
  lemma UnversionedShape(g: FinallyKeyGenerator, name: string)
    requires ClearSeparator(g.keySeparator)
    requires name != [] && !IsDigit(name[0]) && NoTrimmable(name)
    requires name[|name| - 1] != g.keySeparator[|g.keySeparator| - 1]
    requires Utf16Length(name) <= KeyMaxLength
    ensures NonDigitAfter(Generate(g, Some(name), None), TrimStart(Base(g)))
  {
    ShortKeyGenerated(g, name, None);
    FinishUnversioned(Base(g), name, g.keySeparator);
  }

  /** A string with a non-digit right after `b` differs from one with a version there. */
  lemma DigitAfterBase(r1: string, r2: string, b: string, v: string)
    requires IsVersion(v) && NonDigitAfter(r1, b) && VersionAfter(r2, b, v)
    ensures r1 != r2
  {
    assert r2[|b|] == (b + v)[|b|];
  }

  /** A versioned entry key never equals the key of such an unversioned name. */
  lemma VersionedKeyIsNotUnversionedKey(g: FinallyKeyGenerator, name: string, key: Option<string>, v: string)
    requires ClearSeparator(g.keySeparator) && IsVersion(v)
    requires name != [] && !IsDigit(name[0]) && NoTrimmable(name)
    requires name[|name| - 1] != g.keySeparator[|g.keySeparator| - 1]
    requires Utf16Length(name) <= KeyMaxLength
    ensures Generate(g, Some(name), None) != Generate(g, key, Some(v))
  {
    UnversionedShape(g, name);
    VersionedShape(g, key, v);
    DigitAfterBase(Generate(g, Some(name), None), Generate(g, key, Some(v)), TrimStart(Base(g)), v);
  }
}
