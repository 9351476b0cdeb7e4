/**
 * The glob patterns of the Redis `KEYS` command, as Redis matches them
 * byte by byte, case sensitively: `*` is any run of bytes, `?` one byte,
 * `[...]` a class (with `^` negation, `a-z` ranges in either order and `\`
 * escapes), `\x` the byte `x`, and anything else itself. `DefaultRedisCacheWriter.clean`
 * hands its pattern to `KEYS`.
 */
module Glob {
  import opened Utf8

  const Star: byte := 0x2A
  const Question: byte := 0x3F
  const Open: byte := 0x5B
  const Close: byte := 0x5D
  const Caret: byte := 0x5E
  const Backslash: byte := 0x5C
  const Dash: byte := 0x2D

  /** The pattern without its leading stars. */
  function DropStars(p: Bytes): (r: Bytes)
    ensures r == [] || r[0] != Star
    ensures |r| <= |p| && (p != [] && p[0] == Star ==> |r| < |p|)
    ensures p == [] || p[0] != Star ==> r == p
  {
    if p != [] && p[0] == Star then DropStars(p[1..]) else p
  }

  /**
   * The body of a class after `[` (and `^`), matched against byte `c`:
   * whether `c` is listed, and the pattern after the closing `]`. A class
   * that is never closed runs to the end of the pattern.
   */
  function ScanClass(p: Bytes, c: byte): (r: (bool, Bytes))
    ensures |r.1| <= |p|
    decreases |p|
  {
    if p == [] then (false, [])
    else if p[0] == Backslash && |p| >= 2 then
      var rest := ScanClass(p[2..], c);
      (rest.0 || p[1] == c, rest.1)
    else if p[0] == Close then (false, p[1..])
    else if |p| >= 3 && p[1] == Dash then
      var lo := if p[0] <= p[2] then p[0] else p[2];
      var hi := if p[0] <= p[2] then p[2] else p[0];
      var rest := ScanClass(p[3..], c);
      (rest.0 || lo <= c <= hi, rest.1)
    else
      var rest := ScanClass(p[1..], c);
      (rest.0 || p[0] == c, rest.1)
  }

  /**
   * Whether subject `s` matches pattern `p`. Matching stops when either
   * runs out, so the empty subject matches only the empty pattern, and a
   * non-empty subject never matches the empty pattern.
   */
  function Match(p: Bytes, s: Bytes): (r: bool)
    ensures s == [] ==> (r <==> p == [])
    ensures p == [] ==> (r <==> s == [])
    decreases |p| + |s|, 2
  {
    if p == [] || s == [] then p == [] && s == []
    else if p[0] == Star then
      var q := DropStars(p);
      q == [] || AnySuffix(q, s)
    else if p[0] == Question then Continue(p[1..], s[1..])
    else if p[0] == Open then
      var negate := |p| >= 2 && p[1] == Caret;
      var scan := ScanClass(if negate then p[2..] else p[1..], s[0]);
      scan.0 != negate && Continue(scan.1, s[1..])
    else if p[0] == Backslash && |p| >= 2 then p[1] == s[0] && Continue(p[2..], s[1..])
    else p[0] == s[0] && Continue(p[1..], s[1..])
  }

  /** After one subject byte is consumed: once the subject is used up, only stars may remain. */
  function Continue(p: Bytes, s: Bytes): bool
    decreases |p| + |s|, 3
  {
    if s == [] then DropStars(p) == [] else Match(p, s)
  }

  /** A star followed by `q`: `q` matches some non-empty suffix of `s`. */
  function AnySuffix(q: Bytes, s: Bytes): bool
    decreases |q| + |s|, 3
  {
    s != [] && (Match(q, s) || AnySuffix(q, s[1..]))
  }

  /** No byte of `b` has a meaning in a pattern. */
  predicate Plain(b: Bytes) {
    forall i :: 0 <= i < |b| ==> b[i] != Star && b[i] != Question && b[i] != Open && b[i] != Backslash
  }

  /** A lone star matches every key except the empty one. */
  lemma StarMatchesNonEmpty(s: Bytes)
    ensures Match([Star], s) <==> s != []
  {
    if s != [] {
      assert DropStars([Star]) == DropStars([Star][1..]);
    }
  }

  /**
   * A plain, non-empty text followed by a star matches exactly the keys
   * that start with that text, the text itself included.
   */
  lemma {:induction false} PlainPrefixStar(b: Bytes, s: Bytes)
    requires b != [] && Plain(b)
    ensures Match(b + [Star], s) <==> |b| <= |s| && s[..|b|] == b
    decreases |b|
  {
    var p := b + [Star];
    if s != [] {
      var rest := b[1..];
      assert p[1..] == rest + [Star];
      assert b == [b[0]] + rest;
      if rest == [] {
        StarMatchesNonEmpty(s[1..]);
        assert DropStars(p[1..]) == [];
      } else {
        assert Plain(rest) by {
          forall i | 0 <= i < |rest|
            ensures rest[i] != Star && rest[i] != Question && rest[i] != Open && rest[i] != Backslash
          {
            assert rest[i] == b[i + 1];
          }
        }
        assert rest[0] == b[1];
        if s[1..] == [] {
          assert DropStars(p[1..]) == p[1..];
        } else {
          PlainPrefixStar(rest, s[1..]);
          assert |b| <= |s| && s[..|b|] == b <==> |rest| <= |s[1..]| && s[1..][..|rest|] == rest && s[0] == b[0] by {
            if |b| <= |s| {
              assert s[..|b|] == [s[0]] + s[1..][..|rest|];
            }
          }
        }
      }
    }
  }
}
