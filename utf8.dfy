/** UTF-8 encoding of strings (`String.getBytes(StandardCharsets.UTF_8)`). */
module Utf8 {

  /** An unsigned byte. */
  newtype byte = x: int | 0 <= x < 0x100

  type Bytes = seq<byte>

  /** The low six bits of `n` as a continuation byte `10xxxxxx`. */
  function Continuation(n: nat): (b: byte)
    ensures b >= 0x80
  {
    (0x80 + n % 0x40) as byte
  }

  /** The UTF-8 encoding of one Unicode scalar value. */
  function EncodeChar(c: char): (r: Bytes)
    ensures 1 <= |r| <= 4
    ensures c as int < 0x80 <==> |r| == 1
    ensures |r| == 1 ==> r[0] as int == c as int
    ensures |r| > 1 ==> forall i :: 0 <= i < |r| ==> r[i] >= 0x80
  {
    var n := c as int;
    if n < 0x80 then [n as byte]
    else if n < 0x800 then
      [(0xC0 + n / 0x40 % 0x20) as byte, Continuation(n)]
    else if n < 0x1_0000 then
      [(0xE0 + n / 0x1000 % 0x10) as byte, Continuation(n / 0x40), Continuation(n)]
    else
      [(0xF0 + n / 0x4_0000 % 8) as byte, Continuation(n / 0x1000), Continuation(n / 0x40), Continuation(n)]
  }

  function Encode(s: string): (r: Bytes)
    ensures |s| <= |r| <= 4 * |s|
  {
    if s == [] then [] else EncodeChar(s[0]) + Encode(s[1..])
  }

  lemma {:induction false} EncodeAppend(a: string, b: string)
    ensures Encode(a + b) == Encode(a) + Encode(b)
    decreases |a|
  {
    if a == [] {
      assert a + b == b;
    } else {
      assert (a + b)[1..] == a[1..] + b;
      EncodeAppend(a[1..], b);
    }
  }

  /** A string of ASCII characters encodes byte for byte. */
  lemma {:induction false} EncodeAscii(s: string)
    requires forall i :: 0 <= i < |s| ==> s[i] as int < 0x80
    ensures |Encode(s)| == |s|
    ensures forall i :: 0 <= i < |s| ==> Encode(s)[i] as int == s[i] as int
    decreases |s|
  {
    if s != [] {
      EncodeAscii(s[1..]);
    }
  }

  /**
   * A byte below 0x80 occurs in the encoding only where the string holds
   * that very ASCII character: multi-byte sequences use bytes from 0x80 up.
   */
  lemma {:induction false} EncodeAsciiBytes(s: string, b: byte)
    requires b < 0x80
    requires forall i :: 0 <= i < |s| ==> s[i] as int != b as int
    ensures forall i :: 0 <= i < |Encode(s)| ==> Encode(s)[i] != b
    decreases |s|
  {
    if s != [] {
      EncodeAsciiBytes(s[1..], b);
      var head := EncodeChar(s[0]);
      assert Encode(s) == head + Encode(s[1..]);
      forall i | 0 <= i < |Encode(s)|
        ensures Encode(s)[i] != b
      {
        if i >= |head| {
          assert Encode(s)[i] == Encode(s[1..])[i - |head|];
        }
      }
    }
  }
}
