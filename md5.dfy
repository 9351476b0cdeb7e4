/**
 * The MD5 message digest (RFC 1321) and its lower-case hexadecimal form,
 * as Spring's `DigestUtils.md5DigestAsHex` produces it.
 */
module Md5 {
  import opened Utf8

  type Word = bv32

  datatype State = State(a: Word, b: Word, c: Word, d: Word)

  const Initial := State(0x67452301, 0xefcdab89, 0x98badcfe, 0x10325476)

  /** The sine table of section 3.4 of RFC 1321. */
  const T: seq<Word> := [
    0xd76aa478, 0xe8c7b756, 0x242070db, 0xc1bdceee, 0xf57c0faf, 0x4787c62a, 0xa8304613, 0xfd469501,
    0x698098d8, 0x8b44f7af, 0xffff5bb1, 0x895cd7be, 0x6b901122, 0xfd987193, 0xa679438e, 0x49b40821,
    0xf61e2562, 0xc040b340, 0x265e5a51, 0xe9b6c7aa, 0xd62f105d, 0x02441453, 0xd8a1e681, 0xe7d3fbc8,
    0x21e1cde6, 0xc33707d6, 0xf4d50d87, 0x455a14ed, 0xa9e3e905, 0xfcefa3f8, 0x676f02d9, 0x8d2a4c8a,
    0xfffa3942, 0x8771f681, 0x6d9d6122, 0xfde5380c, 0xa4beea44, 0x4bdecfa9, 0xf6bb4b60, 0xbebfbc70,
    0x289b7ec6, 0xeaa127fa, 0xd4ef3085, 0x04881d05, 0xd9d4d039, 0xe6db99e5, 0x1fa27cf8, 0xc4ac5665,
    0xf4292244, 0x432aff97, 0xab9423a7, 0xfc93a039, 0x655b59c3, 0x8f0ccc92, 0xffeff47d, 0x85845dd1,
    0x6fa87e4f, 0xfe2ce6e0, 0xa3014314, 0x4e0811a1, 0xf7537e82, 0xbd3af235, 0x2ad7d2bb, 0xeb86d391
  ]

  /** The rotation amount of operation `i` (0 to 63). */
  function Shift(i: nat): (s: nat)
    requires i < 64
    ensures s <= 32
  {
    var round := i / 16;
    var k := i % 4;
    if round == 0 then [7, 12, 17, 22][k]
    else if round == 1 then [5, 9, 14, 20][k]
    else if round == 2 then [4, 11, 16, 23][k]
    else [6, 10, 15, 21][k]
  }

  /** Operation `i` of the compression function on the working state. */
  function Step(i: nat, s: State, x: seq<Word>): State
    requires i < 64 && |x| == 16
  {
    var b, c, d := s.b, s.c, s.d;
    var f: Word :=
      if i < 16 then (b & c) | (!b & d)
      else if i < 32 then (d & b) | (!d & c)
      else if i < 48 then b ^ c ^ d
      else c ^ (b | !d);
    var g :=
      if i < 16 then i
      else if i < 32 then (5 * i + 1) % 16
      else if i < 48 then (3 * i + 5) % 16
      else (7 * i) % 16;
    var sum := s.a + f + T[i] + x[g];
    State(d, b + sum.RotateLeft(Shift(i)), b, c)
  }

  /** Rounds `r` to 3 of section 3.4 of RFC 1321, sixteen operations each. */
  function Rounds(r: nat, s: State, x: seq<Word>): State
    requires r <= 4 && |x| == 16
    decreases 4 - r, 17
  {
    if r == 4 then s else Operations(r, 0, s, x)
  }

  /** Operations `j` to 15 of round `r`, then the rounds after it. */
  function Operations(r: nat, j: nat, s: State, x: seq<Word>): State
    requires r < 4 && j <= 16 && |x| == 16
    decreases 4 - r, 16 - j
  {
    if j == 16 then Rounds(r + 1, s, x)
    else Operations(r, j + 1, Step(16 * r + j, s, x), x)
  }

  /** The little-endian 32-bit word at `block[4 * j ..]`. */
  function WordAt(block: Bytes, j: nat): Word
    requires 4 * j + 4 <= |block|
  {
    var k := 4 * j;
    (block[k] as int + 0x100 * block[k + 1] as int + 0x1_0000 * block[k + 2] as int
      + 0x100_0000 * block[k + 3] as int) as Word
  }

  /** One 64-byte block folded into the chaining state. */
  function Compress(h: State, block: Bytes): State
    requires |block| == 64
  {
    var x := seq(16, j requires 0 <= j < 16 => WordAt(block, j));
    var s := Rounds(0, h, x);
    State(h.a + s.a, h.b + s.b, h.c + s.c, h.d + s.d)
  }

  /**
   * The digest of a message whose first blocks have been folded into `h`
   * and whose remaining `blocks` blocks are `data`: the rest folded in
   * order, then the final state written out.
   */
  function DigestFrom(h: State, data: Bytes, blocks: nat): (r: Bytes)
    requires |data| == 64 * blocks
    ensures |r| == 16
    decreases blocks, 1
  {
    if blocks == 0 then Output(h) else Absorb(h, data, blocks)
  }

  /** The first of the remaining blocks folded into `h`, then the digest of the rest. */
  function Absorb(h: State, data: Bytes, blocks: nat): (r: Bytes)
    requires 0 < blocks && |data| == 64 * blocks
    ensures |r| == 16
    decreases blocks, 0
  {
    DigestFrom(Compress(h, data[..64]), data[64..], blocks - 1)
  }

  /** Section 3.5 of RFC 1321: A, B, C, D, each low-order byte first. */
  function Output(h: State): (r: Bytes)
    ensures |r| == 16
  {
    LittleEndian(h.a as int, 4) + LittleEndian(h.b as int, 4)
      + LittleEndian(h.c as int, 4) + LittleEndian(h.d as int, 4)
  }

  /** The `count` low-order bytes of `n`, least significant first. */
  function LittleEndian(n: nat, count: nat): (r: Bytes)
    ensures |r| == count
  {
    if count == 0 then [] else [(n % 0x100) as byte] + LittleEndian(n / 0x100, count - 1)
  }

  /** Section 3.1 and 3.2 of RFC 1321: a 1 bit, zeros to 56 mod 64, the bit length. */
  function Pad(message: Bytes): (r: Bytes)
    ensures |r| % 64 == 0 && |r| > |message|
    ensures r[..|message|] == message
  {
    var zeros := PadZeros(|message|);
    var bitLength := |message| * 8 % 0x1_0000_0000_0000_0000;
    var tail := [0x80] + seq(zeros, _ => 0) + LittleEndian(bitLength, 8);
    assert (message + tail)[..|message|] == message;
    message + tail
  }

  /** The number of zero bytes that brings a message of `n` bytes, its 0x80 and its length field to a whole block. */
  function PadZeros(n: nat): (z: nat)
    ensures z < 64 && (n + 1 + z + 8) % 64 == 0
  {
    var q := n % 64;
    assert n == 64 * (n / 64) + q;
    if q <= 55 then
      assert n + 1 + (55 - q) + 8 == 64 * (n / 64 + 1);
      55 - q
    else
      assert n + 1 + (119 - q) + 8 == 64 * (n / 64 + 2);
      119 - q
  }

  function Digest(message: Bytes): (r: Bytes)
    ensures |r| == 16
  {
    var padded := Pad(message);
    DigestFrom(Initial, padded, |padded| / 64)
  }

  predicate IsLowerHex(c: char) {
    '0' <= c <= '9' || 'a' <= c <= 'f'
  }

  function HexDigit(n: nat): (c: char)
    requires n < 16
    ensures IsLowerHex(c)
  {
    "0123456789abcdef"[n]
  }

  /** Two lower-case hex digits per byte, high nibble first. */
  function Hex(bytes: Bytes): (r: string)
    ensures |r| == 2 * |bytes|
    ensures forall i :: 0 <= i < |r| ==> IsLowerHex(r[i])
  {
    if bytes == [] then []
    else [HexDigit(bytes[0] as int / 16), HexDigit(bytes[0] as int % 16)] + Hex(bytes[1..])
  }

  /** `DigestUtils.md5DigestAsHex`: always 32 lower-case hexadecimal digits. */
  function Md5Hex(message: Bytes): (r: string)
    ensures |r| == 32
    ensures forall i :: 0 <= i < |r| ==> IsLowerHex(r[i])
  {
    Hex(Digest(message))
  }
}
