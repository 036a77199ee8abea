// SHA-256 as the JavaScript computes it, with operators that yield signed
// 32-bit numbers and sums that leave 32 bits, against FIPS 180-4.
module Sha256 {
  import opened JsonText
  import opened Utf8

  /** A 32-bit word, as the unsigned number it stands for. */
  type Word = x: int | 0 <= x < 0x1_0000_0000

  function Bits(w: Word): bv32 { w as bv32 }

  function Number(b: bv32): Word { b as int }

  lemma BitsOfNumber(b: bv32)
    ensures Bits(Number(b)) == b
  {
  }

  // Operations on bits

  function XorBits(a: bv32, b: bv32): bv32 { a ^ b }

  function AndBits(a: bv32, b: bv32): bv32 { a & b }

  function OrBits(a: bv32, b: bv32): bv32 { a | b }

  function NotBits(a: bv32): bv32 { !a }

  function LeftBits(a: bv32, k: nat): bv32
    requires k < 32
  {
    a << k
  }

  function RightBits(a: bv32, k: nat): bv32
    requires k < 32
  {
    a >> k
  }

  /** Bit i of a word, counted from the least significant one. */
  predicate IsSet(a: bv32, i: bv32)
    requires i < 32
  {
    (a << (31 - i)) >= 0x8000_0000
  }

  // The bitwise operations, bit by bit

  lemma XorBitwise(a: bv32, b: bv32, i: bv32)
    requires i < 32
    ensures IsSet(XorBits(a, b), i) <==> IsSet(a, i) != IsSet(b, i)
  {
  }

  lemma AndBitwise(a: bv32, b: bv32, i: bv32)
    requires i < 32
    ensures IsSet(AndBits(a, b), i) <==> IsSet(a, i) && IsSet(b, i)
  {
  }

  lemma OrBitwise(a: bv32, b: bv32, i: bv32)
    requires i < 32
    ensures IsSet(OrBits(a, b), i) <==> IsSet(a, i) || IsSet(b, i)
  {
  }

  lemma NotBitwise(a: bv32, i: bv32)
    requires i < 32
    ensures IsSet(NotBits(a), i) <==> !IsSet(a, i)
  {
  }

  /** Bits move to the left, and zeros come in. */
  lemma LeftShift(a: bv32, k: nat, i: bv32)
    requires k < 32 && i < 32
    ensures i < k as bv32 ==> !IsSet(LeftBits(a, k), i)
    ensures i >= k as bv32 ==> IsSet(LeftBits(a, k), i) == IsSet(a, i - k as bv32)
  {
  }

  /** Bits move to the right, and zeros come in. */
  lemma RightShift(a: bv32, k: nat, i: bv32)
    requires k < 32 && i < 32
    ensures i + k as bv32 < 32 ==> IsSet(RightBits(a, k), i) == IsSet(a, i + k as bv32)
    ensures i + k as bv32 >= 32 ==> !IsSet(RightBits(a, k), i)
  {
    if i + k as bv32 >= 32 {
      NothingFromTheLeft(a, k as bv32, i);
    }
  }

  lemma NothingFromTheLeft(a: bv32, k: bv32, i: bv32)
    requires k < 32 && i < 32 && i + k >= 32
    ensures !IsSet(a >> k, i)
  {
  }

  // Operations on words, FIPS 180-4 section 2.2.2

  function XorWord(a: Word, b: Word): Word { Number(XorBits(Bits(a), Bits(b))) }

  function AndWord(a: Word, b: Word): Word { Number(AndBits(Bits(a), Bits(b))) }

  function OrWord(a: Word, b: Word): Word { Number(OrBits(Bits(a), Bits(b))) }

  function NotWord(a: Word): Word { Number(NotBits(Bits(a))) }

  function LeftWord(a: Word, k: nat): Word
    requires k < 32
  {
    Number(LeftBits(Bits(a), k))
  }

  function RightWord(a: Word, k: nat): Word
    requires k < 32
  {
    Number(RightBits(Bits(a), k))
  }

  // JavaScript's numbers: integers here, since every sum stays far below 2^53

  /** `x >>> 0`, and what a `Uint32Array` stores. */
  function ToUint32(x: int): Word { x % 0x1_0000_0000 }

  /** The signed number that `^`, `&`, `|`, `~` and `<<` give for the bits of a word. */
  function ToInt32(w: Word): int {
    if w >= 0x8000_0000 then w - 0x1_0000_0000 else w
  }

  function JsXor(x: int, y: int): int { ToInt32(XorWord(ToUint32(x), ToUint32(y))) }

  function JsAnd(x: int, y: int): int { ToInt32(AndWord(ToUint32(x), ToUint32(y))) }

  function JsOr(x: int, y: int): int { ToInt32(OrWord(ToUint32(x), ToUint32(y))) }

  function JsNot(x: int): int { ToInt32(NotWord(ToUint32(x))) }

  function JsShl(x: int, k: nat): int
    requires k < 32
  {
    ToInt32(LeftWord(ToUint32(x), k))
  }

  /** `x >>> k`. */
  function JsShr(x: int, k: nat): Word
    requires k < 32
  {
    RightWord(ToUint32(x), k)
  }

  lemma WordOfSigned(w: Word)
    ensures ToUint32(ToInt32(w)) == w && ToUint32(w) == w
  {
  }

  // FIPS 180-4, sections 3.2, 4.1.2, 4.2.2 and 5.3.3

  // Sums modulo 2^32, which is `(x + y) >>> 0` in the JavaScript.

  function Sum2(a: int, b: int): Word { (a + b) % 0x1_0000_0000 }

  function Sum4(a: int, b: int, c: int, d: int): Word { (a + b + c + d) % 0x1_0000_0000 }

  function Sum5(a: int, b: int, c: int, d: int, e: int): Word { (a + b + c + d + e) % 0x1_0000_0000 }

  function Rotr(x: Word, n: nat): Word
    requires 0 < n < 32
  {
    OrWord(RightWord(x, n), LeftWord(x, 32 - n))
  }

  function Ch(x: Word, y: Word, z: Word): Word {
    XorWord(AndWord(x, y), AndWord(NotWord(x), z))
  }

  function Maj(x: Word, y: Word, z: Word): Word {
    XorWord(XorWord(AndWord(x, y), AndWord(x, z)), AndWord(y, z))
  }

  function BigSigma0(x: Word): Word { XorWord(XorWord(Rotr(x, 2), Rotr(x, 13)), Rotr(x, 22)) }

  function BigSigma1(x: Word): Word { XorWord(XorWord(Rotr(x, 6), Rotr(x, 11)), Rotr(x, 25)) }

  function SmallSigma0(x: Word): Word { XorWord(XorWord(Rotr(x, 7), Rotr(x, 18)), RightWord(x, 3)) }

  function SmallSigma1(x: Word): Word { XorWord(XorWord(Rotr(x, 17), Rotr(x, 19)), RightWord(x, 10)) }

  const K: seq<Word> :=
    [0x428a2f98, 0x71374491, 0xb5c0fbcf, 0xe9b5dba5, 0x3956c25b, 0x59f111f1, 0x923f82a4, 0xab1c5ed5]
    + [0xd807aa98, 0x12835b01, 0x243185be, 0x550c7dc3, 0x72be5d74, 0x80deb1fe, 0x9bdc06a7, 0xc19bf174]
    + [0xe49b69c1, 0xefbe4786, 0x0fc19dc6, 0x240ca1cc, 0x2de92c6f, 0x4a7484aa, 0x5cb0a9dc, 0x76f988da]
    + [0x983e5152, 0xa831c66d, 0xb00327c8, 0xbf597fc7, 0xc6e00bf3, 0xd5a79147, 0x06ca6351, 0x14292967]
    + [0x27b70a85, 0x2e1b2138, 0x4d2c6dfc, 0x53380d13, 0x650a7354, 0x766a0abb, 0x81c2c92e, 0x92722c85]
    + [0xa2bfe8a1, 0xa81a664b, 0xc24b8b70, 0xc76c51a3, 0xd192e819, 0xd6990624, 0xf40e3585, 0x106aa070]
    + [0x19a4c116, 0x1e376c08, 0x2748774c, 0x34b0bcb5, 0x391c0cb3, 0x4ed8aa4a, 0x5b9cca4f, 0x682e6ff3]
    + [0x748f82ee, 0x78a5636f, 0x84c87814, 0x8cc70208, 0x90befffa, 0xa4506ceb, 0xbef9a3f7, 0xc67178f2]

  const INITIAL_HASH: seq<Word> := [
    0x6a09e667, 0xbb67ae85, 0x3c6ef372, 0xa54ff53a, 0x510e527f, 0x9b05688c, 0x1f83d9ab, 0x5be0cd19]

  // FIPS 180-4, section 5.1.1: padding

  /** `paddedSha256Length`. */
  function PaddedLength(n: nat): nat {
    var lengthWithOneBit := n + 1;
    var paddingLength := (64 - (lengthWithOneBit + 8) % 64) % 64;
    lengthWithOneBit + paddingLength + 8
  }

  /** The least multiple of 64 that has room for the message, the one bit and the length. */
  lemma PaddedLengthIsLeast(n: nat)
    ensures PaddedLength(n) % 64 == 0 && PaddedLength(n) >= n + 9
    ensures forall m: nat :: m % 64 == 0 && m >= n + 9 ==> PaddedLength(n) <= m
  {
  }

  /** k zero bits after the one bit leave room for the length in the last block. */
  predicate FillsBlock(l: nat, k: nat) {
    (l + 1 + k) % 512 == 448
  }

  lemma BlockIsFilled(x: int, q: int)
    ensures x == 512 * q + 448 ==> x % 512 == 448
    ensures 512 * q - 64 < x < 512 * q + 448 ==> x % 512 != 448
  {
  }

  /** As the standard says it in bits: the least k with l + 1 + k congruent to 448 modulo 512. */
  lemma PaddingBits(n: nat)
    ensures var l, k := 8 * n, 8 * (PaddedLength(n) - n - 9) + 7;
      FillsBlock(l, k) && forall j: nat :: j < k ==> !FillsBlock(l, j)
  {
    hide PaddedLength;
    PaddedLengthIsLeast(n);
    var p := PaddedLength(n);
    var l, k, q := 8 * n, 8 * (p - n - 9) + 7, p / 64 - 1;
    assert p - 64 < n + 9 by { NoShorterPadding(n); }
    assert l + 1 + k == 512 * q + 448 && k < 512;
    BlockIsFilled(l + 1 + k, q);
    forall j: nat | j < k
      ensures !FillsBlock(l, j)
    {
      BlockIsFilled(l + 1 + j, q);
    }
  }

  lemma NoShorterPadding(n: nat)
    ensures PaddedLength(n) - 64 < n + 9
  {
  }

  /** `writeUint64BigEndian`: the octets of a 64-bit length. */
  function LengthOctets(value: bv64): seq<Octet> {
    [((value >> 56) & 0xff) as bv32, ((value >> 48) & 0xff) as bv32, ((value >> 40) & 0xff) as bv32,
     ((value >> 32) & 0xff) as bv32, ((value >> 24) & 0xff) as bv32, ((value >> 16) & 0xff) as bv32,
     ((value >> 8) & 0xff) as bv32, (value & 0xff) as bv32]
  }

  function FromOctets(a: bv64, b: bv64, c: bv64, d: bv64, e: bv64, f: bv64, g: bv64, h: bv64): bv64 {
    (a << 56) | (b << 48) | (c << 40) | (d << 32) | (e << 24) | (f << 16) | (g << 8) | h
  }

  lemma LengthBits(value: bv64)
    ensures FromOctets((value >> 56) & 0xff, (value >> 48) & 0xff, (value >> 40) & 0xff, (value >> 32) & 0xff,
                       (value >> 24) & 0xff, (value >> 16) & 0xff, (value >> 8) & 0xff, value & 0xff) == value
  {
  }

  lemma WidenedAgain(x: bv64)
    requires x <= 0xff
    ensures (x as bv32) as bv64 == x
  {
  }

  /** The length field reads back as the length. */
  lemma LengthReadsBack(value: bv64)
    ensures var o := LengthOctets(value);
      FromOctets(o[0] as bv64, o[1] as bv64, o[2] as bv64, o[3] as bv64, o[4] as bv64, o[5] as bv64, o[6] as bv64,
                 o[7] as bv64) == value
  {
    hide FromOctets;
    LengthBits(value);
    WidenedAgain((value >> 56) & 0xff);
    WidenedAgain((value >> 48) & 0xff);
    WidenedAgain((value >> 40) & 0xff);
    WidenedAgain((value >> 32) & 0xff);
    WidenedAgain((value >> 24) & 0xff);
    WidenedAgain((value >> 16) & 0xff);
    WidenedAgain((value >> 8) & 0xff);
    WidenedAgain(value & 0xff);
  }

  function Zeros(n: nat): seq<Octet> {
    seq(n, _ => 0)
  }

  /** The longest input: beyond it a JavaScript number no longer holds the length in bits exactly. */
  const LIMIT := 0x4_0000_0000_0000

  /** The padded message. */
  function Pad(m: seq<Octet>): (r: seq<Octet>)
    requires |m| < LIMIT
    ensures |r| == PaddedLength(|m|) && |r| % 64 == 0
  {
    PaddedLengthIsLeast(|m|);
    m + [0x80] + Zeros(PaddedLength(|m|) - |m| - 9) + LengthOctets((8 * |m|) as bv64)
  }

  // FIPS 180-4, section 6.2.2: the hash computation

  function BigEndian(a: Octet, b: Octet, c: Octet, d: Octet): Word {
    Number(OrBits(OrBits(OrBits(LeftBits(a, 24), LeftBits(b, 16)), LeftBits(c, 8)), d))
  }

  /** The message schedule W of a block. */
  function Schedule(block: seq<Octet>, t: nat): Word
    requires |block| == 64
  {
    if t < 16 then BigEndian(block[4 * t], block[4 * t + 1], block[4 * t + 2], block[4 * t + 3])
    else
      Sum4(SmallSigma1(Schedule(block, t - 2)), Schedule(block, t - 7),
           SmallSigma0(Schedule(block, t - 15)), Schedule(block, t - 16))
  }

  /** The working variables. */
  datatype Vars = Vars(a: Word, b: Word, c: Word, d: Word, e: Word, f: Word, g: Word, h: Word)

  function T1(v: Vars, k: Word, w: Word): Word {
    Sum5(v.h, BigSigma1(v.e), Ch(v.e, v.f, v.g), k, w)
  }

  function T2(v: Vars): Word {
    Sum2(BigSigma0(v.a), Maj(v.a, v.b, v.c))
  }

  function Round(v: Vars, k: Word, w: Word): Vars {
    Vars(Sum2(T1(v, k, w), T2(v)), v.a, v.b, v.c, Sum2(v.d, T1(v, k, w)), v.e, v.f, v.g)
  }

  function FromState(s: seq<Word>): Vars
    requires |s| == 8
  {
    Vars(s[0], s[1], s[2], s[3], s[4], s[5], s[6], s[7])
  }

  function Rounds(s: seq<Word>, block: seq<Octet>, t: nat): Vars
    requires |s| == 8 && |block| == 64 && t <= 64
  {
    if t == 0 then FromState(s) else Round(Rounds(s, block, t - 1), K[t - 1], Schedule(block, t - 1))
  }

  function Add(s: seq<Word>, v: Vars): (r: seq<Word>)
    requires |s| == 8
    ensures |r| == 8
  {
    [Sum2(s[0], v.a), Sum2(s[1], v.b), Sum2(s[2], v.c), Sum2(s[3], v.d),
     Sum2(s[4], v.e), Sum2(s[5], v.f), Sum2(s[6], v.g), Sum2(s[7], v.h)]
  }

  /** The ith block of 512 bits. */
  function Block(data: seq<Octet>, i: nat): (r: seq<Octet>)
    requires 64 * i + 64 <= |data|
    ensures |r| == 64
  {
    data[64 * i..64 * i + 64]
  }

  function HashBlocks(data: seq<Octet>, n: nat): (r: seq<Word>)
    requires 64 * n <= |data|
    ensures |r| == 8
  {
    if n == 0 then INITIAL_HASH
    else
      var before := HashBlocks(data, n - 1);
      Add(before, Rounds(before, Block(data, n - 1), 64))
  }

  /** The digest of the standard, as eight words. */
  function Digest(m: seq<Octet>): (r: seq<Word>)
    requires |m| < LIMIT
    ensures |r| == 8
  {
    HashBlocks(Pad(m), |Pad(m)| / 64)
  }

  // The JavaScript's expressions

  function RotateRight(value: int, shift: nat): Word
    requires 0 < shift < 32
  {
    ToUint32(JsOr(JsShr(value, shift), JsShl(value, 32 - shift)))
  }

  lemma RotateRightIsRotr(w: Word, shift: nat)
    requires 0 < shift < 32
    ensures RotateRight(w, shift) == Rotr(w, shift)
  {
    hide ToUint32, ToInt32, OrWord, LeftWord, RightWord;
    WordOfSigned(w);
    WordOfSigned(RightWord(w, shift));
    WordOfSigned(LeftWord(w, 32 - shift));
    WordOfSigned(Rotr(w, shift));
  }

  lemma WordOfXor(x: int, y: int)
    ensures ToUint32(JsXor(x, y)) == XorWord(ToUint32(x), ToUint32(y))
  {
    hide ToUint32, ToInt32, XorWord;
    WordOfSigned(XorWord(ToUint32(x), ToUint32(y)));
  }

  lemma WordOfXor3(x: int, y: int, z: int)
    ensures ToUint32(JsXor(JsXor(x, y), z)) == XorWord(XorWord(ToUint32(x), ToUint32(y)), ToUint32(z))
  {
    hide ToUint32, JsXor, XorWord;
    WordOfXor(JsXor(x, y), z);
    WordOfXor(x, y);
  }

  lemma WordOfAnd(x: int, y: int)
    ensures ToUint32(JsAnd(x, y)) == AndWord(ToUint32(x), ToUint32(y))
  {
    hide ToUint32, ToInt32, AndWord;
    WordOfSigned(AndWord(ToUint32(x), ToUint32(y)));
  }

  lemma WordOfNot(x: int)
    ensures ToUint32(JsNot(x)) == NotWord(ToUint32(x))
  {
    hide ToUint32, ToInt32, NotWord;
    WordOfSigned(NotWord(ToUint32(x)));
  }

  function JsSmallSigma0(w: Word): int {
    JsXor(JsXor(RotateRight(w, 7), RotateRight(w, 18)), JsShr(w, 3))
  }

  function JsSmallSigma1(w: Word): int {
    JsXor(JsXor(RotateRight(w, 17), RotateRight(w, 19)), JsShr(w, 10))
  }

  function JsBigSigma0(a: Word): int {
    JsXor(JsXor(RotateRight(a, 2), RotateRight(a, 13)), RotateRight(a, 22))
  }

  function JsBigSigma1(e: Word): int {
    JsXor(JsXor(RotateRight(e, 6), RotateRight(e, 11)), RotateRight(e, 25))
  }

  function JsChoice(e: Word, f: Word, g: Word): int {
    JsXor(JsAnd(e, f), JsAnd(JsNot(e), g))
  }

  function JsMajority(a: Word, b: Word, c: Word): int {
    JsXor(JsXor(JsAnd(a, b), JsAnd(a, c)), JsAnd(b, c))
  }

  lemma RotatesAgree(w: Word, n: nat)
    requires 0 < n < 32
    ensures ToUint32(RotateRight(w, n)) == Rotr(w, n)
  {
    hide ToUint32, RotateRight, Rotr;
    RotateRightIsRotr(w, n);
    WordOfSigned(Rotr(w, n));
  }

  lemma ShiftsAgree(w: Word, n: nat)
    requires n < 32
    ensures ToUint32(JsShr(w, n)) == RightWord(w, n)
  {
    hide ToUint32, RightWord;
    WordOfSigned(w);
    WordOfSigned(RightWord(w, n));
  }

  /** The signed intermediates stand for the standard's words, modulo 2^32. */
  lemma SmallSigmasAgree(w: Word)
    ensures ToUint32(JsSmallSigma0(w)) == SmallSigma0(w) && ToUint32(JsSmallSigma1(w)) == SmallSigma1(w)
  {
    hide ToUint32, JsXor, JsShr, RotateRight, Rotr, XorWord, RightWord;
    RotatesAgree(w, 7);
    RotatesAgree(w, 18);
    ShiftsAgree(w, 3);
    WordOfXor3(RotateRight(w, 7), RotateRight(w, 18), JsShr(w, 3));
    RotatesAgree(w, 17);
    RotatesAgree(w, 19);
    ShiftsAgree(w, 10);
    WordOfXor3(RotateRight(w, 17), RotateRight(w, 19), JsShr(w, 10));
  }

  lemma BigSigmasAgree(w: Word)
    ensures ToUint32(JsBigSigma0(w)) == BigSigma0(w) && ToUint32(JsBigSigma1(w)) == BigSigma1(w)
  {
    hide ToUint32, JsXor, RotateRight, Rotr, XorWord;
    RotatesAgree(w, 2);
    RotatesAgree(w, 13);
    RotatesAgree(w, 22);
    WordOfXor3(RotateRight(w, 2), RotateRight(w, 13), RotateRight(w, 22));
    RotatesAgree(w, 6);
    RotatesAgree(w, 11);
    RotatesAgree(w, 25);
    WordOfXor3(RotateRight(w, 6), RotateRight(w, 11), RotateRight(w, 25));
  }

  lemma ChoicesAgree(e: Word, f: Word, g: Word)
    ensures ToUint32(JsChoice(e, f, g)) == Ch(e, f, g) && ToUint32(JsMajority(e, f, g)) == Maj(e, f, g)
  {
    hide ToUint32, JsXor, JsAnd, JsNot, XorWord, AndWord, NotWord;
    WordOfSigned(e);
    WordOfSigned(f);
    WordOfSigned(g);
    WordOfNot(e);
    WordOfAnd(e, f);
    WordOfAnd(JsNot(e), g);
    WordOfXor(JsAnd(e, f), JsAnd(JsNot(e), g));
    WordOfAnd(e, g);
    WordOfAnd(f, g);
    WordOfXor3(JsAnd(e, f), JsAnd(e, g), JsAnd(f, g));
  }

  // Sums depend on their terms modulo 2^32 only.

  lemma MultiplesVanish(x: int, k: int)
    ensures ToUint32(x + 0x1_0000_0000 * k) == ToUint32(x)
  {
  }

  /** How many times 2^32 a number is away from its word. */
  function Multiple(a: int): (k: int)
    ensures a == ToUint32(a) + 0x1_0000_0000 * k
  {
    a / 0x1_0000_0000
  }

  lemma Sum2Of(a: int, b: int, p: Word, q: Word)
    requires ToUint32(a) == p && ToUint32(b) == q
    ensures ToUint32(a + b) == Sum2(p, q)
  {
    MultiplesVanish(p + q, Multiple(a) + Multiple(b));
  }

  lemma Sum4Of(a: int, b: int, c: int, d: int, p: Word, q: Word, r: Word, s: Word)
    requires ToUint32(a) == p && ToUint32(b) == q && ToUint32(c) == r && ToUint32(d) == s
    ensures ToUint32(a + b + c + d) == Sum4(s, r, q, p)
  {
    hide Multiple;
    var k := Multiple(a) + Multiple(b) + Multiple(c) + Multiple(d);
    MultiplesVanish(p + q + r + s, k);
    assert a + b + c + d == p + q + r + s + 0x1_0000_0000 * k;
  }

  lemma Sum5Of(a: int, b: int, c: int, d: int, e: int, p: Word, q: Word, r: Word, s: Word, t: Word)
    requires ToUint32(a) == p && ToUint32(b) == q && ToUint32(c) == r && ToUint32(d) == s && ToUint32(e) == t
    ensures ToUint32(a + b + c + d + e) == Sum5(p, q, r, s, t)
  {
    hide Multiple;
    var k := Multiple(a) + Multiple(b) + Multiple(c) + Multiple(d) + Multiple(e);
    MultiplesVanish(p + q + r + s + t, k);
    assert a + b + c + d + e == p + q + r + s + t + 0x1_0000_0000 * k;
  }

  /** One step of the schedule: a sum of four numbers, two of them perhaps negative. */
  lemma ScheduleAgrees(w2: Word, w7: Word, w15: Word, w16: Word)
    ensures ToUint32(w16 + JsSmallSigma0(w15) + w7 + JsSmallSigma1(w2))
         == Sum4(SmallSigma1(w2), w7, SmallSigma0(w15), w16)
  {
    hide ToUint32, Sum4, JsSmallSigma0, JsSmallSigma1, SmallSigma0, SmallSigma1;
    SmallSigmasAgree(w2);
    SmallSigmasAgree(w15);
    WordOfSigned(w16);
    WordOfSigned(w7);
    Sum4Of(w16, JsSmallSigma0(w15), w7, JsSmallSigma1(w2), w16, SmallSigma0(w15), w7, SmallSigma1(w2));
  }

  lemma T1Agrees(v: Vars, k: Word, w: Word)
    ensures ToUint32(v.h + JsBigSigma1(v.e) + JsChoice(v.e, v.f, v.g) + k + w) == T1(v, k, w)
  {
    hide ToUint32, Sum5, JsBigSigma1, JsChoice, BigSigma1, Ch;
    BigSigmasAgree(v.e);
    ChoicesAgree(v.e, v.f, v.g);
    WordOfSigned(v.h);
    WordOfSigned(k);
    WordOfSigned(w);
    Sum5Of(v.h, JsBigSigma1(v.e), JsChoice(v.e, v.f, v.g), k, w, v.h, BigSigma1(v.e), Ch(v.e, v.f, v.g), k, w);
  }

  lemma T2Agrees(v: Vars)
    ensures ToUint32(JsBigSigma0(v.a) + JsMajority(v.a, v.b, v.c)) == T2(v)
  {
    hide ToUint32, Sum2, JsBigSigma0, JsMajority, BigSigma0, Maj;
    BigSigmasAgree(v.a);
    ChoicesAgree(v.a, v.b, v.c);
    Sum2Of(JsBigSigma0(v.a), JsMajority(v.a, v.b, v.c), BigSigma0(v.a), Maj(v.a, v.b, v.c));
  }

  /** One pass of the inner loop is one round of the standard. */
  lemma RoundAgrees(v: Vars, k: Word, w: Word)
    ensures var temp1 := ToUint32(v.h + JsBigSigma1(v.e) + JsChoice(v.e, v.f, v.g) + k + w);
      var temp2 := ToUint32(JsBigSigma0(v.a) + JsMajority(v.a, v.b, v.c));
      Round(v, k, w) == Vars(Sum2(temp1, temp2), v.a, v.b, v.c, Sum2(v.d, temp1), v.e, v.f, v.g)
  {
    hide ToUint32, Sum2, JsBigSigma0, JsBigSigma1, JsMajority, JsChoice, T1, T2;
    T1Agrees(v, k, w);
    T2Agrees(v);
  }

  lemma OrOfNumbers(a: bv32, b: bv32)
    ensures OrWord(Number(a), Number(b)) == Number(OrBits(a, b))
  {
    hide Bits, Number, OrBits;
    BitsOfNumber(a);
    BitsOfNumber(b);
  }

  lemma ShiftOfNumber(a: bv32, k: nat)
    requires k < 32
    ensures LeftWord(Number(a), k) == Number(LeftBits(a, k))
  {
    hide Bits, Number, LeftBits;
    BitsOfNumber(a);
  }

  lemma WordOfOr(x: int, y: int)
    ensures ToUint32(JsOr(x, y)) == OrWord(ToUint32(x), ToUint32(y))
  {
    hide ToUint32, ToInt32, OrWord;
    WordOfSigned(OrWord(ToUint32(x), ToUint32(y)));
  }

  lemma WordOfShl(w: Word, k: nat)
    requires k < 32
    ensures ToUint32(JsShl(w, k)) == LeftWord(w, k)
  {
    hide ToUint32, ToInt32, LeftWord;
    WordOfSigned(w);
    WordOfSigned(LeftWord(w, k));
  }

  /** Four bytes make a big-endian word. */
  lemma BytesAgree(a: Octet, b: Octet, c: Octet, d: Octet)
    ensures ToUint32(JsOr(JsOr(JsOr(JsShl(Number(a), 24), JsShl(Number(b), 16)), JsShl(Number(c), 8)), Number(d)))
         == BigEndian(a, b, c, d)
  {
    hide ToUint32, JsOr, JsShl, OrWord, LeftWord, Number, OrBits, LeftBits;
    WordOfShl(Number(a), 24);
    WordOfShl(Number(b), 16);
    WordOfShl(Number(c), 8);
    WordOfSigned(Number(d));
    ShiftOfNumber(a, 24);
    ShiftOfNumber(b, 16);
    ShiftOfNumber(c, 8);
    WordOfOr(JsShl(Number(a), 24), JsShl(Number(b), 16));
    WordOfOr(JsOr(JsShl(Number(a), 24), JsShl(Number(b), 16)), JsShl(Number(c), 8));
    WordOfOr(JsOr(JsOr(JsShl(Number(a), 24), JsShl(Number(b), 16)), JsShl(Number(c), 8)), Number(d));
    OrOfNumbers(LeftBits(a, 24), LeftBits(b, 16));
    OrOfNumbers(OrBits(LeftBits(a, 24), LeftBits(b, 16)), LeftBits(c, 8));
    OrOfNumbers(OrBits(OrBits(LeftBits(a, 24), LeftBits(b, 16)), LeftBits(c, 8)), d);
  }

  // The loops

  /** Fills the first sixteen words from the bytes of a block. */
  method LoadWords(data: array<Octet>, blockOffset: nat, words: array<Word>)
    requires words.Length == 64 && blockOffset + 64 <= data.Length
    modifies words
    ensures forall t :: 0 <= t < 16 ==> words[t] == Schedule(data[blockOffset..blockOffset + 64], t)
  {
    hide ToUint32, JsOr, JsShl, BigEndian, Number;
    ghost var block := data[blockOffset..blockOffset + 64];
    for index := 0 to 16
      invariant forall t :: 0 <= t < index ==> words[t] == Schedule(block, t)
    {
      var offset := blockOffset + index * 4;
      BytesAgree(data[offset], data[offset + 1], data[offset + 2], data[offset + 3]);
      words[index] := ToUint32(
        JsOr(JsOr(JsOr(JsShl(Number(data[offset]), 24), JsShl(Number(data[offset + 1]), 16)),
                  JsShl(Number(data[offset + 2]), 8)), Number(data[offset + 3])));
      LoadedWord(block, index, data[offset], data[offset + 1], data[offset + 2], data[offset + 3]);
    }
  }

  lemma LoadedWord(block: seq<Octet>, t: nat, a: Octet, b: Octet, c: Octet, d: Octet)
    requires |block| == 64 && t < 16
    requires a == block[4 * t] && b == block[4 * t + 1] && c == block[4 * t + 2] && d == block[4 * t + 3]
    ensures Schedule(block, t) == BigEndian(a, b, c, d)
  {
    hide BigEndian;
  }

  lemma ExpandedWord(block: seq<Octet>, t: nat)
    requires |block| == 64 && t >= 16
    ensures Schedule(block, t)
         == Sum4(SmallSigma1(Schedule(block, t - 2)), Schedule(block, t - 7),
                 SmallSigma0(Schedule(block, t - 15)), Schedule(block, t - 16))
  {
    hide Sum4, SmallSigma0, SmallSigma1;
  }

  /** Expands the schedule to sixty-four words. */
  method ExpandWords(words: array<Word>, ghost block: seq<Octet>)
    requires words.Length == 64 && |block| == 64
    requires forall t :: 0 <= t < 16 ==> words[t] == Schedule(block, t)
    modifies words
    ensures forall t :: 0 <= t < 64 ==> words[t] == Schedule(block, t)
  {
    hide ToUint32, Sum4, JsSmallSigma0, JsSmallSigma1, SmallSigma0, SmallSigma1, Schedule;
    for index := 16 to 64
      invariant forall t :: 0 <= t < index ==> words[t] == Schedule(block, t)
    {
      var s0 := JsSmallSigma0(words[index - 15]);
      var s1 := JsSmallSigma1(words[index - 2]);
      ScheduleAgrees(words[index - 2], words[index - 7], words[index - 15], words[index - 16]);
      ExpandedWord(block, index);
      words[index] := ToUint32(words[index - 16] + s0 + words[index - 7] + s1);
    }
  }

  /** The sixty-four rounds on the working variables, and their addition to the state. */
  method CompressBlock(state: array<Word>, words: array<Word>, ghost block: seq<Octet>)
    requires state.Length == 8 && words.Length == 64 && |block| == 64 && state != words
    requires forall t :: 0 <= t < 64 ==> words[t] == Schedule(block, t)
    modifies state
    ensures state[..] == Add(old(state[..]), Rounds(old(state[..]), block, 64))
  {
    hide ToUint32, Round, Schedule, JsBigSigma0, JsBigSigma1, JsChoice, JsMajority, Sum2;
    ghost var before := state[..];
    var a: Word, b: Word, c: Word, d: Word := state[0], state[1], state[2], state[3];
    var e: Word, f: Word, g: Word, h: Word := state[4], state[5], state[6], state[7];
    for index := 0 to 64
      invariant state[..] == before
      invariant Vars(a, b, c, d, e, f, g, h) == Rounds(before, block, index)
    {
      RoundAgrees(Vars(a, b, c, d, e, f, g, h), K[index], words[index]);
      var sum1 := JsBigSigma1(e);
      var choice := JsChoice(e, f, g);
      var temp1 := ToUint32(h + sum1 + choice + K[index] + words[index]);
      var sum0 := JsBigSigma0(a);
      var majority := JsMajority(a, b, c);
      var temp2 := ToUint32(sum0 + majority);
      h := g;
      g := f;
      f := e;
      e := Sum2(d, temp1);
      d := c;
      c := b;
      b := a;
      a := Sum2(temp1, temp2);
    }
    state[0] := Sum2(state[0], a);
    state[1] := Sum2(state[1], b);
    state[2] := Sum2(state[2], c);
    state[3] := Sum2(state[3], d);
    state[4] := Sum2(state[4], e);
    state[5] := Sum2(state[5], f);
    state[6] := Sum2(state[6], g);
    state[7] := Sum2(state[7], h);
  }

  /** The padded copy of the input in a buffer of its own. */
  method PadInto(bytes: seq<Octet>) returns (data: array<Octet>)
    requires |bytes| < LIMIT
    ensures fresh(data) && data[..] == Pad(bytes)
  {
    hide LengthOctets;
    var totalLength := PaddedLength(|bytes|);
    PaddedLengthIsLeast(|bytes|);
    data := new Octet[totalLength](_ => 0);
    for i := 0 to |bytes|
      invariant forall j :: 0 <= j < i ==> data[j] == bytes[j]
      invariant forall j :: i <= j < totalLength ==> data[j] == 0
    {
      data[i] := bytes[i];
    }
    data[|bytes|] := 0x80;
    ghost var length := (8 * |bytes|) as bv64;
    WriteUint64BigEndian(data, totalLength - 8, (8 * |bytes|) as bv64);
    assert data[totalLength - 8..] == data[totalLength - 8..totalLength - 8 + 8];
    PadParts(bytes, data[..]);
  }

  /** The eight bytes at an offset, from the two halves of the number. */
  method WriteUint64BigEndian(data: array<Octet>, offset: nat, value: bv64)
    requires offset + 8 <= data.Length
    modifies data
    ensures data[..offset] == old(data[..offset]) && data[offset + 8..] == old(data[offset + 8..])
    ensures data[offset..offset + 8] == LengthOctets(value)
  {
    hide HighByte, LowByte, LengthOctets;
    HalvesAgree(value);
    data[offset] := HighByte(value, 24);
    data[offset + 1] := HighByte(value, 16);
    data[offset + 2] := HighByte(value, 8);
    data[offset + 3] := HighByte(value, 0);
    data[offset + 4] := LowByte(value, 24);
    data[offset + 5] := LowByte(value, 16);
    data[offset + 6] := LowByte(value, 8);
    data[offset + 7] := LowByte(value, 0);
  }

  /** `(high >>> shift) & 0xff` of the upper half. */
  function HighByte(value: bv64, shift: nat): Octet
    requires shift < 32
  {
    (((value / 0x1_0000_0000) >> shift) & 0xff) as bv32
  }

  /** `(low >>> shift) & 0xff` of the lower half. */
  function LowByte(value: bv64, shift: nat): Octet
    requires shift < 32
  {
    (((value & 0xffff_ffff) >> shift) & 0xff) as bv32
  }

  lemma HalvesAgree(value: bv64)
    ensures LengthOctets(value) == [
      HighByte(value, 24), HighByte(value, 16), HighByte(value, 8), HighByte(value, 0),
      LowByte(value, 24), LowByte(value, 16), LowByte(value, 8), LowByte(value, 0)]
  {
  }

  lemma FourParts<T>(data: seq<T>, n: nat, m: nat)
    requires n < m <= |data|
    ensures data == data[..n] + [data[n]] + data[n + 1..m] + data[m..]
  {
  }

  lemma ZeroPart(data: seq<Octet>, n: nat, m: nat)
    requires n <= m <= |data| && forall j :: n <= j < m ==> data[j] == 0
    ensures data[n..m] == Zeros(m - n)
  {
  }

  lemma SamePart(data: seq<Octet>, n: nat, part: seq<Octet>)
    requires n + |part| <= |data| && forall j :: 0 <= j < |part| ==> data[n + j] == part[j]
    ensures data[n..n + |part|] == part
  {
  }

  lemma PadParts(bytes: seq<Octet>, data: seq<Octet>)
    requires |bytes| < LIMIT && |data| == PaddedLength(|bytes|) && PaddedLength(|bytes|) >= |bytes| + 9
    requires forall j :: 0 <= j < |bytes| ==> data[j] == bytes[j]
    requires data[|bytes|] == 0x80
    requires forall j :: |bytes| < j < |data| - 8 ==> data[j] == 0
    requires data[|data| - 8..] == LengthOctets((8 * |bytes|) as bv64)
    ensures data == Pad(bytes)
  {
    hide LengthOctets, PaddedLength, Zeros;
    var n, m := |bytes|, |data| - 8;
    FourParts(data, n, m);
    SamePart(data, 0, bytes);
    ZeroPart(data, n + 1, m);
  }

  /** `sha256Hex` up to the hexadecimal text: the digest of the standard, for every input that fits. */
  method Sha256Words(bytes: seq<Octet>) returns (digest: seq<Word>)
    requires |bytes| < LIMIT
    ensures digest == Digest(bytes)
  {
    hide Pad, Rounds, Add, Schedule, PaddedLength;
    var data := PadInto(bytes);
    var state := new Word[8](i requires 0 <= i < 8 => INITIAL_HASH[i]);
    var words := new Word[64](_ => 0);
    ghost var padded := Pad(bytes);
    assert state[..] == INITIAL_HASH;
    var blocks := data.Length / 64;
    for i := 0 to blocks
      invariant data[..] == padded && state[..] == HashBlocks(padded, i)
    {
      var blockOffset := i * 64;
      assert data[blockOffset..blockOffset + 64] == Block(padded, i);
      LoadWords(data, blockOffset, words);
      ExpandWords(words, Block(padded, i));
      CompressBlock(state, words, Block(padded, i));
    }
    digest := state[..];
  }

  // The text of a digest

  function HexChar(n: int): char
    requires 0 <= n < 16
  {
    if n < 10 then '0' + n as char else 'a' + (n - 10) as char
  }

  /** `word.toString(16).padStart(digits, "0")` of a word with at most that many digits. */
  function Hex(w: int, digits: nat): string
    requires w >= 0
  {
    if digits == 0 then "" else Hex(w / 16, digits - 1) + [HexChar(w % 16)]
  }

  function HexText(words: seq<Word>): string {
    if words == [] then "" else HexText(words[..|words| - 1]) + Hex(words[|words| - 1], 8)
  }

  function Power16(n: nat): nat {
    if n == 0 then 1 else 16 * Power16(n - 1)
  }

  /** The value of a lower-case hexadecimal digit. */
  function DigitValue(c: char): int {
    if '0' <= c <= '9' then c as int - 0x30 else if 'a' <= c <= 'f' then c as int - 0x57 else -1
  }

  /** The number a text of hexadecimal digits stands for, most significant digit first. */
  function NumberOf(text: string): int {
    if text == "" then 0 else 16 * NumberOf(text[..|text| - 1]) + DigitValue(text[|text| - 1])
  }

  /** The text of a word is its eight hexadecimal digits. */
  lemma {:induction false} HexReadsBack(w: int, digits: nat)
    requires 0 <= w < Power16(digits)
    ensures |Hex(w, digits)| == digits && NumberOf(Hex(w, digits)) == w
    ensures forall c :: c in Hex(w, digits) ==> DigitValue(c) >= 0
    decreases digits
  {
    if digits > 0 {
      HexReadsBack(w / 16, digits - 1);
      var front := Hex(w / 16, digits - 1);
      assert (front + [HexChar(w % 16)])[..digits - 1] == front;
      assert DigitValue(HexChar(w % 16)) == w % 16;
    }
  }

  /** The text of a digest, word by word. */
  lemma {:induction false} TextReadsBack(words: seq<Word>, i: nat)
    requires i < |words|
    ensures |HexText(words)| == 8 * |words| && NumberOf(HexText(words)[8 * i..8 * i + 8]) == words[i]
    ensures forall c :: c in HexText(words) ==> DigitValue(c) >= 0
    decreases |words|
  {
    hide Hex, NumberOf, DigitValue;
    var n := |words| - 1;
    assert Power16(8) == 0x1_0000_0000;
    HexReadsBack(words[n], 8);
    var front := HexText(words[..n]);
    if n > 0 {
      TextReadsBack(words[..n], if i < n then i else 0);
    }
    if i < n {
      assert (front + Hex(words[n], 8))[8 * i..8 * i + 8] == front[8 * i..8 * i + 8];
    } else {
      assert (front + Hex(words[n], 8))[8 * n..8 * n + 8] == Hex(words[n], 8);
    }
  }

  lemma {:induction false} HexTellsApart(a: int, b: int, digits: nat)
    requires 0 <= a < Power16(digits) && 0 <= b < Power16(digits)
    ensures |Hex(a, digits)| == |Hex(b, digits)| == digits
    decreases digits
    ensures Hex(a, digits) == Hex(b, digits) ==> a == b
  {
    if digits > 0 {
      HexTellsApart(a / 16, b / 16, digits - 1);
      if Hex(a, digits) == Hex(b, digits) {
        assert Hex(a, digits)[..digits - 1] == Hex(a / 16, digits - 1);
        assert Hex(b, digits)[..digits - 1] == Hex(b / 16, digits - 1);
        assert Hex(a, digits)[digits - 1] == Hex(b, digits)[digits - 1];
      }
    }
  }

  lemma {:induction false} TextsTellApart(a: seq<Word>, b: seq<Word>)
    requires |a| == |b|
    ensures |HexText(a)| == |HexText(b)| == 8 * |a|
    ensures HexText(a) == HexText(b) ==> a == b
    decreases |a|
  {
    hide Hex;
    if a != [] {
      var n := |a| - 1;
      TextsTellApart(a[..n], b[..n]);
      assert Power16(8) == 0x1_0000_0000;
      HexTellsApart(a[n], b[n], 8);
      if HexText(a) == HexText(b) {
        assert HexText(a)[..8 * n] == HexText(a[..n]) && HexText(b)[..8 * n] == HexText(b[..n]);
        assert HexText(a)[8 * n..] == Hex(a[n], 8) && HexText(b)[8 * n..] == Hex(b[n], 8);
        assert a == a[..n] + [a[n]] && b == b[..n] + [b[n]];
      }
    }
  }
}
