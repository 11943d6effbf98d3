/** The streaming MD5 of codec.c against the message digest of RFC 1321. */
module Md5 {
  import opened Bytes

  const TWO_32 := 0x1_0000_0000
  const TWO_64 := 0x1_0000_0000_0000_0000

  type u32 = x: int | 0 <= x < TWO_32

  // ---- the compression function ------------------------------------------------

  /** The four chaining words. */
  datatype Chain = Chain(a: bv32, b: bv32, c: bv32, d: bv32)

  const INITIAL := Chain(0x67452301, 0xefcdab89, 0x98badcfe, 0x10325476)

  // One MD5STEP: which message word it adds, the constant, and the rotation.
  datatype Row = Row(word: nat, constant: bv32, shift: nat)

  function F1(x: bv32, y: bv32, z: bv32): bv32 {
    z ^ (x & (y ^ z))
  }

  function Mix(round: nat, x: bv32, y: bv32, z: bv32): bv32 {
    if round == 0 then F1(x, y, z) else if round == 1 then F1(z, x, y) else if round == 2 then x ^ y ^ z else y ^ (x | !z)
  }

  /** The macro's F1 to F4 are the functions F, G, H and I of section 3.4. */
  lemma MixMeaning(x: bv32, y: bv32, z: bv32)
    ensures Mix(0, x, y, z) == (x & y) | (!x & z) && Mix(1, x, y, z) == (x & z) | (y & !z)
    ensures Mix(2, x, y, z) == x ^ y ^ z && Mix(3, x, y, z) == y ^ (x | !z)
  {
  }

  function Round1(i: nat): (r: Row)
    requires i < 16
    ensures r.word < 16 && r.shift < 32
  {
    [
      Row(0, 0xd76aa478, 7), Row(1, 0xe8c7b756, 12),
      Row(2, 0x242070db, 17), Row(3, 0xc1bdceee, 22),
      Row(4, 0xf57c0faf, 7), Row(5, 0x4787c62a, 12),
      Row(6, 0xa8304613, 17), Row(7, 0xfd469501, 22),
      Row(8, 0x698098d8, 7), Row(9, 0x8b44f7af, 12),
      Row(10, 0xffff5bb1, 17), Row(11, 0x895cd7be, 22),
      Row(12, 0x6b901122, 7), Row(13, 0xfd987193, 12),
      Row(14, 0xa679438e, 17), Row(15, 0x49b40821, 22)
    ][i]
  }

  function Round2(i: nat): (r: Row)
    requires i < 16
    ensures r.word < 16 && r.shift < 32
  {
    [
      Row(1, 0xf61e2562, 5), Row(6, 0xc040b340, 9),
      Row(11, 0x265e5a51, 14), Row(0, 0xe9b6c7aa, 20),
      Row(5, 0xd62f105d, 5), Row(10, 0x02441453, 9),
      Row(15, 0xd8a1e681, 14), Row(4, 0xe7d3fbc8, 20),
      Row(9, 0x21e1cde6, 5), Row(14, 0xc33707d6, 9),
      Row(3, 0xf4d50d87, 14), Row(8, 0x455a14ed, 20),
      Row(13, 0xa9e3e905, 5), Row(2, 0xfcefa3f8, 9),
      Row(7, 0x676f02d9, 14), Row(12, 0x8d2a4c8a, 20)
    ][i]
  }

  function Round3(i: nat): (r: Row)
    requires i < 16
    ensures r.word < 16 && r.shift < 32
  {
    [
      Row(5, 0xfffa3942, 4), Row(8, 0x8771f681, 11),
      Row(11, 0x6d9d6122, 16), Row(14, 0xfde5380c, 23),
      Row(1, 0xa4beea44, 4), Row(4, 0x4bdecfa9, 11),
      Row(7, 0xf6bb4b60, 16), Row(10, 0xbebfbc70, 23),
      Row(13, 0x289b7ec6, 4), Row(0, 0xeaa127fa, 11),
      Row(3, 0xd4ef3085, 16), Row(6, 0x04881d05, 23),
      Row(9, 0xd9d4d039, 4), Row(12, 0xe6db99e5, 11),
      Row(15, 0x1fa27cf8, 16), Row(2, 0xc4ac5665, 23)
    ][i]
  }

  function Round4(i: nat): (r: Row)
    requires i < 16
    ensures r.word < 16 && r.shift < 32
  {
    [
      Row(0, 0xf4292244, 6), Row(7, 0x432aff97, 10),
      Row(14, 0xab9423a7, 15), Row(5, 0xfc93a039, 21),
      Row(12, 0x655b59c3, 6), Row(3, 0x8f0ccc92, 10),
      Row(10, 0xffeff47d, 15), Row(1, 0x85845dd1, 21),
      Row(8, 0x6fa87e4f, 6), Row(15, 0xfe2ce6e0, 10),
      Row(6, 0xa3014314, 15), Row(13, 0x4e0811a1, 21),
      Row(4, 0xf7537e82, 6), Row(11, 0xbd3af235, 10),
      Row(2, 0x2ad7d2bb, 15), Row(9, 0xeb86d391, 21)
    ][i]
  }

  function Listing(i: nat): (r: Row)
    requires i < 64
    ensures r.word < 16 && r.shift < 32
  {
    if i < 16 then Round1(i) else if i < 32 then Round2(i - 16) else if i < 48 then Round3(i - 32) else Round4(i - 48)
  }

  // What section 3.4 says of step i: the message word and the rotation.
  function RfcWord(i: nat): (k: nat)
    requires i < 64
    ensures k < 16
  {
    if i < 16 then i else if i < 32 then (5 * i + 1) % 16 else if i < 48 then (3 * i + 5) % 16 else (7 * i) % 16
  }

  function RfcShift(i: nat): (s: nat)
    requires i < 64
    ensures s < 32
  {
    var q := i % 4;
    if i < 16 then (if q == 0 then 7 else if q == 1 then 12 else if q == 2 then 17 else 22)
    else if i < 32 then (if q == 0 then 5 else if q == 1 then 9 else if q == 2 then 14 else 20)
    else if i < 48 then (if q == 0 then 4 else if q == 1 then 11 else if q == 2 then 16 else 23)
    else (if q == 0 then 6 else if q == 1 then 10 else if q == 2 then 15 else 21)
  }

  lemma Round1Follows(i: nat)
    requires i < 16
    ensures Round1(i).word == RfcWord(i + 0) && Round1(i).shift == RfcShift(i + 0)
  {
    if
    case i < 8 =>
    case 8 <= i =>
  }

  lemma Round2Follows(i: nat)
    requires i < 16
    ensures Round2(i).word == RfcWord(i + 16) && Round2(i).shift == RfcShift(i + 16)
  {
    if
    case i < 8 =>
    case 8 <= i =>
  }

  lemma Round3Follows(i: nat)
    requires i < 16
    ensures Round3(i).word == RfcWord(i + 32) && Round3(i).shift == RfcShift(i + 32)
  {
    if
    case i < 8 =>
    case 8 <= i =>
  }

  lemma Round4Follows(i: nat)
    requires i < 16
    ensures Round4(i).word == RfcWord(i + 48) && Round4(i).shift == RfcShift(i + 48)
  {
    if
    case i < 8 =>
    case 8 <= i =>
  }

  /** The listing takes the message words and rotations in the order of section 3.4. */
  lemma ListingFollowsRfc(i: nat)
    requires i < 64
    ensures Listing(i).word == RfcWord(i) && Listing(i).shift == RfcShift(i)
  {
    hide RfcWord;
    hide RfcShift;
    hide Round1;
    hide Round2;
    hide Round3;
    hide Round4;
    if
    case i < 16 => Round1Follows(i);
    case 16 <= i < 32 => Round2Follows(i - 16);
    case 32 <= i < 48 => Round3Follows(i - 32);
    case 48 <= i => Round4Follows(i - 48);
  }

  function LittleEndian(s: seq<byte>, i: nat): bv32
    requires i + 4 <= |s|
  {
    (s[i] as bv32) | (s[i + 1] as bv32 << 8) | (s[i + 2] as bv32 << 16) | (s[i + 3] as bv32 << 24)
  }

  // Addition modulo 2^32.
  function Sum(x: bv32, y: bv32): bv32 {
    x + y
  }

  function Rotate(w: bv32, s: nat): bv32
    requires s < 32
  {
    (w << s) | (w >> (32 - s))
  }

  // A step rotates the registers, so that the next one again updates the first of them.
  function Step(row: Row, round: nat, h: Chain, block: seq<byte>): Chain
    requires row.word < 16 && row.shift < 32 && |block| == 64
  {
    var w := Sum(h.a, Sum(Mix(round, h.b, h.c, h.d), Sum(LittleEndian(block, 4 * row.word), row.constant)));
    Chain(h.d, Sum(Rotate(w, row.shift), h.b), h.b, h.c)
  }

  function Steps(n: nat, h: Chain, block: seq<byte>): Chain
    requires n <= 64 && |block| == 64
  {
    if n == 0 then h else Step(Listing(n - 1), (n - 1) / 16, Steps(n - 1, h, block), block)
  }

  // ---- the steps as section 3.4 writes them --------------------------------------

  /** The functions F, G, H and I. */
  function RfcMix(round: nat, x: bv32, y: bv32, z: bv32): bv32 {
    if round == 0 then (x & y) | (!x & z) else if round == 1 then (x & z) | (y & !z) else if round == 2 then x ^ y ^ z
    else y ^ (x | !z)
  }

  /** a = b + ((a + F(b, c, d) + X[k] + T[i]) <<< s) */
  function RfcStep(round: nat, a: bv32, b: bv32, c: bv32, d: bv32, x: bv32, t: bv32, s: nat): bv32
    requires s < 32
  {
    Sum(b, Rotate(Sum(a, Sum(RfcMix(round, b, c, d), Sum(x, t))), s))
  }

  lemma MixIsRfcMix(round: nat, x: bv32, y: bv32, z: bv32)
    requires round < 4
    ensures Mix(round, x, y, z) == RfcMix(round, x, y, z)
  {
    MixMeaning(x, y, z);
    hide Mix;
  }

  lemma SumCommutes(x: bv32, y: bv32)
    ensures Sum(x, y) == Sum(y, x)
  {
  }

  lemma StepIsRfcStep(row: Row, round: nat, h: Chain, block: seq<byte>)
    requires row.word < 16 && row.shift < 32 && |block| == 64 && round < 4
    ensures Step(row, round, h, block) ==
      Chain(h.d, RfcStep(round, h.a, h.b, h.c, h.d, LittleEndian(block, 4 * row.word), row.constant, row.shift), h.b, h.c)
  {
    hide Mix;
    hide RfcMix;
    hide Rotate;
    hide Sum;
    hide LittleEndian;
    MixIsRfcMix(round, h.b, h.c, h.d);
    var x := LittleEndian(block, 4 * row.word);
    SumCommutes(Rotate(Sum(h.a, Sum(RfcMix(round, h.b, h.c, h.d), Sum(x, row.constant))), row.shift), h.b);
  }

  // What step i writes to the register that holds a.
  function Written(i: nat, block: seq<byte>, a: bv32, b: bv32, c: bv32, d: bv32): bv32
    requires i < 64 && |block| == 64
  {
    RfcStep(i / 16, a, b, c, d, LittleEndian(block, 4 * RfcWord(i)), Listing(i).constant, RfcShift(i))
  }

  lemma OneStep(i: nat, h: Chain, block: seq<byte>)
    requires i < 64 && |block| == 64
    ensures var v := Steps(i, h, block); Steps(i + 1, h, block) == Chain(v.d, Written(i, block, v.a, v.b, v.c, v.d), v.b, v.c)
  {
    ListingFollowsRfc(i);
    StepIsRfcStep(Listing(i), i / 16, Steps(i, h, block), block);
    hide Step;
    hide RfcStep;
    hide LittleEndian;
    hide RfcWord;
    hide RfcShift;
    hide Listing;
  }

  /** Four steps in a row: [ABCD k s i], [DABC k s i], [CDAB k s i] and [BCDA k s i]. */
  lemma FourSteps(n: nat, h: Chain, block: seq<byte>)
    requires n + 4 <= 64 && |block| == 64
    ensures var v := Steps(n, h, block);
      var a := Written(n, block, v.a, v.b, v.c, v.d);
      var d := Written(n + 1, block, v.d, a, v.b, v.c);
      var c := Written(n + 2, block, v.c, d, a, v.b);
      var b := Written(n + 3, block, v.b, c, d, a);
      Steps(n + 4, h, block) == Chain(a, b, c, d)
  {
    hide Steps;
    hide Written;
    OneStep(n, h, block);
    OneStep(n + 1, h, block);
    OneStep(n + 2, h, block);
    OneStep(n + 3, h, block);
  }

  const STEPS: nat := 64

  function Transform(h: Chain, block: seq<byte>): Chain
    requires |block| == 64
  {
    var r := Steps(STEPS, h, block);
    Chain(h.a + r.a, h.b + r.b, h.c + r.c, h.d + r.d)
  }

  // ---- the digest --------------------------------------------------------------

  // Compresses the complete 64-byte blocks of s.
  function Fold(h: Chain, s: seq<byte>): Chain
    decreases |s|
  {
    if |s| < 64 then h else Fold(Transform(h, s[..64]), s[64..])
  }

  function ByteOf(n: int): byte {
    (n % 256) as byte
  }

  function Le32(n: u32): (s: seq<byte>)
    ensures |s| == 4
  {
    [ByteOf(n), ByteOf(n / 0x100), ByteOf(n / 0x1_0000), ByteOf(n / 0x100_0000)]
  }

  // The least number of zeros that brings a message of length n, and one byte more, to 56 modulo 64.
  function ZeroCount(n: nat): (k: nat)
    ensures k < 64 && (n + 1 + k) % 64 == 56
  {
    (119 - n % 64) % 64
  }

  function LengthBytes(n: nat): (s: seq<byte>)
    ensures |s| == 8
  {
    var bits := 8 * n % TWO_64;
    Le32(bits % TWO_32) + Le32(bits / TWO_32)
  }

  lemma EightMore(v: nat)
    requires v % 64 == 56
    ensures (v + 8) % 64 == 0
  {
  }

  /** Sections 3.1 and 3.2: a one bit, zeros, and the length in bits, low word first. */
  function Padding(n: nat): (s: seq<byte>)
    ensures (n + |s|) % 64 == 0
  {
    hide ZeroCount;
    hide LengthBytes;
    EightMore(n + 1 + ZeroCount(n));
    [0x80] + Repeat(0, ZeroCount(n)) + LengthBytes(n)
  }

  function WordLe(w: bv32): (s: seq<byte>)
    ensures |s| == 4
  {
    [(w & 0xff) as byte, ((w >> 8) & 0xff) as byte, ((w >> 16) & 0xff) as byte, (w >> 24) as byte]
  }

  function ChainBytes(h: Chain): (s: seq<byte>)
    ensures |s| == 16
  {
    WordLe(h.a) + WordLe(h.b) + WordLe(h.c) + WordLe(h.d)
  }

  /** The message digest. */
  function Digest(message: seq<byte>): (d: seq<byte>)
    ensures |d| == 16
  {
    ChainBytes(Fold(INITIAL, message + Padding(|message|)))
  }

  // ---- blocks ------------------------------------------------------------------

  lemma {:induction false} FoldAppend(h: Chain, n: nat, s: seq<byte>, t: seq<byte>)
    requires |s| == 64 * n
    ensures Fold(h, s + t) == Fold(Fold(h, s), t)
    decreases n
  {
    hide Transform;
    if n == 0 {
      assert s + t == t;
    } else {
      assert (s + t)[..64] == s[..64] && (s + t)[64..] == s[64..] + t;
      FoldAppend(Transform(h, s[..64]), n - 1, s[64..], t);
    }
  }

  // The bytes after the last complete block.
  function Tail(s: seq<byte>): (t: seq<byte>)
    ensures |t| == |s| % 64
  {
    s[|s| - |s| % 64..]
  }

  lemma WholePart(v: nat)
    ensures v - v % 64 == 64 * (v / 64)
  {
  }

  lemma FoldIgnoresTail(h: Chain, s: seq<byte>)
    ensures Fold(h, s) == Fold(h, s[..|s| - |s| % 64])
  {
    hide Transform;
    WholePart(|s|);
    var whole, rest := s[..|s| - |s| % 64], s[|s| - |s| % 64..];
    FoldAppend(h, |s| / 64, whole, rest);
    assert s == whole + rest;
  }

  lemma WholeBlocks(v: nat, k: nat)
    requires v % 64 + k == 64
    ensures v - v % 64 == 64 * (v / 64) && (v + k) % 64 == 0
  {
    assert (64 * (v / 64 + 1)) % 64 == 0;
  }

  lemma FoldOneBlock(h: Chain, n: nat, whole: seq<byte>, last: seq<byte>)
    requires |whole| == 64 * n && |last| == 64
    ensures Fold(h, whole + last) == Transform(Fold(h, whole), last)
  {
    hide Transform;
    FoldAppend(h, n, whole, last);
    assert last[..64] == last;
  }

  /** Completing the pending block compresses it and leaves the rest. */
  lemma FoldCompletes(h: Chain, s: seq<byte>, t: seq<byte>)
    requires |Tail(s)| + |t| == 64
    ensures Fold(h, s + t) == Transform(Fold(h, s), Tail(s) + t) && |s + t| % 64 == 0
  {
    hide Transform;
    hide Fold;
    WholeBlocks(|s|, |t|);
    var whole := s[..|s| - |s| % 64];
    assert s + t == whole + (Tail(s) + t);
    FoldOneBlock(h, |s| / 64, whole, Tail(s) + t);
    FoldIgnoresTail(h, s);
  }

  lemma FoldOneMore(h: Chain, s: seq<byte>, t: seq<byte>)
    requires |s| % 64 == 0 && |t| == 64
    ensures Fold(h, s + t) == Transform(Fold(h, s), t) && |s + t| % 64 == 0
  {
    hide Fold;
    hide Transform;
    FoldCompletes(h, s, t);
    assert Tail(s) + t == t;
  }

  /** Bytes that do not complete the pending block only wait in it. */
  lemma FoldWaits(h: Chain, s: seq<byte>, t: seq<byte>)
    requires |Tail(s)| + |t| < 64
    ensures Fold(h, s + t) == Fold(h, s) && Tail(s + t) == Tail(s) + t && |Tail(s + t)| == |Tail(s)| + |t|
  {
    hide Transform;
    var k := |s| - |s| % 64;
    assert |s + t| - |s + t| % 64 == k;
    assert (s + t)[..k] == s[..k] && (s + t)[k..] == s[k..] + t;
    FoldIgnoresTail(h, s);
    FoldIgnoresTail(h, s + t);
  }

  // ---- the bit count -----------------------------------------------------------

  /** The two-word count of bits stays exact modulo 2^64; the carry is seen from the low word alone. */
  lemma CountAdvances(n: nat, len: u32, low: u32, high: u32)
    requires high * TWO_32 + low == 8 * n % TWO_64
    ensures var low' := (low + 8 * len % TWO_32) % TWO_32;
            var carried := if low' < low then (high + 1) % TWO_32 else high;
            var high' := (carried + len / 0x2000_0000) % TWO_32;
            high' * TWO_32 + low' == 8 * (n + len) % TWO_64
  {
    var lo, hi := 8 * len % TWO_32, len / 0x2000_0000;
    assert 8 * len == hi * TWO_32 + lo;
    var low' := (low + lo) % TWO_32;
    var carry := if low' < low then 1 else 0;
    assert low + lo == carry * TWO_32 + low';
    var sum := high + carry + hi;
    SumTwice(high + carry, hi);
    var q := 8 * n / TWO_64;
    assert 8 * (n + len) == (q + sum / TWO_32) * TWO_64 + (sum % TWO_32 * TWO_32 + low');
    RemainderOf(q + sum / TWO_32, sum % TWO_32 * TWO_32 + low');
  }

  lemma SumTwice(x: nat, y: nat)
    requires x <= TWO_32
    ensures (x % TWO_32 + y) % TWO_32 == (x + y) % TWO_32
    ensures x < TWO_32 ==> x % TWO_32 == x
  {
  }

  lemma RemainderOf(q: nat, r: nat)
    requires r < TWO_64
    ensures (q * TWO_64 + r) % TWO_64 == r
  {
  }

  lemma PendingCount(n: nat, low: u32, high: u32)
    requires high * TWO_32 + low == 8 * n % TWO_64
    ensures low / 8 % 64 == n % 64
  {
    var k := 8 * n / TWO_64 * TWO_32 + high;
    assert 8 * n == TWO_32 * k + low;
    var v := n - 0x2000_0000 * k;
    assert low == 8 * v;
    MultiplesOf64(v, 0x80_0000 * k);
  }

  lemma MultiplesOf64(v: nat, k: nat)
    ensures (v + 64 * k) % 64 == v % 64
  {
  }

  // ---- the end of the message --------------------------------------------------

  lemma PaddingParts(n: nat)
    ensures n % 64 <= 55 ==> Padding(n) == [0x80] + Repeat(0, 55 - n % 64) + LengthBytes(n)
    ensures n % 64 > 55 ==> Padding(n) == ([0x80] + Repeat(0, 63 - n % 64)) + (Repeat(0, 56) + LengthBytes(n))
  {
    hide LengthBytes;
    if n % 64 <= 55 {
      assert ZeroCount(n) == 55 - n % 64;
    } else {
      assert ZeroCount(n) == 119 - n % 64;
      assert Repeat(0, 119 - n % 64) == Repeat(0, 63 - n % 64) + Repeat(0, 56);
    }
  }

  // With room for the length in the pending block there is one last block ...
  lemma OneLastBlock(s: seq<byte>, count: nat)
    requires count == |Tail(s)| <= 55
    ensures Fold(INITIAL, s + Padding(|s|))
         == Transform(Fold(INITIAL, s), (Tail(s) + [0x80]) + Repeat(0, 55 - count) + LengthBytes(|s|))
  {
    PaddingParts(|s|);
    assert |s| % 64 == count;
    hide *;
    var p := Padding(|s|);
    assert |p| == 64 - count;
    FoldCompletes(INITIAL, s, p);
    assert Tail(s) + p == (Tail(s) + [0x80]) + Repeat(0, 55 - count) + LengthBytes(|s|);
  }

  // ... and otherwise two.
  lemma TwoLastBlocks(s: seq<byte>, count: nat)
    requires 55 < count == |Tail(s)|
    ensures |(Tail(s) + [0x80]) + Repeat(0, 63 - count)| == 64
    ensures Fold(INITIAL, s + Padding(|s|))
         == Transform(Transform(Fold(INITIAL, s), (Tail(s) + [0x80]) + Repeat(0, 63 - count)), Repeat(0, 56) + LengthBytes(|s|))
  {
    PaddingParts(|s|);
    assert |s| % 64 == count;
    hide *;
    var first, second := [0x80] + Repeat(0, 63 - count), Repeat(0, 56) + LengthBytes(|s|);
    assert s + (first + second) == (s + first) + second;
    FoldCompletes(INITIAL, s, first);
    FoldOneMore(INITIAL, s + first, second);
    assert Tail(s) + first == (Tail(s) + [0x80]) + Repeat(0, 63 - count);
  }

  // ---- the context -------------------------------------------------------------

  class Context {
    var buf: Chain
    var bits0: u32
    var bits1: u32
    const pending: array<byte>
    ghost var data: seq<byte>

    // The chaining words and the pending block are those of d.
    ghost predicate Absorbed(d: seq<byte>)
      reads this, pending
    {
      pending.Length == 64 && buf == Fold(INITIAL, d) && pending[..|Tail(d)|] == Tail(d)
    }

    // The bit count is that of n bytes.
    ghost predicate Counted(n: nat)
      reads this
    {
      bits1 * TWO_32 + bits0 == 8 * n % TWO_64
    }

    ghost predicate Valid()
      reads this, pending
    {
      Absorbed(data) && Counted(|data|)
    }

    constructor ()
      ensures Valid() && data == [] && fresh(pending)
    {
      hide Transform;
      buf, bits0, bits1 := INITIAL, 0, 0;
      pending := new byte[64](i => 0);
      data := [];
    }

    // Copies len bytes of the input, from offset o, into the pending block at t.
    method Take(input: array<byte>, o: nat, t: nat, len: nat)
      requires pending.Length == 64 && t + len <= 64 && o + len <= input.Length && input != pending
      modifies pending
      ensures pending[..t + len] == old(pending[..t]) + input[o..o + len]
    {
      forall k | 0 <= k < len {
        pending[t + k] := input[o + k];
      }
    }

    method CountBits(len: u32)
      requires Counted(|data|)
      modifies this`bits0, this`bits1
      ensures Counted(|data| + len)
    {
      CountAdvances(|data|, len, bits0, bits1);
      var t := bits0;
      bits0 := (t + 8 * len % TWO_32) % TWO_32;
      if bits0 < t {
        bits1 := (bits1 + 1) % TWO_32;
      }
      bits1 := (bits1 + len / 0x2000_0000) % TWO_32;
    }

    method AbsorbBlock(input: array<byte>, o: nat, ghost d: seq<byte>)
      requires pending.Length == 64 && o + 64 <= input.Length && input != pending
      requires buf == Fold(INITIAL, d) && |d| % 64 == 0
      modifies this`buf, pending
      ensures buf == Fold(INITIAL, d + input[o..o + 64]) && |d + input[o..o + 64]| % 64 == 0
    {
      hide Fold;
      hide Transform;
      Take(input, o, 0, 64);
      assert pending[..] == pending[..64] == input[o..o + 64];
      buf := Transform(buf, pending[..]);
      FoldOneMore(INITIAL, d, input[o..o + 64]);
    }

    // The whole blocks of the input, and what is left of it, once the pending block is empty.
    method AbsorbBlocks(input: array<byte>, o0: nat, len: nat, ghost d: seq<byte>)
      requires Absorbed(d) && |d| % 64 == 0 && o0 <= len <= input.Length && input != pending
      modifies this`buf, pending
      ensures Absorbed(d + input[o0..len])
    {
      hide Fold;
      hide Tail;
      var o := o0;
      ghost var e := d;
      while len - o >= 64
        invariant o0 <= o <= len && e == d + input[o0..o] && |e| % 64 == 0
        invariant buf == Fold(INITIAL, e)
      {
        AbsorbBlock(input, o, e);
        e := e + input[o..o + 64];
        o := o + 64;
      }
      hide Transform;
      Take(input, o, 0, len - o);
      FoldWaits(INITIAL, e, input[o..len]);
      assert e + input[o..len] == d + input[o0..len];
      assert Tail(e) == [];
    }

    // All of the input, when t bytes are pending.
    method Absorb(input: array<byte>, len: nat, t: nat)
      requires Absorbed(data) && t == |data| % 64 && len <= input.Length && input != pending
      modifies this`buf, pending
      ensures Absorbed(data + input[..len])
    {
      hide Fold;
      hide Transform;
      hide Tail;
      if t != 0 {
        var room := 64 - t;
        if len < room {
          Take(input, 0, t, len);
          FoldWaits(INITIAL, data, input[..len]);
          return;
        }
        Take(input, 0, t, room);
        assert pending[..] == pending[..64] == Tail(data) + input[..room];
        buf := Transform(buf, pending[..]);
        FoldCompletes(INITIAL, data, input[..room]);
        ghost var d := data + input[..room];
        AbsorbBlocks(input, room, len, d);
        assert d + input[room..len] == data + input[..len];
      } else {
        AbsorbBlocks(input, 0, len, data);
      }
    }

    /** Adds len bytes; however the data is cut into calls, the context depends on their concatenation only. */
    method Update(input: array<byte>, len: u32)
      requires Valid() && len <= input.Length && input != pending
      modifies this, pending
      ensures Valid() && data == old(data) + input[..len]
    {
      hide Fold;
      hide Tail;
      PendingCount(|data|, bits0, bits1);
      var t := bits0 / 8 % 64;
      CountBits(len);
      Absorb(input, len, t);
      data := data + input[..len];
    }

    method Clear(from: nat, to: nat)
      requires pending.Length == 64 && from <= to <= 64
      modifies pending
      ensures pending[..to] == old(pending[..from]) + Repeat(0, to - from)
    {
      forall k | from <= k < to {
        pending[k] := 0;
      }
    }

    method PutCount()
      requires pending.Length == 64
      modifies pending
      ensures pending[..] == old(pending[..56]) + Le32(bits0) + Le32(bits1)
    {
      var tail := Le32(bits0) + Le32(bits1);
      forall k | 0 <= k < 8 {
        pending[56 + k] := tail[k];
      }
    }

    method Mark(count: nat)
      requires pending.Length == 64 && count < 64
      modifies pending
      ensures pending[..count + 1] == old(pending[..count]) + [0x80]
    {
      pending[count] := 0x80;
    }

    // Two lots of padding: fill and compress this block, and put the count in a second one.
    method FinishInTwo(count: nat)
      requires pending.Length == 64 && 55 < count < 64
      modifies this`buf, pending
      ensures |old(pending[..count + 1]) + Repeat(0, 63 - count)| == 64
      ensures buf == Transform(old(buf), old(pending[..count + 1]) + Repeat(0, 63 - count))
      ensures pending[..] == Repeat(0, 56) + (Le32(bits0) + Le32(bits1))
    {
      hide Transform;
      hide Le32;
      Clear(count + 1, 64);
      assert pending[..] == pending[..64];
      buf := Transform(buf, pending[..]);
      Clear(0, 56);
      PutCount();
    }

    // There is room for the count in the same block.
    method FinishInOne(count: nat)
      requires pending.Length == 64 && count <= 55
      modifies pending
      ensures pending[..] == old(pending[..count + 1]) + Repeat(0, 55 - count) + (Le32(bits0) + Le32(bits1))
    {
      hide Le32;
      Clear(count + 1, 56);
      PutCount();
    }

    // Pads the message and compresses its last blocks.
    method Finish()
      requires Valid()
      modifies this`buf, pending
      ensures buf == Fold(INITIAL, data + Padding(|data|))
    {
      hide Fold;
      hide Transform;
      hide Padding;
      hide Le32;
      hide LengthBytes;
      hide Tail;
      hide Repeat;
      PendingCount(|data|, bits0, bits1);
      CountBytes(|data|, bits0, bits1);
      var count := bits0 / 8 % 64;
      Mark(count);
      if 63 - count < 8 {
        TwoLastBlocks(data, count);
        FinishInTwo(count);
      } else {
        OneLastBlock(data, count);
        FinishInOne(count);
      }
      buf := Transform(buf, pending[..]);
    }

    /** Pads the message, compresses the last blocks and writes the digest; the context is then used up. */
    method Final(digest: array<byte>)
      requires Valid() && digest.Length >= 16 && digest != pending
      modifies this`buf, pending, digest
      ensures digest[..16] == Digest(data) && digest[16..] == old(digest[16..])
    {
      hide Fold;
      hide Padding;
      hide WordLe;
      Finish();
      var bytes := ChainBytes(buf);
      forall k | 0 <= k < 16 {
        digest[k] := bytes[k];
      }
    }
  }

  lemma CountBytes(n: nat, low: u32, high: u32)
    requires high * TWO_32 + low == 8 * n % TWO_64
    ensures Le32(low) + Le32(high) == LengthBytes(n)
  {
    hide Le32;
    assert 8 * n % TWO_64 / TWO_32 == high && 8 * n % TWO_64 % TWO_32 == low;
  }

  /** Digests one buffer; the digest may overwrite it. */
  method GetMD5Binary(data: array<byte>, length: u32, digest: array<byte>)
    requires length <= data.Length && digest.Length >= 16
    modifies digest
    ensures digest[..16] == Digest(old(data[..length])) && digest[16..] == old(digest[16..])
  {
    var ctx := new Context();
    ctx.Update(data, length);
    assert ctx.data == data[..length];
    ctx.Final(digest);
  }
}
