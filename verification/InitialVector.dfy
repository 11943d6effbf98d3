/** The 32-bit multiplicative generator of codec.c that seeds each page's initial vector. */
module InitialVector {
  import opened Bytes
  import opened Md5

  const MODULUS := 2147483399
  const MULTIPLIER := 40692
  const MAX_INT := 0x7fff_ffff

  // C's division, which truncates toward zero.
  function Quotient(z: int, a: int): int
    requires a > 0
  {
    if z < 0 then -(-z / a) else z / a
  }

  // The macro MODMULT(52774, 40692, 3791, 2147483399L, z).
  function ModMult(z: int): int {
    var q := Quotient(z, 52774);
    var s := 40692 * (z - 52774 * q) - 3791 * q;
    if s < 0 then s + MODULUS else s
  }

  /** The step multiplies modulo 2147483399, and nothing on the way leaves 32 bits; z may be negative. */
  lemma ModMultExact(z: int)
    requires -MAX_INT <= z <= MAX_INT
    ensures var q := Quotient(z, 52774);
      && -MAX_INT <= 52774 * q <= MAX_INT && -MAX_INT <= z - 52774 * q <= MAX_INT
      && -MAX_INT <= 40692 * (z - 52774 * q) <= MAX_INT && -MAX_INT <= 3791 * q <= MAX_INT
      && -MAX_INT <= 40692 * (z - 52774 * q) - 3791 * q <= MAX_INT
    ensures ModMult(z) == MULTIPLIER * z % MODULUS && 0 <= ModMult(z) < MODULUS
  {
    var q := Quotient(z, 52774);
    var r := z - 52774 * q;
    assert -52774 < r < 52774 && -40692 <= q <= 40692;
    assert z >= 0 ==> r >= 0 && q >= 0;
    assert z < 0 ==> r <= 0 && q <= 0;
    hide Quotient;
    var s := 40692 * r - 3791 * q;
    assert MULTIPLIER * z == MODULUS * q + s;
    assert -MODULUS < s < MODULUS;
    if s < 0 {
      RemainderIs(q - 1, s + MODULUS);
    } else {
      RemainderIs(q, s);
    }
  }

  lemma RemainderIs(q: int, r: int)
    requires 0 <= r < MODULUS
    ensures (MODULUS * q + r) % MODULUS == r
  {
  }

  /** Two arguments step to the same value exactly when they agree modulo 2147483399. */
  lemma ModMultInjective(y: int, z: int)
    requires -MAX_INT <= y <= MAX_INT && -MAX_INT <= z <= MAX_INT
    ensures ModMult(y) == ModMult(z) <==> y % MODULUS == z % MODULUS
  {
    ModMultExact(y);
    ModMultExact(z);
    var inverse, k := 1481316021, 28069;
    assert MULTIPLIER * inverse == MODULUS * k + 1;
    if ModMult(y) == ModMult(z) {
      var t := MULTIPLIER * y / MODULUS - MULTIPLIER * z / MODULUS;
      assert MULTIPLIER * (y - z) == MODULUS * t;
      assert y - z == MODULUS * (t * inverse - k * (y - z));
      SameRemainder(y, z, t * inverse - k * (y - z));
    }
    if y % MODULUS == z % MODULUS {
      var t := y / MODULUS - z / MODULUS;
      assert y == z + MODULUS * t;
      assert MULTIPLIER * y == MULTIPLIER * z + MODULUS * (MULTIPLIER * t);
      SameRemainder(MULTIPLIER * y, MULTIPLIER * z, MULTIPLIER * t);
    }
  }

  /** The generator never leaves its range, and in particular never reaches zero from inside it. */
  lemma ModMultStays(z: int)
    requires 0 < z < MODULUS
    ensures 0 < ModMult(z) < MODULUS
  {
    ModMultExact(z);
    ModMultInjective(z, 0);
  }

  lemma SameRemainder(y: int, z: int, t: int)
    requires y - z == MODULUS * t
    ensures y % MODULUS == z % MODULUS
  {
  }

  // The value after j steps from z.
  function Iterate(z: int, j: nat): (r: int)
    requires -MAX_INT <= z <= MAX_INT
    ensures -MAX_INT <= r <= MAX_INT && (j > 0 ==> 0 <= r)
  {
    if j == 0 then z else
      var y := Iterate(z, j - 1);
      ModMultExact(y);
      ModMult(y)
  }

  /** The sixteen bytes the code digests for a page. */
  function InitKey(seed: int): (s: seq<byte>)
    requires -MAX_INT <= seed + 1 <= MAX_INT
    ensures |s| == 16
  {
    var z := seed + 1;
    Le32(Iterate(z, 1)) + Le32(Iterate(z, 2)) + Le32(Iterate(z, 3)) + Le32(Iterate(z, 4))
  }

  lemma ByteOfValue(n: int)
    ensures ByteOf(n) as int == n % 256
  {
    SmallByte(n % 256);
  }

  lemma FourDigits(n: u32)
    ensures n == n % 256 + 256 * (n / 0x100 % 256) + 0x1_0000 * (n / 0x1_0000 % 256) + 0x100_0000 * (n / 0x100_0000 % 256)
  {
    var a := n / 0x100;
    var b := a / 0x100;
    assert b == n / 0x1_0000;
    assert b / 0x100 == n / 0x100_0000;
  }

  function Value(b0: byte, b1: byte, b2: byte, b3: byte): int {
    b0 as int + 0x100 * (b1 as int) + 0x1_0000 * (b2 as int) + 0x100_0000 * (b3 as int)
  }

  // The little-endian number at a position.
  function NumberAt(s: seq<byte>, i: nat): int
    requires i + 4 <= |s|
  {
    Value(s[i], s[i + 1], s[i + 2], s[i + 3])
  }

  /** The four bytes of a 32-bit number, low byte first, give its value back. */
  lemma Le32Value(n: u32)
    ensures NumberAt(Le32(n), 0) == n
  {
    ByteOfValue(n);
    ByteOfValue(n / 0x100);
    ByteOfValue(n / 0x1_0000);
    ByteOfValue(n / 0x100_0000);
    hide ByteOf;
    FourDigits(n);
  }

  lemma Le32Injective(m: u32, n: u32)
    requires Le32(m) == Le32(n)
    ensures m == n
  {
    Le32Value(m);
    Le32Value(n);
    hide Le32;
    hide NumberAt;
  }

  lemma InitKeyNumbers(seed: int)
    requires -MAX_INT <= seed + 1 <= MAX_INT
    ensures var s := InitKey(seed);
      && NumberAt(s, 0) == Iterate(seed + 1, 1) && NumberAt(s, 4) == Iterate(seed + 1, 2)
      && NumberAt(s, 8) == Iterate(seed + 1, 3) && NumberAt(s, 12) == Iterate(seed + 1, 4)
  {
    var z := seed + 1;
    hide Iterate;
    Le32Value(Iterate(z, 1));
    Le32Value(Iterate(z, 2));
    Le32Value(Iterate(z, 3));
    Le32Value(Iterate(z, 4));
    hide Value;
    hide Le32;
    FourNumbers(Le32(Iterate(z, 1)), Le32(Iterate(z, 2)), Le32(Iterate(z, 3)), Le32(Iterate(z, 4)));
    hide NumberAt;
  }

  lemma FourNumbers(a: seq<byte>, b: seq<byte>, c: seq<byte>, d: seq<byte>)
    requires |a| == 4 && |b| == 4 && |c| == 4 && |d| == 4
    ensures var s := a + b + c + d;
      && NumberAt(s, 0) == NumberAt(a, 0) && NumberAt(s, 4) == NumberAt(b, 0)
      && NumberAt(s, 8) == NumberAt(c, 0) && NumberAt(s, 12) == NumberAt(d, 0)
  {
    hide Value;
  }

  /**
   * The sixteen bytes written for a page, read back as four numbers: the first is the successor of
   * the page number times 40692 modulo 2147483399, and so is each later one from the one before.
   */
  lemma InitKeyWords(seed: int)
    requires -MAX_INT <= seed + 1 <= MAX_INT
    ensures var s := InitKey(seed);
      && NumberAt(s, 0) == 40692 * (seed + 1) % 2147483399
      && NumberAt(s, 4) == 40692 * NumberAt(s, 0) % 2147483399
      && NumberAt(s, 8) == 40692 * NumberAt(s, 4) % 2147483399
      && NumberAt(s, 12) == 40692 * NumberAt(s, 8) % 2147483399
  {
    IterateStep(seed + 1, 0);
    IterateStep(seed + 1, 1);
    IterateStep(seed + 1, 2);
    IterateStep(seed + 1, 3);
    InitKeyNumbers(seed);
    hide Iterate;
    hide InitKey;
    hide NumberAt;
  }

  lemma IterateStep(z: int, j: nat)
    requires -MAX_INT <= z <= MAX_INT
    ensures Iterate(z, j + 1) == 40692 * Iterate(z, j) % 2147483399 && Iterate(z, 0) == z
  {
    ModMultExact(Iterate(z, j));
  }

  /** Two pages hash the same sixteen bytes exactly when their successors agree modulo 2147483399. */
  lemma InitKeysDistinct(p: int, q: int)
    requires -MAX_INT <= p + 1 <= MAX_INT && -MAX_INT <= q + 1 <= MAX_INT
    ensures InitKey(p) == InitKey(q) <==> (p + 1) % MODULUS == (q + 1) % MODULUS
  {
    hide Le32;
    hide ModMult;
    ModMultInjective(p + 1, q + 1);
    var y, z := p + 1, q + 1;
    assert Iterate(y, 1) == ModMult(y) && Iterate(z, 1) == ModMult(z);
    if ModMult(y) == ModMult(z) {
      assert Iterate(y, 2) == Iterate(z, 2);
      assert Iterate(y, 3) == Iterate(z, 3);
      assert Iterate(y, 4) == Iterate(z, 4);
    }
    if InitKey(p) == InitKey(q) {
      assert InitKey(p)[..4] == Le32(Iterate(p + 1, 1)) && InitKey(q)[..4] == Le32(Iterate(q + 1, 1));
      Le32Injective(Iterate(p + 1, 1), Iterate(q + 1, 1));
    }
  }

  // One turn of the loop: the macro, then the four bytes of the new value, low byte first.
  method StepAndStore(z: int, initkey: array<byte>, j: nat) returns (z': int)
    requires -MAX_INT <= z <= MAX_INT && 4 * j + 4 <= initkey.Length
    modifies initkey
    ensures z' == ModMult(z) && 0 <= z' <= MAX_INT
    ensures initkey[..4 * j + 4] == old(initkey[..4 * j]) + Le32(z')
  {
    ModMultExact(z);
    var q := Quotient(z, 52774);
    z' := 40692 * (z - 52774 * q) - 3791 * q;
    if z' < 0 {
      z' := z' + MODULUS;
    }
    hide ByteOf;
    initkey[4 * j + 0] := ByteOf(z');
    initkey[4 * j + 1] := ByteOf(z' / 0x100);
    initkey[4 * j + 2] := ByteOf(z' / 0x1_0000);
    initkey[4 * j + 3] := ByteOf(z' / 0x100_0000);
  }

  // The words of steps 1 to n.
  function Words(z: int, n: nat): (s: seq<byte>)
    requires -MAX_INT <= z <= MAX_INT
    ensures |s| == 4 * n
  {
    if n == 0 then [] else Words(z, n - 1) + Le32(Iterate(z, n))
  }

  /** Writes the vector of a page: the digest of four words of the generator. */
  method GenerateInitialVector(seed: int, iv: array<byte>)
    requires -MAX_INT <= seed + 1 <= MAX_INT && iv.Length >= 16
    modifies iv
    ensures iv[..16] == Digest(InitKey(seed)) && iv[16..] == old(iv[16..])
  {
    hide ModMult;
    hide Digest;
    hide Le32;
    var initkey := new byte[16](i => 0);
    var z := seed + 1;
    for j := 0 to 4
      invariant -MAX_INT <= z <= MAX_INT && z == Iterate(seed + 1, j)
      invariant initkey[..4 * j] == Words(seed + 1, j) && unchanged(iv)
    {
      z := StepAndStore(z, initkey, j);
    }
    assert Words(seed + 1, 2) == Le32(Iterate(seed + 1, 1)) + Le32(Iterate(seed + 1, 2));
    assert Words(seed + 1, 4) == InitKey(seed);
    assert initkey[..16] == InitKey(seed);
    GetMD5Binary(initkey, 16, iv);
  }
}
