/** The cipher of FIPS 197, round by round: the reference the table-driven code is proved against. */
module Aes {
  import opened Bytes
  import opened Field
  import opened Tables

  // ---- columns -----------------------------------------------------------------

  // One row of a matrix times a column.
  function Dot(a: Word, w: Word): byte {
    Add(Add(Mul(a.b0, w.b0), Mul(a.b1, w.b1)), Add(Mul(a.b2, w.b2), Mul(a.b3, w.b3)))
  }

  /** Section 5.1.3, equation (5.6). */
  function MixColumn(w: Word): Word {
    Word(Dot(Word(2, 3, 1, 1), w), Dot(Word(1, 2, 3, 1), w), Dot(Word(1, 1, 2, 3), w), Dot(Word(3, 1, 1, 2), w))
  }

  /** Section 5.3.3, equation (5.10). */
  function InvMixColumn(w: Word): Word {
    Word(Dot(Word(14, 11, 13, 9), w), Dot(Word(9, 14, 11, 13), w),
         Dot(Word(13, 9, 14, 11), w), Dot(Word(11, 13, 9, 14), w))
  }

  lemma DotIsLinear(a: Word, u: Word, v: Word)
    ensures Dot(a, XorWord(u, v)) == Add(Dot(a, u), Dot(a, v))
  {
    hide Add;
    hide Mul;
    MulIsLinear(a.b0, u.b0, v.b0);
    MulIsLinear(a.b1, u.b1, v.b1);
    MulIsLinear(a.b2, u.b2, v.b2);
    MulIsLinear(a.b3, u.b3, v.b3);
    AddSwap4(Mul(a.b0, u.b0), Mul(a.b0, v.b0), Mul(a.b1, u.b1), Mul(a.b1, v.b1),
             Mul(a.b2, u.b2), Mul(a.b2, v.b2), Mul(a.b3, u.b3), Mul(a.b3, v.b3));
  }

  lemma MixColumnIsLinear(u: Word, v: Word)
    ensures MixColumn(XorWord(u, v)) == XorWord(MixColumn(u), MixColumn(v))
    ensures InvMixColumn(XorWord(u, v)) == XorWord(InvMixColumn(u), InvMixColumn(v))
  {
    hide Add;
    hide Dot;
    DotIsLinear(Word(2, 3, 1, 1), u, v);
    DotIsLinear(Word(1, 2, 3, 1), u, v);
    DotIsLinear(Word(1, 1, 2, 3), u, v);
    DotIsLinear(Word(3, 1, 1, 2), u, v);
    DotIsLinear(Word(14, 11, 13, 9), u, v);
    DotIsLinear(Word(9, 14, 11, 13), u, v);
    DotIsLinear(Word(13, 9, 14, 11), u, v);
    DotIsLinear(Word(11, 13, 9, 14), u, v);
  }

  // The column with x in row i, or else the last row, and zeros elsewhere.
  function Unit(i: int, x: byte): Word {
    if i == 0 then Word(x, 0, 0, 0) else if i == 1 then Word(0, x, 0, 0)
    else if i == 2 then Word(0, 0, x, 0) else Word(0, 0, 0, x)
  }

  function Xor4(p: Word, q: Word, r: Word, s: Word): Word {
    XorWord(XorWord(XorWord(p, q), r), s)
  }

  lemma SplitColumn(w: Word)
    ensures w == Xor4(Unit(0, w.b0), Unit(1, w.b1), Unit(2, w.b2), Unit(3, w.b3))
  {
  }

  /** Both column maps are known once they are known on one-byte columns. */
  lemma MixColumnByRows(w: Word)
    ensures MixColumn(w)
         == Xor4(MixColumn(Unit(0, w.b0)), MixColumn(Unit(1, w.b1)), MixColumn(Unit(2, w.b2)), MixColumn(Unit(3, w.b3)))
    ensures InvMixColumn(w)
         == Xor4(InvMixColumn(Unit(0, w.b0)), InvMixColumn(Unit(1, w.b1)),
                 InvMixColumn(Unit(2, w.b2)), InvMixColumn(Unit(3, w.b3)))
  {
    hide MixColumn;
    hide InvMixColumn;
    hide XorWord;
    SplitColumn(w);
    var u0, u1, u2, u3 := Unit(0, w.b0), Unit(1, w.b1), Unit(2, w.b2), Unit(3, w.b3);
    MixColumnIsLinear(u0, u1);
    MixColumnIsLinear(XorWord(u0, u1), u2);
    MixColumnIsLinear(XorWord(XorWord(u0, u1), u2), u3);
  }

  // A one-byte column picks one factor of the row.
  lemma DotUnit(a: Word, x: byte)
    ensures Dot(a, Unit(0, x)) == Mul(a.b0, x) && Dot(a, Unit(1, x)) == Mul(a.b1, x)
    ensures Dot(a, Unit(2, x)) == Mul(a.b2, x) && Dot(a, Unit(3, x)) == Mul(a.b3, x)
  {
    hide Mul;
    hide Add;
    MulZero(a.b0, 0);
    MulZero(a.b1, 0);
    MulZero(a.b2, 0);
    MulZero(a.b3, 0);
    AddLaws(0, 0);
    AddLaws(Mul(a.b0, x), 0);
    AddLaws(Mul(a.b1, x), 0);
    AddLaws(Mul(a.b2, x), 0);
    AddLaws(Mul(a.b3, x), 0);
  }

  // The images of one-byte columns.
  lemma MixUnit(x: byte)
    ensures var m2, m3 := Mul(2, x), Mul(3, x);
      && MixColumn(Unit(0, x)) == Word(m2, x, x, m3) && MixColumn(Unit(1, x)) == Word(m3, m2, x, x)
      && MixColumn(Unit(2, x)) == Word(x, m3, m2, x) && MixColumn(Unit(3, x)) == Word(x, x, m3, m2)
  {
    hide Mul;
    hide Add;
    hide Dot;
    SmallMultipliers(x);
    DotUnit(Word(2, 3, 1, 1), x);
    DotUnit(Word(1, 2, 3, 1), x);
    DotUnit(Word(1, 1, 2, 3), x);
    DotUnit(Word(3, 1, 1, 2), x);
  }

  lemma InvMixUnit(x: byte)
    ensures var m9, m11, m13, m14 := Mul(9, x), Mul(11, x), Mul(13, x), Mul(14, x);
      && InvMixColumn(Unit(0, x)) == Word(m14, m9, m13, m11) && InvMixColumn(Unit(1, x)) == Word(m11, m14, m9, m13)
      && InvMixColumn(Unit(2, x)) == Word(m13, m11, m14, m9) && InvMixColumn(Unit(3, x)) == Word(m9, m13, m11, m14)
  {
    hide Mul;
    hide Add;
    hide Dot;
    DotUnit(Word(14, 11, 13, 9), x);
    DotUnit(Word(9, 14, 11, 13), x);
    DotUnit(Word(13, 9, 14, 11), x);
    DotUnit(Word(11, 13, 9, 14), x);
  }

  // The column rotated by one row; both column maps commute with it.
  function Down(w: Word): Word {
    Word(w.b3, w.b0, w.b1, w.b2)
  }

  lemma DotDown(a: Word, w: Word)
    ensures Dot(Down(a), Down(w)) == Dot(a, w)
  {
    hide Mul;
    hide Add;
    var p, q, r, s := Mul(a.b0, w.b0), Mul(a.b1, w.b1), Mul(a.b2, w.b2), Mul(a.b3, w.b3);
    AddLaws(Add(s, p), Add(q, r));
    AddSwap(q, r, s, p);
    AddLaws(q, s);
    AddLaws(r, p);
    AddSwap(s, q, p, r);
    AddLaws(Add(s, p), Add(q, r));
    AddLaws(s, p);
    AddSwap(p, s, q, r);
    AddLaws(s, r);
    AddSwap(p, q, r, s);
    AddSwap(p, r, q, s);
  }

  lemma MixColumnDown(w: Word)
    ensures MixColumn(Down(w)) == Down(MixColumn(w)) && InvMixColumn(Down(w)) == Down(InvMixColumn(w))
  {
    hide Dot;
    DotDown(Word(2, 3, 1, 1), w);
    DotDown(Word(1, 2, 3, 1), w);
    DotDown(Word(1, 1, 2, 3), w);
    DotDown(Word(3, 1, 1, 2), w);
    DotDown(Word(14, 11, 13, 9), w);
    DotDown(Word(9, 14, 11, 13), w);
    DotDown(Word(13, 9, 14, 11), w);
    DotDown(Word(11, 13, 9, 14), w);
  }

  lemma FirstUnitMixed(x: byte)
    ensures InvMixColumn(MixColumn(Unit(0, x))) == Unit(0, x)
  {
    hide Mul;
    hide Add;
    MixUnit(x);
    SmallMultipliers(x);
    MulZero(0, x);
    MulTwoThree(9, x);
    MulTwoThree(11, x);
    MulTwoThree(13, x);
    MulTwoThree(14, x);
    MulSum4(28, 11, 13, 27, x);
    MulSum4(18, 14, 11, 23, x);
    MulSum4(26, 9, 14, 29, x);
    MulSum4(22, 13, 9, 18, x);
  }

  lemma FirstUnitUnmixed(x: byte)
    ensures MixColumn(InvMixColumn(Unit(0, x))) == Unit(0, x)
  {
    hide Mul;
    hide Add;
    InvMixUnit(x);
    SmallMultipliers(x);
    forall a: byte { SmallMultipliers(Mul(a, x)); }
    MulZero(0, x);
    MulTwoThree(9, x);
    MulTwoThree(11, x);
    MulTwoThree(13, x);
    MulTwoThree(14, x);
    MulSum4(28, 27, 13, 11, x);
    MulSum4(14, 18, 23, 11, x);
    MulSum4(14, 9, 26, 29, x);
    MulSum4(18, 9, 13, 22, x);
  }

  lemma UnitColumnsRestored(i: nat, x: byte)
    requires i < 4
    ensures InvMixColumn(MixColumn(Unit(i, x))) == Unit(i, x)
    ensures MixColumn(InvMixColumn(Unit(i, x))) == Unit(i, x)
  {
    hide MixColumn;
    hide InvMixColumn;
    if i == 0 {
      FirstUnitMixed(x);
      FirstUnitUnmixed(x);
    } else {
      var u := Unit(i - 1, x);
      assert Unit(i, x) == Down(u);
      UnitColumnsRestored(i - 1, x);
      MixColumnDown(u);
      MixColumnDown(MixColumn(u));
      MixColumnDown(InvMixColumn(u));
    }
  }

  /** The two matrices of sections 5.1.3 and 5.3.3 are inverse. */
  lemma MixColumnInverse(w: Word)
    ensures InvMixColumn(MixColumn(w)) == w && MixColumn(InvMixColumn(w)) == w
  {
    hide MixColumn;
    hide InvMixColumn;
    hide XorWord;
    hide Unit;
    var u0, u1, u2, u3 := Unit(0, w.b0), Unit(1, w.b1), Unit(2, w.b2), Unit(3, w.b3);
    MixColumnByRows(w);
    SplitColumn(w);
    UnitColumnsRestored(0, w.b0);
    UnitColumnsRestored(1, w.b1);
    UnitColumnsRestored(2, w.b2);
    UnitColumnsRestored(3, w.b3);
    var m0, m1, m2, m3 := MixColumn(u0), MixColumn(u1), MixColumn(u2), MixColumn(u3);
    MixColumnIsLinear(m0, m1);
    MixColumnIsLinear(XorWord(m0, m1), m2);
    MixColumnIsLinear(XorWord(XorWord(m0, m1), m2), m3);
    var n0, n1, n2, n3 := InvMixColumn(u0), InvMixColumn(u1), InvMixColumn(u2), InvMixColumn(u3);
    MixColumnIsLinear(n0, n1);
    MixColumnIsLinear(XorWord(n0, n1), n2);
    MixColumnIsLinear(XorWord(XorWord(n0, n1), n2), n3);
  }

  // ---- the four transformations ------------------------------------------------

  function SubWord(w: Word): Word {
    Word(S(w.b0), S(w.b1), S(w.b2), S(w.b3))
  }

  function InvSubWord(w: Word): Word {
    Word(S5(w.b0), S5(w.b1), S5(w.b2), S5(w.b3))
  }

  function SubBytes(s: Block): Block {
    Block(SubWord(s.c0), SubWord(s.c1), SubWord(s.c2), SubWord(s.c3))
  }

  function InvSubBytes(s: Block): Block {
    Block(InvSubWord(s.c0), InvSubWord(s.c1), InvSubWord(s.c2), InvSubWord(s.c3))
  }

  function ShiftRows(s: Block): Block {
    Block(Word(s.c0.b0, s.c1.b1, s.c2.b2, s.c3.b3), Word(s.c1.b0, s.c2.b1, s.c3.b2, s.c0.b3),
          Word(s.c2.b0, s.c3.b1, s.c0.b2, s.c1.b3), Word(s.c3.b0, s.c0.b1, s.c1.b2, s.c2.b3))
  }

  function InvShiftRows(s: Block): Block {
    Block(Word(s.c0.b0, s.c3.b1, s.c2.b2, s.c1.b3), Word(s.c1.b0, s.c0.b1, s.c3.b2, s.c2.b3),
          Word(s.c2.b0, s.c1.b1, s.c0.b2, s.c3.b3), Word(s.c3.b0, s.c2.b1, s.c1.b2, s.c0.b3))
  }

  function MixColumns(s: Block): Block {
    Block(MixColumn(s.c0), MixColumn(s.c1), MixColumn(s.c2), MixColumn(s.c3))
  }

  function InvMixColumns(s: Block): Block {
    Block(InvMixColumn(s.c0), InvMixColumn(s.c1), InvMixColumn(s.c2), InvMixColumn(s.c3))
  }

  lemma SBoxesInverse(x: byte)
    ensures S5(S(x)) == x && S(S5(x)) == x
  {
    assert S5(S(x)) == x;
  }

  /** S is the table that section 5.1.1 defines: the field inverse (0 to itself), then the affine map. */
  lemma SBoxMeaning(x: byte)
    ensures if x == 0 then UndoAffine(S(x)) == 0 else Mul(UndoAffine(S(x)), x) == 1
  {
    MulUnrolled(UndoAffine(S(x)), x);
    hide Mul;
  }

  lemma SubWordInverse(w: Word)
    ensures InvSubWord(SubWord(w)) == w && SubWord(InvSubWord(w)) == w
  {
    hide S;
    hide S5;
    SBoxesInverse(w.b0);
    SBoxesInverse(w.b1);
    SBoxesInverse(w.b2);
    SBoxesInverse(w.b3);
  }

  lemma SubBytesInverse(s: Block)
    ensures InvSubBytes(SubBytes(s)) == s && SubBytes(InvSubBytes(s)) == s
  {
    hide SubWord;
    hide InvSubWord;
    SubWordInverse(s.c0);
    SubWordInverse(s.c1);
    SubWordInverse(s.c2);
    SubWordInverse(s.c3);
  }

  lemma ShiftRowsInverse(s: Block)
    ensures InvShiftRows(ShiftRows(s)) == s && ShiftRows(InvShiftRows(s)) == s
  {
  }

  lemma MixColumnsInverse(s: Block)
    ensures InvMixColumns(MixColumns(s)) == s && MixColumns(InvMixColumns(s)) == s
  {
    hide MixColumn;
    hide InvMixColumn;
    MixColumnInverse(s.c0);
    MixColumnInverse(s.c1);
    MixColumnInverse(s.c2);
    MixColumnInverse(s.c3);
  }

  lemma InvMixColumnsIsLinear(s: Block, t: Block)
    ensures InvMixColumns(XorBlock(s, t)) == XorBlock(InvMixColumns(s), InvMixColumns(t))
  {
    hide XorWord;
    hide InvMixColumn;
    MixColumnIsLinear(s.c0, t.c0);
    MixColumnIsLinear(s.c1, t.c1);
    MixColumnIsLinear(s.c2, t.c2);
    MixColumnIsLinear(s.c3, t.c3);
  }

  // ---- the cipher --------------------------------------------------------------

  function SubShift(s: Block): Block {
    ShiftRows(SubBytes(s))
  }

  // The code undoes the two steps in the other order; they commute.
  function InvSubShift(s: Block): Block {
    InvSubBytes(InvShiftRows(s))
  }

  lemma SubShiftInverse(s: Block)
    ensures InvSubShift(SubShift(s)) == s && SubShift(InvSubShift(s)) == s
  {
    hide SubBytes;
    hide InvSubBytes;
    hide ShiftRows;
    hide InvShiftRows;
    SubBytesInverse(s);
    ShiftRowsInverse(SubBytes(s));
    SubBytesInverse(InvShiftRows(s));
    ShiftRowsInverse(s);
  }

  // Words 4r to 4r+3 of the key schedule.
  function RoundKey(w: seq<Word>, r: nat): Block
    requires 4 * r + 4 <= |w|
  {
    Block(w[4 * r], w[4 * r + 1], w[4 * r + 2], w[4 * r + 3])
  }

  ghost predicate Enough(w: seq<Word>, rounds: nat) {
    1 <= rounds && 4 * (rounds + 1) <= |w|
  }

  // The state after the AddRoundKey of round r.
  function CipherState(w: seq<Word>, r: nat, x: Block): Block
    requires 4 * r + 4 <= |w|
  {
    if r == 0 then XorBlock(x, RoundKey(w, 0))
    else XorBlock(MixColumns(SubShift(CipherState(w, r - 1, x))), RoundKey(w, r))
  }

  /** Section 5.1. */
  function Cipher(w: seq<Word>, rounds: nat, x: Block): Block
    requires Enough(w, rounds)
  {
    XorBlock(SubShift(CipherState(w, rounds - 1, x)), RoundKey(w, rounds))
  }

  // Rounds r down to 0 of the inverse cipher, from the state s.
  function InvRounds(w: seq<Word>, r: nat, s: Block): Block
    requires 4 * r + 4 <= |w|
  {
    var t := XorBlock(InvSubShift(s), RoundKey(w, r));
    if r == 0 then t else InvRounds(w, r - 1, InvMixColumns(t))
  }

  /** Section 5.3. */
  function InvCipher(w: seq<Word>, rounds: nat, y: Block): Block
    requires Enough(w, rounds)
  {
    InvRounds(w, rounds - 1, XorBlock(y, RoundKey(w, rounds)))
  }

  // Rounds r down to 0 of the equivalent inverse cipher.
  function EqInvRounds(dw: seq<Word>, r: nat, s: Block): Block
    requires 4 * r + 4 <= |dw|
  {
    if r == 0 then XorBlock(InvSubShift(s), RoundKey(dw, 0))
    else EqInvRounds(dw, r - 1, XorBlock(InvMixColumns(InvSubShift(s)), RoundKey(dw, r)))
  }

  /** Section 5.3.5. */
  function EqInvCipher(dw: seq<Word>, rounds: nat, y: Block): Block
    requires Enough(dw, rounds)
  {
    EqInvRounds(dw, rounds - 1, XorBlock(y, RoundKey(dw, rounds)))
  }

  // One turn of the rounds, and the last one.
  lemma EqInvTurn(dw: seq<Word>, r: nat, s: Block)
    requires 4 * r + 4 <= |dw|
    ensures r > 0 ==> EqInvRounds(dw, r, s) == EqInvRounds(dw, r - 1, XorBlock(InvMixColumns(InvSubShift(s)), RoundKey(dw, r)))
    ensures r == 0 ==> EqInvRounds(dw, r, s) == XorBlock(InvSubShift(s), RoundKey(dw, 0))
  {
    hide XorBlock;
    hide InvSubShift;
    hide InvMixColumns;
  }

  lemma {:induction false} RoundsUndone(w: seq<Word>, r: nat, x: Block)
    requires 4 * r + 4 <= |w|
    ensures InvRounds(w, r, SubShift(CipherState(w, r, x))) == x
  {
    hide SubShift;
    hide InvSubShift;
    hide MixColumns;
    hide InvMixColumns;
    hide XorBlock;
    var s := CipherState(w, r, x);
    SubShiftInverse(s);
    if r == 0 {
      XorBlockCancels(x, RoundKey(w, 0));
    } else {
      var t := SubShift(CipherState(w, r - 1, x));
      XorBlockCancels(MixColumns(t), RoundKey(w, r));
      MixColumnsInverse(t);
      RoundsUndone(w, r - 1, x);
    }
  }

  lemma {:induction false} RoundsRedone(w: seq<Word>, r: nat, s: Block)
    requires 4 * r + 4 <= |w|
    ensures SubShift(CipherState(w, r, InvRounds(w, r, s))) == s
  {
    hide SubShift;
    hide InvSubShift;
    hide MixColumns;
    hide InvMixColumns;
    hide XorBlock;
    SubShiftInverse(s);
    var t := XorBlock(InvSubShift(s), RoundKey(w, r));
    XorBlockCancels(InvSubShift(s), RoundKey(w, r));
    if r > 0 {
      RoundsRedone(w, r - 1, InvMixColumns(t));
      MixColumnsInverse(t);
    }
  }

  /** Deciphering undoes enciphering, and the reverse, for every schedule and block. */
  lemma InvCipherUndoesCipher(w: seq<Word>, rounds: nat, x: Block)
    requires Enough(w, rounds)
    ensures InvCipher(w, rounds, Cipher(w, rounds, x)) == x
  {
    hide SubShift;
    hide InvRounds;
    hide CipherState;
    hide XorBlock;
    XorBlockCancels(SubShift(CipherState(w, rounds - 1, x)), RoundKey(w, rounds));
    RoundsUndone(w, rounds - 1, x);
  }

  lemma CipherUndoesInvCipher(w: seq<Word>, rounds: nat, y: Block)
    requires Enough(w, rounds)
    ensures Cipher(w, rounds, InvCipher(w, rounds, y)) == y
  {
    hide SubShift;
    hide InvRounds;
    hide CipherState;
    hide XorBlock;
    XorBlockCancels(y, RoundKey(w, rounds));
    RoundsRedone(w, rounds - 1, XorBlock(y, RoundKey(w, rounds)));
  }

  /** dw is the decryption schedule of w: InvMixColumn on the words of rounds 1 to rounds-1. */
  ghost predicate DecryptionSchedule(w: seq<Word>, dw: seq<Word>, rounds: nat) {
    && Enough(w, rounds) && |dw| == |w|
    && forall i :: 0 <= i < |w| ==> dw[i] == if 4 <= i < 4 * rounds then InvMixColumn(w[i]) else w[i]
  }

  lemma {:induction false} EquivalentRounds(w: seq<Word>, dw: seq<Word>, rounds: nat, r: nat, s: Block)
    requires DecryptionSchedule(w, dw, rounds) && r < rounds
    ensures EqInvRounds(dw, r, s) == InvRounds(w, r, s)
    decreases r
  {
    hide InvSubShift;
    hide InvMixColumn;
    hide XorBlock;
    if r > 0 {
      assert RoundKey(dw, r) == InvMixColumns(RoundKey(w, r));
      hide InvMixColumns;
      InvMixColumnsIsLinear(InvSubShift(s), RoundKey(w, r));
      EquivalentRounds(w, dw, rounds, r - 1, InvMixColumns(XorBlock(InvSubShift(s), RoundKey(w, r))));
    }
  }

  /** The equivalent inverse cipher is the inverse cipher (section 5.3.5). */
  lemma EquivalentInverse(w: seq<Word>, dw: seq<Word>, rounds: nat, y: Block)
    requires DecryptionSchedule(w, dw, rounds)
    ensures EqInvCipher(dw, rounds, y) == InvCipher(w, rounds, y)
  {
    hide XorBlock;
    hide InvMixColumn;
    hide InvRounds;
    hide EqInvRounds;
    assert RoundKey(dw, rounds) == RoundKey(w, rounds);
    EquivalentRounds(w, dw, rounds, rounds - 1, XorBlock(y, RoundKey(w, rounds)));
  }

  // ---- the tables --------------------------------------------------------------

  function Join(p: byte, q: byte, r: byte, s: byte): bv32 {
    (p as bv32 << 24) | (q as bv32 << 16) | (r as bv32 << 8) | (s as bv32)
  }

  lemma EntryOfJoin(p: byte, q: byte, r: byte, s: byte)
    ensures Entry(Join(p, q, r, s)) == Word(p, q, r, s)
  {
  }

  // Two tables at a time, and the four key tables together, are what the solver takes best.
  lemma T1T2Rows(x: byte)
    ensures var s := S(x); var s2 := Xtime(s); var s3 := Add(s, s2);
            T1(x) == Join(s2, s, s, s3) && T2(x) == Join(s3, s2, s, s)
  {
  }

  lemma T3T4Rows(x: byte)
    ensures var s := S(x); var s2 := Xtime(s); var s3 := Add(s, s2);
            T3(x) == Join(s, s3, s2, s) && T4(x) == Join(s, s, s3, s2)
  {
  }

  lemma T5T6Rows(x: byte)
    ensures var y := S5(x); var y1 := Xtime(y); var y2 := Xtime(y1); var y3 := Xtime(y2);
            && T5(x) == Join(Add(y1, Add(y2, y3)), Add(y, y3), Add(y, Add(y2, y3)), Add(y, Add(y1, y3)))
            && T6(x) == Join(Add(y, Add(y1, y3)), Add(y1, Add(y2, y3)), Add(y, y3), Add(y, Add(y2, y3)))
  {
  }

  lemma T7T8Rows(x: byte)
    ensures var y := S5(x); var y1 := Xtime(y); var y2 := Xtime(y1); var y3 := Xtime(y2);
            && T7(x) == Join(Add(y, Add(y2, y3)), Add(y, Add(y1, y3)), Add(y1, Add(y2, y3)), Add(y, y3))
            && T8(x) == Join(Add(y, y3), Add(y, Add(y2, y3)), Add(y, Add(y1, y3)), Add(y1, Add(y2, y3)))
  {
  }

  lemma KeyRows(x: byte)
    ensures U1(x) == Join(Mul(14, x), Mul(9, x), Mul(13, x), Mul(11, x))
    ensures U2(x) == Join(Mul(11, x), Mul(14, x), Mul(9, x), Mul(13, x))
    ensures U3(x) == Join(Mul(13, x), Mul(11, x), Mul(14, x), Mul(9, x))
    ensures U4(x) == Join(Mul(9, x), Mul(13, x), Mul(11, x), Mul(14, x))
  {
    SmallMultipliers(x);
    hide Mul;
  }

  /** Every entry of T1 to T4 is MixColumn of the S-box value in that row. */
  lemma EncryptionTables(x: byte)
    ensures Entry(T1(x)) == MixColumn(Unit(0, S(x))) && Entry(T2(x)) == MixColumn(Unit(1, S(x)))
    ensures Entry(T3(x)) == MixColumn(Unit(2, S(x))) && Entry(T4(x)) == MixColumn(Unit(3, S(x)))
  {
    T1T2Rows(x);
    T3T4Rows(x);
    MixUnit(S(x));
    SmallMultipliers(S(x));
    hide *;
    var s := S(x);
    EntryOfJoin(Mul(2, s), s, s, Mul(3, s));
    EntryOfJoin(Mul(3, s), Mul(2, s), s, s);
    EntryOfJoin(s, Mul(3, s), Mul(2, s), s);
    EntryOfJoin(s, s, Mul(3, s), Mul(2, s));
  }

  /** Every entry of T5 to T8 is InvMixColumn of the inverse S-box value in that row. */
  lemma DecryptionTables(x: byte)
    ensures Entry(T5(x)) == InvMixColumn(Unit(0, S5(x))) && Entry(T6(x)) == InvMixColumn(Unit(1, S5(x)))
    ensures Entry(T7(x)) == InvMixColumn(Unit(2, S5(x))) && Entry(T8(x)) == InvMixColumn(Unit(3, S5(x)))
  {
    T5T6Rows(x);
    T7T8Rows(x);
    hide *;
    var y := S5(x);
    SmallMultipliers(y);
    InvMixUnit(y);
    InvEntries(Mul(9, y), Mul(11, y), Mul(13, y), Mul(14, y));
  }

  lemma InvEntries(m9: byte, m11: byte, m13: byte, m14: byte)
    ensures Entry(Join(m14, m9, m13, m11)) == Word(m14, m9, m13, m11)
    ensures Entry(Join(m11, m14, m9, m13)) == Word(m11, m14, m9, m13)
    ensures Entry(Join(m13, m11, m14, m9)) == Word(m13, m11, m14, m9)
    ensures Entry(Join(m9, m13, m11, m14)) == Word(m9, m13, m11, m14)
  {
    EntryOfJoin(m14, m9, m13, m11);
    EntryOfJoin(m11, m14, m9, m13);
    EntryOfJoin(m13, m11, m14, m9);
    EntryOfJoin(m9, m13, m11, m14);
  }

  /** Every entry of U1 to U4 is InvMixColumn of the byte in that row. */
  lemma KeyTables(x: byte)
    ensures Entry(U1(x)) == InvMixColumn(Unit(0, x)) && Entry(U2(x)) == InvMixColumn(Unit(1, x))
    ensures Entry(U3(x)) == InvMixColumn(Unit(2, x)) && Entry(U4(x)) == InvMixColumn(Unit(3, x))
  {
    KeyRows(x);
    InvMixUnit(x);
    hide *;
    InvEntries(Mul(9, x), Mul(11, x), Mul(13, x), Mul(14, x));
  }
}
