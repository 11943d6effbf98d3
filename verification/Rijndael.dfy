/** The cipher object of rijndael.c: key schedule, block encryption and decryption by table. */
module RijndaelObject {
  import opened Bytes
  import opened Tables
  import opened Aes
  import opened KeySchedule

  const SUCCESS := 0
  const UNSUPPORTED_MODE := -1
  const UNSUPPORTED_DIRECTION := -2
  const UNSUPPORTED_KEY_LENGTH := -3
  const BAD_KEY := -4
  const NOT_INITIALIZED := -5
  const BAD_DIRECTION := -6
  const CORRUPTED_DATA := -7

  const ENCRYPT := 0
  const DECRYPT := 1

  const ECB := 0
  const CBC := 1
  const CFB1 := 2

  // ---- one round, by table -----------------------------------------------------

  function EncColumn(p: byte, q: byte, r: byte, s: byte): Word {
    Xor4(Entry(T1(p)), Entry(T2(q)), Entry(T3(r)), Entry(T4(s)))
  }

  function EncStep(t: Block): Block {
    Block(EncColumn(t.c0.b0, t.c1.b1, t.c2.b2, t.c3.b3), EncColumn(t.c1.b0, t.c2.b1, t.c3.b2, t.c0.b3),
          EncColumn(t.c2.b0, t.c3.b1, t.c0.b2, t.c1.b3), EncColumn(t.c3.b0, t.c0.b1, t.c1.b2, t.c2.b3))
  }

  function SecondOfT1(p: byte, q: byte, r: byte, s: byte): Word {
    Word(Entry(T1(p)).b1, Entry(T1(q)).b1, Entry(T1(r)).b1, Entry(T1(s)).b1)
  }

  function EncLast(t: Block): Block {
    Block(SecondOfT1(t.c0.b0, t.c1.b1, t.c2.b2, t.c3.b3), SecondOfT1(t.c1.b0, t.c2.b1, t.c3.b2, t.c0.b3),
          SecondOfT1(t.c2.b0, t.c3.b1, t.c0.b2, t.c1.b3), SecondOfT1(t.c3.b0, t.c0.b1, t.c1.b2, t.c2.b3))
  }

  function DecColumn(p: byte, q: byte, r: byte, s: byte): Word {
    Xor4(Entry(T5(p)), Entry(T6(q)), Entry(T7(r)), Entry(T8(s)))
  }

  function DecStep(t: Block): Block {
    Block(DecColumn(t.c0.b0, t.c3.b1, t.c2.b2, t.c1.b3), DecColumn(t.c1.b0, t.c0.b1, t.c3.b2, t.c2.b3),
          DecColumn(t.c2.b0, t.c1.b1, t.c0.b2, t.c3.b3), DecColumn(t.c3.b0, t.c2.b1, t.c1.b2, t.c0.b3))
  }

  function DecLast(t: Block): Block {
    Block(Word(S5(t.c0.b0), S5(t.c3.b1), S5(t.c2.b2), S5(t.c1.b3)), Word(S5(t.c1.b0), S5(t.c0.b1), S5(t.c3.b2), S5(t.c2.b3)),
          Word(S5(t.c2.b0), S5(t.c1.b1), S5(t.c0.b2), S5(t.c3.b3)), Word(S5(t.c3.b0), S5(t.c2.b1), S5(t.c1.b2), S5(t.c0.b3)))
  }

  function KeyColumn(w: Word): Word {
    Xor4(Entry(U1(w.b0)), Entry(U2(w.b1)), Entry(U3(w.b2)), Entry(U4(w.b3)))
  }

  lemma EncColumnMeaning(p: byte, q: byte, r: byte, s: byte)
    ensures EncColumn(p, q, r, s) == MixColumn(Word(S(p), S(q), S(r), S(s)))
    ensures SecondOfT1(p, q, r, s) == Word(S(p), S(q), S(r), S(s))
  {
    hide S;
    hide T1;
    hide T2;
    hide T3;
    hide T4;
    hide Entry;
    hide MixColumn;
    hide XorWord;
    hide Unit;
    forall x: byte ensures Entry(T1(x)).b1 == S(x) {
      EncryptionTables(x);
      MixUnit(S(x));
    }
    EncryptionTables(p);
    EncryptionTables(q);
    EncryptionTables(r);
    EncryptionTables(s);
    MixColumnByRows(Word(S(p), S(q), S(r), S(s)));
  }

  lemma DecColumnMeaning(p: byte, q: byte, r: byte, s: byte)
    ensures DecColumn(p, q, r, s) == InvMixColumn(Word(S5(p), S5(q), S5(r), S5(s)))
  {
    hide S5;
    hide T5;
    hide T6;
    hide T7;
    hide T8;
    hide Entry;
    hide InvMixColumn;
    hide XorWord;
    hide Unit;
    DecryptionTables(p);
    DecryptionTables(q);
    DecryptionTables(r);
    DecryptionTables(s);
    MixColumnByRows(Word(S5(p), S5(q), S5(r), S5(s)));
  }

  lemma KeyColumnMeaning(w: Word)
    ensures KeyColumn(w) == InvMixColumn(w)
  {
    hide U1;
    hide U2;
    hide U3;
    hide U4;
    hide Entry;
    hide InvMixColumn;
    hide XorWord;
    hide Unit;
    KeyTables(w.b0);
    KeyTables(w.b1);
    KeyTables(w.b2);
    KeyTables(w.b3);
    MixColumnByRows(w);
  }

  /** One table step is SubBytes, ShiftRows and MixColumns together; the last step omits MixColumns. */
  lemma EncStepMeaning(t: Block)
    ensures EncStep(t) == MixColumns(SubShift(t)) && EncLast(t) == SubShift(t)
  {
    hide S;
    hide EncColumn;
    hide SecondOfT1;
    hide MixColumn;
    EncColumnMeaning(t.c0.b0, t.c1.b1, t.c2.b2, t.c3.b3);
    EncColumnMeaning(t.c1.b0, t.c2.b1, t.c3.b2, t.c0.b3);
    EncColumnMeaning(t.c2.b0, t.c3.b1, t.c0.b2, t.c1.b3);
    EncColumnMeaning(t.c3.b0, t.c0.b1, t.c1.b2, t.c2.b3);
  }

  lemma DecStepMeaning(t: Block)
    ensures DecStep(t) == InvMixColumns(InvSubShift(t)) && DecLast(t) == InvSubShift(t)
  {
    hide S5;
    hide DecColumn;
    hide InvMixColumn;
    DecColumnMeaning(t.c0.b0, t.c3.b1, t.c2.b2, t.c1.b3);
    DecColumnMeaning(t.c1.b0, t.c0.b1, t.c3.b2, t.c2.b3);
    DecColumnMeaning(t.c2.b0, t.c1.b1, t.c0.b2, t.c3.b3);
    DecColumnMeaning(t.c3.b0, t.c2.b1, t.c1.b2, t.c0.b3);
  }

  // ---- buffers -----------------------------------------------------------------

  function LoadBlock(a: array<byte>, i: nat): (x: Block)
    requires i + 16 <= a.Length
    reads a
    ensures x == BlockAt(a[..], i)
  {
    Block(Word(a[i], a[i + 1], a[i + 2], a[i + 3]), Word(a[i + 4], a[i + 5], a[i + 6], a[i + 7]),
          Word(a[i + 8], a[i + 9], a[i + 10], a[i + 11]), Word(a[i + 12], a[i + 13], a[i + 14], a[i + 15]))
  }

  method StoreBlock(b: array<byte>, i: nat, x: Block)
    requires i + 16 <= b.Length
    modifies b
    ensures b[..] == Put(old(b[..]), i, x)
  {
    var bytes := BlockBytes(x);
    forall k | 0 <= k < 16 {
      b[i + k] := bytes[k];
    }
  }

  // The rounds: from the state before its key is added, at ai in a, to the state at bi in b.
  method EncRound(a: array<byte>, ai: nat, b: array<byte>, bi: nat, k: Block)
    requires ai + 16 <= a.Length && bi + 16 <= b.Length
    modifies b
    ensures b[..] == Put(old(b[..]), bi, MixColumns(SubShift(XorBlock(old(BlockAt(a[..], ai)), k))))
  {
    hide *;
    var temp := XorBlock(LoadBlock(a, ai), k);
    EncStepMeaning(temp);
    StoreBlock(b, bi, EncStep(temp));
  }

  method EncLastRound(b: array<byte>, bi: nat, k: Block, last: Block)
    requires bi + 16 <= b.Length
    modifies b
    ensures b[..] == Put(old(b[..]), bi, XorBlock(SubShift(XorBlock(old(BlockAt(b[..], bi)), k)), last))
  {
    hide *;
    var temp := XorBlock(LoadBlock(b, bi), k);
    EncStepMeaning(temp);
    PutSame(b[..], bi, EncLast(temp));
    PutTwice(b[..], bi, EncLast(temp), XorBlock(EncLast(temp), last));
    StoreBlock(b, bi, EncLast(temp));
    StoreBlock(b, bi, XorBlock(LoadBlock(b, bi), last));
  }

  method DecRound(a: array<byte>, ai: nat, b: array<byte>, bi: nat, k: Block)
    requires ai + 16 <= a.Length && bi + 16 <= b.Length
    modifies b
    ensures b[..] == Put(old(b[..]), bi, InvMixColumns(InvSubShift(XorBlock(old(BlockAt(a[..], ai)), k))))
  {
    hide *;
    var temp := XorBlock(LoadBlock(a, ai), k);
    DecStepMeaning(temp);
    StoreBlock(b, bi, DecStep(temp));
  }

  method DecLastRound(b: array<byte>, bi: nat, k: Block, last: Block)
    requires bi + 16 <= b.Length
    modifies b
    ensures b[..] == Put(old(b[..]), bi, XorBlock(InvSubShift(XorBlock(old(BlockAt(b[..], bi)), k)), last))
  {
    hide *;
    var temp := XorBlock(LoadBlock(b, bi), k);
    DecStepMeaning(temp);
    PutSame(b[..], bi, DecLast(temp));
    PutTwice(b[..], bi, DecLast(temp), XorBlock(DecLast(temp), last));
    StoreBlock(b, bi, DecLast(temp));
    StoreBlock(b, bi, XorBlock(LoadBlock(b, bi), last));
  }

  class Rijndael {
    var valid: bool
    var mode: int
    var direction: int
    const initVector: array<byte>
    var rounds: nat
    const expandedKey: array2<Word>

    constructor ()
      ensures fresh(initVector) && fresh(expandedKey)
      ensures initVector.Length == 16 && expandedKey.Length0 == 15 && expandedKey.Length1 == 4 && !valid
    {
      valid, mode, direction, rounds := false, ECB, ENCRYPT, 0;
      initVector := new byte[16](i => 0);
      expandedKey := new Word[15, 4]((r, t) => ZeroWord);
    }

    predicate Ready()
      reads this`rounds
    {
      (rounds == 10 || rounds == 12 || rounds == 14) 
      && expandedKey.Length0 == 15 && expandedKey.Length1 == 4 && initVector.Length == 16
    }

    // The part of m_expandedKey in use.
    function Schedule(): (w: seq<Word>)
      requires Ready()
      reads this`rounds, expandedKey
      ensures Enough(w, rounds) && |w| == 4 * (rounds + 1)
    {
      var n := 4 * (rounds + 1);
      seq(n, i requires 0 <= i < n <= 60 && expandedKey.Length0 == 15 && expandedKey.Length1 == 4 reads expandedKey =>
        expandedKey[i / 4, i % 4])
    }

    /** Word i of the schedule is column i % 4 of row i / 4. */
    lemma ScheduleByRow(i: nat)
      requires Ready() && i < 4 * (rounds + 1)
      ensures Schedule()[i] == expandedKey[i / 4, i % 4]
    {
    }

    function KeyAt(r: nat): (k: Block)
      requires Ready() && r <= rounds
      reads this, expandedKey
      ensures k == RoundKey(Schedule(), r)
    {
      Block(expandedKey[r, 0], expandedKey[r, 1], expandedKey[r, 2], expandedKey[r, 3])
    }

    /** Enciphers one block; a and b may be the same array, at any offsets. */
    method Encrypt(a: array<byte>, ai: nat, b: array<byte>, bi: nat)
      requires Ready() && ai + 16 <= a.Length && bi + 16 <= b.Length
      modifies b
      ensures b[..] == Put(old(b[..]), bi, Cipher(old(Schedule()), rounds, old(BlockAt(a[..], ai))))
    {
      hide XorBlock;
      hide SubShift;
      hide MixColumns;
      hide BlockAt;
      hide Put;
      ghost var w, x, was := Schedule(), BlockAt(a[..], ai), b[..];
      EncRound(a, ai, b, bi, KeyAt(0));
      ghost var s := MixColumns(SubShift(CipherState(w, 0, x)));
      for r := 1 to rounds - 1
        invariant b[..] == Put(was, bi, s) && Schedule() == w && s == MixColumns(SubShift(CipherState(w, r - 1, x)))
      {
        PutSame(was, bi, s);
        EncRound(b, bi, b, bi, KeyAt(r));
        ghost var s' := MixColumns(SubShift(CipherState(w, r, x)));
        PutTwice(was, bi, s, s');
        s := s';
      }
      PutSame(was, bi, s);
      EncLastRound(b, bi, KeyAt(rounds - 1), KeyAt(rounds));
      PutTwice(was, bi, s, Cipher(w, rounds, x));
    }

    /** Deciphers one block, given a decryption schedule; a and b may be the same array. */
    method Decrypt(a: array<byte>, ai: nat, b: array<byte>, bi: nat)
      requires Ready() && ai + 16 <= a.Length && bi + 16 <= b.Length
      modifies b
      ensures b[..] == Put(old(b[..]), bi, EqInvCipher(old(Schedule()), rounds, old(BlockAt(a[..], ai))))
    {
      hide XorBlock;
      hide InvSubShift;
      hide InvMixColumns;
      hide BlockAt;
      hide Put;
      hide EqInvRounds;
      hide RoundKey;
      ghost var w, y, was := Schedule(), BlockAt(a[..], ai), b[..];
      ghost var z := XorBlock(y, RoundKey(w, rounds));
      DecRound(a, ai, b, bi, KeyAt(rounds));
      ghost var s := InvMixColumns(InvSubShift(z));
      var r := rounds - 1;
      EqInvTurn(w, r, z);
      while r > 1
        invariant 1 <= r < rounds && b[..] == Put(was, bi, s) && Schedule() == w
        invariant EqInvCipher(w, rounds, y) == EqInvRounds(w, r - 1, XorBlock(s, RoundKey(w, r)))
      {
        PutSame(was, bi, s);
        DecRound(b, bi, b, bi, KeyAt(r));
        z := XorBlock(s, RoundKey(w, r));
        PutTwice(was, bi, s, InvMixColumns(InvSubShift(z)));
        s := InvMixColumns(InvSubShift(z));
        r := r - 1;
        EqInvTurn(w, r, z);
      }
      EqInvTurn(w, 0, XorBlock(s, RoundKey(w, 1)));
      PutSame(was, bi, s);
      DecLastRound(b, bi, KeyAt(1), KeyAt(0));
      PutTwice(was, bi, s, EqInvCipher(w, rounds, y));
    }

    // The first n words of m_expandedKey follow the recurrence.
    ghost predicate Filled(key: seq<Word>, n: nat)
      requires KeyLength(|key|)
      reads this, expandedKey
    {
      && Ready() && rounds == Rounds(|key|)
      && forall r, t :: 0 <= r <= rounds && 0 <= t < 4 && 4 * r + t < n ==> expandedKey[r, t] == ScheduleWord(key, 4 * r + t)
    }

    // tempKey holds the Nk words of the recurrence from word base on.
    ghost predicate Rolling(tempKey: array<Word>, key: seq<Word>, base: nat)
      requires KeyLength(|key|)
      reads tempKey
    {
      tempKey.Length == 8 && forall j :: 0 <= j < |key| ==> tempKey[j] == ScheduleWord(key, base + j)
    }

    twostate predicate SpareRowsKept()
      reads this, expandedKey
    {
      expandedKey.Length0 == 15 && expandedKey.Length1 == 4
      && forall r, t :: rounds < r < 15 && 0 <= t < 4 ==> expandedKey[r, t] == old(expandedKey[r, t])
    }

    // The inner copying loop: columns j0 on go to row r from column t0 on.
    method StoreRow(tempKey: array<Word>, j0: nat, r: nat, t0: nat, ghost key: seq<Word>, ghost base: nat)
      returns (j: nat, t: nat)
      requires KeyLength(|key|) && Rolling(tempKey, key, base) && Filled(key, base + j0)
      requires j0 < |key| && t0 < 4 && 4 * r + t0 == base + j0 && r <= rounds
      modifies expandedKey
      ensures j0 < j <= |key| && t0 < t <= 4 && 4 * r + t == base + j && (j == |key| || t == 4)
      ensures Filled(key, base + j) && SpareRowsKept()
    {
      hide ScheduleWord;
      var nk := rounds - 6;
      j, t := j0, t0;
      while j < nk && t < 4
        invariant j0 <= j <= nk && t0 <= t <= 4 && 4 * r + t == base + j && (j == j0 ==> t < 4)
        invariant Filled(key, base + j) && SpareRowsKept()
      {
        expandedKey[r, t] := tempKey[j];
        j, t := j + 1, t + 1;
      }
    }

    // Copies the rolling columns into the schedule from word 4r+t on, as far as the schedule reaches.
    method StoreColumns(tempKey: array<Word>, r0: nat, t0: nat, ghost key: seq<Word>) returns (r: nat, t: nat)
      requires t0 < 4 && r0 <= rounds
      requires KeyLength(|key|) && Rolling(tempKey, key, 4 * r0 + t0) && Filled(key, 4 * r0 + t0)
      modifies expandedKey
      ensures r <= rounds ==> t < 4 && 4 * r + t == 4 * r0 + t0 + |key|
      ensures rounds < r ==> 4 * (rounds + 1) <= 4 * r0 + t0 + |key|
      ensures Filled(key, if r <= rounds then 4 * r + t else 4 * (rounds + 1)) && SpareRowsKept()
    {
      hide ScheduleWord;
      var nk := rounds - 6;
      var j := 0;
      r, t := r0, t0;
      while j < nk && r <= rounds
        invariant 0 <= j <= nk && t < 4 && r <= rounds + 1 && 4 * r + t == 4 * r0 + t0 + j
        invariant Filled(key, 4 * r + t) && SpareRowsKept()
      {
        j, t := StoreRow(tempKey, j, r, t, key, 4 * r0 + t0);
        if t == 4 {
          r, t := r + 1, 0;
        }
      }
    }

    // tempKey[j] ^= tempKey[j - 1] for j from lo to hi - 1.
    method ChainColumns(tempKey: array<Word>, lo: nat, hi: nat, ghost key: seq<Word>, ghost base: nat, ghost n: nat)
      requires KeyLength(|key|) && Turns(|key|, base, n) && tempKey.Length == 8 && 1 <= lo <= hi <= |key|
      requires forall j :: 0 <= j < lo ==> tempKey[j] == ScheduleWord(key, base + |key| + j)
      requires forall j :: lo <= j < |key| ==> tempKey[j] == ScheduleWord(key, base + j)
      requires |key| == 8 ==> lo > 4 || hi <= 4
      modifies tempKey
      ensures forall j :: 0 <= j < hi ==> tempKey[j] == ScheduleWord(key, base + |key| + j)
      ensures forall j :: hi <= j < |key| ==> tempKey[j] == ScheduleWord(key, base + j)
    {
      hide XorWord;
      hide ScheduleWord;
      for j := lo to hi
        invariant forall i :: 0 <= i < j ==> tempKey[i] == ScheduleWord(key, base + |key| + i)
        invariant forall i :: j <= i < |key| ==> tempKey[i] == ScheduleWord(key, base + i)
      {
        PlainWord(key, base, n, j);
        tempKey[j] := XorWord(tempKey[j], tempKey[j - 1]);
      }
    }

    // One turn of the rolling key: Nk words further along the recurrence.
    method AdvanceKey(tempKey: array<Word>, rconPointer: nat, ghost key: seq<Word>, ghost base: nat)
      requires KeyLength(|key|) && rounds == Rounds(|key|) && rconPointer < RCON_ENTRIES
      requires Turns(|key|, base, rconPointer) && Rolling(tempKey, key, base)
      modifies tempKey
      ensures Rolling(tempKey, key, base + |key|)
    {
      hide XorWord;
      hide SubWord;
      hide RotWord;
      hide ScheduleWord;
      hide Rcon;
      var nk := rounds - 6;
      FirstWord(key, base, rconPointer);
      tempKey[0] := XorWord(XorWord(tempKey[0], SubWord(RotWord(tempKey[nk - 1]))), Word(Rcon(rconPointer), 0, 0, 0));
      if nk != 8 {
        ChainColumns(tempKey, 1, nk, key, base, rconPointer);
      } else {
        ChainColumns(tempKey, 1, nk / 2, key, base, rconPointer);
        MiddleWord(key, base);
        tempKey[nk / 2] := XorWord(tempKey[nk / 2], SubWord(tempKey[nk / 2 - 1]));
        ChainColumns(tempKey, nk / 2 + 1, nk, key, base, rconPointer);
      }
    }

    /** Expands the key; reports how many round constants were used. */
    method KeySched(key: array<Word>) returns (ghost constants: nat)
      requires Ready() && key.Length == 8
      modifies expandedKey
      ensures Schedule() == EncSchedule(key[..rounds - 6]) && SpareRowsKept()
      ensures Recurrence(Schedule(), key[..rounds - 6])
      ensures constants == (if rounds == 14 then 7 else if rounds == 12 then 8 else 10)
    {
      hide ScheduleWord;
      var nk := rounds - 6;
      ghost var k := key[..nk];
      var tempKey := new Word[8](i => ZeroWord);
      for j := 0 to nk
        invariant forall i :: 0 <= i < j ==> tempKey[i] == k[i]
        invariant unchanged(expandedKey)
      {
        tempKey[j] := key[j];
      }
      FirstWords(k);
      constants := ExpandFrom(tempKey, k);
      assert Schedule() == EncSchedule(k);
      EncScheduleFollows(k);
    }

    // The expansion proper, once the key itself is in tempKey.
    method ExpandFrom(tempKey: array<Word>, ghost key: seq<Word>) returns (ghost constants: nat)
      requires Ready() && KeyLength(|key|) && rounds == Rounds(|key|) && Rolling(tempKey, key, 0)
      modifies tempKey, expandedKey
      ensures Filled(key, 4 * (rounds + 1)) && SpareRowsKept()
      ensures constants == (if rounds == 14 then 7 else if rounds == 12 then 8 else 10)
    {
      hide ScheduleWord;
      var rconPointer := 0;
      ghost var base := 0;
      var r, t := StoreColumns(tempKey, 0, 0, key);
      while r <= rounds
        invariant 0 <= r && 0 <= t && 0 <= base < 4 * (rounds + 1) && SpareRowsKept()
        invariant if r <= rounds then t < 4 && 4 * r + t == base + |key| else 4 * (rounds + 1) <= base + |key|
        invariant Filled(key, if r <= rounds then 4 * r + t else 4 * (rounds + 1))
        invariant Turns(|key|, base, rconPointer) && Rolling(tempKey, key, base)
        decreases 4 * (rounds + 1) - base
      {
        AdvanceKey(tempKey, rconPointer, key, base);
        rconPointer, base := rconPointer + 1, base + |key|;
        r, t := StoreColumns(tempKey, r, t, key);
      }
      constants := rconPointer;
    }

    /** Turns the schedule into the one for deciphering. */
    method KeyEncToDec()
      requires Ready()
      modifies expandedKey
      ensures DecryptionSchedule(old(Schedule()), Schedule(), rounds) && SpareRowsKept()
    {
      hide KeyColumn;
      hide InvMixColumn;
      for r := 1 to rounds
        invariant forall p, q :: 0 <= q < 4 && 1 <= p < r ==> expandedKey[p, q] == InvMixColumn(old(expandedKey[p, q]))
        invariant forall p, q :: 0 <= q < 4 && (p == 0 || r <= p < 15) ==> expandedKey[p, q] == old(expandedKey[p, q])
      {
        forall w: Word { KeyColumnMeaning(w); }
        expandedKey[r, 0] := KeyColumn(expandedKey[r, 0]);
        expandedKey[r, 1] := KeyColumn(expandedKey[r, 1]);
        expandedKey[r, 2] := KeyColumn(expandedKey[r, 2]);
        expandedKey[r, 3] := KeyColumn(expandedKey[r, 3]);
      }
    }
  }
}
