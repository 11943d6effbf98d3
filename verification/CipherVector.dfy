/** The example of Appendix B of FIPS 197, which expands the key of Appendix A.1, round by round. */
module CipherVector {
  import opened Bytes
  import opened Tables
  import opened Field
  import opened Aes
  import opened KeySchedule
  import opened Modes
  import opened RijndaelObject
  import opened RijndaelApi

  function B(p: bv32, q: bv32, r: bv32, s: bv32): Block {
    Block(Entry(p), Entry(q), Entry(r), Entry(s))
  }

  // ---- the key of Appendix A.1 ---------------------------------------------------

  type Bytes16 = s: seq<byte> | |s| == 16 witness Repeat(0, 16)

  const KEY: Bytes16 := [0x2b, 0x7e, 0x15, 0x16, 0x28, 0xae, 0xd2, 0xa6, 0xab, 0xf7, 0x15, 0x88, 0x09, 0xcf, 0x4f, 0x3c]

  const PLAIN: Bytes16 := [0x32, 0x43, 0xf6, 0xa8, 0x88, 0x5a, 0x30, 0x8d, 0x31, 0x31, 0x98, 0xa2, 0xe0, 0x37, 0x07, 0x34]

  const SECRET: Bytes16 := [0x39, 0x25, 0x84, 0x1d, 0x02, 0xdc, 0x09, 0xfb, 0xdc, 0x11, 0x85, 0x97, 0x19, 0x6a, 0x0b, 0x32]

  // The round keys as printed, the states at the start of the rounds, and those after ShiftRows.
  const K0 := B(0x2b7e1516, 0x28aed2a6, 0xabf71588, 0x09cf4f3c)
  const K1 := B(0xa0fafe17, 0x88542cb1, 0x23a33939, 0x2a6c7605)
  const K2 := B(0xf2c295f2, 0x7a96b943, 0x5935807a, 0x7359f67f)
  const K3 := B(0x3d80477d, 0x4716fe3e, 0x1e237e44, 0x6d7a883b)
  const K4 := B(0xef44a541, 0xa8525b7f, 0xb671253b, 0xdb0bad00)
  const K5 := B(0xd4d1c6f8, 0x7c839d87, 0xcaf2b8bc, 0x11f915bc)
  const K6 := B(0x6d88a37a, 0x110b3efd, 0xdbf98641, 0xca0093fd)
  const K7 := B(0x4e54f70e, 0x5f5fc9f3, 0x84a64fb2, 0x4ea6dc4f)
  const K8 := B(0xead27321, 0xb58dbad2, 0x312bf560, 0x7f8d292f)
  const K9 := B(0xac7766f3, 0x19fadc21, 0x28d12941, 0x575c006e)
  const K10 := B(0xd014f9a8, 0xc9ee2589, 0xe13f0cc8, 0xb6630ca6)
  const A0 := B(0x193de3be, 0xa0f4e22b, 0x9ac68d2a, 0xe9f84808)
  const A1 := B(0xa49c7ff2, 0x689f352b, 0x6b5bea43, 0x026a5049)
  const A2 := B(0xaa8f5f03, 0x61dde3ef, 0x82d24ad2, 0x6832469a)
  const A3 := B(0x486c4eee, 0x671d9d0d, 0x4de3b138, 0xd65f58e7)
  const A4 := B(0xe0927fe8, 0xc86363c0, 0xd9b13550, 0x85b8be01)
  const A5 := B(0xf1006f55, 0xc1924cef, 0x7cc88b32, 0x5db5d50c)
  const A6 := B(0x260e2e17, 0x3d41b77d, 0xe86472a9, 0xfdd28b25)
  const A7 := B(0x5a4142b1, 0x1949dc1f, 0xa3e01965, 0x7a8c040c)
  const A8 := B(0xea835cf0, 0x0445332d, 0x655d98ad, 0x8596b0c5)
  const A9 := B(0xeb40f21e, 0x592e3884, 0x8ba113e7, 0x1bc342d2)
  const M1 := B(0xd4bf5d30, 0xe0b452ae, 0xb84111f1, 0x1e2798e5)
  const M2 := B(0x49db873b, 0x45395389, 0x7f02d2f1, 0x77de961a)
  const M3 := B(0xacc1d6b8, 0xefb55a7b, 0x1323cfdf, 0x457311b5)
  const M4 := B(0x52a4c894, 0x85116a28, 0xe3cf2fd7, 0xf6505e07)
  const M5 := B(0xe1fb967c, 0xe8c8ae9b, 0x356cd2ba, 0x974ffb53)
  const M6 := B(0xa14f3dfe, 0x78e803fc, 0x10d5a8df, 0x4c632923)
  const M7 := B(0xf783403f, 0x27433df0, 0x9bb531ff, 0x54aba9d3)
  const M8 := B(0xbe3bd4fe, 0xd4e1f2c8, 0x0a642cc0, 0xda83864d)
  const M9 := B(0x876e46a6, 0xf24ce78c, 0x4d904ad8, 0x97ecc395)
  const M10 := B(0xe9317db5, 0xcb322c72, 0x3d2e895f, 0xaf090794)

  function PrintedKey(r: nat): Block {
    if r == 0 then K0
    else if r == 1 then K1
    else if r == 2 then K2
    else if r == 3 then K3
    else if r == 4 then K4
    else if r == 5 then K5
    else if r == 6 then K6
    else if r == 7 then K7
    else if r == 8 then K8
    else if r == 9 then K9
    else K10
  }

  // The schedule for four words, a round key at a time.
  lemma PlainFollows(w: seq<Word>, i: nat)
    requires 4 <= i < |w| && i % 4 != 0 && FollowsAt(w, 4, i)
    ensures w[i] == Plus(w[i - 4], w[i - 1])
  {
  }

  lemma ConstantAt(r: nat)
    requires 0 < r <= 10
    ensures (4 * r) % 4 == 0 && 4 * r / 4 - 1 == r - 1 && (4 * r == 4 ==> Rcon(r - 1) == 1)
  {
    RconIsPower(0);
    assert Power(0) == 1;
  }

  lemma FirstFollows(w: seq<Word>, i: nat, r: nat)
    requires 4 <= i < |w| && i % 4 == 0 && i / 4 == r && 0 < r <= 10 && (i == 4 ==> Rcon(r - 1) == 1) && FollowsAt(w, 4, i)
    ensures w[i] == PlusRotated(w[i - 4], w[i - 1], Rcon(r - 1))
  {
    hide Rcon;
    hide Plus;
    hide PlusSubstituted;
    hide PlusRotated;
  }

  // The round key n after k.
  predicate KeyAfter(k: Block, n: Block, c: byte) {
    n.c0 == PlusRotated(k.c0, k.c3, c) && n.c1 == Plus(k.c1, n.c0) && n.c2 == Plus(k.c2, n.c1) && n.c3 == Plus(k.c3, n.c2)
  }

  lemma KeyAfterUnique(k: Block, n: Block, m: Block, c: byte)
    requires KeyAfter(k, n, c) && KeyAfter(k, m, c)
    ensures n == m
  {
    hide Plus;
    hide PlusRotated;
  }

  lemma FourFollow(w: seq<Word>, r: nat)
    requires Recurrence(w, KeyWords(KEY, 4)) && 0 < r <= 10
    ensures |w| == 44 && FollowsAt(w, 4, 4 * r)
    ensures FollowsAt(w, 4, 4 * r + 1) && FollowsAt(w, 4, 4 * r + 2) && FollowsAt(w, 4, 4 * r + 3)
  {
    hide FollowsAt;
    hide KeyWords;
  }

  lemma NextRoundKey(w: seq<Word>, r: nat)
    requires Recurrence(w, KeyWords(KEY, 4)) && 0 < r <= 10
    ensures KeyAfter(RoundKey(w, r - 1), RoundKey(w, r), Rcon(r - 1))
  {
    hide FollowsAt;
    hide Recurrence;
    hide KeyWords;
    hide Plus;
    hide PlusRotated;
    hide Rcon;
    FourFollow(w, r);
    ConstantAt(r);
    FirstFollows(w, 4 * r, r);
    PlainFollows(w, 4 * r + 1);
    PlainFollows(w, 4 * r + 2);
    PlainFollows(w, 4 * r + 3);
  }

  // Each printed round key follows from the one before.
  lemma PrintedKey1()
    ensures KeyAfter(K0, K1, Rcon(0))
  {
  }

  lemma PrintedKey2()
    ensures KeyAfter(K1, K2, Rcon(1))
  {
  }

  lemma PrintedKey3()
    ensures KeyAfter(K2, K3, Rcon(2))
  {
  }

  lemma PrintedKey4()
    ensures KeyAfter(K3, K4, Rcon(3))
  {
  }

  lemma PrintedKey5()
    ensures KeyAfter(K4, K5, Rcon(4))
  {
  }

  lemma PrintedKey6()
    ensures KeyAfter(K5, K6, Rcon(5))
  {
  }

  lemma PrintedKey7()
    ensures KeyAfter(K6, K7, Rcon(6))
  {
  }

  lemma PrintedKey8()
    ensures KeyAfter(K7, K8, Rcon(7))
  {
  }

  lemma PrintedKey9()
    ensures KeyAfter(K8, K9, Rcon(8))
  {
  }

  lemma PrintedKey10()
    ensures KeyAfter(K9, K10, Rcon(9))
  {
  }

  lemma PrintedKeysFollow(r: nat)
    requires 0 < r <= 10
    ensures KeyAfter(PrintedKey(r - 1), PrintedKey(r), Rcon(r - 1))
  {
    PrintedKey1();
    PrintedKey2();
    PrintedKey3();
    PrintedKey4();
    PrintedKey5();
    PrintedKey6();
    PrintedKey7();
    PrintedKey8();
    PrintedKey9();
    PrintedKey10();
    hide KeyAfter;
    hide Rcon;
    hide B;
  }

  lemma KeyStarts(w: seq<Word>)
    requires KeyWords(KEY, 4) <= w
    ensures RoundKey(w, 0) == K0
  {
    assert w[0] == KeyWords(KEY, 4)[0] && w[1] == KeyWords(KEY, 4)[1];
    assert w[2] == KeyWords(KEY, 4)[2] && w[3] == KeyWords(KEY, 4)[3];
  }

  lemma {:induction false} KeyAsPrinted(w: seq<Word>, r: nat)
    requires Recurrence(w, KeyWords(KEY, 4)) && r <= 10
    ensures RoundKey(w, r) == PrintedKey(r)
  {
    hide Plus;
    hide PlusRotated;
    hide Rcon;
    if r == 0 {
      KeyStarts(w);
    } else {
      hide *;
      KeyAsPrinted(w, r - 1);
      NextRoundKey(w, r);
      PrintedKeysFollow(r);
      KeyAfterUnique(PrintedKey(r - 1), RoundKey(w, r), PrintedKey(r), Rcon(r - 1));
    }
  }

  // ---- the rounds of Appendix B --------------------------------------------------

  function Mixed(w: Word): Word {
    var x0, x1, x2, x3 := Xtime(w.b0), Xtime(w.b1), Xtime(w.b2), Xtime(w.b3);
    Word(Add(Add(x0, Add(w.b1, x1)), Add(w.b2, w.b3)), Add(Add(w.b0, x1), Add(Add(w.b2, x2), w.b3)),
         Add(Add(w.b0, w.b1), Add(x2, Add(w.b3, x3))), Add(Add(Add(w.b0, x0), w.b1), Add(w.b2, x3)))
  }

  lemma MixedMeaning(w: Word)
    ensures MixColumn(w) == Mixed(w)
  {
    SmallMultipliers(w.b0);
    SmallMultipliers(w.b1);
    SmallMultipliers(w.b2);
    SmallMultipliers(w.b3);
    hide Mul;
    hide Add;
    hide Xtime;
  }

  function MixedBlock(s: Block): Block {
    Block(Mixed(s.c0), Mixed(s.c1), Mixed(s.c2), Mixed(s.c3))
  }

  lemma NextState(w: seq<Word>, r: nat, x: Block)
    requires 0 < r < 10 && |w| == 44
    ensures CipherState(w, r, x) == XorBlock(MixedBlock(SubShift(CipherState(w, r - 1, x))), RoundKey(w, r))
  {
    var m := SubShift(CipherState(w, r - 1, x));
    MixedMeaning(m.c0);
    MixedMeaning(m.c1);
    MixedMeaning(m.c2);
    MixedMeaning(m.c3);
    hide Mixed;
    hide MixColumn;
    hide SubShift;
    hide XorBlock;
  }

  // Each printed state follows from the one before.
  lemma PrintedShifted1()
    ensures SubShift(A0) == M1
  {
  }

  lemma PrintedState1()
    ensures XorBlock(MixedBlock(M1), K1) == A1
  {
  }

  lemma PrintedShifted2()
    ensures SubShift(A1) == M2
  {
  }

  lemma PrintedState2()
    ensures XorBlock(MixedBlock(M2), K2) == A2
  {
  }

  lemma PrintedShifted3()
    ensures SubShift(A2) == M3
  {
  }

  lemma PrintedState3()
    ensures XorBlock(MixedBlock(M3), K3) == A3
  {
  }

  lemma PrintedShifted4()
    ensures SubShift(A3) == M4
  {
  }

  lemma PrintedState4()
    ensures XorBlock(MixedBlock(M4), K4) == A4
  {
  }

  lemma PrintedShifted5()
    ensures SubShift(A4) == M5
  {
  }

  lemma PrintedState5()
    ensures XorBlock(MixedBlock(M5), K5) == A5
  {
  }

  lemma PrintedShifted6()
    ensures SubShift(A5) == M6
  {
  }

  lemma PrintedState6()
    ensures XorBlock(MixedBlock(M6), K6) == A6
  {
  }

  lemma PrintedShifted7()
    ensures SubShift(A6) == M7
  {
  }

  lemma PrintedState7()
    ensures XorBlock(MixedBlock(M7), K7) == A7
  {
  }

  lemma PrintedShifted8()
    ensures SubShift(A7) == M8
  {
  }

  lemma PrintedState8()
    ensures XorBlock(MixedBlock(M8), K8) == A8
  {
  }

  lemma PrintedShifted9()
    ensures SubShift(A8) == M9
  {
  }

  lemma PrintedState9()
    ensures XorBlock(MixedBlock(M9), K9) == A9
  {
  }

  lemma LastState()
    ensures SubShift(A9) == M10 && XorBlock(M10, K10) == BlockAt(SECRET, 0)
  {
  }


  function PrintedState(r: nat): Block {
    if r == 0 then A0
    else if r == 1 then A1
    else if r == 2 then A2
    else if r == 3 then A3
    else if r == 4 then A4
    else if r == 5 then A5
    else if r == 6 then A6
    else if r == 7 then A7
    else if r == 8 then A8
    else A9
  }

  lemma PrintedStatesFollow(r: nat)
    requires 0 < r <= 9
    ensures PrintedState(r) == XorBlock(MixedBlock(SubShift(PrintedState(r - 1))), PrintedKey(r))
  {
    PrintedShifted1();
    PrintedState1();
    PrintedShifted2();
    PrintedState2();
    PrintedShifted3();
    PrintedState3();
    PrintedShifted4();
    PrintedState4();
    PrintedShifted5();
    PrintedState5();
    PrintedShifted6();
    PrintedState6();
    PrintedShifted7();
    PrintedState7();
    PrintedShifted8();
    PrintedState8();
    PrintedShifted9();
    PrintedState9();
    hide B;
    hide SubShift;
    hide MixedBlock;
    hide XorBlock;
  }

  lemma FirstState(w: seq<Word>)
    requires |w| == 44 && RoundKey(w, 0) == K0
    ensures CipherState(w, 0, BlockAt(PLAIN, 0)) == A0
  {
    PlainPlusKey();
    hide B;
    hide BlockAt;
    hide XorBlock;
  }

  lemma PlainPlusKey()
    ensures XorBlock(BlockAt(PLAIN, 0), K0) == A0
  {
  }

  lemma {:induction false} StateAsPrinted(w: seq<Word>, r: nat)
    requires Recurrence(w, KeyWords(KEY, 4)) && |w| == 44 && r <= 9
    ensures CipherState(w, r, BlockAt(PLAIN, 0)) == PrintedState(r)
  {
    hide *;
    KeyAsPrinted(w, r);
    if r == 0 {
      Starts();
      FirstState(w);
    } else {
      StateAsPrinted(w, r - 1);
      NextState(w, r, BlockAt(PLAIN, 0));
      PrintedStatesFollow(r);
    }
  }

  lemma Starts()
    ensures PrintedKey(0) == K0 && PrintedKey(10) == K10 && PrintedState(0) == A0 && PrintedState(9) == A9
  {
    hide B;
  }

  lemma LastRound(w: seq<Word>, x: Block)
    requires |w| == 44
    ensures Cipher(w, 10, x) == XorBlock(SubShift(CipherState(w, 9, x)), RoundKey(w, 10))
  {
    hide CipherState;
    hide SubShift;
    hide XorBlock;
  }

  lemma OneBlock(w: seq<Word>, p: seq<byte>)
    requires |w| == 44 && |p| == 16
    ensures EcbEncrypt(w, 10, p) == BlockBytes(Cipher(w, 10, BlockAt(p, 0)))
  {
    hide Cipher;
    hide BlockAt;
    assert p[16..] == [];
  }

  lemma SecretBytes()
    ensures BlockBytes(BlockAt(SECRET, 0)) == SECRET
  {
  }

  lemma ScheduleIs(key: seq<Word>)
    requires |key| == 4
    ensures |EncSchedule(key)| == 44 && Recurrence(EncSchedule(key), key)
  {
    EncScheduleFollows(key);
  }

  /** The example of Appendix B, from the bytes of the key and of the plaintext to those of the ciphertext. */
  lemma AppendixB()
    ensures EcbEncrypt(EncSchedule(KeyWords(KEY, 4)), 10, PLAIN) == SECRET
  {
    var key, x := KeyWords(KEY, 4), BlockAt(PLAIN, 0);
    var w := EncSchedule(key);
    hide *;
    ScheduleIs(key);
    StateAsPrinted(w, 9);
    KeyAsPrinted(w, 10);
    Starts();
    LastRound(w, x);
    LastState();
    SecretBytes();
    OneBlock(w, PLAIN);
  }

  /** And back. */
  lemma AppendixBInverse()
    ensures EcbDecrypt(DecSchedule(KeyWords(KEY, 4)), 10, SECRET) == PLAIN
  {
    AppendixB();
    EcbRoundTrip(KeyWords(KEY, 4), PLAIN);
    hide *;
  }
}
