/** The key expansion of section 5.2 of FIPS 197. */
module KeySchedule {
  import opened Bytes
  import opened Field
  import opened Tables
  import opened Aes

  function RotWord(w: Word): Word {
    Word(w.b1, w.b2, w.b3, w.b0)
  }

  // x to the n-th power, as a field element.
  function Power(n: nat): byte {
    if n == 0 then 1 else Xtime(Power(n - 1))
  }

  predicate KeyLength(nk: nat) {
    nk == 4 || nk == 6 || nk == 8
  }

  // What word i adds to word i - Nk, given word i - 1.
  function Increment(nk: nat, i: nat, previous: Word): Word
    requires KeyLength(nk) && nk <= i
  {
    if i % nk == 0 then XorWord(SubWord(RotWord(previous)), Word(Power(i / nk - 1), 0, 0, 0))
    else if nk > 6 && i % nk == 4 then SubWord(previous)
    else previous
  }

  /** Word i of the schedule. */
  function ScheduleWord(key: seq<Word>, i: nat): Word
    requires KeyLength(|key|)
  {
    if i < |key| then key[i]
    else XorWord(ScheduleWord(key, i - |key|), Increment(|key|, i, ScheduleWord(key, i - 1)))
  }

  lemma FirstWords(key: seq<Word>)
    requires KeyLength(|key|)
    ensures forall i :: 0 <= i < |key| ==> ScheduleWord(key, i) == key[i]
  {
  }

  function Rounds(nk: nat): nat
    requires KeyLength(nk)
  {
    nk + 6
  }

  /** The schedule for enciphering: 4(Nr + 1) words. */
  function EncSchedule(key: seq<Word>): (w: seq<Word>)
    requires KeyLength(|key|)
    ensures |w| == 4 * (Rounds(|key|) + 1)
  {
    seq(4 * (Rounds(|key|) + 1), i requires 0 <= i => ScheduleWord(key, i))
  }

  // ---- the recurrence, byte by byte ----------------------------------------------

  // u plus t, rotated to the left by one byte and substituted, plus a round constant.
  function PlusRotated(u: Word, t: Word, c: byte): Word {
    Word(u.b0 ^ (S(t.b1) ^ c), u.b1 ^ S(t.b2), u.b2 ^ S(t.b3), u.b3 ^ S(t.b0))
  }

  function PlusSubstituted(u: Word, t: Word): Word {
    Word(u.b0 ^ S(t.b0), u.b1 ^ S(t.b1), u.b2 ^ S(t.b2), u.b3 ^ S(t.b3))
  }

  function Plus(u: Word, t: Word): Word {
    Word(u.b0 ^ t.b0, u.b1 ^ t.b1, u.b2 ^ t.b2, u.b3 ^ t.b3)
  }

  /** Word i comes from the one Nk words back and the one before, which every Nk words is rotated,
      substituted and given a round constant, first 1, and for eight words is substituted half way in
      between as well. */
  ghost predicate FollowsAt(w: seq<Word>, nk: nat, i: nat)
    requires KeyLength(nk) && nk <= i < |w|
  {
    && i / nk - 1 < RCON_ENTRIES
    && w[i] ==
      if i % nk == 0 then PlusRotated(w[i - nk], w[i - 1], if i == nk then 1 else Rcon(i / nk - 1))
      else if nk == 8 && i % 8 == 4 then PlusSubstituted(w[i - nk], w[i - 1])
      else Plus(w[i - nk], w[i - 1])
  }

  ghost predicate Recurrence(w: seq<Word>, key: seq<Word>) {
    && KeyLength(|key|) && |w| == 4 * (|key| + 7) && key <= w
    && forall i {:trigger FollowsAt(w, |key|, i)} :: |key| <= i < |w| ==> FollowsAt(w, |key|, i)
  }

  lemma ConstantExists(nk: nat, i: nat)
    requires KeyLength(nk) && nk <= i < 4 * (nk + 7)
    ensures 0 <= i / nk - 1 < RCON_ENTRIES && (i == nk ==> i / nk == 1)
  {
  }

  /** The schedule satisfies it, and is the only list of words that does. */
  lemma EncScheduleFollows(key: seq<Word>)
    requires KeyLength(|key|)
    ensures Recurrence(EncSchedule(key), key)
  {
    var w := EncSchedule(key);
    FirstWords(key);
    hide ScheduleWord;
    hide FollowsAt;
    forall i | |key| <= i < |w| ensures FollowsAt(w, |key|, i) {
      WordFollows(key, i);
    }
  }

  lemma ConstantIs(nk: nat, i: nat)
    requires KeyLength(nk) && nk <= i && i / nk - 1 < RCON_ENTRIES
    ensures (if i == nk then 1 else Rcon(i / nk - 1)) == Power(i / nk - 1)
  {
    hide Rcon;
    if i == nk {
      assert i / nk == 1 && Power(0) == 1;
    } else {
      RconIsPower(i / nk - 1);
    }
  }

  // The three cases of the recurrence.
  lemma IncrementIs(nk: nat, i: nat, t: Word)
    requires KeyLength(nk) && nk <= i && i / nk - 1 < RCON_ENTRIES
    ensures i % nk == 0 ==>
      Increment(nk, i, t) == XorWord(SubWord(RotWord(t)), Word(if i == nk then 1 else Rcon(i / nk - 1), 0, 0, 0))
    ensures i % nk != 0 && nk == 8 && i % 8 == 4 ==> Increment(nk, i, t) == SubWord(t)
    ensures i % nk != 0 && !(nk == 8 && i % 8 == 4) ==> Increment(nk, i, t) == t
  {
    ConstantIs(nk, i);
    hide Power;
    hide Rcon;
    hide XorWord;
    hide SubWord;
    hide RotWord;
  }

  lemma IncrementMeaning(nk: nat, i: nat, u: Word, t: Word)
    requires KeyLength(nk) && nk <= i && i / nk - 1 < RCON_ENTRIES
    ensures i % nk == 0 ==> XorWord(u, Increment(nk, i, t)) == PlusRotated(u, t, if i == nk then 1 else Rcon(i / nk - 1))
    ensures i % nk != 0 && nk == 8 && i % 8 == 4 ==> XorWord(u, Increment(nk, i, t)) == PlusSubstituted(u, t)
    ensures i % nk != 0 && !(nk == 8 && i % 8 == 4) ==> XorWord(u, Increment(nk, i, t)) == Plus(u, t)
  {
    var c := if i == nk then 1 else Rcon(i / nk - 1);
    IncrementIs(nk, i, t);
    hide *;
    SumOfBytes(u, t);
    SumOfSubstituted(u, t);
    SumOfRotated(u, t, c);
  }

  lemma WordFollows(key: seq<Word>, i: nat)
    requires KeyLength(|key|) && |key| <= i < 4 * (|key| + 7)
    ensures FollowsAt(EncSchedule(key), |key|, i)
  {
    var w, nk := EncSchedule(key), |key|;
    ConstantExists(nk, i);
    assert w[i] == XorWord(w[i - nk], Increment(nk, i, w[i - 1]));
    IncrementMeaning(nk, i, w[i - nk], w[i - 1]);
    FollowsBy(w, nk, i);
  }

  lemma FollowsBy(w: seq<Word>, nk: nat, i: nat)
    requires KeyLength(nk) && nk <= i < |w| && i / nk - 1 < RCON_ENTRIES
    requires i % nk == 0 ==> w[i] == PlusRotated(w[i - nk], w[i - 1], if i == nk then 1 else Rcon(i / nk - 1))
    requires i % nk != 0 && nk == 8 && i % 8 == 4 ==> w[i] == PlusSubstituted(w[i - nk], w[i - 1])
    requires i % nk != 0 && !(nk == 8 && i % 8 == 4) ==> w[i] == Plus(w[i - nk], w[i - 1])
    ensures FollowsAt(w, nk, i)
  {
    hide Plus;
    hide PlusSubstituted;
    hide PlusRotated;
  }

  lemma SumOfBytes(u: Word, t: Word)
    ensures XorWord(u, t) == Plus(u, t)
  {
  }

  lemma SumOfSubstituted(u: Word, t: Word)
    ensures XorWord(u, SubWord(t)) == PlusSubstituted(u, t)
  {
    hide S;
  }

  lemma SumOfRotated(u: Word, t: Word, c: byte)
    ensures XorWord(u, XorWord(SubWord(RotWord(t)), Word(c, 0, 0, 0))) == PlusRotated(u, t, c)
  {
    var x := Word(S(t.b1), S(t.b2), S(t.b3), S(t.b0));
    assert SubWord(RotWord(t)) == x;
    FirstByteOnly(x, c);
    SumOfBytes(u, Word(x.b0 ^ c, x.b1, x.b2, x.b3));
    hide S;
    hide XorWord;
  }

  lemma FirstByteOnly(x: Word, c: byte)
    ensures XorWord(x, Word(c, 0, 0, 0)) == Word(x.b0 ^ c, x.b1, x.b2, x.b3)
  {
  }

  lemma {:induction false} RecurrenceDetermines(w: seq<Word>, v: seq<Word>, key: seq<Word>, i: nat)
    requires Recurrence(w, key) && Recurrence(v, key) && i < |w|
    ensures w[i] == v[i]
  {
    hide Plus;
    hide PlusSubstituted;
    hide PlusRotated;
    if i >= |key| {
      RecurrenceDetermines(w, v, key, i - 1);
      RecurrenceDetermines(w, v, key, i - |key|);
      assert FollowsAt(w, |key|, i) && FollowsAt(v, |key|, i);
    } else {
      assert w[..|key|][i] == v[..|key|][i];
    }
  }

  /** The schedule for the equivalent inverse cipher (section 5.3.5). */
  function DecSchedule(key: seq<Word>): (dw: seq<Word>)
    requires KeyLength(|key|)
    ensures DecryptionSchedule(EncSchedule(key), dw, Rounds(|key|))
  {
    var w := EncSchedule(key);
    seq(|w|, i requires 0 <= i < |w| => if 4 <= i < 4 * Rounds(|key|) then InvMixColumn(w[i]) else w[i])
  }

  /** The literal round constants are the powers of x. */
  lemma {:induction false} RconIsPower(n: nat)
    requires n < RCON_ENTRIES
    ensures Rcon(n) == Power(n)
  {
    if n == 0 {
      assert Rcon(0) == 1;
    } else {
      hide Rcon;
      hide Xtime;
      RconIsPower(n - 1);
      RconStep(n);
    }
  }

  lemma RconStep(n: nat)
    requires 0 < n < RCON_ENTRIES
    ensures Rcon(n) == Xtime(Rcon(n - 1))
  {
    if
    case n < 8 =>
    case 8 <= n < 15 =>
    case 15 <= n < 22 =>
    case 22 <= n =>
  }

  /** Deciphering under a key undoes enciphering under it, and the reverse. */
  lemma KeyedCipherInverse(key: seq<Word>, x: Block)
    requires KeyLength(|key|)
    ensures var nr := Rounds(|key|);
      && EqInvCipher(DecSchedule(key), nr, Cipher(EncSchedule(key), nr, x)) == x
      && Cipher(EncSchedule(key), nr, EqInvCipher(DecSchedule(key), nr, x)) == x
  {
    var nr := Rounds(|key|);
    var w, dw := EncSchedule(key), DecSchedule(key);
    hide EncSchedule;
    hide DecSchedule;
    hide Cipher;
    hide InvCipher;
    hide EqInvCipher;
    EquivalentInverse(w, dw, nr, x);
    EquivalentInverse(w, dw, nr, Cipher(w, nr, x));
    InvCipherUndoesCipher(w, nr, x);
    CipherUndoesInvCipher(w, nr, x);
  }

  // base == nk * n, one length at a time.
  ghost predicate Turns(nk: nat, base: nat, n: nat) {
    (nk == 4 ==> base == 4 * n) && (nk == 6 ==> base == 6 * n) && (nk == 8 ==> base == 8 * n)
  }

  lemma Multiples(nk: nat, base: nat, n: nat, j: nat)
    requires KeyLength(nk) && Turns(nk, base, n) && j < nk
    ensures (base + nk + j) % nk == j && (base + nk) / nk == n + 1
  {
    if nk == 4 {
      MultiplesOf4(n, j);
    } else if nk == 6 {
      MultiplesOf6(n, j);
    } else {
      MultiplesOf8(n, j);
    }
  }

  lemma MultiplesOf4(n: nat, j: nat)
    requires j < 4
    ensures (4 * n + 4 + j) % 4 == j && (4 * n + 4) / 4 == n + 1
  {
  }

  lemma MultiplesOf6(n: nat, j: nat)
    requires j < 6
    ensures (6 * n + 6 + j) % 6 == j && (6 * n + 6) / 6 == n + 1
  {
  }

  lemma MultiplesOf8(n: nat, j: nat)
    requires j < 8
    ensures (8 * n + 8 + j) % 8 == j && (8 * n + 8) / 8 == n + 1
  {
  }

  // The three kinds of schedule word, as a window of Nk words rolling along the recurrence meets them.
  lemma PlainWord(key: seq<Word>, base: nat, n: nat, j: nat)
    requires KeyLength(|key|) && Turns(|key|, base, n) && 1 <= j < |key| && (|key| == 8 ==> j != 4)
    ensures ScheduleWord(key, base + |key| + j)
         == XorWord(ScheduleWord(key, base + j), ScheduleWord(key, base + |key| + j - 1))
  {
    hide XorWord;
    hide SubWord;
    Multiples(|key|, base, n, j);
  }

  lemma FirstWord(key: seq<Word>, base: nat, n: nat)
    requires KeyLength(|key|) && Turns(|key|, base, n) && n < RCON_ENTRIES
    ensures ScheduleWord(key, base + |key|)
         == XorWord(XorWord(ScheduleWord(key, base), SubWord(RotWord(ScheduleWord(key, base + |key| - 1)))),
                    Word(Rcon(n), 0, 0, 0))
  {
    hide XorWord;
    hide SubWord;
    hide RotWord;
    hide Rcon;
    hide Power;
    RconIsPower(n);
    Multiples(|key|, base, n, 0);
    XorWordAssociates(ScheduleWord(key, base), SubWord(RotWord(ScheduleWord(key, base + |key| - 1))), Word(Rcon(n), 0, 0, 0));
  }

  lemma MiddleWord(key: seq<Word>, base: nat)
    requires |key| == 8 && base % 8 == 0
    ensures ScheduleWord(key, base + 12) == XorWord(ScheduleWord(key, base + 4), SubWord(ScheduleWord(key, base + 11)))
  {
    hide XorWord;
    hide SubWord;
  }

  lemma XorWordAssociates(u: Word, v: Word, w: Word)
    ensures XorWord(XorWord(u, v), w) == XorWord(u, XorWord(v, w))
  {
    hide Add;
    AddAssociates(u.b0, v.b0, w.b0);
    AddAssociates(u.b1, v.b1, w.b1);
    AddAssociates(u.b2, v.b2, w.b2);
    AddAssociates(u.b3, v.b3, w.b3);
  }
}
