/** Arithmetic in GF(2^8) modulo x^8 + x^4 + x^3 + x + 1 (sections 4.1 and 4.2 of FIPS 197).
    Later proofs hide Add, Xtime and Mul and use the laws below, so the solver never sees single bits. */
module Field {
  import opened Bytes

  function Xtime(x: byte): byte {
    if x & 0x80 != 0 then (x << 1) ^ 0x1b else x << 1
  }

  predicate Bit(a: byte, k: nat) {
    a & (if k == 0 then 0x01 else if k == 1 then 0x02 else if k == 2 then 0x04 else if k == 3 then 0x08
         else if k == 4 then 0x10 else if k == 5 then 0x20 else if k == 6 then 0x40 else 0x80) != 0
  }

  function Pick(bit: bool, x: byte): byte {
    if bit then x else 0
  }

  // The sum of the doublings of x that bits k to 7 of a select.
  function Sum(a: byte, x: byte, k: nat): byte
    requires k <= 8
    decreases 8 - k
  {
    if k == 8 then 0 else Add(Pick(Bit(a, k), x), Sum(a, Xtime(x), k + 1))
  }

  /** The product a * x. */
  function Mul(a: byte, x: byte): byte {
    Sum(a, x, 0)
  }

  // ---- addition ----------------------------------------------------------------

  lemma AddAssociates(x: byte, y: byte, z: byte)
    ensures Add(Add(x, y), z) == Add(x, Add(y, z))
  {
  }

  lemma AddLaws(x: byte, y: byte)
    ensures Add(x, y) == Add(y, x)
    ensures Add(x, 0) == x && Add(0, x) == x
  {
  }

  lemma AddSwap(p: byte, q: byte, r: byte, s: byte)
    ensures Add(Add(p, q), Add(r, s)) == Add(Add(p, r), Add(q, s))
  {
    hide Add;
    AddAssociates(p, q, Add(r, s));
    AddAssociates(q, r, s);
    AddLaws(q, r);
    AddAssociates(r, q, s);
    AddAssociates(p, r, Add(q, s));
  }

  lemma AddSwap4(p: byte, q: byte, r: byte, s: byte, t: byte, u: byte, v: byte, w: byte)
    ensures Add(Add(Add(p, q), Add(r, s)), Add(Add(t, u), Add(v, w)))
         == Add(Add(Add(p, r), Add(t, v)), Add(Add(q, s), Add(u, w)))
  {
    hide Add;
    AddSwap(p, q, r, s);
    AddSwap(t, u, v, w);
    AddSwap(Add(p, r), Add(q, s), Add(t, v), Add(u, w));
  }

  // ---- multiplication ----------------------------------------------------------

  lemma XtimeIsLinear(x: byte, y: byte)
    ensures Xtime(Add(x, y)) == Add(Xtime(x), Xtime(y))
  {
    if x & 0x80 != 0 {
      if y & 0x80 != 0 {
      } else {
      }
    } else {
      if y & 0x80 != 0 {
      } else {
      }
    }
  }

  lemma PickLaws(bit: bool, x: byte, y: byte)
    ensures Pick(bit, Add(x, y)) == Add(Pick(bit, x), Pick(bit, y))
    ensures Xtime(Pick(bit, x)) == Pick(bit, Xtime(x))
  {
  }

  lemma BitLaws(a: byte, b: byte, k: nat)
    requires k < 8
    ensures Bit(a ^ b, k) == (Bit(a, k) != Bit(b, k))
    ensures !Bit(a << 1, 0) && (k < 7 ==> Bit(a << 1, k + 1) == Bit(a, k))
  {
    if
    case k == 0 =>
    case k == 1 =>
    case k == 2 =>
    case k == 3 =>
    case k == 4 =>
    case k == 5 =>
    case k == 6 =>
    case k == 7 =>
  }

  lemma PickSum(p: bool, q: bool, x: byte)
    ensures Add(Pick(p, x), Pick(q, x)) == Pick(p != q, x)
    ensures Pick(false, x) == 0
  {
  }

  lemma {:induction false} SumIsLinear(a: byte, x: byte, y: byte, k: nat)
    requires k <= 8
    ensures Sum(a, Add(x, y), k) == Add(Sum(a, x, k), Sum(a, y, k))
    decreases 8 - k
  {
    hide Add;
    hide Xtime;
    hide Pick;
    hide Bit;
    if k == 8 {
      AddLaws(0, 0);
    } else {
      var x1, y1 := Xtime(x), Xtime(y);
      XtimeIsLinear(x, y);
      SumIsLinear(a, x1, y1, k + 1);
      PickLaws(Bit(a, k), x, y);
      AddSwap(Pick(Bit(a, k), x), Pick(Bit(a, k), y), Sum(a, x1, k + 1), Sum(a, y1, k + 1));
    }
  }

  /** Multiplication distributes over addition on the right ... */
  lemma MulIsLinear(a: byte, x: byte, y: byte)
    ensures Mul(a, Add(x, y)) == Add(Mul(a, x), Mul(a, y))
  {
    hide Add;
    hide Sum;
    SumIsLinear(a, x, y, 0);
  }

  lemma {:induction false} SumOfSums(a: byte, b: byte, x: byte, k: nat)
    requires k <= 8
    ensures Add(Sum(a, x, k), Sum(b, x, k)) == Sum(a ^ b, x, k)
    decreases 8 - k
  {
    hide Add;
    hide Xtime;
    hide Pick;
    hide Bit;
    if k == 8 {
      AddLaws(0, 0);
    } else {
      var x1 := Xtime(x);
      SumOfSums(a, b, x1, k + 1);
      BitLaws(a, b, k);
      PickSum(Bit(a, k), Bit(b, k), x);
      AddSwap(Pick(Bit(a, k), x), Sum(a, x1, k + 1), Pick(Bit(b, k), x), Sum(b, x1, k + 1));
    }
  }

  /** ... and on the left. */
  lemma MulSum(a: byte, b: byte, x: byte)
    ensures Add(Mul(a, x), Mul(b, x)) == Mul(a ^ b, x)
  {
    hide Add;
    hide Sum;
    SumOfSums(a, b, x, 0);
  }

  lemma {:induction false} SumDoubled(a: byte, x: byte, k: nat)
    requires k <= 7 && !Bit(a, 7)
    ensures Sum(a, x, k) == Sum(a << 1, x, k + 1)
    decreases 8 - k
  {
    hide Add;
    hide Xtime;
    hide Pick;
    hide Bit;
    BitLaws(a, a, k);
    if k == 7 {
      PickSum(false, false, x);
      AddLaws(0, 0);
    } else {
      SumDoubled(a, Xtime(x), k + 1);
    }
  }

  /** Doubling either factor doubles the product. */
  lemma MulDouble(a: byte, x: byte)
    requires !Bit(a, 7)
    ensures Mul(a, Xtime(x)) == Mul(a << 1, x)
  {
    hide Add;
    hide Xtime;
    hide Bit;
    BitLaws(a, a, 0);
    SumDoubled(a, Xtime(x), 0);
    AddLaws(Sum(a << 1, Xtime(x), 1), 0);
  }

  lemma {:induction false} XtimeOfSum(a: byte, x: byte, k: nat)
    requires k <= 8
    ensures Xtime(Sum(a, x, k)) == Sum(a, Xtime(x), k)
    decreases 8 - k
  {
    if k == 8 {
      assert Xtime(0) == 0;
    } else {
      hide Add;
      hide Xtime;
      hide Pick;
      hide Bit;
      XtimeOfSum(a, Xtime(x), k + 1);
      PickLaws(Bit(a, k), x, x);
      XtimeIsLinear(Pick(Bit(a, k), x), Sum(a, Xtime(x), k + 1));
    }
  }

  lemma SumUnrolled(a: byte, x: byte, k: nat)
    requires k <= 4
    ensures var x1 := Xtime(x); var x2 := Xtime(x1); var x3 := Xtime(x2);
            Sum(a, x, k) == Add(Pick(Bit(a, k), x), Add(Pick(Bit(a, k + 1), x1), Add(Pick(Bit(a, k + 2), x2),
                            Add(Pick(Bit(a, k + 3), x3), Sum(a, Xtime(x3), k + 4)))))
  {
    hide Add;
    hide Xtime;
    hide Pick;
    hide Bit;
    var x1 := Xtime(x);
    var x2 := Xtime(x1);
    var x3 := Xtime(x2);
    assert Sum(a, x3, k + 3) == Add(Pick(Bit(a, k + 3), x3), Sum(a, Xtime(x3), k + 4));
    assert Sum(a, x2, k + 2) == Add(Pick(Bit(a, k + 2), x2), Sum(a, x3, k + 3));
    assert Sum(a, x1, k + 1) == Add(Pick(Bit(a, k + 1), x1), Sum(a, x2, k + 2));
  }

  lemma MulUnrolled(a: byte, x: byte)
    ensures var x1 := Xtime(x); var x2 := Xtime(x1); var x3 := Xtime(x2); var x4 := Xtime(x3);
            var x5 := Xtime(x4); var x6 := Xtime(x5); var x7 := Xtime(x6);
            Mul(a, x) == Add(Pick(Bit(a, 0), x), Add(Pick(Bit(a, 1), x1), Add(Pick(Bit(a, 2), x2), Add(Pick(Bit(a, 3), x3),
                         Add(Pick(Bit(a, 4), x4), Add(Pick(Bit(a, 5), x5), Add(Pick(Bit(a, 6), x6), Pick(Bit(a, 7), x7))))))))
  {
    var x4 := Xtime(Xtime(Xtime(Xtime(x))));
    var x7 := Xtime(Xtime(Xtime(x4)));
    SumUnrolled(a, x, 0);
    SumUnrolled(a, x4, 4);
    assert Sum(a, Xtime(x7), 8) == 0;
    hide Sum;
    hide Add;
    hide Xtime;
    hide Pick;
    hide Bit;
    AddLaws(Pick(Bit(a, 7), x7), 0);
  }

  lemma OneTwoThree(x: byte)
    ensures Mul(1, x) == x && Mul(2, x) == Xtime(x) && Mul(3, x) == Add(x, Xtime(x))
  {
    MulUnrolled(1, x);
    MulUnrolled(2, x);
    MulUnrolled(3, x);
    hide Mul;
    hide Add;
    hide Xtime;
    forall y: byte { AddLaws(y, 0); }
  }

  lemma NineEleven(x: byte)
    ensures var x1 := Xtime(x); var x3 := Xtime(Xtime(x1)); Mul(9, x) == Add(x, x3) && Mul(11, x) == Add(x, Add(x1, x3))
  {
    MulUnrolled(9, x);
    MulUnrolled(11, x);
    hide Mul;
    hide Add;
    hide Xtime;
    forall y: byte { AddLaws(y, 0); }
  }

  lemma ThirteenFourteen(x: byte)
    ensures var x1 := Xtime(x); var x2 := Xtime(x1); var x3 := Xtime(x2);
            Mul(13, x) == Add(x, Add(x2, x3)) && Mul(14, x) == Add(x1, Add(x2, x3))
  {
    MulUnrolled(13, x);
    MulUnrolled(14, x);
    hide Mul;
    hide Add;
    hide Xtime;
    forall y: byte { AddLaws(y, 0); }
  }

  // The multipliers of the two column matrices.
  lemma SmallMultipliers(x: byte)
    ensures Mul(1, x) == x && Mul(2, x) == Xtime(x) && Mul(3, x) == Add(x, Xtime(x))
    ensures var x1 := Xtime(x); var x2 := Xtime(x1); var x3 := Xtime(x2);
            Mul(9, x) == Add(x, x3) && Mul(11, x) == Add(x, Add(x1, x3))
            && Mul(13, x) == Add(x, Add(x2, x3)) && Mul(14, x) == Add(x1, Add(x2, x3))
  {
    hide *;
    OneTwoThree(x);
    NineEleven(x);
    ThirteenFourteen(x);
  }

  lemma MulTwoThree(a: byte, x: byte)
    requires !Bit(a, 7)
    ensures Mul(a, Mul(2, x)) == Mul(a << 1, x) && Mul(2, Mul(a, x)) == Mul(a << 1, x)
    ensures Mul(a, Mul(3, x)) == Mul((a << 1) ^ a, x) && Mul(3, Mul(a, x)) == Mul((a << 1) ^ a, x)
  {
    SmallMultipliers(x);
    SmallMultipliers(Mul(a, x));
    MulDouble(a, x);
    XtimeOfSum(a, x, 0);
    assert Xtime(Mul(a, x)) == Mul(a, Xtime(x));
    hide Mul;
    hide Add;
    hide Xtime;
    hide Bit;
    MulIsLinear(a, x, Xtime(x));
    MulSum(a, a << 1, x);
    assert a ^ (a << 1) == (a << 1) ^ a;
  }

  lemma MulSum4(a: byte, b: byte, c: byte, d: byte, x: byte)
    ensures Add(Add(Mul(a, x), Mul(b, x)), Add(Mul(c, x), Mul(d, x))) == Mul((a ^ b) ^ (c ^ d), x)
  {
    hide Mul;
    hide Add;
    MulSum(a, b, x);
    MulSum(c, d, x);
    MulSum(a ^ b, c ^ d, x);
  }

  lemma {:induction false} SumOfNothing(x: byte, k: nat)
    requires k <= 8
    ensures Sum(0, x, k) == 0
    decreases 8 - k
  {
    hide Xtime;
    if k < 8 {
      SumOfNothing(Xtime(x), k + 1);
      AddLaws(0, 0);
    }
  }

  lemma {:induction false} SumOfZeros(a: byte, k: nat)
    requires k <= 8
    ensures Sum(a, 0, k) == 0
    decreases 8 - k
  {
    if k < 8 {
      SumOfZeros(a, k + 1);
      assert Xtime(0) == 0;
      hide Xtime;
      hide Bit;
      AddLaws(0, 0);
    }
  }

  lemma MulZero(a: byte, x: byte)
    ensures Mul(a, 0) == 0 && Mul(0, x) == 0
  {
    SumOfNothing(x, 0);
    SumOfZeros(a, 0);
  }

  /** The affine map of section 5.1.1, undone. */
  function UndoAffine(y: byte): byte {
    var z := y ^ 0x63;
    ((z << 1) | (z >> 7)) ^ ((z << 3) | (z >> 5)) ^ ((z << 6) | (z >> 2))
  }
}
