/** 64-bit words as naturals: exclusive or, shifts, wrapping multiplication, and their inverses. */
module Words {

  const WORD: nat := 0x1_0000_0000_0000_0000
  type U64 = n: nat | n < WORD

  function Pow2(n: nat): (p: nat)
    ensures p > 0
  {
    if n == 0 then 1 else 2 * Pow2(n - 1)
  }

  function Xor(a: nat, b: nat): nat
    decreases a + b
  {
    if a == 0 && b == 0 then 0 else (a + b) % 2 + 2 * Xor(a / 2, b / 2)
  }

  /** Logical right shift. */
  function Shr(a: nat, k: nat): nat
    decreases k, a
  {
    if k == 0 then a else Shr(a / 2, k - 1)
  }

  lemma {:induction false} XorComm(a: nat, b: nat)
    ensures Xor(a, b) == Xor(b, a)
    decreases a + b
  {
    if a != 0 || b != 0 { XorComm(a / 2, b / 2); }
  }

  lemma {:induction false} XorZero(a: nat)
    ensures Xor(a, 0) == a && Xor(0, a) == a
  {
    if a != 0 { XorZero(a / 2); }
  }

  lemma {:induction false} XorSelf(a: nat)
    ensures Xor(a, a) == 0
  {
    if a != 0 { XorSelf(a / 2); }
  }

  lemma {:induction false} XorAssoc(a: nat, b: nat, c: nat)
    ensures Xor(Xor(a, b), c) == Xor(a, Xor(b, c))
    decreases a + b + c
  {
    if a != 0 || b != 0 || c != 0 {
      XorAssoc(a / 2, b / 2, c / 2);
      XorHalf(a, b);
      XorHalf(b, c);
      XorHalf(Xor(a, b), c);
      XorHalf(a, Xor(b, c));
      SameBits(Xor(Xor(a, b), c), Xor(a, Xor(b, c)), Xor(a, b), Xor(b, c), a, b, c);
    }
  }

  lemma SameBits(l: nat, r: nat, ab: nat, bc: nat, a: nat, b: nat, c: nat)
    requires l / 2 == r / 2
    requires ab % 2 == (a + b) % 2 && bc % 2 == (b + c) % 2
    requires l % 2 == (ab + c) % 2 && r % 2 == (a + bc) % 2
    ensures l == r
  {
  }

  lemma {:induction false} XorHalf(a: nat, b: nat)
    ensures Xor(a, b) / 2 == Xor(a / 2, b / 2)
    ensures Xor(a, b) % 2 == (a + b) % 2
  {
  }

  /** Bit i of the exclusive or is set exactly where one of the two is. */
  lemma {:induction false} XorBit(a: nat, b: nat, i: nat)
    ensures Shr(Xor(a, b), i) % 2 == (Shr(a, i) + Shr(b, i)) % 2
    decreases i
  {
    XorHalf(a, b);
    if i > 0 { XorBit(a / 2, b / 2, i - 1); }
  }

  /** Xoring twice with the same word undoes itself. */
  lemma {:induction false} XorCancel(a: nat, b: nat)
    ensures Xor(Xor(a, b), b) == a
  {
    XorAssoc(a, b, b);
    XorSelf(b);
    XorZero(a);
  }

  lemma {:induction false} XorBound(a: nat, b: nat, n: nat)
    requires a < Pow2(n) && b < Pow2(n)
    ensures Xor(a, b) < Pow2(n)
    decreases n
  {
    if n != 0 { XorBound(a / 2, b / 2, n - 1); }
  }

  lemma {:induction false} XorShr(a: nat, b: nat, k: nat)
    ensures Shr(Xor(a, b), k) == Xor(Shr(a, k), Shr(b, k))
    decreases k
  {
    if k != 0 {
      XorHalf(a, b);
      XorShr(a / 2, b / 2, k - 1);
    }
  }

  lemma {:induction false} ShrShr(a: nat, j: nat, k: nat)
    ensures Shr(Shr(a, j), k) == Shr(a, j + k)
    decreases j
  {
    if j != 0 { ShrShr(a / 2, j - 1, k); }
  }

  lemma {:induction false} ShrAtMost(a: nat, k: nat)
    ensures Shr(a, k) <= a
    decreases k
  {
    if k != 0 { ShrAtMost(a / 2, k - 1); }
  }

  lemma {:induction false} ShrVanishes(a: nat, n: nat, k: nat)
    requires a < Pow2(n) && n <= k
    ensures Shr(a, k) == 0
    decreases k
  {
    if k != 0 && n != 0 {
      ShrVanishes(a / 2, n - 1, k - 1);
    } else if k != 0 {
      ShrVanishes(a / 2, 0, k - 1);
    }
  }

  lemma WordIsPow2()
    ensures Pow2(64) == WORD
  {
    assert Pow2(8) == 0x100;
    assert Pow2(16) == 0x1_0000;
    assert Pow2(24) == 0x100_0000;
    assert Pow2(32) == 0x1_0000_0000;
    assert Pow2(40) == 0x100_0000_0000;
    assert Pow2(48) == 0x1_0000_0000_0000;
    assert Pow2(56) == 0x100_0000_0000_0000;
  }

  lemma {:induction false} WordXor(a: U64, b: U64)
    ensures Xor(a, b) < WORD
  {
    WordIsPow2();
    XorBound(a, b, 64);
  }

  // --- The invertible steps of a xorshift-multiply mixer.

  function XorShift(z: nat, k: nat): nat { Xor(z, Shr(z, k)) }

  function UnXorShift(y: nat, k: nat): nat { Xor(Xor(y, Shr(y, k)), Shr(y, 2 * k)) }

  /** What shifting z, and z shifted, by k and 2k gives; three shifts by k leave nothing of a word. */
  lemma {:induction false} Shifted(z: U64, k: nat)
    requires 22 <= k
    ensures Shr(z, k) < WORD && Shr(z, 2 * k) < WORD
    ensures Shr(Shr(z, k), k) == Shr(z, 2 * k)
    ensures Shr(Shr(z, 2 * k), k) == 0 && Shr(Shr(z, k), 2 * k) == 0 && Shr(Shr(z, 2 * k), 2 * k) == 0
  {
    WordIsPow2();
    ShrAtMost(z, k);
    ShrAtMost(z, 2 * k);
    ShrShr(z, k, k);
    ShrShr(z, 2 * k, k);
    ShrShr(z, k, 2 * k);
    ShrShr(z, 2 * k, 2 * k);
    ShrVanishes(z, 64, 3 * k);
    ShrVanishes(z, 64, 4 * k);
  }

  lemma XorShiftUndone(z: U64, k: nat)
    requires 22 <= k
    ensures XorShift(z, k) < WORD && UnXorShift(XorShift(z, k), k) == z
  {
    var a, b := Shr(z, k), Shr(z, 2 * k);
    Shifted(z, k);
    WordXor(z, a);
    var y := Xor(z, a);
    XorShr(z, a, k);
    XorShr(z, a, 2 * k);
    XorZero(b);
    XorAssoc(z, a, Xor(a, b));
    XorAssoc(a, a, b);
    XorSelf(a);
    assert Xor(y, Shr(y, k)) == Xor(z, b);
    XorCancel(z, b);
  }

  lemma UnXorShiftUndone(z: U64, k: nat)
    requires 22 <= k
    ensures UnXorShift(z, k) < WORD && XorShift(UnXorShift(z, k), k) == z
  {
    var a, b := Shr(z, k), Shr(z, 2 * k);
    Shifted(z, k);
    WordXor(z, a);
    var y := Xor(z, a);
    WordXor(y, b);
    var x := Xor(y, b);
    XorShr(z, a, k);
    XorShr(y, b, k);
    XorZero(Xor(a, b));
    assert Shr(x, k) == Xor(a, b);
    XorAssoc(z, a, b);
    XorCancel(z, Xor(a, b));
  }

  lemma XorShiftInverse(z: U64, k: nat)
    requires 22 <= k
    ensures XorShift(z, k) < WORD && UnXorShift(z, k) < WORD
    ensures UnXorShift(XorShift(z, k), k) == z
    ensures XorShift(UnXorShift(z, k), k) == z
  {
    XorShiftUndone(z, k);
    UnXorShiftUndone(z, k);
  }

  function MulWrap(z: nat, c: nat): U64 { (z * c) % WORD }

  /** Wrapping multiplication by c undoes wrapping multiplication by d when c * d is 1 modulo 2^64. */
  lemma MulWrapInverse(z: U64, c: nat, d: nat, q: nat)
    requires c * d == 1 + q * WORD
    ensures MulWrap(MulWrap(z, c), d) == z
  {
    var p := z * c / WORD;
    assert MulWrap(z, c) == z * c - p * WORD;
    calc {
      (z * c - p * WORD) * d;
      z * (c * d) - p * d * WORD;
      z * (1 + q * WORD) - p * d * WORD;
      z + (z * q - p * d) * WORD;
    }
    ModShift(z, z * q - p * d);
  }

  lemma ModShift(z: U64, m: int)
    ensures (z + m * WORD) % WORD == z
  {
  }

  function AddWrap(z: nat, c: nat): U64 { (z + c) % WORD }

  lemma AddWrapInverse(z: U64, c: U64)
    ensures AddWrap(AddWrap(z, c), WORD - c) == z
    ensures AddWrap(AddWrap(z, WORD - c), c) == z
  {
  }

  /** One mixing stage, and the stage that undoes it. */
  function Stage(z: U64, k: nat, c: nat): U64 { MulWrap(XorShift(z, k), c) }

  function UnStage(y: U64, k: nat, d: nat): nat { UnXorShift(MulWrap(y, d), k) }

  lemma StageInverse(z: U64, k: nat, c: nat, d: nat, q: nat)
    requires 22 <= k && c * d == 1 + q * WORD
    ensures UnStage(z, k, d) < WORD
    ensures UnStage(Stage(z, k, c), k, d) == z
    ensures Stage(UnStage(z, k, d), k, c) == z
  {
    XorShiftInverse(z, k);
    MulWrapInverse(XorShift(z, k), c, d, q);
    MulWrapInverse(z, d, c, q);
    XorShiftInverse(MulWrap(z, d), k);
  }
}
