/**
 * Multiplication in GF(2^8) modulo x^8 + x^4 + x^3 + x + 1 by the
 * shift-and-add method (section 4.2 of FIPS-197).
 */
module GaloisField {

  /**
   * Multiplication by x: shift left one bit and reduce by 0x1B when the
   * high bit falls off. The reduction is written without a branch (the
   * high bit, 0 or 1, times 0x1B) so that formulas with many products do
   * not split into cases; `XTimeCases` gives the branching form.
   */
  function XTime(a: bv8): bv8
  {
    (a << 1) ^ ((a >> 7) * 0x1B)
  }

  /** `XTime` reduces by 0x1B exactly when the high bit is set. */
  lemma XTimeCases(a: bv8)
    ensures a & 0x80 != 0 ==> XTime(a) == (a << 1) ^ 0x1B
    ensures a & 0x80 == 0 ==> XTime(a) == a << 1
  {
  }

  /**
   * The sum of four field elements, which is their bytewise XOR. Written
   * as one function so that formulas built from it compare term by term.
   */
  function Xor4(a: bv8, b: bv8, c: bv8, d: bv8): bv8
  {
    a ^ b ^ c ^ d
  }

  /**
   * The partial product that the low bit of the multiplier `b` contributes
   * for multiplicand `a`: `a` masked by that bit, again without a branch.
   */
  function LowBitTerm(b: bv8, a: bv8): bv8
  {
    a & (0 - (b & 1))
  }

  /** The low bit of the multiplier adds the multiplicand or nothing. */
  lemma LowBitTermCases(b: bv8, a: bv8)
    ensures b & 1 != 0 ==> LowBitTerm(b, a) == a
    ensures b & 1 == 0 ==> LowBitTerm(b, a) == 0
  {
  }

  /**
   * The accumulator `p` after `n` more rounds of shift-and-add, where `a` is the
   * current multiplicand and `b` what is left of the multiplier.
   */
  function MulAcc(p: bv8, a: bv8, b: bv8, n: nat): bv8
    decreases n
  {
    if n == 0 then p else MulAcc(p ^ LowBitTerm(b, a), XTime(a), b >> 1, n - 1)
  }

  /** The product of `a` and `b`: eight rounds from an empty accumulator. */
  function GfMul(a: bv8, b: bv8): bv8
  {
    MulAcc(0, a, b, 8)
  }

  /** The engine's multiplier: the eight-round loop over `p`, `a` and `b`. */
  method GMul(a: bv8, b: bv8) returns (p: bv8)
    ensures p == GfMul(a, b)
  {
    p := 0;
    var x, y := a, b;
    ghost var left: nat := 8;
    for i := 0 to 8
      invariant left == 8 - i
      invariant MulAcc(p, x, y, left) == GfMul(a, b)
    {
      ghost var p0, x0 := p, x;
      if y & 1 != 0 {
        p := p ^ x;
      }
      LowBitTermCases(y, x0);
      assert p == p0 ^ LowBitTerm(y, x0);
      var hiBitSet := x & 0x80 != 0;
      x := x << 1;
      if hiBitSet {
        x := x ^ 0x1B;
      }
      assert x == XTime(x0);
      y := y >> 1;
      left := left - 1;
    }
  }

  /** Rounds with an exhausted multiplier leave the accumulator alone. */
  lemma {:induction false} MulAccZeroMultiplier(p: bv8, a: bv8, n: nat)
    ensures MulAcc(p, a, 0, n) == p
    decreases n
  {
    if n > 0 {
      MulAccZeroMultiplier(p, XTime(a), n - 1);
    }
  }

  /** Rounds with a zero multiplicand leave the accumulator alone. */
  lemma {:induction false} MulAccZeroMultiplicand(p: bv8, b: bv8, n: nat)
    ensures MulAcc(p, 0, b, n) == p
    decreases n
  {
    if n > 0 {
      MulAccZeroMultiplicand(p, b >> 1, n - 1);
    }
  }

  /** A multiplier of 1 adds the multiplicand once, in whatever rounds remain. */
  lemma MulAccOne(p: bv8, a: bv8, n: nat)
    requires n > 0
    ensures MulAcc(p, a, 1, n) == p ^ a
  {
    MulAccZeroMultiplier(p ^ a, XTime(a), n - 1);
  }

  /** An even multiplier adds nothing in the current round. */
  lemma MulAccEven(p: bv8, a: bv8, b: bv8, n: nat)
    requires n > 0 && b & 1 == 0
    ensures MulAcc(p, a, b, n) == MulAcc(p, XTime(a), b >> 1, n - 1)
  {
  }

  lemma MulByOne(a: bv8)
    ensures GfMul(a, 1) == a
  {
    MulAccOne(0, a, 8);
  }

  lemma MulByZero(a: bv8)
    ensures GfMul(a, 0) == 0
  {
    MulAccZeroMultiplier(0, a, 8);
  }

  lemma ZeroTimes(b: bv8)
    ensures GfMul(0, b) == 0
  {
    MulAccZeroMultiplicand(0, b, 8);
  }

  /** Multiplication by {02} is XTime. */
  lemma MulByTwo(a: bv8)
    ensures GfMul(a, 2) == XTime(a)
  {
    MulAccEven(0, a, 2, 8);
    MulAccOne(0, XTime(a), 7);
  }

  /** Multiplication by {03} is XTime plus the operand itself. */
  lemma MulByThree(a: bv8)
    ensures GfMul(a, 3) == XTime(a) ^ a
  {
    MulAccOne(a, XTime(a), 7);
  }
}
