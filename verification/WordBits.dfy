/**
 The functions of FIPS 180-4, section 4.1.2, read bit by bit: what each bit of a result is made of, and
 that its bits make a word. The arithmetic definitions of words are related to bits here.
 */
module WordBits {
  import opened JsNumber
  import opened Fips180

  /** Bit `k`, counted from the lowest. */
  predicate BitOf(x: nat, k: nat) { Halve(x, k) % 2 == 1 }

  lemma {:induction false} HalveTwice(x: nat, n: nat, k: nat)
    ensures Halve(Halve(x, n), k) == Halve(x, n + k)
    decreases n
  {
    if n > 0 { HalveTwice(x / 2, n - 1, k); }
  }

  lemma {:induction false} HalvedAway(x: nat, n: nat)
    requires x < Pow2(n)
    ensures Halve(x, n) == 0
    decreases n
  {
    if n > 0 { HalvedAway(x / 2, n - 1); }
  }

  lemma {:induction false} PowersGrow(m: nat, n: nat)
    requires m <= n
    ensures Pow2(m) <= Pow2(n)
  {
    if m < n { PowersGrow(m, n - 1); }
  }

  lemma {:induction false} PointwiseBit(op: BitOp, a: nat, b: nat, n: nat, k: nat)
    requires k < n
    ensures BitOf(Bits(op, a, b, n), k) == Bit(op, BitOf(a, k), BitOf(b, k))
    decreases n
  {
    if k > 0 { PointwiseBit(op, a / 2, b / 2, n - 1, k - 1); }
  }

  lemma ShiftRightBit(x: word, n: nat, k: nat)
    ensures BitOf(ShiftRight(x, n), k) == (n + k < 32 && BitOf(x, n + k))
  {
    HalveTwice(x, n, k);
    if n + k >= 32 {
      Pow2Values();
      PowersGrow(32, n + k);
      HalvedAway(x, n + k);
    }
  }

  /** Leaving out the bit at `m` does not change the bits below it. */
  lemma {:induction false} LowBits(x: nat, m: nat, k: nat)
    requires k < m
    ensures BitOf(x + Pow2(m), k) == BitOf(x, k)
    decreases m
  {
    assert (x + Pow2(m)) / 2 == x / 2 + Pow2(m - 1);
    if k > 0 { LowBits(x / 2, m - 1, k - 1); }
  }

  lemma EvenBit(y: nat, k: nat)
    ensures BitOf(2 * y, k) == (k > 0 && BitOf(y, k - 1))
  {
    assert 2 * y / 2 == y && 2 * y % 2 == 0;
  }

  lemma TopBit(x: word, k: nat)
    requires k < 31
    ensures BitOf(x % 0x8000_0000, k) == BitOf(x, k)
  {
    Pow2Values();
    assert Pow2(32) == 2 * Pow2(31);
    if x >= 0x8000_0000 { LowBits(x % 0x8000_0000, 31, k); }
    hide Pow2, Halve;
  }

  lemma DoubledBit(x: word, k: nat)
    requires k < 32
    ensures BitOf(2 * x % 0x1_0000_0000, k) == (k > 0 && BitOf(x, k - 1))
  {
    assert 2 * x % 0x1_0000_0000 == 2 * (x % 0x8000_0000);
    EvenBit(x % 0x8000_0000, k);
    if k > 0 { TopBit(x, k - 1); }
    hide Halve;
  }

  lemma {:induction false} ShiftLeftBit(x: word, n: nat, k: nat)
    requires k < 32
    ensures BitOf(ShiftLeft(x, n), k) == (k >= n && BitOf(x, k - n))
    decreases n
  {
    if n > 0 {
      ShiftLeftBit(2 * x % 0x1_0000_0000, n - 1, k);
      if k >= n - 1 { DoubledBit(x, k - (n - 1)); }
    }
  }

  lemma WordBit(op: BitOp, x: word, y: word, k: nat)
    requires k < 32
    ensures BitOf(Bits32(op, x, y), k) == Bit(op, BitOf(x, k), BitOf(y, k))
  {
    PointwiseBit(op, x, y, 32, k);
  }

  lemma RotatedBit(x: word, n: nat, k: nat)
    requires n <= 32 && k < 32
    ensures BitOf(Rotr(x, n), k) == BitOf(x, (k + n) % 32)
  {
    hide Bits32, ShiftRight, ShiftLeft, BitOf;
    WordBit(OR, ShiftRight(x, n), ShiftLeft(x, 32 - n), k);
    ShiftRightBit(x, n, k);
    ShiftLeftBit(x, 32 - n, k);
    if k + n < 32 {
      assert (k + n) % 32 == n + k;
    } else {
      assert (k + n) % 32 == k - (32 - n);
    }
  }

  lemma XorOfThree(x: word, y: word, z: word, k: nat)
    requires k < 32
    ensures BitOf(Xor(Xor(x, y), z), k) == ((BitOf(x, k) != BitOf(y, k)) != BitOf(z, k))
  {
    WordBit(XOR, Xor(x, y), z, k);
    WordBit(XOR, x, y, k);
    hide Bits32, BitOf;
  }

  /** Choosing: where the bit of `x` is set that of `y`, elsewhere that of `z`. */
  lemma ChBit(x: word, y: word, z: word, k: nat)
    requires k < 32
    ensures BitOf(Ch(x, y, z), k) == if BitOf(x, k) then BitOf(y, k) else BitOf(z, k)
  {
    WordBit(XOR, And(x, y), And(Not(x), z), k);
    WordBit(AND, x, y, k);
    WordBit(AND, Not(x), z, k);
    WordBit(NOT, x, 0, k);
    hide Bits32, BitOf;
  }

  /** Majority: the bit that at least two of the words have. */
  lemma MajBit(x: word, y: word, z: word, k: nat)
    requires k < 32
    ensures BitOf(Maj(x, y, z), k) <==>
      (BitOf(x, k) && BitOf(y, k)) || (BitOf(x, k) && BitOf(z, k)) || (BitOf(y, k) && BitOf(z, k))
  {
    XorOfThree(And(x, y), And(x, z), And(y, z), k);
    WordBit(AND, x, y, k);
    WordBit(AND, x, z, k);
    WordBit(AND, y, z, k);
    hide Bits32, Xor, BitOf;
  }

  /** The bit `n` places above, going round the word. */
  predicate Around(x: word, k: nat, n: nat) { BitOf(x, (k + n) % 32) }

  /** The bit `n` places above, as long as there is one. */
  predicate Above(x: word, k: nat, n: nat) { k + n < 32 && BitOf(x, k + n) }

  /** Each bit of the four sigma functions is the sum modulo 2 of three bits of the word. */
  lemma SigmaBits(x: word, k: nat)
    requires k < 32
    ensures BitOf(BigSigma0(x), k) == ((Around(x, k, 2) != Around(x, k, 13)) != Around(x, k, 22))
    ensures BitOf(BigSigma1(x), k) == ((Around(x, k, 6) != Around(x, k, 11)) != Around(x, k, 25))
    ensures BitOf(SmallSigma0(x), k) == ((Around(x, k, 7) != Around(x, k, 18)) != Above(x, k, 3))
    ensures BitOf(SmallSigma1(x), k) == ((Around(x, k, 17) != Around(x, k, 19)) != Above(x, k, 10))
  {
    hide Bits32, BitOf, Rotr, Xor, ShiftRight;
    forall n | n <= 32 ensures BitOf(Rotr(x, n), k) == Around(x, k, n) { RotatedBit(x, n, k); }
    XorOfThree(Rotr(x, 2), Rotr(x, 13), Rotr(x, 22), k);
    XorOfThree(Rotr(x, 6), Rotr(x, 11), Rotr(x, 25), k);
    XorOfThree(Rotr(x, 7), Rotr(x, 18), ShiftRight(x, 3), k);
    XorOfThree(Rotr(x, 17), Rotr(x, 19), ShiftRight(x, 10), k);
    ShiftRightBit(x, 3, k);
    ShiftRightBit(x, 10, k);
  }

  lemma {:induction false} BitsMakeNumber(x: nat, y: nat, n: nat)
    requires x < Pow2(n) && y < Pow2(n) && forall k | 0 <= k < n :: BitOf(x, k) == BitOf(y, k)
    ensures x == y
    decreases n
  {
    if n > 0 {
      assert BitOf(x, 0) == BitOf(y, 0);
      forall k | 0 <= k < n - 1 ensures BitOf(x / 2, k) == BitOf(y / 2, k) {
        assert BitOf(x, k + 1) == BitOf(y, k + 1);
      }
      BitsMakeNumber(x / 2, y / 2, n - 1);
    }
  }

  /** A word is made of its 32 bits. */
  lemma BitsMakeWord(x: word, y: word)
    requires forall k: nat | k < 32 :: BitOf(x, k) == BitOf(y, k)
    ensures x == y
  {
    Pow2Values();
    BitsMakeNumber(x, y, 32);
  }
}
