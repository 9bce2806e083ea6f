/**
 The integer operators of JavaScript numbers (section 13 of ECMA-262): bitwise operators
 first reduce to 32 bits and give a signed result; `+` is exact as long as the sum stays
 within 2^53. Each operator is related to the operation on unsigned 32-bit words.
 */
module JsNumber {

  type word = x: int | 0 <= x < 0x1_0000_0000

  const EXACT := 0x20_0000_0000_0000

  function ToUint32(x: int): word { x % 0x1_0000_0000 }

  function ToInt32(x: int): int {
    if ToUint32(x) >= 0x8000_0000 then ToUint32(x) - 0x1_0000_0000 else ToUint32(x)
  }

  function Pow2(n: nat): (p: nat)
    ensures p >= 1
  {
    if n == 0 then 1 else 2 * Pow2(n - 1)
  }

  // ---------------------------------------------------------------- words

  datatype BitOp = AND | OR | XOR | NOT

  predicate Bit(op: BitOp, x: bool, y: bool) {
    match op
    case AND => x && y
    case OR => x || y
    case XOR => x != y
    case NOT => !x
  }

  /** The operation on each of the lowest `n` bits. */
  function Bits(op: BitOp, a: nat, b: nat, n: nat): (r: nat)
    ensures r < Pow2(n)
  {
    if n == 0 then 0
    else 2 * Bits(op, a / 2, b / 2, n - 1) + if Bit(op, a % 2 == 1, b % 2 == 1) then 1 else 0
  }

  function Bits32(op: BitOp, a: nat, b: nat): word {
    Pow2Values();
    Bits(op, a, b, 32)
  }

  function And(a: word, b: word): word { Bits32(AND, a, b) }
  function Or(a: word, b: word): word { Bits32(OR, a, b) }
  function Xor(a: word, b: word): word { Bits32(XOR, a, b) }
  function Not(a: word): word { Bits32(NOT, a, 0) }

  lemma Pow2Values()
    ensures Pow2(6) == 0x40 && Pow2(16) == 0x1_0000 && Pow2(32) == 0x1_0000_0000
  {
    assert Pow2(8) == 0x100;
    assert Pow2(16) == 0x1_0000;
    assert Pow2(24) == 0x100_0000;
  }

  lemma {:induction false} ComplementBits(a: nat, n: nat)
    requires a < Pow2(n)
    ensures Bits(NOT, a, 0, n) == Pow2(n) - 1 - a
  {
    if n > 0 { ComplementBits(a / 2, n - 1); }
  }

  /** Discards the lowest `n` bits, one at a time; on negative numbers it rounds down. */
  function Halve(m: int, n: nat): (r: int)
    ensures m >= 0 ==> 0 <= r <= m
    decreases n, m
  {
    if n == 0 then m else Halve(m / 2, n - 1)
  }

  function ShiftRight(a: word, n: nat): word { Halve(a, n) }

  /** Appends `n` zero bits, one at a time, and keeps the lowest 32 bits. */
  function ShiftLeft(a: word, n: nat): word
    decreases n, a
  {
    if n == 0 then a else ShiftLeft(2 * a % 0x1_0000_0000, n - 1)
  }

  // ---------------------------------------------------------------- operators

  function JsAdd(a: int, b: int): int
    requires -EXACT <= a <= EXACT && -EXACT <= b <= EXACT && -EXACT <= a + b <= EXACT
  {
    a + b
  }

  function JsAnd(a: int, b: int): int { ToInt32(And(ToUint32(a), ToUint32(b))) }
  function JsOr(a: int, b: int): int { ToInt32(Or(ToUint32(a), ToUint32(b))) }
  function JsXor(a: int, b: int): int { ToInt32(Xor(ToUint32(a), ToUint32(b))) }
  function JsNot(a: int): int { -ToInt32(a) - 1 }

  /** `a << n` */
  function JsShl(a: int, n: nat): int { ToInt32(ShiftLeft(ToUint32(a), n)) }

  /** `a >> n` */
  function JsSar(a: int, n: nat): int { Halve(ToInt32(a), n) }

  /** `a >>> n` */
  function JsShr(a: int, n: nat): int { ShiftRight(ToUint32(a), n) }

  /** The signed result of an operator stands for one word. */
  lemma SignedWord(w: word)
    ensures ToUint32(ToInt32(w)) == w && ToUint32(w) == w
    ensures -0x8000_0000 <= ToInt32(w) < 0x8000_0000
  {
  }

  /** Taking two summands as signed does not change a sum modulo 2^32. */
  lemma SignedSum(x: word, y: word, rest: int)
    ensures ToUint32(ToInt32(x) + ToInt32(y) + rest) == ToUint32(x + y + rest)
  {
    var t := x + y + rest;
    DropWords(t, 0);
    DropWords(t, 1);
    DropWords(t, 2);
  }

  lemma DropWords(t: int, j: int)
    ensures (t - j * 0x1_0000_0000) % 0x1_0000_0000 == t % 0x1_0000_0000
  {
    var q, r := t / 0x1_0000_0000, t % 0x1_0000_0000;
    assert t - j * 0x1_0000_0000 == (q - j) * 0x1_0000_0000 + r;
  }

  /** 32-bit integers are their own signed reading. */
  lemma SignedInt(x: int)
    requires -0x8000_0000 <= x < 0x8000_0000
    ensures ToInt32(x) == ToInt32(ToUint32(x)) == x
  {
  }

  lemma NotWord(a: word)
    ensures JsNot(a) == ToInt32(Not(a))
  {
    Pow2Values();
    ComplementBits(a, 32);
  }
}
