/**
 SHA-256 as FIPS 180-4 defines it: functions on 32-bit words (section 4.1.2), padding
 (section 5.1.1), initial value (section 5.3.3) and compression (section 6.2.2).
 */
module Fips180 {
  import opened Text
  import opened JsNumber

  function Rotr(x: word, n: nat): word
    requires n <= 32
  {
    Or(ShiftRight(x, n), ShiftLeft(x, 32 - n))
  }

  function Ch(x: word, y: word, z: word): word { Xor(And(x, y), And(Not(x), z)) }
  function Maj(x: word, y: word, z: word): word { Xor(Xor(And(x, y), And(x, z)), And(y, z)) }
  function BigSigma0(x: word): word { Xor(Xor(Rotr(x, 2), Rotr(x, 13)), Rotr(x, 22)) }
  function BigSigma1(x: word): word { Xor(Xor(Rotr(x, 6), Rotr(x, 11)), Rotr(x, 25)) }
  function SmallSigma0(x: word): word { Xor(Xor(Rotr(x, 7), Rotr(x, 18)), ShiftRight(x, 3)) }
  function SmallSigma1(x: word): word { Xor(Xor(Rotr(x, 17), Rotr(x, 19)), ShiftRight(x, 10)) }

  /** Addition modulo 2^32. */
  function Mod(x: int): word { x % 0x1_0000_0000 }

  /** The constants of section 4.2.2. */
  function K(t: nat): word
    requires t < 64
  {
    KRow(t / 8)[t % 8]
  }

  function KRow(r: nat): (row: seq<word>)
    requires r < 8
    ensures |row| == 8
  {
    match r
    case 0 => [0x428a2f98, 0x71374491, 0xb5c0fbcf, 0xe9b5dba5, 0x3956c25b, 0x59f111f1, 0x923f82a4, 0xab1c5ed5]
    case 1 => [0xd807aa98, 0x12835b01, 0x243185be, 0x550c7dc3, 0x72be5d74, 0x80deb1fe, 0x9bdc06a7, 0xc19bf174]
    case 2 => [0xe49b69c1, 0xefbe4786, 0x0fc19dc6, 0x240ca1cc, 0x2de92c6f, 0x4a7484aa, 0x5cb0a9dc, 0x76f988da]
    case 3 => [0x983e5152, 0xa831c66d, 0xb00327c8, 0xbf597fc7, 0xc6e00bf3, 0xd5a79147, 0x06ca6351, 0x14292967]
    case 4 => [0x27b70a85, 0x2e1b2138, 0x4d2c6dfc, 0x53380d13, 0x650a7354, 0x766a0abb, 0x81c2c92e, 0x92722c85]
    case 5 => [0xa2bfe8a1, 0xa81a664b, 0xc24b8b70, 0xc76c51a3, 0xd192e819, 0xd6990624, 0xf40e3585, 0x106aa070]
    case 6 => [0x19a4c116, 0x1e376c08, 0x2748774c, 0x34b0bcb5, 0x391c0cb3, 0x4ed8aa4a, 0x5b9cca4f, 0x682e6ff3]
    case _ => [0x748f82ee, 0x78a5636f, 0x84c87814, 0x8cc70208, 0x90befffa, 0xa4506ceb, 0xbef9a3f7, 0xc67178f2]
  }

  datatype State = State(a: word, b: word, c: word, d: word, e: word, f: word, g: word, h: word)

  const H0: State :=
    State(0x6a09e667, 0xbb67ae85, 0x3c6ef372, 0xa54ff53a, 0x510e527f, 0x9b05688c, 0x1f83d9ab, 0x5be0cd19)

  // ---------------------------------------------------------------- padding (5.1.1)

  /** The number of zero bytes after the `1` bit: the least that leaves room for the length. */
  function ZeroBytes(n: nat): (k: nat)
    ensures (n + 9 + k) % 64 == 0 && k < 64
  {
    (55 - n) % 64
  }

  function BigEndian(x: nat, width: nat): (bs: seq<byte>)
    ensures |bs| == width
  {
    if width == 0 then [] else BigEndian(x / 0x100, width - 1) + [x % 0x100]
  }

  /** The length in bits as two big-endian words. */
  function LengthBytes(n: nat): (bs: seq<byte>)
    ensures |bs| == 8
  {
    var length := 8 * n;
    BigEndian(length / 0x1_0000_0000, 4) + BigEndian(length % 0x1_0000_0000, 4)
  }

  function Pad(message: seq<byte>): (padded: seq<byte>)
    ensures |padded| % 64 == 0
  {
    message + [0x80] + seq(ZeroBytes(|message|), _ => 0) + LengthBytes(|message|)
  }

  // ---------------------------------------------------------------- compression (6.2.2)

  /** The big-endian word at byte `i`. */
  function WordAt(bs: seq<byte>, i: nat): word
    requires i + 4 <= |bs|
  {
    bs[i] as int * 0x100_0000 + bs[i + 1] as int * 0x1_0000 + bs[i + 2] as int * 0x100 + bs[i + 3] as int
  }

  /** Word `t` of the message schedule of the block at `offset`. */
  function W(bs: seq<byte>, offset: nat, t: nat): word
    requires offset + 64 <= |bs|
  {
    if t < 16 then WordAt(bs, offset + 4 * t)
    else Mod(SmallSigma1(W(bs, offset, t - 2)) + W(bs, offset, t - 7)
           + SmallSigma0(W(bs, offset, t - 15)) + W(bs, offset, t - 16))
  }

  function Round(s: State, k: word, w: word): State {
    var t1 := Mod(s.h + BigSigma1(s.e) + Ch(s.e, s.f, s.g) + k + w);
    var t2 := Mod(BigSigma0(s.a) + Maj(s.a, s.b, s.c));
    State(Mod(t1 + t2), s.a, s.b, s.c, Mod(s.d + t1), s.e, s.f, s.g)
  }

  function Rounds(s: State, bs: seq<byte>, offset: nat, t: nat): State
    requires offset + 64 <= |bs| && t <= 64
  {
    if t == 0 then s else Round(Rounds(s, bs, offset, t - 1), K(t - 1), W(bs, offset, t - 1))
  }

  function AddStates(x: State, y: State): State {
    State(Mod(x.a + y.a), Mod(x.b + y.b), Mod(x.c + y.c), Mod(x.d + y.d),
          Mod(x.e + y.e), Mod(x.f + y.f), Mod(x.g + y.g), Mod(x.h + y.h))
  }

  /** The hash value after the first `n` blocks. */
  function HashBlocks(bs: seq<byte>, n: nat): State
    requires 64 * n <= |bs|
  {
    if n == 0 then H0
    else var h := HashBlocks(bs, n - 1); AddStates(Rounds(h, bs, 64 * (n - 1), 64), h)
  }

  function Digest(message: seq<byte>): State {
    var bs := Pad(message);
    HashBlocks(bs, |bs| / 64)
  }

  // ---------------------------------------------------------------- hexadecimal form

  predicate IsHex(s: string) {
    forall i | 0 <= i < |s| :: '0' <= s[i] <= '9' || 'a' <= s[i] <= 'f'
  }

  function Nibbles(x: nat, width: nat): (s: string)
    ensures |s| == width && IsHex(s)
  {
    if width == 0 then "" else Nibbles(x / 16, width - 1) + [HexDigit(x % 16)]
  }

  function WordsHex(ws: seq<word>): (s: string)
    ensures |s| == 8 * |ws| && IsHex(s)
  {
    if ws == [] then "" else Nibbles(ws[0], 8) + WordsHex(ws[1..])
  }

  function Words(s: State): seq<word> { [s.a, s.b, s.c, s.d, s.e, s.f, s.g, s.h] }

  /** SHA-256 of a byte string, written in hexadecimal. */
  function DigestHex(message: seq<byte>): (hex: string)
    ensures |hex| == 64 && IsHex(hex)
  {
    WordsHex(Words(Digest(message)))
  }

  // ---------------------------------------------------------------- the definitions, checked

  /** The number that bytes spell in big-endian order. */
  function Value256(bs: seq<byte>): nat {
    if bs == [] then 0 else 0x100 * Value256(bs[..|bs| - 1]) + bs[|bs| - 1]
  }

  lemma FourBytes(x: word)
    ensures BigEndian(x, 4) == [x / 0x100_0000, x / 0x1_0000 % 0x100, x / 0x100 % 0x100, x % 0x100]
  {
    assert BigEndian(x, 4) == BigEndian(x / 0x100, 3) + [x % 0x100];
    assert BigEndian(x / 0x100, 3) == BigEndian(x / 0x1_0000, 2) + [x / 0x100 % 0x100];
    assert BigEndian(x / 0x1_0000, 2) == BigEndian(x / 0x100_0000, 1) + [x / 0x1_0000 % 0x100];
    assert BigEndian(x / 0x100_0000, 1) == [x / 0x100_0000];
  }

  lemma ValueAppend(bs: seq<byte>, b: byte)
    ensures Value256(bs + [b]) == 0x100 * Value256(bs) + b
  {
    assert (bs + [b])[..|bs|] == bs;
  }

  lemma ValueOfFour(front: seq<byte>, x: word)
    ensures Value256(front + BigEndian(x, 4)) == 0x1_0000_0000 * Value256(front) + x
  {
    FourBytes(x);
    var b := BigEndian(x, 4);
    FourAppends(front, b[0], b[1], b[2], b[3]);
    assert b == [b[0], b[1], b[2], b[3]];
  }

  lemma FourAppends(front: seq<byte>, b0: byte, b1: byte, b2: byte, b3: byte)
    ensures Value256(front + [b0, b1, b2, b3])
      == 0x1_0000_0000 * Value256(front) + 0x100_0000 * b0 + 0x1_0000 * b1 + 0x100 * b2 + b3
  {
    ValueAppend(front, b0);
    ValueAppend(front + [b0], b1);
    ValueAppend(front + [b0] + [b1], b2);
    ValueAppend(front + [b0] + [b1] + [b2], b3);
    assert front + [b0, b1, b2, b3] == front + [b0] + [b1] + [b2] + [b3];
  }

  /** Section 5.1.1: the message, a `1` bit, the fewest zeros that complete a block, the bit length. */
  lemma PadLayout(message: seq<byte>)
    requires 8 * |message| < 0x1_0000_0000_0000_0000
    ensures var p := Pad(message);
      && |message| + 9 <= |p| < |message| + 9 + 64
      && p[..|message|] == message
      && p[|message|] == 0x80
      && (forall i | |message| < i < |p| - 8 :: p[i] == 0)
      && Value256(p[|p| - 8..]) == 8 * |message|
  {
    var p := Pad(message);
    var length := 8 * |message|;
    var high := BigEndian(length / 0x1_0000_0000, 4);
    ValueOfFour(high, length % 0x1_0000_0000);
    ValueOfFour([], length / 0x1_0000_0000);
    assert [] + high == high;
    assert p[|p| - 8..] == high + BigEndian(length % 0x1_0000_0000, 4);
  }

  /** The first 64 primes. */
  function Prime(t: nat): nat
    requires t < 64
  {
    PrimeRow(t / 8)[t % 8]
  }

  function PrimeRow(r: nat): (row: seq<nat>)
    requires r < 8
    ensures |row| == 8
  {
    match r
    case 0 => [2, 3, 5, 7, 11, 13, 17, 19]
    case 1 => [23, 29, 31, 37, 41, 43, 47, 53]
    case 2 => [59, 61, 67, 71, 73, 79, 83, 89]
    case 3 => [97, 101, 103, 107, 109, 113, 127, 131]
    case 4 => [137, 139, 149, 151, 157, 163, 167, 173]
    case 5 => [179, 181, 191, 193, 197, 199, 211, 223]
    case 6 => [227, 229, 233, 239, 241, 251, 257, 263]
    case _ => [269, 271, 277, 281, 283, 293, 307, 311]
  }

  /** Section 4.2.2: `k` is the first 32 bits of the fractional part of the cube root of `p`. */
  ghost predicate IsCubeRootFraction(p: nat, k: word) {
    var root := (if p < 8 then 1 else if p < 27 then 2 else if p < 64 then 3
                 else if p < 125 then 4 else if p < 216 then 5 else 6) * 0x1_0000_0000 + k;
    root * root * root <= p * 0x1_0000_0000_0000_0000_0000_0000 < (root + 1) * (root + 1) * (root + 1)
  }

  /** Section 5.3.3: `k` is the first 32 bits of the fractional part of the square root of `p`. */
  ghost predicate IsSquareRootFraction(p: nat, k: word) {
    var root := (if p < 4 then 1 else if p < 9 then 2 else if p < 16 then 3 else 4) * 0x1_0000_0000 + k;
    root * root <= p * 0x1_0000_0000_0000_0000 < (root + 1) * (root + 1)
  }

  lemma CubeRootAt(t: nat, p: nat, k: word)
    requires t < 64 && Prime(t) == p && K(t) == k && IsCubeRootFraction(p, k)
    ensures IsCubeRootFraction(Prime(t), K(t))
  {
  }

  lemma SquareRootAt(i: nat, p: nat, k: word)
    requires i < 8 && Prime(i) == p && Words(H0)[i] == k && IsSquareRootFraction(p, k)
    ensures IsSquareRootFraction(Prime(i), Words(H0)[i])
  {
  }

  lemma RoundConstants0(t: nat)
    requires 0 <= t < 8
    ensures IsCubeRootFraction(Prime(t), K(t))
  {
    match t {
      case 0 => CubeRootAt(0, 2, 0x428a2f98);
      case 1 => CubeRootAt(1, 3, 0x71374491);
      case 2 => CubeRootAt(2, 5, 0xb5c0fbcf);
      case 3 => CubeRootAt(3, 7, 0xe9b5dba5);
      case 4 => CubeRootAt(4, 11, 0x3956c25b);
      case 5 => CubeRootAt(5, 13, 0x59f111f1);
      case 6 => CubeRootAt(6, 17, 0x923f82a4);
      case 7 => CubeRootAt(7, 19, 0xab1c5ed5);
    }
  }

  lemma RoundConstants8(t: nat)
    requires 8 <= t < 16
    ensures IsCubeRootFraction(Prime(t), K(t))
  {
    match t {
      case 8 => CubeRootAt(8, 23, 0xd807aa98);
      case 9 => CubeRootAt(9, 29, 0x12835b01);
      case 10 => CubeRootAt(10, 31, 0x243185be);
      case 11 => CubeRootAt(11, 37, 0x550c7dc3);
      case 12 => CubeRootAt(12, 41, 0x72be5d74);
      case 13 => CubeRootAt(13, 43, 0x80deb1fe);
      case 14 => CubeRootAt(14, 47, 0x9bdc06a7);
      case 15 => CubeRootAt(15, 53, 0xc19bf174);
    }
  }

  lemma RoundConstants16(t: nat)
    requires 16 <= t < 24
    ensures IsCubeRootFraction(Prime(t), K(t))
  {
    match t {
      case 16 => CubeRootAt(16, 59, 0xe49b69c1);
      case 17 => CubeRootAt(17, 61, 0xefbe4786);
      case 18 => CubeRootAt(18, 67, 0x0fc19dc6);
      case 19 => CubeRootAt(19, 71, 0x240ca1cc);
      case 20 => CubeRootAt(20, 73, 0x2de92c6f);
      case 21 => CubeRootAt(21, 79, 0x4a7484aa);
      case 22 => CubeRootAt(22, 83, 0x5cb0a9dc);
      case 23 => CubeRootAt(23, 89, 0x76f988da);
    }
  }

  lemma RoundConstants24(t: nat)
    requires 24 <= t < 32
    ensures IsCubeRootFraction(Prime(t), K(t))
  {
    match t {
      case 24 => CubeRootAt(24, 97, 0x983e5152);
      case 25 => CubeRootAt(25, 101, 0xa831c66d);
      case 26 => CubeRootAt(26, 103, 0xb00327c8);
      case 27 => CubeRootAt(27, 107, 0xbf597fc7);
      case 28 => CubeRootAt(28, 109, 0xc6e00bf3);
      case 29 => CubeRootAt(29, 113, 0xd5a79147);
      case 30 => CubeRootAt(30, 127, 0x06ca6351);
      case 31 => CubeRootAt(31, 131, 0x14292967);
    }
  }

  lemma RoundConstants32(t: nat)
    requires 32 <= t < 40
    ensures IsCubeRootFraction(Prime(t), K(t))
  {
    match t {
      case 32 => CubeRootAt(32, 137, 0x27b70a85);
      case 33 => CubeRootAt(33, 139, 0x2e1b2138);
      case 34 => CubeRootAt(34, 149, 0x4d2c6dfc);
      case 35 => CubeRootAt(35, 151, 0x53380d13);
      case 36 => CubeRootAt(36, 157, 0x650a7354);
      case 37 => CubeRootAt(37, 163, 0x766a0abb);
      case 38 => CubeRootAt(38, 167, 0x81c2c92e);
      case 39 => CubeRootAt(39, 173, 0x92722c85);
    }
  }

  lemma RoundConstants40(t: nat)
    requires 40 <= t < 48
    ensures IsCubeRootFraction(Prime(t), K(t))
  {
    match t {
      case 40 => CubeRootAt(40, 179, 0xa2bfe8a1);
      case 41 => CubeRootAt(41, 181, 0xa81a664b);
      case 42 => CubeRootAt(42, 191, 0xc24b8b70);
      case 43 => CubeRootAt(43, 193, 0xc76c51a3);
      case 44 => CubeRootAt(44, 197, 0xd192e819);
      case 45 => CubeRootAt(45, 199, 0xd6990624);
      case 46 => CubeRootAt(46, 211, 0xf40e3585);
      case 47 => CubeRootAt(47, 223, 0x106aa070);
    }
  }

  lemma RoundConstants48(t: nat)
    requires 48 <= t < 52
    ensures IsCubeRootFraction(Prime(t), K(t))
  {
    match t {
      case 48 => CubeRootAt(48, 227, 0x19a4c116);
      case 49 => CubeRootAt(49, 229, 0x1e376c08);
      case 50 => CubeRootAt(50, 233, 0x2748774c);
      case 51 => CubeRootAt(51, 239, 0x34b0bcb5);
    }
  }

  lemma RoundConstants52(t: nat)
    requires 52 <= t < 56
    ensures IsCubeRootFraction(Prime(t), K(t))
  {
    match t {
      case 52 => CubeRootAt(52, 241, 0x391c0cb3);
      case 53 => CubeRootAt(53, 251, 0x4ed8aa4a);
      case 54 => CubeRootAt(54, 257, 0x5b9cca4f);
      case 55 => CubeRootAt(55, 263, 0x682e6ff3);
    }
  }

  lemma RoundConstants56(t: nat)
    requires 56 <= t < 60
    ensures IsCubeRootFraction(Prime(t), K(t))
  {
    match t {
      case 56 => CubeRootAt(56, 269, 0x748f82ee);
      case 57 => CubeRootAt(57, 271, 0x78a5636f);
      case 58 => CubeRootAt(58, 277, 0x84c87814);
      case 59 => CubeRootAt(59, 281, 0x8cc70208);
    }
  }

  lemma RoundConstants60(t: nat)
    requires 60 <= t < 64
    ensures IsCubeRootFraction(Prime(t), K(t))
  {
    match t {
      case 60 => CubeRootAt(60, 283, 0x90befffa);
      case 61 => CubeRootAt(61, 293, 0xa4506ceb);
      case 62 => CubeRootAt(62, 307, 0xbef9a3f7);
      case 63 => CubeRootAt(63, 311, 0xc67178f2);
    }
  }

  lemma RoundConstants(t: nat)
    requires t < 64
    ensures IsCubeRootFraction(Prime(t), K(t))
  {
    if t < 32 {
      if t < 8 { RoundConstants0(t); } else if t < 16 { RoundConstants8(t); }
      else if t < 24 { RoundConstants16(t); } else { RoundConstants24(t); }
    } else {
      if t < 40 { RoundConstants32(t); } else if t < 48 { RoundConstants40(t); }
      else if t < 52 { RoundConstants48(t); } else if t < 56 { RoundConstants52(t); }
      else if t < 60 { RoundConstants56(t); } else { RoundConstants60(t); }
    }
  }

  lemma InitialValue(i: nat)
    requires i < 8
    ensures IsSquareRootFraction(Prime(i), Words(H0)[i])
  {
    match i {
      case 0 => SquareRootAt(0, 2, 0x6a09e667);
      case 1 => SquareRootAt(1, 3, 0xbb67ae85);
      case 2 => SquareRootAt(2, 5, 0x3c6ef372);
      case 3 => SquareRootAt(3, 7, 0xa54ff53a);
      case 4 => SquareRootAt(4, 11, 0x510e527f);
      case 5 => SquareRootAt(5, 13, 0x9b05688c);
      case 6 => SquareRootAt(6, 17, 0x1f83d9ab);
      case 7 => SquareRootAt(7, 19, 0x5be0cd19);
    }
  }

  // ---------------------------------------------------------------- the hexadecimal form loses nothing

  lemma {:induction false} NibblesInjective(x: nat, y: nat, width: nat)
    requires x < Pow2(4 * width) && y < Pow2(4 * width) && Nibbles(x, width) == Nibbles(y, width)
    ensures x == y
  {
    if width > 0 {
      var s, t := Nibbles(x, width), Nibbles(y, width);
      assert Pow2(4 * width) == 16 * Pow2(4 * (width - 1)) by {
        assert Pow2(4 * width - 1) == 2 * Pow2(4 * width - 2) == 4 * Pow2(4 * width - 3) == 8 * Pow2(4 * width - 4);
      }
      assert s[..width - 1] == Nibbles(x / 16, width - 1) && t[..width - 1] == Nibbles(y / 16, width - 1);
      assert s[width - 1] == HexDigit(x % 16) && t[width - 1] == HexDigit(y % 16);
      HexDigitValue(x % 16);
      HexDigitValue(y % 16);
      NibblesInjective(x / 16, y / 16, width - 1);
    }
  }

  lemma {:induction false} WordsHexInjective(xs: seq<word>, ys: seq<word>)
    requires |xs| == |ys| && WordsHex(xs) == WordsHex(ys)
    ensures xs == ys
  {
    if xs != [] {
      assert WordsHex(xs)[..8] == Nibbles(xs[0], 8) && WordsHex(ys)[..8] == Nibbles(ys[0], 8);
      assert WordsHex(xs)[8..] == WordsHex(xs[1..]) && WordsHex(ys)[8..] == WordsHex(ys[1..]);
      assert Pow2(32) == 0x1_0000_0000 by { Pow2Values(); }
      NibblesInjective(xs[0], ys[0], 8);
      WordsHexInjective(xs[1..], ys[1..]);
      assert xs == [xs[0]] + xs[1..] && ys == [ys[0]] + ys[1..];
    }
  }

  /** Equal hexadecimal digests are equal digests. */
  lemma DigestHexDecidesDigest(a: seq<byte>, b: seq<byte>)
    ensures DigestHex(a) == DigestHex(b) <==> Digest(a) == Digest(b)
  {
    var x, y := Digest(a), Digest(b);
    if DigestHex(a) == DigestHex(b) {
      WordsHexInjective(Words(x), Words(y));
      assert forall i | 0 <= i < 8 :: Words(x)[i] == Words(y)[i];
    }
  }
}
