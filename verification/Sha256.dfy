/**
 `sha256Hex` (packages/contracts/src/canonical-hash.ts): the loops over byte and word
 arrays, with the signed operators of JavaScript, compute SHA-256 as FIPS 180-4 defines it.
 */
module Sha256 {
  import opened Text
  import opened JsNumber
  import opened Fips180

  // ---------------------------------------------------------------- one operator at a time

  function JsRightRotate(value: int, bits: nat): int
    requires bits <= 32
  {
    JsOr(JsShr(value, bits), JsShl(value, 32 - bits))
  }

  lemma RightRotateIsRotr(x: word, n: nat)
    requires n <= 32
    ensures JsRightRotate(x, n) == ToInt32(Rotr(x, n))
  {
    SignedWord(x);
    SignedWord(ShiftRight(x, n));
    SignedWord(ShiftLeft(x, 32 - n));
  }

  lemma XorOfSigned(x: word, y: word)
    ensures JsXor(ToInt32(x), ToInt32(y)) == ToInt32(Xor(x, y))
    ensures JsXor(ToInt32(x), y) == ToInt32(Xor(x, y))
    ensures JsAnd(x, y) == ToInt32(And(x, y)) && JsAnd(ToInt32(x), y) == ToInt32(And(x, y))
  {
    SignedWord(x);
    SignedWord(y);
  }

  method Sigma(x: word, i: nat, j: nat, k: nat) returns (r: int)
    requires i <= 32 && j <= 32 && k <= 32
    ensures r == ToInt32(Xor(Xor(Rotr(x, i), Rotr(x, j)), Rotr(x, k)))
  {
    RightRotateIsRotr(x, i);
    RightRotateIsRotr(x, j);
    RightRotateIsRotr(x, k);
    XorOfSigned(Rotr(x, i), Rotr(x, j));
    XorOfSigned(Xor(Rotr(x, i), Rotr(x, j)), Rotr(x, k));
    r := JsXor(JsXor(JsRightRotate(x, i), JsRightRotate(x, j)), JsRightRotate(x, k));
  }

  method ScheduleSigma(x: word, i: nat, j: nat, k: nat) returns (r: int)
    requires i <= 32 && j <= 32
    ensures r == ToInt32(Xor(Xor(Rotr(x, i), Rotr(x, j)), ShiftRight(x, k)))
  {
    RightRotateIsRotr(x, i);
    RightRotateIsRotr(x, j);
    SignedWord(x);
    XorOfSigned(Rotr(x, i), Rotr(x, j));
    XorOfSigned(Xor(Rotr(x, i), Rotr(x, j)), ShiftRight(x, k));
    r := JsXor(JsXor(JsRightRotate(x, i), JsRightRotate(x, j)), JsShr(x, k));
  }

  method Choose(e: word, f: word, g: word) returns (r: int)
    ensures r == ToInt32(Ch(e, f, g))
  {
    NotWord(e);
    XorOfSigned(e, f);
    XorOfSigned(Not(e), g);
    XorOfSigned(And(e, f), And(Not(e), g));
    r := JsXor(JsAnd(e, f), JsAnd(JsNot(e), g));
  }

  method Majority(a: word, b: word, c: word) returns (r: int)
    ensures r == ToInt32(Maj(a, b, c))
  {
    XorOfSigned(a, b);
    XorOfSigned(a, c);
    XorOfSigned(b, c);
    XorOfSigned(And(a, b), And(a, c));
    XorOfSigned(Xor(And(a, b), And(a, c)), And(b, c));
    r := JsXor(JsXor(JsAnd(a, b), JsAnd(a, c)), JsAnd(b, c));
  }

  // ---------------------------------------------------------------- padding

  method SetUint32(view: array<byte>, offset: nat, value: word)
    requires offset + 4 <= view.Length
    modifies view
    ensures view[..] == old(view[..offset]) + BigEndian(value, 4) + old(view[offset + 4..])
  {
    view[offset] := value / 0x100_0000;
    view[offset + 1] := value / 0x1_0000 % 0x100;
    view[offset + 2] := value / 0x100 % 0x100;
    view[offset + 3] := value % 0x100;
    FourBytes(value);
  }

  /** `((n + 9 + 63) >> 6) << 6` */
  function PaddedLength(n: nat): int { JsShl(JsSar(n + 9 + 63, 6), 6) }

  /**
   The shifts give the padded length of the standard exactly while `n + 72` is a non-negative
   32-bit integer; for the next 2^31 lengths they give a negative one.
   */
  lemma PaddedLengthExact(n: nat)
    ensures PaddedLength(n) == n + 1 + ZeroBytes(n) + 8 <==> n + 72 < 0x8000_0000
    ensures 0x8000_0000 <= n + 72 < 0x1_0000_0000 ==> PaddedLength(n) < 0
  {
    hide JsShl, Halve;
    SixBits(ToInt32(n + 72));
    RoundUp(n);
    if n + 72 < 0x8000_0000 { SignedInt(n + 72); }
  }

  lemma RoundUp(n: nat)
    ensures (n + 72) / 64 * 64 == n + 9 + ZeroBytes(n)
  {
    var q, r := (n + 72) / 64, (n + 72) % 64;
    assert 55 - n == 64 * (1 - q) + (63 - r);
  }

  lemma SixBits(m: int)
    requires -0x8000_0000 <= m < 0x8000_0000
    ensures JsShl(Halve(m, 6), 6) == m / 64 * 64
  {
    hide ShiftLeft, Halve, ToInt32, ToUint32;
    var q := m / 64;
    assert Halve(m, 6) == q by { SixHalves(m); }
    assert ShiftLeft(ToUint32(q), 6) == ToUint32(64 * q) by {
      SixDoubles(ToUint32(q));
      ScaledMod(q, 64);
    }
    SignedInt(64 * q);
  }

  lemma SixHalves(m: int)
    ensures Halve(m, 6) == m / 64
  {
    HalveThrice(m, 3);
    HalveThrice(m / 8, 0);
    assert m / 8 / 8 == m / 64;
  }

  lemma SixDoubles(u: word)
    ensures ShiftLeft(u, 6) == ToUint32(64 * u)
  {
    ShiftLeftThrice(u, 3);
    ShiftLeftThrice(ToUint32(8 * u), 0);
    ScaledMod(8 * u, 8);
  }

  lemma ScaledMod(x: int, k: int)
    ensures ToUint32(k * ToUint32(x)) == ToUint32(k * x)
  {
    var q := x / 0x1_0000_0000;
    assert k * x == k * (x % 0x1_0000_0000) + (k * q) * 0x1_0000_0000;
    DropWords(k * x, k * q);
  }

  lemma HalveThrice(m: int, n: nat)
    ensures Halve(m, n + 3) == Halve(m / 8, n)
  {
    assert Halve(m, n + 3) == Halve(m / 2, n + 2);
    assert Halve(m / 2, n + 2) == Halve(m / 2 / 2, n + 1);
    assert m / 2 / 2 / 2 == m / 8;
  }

  lemma ShiftLeftThrice(u: word, n: nat)
    ensures ShiftLeft(u, n + 3) == ShiftLeft(ToUint32(8 * u), n)
  {
    var u2: int, u4: int := ToUint32(2 * u), ToUint32(4 * u);
    assert ShiftLeft(u, n + 3) == ShiftLeft(u2, n + 2);
    ScaledMod(2 * u, 2);
    assert ShiftLeft(u2, n + 2) == ShiftLeft(u4, n + 1);
    ScaledMod(4 * u, 2);
  }

  method CopyMessage(bytes: seq<byte>, paddedLength: nat) returns (padded: array<byte>)
    requires |bytes| + 9 <= paddedLength
    ensures fresh(padded)
    ensures padded[..] == bytes + [0x80] + seq(paddedLength - |bytes| - 9, _ => 0) + seq(8, _ => 0)
  {
    padded := new byte[paddedLength](_ => 0);
    forall i | 0 <= i < |bytes| {
      padded[i] := bytes[i];
    }
    padded[|bytes|] := 0x80;
  }

  /** Writes the bit length, in two words, into the last eight bytes. */
  method SetLength(view: array<byte>, bitLength: nat, ghost front: seq<byte>)
    requires view.Length == |front| + 8 && bitLength < 0x1_0000_0000_0000_0000
    requires view[..] == front + seq(8, _ => 0)
    modifies view
    ensures view[..] == front + (BigEndian(bitLength / 0x1_0000_0000, 4) + BigEndian(bitLength % 0x1_0000_0000, 4))
  {
    hide BigEndian;
    ghost var high := BigEndian(bitLength / 0x1_0000_0000, 4);
    SetUint32(view, view.Length - 8, bitLength / 0x1_0000_0000);
    assert view[..] == front + high + seq(4, _ => 0);
    SetUint32(view, view.Length - 4, JsShr(bitLength, 0));
    assert view[..] == front + high + BigEndian(bitLength % 0x1_0000_0000, 4);
  }

  method PadMessage(bytes: seq<byte>) returns (padded: array<byte>)
    requires |bytes| + 72 < 0x8000_0000
    ensures fresh(padded) && padded[..] == Pad(bytes)
  {
    hide PaddedLength, ZeroBytes, BigEndian;
    PaddedLengthExact(|bytes|);
    var paddedLength := PaddedLength(|bytes|);
    padded := CopyMessage(bytes, paddedLength);
    SetLength(padded, |bytes| * 8, bytes + [0x80] + seq(ZeroBytes(|bytes|), _ => 0));
  }

  // ---------------------------------------------------------------- the block loops

  /**
   Sums in which two summands are signed: every partial sum is exact, and `>>> 0` leaves
   the sum of the words modulo 2^32.
   */
  function ScheduleSum(w16: word, s0: int, w7: word, s1: int, ghost x: word, ghost y: word): (r: word)
    requires s0 == ToInt32(x) && s1 == ToInt32(y)
    ensures r == Mod(y + w7 + x + w16)
  {
    SignedSum(x, y, w16 + w7);
    JsShr(JsAdd(JsAdd(JsAdd(w16, s0), w7), s1), 0)
  }

  function Temp1(h: word, s1: int, ch: int, k: word, w: word, ghost x: word, ghost y: word): (r: word)
    requires s1 == ToInt32(x) && ch == ToInt32(y)
    ensures r == Mod(h + x + y + k + w)
  {
    SignedSum(x, y, h + k + w);
    JsShr(JsAdd(JsAdd(JsAdd(JsAdd(h, s1), ch), k), w), 0)
  }

  function Temp2(s0: int, maj: int, ghost x: word, ghost y: word): (r: word)
    requires s0 == ToInt32(x) && maj == ToInt32(y)
    ensures r == Mod(x + y)
  {
    SignedSum(x, y, 0);
    JsShr(JsAdd(s0, maj), 0)
  }

  /** `(x + y) >>> 0` */
  function AddWord(x: word, y: word): (r: word)
    ensures r == Mod(x + y)
  {
    JsShr(JsAdd(x, y), 0)
  }

  method ScheduleStep(w16: word, w15: word, w7: word, w2: word) returns (r: word)
    ensures r == Mod(SmallSigma1(w2) + w7 + SmallSigma0(w15) + w16)
  {
    hide Rotr, Xor, ToInt32, Mod;
    var s0 := ScheduleSigma(w15, 7, 18, 3);
    var s1 := ScheduleSigma(w2, 17, 19, 10);
    r := ScheduleSum(w16, s0, w7, s1, SmallSigma0(w15), SmallSigma1(w2));
  }

  method FillSchedule(view: array<byte>, offset: nat, w: array<word>)
    requires offset + 64 <= view.Length && w.Length == 64
    modifies w
    ensures forall t | 0 <= t < 64 :: w[t] == W(view[..], offset, t)
  {
    hide SmallSigma0, SmallSigma1, Mod, WordAt;
    ghost var bs := view[..];
    for i := 0 to 16
      invariant forall t | 0 <= t < i :: w[t] == W(bs, offset, t)
    {
      w[i] := WordAt(view[..], offset + i * 4);
    }
    for i := 16 to 64
      invariant forall t | 0 <= t < i :: w[t] == W(bs, offset, t)
    {
      w[i] := ScheduleStep(w[i - 16], w[i - 15], w[i - 7], w[i - 2]);
    }
  }

  method Temporaries(s: State, k: word, w: word) returns (temp1: word, temp2: word)
    ensures temp1 == Mod(s.h + BigSigma1(s.e) + Ch(s.e, s.f, s.g) + k + w)
    ensures temp2 == Mod(BigSigma0(s.a) + Maj(s.a, s.b, s.c))
  {
    hide Rotr, Xor, And, Not, ToInt32;
    var s1 := Sigma(s.e, 6, 11, 25);
    var ch := Choose(s.e, s.f, s.g);
    temp1 := Temp1(s.h, s1, ch, k, w, BigSigma1(s.e), Ch(s.e, s.f, s.g));
    var s0 := Sigma(s.a, 2, 13, 22);
    var maj := Majority(s.a, s.b, s.c);
    temp2 := Temp2(s0, maj, BigSigma0(s.a), Maj(s.a, s.b, s.c));
  }

  /** One pass through the 64-fold loop: two temporaries, then eight assignments in order. */
  method RoundStep(s: State, k: word, w: word) returns (r: State)
    ensures r == Round(s, k, w)
  {
    hide BigSigma0, BigSigma1, Ch, Maj;
    var State(a, b, c, d, e, f, g, h) := s;
    var temp1, temp2 := Temporaries(s, k, w);
    h := g;
    g := f;
    f := e;
    e := AddWord(d, temp1);
    d := c;
    c := b;
    b := a;
    a := AddWord(temp1, temp2);
    r := State(a, b, c, d, e, f, g, h);
  }

  method CompressBlock(h: State, bytes: seq<byte>, offset: nat, w: array<word>) returns (r: State)
    requires offset + 64 <= |bytes| && w.Length == 64
    requires forall t | 0 <= t < 64 :: w[t] == W(bytes, offset, t)
    ensures r == Rounds(h, bytes, offset, 64)
  {
    r := h;
    for i := 0 to 64
      invariant r == Rounds(h, bytes, offset, i)
    {
      r := RoundStep(r, K(i), w[i]);
    }
  }

  // ---------------------------------------------------------------- the hexadecimal text

  /** `value.toString(16)` */
  function ToString16(x: nat): (s: string)
    ensures s != []
  {
    if x < 16 then [HexDigit(x)] else ToString16(x / 16) + [HexDigit(x % 16)]
  }

  /** `s.padStart(width, "0")` */
  function PadStart(s: string, width: nat): string {
    if |s| >= width then s else seq(width - |s|, _ => '0') + s
  }

  lemma {:induction false} ZeroNibbles(width: nat)
    ensures Nibbles(0, width) == seq(width, _ => '0')
  {
    if width > 0 { ZeroNibbles(width - 1); }
  }

  lemma {:induction false} PaddedHexIsNibbles(x: nat, width: nat)
    requires width > 0 && x < Pow2(4 * width)
    ensures |ToString16(x)| <= width
    ensures PadStart(ToString16(x), width) == Nibbles(x, width)
  {
    if x < 16 {
      ZeroNibbles(width - 1);
      assert Nibbles(x, width) == seq(width - 1, _ => '0') + [HexDigit(x)];
    } else {
      assert Pow2(4) == 16;
      assert Pow2(4 * width - 1) == 2 * Pow2(4 * width - 2) == 4 * Pow2(4 * width - 3) == 8 * Pow2(4 * width - 4);
      PaddedHexIsNibbles(x / 16, width - 1);
      var s := ToString16(x / 16);
      if |s| + 1 < width {
        assert PadStart(ToString16(x), width) == PadStart(s, width - 1) + [HexDigit(x % 16)];
      }
    }
  }

  function HexText(ws: seq<word>): string {
    if ws == [] then "" else PadStart(ToString16(ws[0]), 8) + HexText(ws[1..])
  }

  lemma {:induction false} HexTextIsWordsHex(ws: seq<word>)
    ensures HexText(ws) == WordsHex(ws)
  {
    if ws != [] {
      Pow2Values();
      PaddedHexIsNibbles(ws[0], 8);
      HexTextIsWordsHex(ws[1..]);
    }
  }

  /** For every string of fewer than 2^31 - 72 bytes, `sha256Hex` is SHA-256. */
  method Sha256Hex(input: string) returns (hex: string)
    requires |Utf8(input)| + 72 < 0x8000_0000
    ensures hex == DigestHex(Utf8(input))
  {
    hide Utf8, Pad, Rounds, AddStates, WordsHex, HexText, W;
    var bytes := Utf8(input);
    var padded := PadMessage(bytes);
    var h := H0;
    var w := new word[64];
    var offset := 0;
    while offset < padded.Length
      invariant offset % 64 == 0 && offset <= padded.Length
      invariant padded[..] == Pad(bytes)
      invariant h == HashBlocks(Pad(bytes), offset / 64)
    {
      FillSchedule(padded, offset, w);
      var r := CompressBlock(h, padded[..], offset, w);
      assert 64 * (offset / 64) == offset && (offset + 64) / 64 == offset / 64 + 1;
      h := AddWords(h, r);
      offset := offset + 64;
    }
    HexTextIsWordsHex(Words(h));
    hex := HexText(Words(h));
  }

  method AddWords(h: State, r: State) returns (s: State)
    ensures s == AddStates(r, h)
  {
    hide AddWord, Mod;
    s := State(AddWord(h.a, r.a), AddWord(h.b, r.b), AddWord(h.c, r.c), AddWord(h.d, r.d),
               AddWord(h.e, r.e), AddWord(h.f, r.f), AddWord(h.g, r.g), AddWord(h.h, r.h));
  }
}
