/**
 Strings. A Dafny `char` is a Unicode scalar value, so a `string` here is a JavaScript
 string without lone surrogates. The module gives the two encodings the repository goes
 through: UTF-16 code units, by which `Array.prototype.sort` orders strings, and the
 UTF-8 bytes a `TextEncoder` produces.
 */
module Text {
  import opened Prelude

  // ---------------------------------------------------------------- UTF-16 order

  /** The code units of one scalar value (section 11.1.1 of ECMA-262, UTF16EncodeCodePoint). */
  function CodeUnits(c: char): seq<int> {
    var n := c as int;
    if n < 0x10000 then [n]
    else [0xD800 + (n - 0x10000) / 0x400, 0xDC00 + (n - 0x10000) % 0x400]
  }

  function Utf16(s: string): seq<int> {
    if s == [] then [] else CodeUnits(s[0]) + Utf16(s[1..])
  }

  /** Lexicographic order on code units: the order of `<` and of the default `sort`. */
  predicate UnitsLess(a: seq<int>, b: seq<int>) {
    b != [] && (a == [] || a[0] < b[0] || (a[0] == b[0] && UnitsLess(a[1..], b[1..])))
  }

  predicate StringLess(a: string, b: string) {
    UnitsLess(Utf16(a), Utf16(b))
  }

  lemma {:induction false} UnitsIrreflexive(a: seq<int>)
    ensures !UnitsLess(a, a)
  {
    if a != [] { UnitsIrreflexive(a[1..]); }
  }

  lemma {:induction false} UnitsTransitive(a: seq<int>, b: seq<int>, c: seq<int>)
    requires UnitsLess(a, b) && UnitsLess(b, c)
    ensures UnitsLess(a, c)
  {
    if a != [] && a[0] == b[0] == c[0] { UnitsTransitive(a[1..], b[1..], c[1..]); }
  }

  lemma {:induction false} UnitsTotal(a: seq<int>, b: seq<int>)
    ensures a == b || UnitsLess(a, b) || UnitsLess(b, a)
  {
    if a != [] && b != [] && a[0] == b[0] {
      UnitsTotal(a[1..], b[1..]);
      assert a == [a[0]] + a[1..] && b == [b[0]] + b[1..];
    }
  }

  lemma UnitsPrefixFree(c: char, d: char, s: seq<int>, t: seq<int>)
    requires CodeUnits(c) + s == CodeUnits(d) + t
    ensures c == d && s == t
  {
    var x, y := CodeUnits(c), CodeUnits(d);
    assert (x + s)[0] == x[0] && (y + t)[0] == y[0];
    assert |x| == |y|;
    assert |x| == 2 ==> (x + s)[1] == x[1] && (y + t)[1] == y[1];
    assert (x + s)[|x|..] == s && (y + t)[|y|..] == t;
  }

  lemma {:induction false} Utf16Injective(a: string, b: string)
    requires Utf16(a) == Utf16(b)
    ensures a == b
  {
    if a != [] && b != [] {
      UnitsPrefixFree(a[0], b[0], Utf16(a[1..]), Utf16(b[1..]));
      Utf16Injective(a[1..], b[1..]);
      assert a == [a[0]] + a[1..] && b == [b[0]] + b[1..];
    }
  }

  /** The order by which object keys are sorted is a strict total order on strings. */
  lemma StringOrder(a: string, b: string, c: string)
    ensures !StringLess(a, a)
    ensures a == b || StringLess(a, b) || StringLess(b, a)
    ensures StringLess(a, b) && StringLess(b, c) ==> StringLess(a, c)
  {
    UnitsIrreflexive(Utf16(a));
    UnitsTotal(Utf16(a), Utf16(b));
    if Utf16(a) == Utf16(b) { Utf16Injective(a, b); }
    if StringLess(a, b) && StringLess(b, c) { UnitsTransitive(Utf16(a), Utf16(b), Utf16(c)); }
  }

  /** Up to some place the units agree; there the first sequence has ended, or its unit is the smaller. */
  ghost predicate EndsOrDrops(a: seq<int>, b: seq<int>) {
    exists k: nat | k <= |a| && k < |b| :: a[..k] == b[..k] && (k == |a| || a[k] < b[k])
  }

  lemma HeadsDiffer(a: seq<int>, b: seq<int>)
    requires a != [] && b != [] && a[0] != b[0]
    ensures forall k | 0 < k <= |a| && k <= |b| :: a[..k] != b[..k]
  {
    forall k | 0 < k <= |a| && k <= |b| ensures a[..k] != b[..k] {
      assert a[..k][0] == a[0] && b[..k][0] == b[0];
    }
  }

  lemma {:induction false} UnitsLessIff(a: seq<int>, b: seq<int>)
    ensures UnitsLess(a, b) <==> EndsOrDrops(a, b)
  {
    if b != [] && (a == [] || a[0] != b[0]) {
      assert a[..0] == b[..0];
      if a != [] { HeadsDiffer(a, b); }
    } else if b != [] {
      UnitsLessIff(a[1..], b[1..]);
      if k: nat :| k <= |a| && k < |b| && a[..k] == b[..k] && (k == |a| || a[k] < b[k]) {
        assert a[1..][..k - 1] == a[..k][1..] == b[..k][1..] == b[1..][..k - 1];
      }
      if k: nat :| k <= |a[1..]| && k < |b[1..]| && a[1..][..k] == b[1..][..k] && (k == |a[1..]| || a[1..][k] < b[1..][k]) {
        assert a[..k + 1] == [a[0]] + a[1..][..k] && b[..k + 1] == [b[0]] + b[1..][..k];
      }
    }
  }

  /** A string is before another where its code units end first, or are smaller at the first difference. */
  lemma StringLessIff(a: string, b: string)
    ensures StringLess(a, b) <==> EndsOrDrops(Utf16(a), Utf16(b))
  {
    UnitsLessIff(Utf16(a), Utf16(b));
  }

  // ---------------------------------------------------------------- UTF-8

  type byte = x: int | 0 <= x < 0x100

  function Utf8Char(c: char): seq<byte> {
    var n := c as int;
    if n < 0x80 then [n]
    else if n < 0x800 then [0xC0 + n / 0x40, 0x80 + n % 0x40]
    else if n < 0x10000 then [0xE0 + n / 0x1000, 0x80 + n / 0x40 % 0x40, 0x80 + n % 0x40]
    else [0xF0 + n / 0x40000, 0x80 + n / 0x1000 % 0x40, 0x80 + n / 0x40 % 0x40, 0x80 + n % 0x40]
  }

  /** `new TextEncoder().encode(s)`. */
  function Utf8(s: string): seq<byte> {
    if s == [] then [] else Utf8Char(s[0]) + Utf8(s[1..])
  }

  lemma SixBitDigits(n: nat)
    ensures n == n / 0x40 * 0x40 + n % 0x40
    ensures n / 0x40 == n / 0x1000 * 0x40 + n / 0x40 % 0x40
    ensures n / 0x1000 == n / 0x40000 * 0x40 + n / 0x1000 % 0x40
  {
  }

  /** The bytes of a character determine it. */
  lemma Utf8CharInjective(c: char, d: char)
    requires Utf8Char(c) == Utf8Char(d)
    ensures c == d
  {
    SixBitDigits(c as int);
    SixBitDigits(d as int);
    var x, y := Utf8Char(c), Utf8Char(d);
    assert |x| == |y| && x[0] == y[0];
    if |x| > 1 { assert x[1] == y[1]; }
    if |x| > 2 { assert x[2] == y[2]; }
    if |x| > 3 { assert x[3] == y[3]; }
  }

  lemma Utf8PrefixFree(c: char, d: char, s: seq<byte>, t: seq<byte>)
    requires Utf8Char(c) + s == Utf8Char(d) + t
    ensures c == d && s == t
  {
    var x, y := Utf8Char(c), Utf8Char(d);
    assert (x + s)[0] == x[0] && (y + t)[0] == y[0];
    assert |x| == |y|;
    assert (x + s)[..|x|] == x && (y + t)[..|y|] == y;
    assert (x + s)[|x|..] == s && (y + t)[|y|..] == t;
    Utf8CharInjective(c, d);
  }

  /** Distinct strings are encoded as distinct bytes. */
  lemma {:induction false} Utf8Injective(a: string, b: string)
    requires Utf8(a) == Utf8(b)
    ensures a == b
  {
    if a != [] && b != [] {
      Utf8PrefixFree(a[0], b[0], Utf8(a[1..]), Utf8(b[1..]));
      Utf8Injective(a[1..], b[1..]);
      assert a == [a[0]] + a[1..] && b == [b[0]] + b[1..];
    }
  }

  // ---------------------------------------------------------------- digits

  predicate IsDigit(c: char) {
    '0' <= c <= '9'
  }

  function HexDigit(d: int): char
    requires 0 <= d < 16
  {
    if d < 10 then '0' + d as char else 'a' + (d - 10) as char
  }

  function HexValue(c: char): (v: Option<int>)
    ensures v.Some? ==> 0 <= v.value < 16
  {
    if '0' <= c <= '9' then Some(c as int - '0' as int)
    else if 'a' <= c <= 'f' then Some(c as int - 'a' as int + 10)
    else if 'A' <= c <= 'F' then Some(c as int - 'A' as int + 10)
    else None
  }

  lemma HexDigitValue(d: int)
    requires 0 <= d < 16
    ensures HexValue(HexDigit(d)) == Some(d)
  {
  }

  /** The decimal digits of a natural number: `Number.prototype.toString` for integers up to 2^53. */
  function Decimal(n: nat): (s: string)
    ensures s != [] && forall c | c in s :: IsDigit(c)
  {
    if n < 10 then ['0' + n as char] else Decimal(n / 10) + ['0' + (n % 10) as char]
  }
}
