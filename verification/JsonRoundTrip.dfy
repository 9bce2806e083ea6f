/**
 Reading undoes printing (packages/contracts/src/canonical-hash.ts, `stableStringify`):
 the reader returns the printed tree with its keys sorted at every level, and two trees
 print alike exactly when they differ only in the order of object keys.
 */
module JsonRoundTrip {
  import opened Prelude
  import opened Sorting
  import opened Text
  import opened CanonicalJson

  // ---------------------------------------------------------------- pieces

  ghost predicate NoDigitAhead(s: string) { s != [] ==> !IsDigit(s[0]) }

  lemma {:induction false} ReadDecimal(n: nat, rest: string)
    ensures ReadDigits(Decimal(n) + rest, 0) == ReadDigits(rest, n)
  {
    if n < 10 {
      assert (Decimal(n) + rest)[1..] == rest;
    } else {
      var last := ['0' + (n % 10) as char];
      Associate(Decimal(n / 10), last, rest);
      ReadDecimal(n / 10, last + rest);
      assert (last + rest)[1..] == rest;
    }
  }

  lemma ReadNumber(n: nat, rest: string)
    requires NoDigitAhead(rest)
    ensures var s := Decimal(n) + rest;
      IsDigit(s[0]) && ReadDigits(s[1..], s[0] as int - '0' as int) == (n, rest)
  {
    var s := Decimal(n) + rest;
    ReadDecimal(n, rest);
    assert s[0] in Decimal(n);
    assert ReadDigits(s, 0) == ReadDigits(s[1..], s[0] as int - '0' as int);
  }

  lemma ReadEscapedChar(c: char, rest: string)
    ensures EscapeChar(c) != []
    ensures EscapeChar(c)[0] != '"' && EscapeChar(c)[0] as int >= 0x20
    ensures EscapeChar(c)[0] == '\\' ==> ReadEscape((EscapeChar(c) + rest)[1..]) == Some((c, rest))
    ensures EscapeChar(c)[0] != '\\' ==> EscapeChar(c) == [c]
  {
    var t := (EscapeChar(c) + rest)[1..];
    if EscapeChar(c)[0] == '\\' {
      if |EscapeChar(c)| == 2 {
        assert t[1..] == rest;
      } else {
        var hi, lo := c as int / 16, c as int % 16;
        assert t == "u00" + [HexDigit(hi), HexDigit(lo)] + rest;
        HexDigitValue(hi);
        HexDigitValue(lo);
        assert t[5..] == rest;
      }
    }
  }

  lemma {:induction false} ReadQuoted(s: string, rest: string)
    ensures ReadString(Escape(s) + "\"" + rest) == Some((s, rest))
  {
    if s == [] {
      assert ("" + "\"" + rest)[1..] == rest;
    } else {
      var e, t := EscapeChar(s[0]), Escape(s[1..]) + "\"" + rest;
      assert Escape(s) + "\"" + rest == e + t;
      ReadEscapedChar(s[0], t);
      ReadQuoted(s[1..], rest);
      assert (e + t)[0] == e[0];
      if e[0] != '\\' { assert (e + t)[1..] == t; }
      assert [s[0]] + s[1..] == s;
    }
  }

  lemma ReadQuote(s: string, rest: string)
    ensures var t := Quote(s) + rest; t[0] == '"' && ReadString(t[1..]) == Some((s, rest))
  {
    ReadQuoted(s, rest);
    assert (Quote(s) + rest)[1..] == Escape(s) + "\"" + rest;
  }

  /** Every printed value starts with a character that is no closing bracket. */
  lemma OntoStart(v: Json, rest: string)
    ensures Onto(v, rest) != [] && Onto(v, rest)[0] != ']'
  {
    match v
    case Num(n) =>
      var m: nat := if n < 0 then -n else n;
      assert Decimal(m)[0] in Decimal(m);
    case _ =>
  }

  // ---------------------------------------------------------------- the reader undoes the printer

  lemma {:induction false} ReadOnto(v: Json, rest: string)
    requires NoDigitAhead(rest)
    ensures Read(Onto(v, rest)) == Some((v, rest))
    decreases v
  {
    hide Read, Onto, ReadItems, ReadMembers, ItemsOnto, MembersOnto;
    match v
    case Arr(items) =>
      if items != [] { ReadItemsOnto(items, rest); }
      ReadArray(items, rest);
    case Obj(ms) =>
      if ms != [] { ReadMembersOnto(ms, rest); }
      ReadObject(ms, rest);
    case _ => ReadScalar(v, rest);
  }

  lemma ReadArray(items: seq<Json>, rest: string)
    requires items != [] ==> ReadItems(ItemsOnto(items, "]" + rest)) == Some((items, rest))
    ensures Read(Onto(Arr(items), rest)) == Some((Arr(items), rest))
  {
    hide ReadItems, ReadMembers, ReadString, ReadDigits;
    var s := Onto(Arr(items), rest);
    if items == [] {
      assert s[2..] == rest;
    } else {
      OntoStart(items[0], if |items| == 1 then "]" + rest else "," + ItemsOnto(items[1..], "]" + rest));
      assert s[1..] == ItemsOnto(items, "]" + rest);
    }
  }

  lemma ReadObject(ms: seq<Member>, rest: string)
    requires ms != [] ==> ReadMembers(MembersOnto(ms, "}" + rest)) == Some((ms, rest))
    ensures Read(Onto(Obj(ms), rest)) == Some((Obj(ms), rest))
  {
    hide ReadItems, ReadMembers, ReadString, ReadDigits;
    var s := Onto(Obj(ms), rest);
    if ms == [] {
      assert s[2..] == rest;
    } else {
      assert s[1..] == MembersOnto(ms, "}" + rest);
      assert s[1] == '"';
    }
  }

  lemma ReadScalar(v: Json, rest: string)
    requires NoDigitAhead(rest) && !v.Arr? && !v.Obj?
    ensures Read(Onto(v, rest)) == Some((v, rest))
  {
    var s := Onto(v, rest);
    match v
    case Null => assert s[4..] == rest;
    case Bool(b) =>
      assert s[if b then 4 else 5..] == rest;
      assert s[0] == if b then 't' else 'f';
    case Num(n) => ReadInteger(n, rest);
    case Str(t) => ReadQuote(t, rest);
  }

  lemma ReadInteger(n: int, rest: string)
    requires NoDigitAhead(rest)
    ensures Read(NumberText(n) + rest) == Some((Num(n), rest))
  {
    hide Decimal, ReadDigits, ReadString, ReadItems, ReadMembers;
    var s := NumberText(n) + rest;
    if n < 0 {
      ReadNumber(-n, rest);
      assert s[1..] == Decimal(-n) + rest;
      assert s[2..] == s[1..][1..];
      assert s[0] == '-';
    } else {
      ReadNumber(n, rest);
    }
  }

  lemma {:induction false} ReadItemsOnto(items: seq<Json>, rest: string)
    requires items != []
    ensures ReadItems(ItemsOnto(items, "]" + rest)) == Some((items, rest))
    decreases items
  {
    var s := ItemsOnto(items, "]" + rest);
    if |items| == 1 {
      ReadOnto(items[0], "]" + rest);
      assert s == Onto(items[0], "]" + rest);
      assert ("]" + rest)[1..] == rest;
      assert items == [items[0]];
    } else {
      var more := ItemsOnto(items[1..], "]" + rest);
      ReadOnto(items[0], "," + more);
      assert s == Onto(items[0], "," + more);
      assert ("," + more)[1..] == more;
      ReadItemsOnto(items[1..], rest);
      assert [items[0]] + items[1..] == items;
    }
  }

  lemma {:induction false} ReadMembersOnto(ms: seq<Member>, rest: string)
    requires ms != []
    ensures ReadMembers(MembersOnto(ms, "}" + rest)) == Some((ms, rest))
    decreases ms
  {
    hide Read, ReadString, ReadItems, Onto, Quote;
    var s := MembersOnto(ms, "}" + rest);
    var more := MembersOnto(ms[1..], "}" + rest);
    var ahead := if |ms| == 1 then "}" + rest else "," + more;
    var value := Onto(ms[0].val, ahead);
    Associate(Quote(ms[0].key), ":", value);
    ReadQuote(ms[0].key, ":" + value);
    assert (":" + value)[1..] == value;
    ReadOnto(ms[0].val, ahead);
    assert s == Quote(ms[0].key) + (":" + value);
    if |ms| == 1 {
      assert ("}" + rest)[1..] == rest;
      assert ms == [Member(ms[0].key, ms[0].val)];
    } else {
      assert ("," + more)[1..] == more;
      ReadMembersOnto(ms[1..], rest);
      assert [Member(ms[0].key, ms[0].val)] + ms[1..] == ms;
    }
  }

  /** The printer never loses anything but the order of object keys. */
  lemma ReadStringify(v: Json)
    ensures Read(Stringify(v)) == Some((Canon(v), ""))
  {
    StringifyIsOnto(v);
    ReadOnto(Canon(v), "");
  }

  // ---------------------------------------------------------------- equality up to key order

  ghost predicate Same(a: Json, b: Json) {
    match (a, b)
    case (Arr(xs), Arr(ys)) => |xs| == |ys| && forall i | 0 <= i < |xs| :: Same(xs[i], ys[i])
    case (Obj(ms), Obj(ns)) =>
      |ms| == |ns| && forall i | 0 <= i < |ms| :: exists j | 0 <= j < |ns| :: ms[i].key == ns[j].key && Same(ms[i].val, ns[j].val)
    case _ => a == b
  }

  lemma KeyOrder(ms: seq<Member>)
    requires DistinctKeys(ms)
    ensures Decides(KeyLess, Elements(ms))
  {
    forall x, y, z | x in Elements(ms) && y in Elements(ms) && z in Elements(ms)
      ensures !KeyLess(x, x)
      ensures x == y || KeyLess(x, y) || KeyLess(y, x)
      ensures KeyLess(x, y) && KeyLess(y, z) ==> KeyLess(x, z)
    {
      StringOrder(x.key, y.key, z.key);
      var i :| 0 <= i < |ms| && ms[i] == x;
      var j :| 0 <= j < |ms| && ms[j] == y;
      assert x.key == y.key ==> i == j;
    }
  }

  /** A list without repetition that is contained in one no longer is a rearrangement of it. */
  lemma {:induction false} Rearrangement(ms: seq<Member>, ns: seq<Member>)
    requires |ms| == |ns| && DistinctKeys(ms)
    requires forall i | 0 <= i < |ms| :: ms[i] in ns
    ensures multiset(ms) == multiset(ns)
    decreases |ms|
  {
    if ms != [] {
      var j :| 0 <= j < |ns| && ns[j] == ms[0];
      var rest := ns[..j] + ns[j + 1..];
      forall i | 0 <= i < |ms[1..]| ensures ms[1..][i] in rest {
        assert ms[i + 1].key != ms[0].key;
        RemoveOther(ns, j, ms[i + 1]);
      }
      Rearrangement(ms[1..], rest);
      TailMultiset(ms);
      RemoveOne(ns, j);
    }
  }

  lemma RemoveOther(ns: seq<Member>, j: nat, m: Member)
    requires j < |ns| && m in ns && m != ns[j]
    ensures m in ns[..j] + ns[j + 1..]
  {
    var k :| 0 <= k < |ns| && ns[k] == m;
    assert k < j ==> (ns[..j] + ns[j + 1..])[k] == m;
    assert k > j ==> (ns[..j] + ns[j + 1..])[k - 1] == m;
  }

  lemma RemoveOne(ns: seq<Member>, j: nat)
    requires j < |ns|
    ensures multiset(ns) == multiset(ns[..j] + ns[j + 1..]) + multiset{ns[j]}
  {
    assert ns == ns[..j] + ([ns[j]] + ns[j + 1..]);
  }

  lemma {:induction false} SameThenCanon(a: Json, b: Json)
    requires WellFormed(a) && WellFormed(b) && Same(a, b)
    ensures Canon(a) == Canon(b)
    decreases a
  {
    hide Sort, KeyLess;
    match (a, b)
    case (Arr(xs), Arr(ys)) =>
      forall i | 0 <= i < |xs| ensures CanonItems(xs)[i] == CanonItems(ys)[i] {
        SameThenCanon(xs[i], ys[i]);
      }
    case (Obj(ms), Obj(ns)) =>
      var cs, ds := CanonMembers(ms), CanonMembers(ns);
      forall i | 0 <= i < |cs| ensures cs[i] in ds {
        var j :| 0 <= j < |ns| && ms[i].key == ns[j].key && Same(ms[i].val, ns[j].val);
        assert ms[i] in ms && ns[j] in ns;
        SameThenCanon(ms[i].val, ns[j].val);
        assert ds[j] == cs[i];
      }
      SortedRearrangement(cs, ds);
    case _ =>
  }

  lemma SortedRearrangement(ms: seq<Member>, ns: seq<Member>)
    requires |ms| == |ns| && DistinctKeys(ms)
    requires forall i | 0 <= i < |ms| :: ms[i] in ns
    ensures Sort(ms, KeyLess) == Sort(ns, KeyLess)
  {
    Rearrangement(ms, ns);
    KeyOrder(ms);
    SortCanonical(ms, ns, KeyLess);
  }

  lemma SortedAlike(ms: seq<Member>, ns: seq<Member>)
    requires Sort(ms, KeyLess) == Sort(ns, KeyLess)
    ensures |ms| == |ns|
    ensures forall i | 0 <= i < |ms| :: ms[i] in ns
  {
    SortElements(ms, KeyLess);
    SortElements(ns, KeyLess);
    forall i | 0 <= i < |ms| ensures ms[i] in ns {
      assert ms[i] in Elements(ms);
    }
  }

  lemma {:induction false} CanonThenSame(a: Json, b: Json)
    requires Canon(a) == Canon(b)
    ensures Same(a, b)
    decreases a
  {
    hide Sort, KeyLess;
    match (a, b)
    case (Arr(xs), Arr(ys)) =>
      assert |CanonItems(xs)| == |CanonItems(ys)|;
      forall i | 0 <= i < |xs| ensures Same(xs[i], ys[i]) {
        assert CanonItems(xs)[i] == CanonItems(ys)[i];
        CanonThenSame(xs[i], ys[i]);
      }
    case (Obj(ms), Obj(ns)) =>
      var cs, ds := CanonMembers(ms), CanonMembers(ns);
      SortedAlike(cs, ds);
      forall i | 0 <= i < |ms|
        ensures exists j | 0 <= j < |ns| :: ms[i].key == ns[j].key && Same(ms[i].val, ns[j].val)
      {
        var j :| 0 <= j < |ds| && ds[j] == cs[i];
        CanonThenSame(ms[i].val, ns[j].val);
        assert 0 <= j < |ns|;
      }
    case _ =>
  }

  /** Two trees print alike exactly when they differ only in the order of object keys. */
  lemma StringifyDecidesSame(a: Json, b: Json)
    requires WellFormed(a) && WellFormed(b)
    ensures Stringify(a) == Stringify(b) <==> Same(a, b)
  {
    ReadStringify(a);
    ReadStringify(b);
    if Stringify(a) == Stringify(b) {
      CanonThenSame(a, b);
    } else if Same(a, b) {
      SameThenCanon(a, b);
      StringifyIsOnto(a);
      StringifyIsOnto(b);
    }
  }

  // ---------------------------------------------------------------- the order of keys

  /** At every level the keys ascend by code units. */
  ghost predicate KeysAscend(v: Json) {
    match v
    case Arr(items) => forall x | x in items :: KeysAscend(x)
    case Obj(ms) =>
      (forall i, j | 0 <= i < j < |ms| :: StringLess(ms[i].key, ms[j].key)) && forall m | m in ms :: KeysAscend(m.val)
    case _ => true
  }

  /** What is printed has its keys in ascending order at every level. */
  lemma {:induction false} CanonAscends(v: Json)
    requires WellFormed(v)
    ensures KeysAscend(Canon(v))
    decreases v
  {
    hide StringLess;
    match v
    case Arr(items) =>
      forall i | 0 <= i < |items| ensures KeysAscend(CanonItems(items)[i]) { CanonAscends(items[i]); }
    case Obj(ms) =>
      var cs := CanonMembers(ms);
      forall i | 0 <= i < |cs| ensures KeysAscend(cs[i].val) { assert ms[i] in ms; CanonAscends(ms[i].val); }
      SortAscends(cs);
    case _ =>
  }

  lemma SortAscends(cs: seq<Member>)
    requires DistinctKeys(cs) && forall i | 0 <= i < |cs| :: KeysAscend(cs[i].val)
    ensures KeysAscend(Obj(Sort(cs, KeyLess)))
  {
    var sorted := Sort(cs, KeyLess);
    KeyOrder(cs);
    SortElements(cs, KeyLess);
    SortSorts(cs, KeyLess, Elements(cs));
    SortPermutes(cs, KeyLess);
    hide Sort, StringLess, KeysAscend;
    forall m | m in sorted ensures KeysAscend(m.val) {
      assert m in Elements(sorted);
      var i :| 0 <= i < |cs| && cs[i] == m;
    }
    forall i, j | 0 <= i < j < |sorted| ensures StringLess(sorted[i].key, sorted[j].key) {
      assert sorted[i] in Elements(sorted) && sorted[j] in Elements(sorted);
      assert !KeyLess(sorted[j], sorted[i]);
      if sorted[i] == sorted[j] { OnceInSorted(cs, sorted, i, j); }
    }
    AscendsWhole(sorted);
  }

  lemma AscendsWhole(ms: seq<Member>)
    requires (forall i, j | 0 <= i < j < |ms| :: StringLess(ms[i].key, ms[j].key)) && forall m | m in ms :: KeysAscend(m.val)
    ensures KeysAscend(Obj(ms))
  {
    hide StringLess;
  }

  lemma OnceInSorted(cs: seq<Member>, sorted: seq<Member>, i: nat, j: nat)
    requires DistinctKeys(cs) && multiset(sorted) == multiset(cs) && i < j < |sorted|
    ensures sorted[i] != sorted[j]
  {
    if sorted[i] == sorted[j] {
      assert sorted == sorted[..j] + ([sorted[j]] + sorted[j + 1..]);
      assert sorted[..j][i] in multiset(sorted[..j]);
      assert multiset(cs)[sorted[i]] >= 2;
      OnceInDistinct(cs, sorted[i]);
    }
  }

  lemma {:induction false} OnceInDistinct(cs: seq<Member>, m: Member)
    requires DistinctKeys(cs)
    ensures multiset(cs)[m] <= 1
  {
    if cs != [] {
      OnceInDistinct(cs[1..], m);
      TailMultiset(cs);
      forall k | 0 <= k < |cs[1..]| ensures cs[1..][k] != cs[0] { assert cs[1..][k] == cs[k + 1] && cs[0].key != cs[k + 1].key; }
    }
  }
}
