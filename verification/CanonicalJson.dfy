/**
 JSON trees and their canonical text (packages/contracts/src/canonical-hash.ts,
 `stableStringify`). An object is the list of its own properties in insertion order.
 A reader for the printed texts undoes the printer up to the order of object keys, so
 two trees print alike exactly when they differ only in that order.
 */
module CanonicalJson {
  import opened Prelude
  import opened Sorting
  import opened Text

  datatype Json =
    | Null
    | Bool(b: bool)
    | Num(n: int)
    | Str(s: string)
    | Arr(items: seq<Json>)
    | Obj(members: seq<Member>)

  datatype Member = Member(key: string, val: Json)

  predicate DistinctKeys(ms: seq<Member>) {
    forall i, j | 0 <= i < j < |ms| :: ms[i].key != ms[j].key
  }

  /** What a JavaScript value always satisfies: no object has a key twice. */
  predicate WellFormed(v: Json) {
    match v
    case Arr(items) => forall x | x in items :: WellFormed(x)
    case Obj(ms) => DistinctKeys(ms) && forall m | m in ms :: WellFormed(m.val)
    case _ => true
  }

  // ---------------------------------------------------------------- the printer

  /** One character inside a JSON string literal (section 25.5.2.2 of ECMA-262). */
  function EscapeChar(c: char): string {
    if c == '"' then "\\\""
    else if c == '\\' then "\\\\"
    else if c as int == 8 then "\\b"
    else if c as int == 9 then "\\t"
    else if c as int == 10 then "\\n"
    else if c as int == 12 then "\\f"
    else if c as int == 13 then "\\r"
    else if (c as int) < 0x20 then "\\u00" + [HexDigit(c as int / 16), HexDigit(c as int % 16)]
    else [c]
  }

  /** Quotes, backslashes and five controls take two characters, the other controls six, anything else itself. */
  lemma EscapeForms(c: char)
    ensures var short := c == '"' || c == '\\' || c as int in {8, 9, 10, 12, 13};
      && (short ==> |EscapeChar(c)| == 2 && EscapeChar(c)[0] == '\\')
      && (!short && (c as int) < 0x20 ==> |EscapeChar(c)| == 6 && EscapeChar(c)[..4] == "\\u00")
      && (!short && (c as int) >= 0x20 ==> EscapeChar(c) == [c])
    ensures EscapeChar('\t') == "\\t" && EscapeChar('\n') == "\\n" && EscapeChar('\r') == "\\r" && EscapeChar('"') == "\\\""
  {
  }

  function Escape(s: string): string {
    if s == [] then [] else EscapeChar(s[0]) + Escape(s[1..])
  }

  function Quote(s: string): string {
    "\"" + Escape(s) + "\""
  }

  function NumberText(n: int): string {
    if n < 0 then "-" + Decimal(-n) else Decimal(n)
  }

  /** `parts.join(",")` */
  function Join(parts: seq<string>): string {
    if parts == [] then "" else if |parts| == 1 then parts[0] else parts[0] + "," + Join(parts[1..])
  }

  /** A key of an object with the text of its value. */
  datatype Entry = Entry(key: string, text: string)

  predicate EntryLess(a: Entry, b: Entry) { StringLess(a.key, b.key) }

  function EntryText(e: Entry): string {
    Quote(e.key) + ":" + e.text
  }

  /** `stableStringify`: keys sorted at every level, arrays in order. */
  function Stringify(v: Json): string {
    match v
    case Null => "null"
    case Bool(b) => if b then "true" else "false"
    case Num(n) => NumberText(n)
    case Str(s) => Quote(s)
    case Arr(items) => "[" + Join(ItemTexts(items)) + "]"
    case Obj(ms) => "{" + Join(Map(Sort(MemberEntries(ms), EntryLess), EntryText)) + "}"
  }

  function ItemTexts(items: seq<Json>): (texts: seq<string>)
    ensures |texts| == |items|
  {
    if items == [] then [] else [Stringify(items[0])] + ItemTexts(items[1..])
  }

  function MemberEntries(ms: seq<Member>): seq<Entry> {
    if ms == [] then [] else [Entry(ms[0].key, Stringify(ms[0].val))] + MemberEntries(ms[1..])
  }

  // ---------------------------------------------------------------- keys sorted at every level

  predicate KeyLess(a: Member, b: Member) { StringLess(a.key, b.key) }

  function Canon(v: Json): Json {
    match v
    case Arr(items) => Arr(CanonItems(items))
    case Obj(ms) => Obj(Sort(CanonMembers(ms), KeyLess))
    case _ => v
  }

  function CanonItems(items: seq<Json>): (r: seq<Json>)
    ensures |r| == |items| && forall i | 0 <= i < |items| :: r[i] == Canon(items[i])
  {
    if items == [] then [] else [Canon(items[0])] + CanonItems(items[1..])
  }

  function CanonMembers(ms: seq<Member>): (r: seq<Member>)
    ensures |r| == |ms| && forall i | 0 <= i < |ms| :: r[i] == Member(ms[i].key, Canon(ms[i].val))
  {
    if ms == [] then [] else [Member(ms[0].key, Canon(ms[0].val))] + CanonMembers(ms[1..])
  }

  // ---------------------------------------------------------------- the reader

  /** The longest run of digits, with the number read so far. */
  function ReadDigits(s: string, n: nat): (r: (nat, string))
    ensures |r.1| <= |s|
  {
    if s != [] && IsDigit(s[0]) then ReadDigits(s[1..], 10 * n + (s[0] as int - '0' as int)) else (n, s)
  }

  /** The character a backslash escape stands for, and what follows it. */
  function ReadEscape(s: string): (r: Option<(char, string)>)
    ensures r.Some? ==> |r.value.1| < |s|
  {
    if s == [] then None
    else match s[0]
      case '"' => Some(('"', s[1..]))
      case '\\' => Some(('\\', s[1..]))
      case '/' => Some(('/', s[1..]))
      case 'b' => Some((8 as char, s[1..]))
      case 't' => Some((9 as char, s[1..]))
      case 'n' => Some((10 as char, s[1..]))
      case 'f' => Some((12 as char, s[1..]))
      case 'r' => Some((13 as char, s[1..]))
      case 'u' =>
        if |s| < 5 then None
        else (match (HexValue(s[1]), HexValue(s[2]), HexValue(s[3]), HexValue(s[4]))
          case (Some(a), Some(b), Some(c), Some(d)) =>
            var n := 0x1000 * a + 0x100 * b + 0x10 * c + d;
            if 0xD800 <= n < 0xE000 then None else Some((n as char, s[5..]))
          case _ => None)
      case _ => None
  }

  /** The rest of a string literal, after its opening quote. */
  function ReadString(s: string): (r: Option<(string, string)>)
    ensures r.Some? ==> |r.value.1| < |s|
    decreases |s|
  {
    if s == [] then None
    else if s[0] == '"' then Some(("", s[1..]))
    else if s[0] == '\\' then
      match ReadEscape(s[1..])
      case None => None
      case Some((c, rest)) =>
        match ReadString(rest)
        case None => None
        case Some((t, rest')) => Some(([c] + t, rest'))
    else if (s[0] as int) < 0x20 then None
    else
      match ReadString(s[1..])
      case None => None
      case Some((t, rest)) => Some(([s[0]] + t, rest))
  }

  /** Reads one value from the front of `s` and gives what is left. */
  function Read(s: string): (r: Option<(Json, string)>)
    ensures r.Some? ==> |r.value.1| < |s|
    decreases |s|, 1
  {
    if s == [] then None
    else if "null" <= s then Some((Null, s[4..]))
    else if "true" <= s then Some((Bool(true), s[4..]))
    else if "false" <= s then Some((Bool(false), s[5..]))
    else if IsDigit(s[0]) then var (n, rest) := ReadDigits(s[1..], s[0] as int - '0' as int); Some((Num(n), rest))
    else if s[0] == '-' && |s| > 1 && IsDigit(s[1]) then
      var (n, rest) := ReadDigits(s[2..], s[1] as int - '0' as int);
      var magnitude: int := n;
      Some((Num(-magnitude), rest))
    else if s[0] == '"' then
      match ReadString(s[1..])
      case None => None
      case Some((t, rest)) => Some((Str(t), rest))
    else if s[0] == '[' then
      if |s| > 1 && s[1] == ']' then Some((Arr([]), s[2..]))
      else
        match ReadItems(s[1..])
        case None => None
        case Some((items, rest)) => Some((Arr(items), rest))
    else if s[0] == '{' then
      if |s| > 1 && s[1] == '}' then Some((Obj([]), s[2..]))
      else
        match ReadMembers(s[1..])
        case None => None
        case Some((ms, rest)) => Some((Obj(ms), rest))
    else None
  }

  /** One or more values separated by commas, and the closing bracket. */
  function ReadItems(s: string): (r: Option<(seq<Json>, string)>)
    ensures r.Some? ==> |r.value.1| < |s|
    decreases |s|, 2
  {
    match Read(s)
    case None => None
    case Some((v, rest)) =>
      if rest == [] then None
      else if rest[0] == ']' then Some(([v], rest[1..]))
      else if rest[0] != ',' then None
      else
        match ReadItems(rest[1..])
        case None => None
        case Some((vs, rest')) => Some(([v] + vs, rest'))
  }

  /** One or more `"key":value` separated by commas, and the closing brace. */
  function ReadMembers(s: string): (r: Option<(seq<Member>, string)>)
    ensures r.Some? ==> |r.value.1| < |s|
    decreases |s|, 2
  {
    if s == [] || s[0] != '"' then None
    else match ReadString(s[1..])
      case None => None
      case Some((key, after)) =>
        if after == [] || after[0] != ':' then None
        else match Read(after[1..])
          case None => None
          case Some((v, rest)) =>
            if rest == [] then None
            else if rest[0] == '}' then Some(([Member(key, v)], rest[1..]))
            else if rest[0] != ',' then None
            else match ReadMembers(rest[1..])
              case None => None
              case Some((ms, rest')) => Some(([Member(key, v)] + ms, rest'))
  }

  // ---------------------------------------------------------------- the printer, in front of a text

  /** The text of `v`, in the key order it has, in front of `rest`. */
  ghost function Onto(v: Json, rest: string): string {
    match v
    case Null => "null" + rest
    case Bool(b) => (if b then "true" else "false") + rest
    case Num(n) => NumberText(n) + rest
    case Str(s) => Quote(s) + rest
    case Arr(items) => "[" + ItemsOnto(items, "]" + rest)
    case Obj(ms) => "{" + MembersOnto(ms, "}" + rest)
  }

  ghost function ItemsOnto(items: seq<Json>, rest: string): string {
    if items == [] then rest
    else Onto(items[0], if |items| == 1 then rest else "," + ItemsOnto(items[1..], rest))
  }

  ghost function MembersOnto(ms: seq<Member>, rest: string): string {
    if ms == [] then rest
    else Quote(ms[0].key) + ":" + Onto(ms[0].val, if |ms| == 1 then rest else "," + MembersOnto(ms[1..], rest))
  }

  lemma {:induction false} OntoAppend(v: Json, a: string, b: string)
    ensures Onto(v, a) + b == Onto(v, a + b)
    decreases v
  {
    match v
    case Null => Associate("null", a, b);
    case Bool(t) => Associate(if t then "true" else "false", a, b);
    case Num(n) => Associate(NumberText(n), a, b);
    case Str(s) => Associate(Quote(s), a, b);
    case Arr(items) =>
      Associate("]", a, b);
      Associate("[", ItemsOnto(items, "]" + a), b);
      ItemsOntoAppend(items, "]" + a, b);
    case Obj(ms) =>
      Associate("}", a, b);
      Associate("{", MembersOnto(ms, "}" + a), b);
      MembersOntoAppend(ms, "}" + a, b);
  }

  lemma {:induction false} ItemsOntoAppend(items: seq<Json>, a: string, b: string)
    ensures ItemsOnto(items, a) + b == ItemsOnto(items, a + b)
    decreases items
  {
    if items != [] {
      if |items| == 1 {
        OntoAppend(items[0], a, b);
      } else {
        OntoAppend(items[0], "," + ItemsOnto(items[1..], a), b);
        ItemsOntoAppend(items[1..], a, b);
        Associate(",", ItemsOnto(items[1..], a), b);
      }
    }
  }

  lemma {:induction false} MembersOntoAppend(ms: seq<Member>, a: string, b: string)
    ensures MembersOnto(ms, a) + b == MembersOnto(ms, a + b)
    decreases ms
  {
    if ms != [] {
      var front := Quote(ms[0].key) + ":";
      var x := if |ms| == 1 then a else "," + MembersOnto(ms[1..], a);
      OntoAppend(ms[0].val, x, b);
      if |ms| > 1 {
        MembersOntoAppend(ms[1..], a, b);
        Associate(",", MembersOnto(ms[1..], a), b);
      }
      Associate(front, Onto(ms[0].val, x), b);
    }
  }

  // ---------------------------------------------------------------- the printer prints Canon(v) in order

  ghost function MemberEntry(m: Member): Entry { Entry(m.key, Onto(m.val, "")) }

  lemma {:induction false} StringifyIsOnto(v: Json)
    ensures Stringify(v) == Onto(Canon(v), "")
    decreases v
  {
    match v
    case Arr(items) =>
      ItemTextsOnto(items, "]");
      ArrayIsOnto(items);
    case Obj(ms) =>
      EntriesOfMembers(ms);
      ObjectIsOnto(ms);
    case _ =>
  }

  lemma ArrayIsOnto(items: seq<Json>)
    requires Join(ItemTexts(items)) + "]" == ItemsOnto(CanonItems(items), "]")
    ensures Stringify(Arr(items)) == Onto(Canon(Arr(items)), "")
  {
    hide Join, ItemTexts, ItemsOnto, CanonItems;
    calc {
      Stringify(Arr(items));
      "[" + Join(ItemTexts(items)) + "]";
      "[" + (Join(ItemTexts(items)) + "]");
      "[" + ItemsOnto(CanonItems(items), "]");
      { assert "]" + "" == "]"; }
      Onto(Canon(Arr(items)), "");
    }
  }

  lemma ObjectText(ms: seq<Member>)
    requires MemberEntries(ms) == Map(CanonMembers(ms), MemberEntry)
    ensures Stringify(Obj(ms)) == "{" + Join(Map(Map(Sort(CanonMembers(ms), KeyLess), MemberEntry), EntryText)) + "}"
  {
    SortMap(CanonMembers(ms), MemberEntry, KeyLess, EntryLess);
    hide Join, CanonMembers, MemberEntries, Sort, StringLess, EntryText, MemberEntry;
  }

  lemma ObjectIsOnto(ms: seq<Member>)
    requires MemberEntries(ms) == Map(CanonMembers(ms), MemberEntry)
    ensures Stringify(Obj(ms)) == Onto(Canon(Obj(ms)), "")
  {
    ObjectText(ms);
    var sorted := Sort(CanonMembers(ms), KeyLess);
    var texts := Map(Map(sorted, MemberEntry), EntryText);
    MemberTextsOnto(sorted, "}");
    assert Canon(Obj(ms)) == Obj(sorted);
    hide Join, MembersOnto, CanonMembers, MemberEntries, Sort, EntryText, MemberEntry, Map, Stringify, Canon;
    assert "}" + "" == "}";
    assert "{" + Join(texts) + "}" == "{" + (Join(texts) + "}");
  }

  lemma {:induction false} EntriesOfMembers(ms: seq<Member>)
    ensures MemberEntries(ms) == Map(CanonMembers(ms), MemberEntry)
    decreases ms
  {
    if ms != [] {
      StringifyIsOnto(ms[0].val);
      EntriesOfMembers(ms[1..]);
      MapCons(CanonMembers(ms), MemberEntry);
      assert CanonMembers(ms)[1..] == CanonMembers(ms[1..]);
    }
  }

  lemma {:induction false} ItemTextsOnto(items: seq<Json>, rest: string)
    ensures Join(ItemTexts(items)) + rest == ItemsOnto(CanonItems(items), rest)
    decreases items, 0
  {
    if items != [] {
      var cs, tail := CanonItems(items), ItemTexts(items[1..]);
      StringifyIsOnto(items[0]);
      assert cs[1..] == CanonItems(items[1..]) && ItemTexts(items)[1..] == tail && |tail| == |items| - 1;
      if |items| == 1 {
        OntoAppend(cs[0], "", rest);
        assert "" + rest == rest;
      } else {
        ItemTextsOnto(items[1..], rest);
        OntoAppend(cs[0], "", "," + (Join(tail) + rest));
        var more := "," + (Join(tail) + rest);
        assert "" + more == more;
        Associate(Stringify(items[0]) + ",", Join(tail), rest);
        Associate(Stringify(items[0]), ",", Join(tail) + rest);
      }
    }
  }

  lemma {:induction false} MemberTextsOnto(ms: seq<Member>, rest: string)
    ensures Join(Map(Map(ms, MemberEntry), EntryText)) + rest == MembersOnto(ms, rest)
    decreases |ms|
  {
    var texts := Map(Map(ms, MemberEntry), EntryText);
    if ms != [] {
      assert texts[0] == EntryText(MemberEntry(ms[0]));
      if |ms| == 1 {
        MemberTextOnto(ms[0], rest);
      } else {
        var tail := Join(texts[1..]);
        MapCons(ms, MemberEntry);
        MapCons(Map(ms, MemberEntry), EntryText);
        MemberTextsOnto(ms[1..], rest);
        MemberTextOnto(ms[0], "," + (tail + rest));
        Associate(texts[0] + ",", tail, rest);
        Associate(texts[0], ",", tail + rest);
      }
    }
  }

  lemma MemberTextOnto(m: Member, rest: string)
    ensures EntryText(MemberEntry(m)) + rest == Quote(m.key) + ":" + Onto(m.val, rest)
  {
    OntoAppend(m.val, "", rest);
    assert "" + rest == rest;
    Associate(Quote(m.key) + ":", Onto(m.val, ""), rest);
  }
}
