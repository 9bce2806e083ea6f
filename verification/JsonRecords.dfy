/** JSON objects written as lists of optional properties, and read back key by key. */
module JsonRecords {
  import opened Prelude
  import opened CanonicalJson
  import opened AuditEvents

  /** A property that is left out when its value is absent. */
  datatype Property = Property(key: string, val: Option<Json>)

  function Record(ps: seq<Property>): seq<Member> {
    if ps == [] then []
    else (if ps[0].val.Some? then [Member(ps[0].key, ps[0].val.value)] else []) + Record(ps[1..])
  }

  predicate DistinctProperties(ps: seq<Property>) {
    forall i, j | 0 <= i < j < |ps| :: ps[i].key != ps[j].key
  }

  lemma {:induction false} RecordGet(ps: seq<Property>, key: string)
    requires DistinctProperties(ps)
    ensures (forall i | 0 <= i < |ps| :: ps[i].key != key) ==> Get(Record(ps), key) == None
    ensures forall i | 0 <= i < |ps| && ps[i].key == key :: Get(Record(ps), key) == ps[i].val
  {
    if ps != [] {
      RecordGet(ps[1..], key);
      var rest := Record(ps[1..]);
      if ps[0].val.Some? {
        assert Record(ps)[0].key == ps[0].key && Record(ps)[1..] == rest;
      } else {
        assert Record(ps) == rest;
      }
      forall i | 0 <= i < |ps| && ps[i].key == key ensures Get(Record(ps), key) == ps[i].val {
        if i > 0 {
          assert ps[1..][i - 1] == ps[i];
        } else if ps[0].val.None? {
          assert forall j | 0 <= j < |ps[1..]| :: ps[1..][j].key == ps[j + 1].key;
        }
      }
      if forall i | 0 <= i < |ps| :: ps[i].key != key {
        assert ps[0].key != key;
        assert forall j | 0 <= j < |ps[1..]| :: ps[1..][j].key == ps[j + 1].key;
      }
    }
  }

  /** Every property is read back under its key. */
  lemma RecordAt(ps: seq<Property>, i: nat)
    requires DistinctProperties(ps) && i < |ps|
    ensures Get(Record(ps), ps[i].key) == ps[i].val
  {
    RecordGet(ps, ps[i].key);
  }

  function OptionalText(s: Option<string>): Option<Json> { if s.Some? then Some(Str(s.value)) else None }

  // ---------------------------------------------------------------- reading properties

  /** A required string property. */
  function StringAt(ms: seq<Member>, key: string): Option<string> {
    var v := Get(ms, key);
    if v.Some? && v.value.Str? then Some(v.value.s) else None
  }

  /** An optional string property: `Some(None)` when absent, `None` when no string. */
  function MaybeStringAt(ms: seq<Member>, key: string): Option<Option<string>> {
    var v := Get(ms, key);
    if v.None? then Some(None) else if v.value.Str? then Some(Some(v.value.s)) else None
  }

  predicate AllStrings(items: seq<Json>) { forall i | 0 <= i < |items| :: items[i].Str? }

  function StringsAt(ms: seq<Member>, key: string): Option<seq<string>> {
    var v := Get(ms, key);
    if v.Some? && v.value.Arr? && AllStrings(v.value.items)
    then Some(seq(|v.value.items|, i requires 0 <= i < |v.value.items| => v.value.items[i].s))
    else None
  }

  function Members(v: Option<Json>): Option<seq<Member>> {
    if v.Some? && v.value.Obj? then Some(v.value.members) else None
  }

  lemma StringArrayTexts(ms: seq<Member>, key: string, ss: seq<string>)
    requires Get(ms, key) == Some(StringArray(ss))
    ensures StringsAt(ms, key) == Some(ss)
  {
    assert StringsAt(ms, key).value == ss;
  }
}
