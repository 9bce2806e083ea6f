/**
 Match-and-replace rules (packages/integrations/intercept-gateway/src/match-replace.ts):
 rewriting one field or one argument of an action, and the laws of reading and writing a
 dotted path.
 */
module MatchReplace {
  import opened Prelude
  import opened Sorting
  import opened CanonicalJson
  import opened AuditEvents
  import opened Globs
  import opened PolicyEngine

  datatype ReplaceField = ReplaceTool | ReplaceAction | ReplaceTarget | ReplaceArgs

  datatype MatchMode = Literal | Wildcard

  /** `matchValue` and `replacement` are strings, numbers or booleans. */
  datatype MatchReplaceRule = MatchReplaceRule(
    id: string, enabled: bool, field: ReplaceField, argPath: Option<string>,
    matchValue: Json, replacement: Json, mode: MatchMode)

  predicate IsLeaf(v: Json) { v.Str? || v.Num? || v.Bool? }

  predicate ValidReplaceRule(r: MatchReplaceRule) { IsLeaf(r.matchValue) && IsLeaf(r.replacement) }

  /** What `String.prototype.trim` removes (section 22.1.3.32 of ECMA-262). */
  predicate IsSpace(c: char) {
    var n := c as int;
    9 <= n <= 13 || n == 0x20 || n == 0xA0 || n == 0x1680 || 0x2000 <= n <= 0x200A || n == 0x2028 || n == 0x2029
    || n == 0x202F || n == 0x205F || n == 0x3000 || n == 0xFEFF
  }

  /** `s.trim().length === 0` */
  predicate IsBlank(s: string) { forall i | 0 <= i < |s| :: IsSpace(s[i]) }

  /** `s.split(".").filter((part) => part.length > 0)`, with the part read so far. */
  function PathParts(s: string, part: string): seq<string> {
    if s == [] then Part(part)
    else if s[0] == '.' then Part(part) + PathParts(s[1..], "")
    else PathParts(s[1..], part + [s[0]])
  }

  function Part(part: string): seq<string> { if part == "" then [] else [part] }

  predicate ValueMatches(current: Option<Json>, expected: Json, mode: MatchMode) {
    if mode == Literal then StrictlyEqual(current, expected)
    else current.Some? && current.value.Str? && expected.Str? && WildcardMatch(expected.s, current.value.s)
  }

  // ---------------------------------------------------------------- writing a path

  /** `record[key] = v`: in place when present, else at the end. */
  function SetMember(ms: seq<Member>, key: string, v: Json): seq<Member> {
    if ms == [] then [Member(key, v)]
    else if ms[0].key == key then [Member(key, v)] + ms[1..]
    else [ms[0]] + SetMember(ms[1..], key, v)
  }

  /** The object below `key` that `writePath` steps into: a new one unless one is there. */
  function Below(ms: seq<Member>, key: string): seq<Member> {
    var next := Get(ms, key);
    if next.Some? && next.value.Obj? then next.value.members else []
  }

  function WritePath(ms: seq<Member>, path: seq<string>, v: Json): seq<Member>
    requires path != []
    decreases |path|
  {
    SetMember(ms, path[0], if |path| == 1 then v else Obj(WritePath(Below(ms, path[0]), path[1..], v)))
  }

  /** `readPath`, with its moving cursor. */
  method ReadPathLoop(value: Option<Json>, path: seq<string>) returns (r: Option<Json>)
    ensures r == ReadPath(value, path)
  {
    var cursor := value;
    for i := 0 to |path|
      invariant ReadPath(cursor, path[i..]) == ReadPath(value, path)
    {
      assert path[i..][1..] == path[i + 1..];
      if cursor.None? || !cursor.value.Obj? { return None; }
      cursor := Get(cursor.value.members, path[i]);
    }
    r := cursor;
  }

  // ---------------------------------------------------------------- applying rules

  datatype ReplaceError = NotAString(ruleId: string) | NeedsArgPath(ruleId: string) | InvalidResult

  /** `interceptedActionContract.parse` on the rewritten action. */
  function Parse(a: Action): Result<Option<Action>, ReplaceError> {
    if ValidAction(a) then Ok(Some(a)) else Err(InvalidResult)
  }

  function CurrentText(a: Action, field: ReplaceField): Option<string> {
    match field
    case ReplaceTool => Some(a.tool)
    case ReplaceAction => Some(a.action)
    case ReplaceTarget => a.target
    case ReplaceArgs => None
  }

  function WithText(a: Action, field: ReplaceField, text: string): Action {
    match field
    case ReplaceTool => a.(tool := text)
    case ReplaceAction => a.(action := text)
    case ReplaceTarget => a.(target := Some(text))
    case ReplaceArgs => a
  }

  function ArgPath(r: MatchReplaceRule): seq<string> {
    if r.argPath.Some? then PathParts(r.argPath.value, "") else []
  }

  /** `applyRule`: `None` when the same action object comes back. */
  function ApplyRule(a: Action, r: MatchReplaceRule): Result<Option<Action>, ReplaceError> {
    if r.field != ReplaceArgs then
      var current := CurrentText(a, r.field);
      if current.None? || !ValueMatches(Some(Str(current.value)), r.matchValue, r.mode) then Ok(None)
      else if !r.replacement.Str? then Err(NotAString(r.id))
      else Parse(WithText(a, r.field, r.replacement.s))
    else if r.argPath.None? || IsBlank(r.argPath.value) then Err(NeedsArgPath(r.id))
    else if !ValueMatches(ReadPath(Some(Obj(a.args)), ArgPath(r)), r.matchValue, r.mode) then Ok(None)
    else
      EmptyPathNeverMatches(a, r);
      Parse(a.(args := WritePath(a.args, ArgPath(r), r.replacement)))
  }

  datatype Replaced = Replaced(action: Action, appliedRuleIds: seq<string>)

  function ApplyAll(done: Replaced, rules: seq<MatchReplaceRule>): Result<Replaced, ReplaceError>
    decreases |rules|
  {
    if rules == [] then Ok(done)
    else if !rules[0].enabled then ApplyAll(done, rules[1..])
    else
      var next := ApplyRule(done.action, rules[0]);
      if next.Err? then Err(next.error)
      else ApplyAll(if next.value.None? then done
                    else Replaced(next.value.value, done.appliedRuleIds + [rules[0].id]), rules[1..])
  }

  function ApplyMatchReplaceRules(a: Action, rules: seq<MatchReplaceRule>): Result<Replaced, ReplaceError> {
    if !ValidAction(a) then Err(InvalidResult) else ApplyAll(Replaced(a, []), rules)
  }

  method ApplyMatchReplaceRulesLoop(input: Action, rules: seq<MatchReplaceRule>) returns (r: Result<Replaced, ReplaceError>)
    ensures r == ApplyMatchReplaceRules(input, rules)
  {
    hide ApplyRule, ValidAction;
    if !ValidAction(input) { return Err(InvalidResult); }
    var action := input;
    var appliedRuleIds: seq<string> := [];
    for i := 0 to |rules|
      invariant ApplyAll(Replaced(action, appliedRuleIds), rules[i..]) == ApplyMatchReplaceRules(input, rules)
    {
      assert rules[i..][1..] == rules[i + 1..];
      if rules[i].enabled {
        var next := ApplyRule(action, rules[i]);
        if next.Err? { return Err(next.error); }
        if next.value.Some? {
          action := next.value.value;
          appliedRuleIds := appliedRuleIds + [rules[i].id];
        }
      }
    }
    r := Ok(Replaced(action, appliedRuleIds));
  }

  // ---------------------------------------------------------------- members

  lemma {:induction false} GetSet(ms: seq<Member>, key: string, v: Json, other: string)
    ensures Get(SetMember(ms, key, v), other) == if other == key then Some(v) else Get(ms, other)
  {
    if ms != [] && ms[0].key != key {
      GetSet(ms[1..], key, v, other);
      assert SetMember(ms, key, v)[1..] == SetMember(ms[1..], key, v);
    } else if ms != [] {
      assert SetMember(ms, key, v)[1..] == ms[1..];
    }
  }

  lemma {:induction false} SetTwice(ms: seq<Member>, key: string, v: Json, w: Json)
    ensures SetMember(SetMember(ms, key, v), key, w) == SetMember(ms, key, w)
  {
    if ms != [] && ms[0].key != key {
      SetTwice(ms[1..], key, v, w);
      assert SetMember(ms, key, v)[1..] == SetMember(ms[1..], key, v);
    }
  }

  lemma {:induction false} SetCommutes(ms: seq<Member>, key: string, v: Json, other: string, w: Json)
    requires key != other && Get(ms, key).Some? && Get(ms, other).Some?
    ensures SetMember(SetMember(ms, key, v), other, w) == SetMember(SetMember(ms, other, w), key, v)
  {
    var x, y := SetMember(ms, key, v), SetMember(ms, other, w);
    if ms[0].key == key {
      assert x[1..] == ms[1..] && y[1..] == SetMember(ms[1..], other, w);
    } else if ms[0].key == other {
      assert y[1..] == ms[1..] && x[1..] == SetMember(ms[1..], key, v);
    } else {
      SetCommutes(ms[1..], key, v, other, w);
      assert x[1..] == SetMember(ms[1..], key, v) && y[1..] == SetMember(ms[1..], other, w);
    }
  }

  // ---------------------------------------------------------------- the path laws

  function At(ms: seq<Member>, path: seq<string>): Option<Json> { ReadPath(Some(Obj(ms)), path) }

  lemma AtStep(ms: seq<Member>, path: seq<string>)
    requires path != []
    ensures var next := Get(ms, path[0]);
      At(ms, path) == if |path| == 1 then next
                      else if next.Some? && next.value.Obj? then At(Below(ms, path[0]), path[1..]) else None
  {
    var next := Get(ms, path[0]);
    assert At(ms, path) == ReadPath(next, path[1..]);
    if |path| == 1 { assert path[1..] == []; } else { assert path[1..] != []; }
    if next.Some? && next.value.Obj? { assert next == Some(Obj(Below(ms, path[0]))); }
  }

  lemma EmptyPathNeverMatches(a: Action, r: MatchReplaceRule)
    ensures ValueMatches(ReadPath(Some(Obj(a.args)), ArgPath(r)), r.matchValue, r.mode) ==> ArgPath(r) != []
  {
  }

  /** Neither path is a prefix of the other. */
  predicate Independent(p: seq<string>, q: seq<string>) { !(p <= q) && !(q <= p) }

  /** What was written is read back. */
  lemma {:induction false} ReadBack(ms: seq<Member>, p: seq<string>, v: Json)
    requires p != []
    ensures At(WritePath(ms, p, v), p) == Some(v)
    decreases |p|
  {
    var w := WritePath(ms, p, v);
    GetSet(ms, p[0], if |p| == 1 then v else Obj(WritePath(Below(ms, p[0]), p[1..], v)), p[0]);
    AtStep(w, p);
    if |p| > 1 { ReadBack(Below(ms, p[0]), p[1..], v); }
  }

  /** Every path that is neither a prefix nor an extension reads as before. */
  lemma {:induction false} ReadElsewhere(ms: seq<Member>, p: seq<string>, v: Json, q: seq<string>)
    requires p != [] && Independent(p, q)
    ensures At(WritePath(ms, p, v), q) == At(ms, q)
    decreases |p|
  {
    var w := WritePath(ms, p, v);
    GetSet(ms, p[0], if |p| == 1 then v else Obj(WritePath(Below(ms, p[0]), p[1..], v)), q[0]);
    AtStep(w, q);
    AtStep(ms, q);
    if p[0] == q[0] {
      assert p == [p[0]] + p[1..] && q == [q[0]] + q[1..];
      assert |p| > 1 && |q| > 1;
      ReadElsewhere(Below(ms, p[0]), p[1..], v, q[1..]);
      NothingBelow(q[1..]);
    }
  }

  lemma NothingBelow(q: seq<string>)
    requires q != []
    ensures At([], q) == None
  {
    AtStep([], q);
  }

  /** When the path reads as a leaf, every object on the way is there already. */
  lemma {:induction false} ObjectsOnTheWay(ms: seq<Member>, p: seq<string>, k: nat)
    requires k < |p| && At(ms, p).Some?
    ensures At(ms, p[..k]).Some? && At(ms, p[..k]).value.Obj?
    decreases |p|
  {
    if k > 0 {
      AtStep(ms, p);
      AtStep(ms, p[..k]);
      assert p[1..][..k - 1] == p[..k][1..];
      ObjectsOnTheWay(Below(ms, p[0]), p[1..], k - 1);
    }
  }

  /** Replacing a leaf by a leaf makes no path appear or disappear. */
  lemma {:induction false} SamePaths(ms: seq<Member>, p: seq<string>, v: Json, q: seq<string>)
    requires p != [] && At(ms, p).Some? && IsLeaf(At(ms, p).value) && IsLeaf(v)
    ensures At(WritePath(ms, p, v), q).Some? <==> At(ms, q).Some?
    decreases |p|
  {
    if q != [] {
      var w := WritePath(ms, p, v);
      GetSet(ms, p[0], if |p| == 1 then v else Obj(WritePath(Below(ms, p[0]), p[1..], v)), q[0]);
      AtStep(w, q);
      AtStep(ms, q);
      AtStep(ms, p);
      if p[0] == q[0] && |p| > 1 { SamePaths(Below(ms, p[0]), p[1..], v, q[1..]); }
    }
  }

  /** What a write along `p` stores under its first key. */
  function Stored(ms: seq<Member>, p: seq<string>, v: Json): Json
    requires p != []
  {
    if |p| == 1 then v else Obj(WritePath(Below(ms, p[0]), p[1..], v))
  }

  lemma WritesApart(ms: seq<Member>, p: seq<string>, v: Json, q: seq<string>, w: Json)
    requires p != [] && q != [] && p[0] != q[0] && At(ms, p).Some? && At(ms, q).Some?
    ensures WritePath(WritePath(ms, p, v), q, w) == WritePath(WritePath(ms, q, w), p, v)
  {
    AtStep(ms, p);
    AtStep(ms, q);
    GetSet(ms, p[0], Stored(ms, p, v), q[0]);
    GetSet(ms, q[0], Stored(ms, q, w), p[0]);
    SetCommutes(ms, p[0], Stored(ms, p, v), q[0], Stored(ms, q, w));
  }

  /** Two writes under one first key are one write of what they make of the value below it. */
  lemma WritesUnder(ms: seq<Member>, p: seq<string>, v: Json, q: seq<string>, w: Json)
    requires |p| > 1 && |q| > 1 && p[0] == q[0] && Get(ms, p[0]).Some?
    ensures WritePath(WritePath(ms, p, v), q, w)
            == SetMember(ms, p[0], Obj(WritePath(WritePath(Below(ms, p[0]), p[1..], v), q[1..], w)))
  {
    var below := Below(ms, p[0]);
    GetSet(ms, p[0], Stored(ms, p, v), q[0]);
    SetTwice(ms, p[0], Stored(ms, p, v), Obj(WritePath(WritePath(below, p[1..], v), q[1..], w)));
  }

  /** Writes to independent paths that both exist commute. */
  lemma {:induction false} WritesCommute(ms: seq<Member>, p: seq<string>, v: Json, q: seq<string>, w: Json)
    requires p != [] && q != [] && Independent(p, q) && At(ms, p).Some? && At(ms, q).Some?
    ensures WritePath(WritePath(ms, p, v), q, w) == WritePath(WritePath(ms, q, w), p, v)
    decreases |p|
  {
    if p[0] != q[0] {
      WritesApart(ms, p, v, q, w);
    } else {
      hide At, WritePath, SetMember;
      assert p == [p[0]] + p[1..] && q == [q[0]] + q[1..];
      assert |p| > 1 && |q| > 1;
      AtStep(ms, p);
      AtStep(ms, q);
      WritesCommute(Below(ms, p[0]), p[1..], v, q[1..], w);
      WritesUnder(ms, p, v, q, w);
      WritesUnder(ms, q, w, p, v);
    }
  }

  // ---------------------------------------------------------------- the laws of rules

  /** A rule only ever writes where a leaf is, and then reads back its replacement. */
  lemma RuleWritesLeaf(a: Action, r: MatchReplaceRule)
    requires r.field == ReplaceArgs && ValidReplaceRule(r) && ApplyRule(a, r).Ok? && ApplyRule(a, r).value.Some?
    ensures var p := ArgPath(r);
      var a' := ApplyRule(a, r).value.value;
      && p != []
      && At(a.args, p).Some? && IsLeaf(At(a.args, p).value)
      && a' == a.(args := WritePath(a.args, p, r.replacement))
      && At(a'.args, p) == Some(r.replacement)
      && (forall q :: At(a'.args, q).Some? <==> At(a.args, q).Some?)
      && (forall q | Independent(p, q) :: At(a'.args, q) == At(a.args, q))
  {
    EmptyPathNeverMatches(a, r);
    hide WildcardMatch, ValidAction, IsBlank, PathParts;
    var p := ArgPath(r);
    ReadBack(a.args, p, r.replacement);
    forall q ensures At(WritePath(a.args, p, r.replacement), q).Some? <==> At(a.args, q).Some? {
      SamePaths(a.args, p, r.replacement, q);
    }
    forall q | Independent(p, q) ensures At(WritePath(a.args, p, r.replacement), q) == At(a.args, q) {
      ReadElsewhere(a.args, p, r.replacement, q);
    }
  }

  /** Two argument rules on independent paths can be applied in either order. */
  lemma RulesCommute(a: Action, r: MatchReplaceRule, s: MatchReplaceRule)
    requires ValidAction(a) && r.field == ReplaceArgs && s.field == ReplaceArgs
    requires ApplyRule(a, r).Ok? && ApplyRule(a, s).Ok? && Independent(ArgPath(r), ArgPath(s))
    ensures var rs, sr := ApplyMatchReplaceRules(a, [r, s]), ApplyMatchReplaceRules(a, [s, r]);
      && rs.Ok? && sr.Ok? && rs.value.action == sr.value.action
      && multiset(rs.value.appliedRuleIds) == multiset(sr.value.appliedRuleIds)
  {
    EmptyPathNeverMatches(a, r);
    EmptyPathNeverMatches(a, s);
    var p, q := ArgPath(r), ArgPath(s);
    var x, y := ApplyRule(a, r).value, ApplyRule(a, s).value;
    if x.Some? {
      ReadElsewhere(a.args, p, r.replacement, q);
      EmptyPathNeverMatches(x.value, s);
    }
    if y.Some? {
      ReadElsewhere(a.args, q, s.replacement, p);
      EmptyPathNeverMatches(y.value, r);
    }
    if x.Some? && y.Some? { WritesCommute(a.args, p, r.replacement, q, s.replacement); }
    hide WildcardMatch, IsBlank, PathParts, WritePath, IsTimestamp;
    TwoRules(a, r, s);
    TwoRules(a, s, r);
  }

  function Applied(done: Replaced, r: MatchReplaceRule): Result<Replaced, ReplaceError> {
    var next := if r.enabled then ApplyRule(done.action, r) else Ok(None);
    if next.Err? then Err(next.error)
    else if next.value.None? then Ok(done)
    else Ok(Replaced(next.value.value, done.appliedRuleIds + [r.id]))
  }

  lemma OneMore(done: Replaced, rules: seq<MatchReplaceRule>)
    requires rules != []
    ensures ApplyAll(done, rules) ==
      var first := Applied(done, rules[0]);
      if first.Err? then first else ApplyAll(first.value, rules[1..])
  {
    hide ApplyRule;
  }

  /** Unfolding a run of two rules. */
  lemma TwoRules(a: Action, r: MatchReplaceRule, s: MatchReplaceRule)
    requires ValidAction(a)
    ensures ApplyMatchReplaceRules(a, [r, s]) ==
      var first := Applied(Replaced(a, []), r);
      if first.Err? then first else Applied(first.value, s)
  {
    hide ApplyRule, ValidAction, Applied;
    assert [r, s][1..] == [s] && [s][1..] == [];
    OneMore(Replaced(a, []), [r, s]);
    var first := Applied(Replaced(a, []), r);
    if first.Ok? { OneMore(first.value, [s]); }
  }

  // ---------------------------------------------------------------- when a rule applies

  /** What the rule looks at. */
  function LookedAt(a: Action, r: MatchReplaceRule): Option<Json> {
    match r.field
    case ReplaceTool => Some(Str(a.tool))
    case ReplaceAction => Some(Str(a.action))
    case ReplaceTarget => if a.target.Some? then Some(Str(a.target.value)) else None
    case ReplaceArgs => At(a.args, ArgPath(r))
  }

  /** It is the value to match, or a text that the value matches as a glob. */
  ghost predicate Hits(a: Action, r: MatchReplaceRule) {
    var v := LookedAt(a, r);
    if r.mode == Literal then v == Some(r.matchValue)
    else v.Some? && v.value.Str? && r.matchValue.Str? && GlobMatch(r.matchValue.s, v.value.s)
  }

  /** The action with the replacement where the rule looks, and everything else as it was. */
  predicate Replaces(a: Action, a': Action, r: MatchReplaceRule) {
    match r.field
    case ReplaceTool => Str(a'.tool) == r.replacement && a' == a.(tool := a'.tool)
    case ReplaceAction => Str(a'.action) == r.replacement && a' == a.(action := a'.action)
    case ReplaceTarget => a'.target.Some? && Str(a'.target.value) == r.replacement && a' == a.(target := a'.target)
    case ReplaceArgs => At(a'.args, ArgPath(r)) == Some(r.replacement) && a' == a.(args := a'.args)
  }

  /** An argument rule without a path is an error; otherwise a rule applies exactly where it hits, and then replaces. */
  lemma RuleAppliesIff(a: Action, r: MatchReplaceRule)
    requires ValidReplaceRule(r)
    ensures var lost := r.field == ReplaceArgs && (r.argPath.None? || IsBlank(r.argPath.value));
      var result := ApplyRule(a, r);
      && (lost ==> result == Err(NeedsArgPath(r.id)))
      && (!lost ==> (result == Ok(None) <==> !Hits(a, r)))
      && (result.Ok? && result.value.Some? ==> ValidAction(result.value.value) && Replaces(a, result.value.value, r))
      && (!lost && Hits(a, r) && r.field != ReplaceArgs && !r.replacement.Str? ==> result == Err(NotAString(r.id)))
  {
    EmptyPathNeverMatches(a, r);
    hide ValidAction, IsBlank, PathParts, WildcardMatch, GlobMatch;
    forall p, s ensures WildcardMatch(p, s) <==> GlobMatch(p, s) { WildcardMatchIsGlob(p, s); }
    if r.field == ReplaceArgs && ArgPath(r) != [] { ReadBack(a.args, ArgPath(r), r.replacement); }
    hide ReadPath, WritePath;
  }

  /** The rule is switched on and hits the action. */
  ghost predicate Takes(a: Action, r: MatchReplaceRule) { r.enabled && Hits(a, r) }

  /** From each action to the next by the rule between them, if it takes; `at` are the places of those that do. */
  ghost predicate Rewriting(rules: seq<MatchReplaceRule>, actions: seq<Action>, at: seq<nat>) {
    && |actions| == |rules| + 1
    && (forall i | 0 <= i < |rules| :: Rewrites(actions[i], actions[i + 1], rules[i]))
    && TakesAt(rules, actions, at)
  }

  ghost predicate Rewrites(a: Action, a': Action, r: MatchReplaceRule) {
    if Takes(a, r) then Replaces(a, a', r) else a' == a
  }

  ghost predicate TakesAt(rules: seq<MatchReplaceRule>, actions: seq<Action>, at: seq<nat>)
    requires |actions| == |rules| + 1
  {
    && (forall i: nat :: i in at <==> i < |rules| && Takes(actions[i], rules[i]))
    && (forall k, l | 0 <= k < l < |at| :: at[k] < at[l])
  }

  ghost predicate IdsAt(ids: seq<string>, rules: seq<MatchReplaceRule>, at: seq<nat>) {
    |ids| == |at| && forall k | 0 <= k < |at| :: at[k] < |rules| && ids[k] == rules[at[k]].id
  }

  function Shifted(takes: bool, places: seq<nat>): seq<nat> {
    (if takes then [0] else []) + Map(places, (k: nat) => k + 1)
  }

  /** The rules rewrite the action one after the other, each what the ones before it left, and those that took are listed in order. */
  lemma {:induction false} RulesRewrite(done: Replaced, rules: seq<MatchReplaceRule>)
    returns (actions: seq<Action>, at: seq<nat>, ids: seq<string>)
    requires ApplyAll(done, rules).Ok? && forall r | r in rules :: ValidReplaceRule(r)
    ensures Rewriting(rules, actions, at) && actions[0] == done.action && IdsAt(ids, rules, at)
    ensures ApplyAll(done, rules) == Ok(Replaced(actions[|rules|], done.appliedRuleIds + ids))
    decreases |rules|
  {
    hide ApplyRule, Hits, Replaces, ValidReplaceRule;
    if rules == [] {
      actions, at, ids := [done.action], [], [];
      assert done.appliedRuleIds + [] == done.appliedRuleIds;
    } else {
      var r := rules[0];
      RuleAppliesIff(done.action, r);
      var next := if r.enabled && ApplyRule(done.action, r).value.Some?
                  then Replaced(ApplyRule(done.action, r).value.value, done.appliedRuleIds + [r.id]) else done;
      var rest, places, more := RulesRewrite(next, rules[1..]);
      hide Rewriting, IdsAt;
      RewritingStep(rules, done.action, rest, places);
      IdsStep(rules, Takes(done.action, r), places, more);
      actions, at := [done.action] + rest, Shifted(Takes(done.action, r), places);
      ids := (if Takes(done.action, r) then [r.id] else []) + more;
      assert done.appliedRuleIds + [r.id] + more == done.appliedRuleIds + ([r.id] + more);
      assert [] + more == more;
    }
  }

  lemma IdsStep(rules: seq<MatchReplaceRule>, takes: bool, places: seq<nat>, more: seq<string>)
    requires rules != [] && IdsAt(more, rules[1..], places)
    ensures IdsAt((if takes then [rules[0].id] else []) + more, rules, Shifted(takes, places))
  {
  }

  lemma RewritingStep(rules: seq<MatchReplaceRule>, first: Action, rest: seq<Action>, places: seq<nat>)
    requires rules != [] && Rewriting(rules[1..], rest, places) && Rewrites(first, rest[0], rules[0])
    ensures Rewriting(rules, [first] + rest, Shifted(Takes(first, rules[0]), places))
  {
    TakesAtStep(rules, first, rest, places);
    hide Takes, Rewrites, TakesAt, Shifted;
    var actions := [first] + rest;
    forall i | 0 <= i < |rules| ensures Rewrites(actions[i], actions[i + 1], rules[i]) {
      if i > 0 { assert rules[1..][i - 1] == rules[i] && actions[i] == rest[i - 1]; }
    }
  }

  lemma ShiftedMembers(takes: bool, places: seq<nat>, i: nat)
    ensures i in Shifted(takes, places) <==> if i == 0 then takes else i - 1 in places
  {
    var later := Map(places, (k: nat) => k + 1);
    if k :| 0 <= k < |later| && later[k] == i { assert places[k] == i - 1 && places[k] in places; }
    if k :| 0 <= k < |places| && places[k] == i - 1 { assert later[k] == i && later[k] in later; }
  }

  lemma TakesAtStep(rules: seq<MatchReplaceRule>, first: Action, rest: seq<Action>, places: seq<nat>)
    requires rules != [] && |rest| == |rules| && TakesAt(rules[1..], rest, places)
    ensures TakesAt(rules, [first] + rest, Shifted(Takes(first, rules[0]), places))
  {
    hide Takes;
    var actions, at := [first] + rest, Shifted(Takes(first, rules[0]), places);
    forall k, l | 0 <= k < l < |at| ensures at[k] < at[l] { }
    hide Shifted;
    forall i: nat ensures i in at <==> i < |rules| && Takes(actions[i], rules[i]) {
      ShiftedMembers(Takes(first, rules[0]), places, i);
      if 0 < i < |rules| { assert rules[1..][i - 1] == rules[i] && actions[i] == rest[i - 1]; }
    }
  }

  lemma {:induction false} PartsOfJoined(s: string, t: string, part: string)
    ensures PathParts(s + "." + t, part) == PathParts(s, part) + PathParts(t, "")
  {
    var whole := s + "." + t;
    if s == [] {
      assert whole == "." + t && whole[1..] == t;
    } else {
      assert whole[1..] == s[1..] + "." + t;
      PartsOfJoined(s[1..], t, if s[0] == '.' then "" else part + [s[0]]);
      if s[0] == '.' { Associate(Part(part), PathParts(s[1..], ""), PathParts(t, "")); }
    }
  }

  lemma {:induction false} PartWithoutDots(s: string, part: string)
    requires '.' !in s
    ensures PathParts(s, part) == Part(part + s)
  {
    if s == [] {
      assert part + s == part;
    } else {
      assert s[0] in s;
      PartWithoutDots(s[1..], part + [s[0]]);
      assert part + [s[0]] + s[1..] == part + s;
    }
  }

  /** A dotted path is cut at its dots, and empty parts are dropped. */
  lemma PathCuts(s: string, t: string)
    ensures PathParts(s + "." + t, "") == PathParts(s, "") + PathParts(t, "")
    ensures '.' !in s ==> PathParts(s, "") == if s == "" then [] else [s]
  {
    PartsOfJoined(s, t, "");
    if '.' !in s {
      PartWithoutDots(s, "");
      assert "" + s == s;
    }
  }
}
