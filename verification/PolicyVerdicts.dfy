/**
 What the policy engine decides (packages/policy/src/policy-engine.ts, packages/policy/src/scope.ts),
 said without the order it sorts by: which verdict comes of which rules, which rule is named, and
 what scopes and conditions mean.
 */
module PolicyVerdicts {
  import opened Prelude
  import opened Text
  import opened CanonicalJson
  import opened AuditEvents
  import opened Globs
  import opened PolicyEngine

  // ---------------------------------------------------------------- verdicts

  /** Active, matching, and no active match is more specific. */
  ghost predicate MostSpecific(a: Action, rules: seq<Rule>, r: Rule) {
    && r in rules && ActiveMatch(a, r)
    && forall q | q in rules && ActiveMatch(a, q) :: Specificity(q.scope) <= Specificity(r.scope)
  }

  ghost predicate SomeMostSpecific(a: Action, rules: seq<Rule>, verdict: Verdict) {
    exists r :: MostSpecific(a, rules, r) && r.effect.verdict == verdict
  }

  /** Among equally specific rules `q` yields to `r`: by verdict, then version, then age, then id. */
  predicate Yields(q: Rule, r: Rule) {
    var x, y := q.effect.verdict, r.effect.verdict;
    || (x == Allow && y != Allow) || (x == Ask && y == Deny)
    || (x == y && (|| q.version < r.version
                   || (q.version == r.version && (|| StringLess(q.createdAt, r.createdAt)
                                                  || (q.createdAt == r.createdAt && StringLess(r.id, q.id))))))
  }

  lemma BeforeYields(r: Rule, q: Rule)
    requires Before(r, q)
    ensures Specificity(q.scope) <= Specificity(r.scope)
    ensures Specificity(q.scope) == Specificity(r.scope) ==> Yields(q, r)
  {
    hide Specificity, StringLess;
  }

  lemma BestYields(a: Action, rules: seq<Rule>, best: Rule)
    requires IsBest(a, rules, Some(best))
    ensures MostSpecific(a, rules, best)
    ensures forall q | MostSpecific(a, rules, q) && q != best :: Yields(q, best)
  {
    hide ActiveMatch, Specificity, Before, Yields;
    forall q | q in rules && ActiveMatch(a, q) && q != best
      ensures Specificity(q.scope) <= Specificity(best.scope)
      ensures Specificity(q.scope) == Specificity(best.scope) ==> Yields(q, best)
    {
      BeforeYields(best, q);
    }
  }

  lemma BestOf(a: Action, rules: seq<Rule>, mode: Mode, scope: Option<ProxyScope>)
    requires InScope(a, scope)
    ensures var best := BestMatchingRule(a, rules);
      Decide(a, rules, mode, scope) ==
        if best.Some? then DecisionFromRule(best.value, mode)
        else if mode == Shadow then Decision(Allow, true, [], [], DefaultDeny, None, None, None)
        else Decision(Ask, false,
                      ["No active policy rule matched " + a.tool + " " + a.action + "; operator approval is required."],
                      ["Record an operator approve/disapprove verdict for this action class."], DefaultDeny, None, None, None)
  {
    hide BestMatchingRule, EvaluateScope, DecisionFromRule;
  }

  /** The decision names a rule, and reports it; in shadow mode it allows and reports what it would have said. */
  predicate Reports(d: Decision, r: Rule, mode: Mode) {
    && d.source == Policy && d.sourceRuleId == Some(r.id) && d.scopeReason.None?
    && d.verdict == (if mode == Shadow then Allow else r.effect.verdict)
    && (d.allowed <==> d.verdict == Allow)
    && d.reasons == (if mode == Shadow then [] else r.effect.reasons)
    && d.requiredBeforeSend == (if mode == Shadow then [] else r.effect.requiredBefore)
    && d.shadow == (if mode == Shadow then Some(ShadowReport(r.effect.verdict, r.id, r.effect.reasons)) else None)
  }

  /**
   Where some active rule matches, a most specific one decides, the one to which every other most
   specific one yields.
   */
  lemma DecidingRule(a: Action, rules: seq<Rule>, mode: Mode, scope: Option<ProxyScope>) returns (r: Rule)
    requires DistinctIds(rules) && InScope(a, scope) && exists q | q in rules :: ActiveMatch(a, q)
    ensures MostSpecific(a, rules, r) && forall q | MostSpecific(a, rules, q) && q != r :: Yields(q, r)
    ensures Reports(Decide(a, rules, mode, scope), r, mode)
  {
    hide BestMatchingRule, InScope, ActiveMatch, Before, Decide, MostSpecific, Yields;
    BestIsGreatest(a, rules);
    BestOf(a, rules, mode, scope);
    r := BestMatchingRule(a, rules).value;
    BestYields(a, rules, r);
  }

  /** Where none does, outside shadow mode the operator is asked. */
  lemma NothingMatches(a: Action, rules: seq<Rule>, mode: Mode, scope: Option<ProxyScope>)
    requires DistinctIds(rules) && InScope(a, scope) && forall q | q in rules :: !ActiveMatch(a, q)
    ensures var d := Decide(a, rules, mode, scope);
      && d.source == DefaultDeny && d.sourceRuleId.None? && d.scopeReason.None? && d.shadow.None?
      && (d.allowed <==> mode == Shadow) && d.verdict == (if mode == Shadow then Allow else Ask)
  {
    hide BestMatchingRule, InScope, ActiveMatch, Before, Decide;
    BestIsGreatest(a, rules);
    BestOf(a, rules, mode, scope);
  }

  lemma VerdictCases(a: Action, rules: seq<Rule>, mode: Mode, scope: Option<ProxyScope>)
    requires DistinctIds(rules) && mode != Shadow && InScope(a, scope)
    ensures var v := Decide(a, rules, mode, scope).verdict;
      && (v == Deny <==> SomeMostSpecific(a, rules, Deny))
      && (v == Ask <==> !SomeMostSpecific(a, rules, Deny)
                        && (SomeMostSpecific(a, rules, Ask) || forall r | r in rules :: !ActiveMatch(a, r)))
  {
    hide ActiveMatch, InScope, Decide;
    if exists q | q in rules :: ActiveMatch(a, q) {
      var r := DecidingRule(a, rules, mode, scope);
      hide MostSpecific;
      forall q | MostSpecific(a, rules, q) ensures q == r || Yields(q, r) { }
    } else {
      NothingMatches(a, rules, mode, scope);
    }
  }

  /** Outside shadow mode an in-scope action is denied exactly when a most specific active matching rule denies it. */
  lemma DeniedIff(a: Action, rules: seq<Rule>, mode: Mode, scope: Option<ProxyScope>)
    requires DistinctIds(rules) && mode != Shadow && InScope(a, scope)
    ensures Decide(a, rules, mode, scope).verdict == Deny <==>
      exists r | r in rules && ActiveMatch(a, r) && r.effect.verdict == Deny ::
        forall q | q in rules && ActiveMatch(a, q) :: Specificity(q.scope) <= Specificity(r.scope)
  {
    hide ActiveMatch, InScope, Decide, Specificity;
    VerdictCases(a, rules, mode, scope);
    if SomeMostSpecific(a, rules, Deny) {
      var r :| MostSpecific(a, rules, r) && r.effect.verdict == Deny;
    }
    if r :| r in rules && ActiveMatch(a, r) && r.effect.verdict == Deny
            && forall q | q in rules && ActiveMatch(a, q) :: Specificity(q.scope) <= Specificity(r.scope) {
      assert MostSpecific(a, rules, r);
    }
  }

  /** And asked exactly when nothing matches, or a most specific match asks and none denies. */
  lemma AskedIff(a: Action, rules: seq<Rule>, mode: Mode, scope: Option<ProxyScope>)
    requires DistinctIds(rules) && mode != Shadow && InScope(a, scope)
    ensures Decide(a, rules, mode, scope).verdict == Ask <==>
      || (forall q | q in rules :: !ActiveMatch(a, q))
      || (&& (exists r :: MostSpecific(a, rules, r) && r.effect.verdict == Ask)
          && (forall r | MostSpecific(a, rules, r) :: r.effect.verdict != Deny))
  {
    hide InScope, Decide, Specificity, ActiveMatch;
    VerdictCases(a, rules, mode, scope);
    if forall q | q in rules :: !ActiveMatch(a, q) {
      assert forall r | MostSpecific(a, rules, r) :: ActiveMatch(a, r);
    }
  }

  // ---------------------------------------------------------------- specificity

  /** Specificity orders scopes by whether they constrain the condition, then the target, the action, the tool. */
  lemma SpecificityOrder(s: RuleScope, t: RuleScope)
    ensures Specificity(s) < Specificity(t) <==>
      || (s.condition.None? && t.condition.Some?)
      || ((s.condition.Some? <==> t.condition.Some?)
          && (|| (s.targetPattern.None? && t.targetPattern.Some?)
              || ((s.targetPattern.Some? <==> t.targetPattern.Some?)
                  && (|| (s.action == "*" && t.action != "*")
                      || ((s.action == "*" <==> t.action == "*") && s.tool == "*" && t.tool != "*")))))
  {
  }

  // ---------------------------------------------------------------- proxy scope

  /** The first rule of the list that matches the action has this id. */
  ghost predicate FirstMatchHasId(a: Action, rules: seq<ScopeRule>, id: string) {
    exists i | 0 <= i < |rules| ::
      ScopeRuleMatches(a, rules[i]) && rules[i].id == id && forall j | 0 <= j < i :: !ScopeRuleMatches(a, rules[j])
  }

  lemma {:induction false} FirstIsFirst(a: Action, rules: seq<ScopeRule>)
    requires FindMatch(a, rules).Some?
    ensures FirstMatchHasId(a, rules, FindMatch(a, rules).value.id)
  {
    hide ScopeRuleMatches;
    if !ScopeRuleMatches(a, rules[0]) {
      FirstIsFirst(a, rules[1..]);
      var id := FindMatch(a, rules).value.id;
      var i :| 0 <= i < |rules[1..]| && ScopeRuleMatches(a, rules[1..][i]) && rules[1..][i].id == id
               && forall j | 0 <= j < i :: !ScopeRuleMatches(a, rules[1..][j]);
      assert rules[i + 1].id == id;
      forall j | 0 <= j < i + 1 ensures !ScopeRuleMatches(a, rules[j]) {
        if j > 0 { assert rules[j] == rules[1..][j - 1]; }
      }
    }
  }

  /** Excludes come first, and the report names the first rule of each list that matches. */
  lemma ScopeNames(a: Action, scope: ProxyScope)
    ensures var e := EvaluateScope(a, Some(scope));
      && (e.matchedExcludeId.Some? <==> exists i | 0 <= i < |scope.excludes| :: ScopeRuleMatches(a, scope.excludes[i]))
      && (e.matchedExcludeId.Some? ==> !e.inScope && FirstMatchHasId(a, scope.excludes, e.matchedExcludeId.value))
      && (e.matchedIncludeId.Some? <==> e.inScope)
      && (e.inScope ==> FirstMatchHasId(a, scope.includes, e.matchedIncludeId.value))
  {
    hide ScopeRuleMatches, FindMatch, FirstMatchHasId;
    FindMatchFinds(a, scope.excludes);
    if FindMatch(a, scope.excludes).Some? { FirstIsFirst(a, scope.excludes); }
    if FindMatch(a, scope.includes).Some? { FirstIsFirst(a, scope.includes); }
  }

  /** A rule of a proxy scope covers what a policy rule without a condition does, a missing part standing for anything. */
  lemma ScopeRuleCovers(a: Action, r: ScopeRule)
    ensures ScopeRuleMatches(a, r) <==>
      Matches(a, RuleScope(r.tool.GetOr("*"), r.action.GetOr("*"), r.targetPattern, None))
  {
    hide WildcardMatch;
  }

  // ---------------------------------------------------------------- conditions

  function NumberOf(v: Option<Json>): Option<int> { if v.Some? && v.value.Num? then Some(v.value.n) else None }

  /** The value the action's arguments hold below two keys. */
  function Nested(a: Action, outer: string, inner: string): Option<Json> {
    match Get(a.args, outer)
    case Some(Obj(ms)) => Get(ms, inner)
    case _ => None
  }

  lemma NestedRead(a: Action, outer: string, inner: string)
    ensures ReadPath(Some(Obj(a.args)), [outer, inner]) == Nested(a, outer, inner)
  {
    var path := [outer, inner];
    assert path[1..] == [inner] && path[1..][1..] == [];
    var next := Get(a.args, outer);
    assert ReadPath(Some(Obj(a.args)), path) == ReadPath(next, [inner]);
    if next.Some? && next.value.Obj? {
      assert ReadPath(next, [inner]) == ReadPath(Get(next.value.members, inner), []);
    }
  }

  /** Each field of a condition reads its own place of the action. */
  lemma FieldsRead(a: Action)
    ensures ReadField(a, ToolField) == Some(Str(a.tool)) && ReadField(a, ActionField) == Some(Str(a.action))
    ensures ReadField(a, TargetField) == if a.target.Some? then Some(Str(a.target.value)) else None
    ensures ReadField(a, ForceField) == Get(a.args, "force")
    ensures ReadField(a, ApprovedField) == Nested(a, "reviews", "approved")
    ensures ReadField(a, RejectedField) == Nested(a, "reviews", "rejected")
    ensures ReadField(a, VisibilityField) == Nested(a, "repo", "visibility")
    ensures ReadField(a, EnvironmentField) == Nested(a, "deploy", "environment")
  {
    assert ["force"][1..] == [];
    assert ReadPath(Get(a.args, "force"), []) == Get(a.args, "force");
    NestedRead(a, "reviews", "approved");
    NestedRead(a, "reviews", "rejected");
    NestedRead(a, "repo", "visibility");
    NestedRead(a, "deploy", "environment");
  }

  /**
   The comparisons hold of two numbers only, and there exactly one of less, equal and greater does;
   `!=` is the denial of `==`; `contains` is having the value as a part of a text or as an item of a list, and `matches` is the glob.
   */
  lemma ConditionMeans(a: Action, f: ConditionField, v: Json)
    ensures var x, y := NumberOf(ReadField(a, f)), NumberOf(Some(v));
      var numbers := x.Some? && y.Some?;
      && (ConditionMatches(a, Condition(f, Lt, v)) <==> numbers && x.value < y.value)
      && (ConditionMatches(a, Condition(f, Le, v)) <==> numbers && !ConditionMatches(a, Condition(f, Gt, v)))
      && (ConditionMatches(a, Condition(f, Gt, v)) <==> numbers && y.value < x.value)
      && (ConditionMatches(a, Condition(f, Ge, v)) <==> numbers && !ConditionMatches(a, Condition(f, Lt, v)))
    ensures ConditionMatches(a, Condition(f, Eq, v)) <==> ReadField(a, f) == Some(v) && (v.Str? || v.Num? || v.Bool?)
    ensures ConditionMatches(a, Condition(f, Ne, v)) <==> !ConditionMatches(a, Condition(f, Eq, v))
    ensures forall s, part :: ReadField(a, f) == Some(Str(s)) && v == Str(part) ==>
      && (ConditionMatches(a, Condition(f, Contains, v)) <==> exists pre, post :: s == pre + part + post)
      && (ConditionMatches(a, Condition(f, MatchesGlob, v)) <==> GlobMatch(part, s))
    ensures forall items :: ReadField(a, f) == Some(Arr(items)) ==>
      (ConditionMatches(a, Condition(f, Contains, v)) <==> v in items && (v.Str? || v.Num? || v.Bool?))
  {
    hide WildcardMatch, ReadPath;
    forall s, part | ReadField(a, f) == Some(Str(s)) && v == Str(part)
      ensures ConditionMatches(a, Condition(f, Contains, v)) <==> exists pre, post :: s == pre + part + post
      ensures ConditionMatches(a, Condition(f, MatchesGlob, v)) <==> GlobMatch(part, s)
    {
      IncludesIff(s, part);
      WildcardMatchIsGlob(part, s);
    }
  }

  lemma IncludesIff(s: string, part: string)
    ensures Includes(s, part) <==> exists pre, post :: s == pre + part + post
  {
    if Includes(s, part) {
      var i: nat :| i <= |s| && part <= s[i..];
      assert s == s[..i] + part + s[i..][|part|..];
    }
    if pre, post :| s == pre + part + post {
      assert s[|pre|..] == part + post;
      assert part <= s[|pre|..];
    }
  }
}
