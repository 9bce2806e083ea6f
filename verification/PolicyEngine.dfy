/**
 The policy engine (packages/policy/src/policy-engine.ts, packages/policy/src/scope.ts):
 one rule decides, the first in a five-key order over the active rules that match.
 */
module PolicyEngine {
  import opened Prelude
  import opened Sorting
  import opened Text
  import opened CanonicalJson
  import opened AuditEvents
  import opened Globs

  // ---------------------------------------------------------------- actions and rules

  datatype Action = Action(
    id: string, tool: string, action: string, target: Option<string>, args: seq<Member>, requestedAt: string)

  /** `interceptedActionContract.parse` accepts the action. */
  predicate ValidAction(a: Action) {
    a.id != "" && a.tool != "" && a.action != "" && (a.target.Some? ==> a.target.value != "") && IsTimestamp(a.requestedAt)
  }

  datatype Verdict = Allow | Deny | Ask

  datatype ConditionField =
    ToolField | ActionField | TargetField | ForceField | ApprovedField | RejectedField | VisibilityField | EnvironmentField

  datatype ConditionOp = Lt | Le | Gt | Ge | Eq | Ne | Contains | MatchesGlob

  datatype Condition = Condition(field: ConditionField, op: ConditionOp, value: Json)

  predicate ValidCondition(c: Condition) {
    && (c.value.Str? || c.value.Num? || c.value.Bool?)
    && (c.op in {Lt, Le, Gt, Ge} ==> c.value.Num?)
    && (c.op in {Contains, MatchesGlob} ==> c.value.Str?)
  }

  datatype RuleScope = RuleScope(tool: string, action: string, targetPattern: Option<string>, condition: Option<Condition>)

  datatype ActionType =
    | ChangeStatus | CreateLinearWorkstream | AssignOwner | BlockAgentAction
    | RequireApproval | GenerateEval | ActivatePolicy | RecordAuditEvent

  datatype Effect = Effect(verdict: Verdict, actionType: ActionType, reasons: seq<string>, requiredBefore: seq<string>)

  datatype RuleStatus = Proposed | Active | Narrowed | Retired

  datatype Rule = Rule(
    id: string, version: int, fromCorrectionId: string, evalCaseId: string, scope: RuleScope, effect: Effect,
    status: RuleStatus, supersedesId: Option<string>, createdAt: string)

  /** `actionPolicyRuleContract.parse` accepts the rule. */
  predicate ValidRule(r: Rule) {
    && r.id != "" && r.version > 0 && r.fromCorrectionId != "" && r.evalCaseId != ""
    && r.scope.tool != "" && r.scope.action != ""
    && (r.scope.targetPattern.Some? ==> r.scope.targetPattern.value != "")
    && (r.scope.condition.Some? ==> ValidCondition(r.scope.condition.value))
    && NonEmptyStrings(r.effect.reasons) && NonEmptyStrings(r.effect.requiredBefore)
    && (r.effect.verdict != Allow ==> r.effect.reasons != [])
    && (r.effect.verdict == Allow ==> r.effect.reasons == [] && r.effect.requiredBefore == [])
    && (r.status == Narrowed ==> r.supersedesId.Some?)
    && (r.supersedesId.Some? ==> r.supersedesId.value != "")
    && IsTimestamp(r.createdAt)
  }

  // ---------------------------------------------------------------- which rules match

  /** `readPath`: `None` stands for `undefined`. */
  function ReadPath(v: Option<Json>, path: seq<string>): Option<Json>
    decreases |path|
  {
    if path == [] then v
    else if v.None? || !v.value.Obj? then None
    else ReadPath(Get(v.value.members, path[0]), path[1..])
  }

  function ReadField(a: Action, field: ConditionField): Option<Json> {
    match field
    case ToolField => Some(Str(a.tool))
    case ActionField => Some(Str(a.action))
    case TargetField => if a.target.Some? then Some(Str(a.target.value)) else None
    case ForceField => ReadPath(Some(Obj(a.args)), ["force"])
    case ApprovedField => ReadPath(Some(Obj(a.args)), ["reviews", "approved"])
    case RejectedField => ReadPath(Some(Obj(a.args)), ["reviews", "rejected"])
    case VisibilityField => ReadPath(Some(Obj(a.args)), ["repo", "visibility"])
    case EnvironmentField => ReadPath(Some(Obj(a.args)), ["deploy", "environment"])
  }

  /** `s.includes(part)` */
  predicate Includes(s: string, part: string) {
    exists i: nat | i <= |s| :: part <= s[i..]
  }

  /** `===` against a string, number or boolean. */
  predicate StrictlyEqual(actual: Option<Json>, value: Json) {
    actual == Some(value) && (value.Str? || value.Num? || value.Bool?)
  }

  predicate ConditionMatches(a: Action, c: Condition) {
    var actual := ReadField(a, c.field);
    var numbers := actual.Some? && actual.value.Num? && c.value.Num?;
    match c.op
    case Lt => numbers && actual.value.n < c.value.n
    case Le => numbers && actual.value.n <= c.value.n
    case Gt => numbers && actual.value.n > c.value.n
    case Ge => numbers && actual.value.n >= c.value.n
    case Eq => StrictlyEqual(actual, c.value)
    case Ne => !StrictlyEqual(actual, c.value)
    case Contains =>
      if actual.Some? && actual.value.Str? && c.value.Str? then Includes(actual.value.s, c.value.s)
      else actual.Some? && actual.value.Arr? && exists x | x in actual.value.items :: StrictlyEqual(Some(x), c.value)
    case MatchesGlob =>
      actual.Some? && actual.value.Str? && c.value.Str? && WildcardMatch(c.value.s, actual.value.s)
  }

  predicate ToolMatches(a: Action, scope: RuleScope) { scope.tool == "*" || scope.tool == a.tool }
  predicate ActionMatches(a: Action, scope: RuleScope) { scope.action == "*" || scope.action == a.action }
  predicate TargetMatches(a: Action, scope: RuleScope) {
    scope.targetPattern.Some? ==> a.target.Some? && WildcardMatch(scope.targetPattern.value, a.target.value)
  }
  predicate ConditionHolds(a: Action, scope: RuleScope) {
    scope.condition.Some? ==> ConditionMatches(a, scope.condition.value)
  }

  /** The rule's scope covers the action. */
  predicate Matches(a: Action, scope: RuleScope) {
    ToolMatches(a, scope) && ActionMatches(a, scope) && TargetMatches(a, scope) && ConditionHolds(a, scope)
  }

  function Weight(constrained: bool, weight: nat): nat { if constrained then weight else 0 }

  /** One binary digit for each dimension the scope constrains. */
  function Specificity(scope: RuleScope): nat {
    Weight(scope.tool != "*", 1) + Weight(scope.action != "*", 2)
    + Weight(scope.targetPattern.Some?, 4) + Weight(scope.condition.Some?, 8)
  }

  /** `matchSpecificity` */
  method MatchSpecificity(action: Action, rule: Rule) returns (r: Option<nat>)
    ensures r == if Matches(action, rule.scope) then Some(Specificity(rule.scope)) else None
  {
    hide WildcardMatch, ConditionMatches;
    var specificity := 0;
    if rule.scope.tool != "*" {
      if rule.scope.tool != action.tool { return None; }
      specificity := specificity + 1;
    }
    if rule.scope.action != "*" {
      if rule.scope.action != action.action { return None; }
      specificity := specificity + 2;
    }
    if rule.scope.targetPattern.Some? {
      if action.target.None? || !WildcardMatch(rule.scope.targetPattern.value, action.target.value) { return None; }
      specificity := specificity + 4;
    }
    if rule.scope.condition.Some? {
      if !ConditionMatches(action, rule.scope.condition.value) { return None; }
      specificity := specificity + 8;
    }
    r := Some(specificity);
  }

  /** Equal specificity means that the same dimensions are constrained. */
  lemma SpecificityIsDimensions(s: RuleScope, t: RuleScope)
    ensures Specificity(s) == Specificity(t) <==>
      && (s.tool == "*" <==> t.tool == "*") && (s.action == "*" <==> t.action == "*")
      && (s.targetPattern.Some? <==> t.targetPattern.Some?) && (s.condition.Some? <==> t.condition.Some?)
  {
  }

  // ---------------------------------------------------------------- which rule decides

  function VerdictRank(v: Verdict): int {
    match v case Deny => 3 case Ask => 2 case Allow => 1
  }

  /** The comparison of `bestMatchingRule`: `a` is sorted in front of `b`. */
  predicate Before(a: Rule, b: Rule) {
    var sa, sb := Specificity(a.scope), Specificity(b.scope);
    var ra, rb := VerdictRank(a.effect.verdict), VerdictRank(b.effect.verdict);
    || sa > sb
    || (sa == sb && (|| ra > rb
                     || (ra == rb && (|| a.version > b.version
                                      || (a.version == b.version && LaterOrSmallerId(a, b))))))
  }

  predicate LaterOrSmallerId(a: Rule, b: Rule) {
    StringLess(b.createdAt, a.createdAt) || (a.createdAt == b.createdAt && StringLess(a.id, b.id))
  }

  predicate ActiveMatch(action: Action, rule: Rule) {
    rule.status == Active && Matches(action, rule.scope)
  }

  function Candidates(action: Action, rules: seq<Rule>): seq<Rule> {
    Filter(rules, (r: Rule) => ActiveMatch(action, r))
  }

  /** `bestMatchingRule`: filter, sort, take the first. */
  function BestMatchingRule(action: Action, rules: seq<Rule>): Option<Rule> {
    var sorted := Sort(Candidates(action, rules), Before);
    if sorted == [] then None else Some(sorted[0])
  }

  // ---------------------------------------------------------------- scope

  datatype ScopeRule = ScopeRule(id: string, tool: Option<string>, action: Option<string>, targetPattern: Option<string>)

  datatype ProxyScope = ProxyScope(includes: seq<ScopeRule>, excludes: seq<ScopeRule>)

  datatype ScopeEvaluation = ScopeEvaluation(
    inScope: bool, matchedIncludeId: Option<string>, matchedExcludeId: Option<string>, reason: string)

  predicate ScopeRuleMatches(a: Action, r: ScopeRule) {
    && (r.tool.Some? && r.tool.value != "*" ==> r.tool.value == a.tool)
    && (r.action.Some? && r.action.value != "*" ==> r.action.value == a.action)
    && (r.targetPattern.Some? ==> a.target.Some? && WildcardMatch(r.targetPattern.value, a.target.value))
  }

  function FindMatch(a: Action, rules: seq<ScopeRule>): Option<ScopeRule> {
    if rules == [] then None
    else if ScopeRuleMatches(a, rules[0]) then Some(rules[0])
    else FindMatch(a, rules[1..])
  }

  function EvaluateScope(a: Action, scope: Option<ProxyScope>): ScopeEvaluation {
    if scope.None? then
      ScopeEvaluation(true, None, None, "No proxy scope configured; action is in scope by default.")
    else
      var excluded := FindMatch(a, scope.value.excludes);
      if excluded.Some? then
        ScopeEvaluation(false, None, Some(excluded.value.id), "Action matched excluded scope " + excluded.value.id + ".")
      else if scope.value.includes == [] then
        ScopeEvaluation(false, None, None, "Proxy scope has no include rules.")
      else
        var included := FindMatch(a, scope.value.includes);
        if included.None? then
          ScopeEvaluation(false, None, None, "Action did not match any included proxy scope.")
        else
          ScopeEvaluation(true, Some(included.value.id), None, "Action matched included scope " + included.value.id + ".")
  }

  predicate InScope(a: Action, scope: Option<ProxyScope>) { EvaluateScope(a, scope).inScope }

  lemma {:induction false} FindMatchFinds(a: Action, rules: seq<ScopeRule>)
    ensures FindMatch(a, rules).Some? <==> exists i | 0 <= i < |rules| :: ScopeRuleMatches(a, rules[i])
  {
    hide ScopeRuleMatches;
    if rules != [] {
      FindMatchFinds(a, rules[1..]);
      if i :| 0 <= i < |rules[1..]| && ScopeRuleMatches(a, rules[1..][i]) { assert ScopeRuleMatches(a, rules[i + 1]); }
      if i :| 0 <= i < |rules| && ScopeRuleMatches(a, rules[i]) {
        if i > 0 { assert ScopeRuleMatches(a, rules[1..][i - 1]); }
      }
    }
  }

  /** In scope: no scope, or some include rule matches and no exclude rule does. */
  lemma InScopeIff(a: Action, scope: Option<ProxyScope>)
    ensures InScope(a, scope) <==> scope.Some? ==>
      && (exists i | 0 <= i < |scope.value.includes| :: ScopeRuleMatches(a, scope.value.includes[i]))
      && (forall i | 0 <= i < |scope.value.excludes| :: !ScopeRuleMatches(a, scope.value.excludes[i]))
  {
    if scope.Some? {
      FindMatchFinds(a, scope.value.includes);
      FindMatchFinds(a, scope.value.excludes);
    }
  }

  // ---------------------------------------------------------------- the decision

  datatype Mode = Shadow | Intercept | Learned

  datatype Source = Operator | Policy | ScopeSource | DefaultDeny

  datatype ShadowReport = ShadowReport(verdict: Verdict, ruleId: string, reasons: seq<string>)

  datatype Decision = Decision(
    verdict: Verdict, allowed: bool, reasons: seq<string>, requiredBeforeSend: seq<string>, source: Source,
    sourceRuleId: Option<string>, scopeReason: Option<string>, shadow: Option<ShadowReport>)

  function DecisionFromRule(rule: Rule, mode: Mode): Decision {
    if mode == Shadow then
      Decision(Allow, true, [], [], Policy, Some(rule.id), None,
               Some(ShadowReport(rule.effect.verdict, rule.id, rule.effect.reasons)))
    else
      Decision(rule.effect.verdict, rule.effect.verdict == Allow, rule.effect.reasons, rule.effect.requiredBefore,
               Policy, Some(rule.id), None, None)
  }

  /** `decide`, on an action and rules that parse. `scopeReason` is present exactly when out of scope. */
  function Decide(a: Action, rules: seq<Rule>, mode: Mode, scope: Option<ProxyScope>): Decision {
    if !InScope(a, scope) then
      Decision(Allow, true, [], [], ScopeSource, None, Some(EvaluateScope(a, scope).reason), None)
    else
      var best := BestMatchingRule(a, rules);
      if best.Some? then DecisionFromRule(best.value, mode)
      else if mode == Shadow then Decision(Allow, true, [], [], DefaultDeny, None, None, None)
      else Decision(Ask, false,
                    ["No active policy rule matched " + a.tool + " " + a.action + "; operator approval is required."],
                    ["Record an operator approve/disapprove verdict for this action class."],
                    DefaultDeny, None, None, None)
  }

  predicate ValidRules(rules: seq<Rule>) { forall r | r in rules :: ValidRule(r) }

  /** The parses of `decide`: the rules are only looked at when the action is in scope. */
  function TryDecide(a: Action, rules: seq<Rule>, mode: Mode, scope: Option<ProxyScope>): Result<Decision, string> {
    if !ValidAction(a) then Err("invalid action")
    else if InScope(a, scope) && !ValidRules(rules) then Err("invalid rule")
    else Ok(Decide(a, rules, mode, scope))
  }

  /** `decideFromStore`: a failed fetch or parse denies. */
  function DecideFromStore(a: Action, fetched: Result<seq<Rule>, string>, mode: Mode, scope: Option<ProxyScope>): Decision {
    var outcome := if fetched.Ok? then TryDecide(a, fetched.value, mode, scope) else Err(fetched.error);
    if outcome.Ok? then outcome.value
    else Decision(Deny, false,
                  ["Policy evaluation failed closed" + (if outcome.error != "" then ": " + outcome.error else "") + "."],
                  ["Restore policy evaluation before running consequential actions."], DefaultDeny, None, None, None)
  }

  // ---------------------------------------------------------------- the order decides

  predicate DistinctIds(rules: seq<Rule>) {
    forall i, j | 0 <= i < j < |rules| :: rules[i].id != rules[j].id
  }

  lemma BeforeIsOrder(a: Rule, b: Rule, c: Rule)
    ensures !Before(a, a)
    ensures a.id != b.id ==> Before(a, b) || Before(b, a)
    ensures Before(a, b) && Before(b, c) ==> Before(a, c)
    ensures Before(a, b) ==> !Before(b, a)
  {
    hide StringLess, Specificity;
    StringOrder(a.createdAt, b.createdAt, c.createdAt);
    StringOrder(c.createdAt, b.createdAt, a.createdAt);
    StringOrder(b.createdAt, a.createdAt, b.createdAt);
    StringOrder(a.id, b.id, c.id);
    StringOrder(a.id, b.id, a.id);
  }

  lemma RulesOrdered(rules: seq<Rule>)
    requires DistinctIds(rules)
    ensures Decides(Before, Elements(rules))
  {
    hide Before;
    forall x, y, z | x in Elements(rules) && y in Elements(rules) && z in Elements(rules)
      ensures !Before(x, x)
      ensures x == y || Before(x, y) || Before(y, x)
      ensures Before(x, y) && Before(y, z) ==> Before(x, z)
    {
      BeforeIsOrder(x, y, z);
      var i :| 0 <= i < |rules| && rules[i] == x;
      var j :| 0 <= j < |rules| && rules[j] == y;
      assert x.id == y.id ==> i == j;
    }
  }

  lemma CandidateMembers(a: Action, rules: seq<Rule>)
    ensures forall r :: r in Candidates(a, rules) <==> r in rules && ActiveMatch(a, r)
  {
    FilterMembers(rules, (r: Rule) => ActiveMatch(a, r));
  }

  lemma CandidatesOrdered(a: Action, rules: seq<Rule>)
    requires DistinctIds(rules)
    ensures Decides(Before, Elements(Candidates(a, rules)))
  {
    RulesOrdered(rules);
    CandidateMembers(a, rules);
    hide Before, ActiveMatch;
    assert Elements(Candidates(a, rules)) <= Elements(rules);
  }

  ghost predicate IsBest(a: Action, rules: seq<Rule>, best: Option<Rule>) {
    && (best.None? ==> forall r | r in rules :: !ActiveMatch(a, r))
    && (best.Some? ==> best.value in rules && ActiveMatch(a, best.value)
                       && forall r | r in rules && ActiveMatch(a, r) :: r == best.value || Before(best.value, r))
  }

  /** The deciding rule is the greatest active matching rule of the five-key order. */
  lemma BestIsGreatest(a: Action, rules: seq<Rule>)
    requires DistinctIds(rules)
    ensures IsBest(a, rules, BestMatchingRule(a, rules))
  {
    var cs := Candidates(a, rules);
    var sorted := Sort(cs, Before);
    CandidateMembers(a, rules);
    CandidatesOrdered(a, rules);
    SortElements(cs, Before);
    SortSorts(cs, Before, Elements(cs));
    hide Before, ActiveMatch;
    if sorted == [] {
      assert cs == [];
    } else {
      assert sorted[0] in Elements(cs);
      forall r | r in rules && ActiveMatch(a, r) ensures r == sorted[0] || Before(sorted[0], r) {
        assert r in Elements(sorted);
        SortedHead(sorted, r, Before);
      }
    }
  }

  /** There is one such rule. */
  lemma BestUnique(a: Action, rules: seq<Rule>, x: Option<Rule>, y: Option<Rule>)
    requires IsBest(a, rules, x) && IsBest(a, rules, y)
    ensures x == y
  {
    hide Before, ActiveMatch;
    if x.Some? && y.Some? { BeforeIsOrder(x.value, y.value, x.value); }
  }

  /** The decision does not depend on the order of the rules. */
  lemma DecisionIgnoresRuleOrder(a: Action, rules: seq<Rule>, rules': seq<Rule>, mode: Mode, scope: Option<ProxyScope>)
    requires DistinctIds(rules) && multiset(rules) == multiset(rules')
    ensures BestMatchingRule(a, rules) == BestMatchingRule(a, rules')
    ensures Decide(a, rules, mode, scope) == Decide(a, rules', mode, scope)
  {
    FilterPermutes(rules, rules', (r: Rule) => ActiveMatch(a, r));
    CandidatesOrdered(a, rules);
    SortCanonical(Candidates(a, rules), Candidates(a, rules'), Before);
    hide Before, ActiveMatch, EvaluateScope;
  }

  // ---------------------------------------------------------------- what is allowed

  ghost predicate BeatsAllBlocks(a: Action, rules: seq<Rule>, r: Rule) {
    && r in rules && ActiveMatch(a, r) && r.effect.verdict == Allow
    && forall q | q in rules && ActiveMatch(a, q) && q.effect.verdict != Allow :: Specificity(q.scope) < Specificity(r.scope)
  }

  lemma BestDecides(a: Action, rules: seq<Rule>, mode: Mode, scope: Option<ProxyScope>)
    requires mode != Shadow && InScope(a, scope)
    ensures var best := BestMatchingRule(a, rules);
      Decide(a, rules, mode, scope).allowed <==> best.Some? && best.value.effect.verdict == Allow
  {
    hide BestMatchingRule, InScope, EvaluateScope;
  }

  lemma BeforeIsNoWeaker(x: Rule, y: Rule)
    requires Before(x, y)
    ensures Specificity(x.scope) >= Specificity(y.scope)
  {
    hide Specificity, StringLess;
  }

  lemma BestAllowBeats(a: Action, rules: seq<Rule>, best: Rule)
    requires IsBest(a, rules, Some(best)) && best.effect.verdict == Allow
    ensures BeatsAllBlocks(a, rules, best)
  {
    hide ActiveMatch, Specificity, StringLess;
    forall q | q in rules && ActiveMatch(a, q) && q.effect.verdict != Allow ensures Specificity(q.scope) < Specificity(best.scope) {
      assert Before(best, q);
    }
  }

  /**
   Outside shadow mode an in-scope action is allowed exactly when some active matching
   allow rule is strictly more specific than every active matching deny or ask rule.
   */
  lemma AllowedIff(a: Action, rules: seq<Rule>, mode: Mode, scope: Option<ProxyScope>)
    requires DistinctIds(rules) && mode != Shadow && InScope(a, scope)
    ensures Decide(a, rules, mode, scope).allowed <==> exists r :: BeatsAllBlocks(a, rules, r)
  {
    BestIsGreatest(a, rules);
    BestDecides(a, rules, mode, scope);
    hide ActiveMatch, InScope, Decide, BestMatchingRule, Specificity;
    var best := BestMatchingRule(a, rules);
    if Decide(a, rules, mode, scope).allowed {
      BestAllowBeats(a, rules, best.value);
    }
    hide Before;
    if r :| BeatsAllBlocks(a, rules, r) {
      assert best.Some? && (r == best.value || Before(best.value, r));
      if r != best.value { BeforeIsNoWeaker(best.value, r); }
    }
  }

  /** Adding deny and ask rules allows nothing new. */
  lemma BlocksNeverWiden(a: Action, rules: seq<Rule>, rules': seq<Rule>, mode: Mode, scope: Option<ProxyScope>)
    requires DistinctIds(rules) && DistinctIds(rules') && mode != Shadow
    requires forall r | r in rules :: r in rules'
    requires forall r | r in rules' && r !in rules :: r.effect.verdict != Allow
    ensures Decide(a, rules', mode, scope).allowed ==> Decide(a, rules, mode, scope).allowed
  {
    hide EvaluateScope, BestMatchingRule, ActiveMatch, Specificity;
    if InScope(a, scope) && Decide(a, rules', mode, scope).allowed {
      AllowedIff(a, rules, mode, scope);
      AllowedIff(a, rules', mode, scope);
      var r :| BeatsAllBlocks(a, rules', r);
      assert BeatsAllBlocks(a, rules, r);
    }
  }

  /** Adding allow rules takes no permission away and denies nothing new. */
  lemma AllowsNeverNarrow(a: Action, rules: seq<Rule>, rules': seq<Rule>, mode: Mode, scope: Option<ProxyScope>)
    requires DistinctIds(rules) && DistinctIds(rules') && mode != Shadow
    requires forall r | r in rules :: r in rules'
    requires forall r | r in rules' && r !in rules :: r.effect.verdict == Allow
    ensures Decide(a, rules, mode, scope).allowed ==> Decide(a, rules', mode, scope).allowed
    ensures Decide(a, rules', mode, scope).verdict == Deny ==> Decide(a, rules, mode, scope).verdict == Deny
  {
    hide EvaluateScope, BestMatchingRule, ActiveMatch, Specificity, Before;
    if InScope(a, scope) {
      if Decide(a, rules, mode, scope).allowed {
        AllowedIff(a, rules, mode, scope);
        AllowedIff(a, rules', mode, scope);
        var r :| BeatsAllBlocks(a, rules, r);
        assert BeatsAllBlocks(a, rules', r);
      }
      BestIsGreatest(a, rules);
      BestIsGreatest(a, rules');
      var best := BestMatchingRule(a, rules');
      if best.Some? && best.value in rules { BestUnique(a, rules, best, BestMatchingRule(a, rules)); }
    }
  }

  /** An active matching rule means that a rule decides. */
  lemma SomeRuleDecides(a: Action, rules: seq<Rule>, r: Rule, mode: Mode, scope: Option<ProxyScope>)
    requires DistinctIds(rules) && r in rules && ActiveMatch(a, r) && InScope(a, scope)
    ensures Decide(a, rules, mode, scope).source == Policy
  {
    hide EvaluateScope, BestMatchingRule, ActiveMatch, Before;
    BestIsGreatest(a, rules);
  }

  /**
   A failed fetch, an action that does not parse or a rule that does not parse denies, in every
   mode; otherwise the engine decides, and in shadow mode it allows everything.
   */
  lemma FailsClosed(a: Action, fetched: Result<seq<Rule>, string>, mode: Mode, scope: Option<ProxyScope>)
    ensures var d := DecideFromStore(a, fetched, mode, scope);
      if fetched.Err? || !ValidAction(a) || (InScope(a, scope) && !ValidRules(fetched.value))
      then d.verdict == Deny && !d.allowed && d.source == DefaultDeny && d.sourceRuleId.None?
      else d == Decide(a, fetched.value, mode, scope) && (mode == Shadow ==> d.allowed)
  {
    hide ValidAction, InScope, EvaluateScope, ValidRules, BestMatchingRule;
  }
}
