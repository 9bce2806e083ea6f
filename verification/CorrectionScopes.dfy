/**
 What learned rules apply to: the rules compiled from the phrases of a correction
 (packages/governance/src/compile-correction.ts) and from an approval
 (packages/integrations/intercept-gateway/src/gateway.ts), said of the actions they match.
 */
module CorrectionScopes {
  import opened Prelude
  import opened CanonicalJson
  import opened AuditEvents
  import opened Globs
  import opened PolicyEngine
  import opened PolicyVerdicts
  import opened CompileCorrection
  import opened GatewaySteps

  // ---------------------------------------------------------------- targets

  predicate OneLine(s: string) { forall i | 0 <= i < |s| :: !IsLineTerminator(s[i]) }

  /** `PR#` and anything on one line. */
  predicate NamesPullRequest(target: string) { "PR#" <= target && OneLine(target[3..]) }

  lemma {:induction false} LiteralGlob(pattern: string, value: string)
    requires '*' !in pattern
    ensures GlobMatch(pattern, value) <==> pattern == value
  {
    if pattern != [] {
      assert pattern[0] in pattern;
      if value != [] {
        LiteralGlob(pattern[1..], value[1..]);
        assert pattern == [pattern[0]] + pattern[1..] && value == [value[0]] + value[1..];
      }
    }
  }

  lemma StarGlob(value: string)
    ensures GlobMatch("*", value) <==> OneLine(value)
  {
    assert "*"[1..] == "";
    assert value[|value|..] == "";
    if GlobMatch("*", value) {
      var k :| 0 <= k <= |value| && (forall j | 0 <= j < k :: !IsLineTerminator(value[j])) && GlobMatch("", value[k..]);
      assert |value[k..]| == 0;
    }
  }

  lemma PullRequestGlob(value: string)
    ensures GlobMatch("PR#*", value) <==> NamesPullRequest(value)
  {
    assert "PR#*"[1..] == "R#*" && "R#*"[1..] == "#*" && "#*"[1..] == "*";
    if |value| >= 3 {
      StarGlob(value[3..]);
      assert value[1..][1..] == value[2..] && value[2..][1..] == value[3..];
      assert value[1] == value[1..][0] && value[2] == value[2..][0];
      assert "PR#" <= value <==> value[0] == 'P' && value[1] == 'R' && value[2] == '#';
    }
  }

  /** A rule learned about target `t` covers target `u`: any pull request of a pull request, else what `t` says as a glob. */
  ghost predicate TargetFits(t: string, u: string) {
    if IsPullRequest(t) then NamesPullRequest(u)
    else if '*' in t then GlobMatch(t, u)
    else u == t
  }

  lemma TargetPatternIff(t: string, u: string)
    ensures WildcardMatch(TargetPatternFor(t), u) <==> TargetFits(t, u)
  {
    hide GlobMatch, WildcardMatch;
    WildcardMatchIsGlob(TargetPatternFor(t), u);
    if IsPullRequest(t) { PullRequestGlob(u); } else if '*' !in t { LiteralGlob(t, u); }
  }

  /** The action has a target that a rule learned about `t` covers. */
  ghost predicate OnTarget(t: Option<string>, b: Action) {
    t.Some? ==> b.target.Some? && TargetFits(t.value, b.target.value)
  }

  predicate Named(name: string, x: string) { name == "*" || name == x }

  function Approvals(a: Action): Option<int> { NumberOf(Nested(a, "reviews", "approved")) }

  function Rejections(a: Action): Option<int> { NumberOf(Nested(a, "reviews", "rejected")) }

  // ---------------------------------------------------------------- approvals

  /**
   The actions that forwarding `a` allows: its tool, its action, its target, and for a merge with a
   number of approvals at least as many.
   */
  ghost predicate ApprovedAlike(a: Action, b: Action) {
    && Named(a.tool, b.tool) && Named(a.action, b.action) && OnTarget(a.target, b)
    && (a.tool == "gh" && a.action == "pr-merge" && Approvals(a).Some? ==>
          Approvals(b).Some? && Approvals(b).value >= Approvals(a).value)
  }

  lemma ApprovalConditionMeans(a: Action, b: Action)
    ensures var c := ApprovalCondition(a);
      && (c.Some? <==> a.tool == "gh" && a.action == "pr-merge" && Approvals(a).Some?)
      && (c.Some? ==> (ConditionMatches(b, c.value) <==> Approvals(b).Some? && Approvals(b).value >= Approvals(a).value))
  {
    NestedRead(a, "reviews", "approved");
    FieldsRead(b);
    hide ReadPath, Nested;
  }

  /** The scope compiled from an approved action matches exactly the actions approved alike. */
  lemma ApprovalScopeIff(a: Action, b: Action)
    ensures Matches(b, ApprovalScopeFor(a)) <==> ApprovedAlike(a, b)
  {
    ApprovalConditionMeans(a, b);
    if a.target.Some? && b.target.Some? { TargetPatternIff(a.target.value, b.target.value); }
    hide TargetFits, WildcardMatch, ConditionMatches, ApprovalCondition, TargetPatternFor, Approvals;
  }

  // ---------------------------------------------------------------- phrases

  /** The phrases that forbid; the others ask. */
  predicate Forbids(kind: PhraseKind) { kind in {MergeWithoutApprovals, MergeWithRejection, NeverDo, AlwaysInclude} }

  predicate OnPullRequest(b: Action) { b.target.Some? && NamesPullRequest(b.target.value) }

  predicate IsCall(b: Action, tool: string, action: string) { b.tool == tool && b.action == action }

  /** What a phrase about this topic is about, where the correction was made on `origin`. */
  ghost predicate AboutTopic(topic: Topic, origin: Option<Action>, b: Action) {
    var target := if origin.Some? then origin.value.target else None;
    match topic
    case ForcePush => IsCall(b, "git", "push") && OnTarget(target, b) && Get(b.args, "force") == Some(Bool(true))
    case Fork => IsCall(b, "gh", "repo-fork") && OnTarget(target, b)
    case RepoVisibility => IsCall(b, "gh", "repo-edit-visibility") && OnTarget(target, b)
    case Deploy => IsCall(b, "deploy", "deploy") && OnTarget(target, b)
    case Merge => IsCall(b, "gh", "pr-merge") && OnPullRequest(b)
    case OriginatingAction =>
      origin.Some? ==> Named(origin.value.tool, b.tool) && Named(origin.value.action, b.action) && OnTarget(target, b)
  }

  /** What a phrase is about: merges by their reviews, or its topic. */
  ghost predicate IsAbout(kind: PhraseKind, topic: Topic, origin: Option<Action>, b: Action) {
    match kind
    case MergeWithoutApprovals =>
      IsCall(b, "gh", "pr-merge") && OnPullRequest(b) && Approvals(b).Some? && Approvals(b).value < 2
    case MergeWithRejection =>
      IsCall(b, "gh", "pr-merge") && OnPullRequest(b) && Rejections(b).Some? && Rejections(b).value >= 1
    case _ => AboutTopic(topic, origin, b)
  }

  lemma MergePattern(target: string)
    ensures WildcardMatch("PR#*", target) <==> NamesPullRequest(target)
  {
    hide GlobMatch, WildcardMatch;
    WildcardMatchIsGlob("PR#*", target);
    PullRequestGlob(target);
  }

  lemma OriginPattern(origin: Option<Action>, b: Action)
    ensures var target := if origin.Some? then origin.value.target else None;
      var pattern := TargetPattern(origin);
      (pattern.Some? ==> b.target.Some? && WildcardMatch(pattern.value, b.target.value)) <==> OnTarget(target, b)
  {
    hide TargetFits, WildcardMatch, TargetPatternFor;
    if origin.Some? && origin.value.target.Some? && b.target.Some? { TargetPatternIff(origin.value.target.value, b.target.value); }
  }

  /** A condition the scope carries, or none. */
  predicate Holds(b: Action, c: Option<Condition>) { c.Some? ==> ConditionMatches(b, c.value) }

  /** A scope for the target the correction was made on. */
  lemma OriginScopeMeans(origin: Option<Action>, tool: string, action: string, c: Option<Condition>, b: Action)
    ensures Matches(b, RuleScope(tool, action, TargetPattern(origin), c)) <==>
      && Named(tool, b.tool) && Named(action, b.action)
      && OnTarget(if origin.Some? then origin.value.target else None, b) && Holds(b, c)
  {
    OriginPattern(origin, b);
    hide OnTarget, WildcardMatch, ConditionMatches, TargetPattern;
  }

  lemma MergeScopeMeans(c: Option<Condition>, b: Action)
    ensures Matches(b, RuleScope("gh", "pr-merge", Some("PR#*"), c)) <==>
      IsCall(b, "gh", "pr-merge") && OnPullRequest(b) && Holds(b, c)
  {
    if b.target.Some? { MergePattern(b.target.value); }
    hide NamesPullRequest, WildcardMatch, ConditionMatches;
  }

  lemma MergePhraseIff(atom: CompileCorrection.Atom, origin: Option<Action>, b: Action)
    requires atom.Phrase? && atom.kind in {MergeWithoutApprovals, MergeWithRejection}
    ensures Matches(b, ScopeFor(TemplateFor(atom, origin), origin)) <==> IsAbout(atom.kind, atom.topic, origin, b)
  {
    var c := Some(if atom.kind == MergeWithoutApprovals then Condition(ApprovedField, Lt, Num(2)) else Condition(RejectedField, Ge, Num(1)));
    FieldsRead(b);
    MergeScopeMeans(c, b);
    hide ReadField, Nested, OnPullRequest, Matches, InferScope, TargetPattern;
  }

  lemma TopicScope(atom: CompileCorrection.Atom, origin: Option<Action>)
    requires atom.Phrase? && atom.kind !in {MergeWithoutApprovals, MergeWithRejection}
    ensures var pattern := TargetPattern(origin);
      ScopeFor(TemplateFor(atom, origin), origin) ==
      match atom.topic
      case ForcePush => RuleScope("git", "push", pattern, Some(Condition(ForceField, Eq, Bool(true))))
      case Fork => RuleScope("gh", "repo-fork", pattern, None)
      case RepoVisibility => RuleScope("gh", "repo-edit-visibility", pattern, None)
      case Deploy => RuleScope("deploy", "deploy", pattern, None)
      case Merge => RuleScope("gh", "pr-merge", Some("PR#*"), None)
      case OriginatingAction =>
        RuleScope(if origin.Some? then origin.value.tool else "*", if origin.Some? then origin.value.action else "*", pattern, None)
  {
    hide TargetPatternFor;
  }

  lemma TopicPhraseIff(atom: CompileCorrection.Atom, origin: Option<Action>, b: Action)
    requires atom.Phrase? && atom.kind !in {MergeWithoutApprovals, MergeWithRejection}
    ensures Matches(b, ScopeFor(TemplateFor(atom, origin), origin)) <==> AboutTopic(atom.topic, origin, b)
  {
    hide Matches, ScopeFor, TemplateFor, OnTarget, TargetPattern, ReadField;
    TopicScope(atom, origin);
    var force := Some(Condition(ForceField, Eq, Bool(true)));
    match atom.topic
    case ForcePush =>
      OriginScopeMeans(origin, "git", "push", force, b);
      FieldsRead(b);
    case Fork => OriginScopeMeans(origin, "gh", "repo-fork", None, b);
    case RepoVisibility => OriginScopeMeans(origin, "gh", "repo-edit-visibility", None, b);
    case Deploy => OriginScopeMeans(origin, "deploy", "deploy", None, b);
    case Merge => MergeScopeMeans(None, b);
    case OriginatingAction =>
      OriginScopeMeans(origin, if origin.Some? then origin.value.tool else "*",
                       if origin.Some? then origin.value.action else "*", None, b);
      OnNoTarget(origin, b);
  }

  lemma OnNoTarget(origin: Option<Action>, b: Action)
    ensures origin.None? ==> OnTarget(None, b)
  {
  }

  /** The scope compiled from a phrase matches exactly the actions the phrase is about. */
  lemma PhraseScopeIff(atom: CompileCorrection.Atom, origin: Option<Action>, b: Action)
    requires atom.Phrase?
    ensures Matches(b, ScopeFor(TemplateFor(atom, origin), origin)) <==> IsAbout(atom.kind, atom.topic, origin, b)
  {
    hide Matches, ScopeFor, TemplateFor, AboutTopic;
    if atom.kind in {MergeWithoutApprovals, MergeWithRejection} {
      MergePhraseIff(atom, origin, b);
    } else {
      TopicPhraseIff(atom, origin, b);
    }
  }

  /** How much a phrase constrains: 1 for a tool, 2 for an action, 4 for a target, 8 for a condition. */
  function PhraseWeight(kind: PhraseKind, topic: Topic, origin: Option<Action>): nat {
    var target := if origin.Some? && origin.value.target.Some? then 4 else 0;
    if kind in {MergeWithoutApprovals, MergeWithRejection} then 15
    else match topic
      case ForcePush => 11 + target
      case Merge => 7
      case OriginatingAction =>
        if origin.None? then 0
        else (if origin.value.tool == "*" then 0 else 1) + (if origin.value.action == "*" then 0 else 2) + target
      case _ => 3 + target
  }

  lemma PhraseScopeWeight(atom: CompileCorrection.Atom, origin: Option<Action>)
    requires atom.Phrase?
    ensures Specificity(ScopeFor(TemplateFor(atom, origin), origin)) == PhraseWeight(atom.kind, atom.topic, origin)
  {
    if atom.kind !in {MergeWithoutApprovals, MergeWithRejection} {
      hide ScopeFor, TemplateFor, TargetPatternFor;
      TopicScope(atom, origin);
      TopicWeight(atom, origin);
    }
  }

  lemma TopicWeight(atom: CompileCorrection.Atom, origin: Option<Action>)
    ensures "gh"[0] != "*"[0] && "git"[0] != "*"[0] && "deploy"[0] != "*"[0] && "push"[0] != "*"[0]
    ensures "repo-fork"[0] != "*"[0] && "repo-edit-visibility"[0] != "*"[0] && "pr-merge"[0] != "*"[0]
  {
  }

  /** A compiled rule says what its phrase says, of exactly the actions the phrase is about. */
  ghost predicate Renders(r: Rule, atom: CompileCorrection.Atom, origin: Option<Action>)
    requires atom.Phrase?
  {
    && r.effect.verdict == (if Forbids(atom.kind) then Deny else Ask)
    && r.effect.actionType == (if Forbids(atom.kind) then BlockAgentAction
                               else if atom.kind == MatchShape then GenerateEval else RequireApproval)
    && r.effect.reasons == [atom.reason] && r.effect.requiredBefore == [atom.requiredBefore]
    && Specificity(r.scope) == PhraseWeight(atom.kind, atom.topic, origin)
    && forall b :: Matches(b, r.scope) <==> IsAbout(atom.kind, atom.topic, origin, b)
  }

  /** A first proposal, traced to its correction, under these ids and at this time. */
  predicate DrawnAs(r: Rule, correctionId: string, ruleId: string, evalCaseId: string, createdAt: string) {
    && r.id == ruleId && r.version == 1 && r.fromCorrectionId == correctionId && r.evalCaseId == evalCaseId
    && r.status == Proposed && r.supersedesId.None? && r.createdAt == createdAt
  }

  lemma RuleRenders(
    atom: CompileCorrection.Atom, origin: Option<Action>, correctionId: string, ruleId: string, evalCaseId: string, createdAt: string)
    requires atom.Phrase?
    ensures var r := CompileRule(atom, origin, correctionId, ruleId, evalCaseId, createdAt);
      Renders(r, atom, origin) && DrawnAs(r, correctionId, ruleId, evalCaseId, createdAt)
  {
    var r := CompileRule(atom, origin, correctionId, ruleId, evalCaseId, createdAt);
    PhraseScopeWeight(atom, origin);
    hide Matches, IsAbout, Specificity, PhraseWeight;
    forall b ensures Matches(b, r.scope) <==> IsAbout(atom.kind, atom.topic, origin, b) {
      PhraseScopeIff(atom, origin, b);
    }
  }

  /** The compiled rules, one for each phrase in order, with the ids and the readings they are drawn in. */
  lemma {:induction false} CompiledRulesRender(
    atoms: seq<CompileCorrection.Atom>, origin: Option<Action>, correctionId: string, ids: nat -> string, clock: nat -> string, n: nat, t: nat)
    ensures var c := CompileAtoms(atoms, origin, correctionId, ids, clock, n, t);
      c.rules.Some? ==>
        && |c.rules.value| == |atoms|
        && forall i | 0 <= i < |atoms| ::
             && atoms[i].Phrase? && Renders(c.rules.value[i], atoms[i], origin)
             && DrawnAs(c.rules.value[i], correctionId, ids(n + 3 * i), ids(n + 3 * i + 1), clock(t + 3 * i))
    decreases |atoms|
  {
    hide ValidRule, CompileRule, Renders, DrawnAs;
    if atoms != [] && atoms[0].Phrase? {
      CompiledRulesRender(atoms[1..], origin, correctionId, ids, clock, n + 3, t + 3);
      var rule := CompileRule(atoms[0], origin, correctionId, ids(n), ids(n + 1), clock(t));
      RuleRenders(atoms[0], origin, correctionId, ids(n), ids(n + 1), clock(t));
      var rest := CompileAtoms(atoms[1..], origin, correctionId, ids, clock, n + 3, t + 3).rules;
      if ValidRule(rule) && rest.Some? {
        forall i | 0 <= i < |atoms|
          ensures atoms[i].Phrase? && Renders(([rule] + rest.value)[i], atoms[i], origin)
          ensures DrawnAs(([rule] + rest.value)[i], correctionId, ids(n + 3 * i), ids(n + 3 * i + 1), clock(t + 3 * i))
        {
          if i > 0 {
            assert atoms[1..][i - 1] == atoms[i] && ([rule] + rest.value)[i] == rest.value[i - 1];
            assert n + 3 + 3 * (i - 1) == n + 3 * i && t + 3 + 3 * (i - 1) == t + 3 * i;
          }
        }
      }
    }
  }

  /** A phrase about the action it was said of is about that action. */
  lemma AboutItself(kind: PhraseKind, a: Action)
    requires kind !in {MergeWithoutApprovals, MergeWithRejection}
    ensures IsAbout(kind, OriginatingAction, Some(a), a)
  {
    hide TargetFits;
    if a.target.Some? { FitsItself(a.target.value); }
  }

  lemma FitsItself(t: string)
    ensures TargetFits(t, t)
  {
    hide GlobMatch, WildcardMatch, TargetPatternFor;
    TargetPatternMatches(t);
    TargetPatternIff(t, t);
  }
}
