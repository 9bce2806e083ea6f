/**
 The correction compiler (packages/governance/src/compile-correction.ts) from the level of
 its phrase table: each phrase of a correction, once recognised, becomes one proposed rule
 that denies or asks, never one that allows.
 */
module CompileCorrection {
  import opened Prelude
  import opened Text
  import opened CanonicalJson
  import opened AuditEvents
  import opened Globs
  import opened PolicyEngine

  /** The rows of the phrase table. */
  datatype PhraseKind =
    MergeWithoutApprovals | MergeWithRejection | NeverDo | AskBefore | AlwaysInclude | MatchShape | HardRequirement

  /** What the text of a phrase is about, as far as the compiler infers a scope from it. */
  datatype Topic = ForcePush | Fork | RepoVisibility | Deploy | Merge | OriginatingAction

  /** One phrase of a correction: recognised, or vague or unsupported. */
  datatype Atom = Unsupported | Phrase(kind: PhraseKind, topic: Topic, reason: string, requiredBefore: string)

  datatype ScopeOverride = ScopeOverride(
    tool: Option<string>, action: Option<string>, targetPattern: Option<string>, condition: Option<Condition>)

  datatype Template = Template(
    verdict: Verdict, actionType: ActionType, reason: string, requiredBefore: string,
    scopeOverride: ScopeOverride, condition: Option<Condition>)

  /** `/^PR#\d+$/` */
  predicate IsPullRequest(target: string) {
    |target| > 3 && target[..3] == "PR#" && forall i | 3 <= i < |target| :: IsDigit(target[i])
  }

  function TargetPatternFor(target: string): string {
    if IsPullRequest(target) then "PR#*" else target
  }

  function TargetPattern(origin: Option<Action>): Option<string> {
    if origin.Some? && origin.value.target.Some? then Some(TargetPatternFor(origin.value.target.value)) else None
  }

  const PULL_REQUESTS := ScopeOverride(Some("gh"), Some("pr-merge"), Some("PR#*"), None)

  /** `inferScopeFromText` */
  function InferScope(topic: Topic, origin: Option<Action>): ScopeOverride {
    match topic
    case ForcePush => ScopeOverride(Some("git"), Some("push"), None, Some(Condition(ForceField, Eq, Bool(true))))
    case Fork => ScopeOverride(Some("gh"), Some("repo-fork"), None, None)
    case RepoVisibility => ScopeOverride(Some("gh"), Some("repo-edit-visibility"), None, None)
    case Deploy => ScopeOverride(Some("deploy"), Some("deploy"), None, None)
    case Merge => PULL_REQUESTS
    case OriginatingAction =>
      if origin.Some? then ScopeOverride(Some(origin.value.tool), Some(origin.value.action), TargetPattern(origin), None)
      else ScopeOverride(None, None, None, None)
  }

  /** `templateFor` */
  function TemplateFor(atom: Atom, origin: Option<Action>): Template
    requires atom.Phrase?
  {
    var inferred := InferScope(atom.topic, origin);
    match atom.kind
    case MergeWithoutApprovals =>
      Template(Deny, BlockAgentAction, atom.reason, atom.requiredBefore, PULL_REQUESTS, Some(Condition(ApprovedField, Lt, Num(2))))
    case MergeWithRejection =>
      Template(Deny, BlockAgentAction, atom.reason, atom.requiredBefore, PULL_REQUESTS, Some(Condition(RejectedField, Ge, Num(1))))
    case NeverDo => Template(Deny, BlockAgentAction, atom.reason, atom.requiredBefore, inferred, None)
    case AskBefore => Template(Ask, RequireApproval, atom.reason, atom.requiredBefore, inferred, None)
    case AlwaysInclude => Template(Deny, BlockAgentAction, atom.reason, atom.requiredBefore, inferred, None)
    case MatchShape => Template(Ask, GenerateEval, atom.reason, atom.requiredBefore, inferred, None)
    case HardRequirement => Template(Ask, RequireApproval, atom.reason, atom.requiredBefore, inferred, None)
  }

  function Either<T>(first: Option<T>, second: Option<T>): Option<T> { if first.Some? then first else second }

  /** `scopeFor`: the originating action, overridden by the template. */
  function ScopeFor(t: Template, origin: Option<Action>): RuleScope {
    RuleScope(t.scopeOverride.tool.GetOr(if origin.Some? then origin.value.tool else "*"),
              t.scopeOverride.action.GetOr(if origin.Some? then origin.value.action else "*"),
              Either(t.scopeOverride.targetPattern, TargetPattern(origin)),
              Either(t.condition, t.scopeOverride.condition))
  }

  function CompileRule(atom: Atom, origin: Option<Action>, correctionId: string, ruleId: string, evalCaseId: string, createdAt: string): Rule
    requires atom.Phrase?
  {
    var t := TemplateFor(atom, origin);
    Rule(ruleId, 1, correctionId, evalCaseId, ScopeFor(t, origin),
         Effect(t.verdict, t.actionType, [t.reason], [t.requiredBefore]), Proposed, None, createdAt)
  }

  /** The compiled rules, or `None` for a thrown error, and how many ids and clock readings were used. */
  datatype Compiled = Compiled(rules: Option<seq<Rule>>, nextId: nat, ticks: nat)

  /** Each recognised phrase draws three ids and reads the clock three times. */
  function CompileAtoms(
    atoms: seq<Atom>, origin: Option<Action>, correctionId: string, ids: nat -> string, clock: nat -> string, n: nat, t: nat): Compiled
    decreases |atoms|
  {
    if atoms == [] then Compiled(Some([]), n, t)
    else if atoms[0].Unsupported? then Compiled(None, n, t)
    else
      var rule := CompileRule(atoms[0], origin, correctionId, ids(n), ids(n + 1), clock(t));
      if !ValidRule(rule) then Compiled(None, n + 3, t + 1)
      else
        var rest := CompileAtoms(atoms[1..], origin, correctionId, ids, clock, n + 3, t + 3);
        if rest.rules.None? then rest else rest.(rules := Some([rule] + rest.rules.value))
  }

  /** `compileCorrection`: an empty correction throws before anything is drawn. */
  function Compile(
    atoms: seq<Atom>, origin: Option<Action>, correctionId: string, ids: nat -> string, clock: nat -> string, n: nat, t: nat): Compiled
  {
    if atoms == [] then Compiled(None, n, t) else CompileAtoms(atoms, origin, correctionId, ids, clock, n, t)
  }

  /** What compiling yields once `front` has been compiled and `rest` is what follows. */
  function Onward(front: seq<Rule>, rest: Compiled): Compiled {
    if rest.rules.None? then rest else rest.(rules := Some(front + rest.rules.value))
  }

  lemma CompiledStep(front: seq<Rule>, rule: Rule, rest: Compiled)
    ensures Onward(front + [rule], rest) == Onward(front, if rest.rules.None? then rest else rest.(rules := Some([rule] + rest.rules.value)))
  {
    if rest.rules.Some? { Associate(front, [rule], rest.rules.value); }
  }

  method CompileCorrectionLoop(
    atoms: seq<Atom>, origin: Option<Action>, correctionId: string, ids: nat -> string, clock: nat -> string, n: nat, t: nat)
    returns (c: Compiled)
    ensures c == Compile(atoms, origin, correctionId, ids, clock, n, t)
  {
    hide ValidRule, CompileRule, Onward;
    if |atoms| == 0 { return Compiled(None, n, t); }
    var policyRules: seq<Rule> := [];
    var nextId, ticks := n, t;
    ghost var goal := Compile(atoms, origin, correctionId, ids, clock, n, t);
    assert atoms[0..] == atoms;
    CompiledNothing(goal);
    for i := 0 to |atoms|
      invariant goal == Onward(policyRules, CompileAtoms(atoms[i..], origin, correctionId, ids, clock, nextId, ticks))
    {
      assert atoms[i..][1..] == atoms[i + 1..] && atoms[i..][0] == atoms[i];
      if atoms[i].Unsupported? {
        CompiledFailure(policyRules, nextId, ticks);
        return Compiled(None, nextId, ticks);
      }
      var ruleId := ids(nextId);
      var evalCaseId := ids(nextId + 1);
      var rule := CompileRule(atoms[i], origin, correctionId, ruleId, evalCaseId, clock(ticks));
      if !ValidRule(rule) {
        CompiledFailure(policyRules, nextId + 3, ticks + 1);
        return Compiled(None, nextId + 3, ticks + 1);
      }
      nextId, ticks := nextId + 3, ticks + 3;
      CompiledStep(policyRules, rule, CompileAtoms(atoms[i + 1..], origin, correctionId, ids, clock, nextId, ticks));
      policyRules := policyRules + [rule];
    }
    CompiledAll(policyRules, nextId, ticks);
    c := Compiled(Some(policyRules), nextId, ticks);
  }

  lemma CompiledNothing(rest: Compiled)
    ensures Onward([], rest) == rest
  {
    if rest.rules.Some? { assert [] + rest.rules.value == rest.rules.value; }
  }

  lemma CompiledFailure(front: seq<Rule>, n: nat, t: nat)
    ensures Onward(front, Compiled(None, n, t)) == Compiled(None, n, t)
  {
  }

  lemma CompiledAll(front: seq<Rule>, n: nat, t: nat)
    ensures Onward(front, Compiled(Some([]), n, t)) == Compiled(Some(front), n, t)
  {
    assert front + [] == front;
  }

  // ---------------------------------------------------------------- what compiled rules are

  /** Recognised phrases carry non-empty texts. */
  predicate ValidAtoms(atoms: seq<Atom>) {
    forall a | a in atoms && a.Phrase? :: a.reason != "" && a.requiredBefore != ""
  }

  lemma CompiledRuleValid(atom: Atom, origin: Option<Action>, correctionId: string, ruleId: string, evalCaseId: string, createdAt: string)
    requires atom.Phrase? && atom.reason != "" && atom.requiredBefore != ""
    requires (origin.Some? ==> ValidAction(origin.value)) && correctionId != "" && ruleId != "" && evalCaseId != ""
    requires IsTimestamp(createdAt)
    ensures ValidRule(CompileRule(atom, origin, correctionId, ruleId, evalCaseId, createdAt))
  {
    hide IsTimestamp;
  }

  /** What the gateway relies on: one proposed deny or ask rule for each phrase, under new ids. */
  predicate FreshProposal(r: Rule, id: string) {
    ValidRule(r) && r.id == id && r.status == Proposed && r.supersedesId.None? && r.effect.verdict != Allow
  }

  lemma CompiledRuleFresh(atom: Atom, origin: Option<Action>, correctionId: string, ruleId: string, evalCaseId: string, createdAt: string)
    requires atom.Phrase?
    ensures var r := CompileRule(atom, origin, correctionId, ruleId, evalCaseId, createdAt);
      ValidRule(r) ==> FreshProposal(r, ruleId)
  {
    hide ValidRule;
  }

  lemma {:induction false} CompiledRules(
    atoms: seq<Atom>, origin: Option<Action>, correctionId: string, ids: nat -> string, clock: nat -> string, n: nat, t: nat)
    ensures var c := CompileAtoms(atoms, origin, correctionId, ids, clock, n, t);
      && c.nextId >= n && c.ticks >= t
      && (c.rules.Some? ==>
           && |c.rules.value| == |atoms| && c.nextId == n + 3 * |atoms|
           && forall i | 0 <= i < |atoms| :: FreshProposal(c.rules.value[i], ids(n + 3 * i)))
    decreases |atoms|
  {
    hide ValidRule, CompileRule, FreshProposal;
    if atoms != [] && atoms[0].Phrase? {
      CompiledRules(atoms[1..], origin, correctionId, ids, clock, n + 3, t + 3);
      var rule := CompileRule(atoms[0], origin, correctionId, ids(n), ids(n + 1), clock(t));
      CompiledRuleFresh(atoms[0], origin, correctionId, ids(n), ids(n + 1), clock(t));
      var rest := CompileAtoms(atoms[1..], origin, correctionId, ids, clock, n + 3, t + 3);
      if ValidRule(rule) && rest.rules.Some? {
        forall i | 0 <= i < |atoms| ensures FreshProposal(([rule] + rest.rules.value)[i], ids(n + 3 * i)) {
          if i > 0 { assert FreshProposal(rest.rules.value[i - 1], ids(n + 3 + 3 * (i - 1))); }
        }
      }
    }
  }

  /** Compilation throws exactly on an empty correction or an unsupported phrase. */
  lemma {:induction false} CompileThrowsIff(
    atoms: seq<Atom>, origin: Option<Action>, correctionId: string, ids: nat -> string, clock: nat -> string, n: nat, t: nat)
    requires ValidAtoms(atoms) && (origin.Some? ==> ValidAction(origin.value)) && correctionId != ""
    requires (forall i :: ids(i) != "") && (forall i :: IsTimestamp(clock(i)))
    ensures CompileAtoms(atoms, origin, correctionId, ids, clock, n, t).rules.None? <==> Unsupported in atoms
    ensures Compile(atoms, origin, correctionId, ids, clock, n, t).rules.None? <==> atoms == [] || Unsupported in atoms
    decreases |atoms|
  {
    hide IsTimestamp, ValidRule, CompileRule;
    if atoms != [] {
      CompileThrowsIff(atoms[1..], origin, correctionId, ids, clock, n + 3, t + 3);
      if atoms[0].Phrase? {
        assert atoms[0] in atoms;
        CompiledRuleValid(atoms[0], origin, correctionId, ids(n), ids(n + 1), clock(t));
      }
      assert atoms == [atoms[0]] + atoms[1..];
    }
  }

  /** The pattern built from a target matches that target. */
  lemma TargetPatternMatches(target: string)
    ensures WildcardMatch(TargetPatternFor(target), target)
  {
    hide WildcardMatch;
    if IsPullRequest(target) {
      assert target == "PR#" + target[3..];
      PrefixStar("PR#", target[3..]);
      assert "PR#" + "*" == "PR#*";
    } else {
      MatchesItself(target);
    }
  }
}
