/**
 What the gateway learns (packages/integrations/intercept-gateway/src/gateway.ts): whatever rules
 are stored, from this run or an earlier one, whatever the ledger holds and however often ids
 repeat, drops only add blocking rules and forwards only add allow rules, in memory and on file.
 */
module GatewayCoverage {
  import opened Prelude
  import opened Sorting
  import opened KeyedStores
  import opened AuditLedgers
  import opened PolicyEngine
  import opened PolicyStores
  import opened ProxyHistories
  import opened PolicyAudit
  import opened CompileCorrection
  import opened GatewaySteps

  // ---------------------------------------------------------------- deciding from the stored rules

  lemma StoredRulesDecide(a: Action, rules: seq<Rule>, mode: Mode, scope: Option<ProxyScope>)
    requires ValidAction(a) && ValidRules(rules) && DistinctIds(rules)
    ensures DecideFromStore(a, Ok(rules), mode, scope) == Decide(a, rules, mode, scope)
    ensures var d := Decide(a, rules, mode, scope);
      d.source != Operator && (d.sourceRuleId.Some? ==> d.sourceRuleId.value != "")
  {
    hide BestMatchingRule, ValidAction, EvaluateScope, DistinctIds, InScope, ValidRules;
    BestHasId(a, rules);
  }

  lemma BestHasId(a: Action, rules: seq<Rule>)
    requires ValidRules(rules) && DistinctIds(rules)
    ensures BestMatchingRule(a, rules).Some? ==> BestMatchingRule(a, rules).value.id != ""
  {
    BestIsGreatest(a, rules);
    hide BestMatchingRule, Matches, DistinctIds, Before, Specificity;
    assert forall r | r in rules :: ValidRule(r);
  }

  lemma ActiveRulesMembers(rules: seq<Rule>)
    ensures forall r :: r in ActiveRulesOf(rules) <==> r in rules && r.status == Active
  {
    FilterMembers(Saved(RULES, rules), IsActive);
    SortElements(rules, Order(RULES));
    forall r ensures r in Saved(RULES, rules) <==> r in rules {
      assert r in Elements(Saved(RULES, rules)) <==> r in Elements(rules);
    }
  }

  lemma ActiveRulesDistinct(rules: seq<Rule>)
    requires Distinct(RULES, rules)
    ensures DistinctIds(ActiveRulesOf(rules))
  {
    SortPermutes(rules, Order(RULES));
    PermutationDistinct(RULES, rules, Saved(RULES, rules));
    WithoutDistinct(RULES, Saved(RULES, rules), IsActive);
    var active := ActiveRulesOf(rules);
    forall i, j | 0 <= i < j < |active| ensures active[i].id != active[j].id {
      assert RULES.id(active[i]) != RULES.id(active[j]);
    }
  }

  // ---------------------------------------------------------------- the store grows

  ghost predicate AllValid(rules: seq<Rule>) { forall r | r in rules :: ValidRule(r) }

  predicate Allows(r: Rule) { r.effect.verdict == Allow }

  /** Every stored rule stays; each new one is valid, and an allow rule exactly if `allows`. */
  ghost predicate GrowsBy(rules: seq<Rule>, rules': seq<Rule>, allows: bool) {
    && Distinct(RULES, rules')
    && (forall r | r in rules :: r in rules')
    && (forall r | r in rules' && r !in rules :: ValidRule(r) && Allows(r) == allows)
  }

  lemma GrowsOn(a: seq<Rule>, b: seq<Rule>, c: seq<Rule>, allows: bool)
    requires GrowsBy(a, b, allows) && GrowsBy(b, c, allows)
    ensures GrowsBy(a, c, allows)
  {
    hide ValidRule, Distinct;
  }

  lemma SavedKeeps(m: Medium, rules: seq<Rule>)
    requires Distinct(RULES, rules)
    ensures Distinct(RULES, Write(m, RULES, rules)) && forall r :: r in Write(m, RULES, rules) <==> r in rules
  {
    SortPermutes(rules, Order(RULES));
    PermutationDistinct(RULES, rules, Saved(RULES, rules));
    SameElements(Saved(RULES, rules), rules);
    hide Saved, Distinct;
    forall r ensures r in Saved(RULES, rules) <==> r in rules {
      assert r in Elements(Saved(RULES, rules)) <==> r in Elements(rules);
    }
  }

  lemma PutAdds(m: Medium, rules: seq<Rule>, r: Rule)
    requires Distinct(RULES, rules)
    ensures var (answer, rules') := OnRules(m, rules, PutRule(r));
      && Distinct(RULES, rules')
      && (answer.Failed? ==> rules' == rules)
      && (!answer.Failed? ==>
            && ValidRule(r) && (forall q | q in rules :: q.id != r.id)
            && forall q :: q in rules' <==> q in rules || q == r)
  {
    hide ValidRule, Saved;
    if !Has(RULES, rules, r.id) {
      forall q | q in rules ensures q.id != r.id {
        var i :| 0 <= i < |rules| && rules[i] == q;
        assert RULES.id(rules[i]) != r.id;
      }
      assert Distinct(RULES, rules + [r]);
      SavedKeeps(m, rules + [r]);
    }
  }

  lemma UpdateSwaps(m: Medium, rules: seq<Rule>, r: Rule)
    requires Distinct(RULES, rules)
    ensures var (answer, rules') := OnRules(m, rules, UpdateRule(r));
      && Distinct(RULES, rules')
      && (answer.Failed? ==> rules' == rules)
      && (!answer.Failed? ==> ValidRule(r) && forall q :: q in rules' <==> q == r || (q in rules && q.id != r.id))
  {
    hide ValidRule, Saved;
    if Has(RULES, rules, r.id) {
      var i, swapped := Find(RULES, rules, r.id), Replace(RULES, rules, r);
      forall j | 0 <= j < |rules| && j != i ensures rules[j].id != r.id && swapped[j] == rules[j] {
        assert RULES.id(rules[j]) != RULES.id(rules[i]);
      }
      assert swapped[i] == r && RULES.id(rules[i]) == r.id;
      assert Distinct(RULES, swapped);
      forall q ensures q in swapped <==> q == r || (q in rules && q.id != r.id) {
        if q in rules && q.id != r.id {
          var j :| 0 <= j < |rules| && rules[j] == q;
          assert swapped[j] == q;
        }
      }
      SavedKeeps(m, swapped);
    }
  }

  // ---------------------------------------------------------------- what changes the store

  lemma LogStores(env: Env, s: GatewayState, a: Action, d: Decision, from: Option<string>, remarks: Remarks)
    ensures var (r, s') := LogVerdict(env, s, a, d, from, remarks);
      s'.rules == s.rules && s'.scope == s.scope && (r.Ok? ==> ValidAction(a))
  {
    hide ValidAction, Seal, OnHistory, VerdictEvent, NewEntry;
  }

  lemma RuleStores(env: Env, s: GatewayState, call: RuleCall, r: Rule)
    ensures var (answer, rules') := OnRules(env.medium, s.rules, call);
      var s' := StoreRule(env, s, call, r).1;
      && s'.scope == s.scope && s'.rules == (if answer.Failed? then s.rules else rules')
      && (StoreRule(env, s, call, r).0.Ok? ==> !answer.Failed?)
  {
    hide ValidRule, Seal, OnRules, RuleEvent;
  }

  lemma ProposalGrows(env: Env, s: GatewayState, p: Rule, activate: bool)
    requires Distinct(RULES, s.rules) && !Allows(p)
    ensures var s' := StoreProposal(env, s, p, activate).1; s'.scope == s.scope && GrowsBy(s.rules, s'.rules, false)
  {
    hide StoreRule, OnRules, ValidRule, Distinct;
    var active := p.(status := Active);
    RuleStores(env, s, PutRule(p), p);
    PutAdds(env.medium, s.rules, p);
    var s1 := StoreRule(env, s, PutRule(p), p).1;
    RuleStores(env, s1, UpdateRule(active), active);
    UpdateSwaps(env.medium, s1.rules, active);
  }

  lemma {:induction false} ProposalsGrow(env: Env, s: GatewayState, proposals: seq<Rule>, activate: bool)
    requires Distinct(RULES, s.rules) && forall i | 0 <= i < |proposals| :: !Allows(proposals[i])
    ensures var s' := StoreProposals(env, s, proposals, activate).1; s'.scope == s.scope && GrowsBy(s.rules, s'.rules, false)
    decreases |proposals|
  {
    hide StoreProposal, Allows, ValidRule;
    if proposals != [] {
      ProposalGrows(env, s, proposals[0], activate);
      var s1 := StoreProposal(env, s, proposals[0], activate).1;
      ProposalsGrow(env, s1, proposals[1..], activate);
      GrowsOn(s.rules, s1.rules, StoreProposals(env, s1, proposals[1..], activate).1.rules, false);
    }
  }

  lemma CompiledBlock(atoms: seq<Atom>, origin: Option<Action>, correctionId: string, ids: nat -> string, clock: nat -> string, n: nat, t: nat)
    ensures var c := Compile(atoms, origin, correctionId, ids, clock, n, t);
      c.rules.Some? ==> forall i | 0 <= i < |c.rules.value| :: !Allows(c.rules.value[i])
  {
    CompiledRules(atoms, origin, correctionId, ids, clock, n, t);
    hide CompileAtoms, ValidRule;
    var c := Compile(atoms, origin, correctionId, ids, clock, n, t);
    if c.rules.Some? {
      forall i | 0 <= i < |c.rules.value| ensures !Allows(c.rules.value[i]) {
        assert FreshProposal(c.rules.value[i], ids(n + 3 * i));
      }
    }
  }

  lemma DisapproveGrows(env: Env, s: GatewayState, a: Action, original: Option<Action>, input: OperatorInput)
    requires Distinct(RULES, s.rules)
    ensures var s' := Disapprove(env, s, a, original, input).1; s'.scope == s.scope && GrowsBy(s.rules, s'.rules, false)
  {
    hide ValidCorrection, LogVerdict, StoreProposals, Compile, Allows, ValidRule, Distinct, Disapproved;
    var correctionId := env.ids(s.nextId);
    var remarks := Remarks(Some(input.queueId), original, [], Some(["intercept.drop"]));
    LogStores(env, Drawn(s, 1, 1), a, Disapproved(input.reason), Some(correctionId), remarks);
    var s1 := LogVerdict(env, Drawn(s, 1, 1), a, Disapproved(input.reason), Some(correctionId), remarks).1;
    CompiledBlock(env.phrases(input.reason), Some(a), correctionId, env.ids, env.clock, s1.nextId, s1.ticks);
    var c := Compile(env.phrases(input.reason), Some(a), correctionId, env.ids, env.clock, s1.nextId, s1.ticks);
    if c.rules.Some? { ProposalsGrow(env, s1.(nextId := c.nextId, ticks := c.ticks), c.rules.value, input.activate); }
  }

  /** A forward adds at most one rule; when it succeeds, an active allow rule for the forwarded action. */
  lemma ApproveGrows(env: Env, s: GatewayState, a: Action, original: Option<Action>, input: OperatorInput)
    requires Distinct(RULES, s.rules)
    ensures var (r, s') := Approve(env, s, a, original, input);
      && s'.scope == s.scope && GrowsBy(s.rules, s'.rules, true)
      && (forall rule | rule in s'.rules && rule !in s.rules :: rule.scope == ApprovalScopeFor(a))
      && (r.Ok? ==>
            && ValidAction(a)
            && exists rule | rule in s'.rules :: rule.status == Active && rule.scope == ApprovalScopeFor(a))
  {
    hide ValidCorrection, LogVerdict, StoreRule, OnRules, ValidRule, ApprovalScopeFor, ApprovalText, ValidAction,
         Distinct;
    var correctionId := env.ids(s.nextId);
    var remarks := Remarks(Some(input.queueId), original, [], Some(["intercept.forward"]));
    LogStores(env, Drawn(s, 1, 1), a, APPROVED, Some(correctionId), remarks);
    var s1 := LogVerdict(env, Drawn(s, 1, 1), a, APPROVED, Some(correctionId), remarks).1;
    var rule := ApprovalRule(env, s1, a, correctionId);
    RuleStores(env, Drawn(s1, 2, 2), PutRule(rule), rule);
    PutAdds(env.medium, s1.rules, rule);
    assert Allows(rule);
  }

  /** The action an operator verdict is about. */
  function VerdictAction(s: GatewayState, input: OperatorInput): Option<Action> {
    match Lookup(ITEMS, s.queue, input.queueId)
    case None => None
    case Some(item) => Some(input.editedAction.GetOr(item.action))
  }

  lemma OperatorGrows(env: Env, s: GatewayState, input: OperatorInput)
    requires Distinct(RULES, s.rules)
    ensures var (r, s') := OperatorStep(env, s, input);
      && s'.scope == s.scope && GrowsBy(s.rules, s'.rules, input.approve)
      && (input.approve ==> forall rule | rule in s'.rules && rule !in s.rules ::
            VerdictAction(s, input).Some? && rule.scope == ApprovalScopeFor(VerdictAction(s, input).value))
      && (r.Ok? && input.approve ==>
            && VerdictAction(s, input).Some? && ValidAction(VerdictAction(s, input).value)
            && exists rule | rule in s'.rules :: rule.status == Active && rule.scope == ApprovalScopeFor(VerdictAction(s, input).value))
  {
    hide ValidAction, Approve, Disapprove, OnQueue, Lookup, ApprovalScopeFor, ValidRule, Distinct;
    var item := Lookup(ITEMS, s.queue, input.queueId);
    var s0 := s.(queue := OnQueue(env.medium, s.queue, Remove(input.queueId)).1);
    if item.Some? {
      var action := input.editedAction.GetOr(item.value.action);
      var original := if input.editedAction.Some? then Some(item.value.action) else None;
      ApproveGrows(env, s0, action, original, input);
      DisapproveGrows(env, s0, action, original, input);
    }
  }

  lemma {:induction false} OperatorsGrow(env: Env, s: GatewayState, inputs: seq<OperatorInput>, approve: bool)
    requires Distinct(RULES, s.rules) && forall i | 0 <= i < |inputs| :: inputs[i].approve == approve
    ensures var s' := OperatorSteps(env, s, inputs).1; s'.scope == s.scope && GrowsBy(s.rules, s'.rules, approve)
    decreases |inputs|
  {
    hide OperatorStep, ValidRule;
    if inputs != [] {
      OperatorGrows(env, s, inputs[0]);
      var s1 := OperatorStep(env, s, inputs[0]).1;
      OperatorsGrow(env, s1, inputs[1..], approve);
      GrowsOn(s.rules, s1.rules, OperatorSteps(env, s1, inputs[1..]).1.rules, approve);
    }
  }

  // ---------------------------------------------------------------- every call

  /** Every stored rule stays, and no invalid one is added. */
  ghost predicate Keeps(rules: seq<Rule>, rules': seq<Rule>) {
    Distinct(RULES, rules') && (forall r | r in rules :: r in rules') && (AllValid(rules) ==> AllValid(rules'))
  }

  lemma GrowingKeeps(rules: seq<Rule>, rules': seq<Rule>, allows: bool)
    requires GrowsBy(rules, rules', allows)
    ensures Keeps(rules, rules')
  {
    hide ValidRule, Distinct;
  }

  lemma JudgeStores(env: Env, s: GatewayState, p: Prepared)
    ensures Judge(env, s, p).1.rules == s.rules
  {
    hide LogVerdict, DecideNow, OnQueue, QueueFailedClosed;
    var decision := DecideNow(s, p.action, s.mode);
    var queueId := env.ids(s.nextId);
    var (answer, queue) := OnQueue(env.medium, s.queue, Enqueue(QueuedIntercept(queueId, p.action, env.clock(s.ticks))));
    var d := if answer.Failed? then QueueFailedClosed(answer.error) else decision;
    LogStores(env, s, p.action, decision, None, Remarks(None, p.originalAction, p.appliedRuleIds, None));
    LogStores(env, Drawn(s, 1, 1).(queue := queue), p.action, d, None,
              Remarks(if answer.Failed? then None else Some(queueId), p.originalAction, p.appliedRuleIds, None));
  }

  lemma RepeaterStores(env: Env, s: GatewayState, input: RepeaterInput)
    ensures RepeaterStep(env, s, input).1.rules == s.rules
  {
    hide LogVerdict, DecideNow, RepeaterAction, Prepare;
    var raw := RepeaterAction(s, input);
    if raw.Ok? && Prepare(s, raw.value, input.applyMatchReplace).Ok? {
      var p := Prepare(s, raw.value, input.applyMatchReplace).value;
      LogStores(env, s, p.action, DecideNow(s, p.action, input.mode.GetOr(s.mode)), None,
                Remarks(None, p.originalAction, p.appliedRuleIds, Some(["repeater.send"])));
    }
  }

  lemma InputsAgree(s: GatewayState, reason: Option<string>, why: string, activate: bool)
    ensures forall i | 0 <= i < |ForwardInputs(s, reason)| :: ForwardInputs(s, reason)[i].approve
    ensures forall i | 0 <= i < |DropInputs(s, why, activate)| :: !DropInputs(s, why, activate)[i].approve
  {
    hide PendingItems;
  }

  lemma StepStores(env: Env, s: GatewayState, call: Call)
    requires Distinct(RULES, s.rules)
    ensures Keeps(s.rules, Step(env, s, call).rules)
  {
    hide Judge, OperatorSteps, OperatorStep, RepeaterStep, ValidAction, Prepare, Seal, OnHistory, ForwardInputs,
         DropInputs, Distinct, AllValid, OutcomeEvent;
    match call
    case CallIntercept(a) =>
      if ValidAction(a) && Prepare(s, a, true).Ok? { JudgeStores(env, s, Prepare(s, a, true).value); }
    case CallRepeater(input) => RepeaterStores(env, s, input);
    case CallOperator(input) =>
      OperatorGrows(env, s, input);
      GrowingKeeps(s.rules, OperatorStep(env, s, input).1.rules, input.approve);
    case CallForwardAll(reason) =>
      InputsAgree(s, reason, "", false);
      OperatorsGrow(env, s, ForwardInputs(s, reason), true);
      GrowingKeeps(s.rules, OperatorSteps(env, s, ForwardInputs(s, reason)).1.rules, true);
    case CallDropAll(reason, activate) =>
      InputsAgree(s, None, reason, activate);
      OperatorsGrow(env, s, DropInputs(s, reason, activate), false);
      GrowingKeeps(s.rules, OperatorSteps(env, s, DropInputs(s, reason, activate)).1.rules, false);
    case CallOutcome(o) =>
    case CallSetMode(m) =>
    case CallSetScope(scope) =>
    case CallSetReplaceRules(rules) =>
  }

  /** Whatever runs, stored rules stay stored. */
  lemma {:induction false} RunStores(env: Env, s: GatewayState, calls: seq<Call>)
    requires Distinct(RULES, s.rules)
    ensures Keeps(s.rules, Run(env, s, calls).rules)
  {
    hide Step, AllValid, Distinct;
    if calls != [] {
      RunStores(env, s, calls[..|calls| - 1]);
      StepStores(env, Run(env, s, calls[..|calls| - 1]), calls[|calls| - 1]);
    }
  }

  // ---------------------------------------------------------------- learned coverage

  /** The scope compiled from an approved action matches that action. */
  lemma ApprovalScopeMatches(a: Action)
    ensures Matches(a, ApprovalScopeFor(a))
  {
    hide ReadPath;
    if a.target.Some? { TargetPatternMatches(a.target.value); }
  }

  /** An active stored rule that matches an action in scope decides it, in every mode. */
  lemma StoredRuleDecides(s: GatewayState, a: Action, rule: Rule, mode: Mode)
    requires Distinct(RULES, s.rules) && AllValid(s.rules) && ValidAction(a)
    requires rule in s.rules && rule.status == Active && Matches(a, rule.scope) && InScope(a, s.scope)
    ensures DecideNow(s, a, mode).source == Policy
  {
    ActiveRulesMembers(s.rules);
    ActiveRulesDistinct(s.rules);
    hide ActiveRulesOf, ValidAction, InScope, Matches, ValidRule, Decide, DecideFromStore, DistinctIds;
    StoredRulesDecide(a, ActiveRulesOf(s.rules), mode, s.scope);
    SomeRuleDecides(a, ActiveRulesOf(s.rules), rule, mode, s.scope);
  }

  /**
   After a forward that goes through, every later decision on the forwarded action, in any mode and
   along every continuation, comes from a rule as long as the action is in scope. Nothing is asked
   of ids, clock, ledger, queue or history; the stored rules are those of any earlier session.
   */
  lemma LearnedCoverage(env: Env, s: GatewayState, input: OperatorInput, calls: seq<Call>, mode: Mode)
    requires Distinct(RULES, s.rules) && AllValid(s.rules) && input.approve && OperatorStep(env, s, input).0.Ok?
    ensures VerdictAction(s, input).Some?
    ensures var later := Run(env, OperatorStep(env, s, input).1, calls);
      InScope(VerdictAction(s, input).value, later.scope) ==>
        DecideNow(later, VerdictAction(s, input).value, mode).source == Policy
  {
    hide OperatorStep, Run, InScope, DecideNow, Matches, ApprovalScopeFor, ValidAction, AllValid, Distinct,
         VerdictAction;
    OperatorGrows(env, s, input);
    var a, s1 := VerdictAction(s, input).value, OperatorStep(env, s, input).1;
    GrowingKeeps(s.rules, s1.rules, true);
    RunStores(env, s1, calls);
    var later := Run(env, s1, calls);
    var rule :| rule in s1.rules && rule.status == Active && rule.scope == ApprovalScopeFor(a);
    ApprovalScopeMatches(a);
    if InScope(a, later.scope) { StoredRuleDecides(later, a, rule, mode); }
  }

  // ---------------------------------------------------------------- drops and forwards

  /** Deciding from a store that grew by blocking rules, or by allow rules. */
  lemma GrownDecides(s: GatewayState, s': GatewayState, a: Action, mode: Mode, allows: bool)
    requires Distinct(RULES, s.rules) && GrowsBy(s.rules, s'.rules, allows) && s'.scope == s.scope && mode != Shadow
    ensures var before, after := DecideNow(s, a, mode), DecideNow(s', a, mode);
      if allows then (before.allowed ==> after.allowed) && (after.verdict == Deny ==> before.verdict == Deny)
      else after.allowed ==> before.allowed
  {
    var active, active' := ActiveRulesOf(s.rules), ActiveRulesOf(s'.rules);
    ActiveRulesMembers(s.rules);
    ActiveRulesMembers(s'.rules);
    ActiveRulesDistinct(s.rules);
    ActiveRulesDistinct(s'.rules);
    hide ActiveRulesOf, ValidRule, Distinct;
    assert (forall r | r in active :: r in active') && forall r | r in active' && r !in active :: ValidRule(r) && Allows(r) == allows;
    SetsDecide(a, active, active', mode, s.scope, allows);
  }

  lemma SetsDecide(a: Action, rules: seq<Rule>, rules': seq<Rule>, mode: Mode, scope: Option<ProxyScope>, allows: bool)
    requires DistinctIds(rules) && DistinctIds(rules') && mode != Shadow && (forall r | r in rules :: r in rules')
    requires forall r | r in rules' && r !in rules :: ValidRule(r) && Allows(r) == allows
    ensures var before, after := DecideFromStore(a, Ok(rules), mode, scope), DecideFromStore(a, Ok(rules'), mode, scope);
      if allows then (before.allowed ==> after.allowed) && (after.verdict == Deny ==> before.verdict == Deny)
      else after.allowed ==> before.allowed
  {
    assert ValidRules(rules) <==> ValidRules(rules') by { hide ValidRule; }
    hide ValidRule, ValidRules, ValidAction, DistinctIds;
    FailsClosed(a, Ok(rules), mode, scope);
    FailsClosed(a, Ok(rules'), mode, scope);
    OutOfScopeAlike(a, rules, rules', mode, scope);
    if allows {
      AllowsNeverNarrow(a, rules, rules', mode, scope);
    } else {
      BlocksNeverWiden(a, rules, rules', mode, scope);
    }
    hide DecideFromStore, Decide, InScope;
  }

  lemma OutOfScopeAlike(a: Action, rules: seq<Rule>, rules': seq<Rule>, mode: Mode, scope: Option<ProxyScope>)
    ensures !InScope(a, scope) ==> Decide(a, rules, mode, scope) == Decide(a, rules', mode, scope)
  {
    hide EvaluateScope, BestMatchingRule;
  }

  /** Outside shadow mode a drop, activated or not, and also one that throws, makes no action newly allowed. */
  lemma DropNeverWidens(env: Env, s: GatewayState, input: OperatorInput, a: Action, mode: Mode)
    requires Distinct(RULES, s.rules) && !input.approve && mode != Shadow
    ensures DecideNow(OperatorStep(env, s, input).1, a, mode).allowed ==> DecideNow(s, a, mode).allowed
  {
    hide OperatorStep, DecideNow, Distinct, GrowsBy, VerdictAction;
    OperatorGrows(env, s, input);
    GrownDecides(s, OperatorStep(env, s, input).1, a, mode, false);
  }

  /** Outside shadow mode a forward takes no permission away, and denies nothing that was not denied. */
  lemma ForwardNeverNarrows(env: Env, s: GatewayState, input: OperatorInput, a: Action, mode: Mode)
    requires Distinct(RULES, s.rules) && input.approve && mode != Shadow
    ensures var before, after := DecideNow(s, a, mode), DecideNow(OperatorStep(env, s, input).1, a, mode);
      (before.allowed ==> after.allowed) && (after.verdict == Deny ==> before.verdict == Deny)
  {
    hide OperatorStep, DecideNow, Distinct, GrowsBy, VerdictAction;
    OperatorGrows(env, s, input);
    GrownDecides(s, OperatorStep(env, s, input).1, a, mode, true);
  }

  /** The same of dropping everything that is pending, and of forwarding it. */
  lemma AllPendingAlike(env: Env, s: GatewayState, forwardReason: Option<string>, dropReason: string, activate: bool, a: Action, mode: Mode)
    requires Distinct(RULES, s.rules) && mode != Shadow
    ensures DecideNow(Step(env, s, CallDropAll(dropReason, activate)), a, mode).allowed ==> DecideNow(s, a, mode).allowed
    ensures var before, after := DecideNow(s, a, mode), DecideNow(Step(env, s, CallForwardAll(forwardReason)), a, mode);
      (before.allowed ==> after.allowed) && (after.verdict == Deny ==> before.verdict == Deny)
  {
    hide OperatorSteps, DecideNow, Distinct, GrowsBy, ForwardInputs, DropInputs;
    InputsAgree(s, forwardReason, dropReason, activate);
    OperatorsGrow(env, s, DropInputs(s, dropReason, activate), false);
    OperatorsGrow(env, s, ForwardInputs(s, forwardReason), true);
    GrownDecides(s, Step(env, s, CallDropAll(dropReason, activate)), a, mode, false);
    GrownDecides(s, Step(env, s, CallForwardAll(forwardReason)), a, mode, true);
  }
}
