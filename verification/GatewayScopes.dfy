/**
 How far what the gateway learns reaches (packages/integrations/intercept-gateway/src/gateway.ts):
 a forward allows only actions like the forwarded one, and an activated drop blocks what its phrases
 are about, for any stored rules, ids, clock and ledger, in memory and on file.
 */
module GatewayScopes {
  import opened Prelude
  import opened Sorting
  import opened KeyedStores
  import opened CanonicalJson
  import opened AuditEvents
  import opened AuditLedgers
  import opened PolicyEngine
  import opened PolicyVerdicts
  import opened PolicyStores
  import opened ProxyHistories
  import opened PolicyAudit
  import opened CompileCorrection
  import opened CorrectionScopes
  import opened GatewaySteps
  import opened GatewayCoverage
  import opened GatewayInvariants
  import opened GatewayRuns

  // ---------------------------------------------------------------- deciding from the store

  /** What the gateway decides on a valid action in scope from valid stored rules, by the stored rules themselves. */
  lemma DecidesByStored(s: GatewayState, b: Action, mode: Mode)
    requires Distinct(RULES, s.rules) && AllValid(s.rules) && ValidAction(b)
    ensures DecideNow(s, b, mode) == Decide(b, ActiveRulesOf(s.rules), mode, s.scope) && DistinctIds(ActiveRulesOf(s.rules))
    ensures forall r :: r in ActiveRulesOf(s.rules) <==> r in s.rules && r.status == Active
  {
    ActiveRulesMembers(s.rules);
    ActiveRulesDistinct(s.rules);
    hide ActiveRulesOf, ValidAction, ValidRule, Decide, DecideFromStore, DistinctIds, Distinct;
    StoredRulesDecide(b, ActiveRulesOf(s.rules), mode, s.scope);
  }

  /** An action that more allow rules newly allow is matched by one of the new ones. */
  lemma NewlyAllowed(b: Action, rules: seq<Rule>, rules': seq<Rule>, mode: Mode, scope: Option<ProxyScope>)
    requires DistinctIds(rules) && DistinctIds(rules') && mode != Shadow && (forall r | r in rules :: r in rules')
    requires forall r | r in rules' && r !in rules :: ValidRule(r) && Allows(r)
    requires DecideFromStore(b, Ok(rules'), mode, scope).allowed && !DecideFromStore(b, Ok(rules), mode, scope).allowed
    ensures exists r | r in rules' && r !in rules :: Matches(b, r.scope)
  {
    assert ValidRules(rules) <==> ValidRules(rules') by { hide ValidRule; }
    hide ValidRule, ValidRules, ValidAction, DistinctIds, Specificity, Matches, InScope;
    FailsClosed(b, Ok(rules), mode, scope);
    FailsClosed(b, Ok(rules'), mode, scope);
    OutOfScopeAlike(b, rules, rules', mode, scope);
    hide DecideFromStore, Decide;
    AllowedIff(b, rules, mode, scope);
    AllowedIff(b, rules', mode, scope);
    var r :| BeatsAllBlocks(b, rules', r);
    assert r in rules ==> BeatsAllBlocks(b, rules, r);
  }

  // ---------------------------------------------------------------- forwards

  /** Outside shadow mode a forward newly allows only actions like the one forwarded. */
  lemma ForwardWidensOnly(env: Env, s: GatewayState, input: OperatorInput, b: Action, mode: Mode)
    requires Distinct(RULES, s.rules) && input.approve && mode != Shadow
    ensures DecideNow(OperatorStep(env, s, input).1, b, mode).allowed && !DecideNow(s, b, mode).allowed ==>
      VerdictAction(s, input).Some? && ApprovedAlike(VerdictAction(s, input).value, b)
  {
    hide OperatorStep, DecideNow, Distinct, ApprovedAlike, ApprovalScopeFor, Matches, VerdictAction, GrowsBy;
    var s' := OperatorStep(env, s, input).1;
    OperatorGrows(env, s, input);
    StoredRulesNewlyAllow(s, s', b, mode);
    if DecideNow(s', b, mode).allowed && !DecideNow(s, b, mode).allowed {
      var r :| r in s'.rules && r !in s.rules && Matches(b, r.scope);
      ApprovalScopeIff(VerdictAction(s, input).value, b);
    }
  }

  lemma StoredRulesNewlyAllow(s: GatewayState, s': GatewayState, b: Action, mode: Mode)
    requires Distinct(RULES, s.rules) && GrowsBy(s.rules, s'.rules, true) && s'.scope == s.scope && mode != Shadow
    ensures DecideNow(s', b, mode).allowed && !DecideNow(s, b, mode).allowed ==>
      exists r | r in s'.rules && r !in s.rules :: Matches(b, r.scope)
  {
    var active, active' := ActiveRulesOf(s.rules), ActiveRulesOf(s'.rules);
    ActiveRulesMembers(s.rules);
    ActiveRulesMembers(s'.rules);
    ActiveRulesDistinct(s.rules);
    ActiveRulesDistinct(s'.rules);
    hide ActiveRulesOf, ValidRule, Distinct, Matches, DecideFromStore;
    if DecideNow(s', b, mode).allowed && !DecideNow(s, b, mode).allowed {
      NewlyAllowed(b, active, active', mode, s.scope);
    }
  }

  ghost predicate AddsExactly(rules: seq<Rule>, rules': seq<Rule>, more: seq<Rule>) {
    Distinct(RULES, rules') && forall q :: q in rules' <==> q in rules || q in more
  }

  lemma LogDrawsTwo(env: Env, s: GatewayState, a: Action, d: Decision, from: Option<string>, remarks: Remarks)
    requires LogVerdict(env, s, a, d, from, remarks).0.Ok?
    ensures var s' := LogVerdict(env, s, a, d, from, remarks).1; s'.nextId == s.nextId + 2 && s'.ticks == s.ticks + 2
  {
    hide ValidAction, Seal, OnHistory, VerdictEvent, NewEntry;
  }

  /** An active allow rule for the actions approved alike. */
  ghost predicate GrantsAlike(a: Action, r: Rule) {
    && r.status == Active && r.effect == Effect(Allow, ActivatePolicy, [], []) && ValidRule(r)
    && forall b: Action :: Matches(b, r.scope) <==> ApprovedAlike(a, b)
  }

  /** And traced to the correction, which is the first id drawn. */
  ghost predicate Grants(env: Env, s: GatewayState, a: Action, r: Rule) {
    && GrantsAlike(a, r)
    && r.id == env.ids(s.nextId + 3) && r.evalCaseId == env.ids(s.nextId + 4) && r.fromCorrectionId == env.ids(s.nextId)
    && r.version == 1 && r.supersedesId.None? && r.createdAt == env.clock(s.ticks + 3)
  }

  lemma ApproveGrants(env: Env, s: GatewayState, a: Action, original: Option<Action>, input: OperatorInput)
    requires Distinct(RULES, s.rules) && Approve(env, s, a, original, input).0.Ok?
    ensures var (r, s') := Approve(env, s, a, original, input);
      && |r.value.compiledRules| == 1 && Grants(env, s, a, r.value.compiledRules[0])
      && s'.scope == s.scope && AddsExactly(s.rules, s'.rules, r.value.compiledRules)
  {
    hide ValidCorrection, LogVerdict, StoreRule, ValidRule, ApprovalText, ApprovalScopeFor, ApprovedAlike, Matches, OnRules, Distinct;
    var correctionId := env.ids(s.nextId);
    var remarks := Remarks(Some(input.queueId), original, [], Some(["intercept.forward"]));
    LogStores(env, Drawn(s, 1, 1), a, APPROVED, Some(correctionId), remarks);
    LogDrawsTwo(env, Drawn(s, 1, 1), a, APPROVED, Some(correctionId), remarks);
    var s1 := LogVerdict(env, Drawn(s, 1, 1), a, APPROVED, Some(correctionId), remarks).1;
    var rule := ApprovalRule(env, s1, a, correctionId);
    RuleStores(env, Drawn(s1, 2, 2), PutRule(rule), rule);
    PutAdds(env.medium, s1.rules, rule);
    forall b: Action ensures Matches(b, rule.scope) <==> ApprovedAlike(a, b) { ApprovalScopeIff(a, b); }
  }

  /** A forward that goes through stores exactly one rule: the approval of the class of the action it is about. */
  lemma ForwardGrants(env: Env, s: GatewayState, input: OperatorInput)
    requires Distinct(RULES, s.rules) && input.approve && OperatorStep(env, s, input).0.Ok?
    ensures var (r, s') := OperatorStep(env, s, input);
      && VerdictAction(s, input).Some? && s'.scope == s.scope && AddsExactly(s.rules, s'.rules, r.value.compiledRules)
      && |r.value.compiledRules| == 1 && Grants(env, s, VerdictAction(s, input).value, r.value.compiledRules[0])
  {
    hide ValidAction, Approve, OnQueue, Lookup, AddsExactly, Distinct, Grants;
    var item := Lookup(ITEMS, s.queue, input.queueId);
    var s0 := s.(queue := OnQueue(env.medium, s.queue, Remove(input.queueId)).1);
    var original := if input.editedAction.Some? then Some(item.value.action) else None;
    var action := input.editedAction.GetOr(item.value.action);
    ApproveGrants(env, s0, action, original, input);
    SameGrant(env, s, s0, action, Approve(env, s0, action, original, input).0.value.compiledRules[0]);
  }

  lemma SameGrant(env: Env, s: GatewayState, s0: GatewayState, a: Action, r: Rule)
    requires s0.nextId == s.nextId && s0.ticks == s.ticks && Grants(env, s0, a, r)
    ensures Grants(env, s, a, r)
  {
    hide ValidRule, Matches, ApprovedAlike;
  }

  /** The rules an approval of some waiting item adds. */
  ghost predicate LearnedFrom(queue: seq<QueuedIntercept>, r: Rule) {
    exists item | item in queue :: r.scope == ApprovalScopeFor(item.action)
  }

  lemma QueueShrinks(env: Env, s: GatewayState, input: OperatorInput)
    ensures forall item | item in OperatorStep(env, s, input).1.queue :: item in s.queue
  {
    hide ValidAction, Approve, Disapprove, OnQueue, Lookup;
    RemovalShrinks(env.medium, s.queue, input.queueId);
    var s0 := s.(queue := OnQueue(env.medium, s.queue, Remove(input.queueId)).1);
    var item := Lookup(ITEMS, s.queue, input.queueId);
    if item.Some? {
      var action := input.editedAction.GetOr(item.value.action);
      var original := if input.editedAction.Some? then Some(item.value.action) else None;
      ApproveKeepsQueue(env, s0, action, original, input);
      DisapproveKeepsQueue(env, s0, action, original, input);
    }
  }

  lemma RemovalShrinks(m: Medium, queue: seq<QueuedIntercept>, id: string)
    ensures forall item | item in OnQueue(m, queue, Remove(id)).1 :: item in queue
  {
    FilterMembers(queue, NotKeyed(ITEMS, id));
    SortElements(Without(ITEMS, queue, id), Order(ITEMS));
    forall item | item in Saved(ITEMS, Without(ITEMS, queue, id)) ensures item in queue {
      assert item in Elements(Saved(ITEMS, Without(ITEMS, queue, id)));
    }
  }

  lemma LogKeepsQueue(env: Env, s: GatewayState, a: Action, d: Decision, from: Option<string>, remarks: Remarks)
    ensures LogVerdict(env, s, a, d, from, remarks).1.queue == s.queue
  {
    hide ValidAction, Seal, OnHistory, VerdictEvent, NewEntry;
  }

  lemma StoreKeepsQueue(env: Env, s: GatewayState, call: RuleCall, r: Rule)
    ensures StoreRule(env, s, call, r).1.queue == s.queue
  {
    hide ValidRule, Seal, OnRules, RuleEvent;
  }

  lemma ApproveKeepsQueue(env: Env, s: GatewayState, a: Action, original: Option<Action>, input: OperatorInput)
    ensures Approve(env, s, a, original, input).1.queue == s.queue
  {
    hide ValidCorrection, LogVerdict, StoreRule, ValidRule, ApprovalRule, ApprovalText;
    var correctionId := env.ids(s.nextId);
    var remarks := Remarks(Some(input.queueId), original, [], Some(["intercept.forward"]));
    LogKeepsQueue(env, Drawn(s, 1, 1), a, APPROVED, Some(correctionId), remarks);
    var s1 := LogVerdict(env, Drawn(s, 1, 1), a, APPROVED, Some(correctionId), remarks).1;
    var rule := ApprovalRule(env, s1, a, correctionId);
    StoreKeepsQueue(env, Drawn(s1, 2, 2), PutRule(rule), rule);
  }

  lemma {:induction false} ProposalsKeepQueue(env: Env, s: GatewayState, proposals: seq<Rule>, activate: bool)
    ensures StoreProposals(env, s, proposals, activate).1.queue == s.queue
    decreases |proposals|
  {
    hide StoreRule;
    if proposals != [] {
      var p := proposals[0];
      StoreKeepsQueue(env, s, PutRule(p), p);
      StoreKeepsQueue(env, StoreRule(env, s, PutRule(p), p).1, UpdateRule(p.(status := Active)), p.(status := Active));
      hide StoreProposal;
      ProposalsKeepQueue(env, StoreProposal(env, s, p, activate).1, proposals[1..], activate);
    }
  }

  lemma DisapproveKeepsQueue(env: Env, s: GatewayState, a: Action, original: Option<Action>, input: OperatorInput)
    ensures Disapprove(env, s, a, original, input).1.queue == s.queue
  {
    hide ValidCorrection, LogVerdict, StoreProposals, Compile, Disapproved;
    var correctionId := env.ids(s.nextId);
    var remarks := Remarks(Some(input.queueId), original, [], Some(["intercept.drop"]));
    LogKeepsQueue(env, Drawn(s, 1, 1), a, Disapproved(input.reason), Some(correctionId), remarks);
    var s1 := LogVerdict(env, Drawn(s, 1, 1), a, Disapproved(input.reason), Some(correctionId), remarks).1;
    var c := Compile(env.phrases(input.reason), Some(a), correctionId, env.ids, env.clock, s1.nextId, s1.ticks);
    if c.rules.Some? { ProposalsKeepQueue(env, s1.(nextId := c.nextId, ticks := c.ticks), c.rules.value, input.activate); }
  }

  lemma VerdictOnItem(s: GatewayState, input: OperatorInput)
    requires input.editedAction.None? && VerdictAction(s, input).Some?
    ensures exists item | item in s.queue :: item.action == VerdictAction(s, input).value
  {
    var i := Find(ITEMS, s.queue, input.queueId);
    assert s.queue[i] in s.queue;
  }

  lemma {:induction false} ForwardsLearn(env: Env, s: GatewayState, inputs: seq<OperatorInput>)
    requires Distinct(RULES, s.rules) && forall i | 0 <= i < |inputs| :: inputs[i].approve && inputs[i].editedAction.None?
    ensures var s' := OperatorSteps(env, s, inputs).1;
      forall r | r in s'.rules && r !in s.rules :: LearnedFrom(s.queue, r)
    decreases |inputs|
  {
    hide OperatorStep, Distinct, GrowsBy, ApprovalScopeFor, VerdictAction;
    if inputs != [] {
      OperatorGrows(env, s, inputs[0]);
      QueueShrinks(env, s, inputs[0]);
      var s1 := OperatorStep(env, s, inputs[0]).1;
      assert Distinct(RULES, s1.rules) by { GrowingKeeps(s.rules, s1.rules, true); }
      ForwardsLearn(env, s1, inputs[1..]);
      if VerdictAction(s, inputs[0]).Some? { VerdictOnItem(s, inputs[0]); }
    }
  }

  /** And forwarding everything that is pending newly allows only actions like some pending one. */
  lemma ForwardAllWidensOnly(env: Env, s: GatewayState, reason: Option<string>, b: Action, mode: Mode)
    requires Distinct(RULES, s.rules) && mode != Shadow
    ensures DecideNow(Step(env, s, CallForwardAll(reason)), b, mode).allowed && !DecideNow(s, b, mode).allowed ==>
      exists item | item in s.queue :: ApprovedAlike(item.action, b)
  {
    hide OperatorSteps, Distinct, DecideNow, ForwardInputs, ApprovalScopeFor, ApprovedAlike, Matches, GrowsBy, LearnedFrom;
    var inputs := ForwardInputs(s, reason);
    var s' := OperatorSteps(env, s, inputs).1;
    InputsForward(s, reason);
    OperatorsGrow(env, s, inputs, true);
    ForwardsLearn(env, s, inputs);
    StoredRulesNewlyAllow(s, s', b, mode);
    if DecideNow(s', b, mode).allowed && !DecideNow(s, b, mode).allowed {
      var r :| r in s'.rules && r !in s.rules && Matches(b, r.scope);
      LearnedIsAlike(s.queue, r, b);
    }
  }

  lemma LearnedIsAlike(queue: seq<QueuedIntercept>, r: Rule, b: Action)
    requires LearnedFrom(queue, r) && Matches(b, r.scope)
    ensures exists item | item in queue :: ApprovedAlike(item.action, b)
  {
    hide Matches, ApprovalScopeFor, ApprovedAlike;
    var item :| item in queue && r.scope == ApprovalScopeFor(item.action);
    ApprovalScopeIff(item.action, b);
  }

  lemma InputsForward(s: GatewayState, reason: Option<string>)
    ensures forall i | 0 <= i < |ForwardInputs(s, reason)| ::
      ForwardInputs(s, reason)[i].approve && ForwardInputs(s, reason)[i].editedAction.None?
  {
    hide PendingItems;
  }

  // ---------------------------------------------------------------- what a drop stores

  function StoredAs(p: Rule, activate: bool): Rule { if activate then p.(status := Active) else p }

  lemma ProposalStores(env: Env, s: GatewayState, p: Rule, activate: bool)
    requires Distinct(RULES, s.rules) && StoreProposal(env, s, p, activate).0.Ok?
    ensures var (r, s') := StoreProposal(env, s, p, activate);
      r.value == StoredAs(p, activate) && s'.scope == s.scope && AddsExactly(s.rules, s'.rules, [r.value])
  {
    hide StoreRule, OnRules, ValidRule, Distinct;
    var active := p.(status := Active);
    RuleStores(env, s, PutRule(p), p);
    PutAdds(env.medium, s.rules, p);
    var s1 := StoreRule(env, s, PutRule(p), p).1;
    RuleStores(env, s1, UpdateRule(active), active);
    UpdateSwaps(env.medium, s1.rules, active);
  }

  lemma {:induction false} ProposalsStore(env: Env, s: GatewayState, proposals: seq<Rule>, activate: bool)
    requires Distinct(RULES, s.rules) && StoreProposals(env, s, proposals, activate).0.Ok?
    ensures var (r, s') := StoreProposals(env, s, proposals, activate);
      && s'.scope == s.scope && AddsExactly(s.rules, s'.rules, r.value)
      && |r.value| == |proposals| && forall i | 0 <= i < |proposals| :: r.value[i] == StoredAs(proposals[i], activate)
    decreases |proposals|
  {
    hide StoreProposal, Distinct, StoredAs;
    if proposals != [] {
      ProposalStores(env, s, proposals[0], activate);
      var s1 := StoreProposal(env, s, proposals[0], activate).1;
      ProposalsStore(env, s1, proposals[1..], activate);
    }
  }

  /** One rule for each phrase of the reason, saying what the phrase says of the dropped action. */
  ghost predicate SaysReason(env: Env, reason: string, activate: bool, a: Action, rules: seq<Rule>) {
    var atoms := env.phrases(reason);
    && atoms != [] && |rules| == |atoms|
    && forall i | 0 <= i < |atoms| ::
         && atoms[i].Phrase? && Renders(rules[i], atoms[i], Some(a))
         && rules[i].status == (if activate then Active else Proposed)
  }

  /** And traced to the correction, which is the first id drawn. */
  ghost predicate RendersReason(env: Env, s: GatewayState, input: OperatorInput, a: Action, rules: seq<Rule>) {
    && SaysReason(env, input.reason, input.activate, a, rules)
    && forall i | 0 <= i < |rules| :: rules[i].fromCorrectionId == env.ids(s.nextId)
  }

  lemma DisapproveRenders(env: Env, s: GatewayState, a: Action, original: Option<Action>, input: OperatorInput)
    requires Distinct(RULES, s.rules) && Disapprove(env, s, a, original, input).0.Ok?
    ensures var (r, s') := Disapprove(env, s, a, original, input);
      && s'.scope == s.scope && AddsExactly(s.rules, s'.rules, r.value.compiledRules)
      && RendersReason(env, s, input, a, r.value.compiledRules)
      && r.value.decision == Disapproved(input.reason)
  {
    hide ValidCorrection, LogVerdict, StoreProposals, CompileAtoms, Distinct, Disapproved, AddsExactly, Renders, DrawnAs;
    var correctionId := env.ids(s.nextId);
    var remarks := Remarks(Some(input.queueId), original, [], Some(["intercept.drop"]));
    LogStores(env, Drawn(s, 1, 1), a, Disapproved(input.reason), Some(correctionId), remarks);
    var s1 := LogVerdict(env, Drawn(s, 1, 1), a, Disapproved(input.reason), Some(correctionId), remarks).1;
    var atoms := env.phrases(input.reason);
    CompiledRulesRender(atoms, Some(a), correctionId, env.ids, env.clock, s1.nextId, s1.ticks);
    var c := Compile(atoms, Some(a), correctionId, env.ids, env.clock, s1.nextId, s1.ticks);
    var s2 := s1.(nextId := c.nextId, ticks := c.ticks);
    ProposalsStore(env, s2, c.rules.value, input.activate);
    var stored := StoreProposals(env, s2, c.rules.value, input.activate).0.value;
    forall i | 0 <= i < |atoms|
      ensures Renders(stored[i], atoms[i], Some(a)) && stored[i].status == (if input.activate then Active else Proposed)
      ensures stored[i].fromCorrectionId == correctionId
    {
      StatusAside(c.rules.value[i], input.activate, atoms[i], a, correctionId, env.ids(s1.nextId + 3 * i),
                  env.ids(s1.nextId + 3 * i + 1), env.clock(s1.ticks + 3 * i));
    }
  }

  lemma StatusAside(
    p: Rule, activate: bool, atom: CompileCorrection.Atom, a: Action, correctionId: string, ruleId: string, evalCaseId: string, at: string)
    requires atom.Phrase? && Renders(p, atom, Some(a)) && DrawnAs(p, correctionId, ruleId, evalCaseId, at)
    ensures var r := StoredAs(p, activate);
      Renders(r, atom, Some(a)) && r.status == (if activate then Active else Proposed) && r.fromCorrectionId == correctionId
  {
    hide Matches, IsAbout, Specificity, PhraseWeight;
  }

  /** A drop that goes through stores exactly the rules of its reason's phrases, traced to the correction it draws first. */
  lemma DropRenders(env: Env, s: GatewayState, input: OperatorInput)
    requires Distinct(RULES, s.rules) && !input.approve && OperatorStep(env, s, input).0.Ok?
    ensures var (r, s') := OperatorStep(env, s, input);
      && VerdictAction(s, input).Some? && s'.scope == s.scope && AddsExactly(s.rules, s'.rules, r.value.compiledRules)
      && RendersReason(env, s, input, VerdictAction(s, input).value, r.value.compiledRules)
      && r.value.decision == Disapproved(input.reason)
  {
    hide ValidAction, Disapprove, OnQueue, Lookup, AddsExactly, RendersReason, Disapproved, Distinct;
    var item := Lookup(ITEMS, s.queue, input.queueId);
    var s0 := s.(queue := OnQueue(env.medium, s.queue, Remove(input.queueId)).1);
    var original := if input.editedAction.Some? then Some(item.value.action) else None;
    DisapproveRenders(env, s0, input.editedAction.GetOr(item.value.action), original, input);
    SameReason(env, s, s0, input, input.editedAction.GetOr(item.value.action), Disapprove(env, s0, input.editedAction.GetOr(item.value.action), original, input).0.value.compiledRules);
  }

  lemma SameReason(env: Env, s: GatewayState, s0: GatewayState, input: OperatorInput, a: Action, rules: seq<Rule>)
    requires s0.nextId == s.nextId && RendersReason(env, s0, input, a, rules)
    ensures RendersReason(env, s, input, a, rules)
  {
    hide Renders;
  }

  // ---------------------------------------------------------------- what a drop blocks

  /** An allow rule among the stored ones that beats every stored block, and every compiled rule that matches. */
  ghost predicate Withstands(s: GatewayState, b: Action, compiled: seq<Rule>, p: Rule) {
    && BeatsAllBlocks(b, ActiveRulesOf(s.rules), p)
    && forall c | c in compiled && Matches(b, c.scope) :: Specificity(c.scope) < Specificity(p.scope)
  }

  lemma CompiledBlocks(env: Env, s: GatewayState, input: OperatorInput, a: Action, compiled: seq<Rule>)
    requires RendersReason(env, s, input, a, compiled)
    ensures forall c | c in compiled :: c.effect.verdict != Allow && c.status == (if input.activate then Active else Proposed)
  {
    hide Matches, IsAbout;
    forall c | c in compiled ensures c.effect.verdict != Allow && c.status == (if input.activate then Active else Proposed) {
      var i :| 0 <= i < |compiled| && compiled[i] == c;
      assert Renders(compiled[i], env.phrases(input.reason)[i], Some(a));
    }
  }

  lemma DroppedIsValid(env: Env, s: GatewayState, input: OperatorInput)
    requires Distinct(RULES, s.rules) && AllValid(s.rules)
    ensures AllValid(OperatorStep(env, s, input).1.rules)
  {
    OperatorGrows(env, s, input);
    hide OperatorStep, ValidRule, Distinct;
  }

  /**
   After an activated drop that goes through, an action in scope is allowed, outside shadow mode, exactly
   if a stored approval withstands every stored block and every rule just compiled that matches it.
   */
  lemma DropAllowsIff(env: Env, s: GatewayState, input: OperatorInput, b: Action, mode: Mode)
    requires Distinct(RULES, s.rules) && AllValid(s.rules) && ValidAction(b) && mode != Shadow && InScope(b, s.scope)
    requires !input.approve && input.activate && OperatorStep(env, s, input).0.Ok?
    ensures var (r, s') := OperatorStep(env, s, input);
      DecideNow(s', b, mode).allowed <==> exists p :: Withstands(s, b, r.value.compiledRules, p)
  {
    hide OperatorStep, ValidRule, ValidAction, InScope, Distinct, RendersReason, AllValid, Specificity, Matches, DecideNow,
         ActiveRulesOf, Decide, DistinctIds, VerdictAction, Disapproved;
    var (r, s') := OperatorStep(env, s, input);
    var compiled := r.value.compiledRules;
    DropRenders(env, s, input);
    CompiledBlocks(env, s, input, VerdictAction(s, input).value, compiled);
    DroppedIsValid(env, s, input);
    DecidesByStored(s, b, mode);
    DecidesByStored(s', b, mode);
    AllowedIff(b, ActiveRulesOf(s'.rules), mode, s'.scope);
    forall p ensures BeatsAllBlocks(b, ActiveRulesOf(s'.rules), p) <==> Withstands(s, b, compiled, p) {
      BeatsGrown(b, ActiveRulesOf(s.rules), ActiveRulesOf(s'.rules), compiled, p);
    }
  }

  lemma BeatsGrown(b: Action, rules: seq<Rule>, rules': seq<Rule>, blocks: seq<Rule>, p: Rule)
    requires forall r :: r in rules' <==> r in rules || r in blocks
    requires forall c | c in blocks :: c.effect.verdict != Allow && c.status == Active
    ensures BeatsAllBlocks(b, rules', p) <==>
      BeatsAllBlocks(b, rules, p) && forall c | c in blocks && Matches(b, c.scope) :: Specificity(c.scope) < Specificity(p.scope)
  {
    hide Matches, Specificity;
  }

  /** A drop whose rules stay proposed changes no decision. */
  lemma ProposedDropDecidesAlike(env: Env, s: GatewayState, input: OperatorInput, b: Action, mode: Mode)
    requires Distinct(RULES, s.rules) && AllValid(s.rules) && ValidAction(b)
    requires !input.approve && !input.activate && OperatorStep(env, s, input).0.Ok?
    ensures DecideNow(OperatorStep(env, s, input).1, b, mode) == DecideNow(s, b, mode)
  {
    hide OperatorStep, ValidRule, ValidAction, InScope, Distinct, RendersReason, AllValid, Matches, DecideNow, ActiveRulesOf,
         Decide, DistinctIds, VerdictAction, Disapproved;
    var (r, s') := OperatorStep(env, s, input);
    DropRenders(env, s, input);
    CompiledBlocks(env, s, input, VerdictAction(s, input).value, r.value.compiledRules);
    DroppedIsValid(env, s, input);
    DecidesByStored(s, b, mode);
    DecidesByStored(s', b, mode);
    var active, active' := ActiveRulesOf(s.rules), ActiveRulesOf(s'.rules);
    assert forall q :: q in active <==> q in active';
    SameRules(active, active');
    DecisionIgnoresRuleOrder(b, active, active', mode, s.scope);
  }

  lemma {:induction false} SameRules(rules: seq<Rule>, rules': seq<Rule>)
    requires DistinctIds(rules) && DistinctIds(rules') && forall q :: q in rules <==> q in rules'
    ensures multiset(rules) == multiset(rules')
  {
    forall q ensures multiset(rules)[q] == multiset(rules')[q] {
      assert Distinct(RULES, rules) && Distinct(RULES, rules');
      DistinctCountsOnce(RULES, rules, q);
      DistinctCountsOnce(RULES, rules', q);
      assert q in multiset(rules) <==> q in rules;
      assert q in multiset(rules') <==> q in rules';
    }
  }

  /**
   What a phrase of an activated drop is about is not allowed afterwards, in scope and outside shadow mode,
   unless a stored approval of it is more specific than the phrase.
   */
  lemma DropBlocks(env: Env, s: GatewayState, input: OperatorInput, b: Action, mode: Mode, i: nat)
    requires Distinct(RULES, s.rules) && AllValid(s.rules) && ValidAction(b) && mode != Shadow && InScope(b, s.scope)
    requires !input.approve && input.activate && OperatorStep(env, s, input).0.Ok? && VerdictAction(s, input).Some?
    requires var atoms := env.phrases(input.reason);
      i < |atoms| && atoms[i].Phrase? && IsAbout(atoms[i].kind, atoms[i].topic, Some(VerdictAction(s, input).value), b)
    ensures var atom := env.phrases(input.reason)[i];
      DecideNow(OperatorStep(env, s, input).1, b, mode).allowed ==>
        exists p | p in s.rules && p.status == Active && p.effect.verdict == Allow && Matches(b, p.scope) ::
          Specificity(p.scope) > PhraseWeight(atom.kind, atom.topic, VerdictAction(s, input))
  {
    hide OperatorStep, ValidRule, ValidAction, InScope, Distinct, AllValid, Specificity, Matches, DecideNow, ActiveRulesOf,
         VerdictAction, IsAbout, Disapproved, PhraseWeight;
    DropRenders(env, s, input);
    DropAllowsIff(env, s, input, b, mode);
    ActiveRulesMembers(s.rules);
    var (r, s') := OperatorStep(env, s, input);
    var compiled := r.value.compiledRules;
    assert Renders(compiled[i], env.phrases(input.reason)[i], Some(VerdictAction(s, input).value));
    assert compiled[i] in compiled && Matches(b, compiled[i].scope);
    if DecideNow(s', b, mode).allowed {
      var p :| Withstands(s, b, compiled, p);
      assert ActiveMatch(b, p);
    }
  }

  /** Phrases about the dropped action itself block it, so that only a more specific approval lets it pass again. */
  lemma DropBlocksItself(env: Env, s: GatewayState, input: OperatorInput, mode: Mode, i: nat)
    requires Distinct(RULES, s.rules) && AllValid(s.rules) && mode != Shadow
    requires !input.approve && input.activate && OperatorStep(env, s, input).0.Ok? && VerdictAction(s, input).Some?
    requires var a := VerdictAction(s, input).value; ValidAction(a) && InScope(a, s.scope)
    requires var atoms := env.phrases(input.reason);
      i < |atoms| && atoms[i].Phrase? && atoms[i].topic == OriginatingAction
      && atoms[i].kind !in {MergeWithoutApprovals, MergeWithRejection}
    ensures var atom, a := env.phrases(input.reason)[i], VerdictAction(s, input).value;
      DecideNow(OperatorStep(env, s, input).1, a, mode).allowed ==>
        exists p | p in s.rules && p.status == Active && p.effect.verdict == Allow && Matches(a, p.scope) ::
          Specificity(p.scope) > PhraseWeight(atom.kind, atom.topic, Some(a))
  {
    hide OperatorStep, ValidRule, ValidAction, InScope, Distinct, AllValid, Specificity, Matches, DecideNow, VerdictAction, IsAbout;
    AboutItself(env.phrases(input.reason)[i].kind, VerdictAction(s, input).value);
    DropBlocks(env, s, input, VerdictAction(s, input).value, mode, i);
  }

  /** A correction about merges without approvals or with a rejection denies what it is about, whatever else is stored. */
  lemma MergeDropDenies(env: Env, s: GatewayState, input: OperatorInput, b: Action, mode: Mode, i: nat)
    requires Distinct(RULES, s.rules) && AllValid(s.rules) && ValidAction(b) && mode != Shadow && InScope(b, s.scope)
    requires !input.approve && input.activate && OperatorStep(env, s, input).0.Ok?
    requires var atoms := env.phrases(input.reason);
      i < |atoms| && atoms[i].Phrase? && atoms[i].kind in {MergeWithoutApprovals, MergeWithRejection}
      && IsAbout(atoms[i].kind, atoms[i].topic, None, b)
    ensures DecideNow(OperatorStep(env, s, input).1, b, mode).verdict == Deny
  {
    hide OperatorStep, ValidRule, ValidAction, InScope, Distinct, AllValid, Matches, DecideNow, ActiveRulesOf, VerdictAction,
         Disapproved, Decide, OnPullRequest, Approvals, Rejections;
    var (r, s') := OperatorStep(env, s, input);
    DropRenders(env, s, input);
    DroppedIsValid(env, s, input);
    DecidesByStored(s', b, mode);
    var c, atom, a := r.value.compiledRules[i], env.phrases(input.reason)[i], VerdictAction(s, input).value;
    assert Renders(c, atom, Some(a)) && c in r.value.compiledRules;
    assert IsAbout(atom.kind, atom.topic, Some(a), b);
    DeniedIff(b, ActiveRulesOf(s'.rules), mode, s'.scope);
    forall q ensures Specificity(q) <= 15 { }
    hide Specificity, IsAbout;
  }

  // ---------------------------------------------------------------- an approval that outlives a drop

  /** A merge with two approvals, and the rule that forwarding one like it leaves. */
  const MERGE := Action("m", "gh", "pr-merge", Some("PR#7"), [Member("reviews", Obj([Member("approved", Num(2))]))], AT)

  const LEARNED := Rule("r", 1, "c", "e", RuleScope("gh", "pr-merge", Some("PR#*"), Some(Condition(ApprovedField, Ge, Num(2)))),
                        Effect(Allow, ActivatePolicy, [], []), Active, None, AT)

  const CONTESTED := GatewayState([LEARNED], [QueuedIntercept("q", MERGE, AT)], [], [], Intercept, None, [], 0, 0)

  const NEVER := OperatorInput("q", false, "never do that", true, None)

  lemma LearnedFromMerge()
    ensures ApprovalScopeFor(MERGE) == LEARNED.scope && ValidAction(MERGE) && ValidRule(LEARNED)
  {
    AtIsTimestamp();
    hide IsTimestamp, ReadPath;
    NestedRead(MERGE, "reviews", "approved");
    MergeReviews();
    var t := "PR#7";
    assert t[..3] == "PR#" && IsPullRequest(t);
  }

  lemma MergeReviews()
    ensures Nested(MERGE, "reviews", "approved") == Some(Num(2))
  {
  }

  lemma NeverGoesThrough(env: MemoryEnv)
    requires FreshEnv(env) && Spent(env, 0, "r") && Spent(env, 0, "q") && Compiles(env, NEVER.reason)
    ensures OperatorStep(env, CONTESTED, NEVER).0.Ok? && VerdictAction(CONTESTED, NEVER) == Some(MERGE)
    ensures Distinct(RULES, CONTESTED.rules) && AllValid(CONTESTED.rules) && InScope(MERGE, CONTESTED.scope)
  {
    LearnedFromMerge();
    hide FreshEnv, ValidRule, ValidAction, Spent, OperatorStep, Compiles, OperatorEffect;
    assert Lookup(ITEMS, CONTESTED.queue, "q") == Some(CONTESTED.queue[0]);
    assert Begins(env, CONTESTED);
    hide Lookup, Begins;
    BeginsInv(env, CONTESTED);
    OperatorKeeps(env, KeptIn(CONTESTED), CONTESTED, NEVER);
  }

  /**
   Dropping a merge with "never do that" does not block it where a like merge was forwarded before: the
   approval carries the number of reviews, which makes it the more specific rule.
   */
  lemma ApprovalOutlivesDrop(env: MemoryEnv)
    requires FreshEnv(env) && Spent(env, 0, "r") && Spent(env, 0, "q")
    requires env.phrases(NEVER.reason) == [Phrase(NeverDo, OriginatingAction, "Never do that.", "Ask first.")]
    ensures OperatorStep(env, CONTESTED, NEVER).0.Ok? && VerdictAction(CONTESTED, NEVER) == Some(MERGE)
    ensures LEARNED.scope == ApprovalScopeFor(MERGE)
    ensures DecideNow(OperatorStep(env, CONTESTED, NEVER).1, MERGE, Intercept).allowed
  {
    hide FreshEnv, ValidRule, ValidAction, Spent, OperatorStep, Matches, DecideNow, InScope, Distinct, AllValid, ActiveRulesOf,
         VerdictAction, ApprovalScopeFor, OnTarget, Disapproved;
    LearnedFromMerge();
    NeverGoesThrough(env);
    DropRenders(env, CONTESTED, NEVER);
    DropAllowsIff(env, CONTESTED, NEVER, MERGE, Intercept);
    var compiled := OperatorStep(env, CONTESTED, NEVER).0.value.compiledRules;
    LearnedStands();
    forall c | c in compiled ensures Specificity(c.scope) < 15 {
      assert c == compiled[0];
      assert Renders(compiled[0], env.phrases(NEVER.reason)[0], Some(MERGE));
    }
    assert Withstands(CONTESTED, MERGE, compiled, LEARNED);
  }

  lemma LearnedStands()
    ensures BeatsAllBlocks(MERGE, ActiveRulesOf(CONTESTED.rules), LEARNED) && Specificity(LEARNED.scope) == 15
  {
    LearnedFromMerge();
    ActiveRulesMembers(CONTESTED.rules);
    ApprovalScopeMatches(MERGE);
    hide ActiveRulesOf, Matches, ApprovalScopeFor;
  }
}
