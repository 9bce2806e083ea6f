/**
 Whole runs of the intercept gateway
 (packages/integrations/intercept-gateway/src/gateway.ts): what each call does in a fresh
 environment, and the invariant along every run.
 */
module GatewayRuns {
  import opened Prelude
  import opened Sorting
  import opened KeyedStores
  import opened AuditEvents
  import opened AuditLedgers
  import opened PolicyEngine
  import opened PolicyStores
  import opened ProxyHistories
  import opened PolicyAudit
  import opened CompileCorrection
  import opened MatchReplace
  import opened GatewaySteps
  import opened GatewayInvariants

  // ---------------------------------------------------------------- intercept

  lemma {:induction false} ReplacedIsValid(done: Replaced, rules: seq<MatchReplaceRule>)
    requires ValidAction(done.action) && ApplyAll(done, rules).Ok?
    ensures ValidAction(ApplyAll(done, rules).value.action)
    decreases |rules|
  {
    hide ValidAction, ValueMatches, WritePath, IsBlank, ReadPath;
    if rules != [] {
      var next := ApplyRule(done.action, rules[0]);
      if rules[0].enabled && next.Ok? && next.value.Some? {
        ReplacedIsValid(Replaced(next.value.value, done.appliedRuleIds + [rules[0].id]), rules[1..]);
      } else {
        ReplacedIsValid(done, rules[1..]);
      }
    }
  }

  lemma PreparedIsValid(s: GatewayState, raw: Action, applyRules: bool)
    requires ValidAction(raw) && Prepare(s, raw, applyRules).Ok?
    ensures ValidAction(Prepare(s, raw, applyRules).value.action)
  {
    hide ValidAction, ApplyAll;
    if applyRules && s.replaceRules != [] { ReplacedIsValid(Replaced(raw, []), s.replaceRules); }
  }

  lemma EnqueueOk(env: MemoryEnv, kept: Kept, s: GatewayState, a: Action)
    requires FreshEnv(env) && Inv(env, kept, s) && ValidAction(a)
    ensures var item := QueuedIntercept(env.ids(s.nextId), a, env.clock(s.ticks));
      && OnQueue(InMemory, s.queue, Enqueue(item)) == (Done, s.queue + [item])
      && Inv(env, kept, Drawn(s, 1, 1).(queue := s.queue + [item]))
  {
    hide ValidAction, ValidRule, ValidChain, Replays, Agrees, IsTimestamp;
    DrawKeeps(env, kept, s, 1, 1);
    hide RulesOk, HistoryOk;
    DrawnIsSpent(env, s.nextId, s.nextId);
    assert Spent(env, s.nextId + 1, env.ids(s.nextId));
  }

  /** What judging an action answers and leaves: its decision is logged, and an ask is queued under the first id drawn. */
  ghost predicate JudgedAs(env: Env, kept: Kept, s: GatewayState, a: Action, r: Result<Decision, Fault>, s': GatewayState) {
    var d := DecideNow(s, a, s.mode);
    && r == Ok(d) && Inv(env, kept, s') && s'.rules == s.rules && s'.scope == s.scope && s'.mode == s.mode
    && d.source != Operator
    && |s'.history| == |s.history| + 1 && s'.history[..|s.history|] == s.history
    && (var e := s'.history[|s.history|];
        && e.action == a && e.decision == d
        && e.queueId == (if d.verdict == Ask then Some(env.ids(s.nextId)) else None)
        && s'.queue == s.queue + (if d.verdict == Ask then [QueuedIntercept(env.ids(s.nextId), a, env.clock(s.ticks))] else []))
  }

  /** A decision that the log takes. */
  predicate Loggable(d: Decision) { d.source != Operator && (d.sourceRuleId.Some? ==> d.sourceRuleId.value != "") }

  lemma JudgeLogs(env: MemoryEnv, kept: Kept, s: GatewayState, p: Prepared)
    requires FreshEnv(env) && Inv(env, kept, s) && ValidAction(p.action)
    requires DecideNow(s, p.action, s.mode).verdict != Ask && Loggable(DecideNow(s, p.action, s.mode))
    ensures JudgedAs(env, kept, s, p.action, Judge(env, s, p).0, Judge(env, s, p).1)
  {
    hide ValidAction, FreshEnv, Inv, LogVerdict, DecideNow, OnQueue;
    LogKeeps(env, kept, s, p.action, DecideNow(s, p.action, s.mode), None, Remarks(None, p.originalAction, p.appliedRuleIds, None));
  }

  lemma JudgeQueues(env: MemoryEnv, kept: Kept, s: GatewayState, p: Prepared)
    requires FreshEnv(env) && Inv(env, kept, s) && ValidAction(p.action)
    requires DecideNow(s, p.action, s.mode).verdict == Ask && Loggable(DecideNow(s, p.action, s.mode))
    ensures JudgedAs(env, kept, s, p.action, Judge(env, s, p).0, Judge(env, s, p).1)
  {
    hide ValidAction, FreshEnv, Inv, LogVerdict, DecideNow, OnQueue, QueueFailedClosed;
    EnqueueOk(env, kept, s, p.action);
    var item := QueuedIntercept(env.ids(s.nextId), p.action, env.clock(s.ticks));
    LogKeeps(env, kept, Drawn(s, 1, 1).(queue := s.queue + [item]), p.action, DecideNow(s, p.action, s.mode), None,
             Remarks(Some(item.id), p.originalAction, p.appliedRuleIds, None));
  }

  lemma JudgeKeeps(env: MemoryEnv, kept: Kept, s: GatewayState, p: Prepared)
    requires FreshEnv(env) && Inv(env, kept, s) && ValidAction(p.action)
    ensures JudgedAs(env, kept, s, p.action, Judge(env, s, p).0, Judge(env, s, p).1)
  {
    hide ValidAction, FreshEnv, Inv, Judge, JudgedAs, DecideNow, RulesOk, QueueOk, HistoryOk, ValidChain, Replays, Agrees;
    InvRules(env, kept, s);
    DecisionOk(env, s, p.action, s.mode);
    if DecideNow(s, p.action, s.mode).verdict == Ask { JudgeQueues(env, kept, s, p); } else { JudgeLogs(env, kept, s, p); }
  }

  lemma InvRules(env: MemoryEnv, kept: Kept, s: GatewayState)
    requires Inv(env, kept, s)
    ensures RulesOk(env, s.nextId, s.rules) && QueueOk(env, s.nextId, s.queue) && HistoryOk(env, s.nextId, s.history)
    ensures ValidChain(s.ledger) && Replays(kept, s.ledger, s.rules) && Agrees(kept, s.ledger, s.history)
  {
  }

  lemma RepeatedIsValid(env: MemoryEnv, s: GatewayState, input: RepeaterInput)
    requires HistoryOk(env, s.nextId, s.history) && RepeaterAction(s, input).Ok?
    ensures ValidAction(RepeaterAction(s, input).value)
  {
    hide ValidAction, Spent, Distinct;
  }

  lemma RepeaterKeeps(env: MemoryEnv, kept: Kept, s: GatewayState, input: RepeaterInput)
    requires FreshEnv(env) && Inv(env, kept, s)
    ensures var (r, s') := RepeaterStep(env, s, input);
      && Inv(env, kept, s') && s'.rules == s.rules && s'.queue == s.queue && s'.scope == s.scope
      && (r.Err? ==> s' == s)
      && (r.Ok? ==> |s'.history| == |s.history| + 1 && s'.history[..|s.history|] == s.history
                    && s'.history[|s.history|].queueId.None? && s'.history[|s.history|].decision == r.value)
  {
    hide ValidAction, FreshEnv, LogVerdict, DecideNow, Prepare, Inv, RepeaterAction, RulesOk, QueueOk, HistoryOk,
         ValidChain, Replays, Agrees;
    InvRules(env, kept, s);
    var raw := RepeaterAction(s, input);
    if raw.Ok? {
      RepeatedIsValid(env, s, input);
      var prepared := Prepare(s, raw.value, input.applyMatchReplace);
      if prepared.Ok? {
        PreparedIsValid(s, raw.value, input.applyMatchReplace);
        var p := prepared.value;
        DecisionOk(env, s, p.action, input.mode.GetOr(s.mode));
        LogKeeps(env, kept, s, p.action, DecideNow(s, p.action, input.mode.GetOr(s.mode)), None,
                 Remarks(None, p.originalAction, p.appliedRuleIds, Some(["repeater.send"])));
      }
    }
  }

  // ---------------------------------------------------------------- operator verdicts

  /** The new history entry of an operator verdict on `queueId`. */
  ghost predicate OperatorEntry(e: HistoryEntry, queueId: string, verdict: Verdict) {
    e.queueId == Some(queueId) && e.decision.source == Operator && e.decision.verdict == verdict
  }

  ghost predicate OneMoreEntry(s: GatewayState, s': GatewayState, queueId: string, verdict: Verdict) {
    && |s'.history| == |s.history| + 1 && s'.history[..|s.history|] == s.history
    && OperatorEntry(s'.history[|s.history|], queueId, verdict)
  }

  lemma ApprovalTextOk(a: Action, reason: string)
    ensures ApprovalText(a, reason) != ""
  {
  }

  lemma ApprovalRuleOk(env: MemoryEnv, s: GatewayState, a: Action, correctionId: string)
    requires FreshEnv(env) && ValidAction(a) && correctionId != ""
    ensures ValidRule(ApprovalRule(env, s, a, correctionId))
  {
    hide IsTimestamp;
  }

  lemma IdsAreFresh(env: MemoryEnv, kept: Kept, s: GatewayState)
    requires FreshEnv(env) && Inv(env, kept, s)
    ensures !Has(RULES, s.rules, env.ids(s.nextId)) && Spent(env, s.nextId + 1, env.ids(s.nextId))
  {
    hide ValidRule, QueueOk, HistoryOk, ValidChain, Replays, Agrees;
    DrawnIsSpent(env, s.nextId, s.nextId);
    if Has(RULES, s.rules, env.ids(s.nextId)) { HasSpent(env, s.nextId, s.rules, env.ids(s.nextId)); }
  }

  /** A forward never fails: it logs an allow and stores one active allow rule for the action. */
  lemma ApproveKeeps(env: MemoryEnv, kept: Kept, s: GatewayState, a: Action, original: Option<Action>, input: OperatorInput)
    requires FreshEnv(env) && Inv(env, kept, s) && ValidAction(a)
    ensures var (r, s') := Approve(env, s, a, original, input);
      && r.Ok? && Inv(env, kept, s') && s'.queue == s.queue && s'.scope == s.scope && s'.mode == s.mode
      && OneMoreEntry(s, s', input.queueId, Allow)
      && |r.value.compiledRules| == 1 && s'.rules == s.rules + r.value.compiledRules
      && (var rule := r.value.compiledRules[0];
          rule.effect.verdict == Allow && rule.status == Active && rule.scope == ApprovalScopeFor(a))
  {
    hide ValidAction, Inv, LogVerdict, StoreRule, IsTimestamp, ApprovalText, ValidRule, ApprovalScopeFor, Has,
         NewEntry;
    var correctionId := env.ids(s.nextId);
    var s0 := Drawn(s, 1, 1);
    DrawKeeps(env, kept, s, 1, 1);
    ApprovalTextOk(a, input.reason);
    var remarks := Remarks(Some(input.queueId), original, [], Some(["intercept.forward"]));
    LogKeeps(env, kept, s0, a, APPROVED, Some(correctionId), remarks);
    var s1 := LogVerdict(env, s0, a, APPROVED, Some(correctionId), remarks).1;
    EntryOfOperator(env, Drawn(s0, 1, 1), a, APPROVED, remarks);
    var rule := ApprovalRule(env, s1, a, correctionId);
    ApprovalRuleOk(env, s1, a, correctionId);
    IdsAreFresh(env, kept, s1);
    DrawKeeps(env, kept, s1, 2, 2);
    hide FreshEnv;
    StaysSpent(env, s1.nextId + 1, s1.nextId + 2, rule.id);
    PutKeeps(env, kept, Drawn(s1, 2, 2), rule);
  }

  lemma EntryOfOperator(env: MemoryEnv, s: GatewayState, a: Action, d: Decision, remarks: Remarks)
    requires remarks.queueId.Some? && d.source == Operator
    ensures OperatorEntry(NewEntry(env, s, a, d, remarks), remarks.queueId.value, d.verdict)
  {
  }

  function Activated(r: Rule, activate: bool): Rule { if activate then r.(status := Active) else r }

  lemma StoreProposalKeeps(env: MemoryEnv, kept: Kept, s: GatewayState, p: Rule, activate: bool)
    requires FreshEnv(env) && Inv(env, kept, s) && ValidRule(p) && p.supersedesId.None?
    requires Spent(env, s.nextId, p.id) && !Has(RULES, s.rules, p.id)
    ensures var (r, s') := StoreProposal(env, s, p, activate);
      && r == Ok(Activated(p, activate)) && Inv(env, kept, s') && s'.nextId >= s.nextId
      && s'.rules == s.rules + [Activated(p, activate)]
      && s' == s.(rules := s'.rules, ledger := s'.ledger, nextId := s'.nextId, ticks := s'.ticks)
  {
    hide FreshEnv, Inv, ValidRule, Spent, StoreRule, Has;
    PutKeeps(env, kept, s, p);
    KeptFirst(env, kept, s);
    if activate { ActivateKeeps(env, kept, StoreRule(env, s, PutRule(p), p).1, s.rules, p); }
  }

  ghost predicate Storable(env: Env, s: GatewayState, proposals: seq<Rule>) {
    && Distinct(RULES, proposals)
    && forall i | 0 <= i < |proposals| ::
         ValidRule(proposals[i]) && proposals[i].supersedesId.None?
         && proposals[i].effect.verdict != Allow && proposals[i].status == Proposed
         && Spent(env, s.nextId, proposals[i].id) && !Has(RULES, s.rules, proposals[i].id)
  }

  /** Deny and ask rules, all active or all proposed. */
  ghost predicate NoneAllows(rules: seq<Rule>, activate: bool) {
    forall i | 0 <= i < |rules| ::
      rules[i].effect.verdict != Allow && rules[i].status == if activate then Active else Proposed
  }

  lemma {:induction false} StoreProposalsKeeps(env: MemoryEnv, kept: Kept, s: GatewayState, proposals: seq<Rule>, activate: bool)
    requires FreshEnv(env) && Inv(env, kept, s) && Storable(env, s, proposals)
    ensures var (r, s') := StoreProposals(env, s, proposals, activate);
      && r.Ok? && Inv(env, kept, s') && s'.rules == s.rules + r.value && NoneAllows(r.value, activate)
      && s' == s.(rules := s'.rules, ledger := s'.ledger, nextId := s'.nextId, ticks := s'.ticks)
    decreases |proposals|
  {
    hide FreshEnv, Inv, ValidRule, StoreProposal, Spent;
    if proposals == [] {
      assert s.rules + [] == s.rules;
    } else {
      var p := proposals[0];
      StoreProposalKeeps(env, kept, s, p, activate);
      var s1 := StoreProposal(env, s, p, activate).1;
      StorableRest(env, s, s1, proposals, Activated(p, activate));
      StoreProposalsKeeps(env, kept, s1, proposals[1..], activate);
      var rest := StoreProposals(env, s1, proposals[1..], activate).0.value;
      assert s.rules + [Activated(p, activate)] + rest == s.rules + ([Activated(p, activate)] + rest);
    }
  }

  lemma StorableRest(env: MemoryEnv, s: GatewayState, s1: GatewayState, proposals: seq<Rule>, r: Rule)
    requires proposals != [] && Storable(env, s, proposals) && r.id == proposals[0].id
    requires s1.rules == s.rules + [r] && s1.nextId >= s.nextId
    ensures Storable(env, s1, proposals[1..])
  {
    hide ValidRule;
    var rest := proposals[1..];
    forall i | 0 <= i < |rest|
      ensures Spent(env, s1.nextId, rest[i].id) && !Has(RULES, s1.rules, rest[i].id) && rest[i] == proposals[i + 1]
    {
      assert Spent(env, s.nextId, proposals[i + 1].id);
      assert proposals[0].id != proposals[i + 1].id;
      NotAdded(s.rules, r, rest[i].id);
    }
  }

  lemma NotAdded(rules: seq<Rule>, r: Rule, id: string)
    requires !Has(RULES, rules, id) && r.id != id
    ensures !Has(RULES, rules + [r], id)
  {
    var rules' := rules + [r];
    forall i | 0 <= i < |rules'| ensures rules'[i].id != id {
      if i < |rules| { assert rules'[i] == rules[i]; }
    }
  }

  lemma CompiledStorable(env: MemoryEnv, kept: Kept, s: GatewayState, atoms: seq<Atom>, origin: Option<Action>, correctionId: string)
    requires FreshEnv(env) && Inv(env, kept, s)
    requires Compile(atoms, origin, correctionId, env.ids, env.clock, s.nextId, s.ticks).rules.Some?
    ensures var c := Compile(atoms, origin, correctionId, env.ids, env.clock, s.nextId, s.ticks);
      Storable(env, s.(nextId := c.nextId, ticks := c.ticks), c.rules.value)
  {
    hide Inv, IsTimestamp, ValidRule, ValidAtoms;
    var c := Compile(atoms, origin, correctionId, env.ids, env.clock, s.nextId, s.ticks);
    CompiledRules(atoms, origin, correctionId, env.ids, env.clock, s.nextId, s.ticks);
    InvRules(env, kept, s);
    var rules := c.rules.value;
    hide CompileAtoms, RulesOk, Replays, Agrees, ValidChain, HistoryOk, QueueOk;
    forall i | 0 <= i < |rules|
      ensures Spent(env, c.nextId, rules[i].id) && !Has(RULES, s.rules, rules[i].id) && rules[i].id == env.ids(s.nextId + 3 * i)
    {
      assert FreshProposal(rules[i], env.ids(s.nextId + 3 * i));
      DrawnIsSpent(env, s.nextId + 3 * i, s.nextId);
      if Has(RULES, s.rules, rules[i].id) { HasSpent(env, s.nextId, s.rules, rules[i].id); }
    }
  }

  lemma CompiledCounters(env: MemoryEnv, s: GatewayState, atoms: seq<Atom>, origin: Option<Action>, correctionId: string)
    ensures var c := Compile(atoms, origin, correctionId, env.ids, env.clock, s.nextId, s.ticks);
      c.nextId >= s.nextId && c.ticks >= s.ticks
  {
    CompiledRules(atoms, origin, correctionId, env.ids, env.clock, s.nextId, s.ticks);
    hide CompileAtoms, FreshProposal;
  }

  /** The reason has phrases, and all of them are supported. */
  predicate Compiles(env: Env, reason: string) { env.phrases(reason) != [] && Unsupported !in env.phrases(reason) }

  lemma CompilesIff(env: MemoryEnv, s: GatewayState, a: Action, reason: string, correctionId: string)
    requires FreshEnv(env) && ValidAction(a) && correctionId != ""
    ensures Compile(env.phrases(reason), Some(a), correctionId, env.ids, env.clock, s.nextId, s.ticks).rules.Some? <==> Compiles(env, reason)
  {
    hide CompileAtoms, ValidAction, IsTimestamp;
    CompileThrowsIff(env.phrases(reason), Some(a), correctionId, env.ids, env.clock, s.nextId, s.ticks);
  }

  /** A drop with a reason is logged; it stores deny and ask rules, or none when the reason does not compile. */
  lemma DisapproveKeeps(env: MemoryEnv, kept: Kept, s: GatewayState, a: Action, original: Option<Action>, input: OperatorInput)
    requires FreshEnv(env) && Inv(env, kept, s) && ValidAction(a) && input.reason != ""
    ensures var (r, s') := Disapprove(env, s, a, original, input);
      && Inv(env, kept, s') && s'.queue == s.queue && s'.scope == s.scope && s'.mode == s.mode
      && OneMoreEntry(s, s', input.queueId, Deny)
      && (r.Err? ==> r.error == CorrectionRejected && s'.rules == s.rules)
      && (r.Ok? ==> s'.rules == s.rules + r.value.compiledRules && NoneAllows(r.value.compiledRules, input.activate))
      && (r.Ok? <==> Compiles(env, input.reason))
  {
    hide ValidAction, Inv, LogVerdict, StoreProposals, IsTimestamp, ValidAtoms, Compile, NewEntry, Storable,
         NoneAllows;
    var correctionId := env.ids(s.nextId);
    var s0 := Drawn(s, 1, 1);
    DrawKeeps(env, kept, s, 1, 1);
    var denied := Disapproved(input.reason);
    var remarks := Remarks(Some(input.queueId), original, [], Some(["intercept.drop"]));
    LogKeeps(env, kept, s0, a, denied, Some(correctionId), remarks);
    var s1 := LogVerdict(env, s0, a, denied, Some(correctionId), remarks).1;
    EntryOfOperator(env, Drawn(s0, 1, 1), a, denied, remarks);
    var atoms := env.phrases(input.reason);
    CompiledCounters(env, s1, atoms, Some(a), correctionId);
    var c := Compile(atoms, Some(a), correctionId, env.ids, env.clock, s1.nextId, s1.ticks);
    CompilesIff(env, s1, a, input.reason, correctionId);
    DrawKeeps(env, kept, s1, c.nextId - s1.nextId, c.ticks - s1.ticks);
    if c.rules.Some? {
      CompiledStorable(env, kept, s1, atoms, Some(a), correctionId);
      hide FreshEnv;
      StoreProposalsKeeps(env, kept, s1.(nextId := c.nextId, ticks := c.ticks), c.rules.value, input.activate);
    }
  }

  /** An operator input that the gateway can act on once the item is found. */
  predicate Careful(input: OperatorInput) {
    && (input.editedAction.Some? ==> ValidAction(input.editedAction.value))
    && (!input.approve ==> input.reason != "")
  }

  lemma RemoveKeeps(env: MemoryEnv, kept: Kept, s: GatewayState, id: string)
    requires Inv(env, kept, s)
    ensures Inv(env, kept, s.(queue := OnQueue(InMemory, s.queue, Remove(id)).1))
    ensures OnQueue(InMemory, s.queue, Remove(id)).1 == Without(ITEMS, s.queue, id)
    ensures var item := Lookup(ITEMS, s.queue, id); item.Some? ==> ValidAction(item.value.action)
  {
    hide ValidAction, ValidChain, RulesOk, HistoryOk, Replays, Agrees, Spent;
    DeleteAbsent(s.queue, id);
    WithoutDistinct(ITEMS, s.queue, NotKeyed(ITEMS, id));
    var rest := Without(ITEMS, s.queue, id);
    forall i: nat | i < |rest| ensures ValidAction(rest[i].action) && Spent(env, s.nextId, rest[i].id) {
      var j := FilterIndex(s.queue, NotKeyed(ITEMS, id), i);
    }
  }

  /** What an operator verdict does: nothing, lose the item, or log it and learn. */
  ghost predicate OperatorEffect(s: GatewayState, input: OperatorInput, r: Result<OperatorResult, Fault>, s': GatewayState) {
    var item := Lookup(ITEMS, s.queue, input.queueId);
    && s'.scope == s.scope && s'.mode == s.mode && s'.queue == Without(ITEMS, s.queue, input.queueId)
    && (item.None? ==> r.Err? && s' == s)
    && (item.Some? && !Careful(input) ==> r.Err? && s'.history == s.history && s'.rules == s.rules)
    && (item.Some? && Careful(input) ==>
          && OneMoreEntry(s, s', input.queueId, if input.approve then Allow else Deny)
          && (input.approve ==>
                && r.Ok? && |r.value.compiledRules| == 1 && s'.rules == s.rules + r.value.compiledRules
                && (var rule := r.value.compiledRules[0];
                    && rule.effect.verdict == Allow && rule.status == Active
                    && rule.scope == ApprovalScopeFor(input.editedAction.GetOr(item.value.action))))
          && (!input.approve && r.Err? ==> r.error == CorrectionRejected && s'.rules == s.rules)
          && (!input.approve && r.Ok? ==> s'.rules == s.rules + r.value.compiledRules && NoneAllows(r.value.compiledRules, input.activate)))
  }

  lemma OperatorKeeps(env: MemoryEnv, kept: Kept, s: GatewayState, input: OperatorInput)
    requires FreshEnv(env) && Inv(env, kept, s)
    ensures var (r, s') := OperatorStep(env, s, input);
      && Inv(env, kept, s') && OperatorEffect(s, input, r, s')
      && (!input.approve && Careful(input) && Lookup(ITEMS, s.queue, input.queueId).Some? ==>
            (r.Ok? <==> Compiles(env, input.reason)))
  {
    hide ValidAction, FreshEnv, Inv, Approve, Disapprove, OneMoreEntry, ApprovalScopeFor, NoneAllows;
    RemoveKeeps(env, kept, s, input.queueId);
    var s0 := s.(queue := OnQueue(InMemory, s.queue, Remove(input.queueId)).1);
    var item := Lookup(ITEMS, s.queue, input.queueId);
    hide Lookup, Without;
    if item.Some? && (input.editedAction.Some? ==> ValidAction(input.editedAction.value)) {
      var action := input.editedAction.GetOr(item.value.action);
      var original := if input.editedAction.Some? then Some(item.value.action) else None;
      if input.approve {
        ApproveKeeps(env, kept, s0, action, original, input);
        OneMoreSame(s, s0, Approve(env, s0, action, original, input).1, input.queueId, Allow);
      } else if input.reason != "" {
        DisapproveKeeps(env, kept, s0, action, original, input);
        OneMoreSame(s, s0, Disapprove(env, s0, action, original, input).1, input.queueId, Deny);
      } else {
        EmptyReasonThrows(env, s0, action, original, input);
        DrawKeeps(env, kept, s0, 1, 1);
      }
    }
  }

  lemma OneMoreSame(s: GatewayState, s0: GatewayState, s': GatewayState, queueId: string, verdict: Verdict)
    requires s.history == s0.history && OneMoreEntry(s0, s', queueId, verdict)
    ensures OneMoreEntry(s, s', queueId, verdict)
  {
  }

  lemma EmptyReasonThrows(env: MemoryEnv, s: GatewayState, a: Action, original: Option<Action>, input: OperatorInput)
    requires input.reason == ""
    ensures Disapprove(env, s, a, original, input) == (Err(InvalidInput), Drawn(s, 1, 1))
  {
    hide LogVerdict, Compile, StoreProposals, IsTimestamp;
  }

  lemma {:induction false} OperatorsKeep(env: MemoryEnv, kept: Kept, s: GatewayState, inputs: seq<OperatorInput>)
    requires FreshEnv(env) && Inv(env, kept, s)
    ensures var s' := OperatorSteps(env, s, inputs).1; Inv(env, kept, s') && s.rules <= s'.rules && s'.scope == s.scope
    decreases |inputs|
  {
    hide FreshEnv, Inv, OperatorStep, OneMoreEntry, NoneAllows, ApprovalScopeFor, Lookup, Without, Careful;
    if inputs != [] {
      OperatorKeeps(env, kept, s, inputs[0]);
      var s1 := OperatorStep(env, s, inputs[0]).1;
      OperatorsKeep(env, kept, s1, inputs[1..]);
    }
  }

  // ---------------------------------------------------------------- outcomes

  lemma OutcomeKeeps(env: MemoryEnv, kept: Kept, s: GatewayState, o: ProxyOutcome)
    requires FreshEnv(env) && Inv(env, kept, s)
    ensures var s' := OutcomeStep(env, s, o).1;
      && Inv(env, kept, s') && s'.rules == s.rules && s'.queue == s.queue && s'.scope == s.scope
      && (s'.history == s.history || s'.history == Map(s.history, SetOutcome(o)))
  {
    hide FreshEnv, Inv, Seal, OutcomeEvent, SetOutcome;
    if ForAction(s.history, o.actionId) != [] {
      OutcomeHistory(env, kept, s, o);
      OutcomeAppended(env, kept, s.(history := Map(s.history, SetOutcome(o))), o);
    }
  }

  lemma OutcomeHistoryOk(env: MemoryEnv, n: nat, history: seq<HistoryEntry>, o: ProxyOutcome)
    requires HistoryOk(env, n, history)
    ensures HistoryOk(env, n, Map(history, SetOutcome(o)))
  {
    hide ValidAction, Spent;
  }

  lemma OutcomeHistory(env: MemoryEnv, kept: Kept, s: GatewayState, o: ProxyOutcome)
    requires Inv(env, kept, s) && ForAction(s.history, o.actionId) != []
    ensures Inv(env, kept, s.(history := Map(s.history, SetOutcome(o)))) && o.actionId != ""
  {
    InvRules(env, kept, s);
    OutcomeHistoryOk(env, s.nextId, s.history, o);
    hide ValidAction, Inv, ValidChain, RulesOk, QueueOk, Replays, Agrees, Spent, SetOutcome, ForAction;
    assert o.actionId != "" by {
      assert s.history[0..] == s.history;
      var n := FirstForAction(s.history, 0, o.actionId);
      ActionHasId(s.history[n].action);
    }
    OutcomeAgrees(kept, s.ledger, s.history, o);
    InvOf(env, kept, s.(history := Map(s.history, SetOutcome(o))));
  }

  lemma OutcomeAppended(env: MemoryEnv, kept: Kept, s: GatewayState, o: ProxyOutcome)
    requires FreshEnv(env) && Inv(env, kept, s) && o.actionId != ""
    ensures var input := OutcomeEvent(env.ctx, env.ids(s.nextId), env.clock(s.ticks), o);
      Seal(s.ledger, input).Ok? && Inv(env, kept, Drawn(s, 1, 1).(ledger := s.ledger + [Seal(s.ledger, input).value]))
  {
    InvRules(env, kept, s);
    DrawKeeps(env, kept, s, 1, 1);
    hide FreshEnv, Inv, ValidChain, OutcomeEvent, Seal, RuleOf, IsVerdictEvent, RulesOk, QueueOk, HistoryOk,
         Replays, Agrees;
    OutcomeSeals(env, s, o);
    var input := OutcomeEvent(env.ctx, env.ids(s.nextId), env.clock(s.ticks), o);
    var e := Seal(s.ledger, input).value;
    SealKeepsVerdicts(s.ledger, input);
    ReplaysWithoutRule(kept, s.ledger, s.rules, e);
    NotVerdictAgrees(kept, s.ledger, s.history, e);
    InvRules(env, kept, Drawn(s, 1, 1));
    InvOf(env, kept, Drawn(s, 1, 1).(ledger := s.ledger + [e]));
  }

  lemma InvOf(env: MemoryEnv, kept: Kept, s: GatewayState)
    requires RulesOk(env, s.nextId, s.rules) && QueueOk(env, s.nextId, s.queue) && HistoryOk(env, s.nextId, s.history)
    requires ValidChain(s.ledger) && Replays(kept, s.ledger, s.rules) && Agrees(kept, s.ledger, s.history)
    ensures Inv(env, kept, s)
  {
  }

  lemma OutcomeAgrees(kept: Kept, ledger: seq<SealedEvent>, history: seq<HistoryEntry>, o: ProxyOutcome)
    requires Agrees(kept, ledger, history)
    ensures Agrees(kept, ledger, Map(history, SetOutcome(o)))
  {
    hide ActionJson, VerdictJson, IsVerdictEvent;
    var history', vs := Map(history, SetOutcome(o)), VerdictEvents(ledger);
    forall i | 0 <= i < |vs| ensures RecordsEntry(vs[i], history'[kept.entries + i]) {
      assert RecordsEntry(vs[i], history[kept.entries + i]);
    }
  }

  lemma OutcomeSeals(env: MemoryEnv, s: GatewayState, o: ProxyOutcome)
    requires FreshEnv(env) && ValidChain(s.ledger) && o.actionId != ""
    ensures var input := OutcomeEvent(env.ctx, env.ids(s.nextId), env.clock(s.ticks), o);
      && Seal(s.ledger, input).Ok?
      && (var e := Seal(s.ledger, input).value; RuleOf(e) == None && !IsVerdictEvent(e))
  {
    hide IsTimestamp, HashEvent, TailHash, ValidAtoms, ValidChain;
    TailNotEmpty(s.ledger);
    NotSensitive("actionOutcome");
    var input := OutcomeEvent(env.ctx, env.ids(s.nextId), env.clock(s.ticks), o);
    RedactOne("actionOutcome", input.afterState.value[0].val);
    SealedAsIs(s.ledger, input);
    hide Seal, RuleFromJson;
    var ms := input.afterState.value;
    assert ms[0].key[0] == 'a' && "policyRule"[0] == 'p' && ms[1..] == [];
    assert Get(ms, "policyRule") == None;
    NoRuleFromNothing();
    assert "policy.outcome"[7] != "policy.verdict"[7];
  }

  // ---------------------------------------------------------------- runs

  /** Every call keeps the invariant, and the rule list only grows. */
  lemma StepKeeps(env: MemoryEnv, kept: Kept, s: GatewayState, call: Call)
    requires FreshEnv(env) && Inv(env, kept, s)
    ensures Inv(env, kept, Step(env, s, call)) && s.rules <= Step(env, s, call).rules
  {
    hide FreshEnv, Inv, Judge, OperatorSteps, OutcomeStep, RepeaterStep, OperatorStep, ValidAction, Prepare,
         OneMoreEntry, NoneAllows, ApprovalScopeFor, Lookup, Without, Careful, ForwardInputs, DropInputs, DecideNow;
    match call
    case CallIntercept(a) =>
      if ValidAction(a) {
        var p := Prepare(s, a, true);
        if p.Ok? {
          PreparedIsValid(s, a, true);
          JudgeKeeps(env, kept, s, p.value);
        }
      }
    case CallRepeater(input) => RepeaterKeeps(env, kept, s, input);
    case CallOperator(input) => OperatorKeeps(env, kept, s, input);
    case CallForwardAll(reason) => OperatorsKeep(env, kept, s, ForwardInputs(s, reason));
    case CallDropAll(reason, activate) => OperatorsKeep(env, kept, s, DropInputs(s, reason, activate));
    case CallOutcome(o) => OutcomeKeeps(env, kept, s, o);
    case CallSetMode(m) => SettingsKeep(env, kept, s, s.(mode := m));
    case CallSetScope(scope) => SettingsKeep(env, kept, s, s.(scope := scope));
    case CallSetReplaceRules(rules) => SettingsKeep(env, kept, s, s.(replaceRules := rules));
  }

  lemma SettingsKeep(env: MemoryEnv, kept: Kept, s: GatewayState, s': GatewayState)
    requires Inv(env, kept, s) && s' == s.(mode := s'.mode, scope := s'.scope, replaceRules := s'.replaceRules)
    ensures Inv(env, kept, s')
  {
    hide RulesOk, QueueOk, HistoryOk, ValidChain, Replays, Agrees;
  }

  lemma {:induction false} RunKeeps(env: MemoryEnv, kept: Kept, s: GatewayState, calls: seq<Call>)
    requires FreshEnv(env) && Inv(env, kept, s)
    ensures Inv(env, kept, Run(env, s, calls)) && s.rules <= Run(env, s, calls).rules
  {
    hide FreshEnv, Inv, Step;
    if calls != [] {
      RunKeeps(env, kept, s, calls[..|calls| - 1]);
      StepKeeps(env, kept, Run(env, s, calls[..|calls| - 1]), calls[|calls| - 1]);
    }
  }

  /** A session begins: a new ledger, beside stores that hold nothing or what earlier sessions left under ids not drawn again. */
  ghost predicate Begins(env: Env, s: GatewayState) {
    && RulesOk(env, s.nextId, s.rules) && QueueOk(env, s.nextId, s.queue) && HistoryOk(env, s.nextId, s.history)
    && s.ledger == []
  }

  function KeptIn(s: GatewayState): Kept { Kept(|s.rules|, |s.history|) }

  lemma EmptyBegins(env: Env, mode: Mode, scope: Option<ProxyScope>, replaceRules: seq<MatchReplaceRule>)
    ensures Begins(env, Initial(mode, scope, replaceRules))
  {
  }

  lemma BeginsInv(env: MemoryEnv, s: GatewayState)
    requires Begins(env, s)
    ensures Inv(env, KeptIn(s), s)
  {
    hide RulesOk, QueueOk, HistoryOk;
  }

  /** So every session keeps the invariant to its end. */
  lemma SessionKeeps(env: MemoryEnv, s: GatewayState, calls: seq<Call>)
    requires FreshEnv(env) && Begins(env, s)
    ensures Inv(env, KeptIn(s), Run(env, s, calls)) && s.rules <= Run(env, s, calls).rules
  {
    hide FreshEnv, Inv, Run, Begins;
    BeginsInv(env, s);
    RunKeeps(env, KeptIn(s), s, calls);
  }
}
