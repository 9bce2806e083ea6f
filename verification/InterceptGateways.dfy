/**
 The intercept gateway as an object over its stores
 (packages/integrations/intercept-gateway/src/gateway.ts). Each method returns what the
 step function of `GatewaySteps` returns and leaves the state it leaves.
 */
module InterceptGateways {
  import opened Prelude
  import opened KeyedStores
  import opened AuditLedgers
  import opened PolicyEngine
  import opened PolicyStores
  import opened ProxyHistories
  import opened PolicyAudit
  import opened CompileCorrection
  import opened MatchReplace
  import opened GatewaySteps

  /** What a list of proposals yields when `stored` already holds the answers to the ones in front of it. */
  function After<T>(stored: seq<T>, rest: Result<seq<T>, Fault>): Result<seq<T>, Fault> {
    if rest.Err? then rest else Ok(stored + rest.value)
  }

  class InterceptGateway {
    const env: MemoryEnv
    const policyStore: InMemoryPolicyStore
    const interceptQueue: InMemoryInterceptQueue
    const proxyHistory: InMemoryProxyHistory
    const ledger: AuditLedger
    var mode: Mode
    var scope: Option<ProxyScope>
    var replaceRules: seq<MatchReplaceRule>
    var nextId: nat
    var ticks: nat

    function State(): GatewayState
      reads this, policyStore, interceptQueue, proxyHistory, ledger
    {
      GatewayState(policyStore.rules, interceptQueue.items, proxyHistory.entries, ledger.chain,
                   mode, scope, replaceRules, nextId, ticks)
    }

    constructor (env: MemoryEnv, mode: Mode, scope: Option<ProxyScope>, replaceRules: seq<MatchReplaceRule>)
      ensures this.env == env && State() == Initial(mode, scope, replaceRules)
      ensures fresh(policyStore) && fresh(interceptQueue) && fresh(proxyHistory) && fresh(ledger)
    {
      var policyStore := new InMemoryPolicyStore();
      var interceptQueue := new InMemoryInterceptQueue();
      var proxyHistory := new InMemoryProxyHistory();
      var ledger := new AuditLedger();
      this.env := env;
      this.policyStore, this.interceptQueue, this.proxyHistory, this.ledger := policyStore, interceptQueue, proxyHistory, ledger;
      this.mode, this.scope, this.replaceRules := mode, scope, replaceRules;
      this.nextId, this.ticks := 0, 0;
    }

    method SetMode(mode: Mode)
      modifies this`mode
      ensures State() == old(State()).(mode := mode)
    {
      this.mode := mode;
    }

    method SetScope(scope: Option<ProxyScope>)
      modifies this`scope
      ensures State() == old(State()).(scope := scope)
    {
      this.scope := scope;
    }

    method SetMatchReplaceRules(rules: seq<MatchReplaceRule>)
      modifies this`replaceRules
      ensures State() == old(State()).(replaceRules := rules)
    {
      replaceRules := rules;
    }

    // -------------------------------------------------------------- ids, clock and audit

    method NextId() returns (id: string)
      modifies this`nextId
      ensures id == env.ids(old(nextId)) && State() == Drawn(old(State()), 1, 0)
    {
      id := env.ids(nextId);
      nextId := nextId + 1;
    }

    method Now() returns (at: string)
      modifies this`ticks
      ensures at == env.clock(old(ticks)) && State() == Drawn(old(State()), 0, 1)
    {
      at := env.clock(ticks);
      ticks := ticks + 1;
    }

    method AppendVerdict(a: Action, d: Decision, from: Option<string>) returns (r: Result<(), Fault>)
      modifies this`nextId, this`ticks, ledger
      ensures (r, State()) == GatewaySteps.AppendVerdict(env, old(State()), a, d, from)
    {
      hide ValidAction, VerdictEvent, Seal, ValidChain;
      if !ValidAction(a) { return Err(InvalidInput); }
      var id := NextId();
      var at := Now();
      var sealed := ledger.Append(VerdictEvent(env.ctx, id, at, a, d, from));
      r := if sealed.Ok? then Ok(()) else Err(AuditRefused);
    }

    method AppendRule(rule: Rule) returns (r: Result<(), Fault>)
      modifies this`nextId, this`ticks, ledger
      ensures (r, State()) == GatewaySteps.AppendRule(env, old(State()), rule)
    {
      hide ValidRule, RuleEvent, Seal, ValidChain;
      if !ValidRule(rule) { return Err(InvalidInput); }
      var id := NextId();
      var at := Now();
      var sealed := ledger.Append(RuleEvent(env.ctx, id, at, rule));
      r := if sealed.Ok? then Ok(()) else Err(AuditRefused);
    }

    method RecordHistory(a: Action, d: Decision, remarks: Remarks) returns (r: Result<(), Fault>)
      modifies this`nextId, this`ticks, proxyHistory
      ensures (r, State()) == GatewaySteps.RecordHistory(env, old(State()), a, d, remarks)
    {
      var before := State();
      var id := NextId();
      var at := Now();
      var entry := HistoryEntry(id, remarks.originalAction, a, d, mode, at, remarks.queueId,
        if |remarks.appliedRuleIds| > 0 then Some(remarks.appliedRuleIds) else None, remarks.notes, None);
      assert entry == NewEntry(env, before, a, d, remarks);
      hide OnHistory;
      RecordAnswers(proxyHistory.entries, entry);
      var answer := proxyHistory.Record(entry);
      r := if answer.Refused? then Err(HistoryRefused(answer.error)) else Ok(());
    }

    method LogVerdict(a: Action, d: Decision, from: Option<string>, remarks: Remarks) returns (r: Result<(), Fault>)
      modifies this`nextId, this`ticks, ledger, proxyHistory
      ensures (r, State()) == GatewaySteps.LogVerdict(env, old(State()), a, d, from, remarks)
    {
      hide GatewaySteps.AppendVerdict, GatewaySteps.RecordHistory;
      r := AppendVerdict(a, d, from);
      if r.Ok? { r := RecordHistory(a, d, remarks); }
    }

    // -------------------------------------------------------------- intercept and repeater

    method PrepareAction(raw: Action, applyRules: bool) returns (r: Result<Prepared, Fault>)
      ensures r == Prepare(State(), raw, applyRules)
    {
      hide ApplyMatchReplaceRules;
      if !applyRules || |replaceRules| == 0 { return Ok(Prepared(raw, None, [])); }
      var result := ApplyMatchReplaceRulesLoop(raw, replaceRules);
      if result.Err? { return Err(ReplaceFailed(result.error)); }
      if |result.value.appliedRuleIds| == 0 { return Ok(Prepared(result.value.action, None, [])); }
      r := Ok(Prepared(result.value.action, Some(raw), result.value.appliedRuleIds));
    }

    method DecideAction(a: Action, mode: Mode) returns (d: Decision)
      ensures d == DecideNow(State(), a, mode)
    {
      hide DecideFromStore, IsActive;
      var active := policyStore.ActiveRules();
      d := DecideFromStore(a, Ok(active), mode, scope);
    }

    method Intercept(raw: Action) returns (r: Result<Decision, Fault>)
      modifies this`nextId, this`ticks, interceptQueue, proxyHistory, ledger
      ensures (r, State()) == InterceptStep(env, old(State()), raw)
    {
      hide ValidAction, Prepare, DecideNow, OnQueue, GatewaySteps.LogVerdict, QueueFailedClosed;
      if !ValidAction(raw) { return Err(InvalidInput); }
      var prepared := PrepareAction(raw, true);
      if prepared.Err? { return Err(prepared.error); }
      var p := prepared.value;
      var decision := DecideAction(p.action, mode);
      var queueId: Option<string> := None;
      if decision.verdict == Ask {
        var id := NextId();
        var at := Now();
        var answer := interceptQueue.Enqueue(QueuedIntercept(id, p.action, at));
        if answer.Failed? {
          var closed := QueueFailedClosed(answer.error);
          var refused := LogVerdict(p.action, closed, None, Remarks(None, p.originalAction, p.appliedRuleIds, None));
          return if refused.Err? then Err(refused.error) else Ok(closed);
        }
        queueId := Some(id);
      }
      var logged := LogVerdict(p.action, decision, None, Remarks(queueId, p.originalAction, p.appliedRuleIds, None));
      r := if logged.Err? then Err(logged.error) else Ok(decision);
    }

    method RepeatedAction(input: RepeaterInput) returns (r: Result<Action, Fault>)
      ensures r == RepeaterAction(State(), input)
    {
      hide ValidAction;
      if input.action.Some? { return if ValidAction(input.action.value) then Ok(input.action.value) else Err(InvalidInput); }
      if input.historyId.Some? {
        var entry := proxyHistory.ById(input.historyId.value);
        return if entry.None? then Err(NoHistoryEntry(input.historyId.value)) else Ok(entry.value.action);
      }
      r := Err(NothingToRepeat);
    }

    method Repeater(input: RepeaterInput) returns (r: Result<Decision, Fault>)
      modifies this`nextId, this`ticks, proxyHistory, ledger
      ensures (r, State()) == RepeaterStep(env, old(State()), input)
    {
      hide RepeaterAction, Prepare, DecideNow, GatewaySteps.LogVerdict;
      var raw := RepeatedAction(input);
      if raw.Err? { return Err(raw.error); }
      var prepared := PrepareAction(raw.value, input.applyMatchReplace);
      if prepared.Err? { return Err(prepared.error); }
      var p := prepared.value;
      var decision := DecideAction(p.action, input.mode.GetOr(mode));
      var logged := LogVerdict(p.action, decision, None,
        Remarks(None, p.originalAction, p.appliedRuleIds, Some(["repeater.send"])));
      r := if logged.Err? then Err(logged.error) else Ok(decision);
    }

    // -------------------------------------------------------------- operator verdicts

    method PutAudited(rule: Rule) returns (r: Result<(), Fault>)
      modifies this`nextId, this`ticks, policyStore, ledger
      ensures (r, State()) == StoreRule(env, old(State()), PutRule(rule), rule)
    {
      hide OnRules, GatewaySteps.AppendRule;
      var answer := policyStore.PutRule(rule);
      if answer.Failed? { PutRefused(old(policyStore.rules), rule); return Err(StoreRefused(answer.error)); }
      r := AppendRule(rule);
    }

    method UpdateAudited(rule: Rule) returns (r: Result<(), Fault>)
      modifies this`nextId, this`ticks, policyStore, ledger
      ensures (r, State()) == StoreRule(env, old(State()), UpdateRule(rule), rule)
    {
      hide OnRules, GatewaySteps.AppendRule;
      var answer := policyStore.UpdateRule(rule);
      if answer.Failed? { UpdateRefused(old(policyStore.rules), rule); return Err(StoreRefused(answer.error)); }
      r := AppendRule(rule);
    }

    /** The evaluation case drawn beside the rule is not modelled; its id and clock reading are. */
    method CompileApprovalRule(a: Action, correctionId: string) returns (r: Result<Rule, Fault>)
      modifies this`nextId, this`ticks
      ensures var rule := ApprovalRule(env, old(State()), a, correctionId);
        && r == (if ValidRule(rule) then Ok(rule) else Err(InvalidInput))
        && State() == Drawn(old(State()), 2, if r.Ok? then 2 else 1)
    {
      hide ValidRule, ApprovalScopeFor;
      var ruleId := NextId();
      var evalCaseId := NextId();
      var createdAt := Now();
      var rule := Rule(ruleId, 1, correctionId, evalCaseId, ApprovalScopeFor(a), Effect(Allow, ActivatePolicy, [], []),
                       Active, None, createdAt);
      if !ValidRule(rule) { return Err(InvalidInput); }
      var evalCreatedAt := Now();
      r := Ok(rule);
    }

    method Approval(a: Action, original: Option<Action>, input: OperatorInput) returns (r: Result<OperatorResult, Fault>)
      modifies this`nextId, this`ticks, policyStore, proxyHistory, ledger
      ensures (r, State()) == Approve(env, old(State()), a, original, input)
    {
      hide ValidCorrection, GatewaySteps.LogVerdict, ValidRule, StoreRule, ApprovalRule, ApprovalText;
      var correctionId := NextId();
      var correctedAt := Now();
      if !ValidCorrection(env, correctionId, ApprovalText(a, input.reason), correctedAt) { return Err(InvalidInput); }
      var logged := LogVerdict(a, APPROVED, Some(correctionId),
        Remarks(Some(input.queueId), original, [], Some(["intercept.forward"])));
      if logged.Err? { return Err(logged.error); }
      var rule := CompileApprovalRule(a, correctionId);
      if rule.Err? { return Err(rule.error); }
      var stored := PutAudited(rule.value);
      r := if stored.Err? then Err(stored.error) else Ok(OperatorResult(APPROVED, [rule.value]));
    }

    method StoreProposed(proposals: seq<Rule>, activate: bool) returns (r: Result<seq<Rule>, Fault>)
      modifies this`nextId, this`ticks, policyStore, ledger
      ensures (r, State()) == StoreProposals(env, old(State()), proposals, activate)
    {
      hide StoreRule;
      var storedRules: seq<Rule> := [];
      ghost var goal := StoreProposals(env, State(), proposals, activate);
      assert proposals[0..] == proposals;
      AfterNothing(goal.0);
      for i := 0 to |proposals|
        invariant var rest := StoreProposals(env, State(), proposals[i..], activate);
          goal.1 == rest.1 && goal.0 == After(storedRules, rest.0)
      {
        var proposed := proposals[i];
        assert proposals[i..][1..] == proposals[i + 1..];
        ghost var here := State();
        var put := PutAudited(proposed);
        if put.Err? { return Err(put.error); }
        var stored := proposed;
        if activate {
          stored := proposed.(status := Active);
          var updated := UpdateAudited(stored);
          if updated.Err? { return Err(updated.error); }
        }
        assert StoreProposal(env, here, proposed, activate) == (Ok(stored), State());
        AfterStep(storedRules, stored, StoreProposals(env, State(), proposals[i + 1..], activate).0);
        storedRules := storedRules + [stored];
      }
      assert storedRules + [] == storedRules;
      r := Ok(storedRules);
    }

    method Disapproval(a: Action, original: Option<Action>, input: OperatorInput) returns (r: Result<OperatorResult, Fault>)
      modifies this`nextId, this`ticks, policyStore, proxyHistory, ledger
      ensures (r, State()) == Disapprove(env, old(State()), a, original, input)
    {
      hide ValidCorrection, GatewaySteps.LogVerdict, Compile, StoreProposals, Disapproved;
      var correctionId := NextId();
      var correctedAt := Now();
      if !ValidCorrection(env, correctionId, input.reason, correctedAt) { return Err(InvalidInput); }
      var denied := Disapproved(input.reason);
      var logged := LogVerdict(a, denied, Some(correctionId),
        Remarks(Some(input.queueId), original, [], Some(["intercept.drop"])));
      if logged.Err? { return Err(logged.error); }
      var compiled := CompileCorrectionLoop(env.phrases(input.reason), Some(a), correctionId, env.ids, env.clock, nextId, ticks);
      nextId, ticks := compiled.nextId, compiled.ticks;
      if compiled.rules.None? { return Err(CorrectionRejected); }
      var stored := StoreProposed(compiled.rules.value, input.activate);
      r := if stored.Err? then Err(stored.error) else Ok(OperatorResult(denied, stored.value));
    }

    method OperatorVerdict(input: OperatorInput) returns (r: Result<OperatorResult, Fault>)
      modifies this`nextId, this`ticks, policyStore, interceptQueue, proxyHistory, ledger
      ensures (r, State()) == OperatorStep(env, old(State()), input)
    {
      hide ValidAction, OnQueue, Approve, Disapprove, Lookup;
      RemoveAnswers(interceptQueue.items, input.queueId);
      var item := interceptQueue.Remove(input.queueId);
      if item.None? { return Err(NoQueuedIntercept(input.queueId)); }
      if input.editedAction.Some? && !ValidAction(input.editedAction.value) { return Err(InvalidInput); }
      var action := if input.editedAction.None? then item.value.action else input.editedAction.value;
      var originalAction := if input.editedAction.None? then None else Some(item.value.action);
      if input.approve {
        r := Approval(action, originalAction, input);
      } else {
        r := Disapproval(action, originalAction, input);
      }
    }

    // -------------------------------------------------------------- all pending items

    method ForwardAll(reason: Option<string>) returns (r: Result<seq<OperatorResult>, Fault>)
      modifies this`nextId, this`ticks, policyStore, interceptQueue, proxyHistory, ledger
      ensures (r, State()) == OperatorSteps(env, old(State()), ForwardInputs(old(State()), reason))
    {
      hide OperatorStep, OnQueue, ForwardInput;
      PendingAnswers(interceptQueue.items);
      var pending := interceptQueue.Pending();
      ghost var inputs := ForwardInputs(State(), reason);
      ghost var goal := OperatorSteps(env, State(), inputs);
      var results: seq<OperatorResult> := [];
      assert inputs[0..] == inputs;
      AfterNothing(goal.0);
      for i := 0 to |pending|
        invariant var rest := OperatorSteps(env, State(), inputs[i..]);
          goal.1 == rest.1 && goal.0 == After(results, rest.0)
      {
        assert inputs[i] == ForwardInput(pending[i], reason) && inputs[i..][1..] == inputs[i + 1..];
        var result := OperatorVerdict(ForwardInput(pending[i], reason));
        if result.Err? { return Err(result.error); }
        AfterStep(results, result.value, OperatorSteps(env, State(), inputs[i + 1..]).0);
        results := results + [result.value];
      }
      assert results + [] == results;
      r := Ok(results);
    }

    method DropAll(reason: string, activate: bool) returns (r: Result<seq<OperatorResult>, Fault>)
      modifies this`nextId, this`ticks, policyStore, interceptQueue, proxyHistory, ledger
      ensures (r, State()) == OperatorSteps(env, old(State()), DropInputs(old(State()), reason, activate))
    {
      hide OperatorStep, OnQueue, DropInput;
      PendingAnswers(interceptQueue.items);
      var pending := interceptQueue.Pending();
      ghost var inputs := DropInputs(State(), reason, activate);
      ghost var goal := OperatorSteps(env, State(), inputs);
      var results: seq<OperatorResult> := [];
      assert inputs[0..] == inputs;
      AfterNothing(goal.0);
      for i := 0 to |pending|
        invariant var rest := OperatorSteps(env, State(), inputs[i..]);
          goal.1 == rest.1 && goal.0 == After(results, rest.0)
      {
        assert inputs[i] == DropInput(pending[i], reason, activate) && inputs[i..][1..] == inputs[i + 1..];
        var result := OperatorVerdict(DropInput(pending[i], reason, activate));
        if result.Err? { return Err(result.error); }
        AfterStep(results, result.value, OperatorSteps(env, State(), inputs[i + 1..]).0);
        results := results + [result.value];
      }
      assert results + [] == results;
      r := Ok(results);
    }

    // -------------------------------------------------------------- outcomes

    method RecordOutcome(outcome: ProxyOutcome) returns (r: Result<ProxyOutcome, Fault>)
      requires Distinct(ENTRIES, proxyHistory.entries)
      modifies this`nextId, this`ticks, proxyHistory, ledger
      ensures (r, State()) == OutcomeStep(env, old(State()), outcome)
    {
      hide OnHistory, Seal, OutcomeEvent, ValidChain;
      OutcomeAnswers(proxyHistory.entries, outcome);
      var answer := proxyHistory.RecordOutcome(outcome);
      if answer.Refused? { return Err(HistoryRefused(answer.error)); }
      var id := NextId();
      var at := Now();
      var sealed := ledger.Append(OutcomeEvent(env.ctx, id, at, outcome));
      r := if sealed.Ok? then Ok(outcome) else Err(AuditRefused);
    }
  }

  lemma AfterNothing<T>(rest: Result<seq<T>, Fault>)
    ensures After([], rest) == rest
  {
    if rest.Ok? { assert [] + rest.value == rest.value; }
  }

  lemma AfterStep<T>(stored: seq<T>, next: T, rest: Result<seq<T>, Fault>)
    ensures After(stored, if rest.Err? then rest else Ok([next] + rest.value)) == After(stored + [next], rest)
  {
    if rest.Ok? { assert stored + ([next] + rest.value) == stored + [next] + rest.value; }
  }

  lemma RecordAnswers(entries: seq<HistoryEntry>, e: HistoryEntry)
    ensures var (answer, entries') := OnHistory(InMemory, entries, HistoryCall.Record(e));
      answer.Refused? ==> entries' == entries
  {
  }

  lemma OutcomeAnswers(entries: seq<HistoryEntry>, o: ProxyOutcome)
    ensures var (answer, entries') := OnHistory(InMemory, entries, HistoryCall.RecordOutcome(o));
      answer.Refused? ==> entries' == entries
  {
  }

  lemma PutRefused(rules: seq<Rule>, rule: Rule)
    ensures var (answer, rules') := OnRules(InMemory, rules, PutRule(rule)); answer.Failed? ==> rules' == rules
  {
  }

  lemma UpdateRefused(rules: seq<Rule>, rule: Rule)
    ensures var (answer, rules') := OnRules(InMemory, rules, UpdateRule(rule)); answer.Failed? ==> rules' == rules
  {
  }

  lemma RemoveAnswers(items: seq<QueuedIntercept>, id: string)
    ensures OnQueue(InMemory, items, Remove(id)).0 == Found(Lookup(ITEMS, items, id))
  {
  }

  lemma PendingAnswers(items: seq<QueuedIntercept>)
    ensures OnQueue(InMemory, items, QueueCall.Pending).0 == Listed(Saved(ITEMS, items))
  {
  }
}
