/**
 The gateway over file-backed stores (packages/integrations/intercept-gateway/src/runtime.ts)
 against the gateway over stores in memory: every run of valid calls gets the same answers and
 the same ledger, and leaves the same entries.
 */
module GatewayMedia {
  import opened Prelude
  import opened Sorting
  import opened KeyedStores
  import opened AuditEvents
  import opened AuditLedgers
  import opened PolicyEngine
  import opened PolicyStores
  import opened ProxyHistories
  import opened PolicyAudit
  import opened CompileCorrection
  import opened MatchReplace
  import opened GatewaySteps
  import opened GatewayCoverage
  import opened GatewayRuns

  // ---------------------------------------------------------------- the same state on file

  function Filed(env: Env): Env { env.(medium := OnFile) }

  /** The state whose stores are the files that hold the entries of `s`. */
  function FileOf(s: GatewayState): GatewayState {
    s.(rules := Saved(RULES, s.rules), queue := Saved(ITEMS, s.queue), history := Saved(ENTRIES, s.history))
  }

  /** Each store holds each key once, and what waits and what rewrites is valid. */
  ghost predicate Sound(s: GatewayState) {
    && Distinct(RULES, s.rules) && Distinct(ITEMS, s.queue) && Distinct(ENTRIES, s.history)
    && WaitsSoundly(s.queue) && NamedRules(s.replaceRules)
  }

  ghost predicate WaitsSoundly(queue: seq<QueuedIntercept>) {
    forall item | item in queue :: item.id != "" && ValidAction(item.action)
  }

  predicate NamedRules(rules: seq<MatchReplaceRule>) { forall r | r in rules :: r.id != "" }

  /** Ids are non-empty and time stamps parse; they may repeat. */
  ghost predicate ReadableEnv(env: Env) {
    (forall i: nat :: env.ids(i) != "") && (forall i: nat :: IsTimestamp(env.clock(i)))
  }

  /** The calls whose data every store accepts: outcomes parse, and rewriting rules have names. */
  predicate ValidCall(call: Call) {
    (call.CallOutcome? ==> ValidOutcome(call.outcome)) && (call.CallSetReplaceRules? ==> NamedRules(call.rules))
  }

  datatype CallAnswer =
    | Decided(decision: Result<Decision, Fault>) | Judged(verdict: Result<OperatorResult, Fault>)
    | AllJudged(verdicts: Result<seq<OperatorResult>, Fault>) | Outcome(outcome: Result<ProxyOutcome, Fault>) | Settled

  /** What a call returns or throws. */
  function AnswerTo(env: Env, s: GatewayState, call: Call): CallAnswer {
    match call
    case CallIntercept(a) => Decided(InterceptStep(env, s, a).0)
    case CallRepeater(input) => Decided(RepeaterStep(env, s, input).0)
    case CallOperator(input) => Judged(OperatorStep(env, s, input).0)
    case CallForwardAll(reason) => AllJudged(OperatorSteps(env, s, ForwardInputs(s, reason)).0)
    case CallDropAll(reason, activate) => AllJudged(OperatorSteps(env, s, DropInputs(s, reason, activate)).0)
    case CallOutcome(o) => Outcome(OutcomeStep(env, s, o).0)
    case CallSetMode(_) => Settled
    case CallSetScope(_) => Settled
    case CallSetReplaceRules(_) => Settled
  }

  function Answers(env: Env, s: GatewayState, calls: seq<Call>): seq<CallAnswer>
    decreases |calls|
  {
    if calls == [] then [] else [AnswerTo(env, s, calls[0])] + Answers(env, Step(env, s, calls[0]), calls[1..])
  }

  // ---------------------------------------------------------------- reading

  lemma SavedBacks<T>(k: Keying<T>, xs: seq<T>)
    requires Distinct(k, xs)
    ensures Backs(k, Saved(k, xs), xs)
  {
  }

  lemma BackedBy<T>(k: Keying<T>, file: seq<T>, xs: seq<T>)
    requires Backs(k, file, xs)
    ensures file == Saved(k, xs) && Distinct(k, xs)
  {
  }

  lemma DecidesAlike(s: GatewayState, a: Action, mode: Mode)
    requires Distinct(RULES, s.rules)
    ensures DecideNow(FileOf(s), a, mode) == DecideNow(s, a, mode)
  {
    hide DecideFromStore, IsActive, Saved, Distinct;
    SavedBacks(RULES, s.rules);
    BacksSorted(RULES, Saved(RULES, s.rules), s.rules);
  }

  lemma PendingAlike(s: GatewayState)
    requires Distinct(ITEMS, s.queue)
    ensures PendingItems(FileOf(s)) == PendingItems(s)
  {
    hide Saved, Distinct;
    SavedBacks(ITEMS, s.queue);
    BacksSorted(ITEMS, Saved(ITEMS, s.queue), s.queue);
  }

  // ---------------------------------------------------------------- every decision can be stored

  lemma BestIsStored(a: Action, rules: seq<Rule>)
    requires DistinctIds(rules)
    ensures var best := BestMatchingRule(a, rules); best.Some? ==> best.value in rules
  {
    BestIsGreatest(a, rules);
    hide BestMatchingRule, Matches, DistinctIds, Before;
  }

  lemma RuleDecisionStores(rule: Rule, mode: Mode)
    requires ValidRule(rule)
    ensures ValidDecision(DecisionFromRule(rule, mode))
  {
  }

  /** The decisions made without a rule. */
  lemma DefaultsStore(a: Action, reason: string)
    ensures reason != "" ==> ValidDecision(Decision(Allow, true, [], [], ScopeSource, None, Some(reason), None))
    ensures ValidDecision(Decision(Allow, true, [], [], DefaultDeny, None, None, None))
    ensures var text := "No active policy rule matched " + a.tool + " " + a.action + "; operator approval is required.";
      ValidDecision(Decision(Ask, false, [text], ["Record an operator approve/disapprove verdict for this action class."],
                             DefaultDeny, None, None, None))
  {
  }

  lemma DecideStores(a: Action, rules: seq<Rule>, mode: Mode, scope: Option<ProxyScope>)
    requires DistinctIds(rules) && (InScope(a, scope) ==> ValidRules(rules))
    ensures ValidDecision(Decide(a, rules, mode, scope))
  {
    hide BestMatchingRule, EvaluateScope, InScope, DistinctIds, DecisionFromRule, ValidRule, ValidDecision;
    BestIsStored(a, rules);
    ScopeHasReason(a, scope);
    DefaultsStore(a, EvaluateScope(a, scope).reason);
    var best := BestMatchingRule(a, rules);
    if InScope(a, scope) && best.Some? { RuleDecisionStores(best.value, mode); }
  }

  lemma DecisionStores(a: Action, rules: seq<Rule>, mode: Mode, scope: Option<ProxyScope>)
    requires DistinctIds(rules)
    ensures ValidDecision(DecideFromStore(a, Ok(rules), mode, scope))
  {
    hide Decide, ValidAction, InScope, ValidRules, DistinctIds;
    if InScope(a, scope) ==> ValidRules(rules) { DecideStores(a, rules, mode, scope); }
  }

  lemma ScopeHasReason(a: Action, scope: Option<ProxyScope>)
    ensures EvaluateScope(a, scope).reason != ""
  {
    hide FindMatch;
  }

  lemma DecidedStores(s: GatewayState, a: Action, mode: Mode)
    requires Distinct(RULES, s.rules)
    ensures ValidDecision(DecideNow(s, a, mode))
  {
    ActiveRulesDistinct(s.rules);
    hide ActiveRulesOf, DecideFromStore, DistinctIds, ValidDecision, Distinct;
    DecisionStores(a, ActiveRulesOf(s.rules), mode, s.scope);
  }

  lemma OtherDecisionsStore(reason: string, error: StoreError)
    ensures ValidDecision(APPROVED) && ValidDecision(QueueFailedClosed(error))
    ensures reason != "" ==> ValidDecision(Disapproved(reason))
  {
    hide QueueErrorText;
  }

  /** Remarks that the history file accepts. */
  predicate StorableRemarks(remarks: Remarks) {
    && (remarks.queueId.Some? ==> remarks.queueId.value != "")
    && (remarks.originalAction.Some? ==> ValidAction(remarks.originalAction.value))
    && NonEmptyStrings(remarks.appliedRuleIds)
    && (remarks.notes.Some? ==> NonEmptyStrings(remarks.notes.value))
  }

  // ---------------------------------------------------------------- logging and storing

  lemma AppendAlike(env: MemoryEnv, s: GatewayState, a: Action, d: Decision, from: Option<string>)
    ensures var (r, s') := AppendVerdict(env, s, a, d, from);
      && AppendVerdict(Filed(env), FileOf(s), a, d, from) == (r, FileOf(s'))
      && s'.rules == s.rules && s'.queue == s.queue && s'.history == s.history && s'.replaceRules == s.replaceRules
      && s'.mode == s.mode && (r.Ok? ==> ValidAction(a))
  {
    hide ValidAction, Seal, VerdictEvent, Saved;
  }

  lemma EntryAlike(env: MemoryEnv, s: GatewayState, a: Action, d: Decision, remarks: Remarks)
    requires ReadableEnv(env) && ValidAction(a) && ValidDecision(d) && StorableRemarks(remarks)
    ensures var e := NewEntry(env, s, a, d, remarks); e == NewEntry(Filed(env), FileOf(s), a, d, remarks) && ValidEntry(e)
  {
    hide ValidAction, ValidDecision, Saved, IsTimestamp, NonEmptyStrings;
  }

  lemma RecordAlike(env: MemoryEnv, s: GatewayState, a: Action, d: Decision, remarks: Remarks)
    requires ReadableEnv(env) && ValidAction(a) && ValidDecision(d) && StorableRemarks(remarks) && Distinct(ENTRIES, s.history)
    ensures var (r, s') := RecordHistory(env, s, a, d, remarks);
      && RecordHistory(Filed(env), FileOf(s), a, d, remarks) == (r, FileOf(s'))
      && s'.rules == s.rules && s'.queue == s.queue && Distinct(ENTRIES, s'.history) && s'.replaceRules == s.replaceRules
  {
    hide ReadableEnv, ValidAction, ValidDecision, StorableRemarks, NewEntry, ValidEntry, OnHistory, Saved, Distinct;
    EntryAlike(env, s, a, d, remarks);
    EntryRecordedAlike(s.history, NewEntry(env, s, a, d, remarks));
  }

  lemma EntryRecordedAlike(history: seq<HistoryEntry>, e: HistoryEntry)
    requires Distinct(ENTRIES, history) && ValidEntry(e)
    ensures var (answer, history') := OnHistory(InMemory, history, HistoryCall.Record(e));
      && OnHistory(OnFile, Saved(ENTRIES, history), HistoryCall.Record(e)) == (answer, Saved(ENTRIES, history'))
      && Distinct(ENTRIES, history') && (answer.Refused? ==> history' == history)
  {
    hide ValidEntry, OnHistory, Saved, Distinct, Backs;
    SavedBacks(ENTRIES, history);
    HistoryCallAgrees(Saved(ENTRIES, history), history, HistoryCall.Record(e));
    BackedBy(ENTRIES, OnHistory(OnFile, Saved(ENTRIES, history), HistoryCall.Record(e)).1,
             OnHistory(InMemory, history, HistoryCall.Record(e)).1);
    RefusedKeeps(InMemory, history, e);
  }

  lemma RefusedKeeps(m: Medium, entries: seq<HistoryEntry>, e: HistoryEntry)
    ensures OnHistory(m, entries, HistoryCall.Record(e)).0.Refused? ==> OnHistory(m, entries, HistoryCall.Record(e)).1 == entries
  {
    hide ValidEntry, Saved;
  }

  lemma LogAlike(env: MemoryEnv, s: GatewayState, a: Action, d: Decision, from: Option<string>, remarks: Remarks)
    requires ReadableEnv(env) && Sound(s) && ValidDecision(d) && (ValidAction(a) ==> StorableRemarks(remarks))
    ensures var (r, s') := LogVerdict(env, s, a, d, from, remarks);
      && LogVerdict(Filed(env), FileOf(s), a, d, from, remarks) == (r, FileOf(s')) && Sound(s')
      && s'.queue == s.queue
  {
    hide ReadableEnv, ValidAction, ValidDecision, StorableRemarks, AppendVerdict, RecordHistory, NamedRules,
         Distinct, FileOf;
    AppendAlike(env, s, a, d, from);
    var (r, s1) := AppendVerdict(env, s, a, d, from);
    if r.Ok? { RecordAlike(env, s1, a, d, remarks); }
  }

  lemma AppendRuleAlike(env: MemoryEnv, s: GatewayState, rule: Rule)
    ensures var (r, s') := AppendRule(env, s, rule);
      && AppendRule(Filed(env), FileOf(s), rule) == (r, FileOf(s'))
      && s' == s.(ledger := s'.ledger, nextId := s'.nextId, ticks := s'.ticks)
  {
    hide ValidRule, Seal, RuleEvent, Saved;
  }

  lemma StoreAlike(env: MemoryEnv, s: GatewayState, call: RuleCall, rule: Rule)
    requires Sound(s) && (call.PutRule? || call.UpdateRule?)
    ensures var (r, s') := StoreRule(env, s, call, rule);
      StoreRule(Filed(env), FileOf(s), call, rule) == (r, FileOf(s')) && Sound(s') && s'.queue == s.queue
  {
    hide ValidAction, NamedRules, Distinct, OnRules, AppendRule, Saved, Backs;
    SavedBacks(RULES, s.rules);
    RuleCallAgrees(Saved(RULES, s.rules), s.rules, call);
    var rules' := OnRules(InMemory, s.rules, call).1;
    BackedBy(RULES, OnRules(OnFile, Saved(RULES, s.rules), call).1, rules');
    AppendRuleAlike(env, s.(rules := rules'), rule);
  }

  // ---------------------------------------------------------------- intercept and repeater

  lemma {:induction false} AppliedNamed(done: Replaced, rules: seq<MatchReplaceRule>)
    requires NonEmptyStrings(done.appliedRuleIds) && NamedRules(rules) && ApplyAll(done, rules).Ok?
    ensures NonEmptyStrings(ApplyAll(done, rules).value.appliedRuleIds)
    decreases |rules|
  {
    hide ApplyRule;
    if rules != [] {
      assert rules[0] in rules;
      var next := ApplyRule(done.action, rules[0]);
      AppliedNamed(if !rules[0].enabled || next.Err? || next.value.None? then done
                   else Replaced(next.value.value, done.appliedRuleIds + [rules[0].id]), rules[1..]);
    }
  }

  lemma PrepareAlike(s: GatewayState, raw: Action, applyRules: bool)
    requires NamedRules(s.replaceRules)
    ensures Prepare(FileOf(s), raw, applyRules) == Prepare(s, raw, applyRules)
    ensures var p := Prepare(s, raw, applyRules);
      p.Ok? ==> NonEmptyStrings(p.value.appliedRuleIds) && (p.value.originalAction.Some? ==> ValidAction(p.value.originalAction.value))
  {
    hide ApplyAll, ValidAction, Saved, NamedRules;
    if ApplyAll(Replaced(raw, []), s.replaceRules).Ok? { AppliedNamed(Replaced(raw, []), s.replaceRules); }
  }

  lemma EnqueueAlike(s: GatewayState, item: QueuedIntercept)
    requires Sound(s) && ValidItem(item)
    ensures var (answer, queue) := OnQueue(InMemory, s.queue, Enqueue(item));
      && OnQueue(OnFile, FileOf(s).queue, Enqueue(item)) == (answer, Saved(ITEMS, queue))
      && Sound(s.(queue := queue))
  {
    SavedBacks(ITEMS, s.queue);
    QueueCallAgrees(Saved(ITEMS, s.queue), s.queue, Enqueue(item));
    BackedBy(ITEMS, OnQueue(OnFile, Saved(ITEMS, s.queue), Enqueue(item)).1, OnQueue(InMemory, s.queue, Enqueue(item)).1);
    hide ValidAction, NamedRules, Distinct, Saved, Has, IsTimestamp;
  }

  lemma SoundParts(s: GatewayState)
    requires Sound(s)
    ensures Distinct(RULES, s.rules) && Distinct(ITEMS, s.queue) && Distinct(ENTRIES, s.history)
    ensures WaitsSoundly(s.queue) && NamedRules(s.replaceRules)
  {
  }

  lemma NextItem(env: MemoryEnv, s: GatewayState, a: Action)
    requires ReadableEnv(env) && ValidAction(a)
    ensures ValidItem(QueuedIntercept(env.ids(s.nextId), a, env.clock(s.ticks))) && env.ids(s.nextId) != ""
  {
    hide ValidAction, IsTimestamp;
  }

  /** An ask is queued, or its refusal recorded, alike. */
  lemma AskAlike(env: MemoryEnv, s: GatewayState, p: Prepared)
    requires ReadableEnv(env) && Sound(s) && ValidAction(p.action) && NonEmptyStrings(p.appliedRuleIds)
    requires p.originalAction.Some? ==> ValidAction(p.originalAction.value)
    requires DecideNow(s, p.action, s.mode).verdict == Ask && DecideNow(FileOf(s), p.action, s.mode) == DecideNow(s, p.action, s.mode)
    requires ValidDecision(DecideNow(s, p.action, s.mode))
    ensures var (r, s') := Judge(env, s, p); Judge(Filed(env), FileOf(s), p) == (r, FileOf(s')) && Sound(s')
  {
    hide Sound, ReadableEnv, ValidAction, LogVerdict, DecideNow, OnQueue, QueueFailedClosed, Saved, ValidDecision,
         ValidItem, NonEmptyStrings;
    NextItem(env, s, p.action);
    var item := QueuedIntercept(env.ids(s.nextId), p.action, env.clock(s.ticks));
    EnqueueAlike(s, item);
    var (answer, queue) := OnQueue(InMemory, s.queue, Enqueue(item));
    var s1 := Drawn(s, 1, 1).(queue := queue);
    SoundDrawn(s.(queue := queue), s1);
    if answer.Failed? { OtherDecisionsStore("", answer.error); }
    var d := if answer.Failed? then QueueFailedClosed(answer.error) else DecideNow(s, p.action, s.mode);
    LogAlike(env, s1, p.action, d, None,
             Remarks(if answer.Failed? then None else Some(item.id), p.originalAction, p.appliedRuleIds, None));
  }

  lemma JudgeAlike(env: MemoryEnv, s: GatewayState, p: Prepared)
    requires ReadableEnv(env) && Sound(s) && ValidAction(p.action) && NonEmptyStrings(p.appliedRuleIds)
    requires p.originalAction.Some? ==> ValidAction(p.originalAction.value)
    ensures var (r, s') := Judge(env, s, p); Judge(Filed(env), FileOf(s), p) == (r, FileOf(s')) && Sound(s')
  {
    hide Sound, ReadableEnv, ValidAction, LogVerdict, DecideNow, OnQueue, QueueFailedClosed, Saved, ValidDecision,
         NonEmptyStrings, Distinct, WaitsSoundly, NamedRules;
    SoundParts(s);
    DecidesAlike(s, p.action, s.mode);
    DecidedStores(s, p.action, s.mode);
    var decision := DecideNow(s, p.action, s.mode);
    if decision.verdict == Ask {
      hide Judge;
      AskAlike(env, s, p);
    } else {
      LogAlike(env, s, p.action, decision, None, Remarks(None, p.originalAction, p.appliedRuleIds, None));
    }
  }

  /** Soundness does not look at ids, clock or ledger. */
  lemma SoundDrawn(s: GatewayState, s': GatewayState)
    requires Sound(s)
    requires s'.rules == s.rules && s'.queue == s.queue && s'.history == s.history && s'.replaceRules == s.replaceRules
    ensures Sound(s')
  {
    hide ValidAction, Distinct, NamedRules;
  }

  lemma InterceptAlike(env: MemoryEnv, s: GatewayState, raw: Action)
    requires ReadableEnv(env) && Sound(s)
    ensures var (r, s') := InterceptStep(env, s, raw); InterceptStep(Filed(env), FileOf(s), raw) == (r, FileOf(s')) && Sound(s')
  {
    hide Sound, ReadableEnv, ValidAction, Judge, Prepare, FileOf, NonEmptyStrings, NamedRules, WaitsSoundly, Distinct;
    SoundParts(s);
    PrepareAlike(s, raw, true);
    if ValidAction(raw) && Prepare(s, raw, true).Ok? {
      PreparedIsValid(s, raw, true);
      JudgeAlike(env, s, Prepare(s, raw, true).value);
    }
  }

  lemma RepeatedAlike(s: GatewayState, input: RepeaterInput)
    requires Distinct(ENTRIES, s.history)
    ensures RepeaterAction(FileOf(s), input) == RepeaterAction(s, input)
  {
    hide ValidAction, Saved, Distinct, Lookup;
    if input.historyId.Some? {
      SavedBacks(ENTRIES, s.history);
      BacksLookup(ENTRIES, Saved(ENTRIES, s.history), s.history, input.historyId.value);
    }
  }

  lemma RepeaterAlike(env: MemoryEnv, s: GatewayState, input: RepeaterInput)
    requires ReadableEnv(env) && Sound(s)
    ensures var (r, s') := RepeaterStep(env, s, input); RepeaterStep(Filed(env), FileOf(s), input) == (r, FileOf(s')) && Sound(s')
  {
    hide Sound, ReadableEnv, ValidAction, LogVerdict, DecideNow, Prepare, RepeaterAction, Saved, ValidDecision,
         Distinct, NamedRules, WaitsSoundly;
    SoundParts(s);
    RepeatedAlike(s, input);
    var raw := RepeaterAction(s, input);
    if raw.Ok? {
      PrepareAlike(s, raw.value, input.applyMatchReplace);
      var prepared := Prepare(s, raw.value, input.applyMatchReplace);
      if prepared.Ok? {
        var p, mode := prepared.value, input.mode.GetOr(s.mode);
        DecidesAlike(s, p.action, mode);
        DecidedStores(s, p.action, mode);
        LogAlike(env, s, p.action, DecideNow(s, p.action, mode), None,
                 Remarks(None, p.originalAction, p.appliedRuleIds, Some(["repeater.send"])));
      }
    }
  }

  // ---------------------------------------------------------------- operator verdicts

  lemma ApproveAlike(env: MemoryEnv, s: GatewayState, a: Action, original: Option<Action>, input: OperatorInput)
    requires ReadableEnv(env) && Sound(s) && input.queueId != "" && (original.Some? ==> ValidAction(original.value))
    ensures var (r, s') := Approve(env, s, a, original, input);
      Approve(Filed(env), FileOf(s), a, original, input) == (r, FileOf(s')) && Sound(s')
  {
    hide Sound, ReadableEnv, ValidAction, LogVerdict, StoreRule, ValidRule, ApprovalScopeFor, ApprovalText,
         IsTimestamp, Saved, ValidDecision;
    OtherDecisionsStore("", Invalid);
    var correctionId := env.ids(s.nextId);
    var remarks := Remarks(Some(input.queueId), original, [], Some(["intercept.forward"]));
    var s0 := Drawn(s, 1, 1);
    SoundDrawn(s, s0);
    LogAlike(env, s0, a, APPROVED, Some(correctionId), remarks);
    var s1 := LogVerdict(env, s0, a, APPROVED, Some(correctionId), remarks).1;
    SoundDrawn(s1, Drawn(s1, 2, 1));
    SoundDrawn(s1, Drawn(s1, 2, 2));
    var rule := ApprovalRule(env, s1, a, correctionId);
    StoreAlike(env, Drawn(s1, 2, 2), PutRule(rule), rule);
  }

  lemma ProposalAlike(env: MemoryEnv, s: GatewayState, p: Rule, activate: bool)
    requires Sound(s)
    ensures var (r, s') := StoreProposal(env, s, p, activate);
      StoreProposal(Filed(env), FileOf(s), p, activate) == (r, FileOf(s')) && Sound(s')
  {
    hide Sound, StoreRule, FileOf;
    var active := p.(status := Active);
    StoreAlike(env, s, PutRule(p), p);
    StoreAlike(env, StoreRule(env, s, PutRule(p), p).1, UpdateRule(active), active);
  }

  lemma {:induction false} ProposalsAlike(env: MemoryEnv, s: GatewayState, proposals: seq<Rule>, activate: bool)
    requires Sound(s)
    ensures var (r, s') := StoreProposals(env, s, proposals, activate);
      StoreProposals(Filed(env), FileOf(s), proposals, activate) == (r, FileOf(s')) && Sound(s')
    decreases |proposals|
  {
    hide Sound, StoreProposal, FileOf;
    if proposals != [] {
      ProposalAlike(env, s, proposals[0], activate);
      ProposalsAlike(env, StoreProposal(env, s, proposals[0], activate).1, proposals[1..], activate);
    }
  }

  lemma DisapproveAlike(env: MemoryEnv, s: GatewayState, a: Action, original: Option<Action>, input: OperatorInput)
    requires ReadableEnv(env) && Sound(s) && input.queueId != "" && (original.Some? ==> ValidAction(original.value))
    ensures var (r, s') := Disapprove(env, s, a, original, input);
      Disapprove(Filed(env), FileOf(s), a, original, input) == (r, FileOf(s')) && Sound(s')
  {
    hide Sound, ReadableEnv, ValidAction, LogVerdict, StoreProposals, Compile, IsTimestamp, Saved, ValidDecision,
         Disapproved;
    OtherDecisionsStore(input.reason, Invalid);
    var correctionId, denied := env.ids(s.nextId), Disapproved(input.reason);
    var remarks := Remarks(Some(input.queueId), original, [], Some(["intercept.drop"]));
    var s0 := Drawn(s, 1, 1);
    SoundDrawn(s, s0);
    if input.reason != "" {
      LogAlike(env, s0, a, denied, Some(correctionId), remarks);
      var s1 := LogVerdict(env, s0, a, denied, Some(correctionId), remarks).1;
      var c := Compile(env.phrases(input.reason), Some(a), correctionId, env.ids, env.clock, s1.nextId, s1.ticks);
      var s2 := s1.(nextId := c.nextId, ticks := c.ticks);
      SoundDrawn(s1, s2);
      if c.rules.Some? { ProposalsAlike(env, s2, c.rules.value, input.activate); }
    }
  }

  lemma RemoveAlike(s: GatewayState, id: string)
    requires Sound(s)
    ensures var (answer, queue) := OnQueue(InMemory, s.queue, Remove(id));
      && OnQueue(OnFile, FileOf(s).queue, Remove(id)).1 == Saved(ITEMS, queue) && Sound(s.(queue := queue))
    ensures Lookup(ITEMS, FileOf(s).queue, id) == Lookup(ITEMS, s.queue, id)
    ensures var item := Lookup(ITEMS, s.queue, id); item.Some? ==> id != "" && ValidAction(item.value.action)
  {
    hide ValidAction, NamedRules, Distinct, Saved, Backs;
    SavedBacks(ITEMS, s.queue);
    BacksLookup(ITEMS, Saved(ITEMS, s.queue), s.queue, id);
    QueueCallAgrees(Saved(ITEMS, s.queue), s.queue, Remove(id));
    BackedBy(ITEMS, OnQueue(OnFile, Saved(ITEMS, s.queue), Remove(id)).1, OnQueue(InMemory, s.queue, Remove(id)).1);
    FilterMembers(s.queue, NotKeyed(ITEMS, id));
  }

  lemma OperatorAlike(env: MemoryEnv, s: GatewayState, input: OperatorInput)
    requires ReadableEnv(env) && Sound(s)
    ensures var (r, s') := OperatorStep(env, s, input);
      OperatorStep(Filed(env), FileOf(s), input) == (r, FileOf(s')) && Sound(s')
  {
    hide Sound, ReadableEnv, ValidAction, Approve, Disapprove, OnQueue, Lookup, Saved;
    RemoveAlike(s, input.queueId);
    var item := Lookup(ITEMS, s.queue, input.queueId);
    var s0 := s.(queue := OnQueue(InMemory, s.queue, Remove(input.queueId)).1);
    if item.Some? {
      var action := input.editedAction.GetOr(item.value.action);
      var original := if input.editedAction.Some? then Some(item.value.action) else None;
      ApproveAlike(env, s0, action, original, input);
      DisapproveAlike(env, s0, action, original, input);
    }
  }

  lemma {:induction false} OperatorsAlike(env: MemoryEnv, s: GatewayState, inputs: seq<OperatorInput>)
    requires ReadableEnv(env) && Sound(s)
    ensures var (r, s') := OperatorSteps(env, s, inputs);
      OperatorSteps(Filed(env), FileOf(s), inputs) == (r, FileOf(s')) && Sound(s')
    decreases |inputs|
  {
    hide ReadableEnv, Sound, OperatorStep, FileOf;
    if inputs != [] {
      OperatorAlike(env, s, inputs[0]);
      OperatorsAlike(env, OperatorStep(env, s, inputs[0]).1, inputs[1..]);
    }
  }

  lemma InputsAlike(s: GatewayState, reason: Option<string>, why: string, activate: bool)
    requires Distinct(ITEMS, s.queue)
    ensures ForwardInputs(FileOf(s), reason) == ForwardInputs(s, reason)
    ensures DropInputs(FileOf(s), why, activate) == DropInputs(s, why, activate)
  {
    hide PendingItems, Distinct, FileOf;
    PendingAlike(s);
  }

  // ---------------------------------------------------------------- outcomes

  lemma OutcomeAlike(env: MemoryEnv, s: GatewayState, o: ProxyOutcome)
    requires Sound(s) && ValidOutcome(o)
    ensures var (r, s') := OutcomeStep(env, s, o); OutcomeStep(Filed(env), FileOf(s), o) == (r, FileOf(s')) && Sound(s')
  {
    hide ValidAction, NamedRules, Distinct, Saved, Backs, OnHistory, Seal, OutcomeEvent, WaitsSoundly, ValidOutcome;
    SavedBacks(ENTRIES, s.history);
    var call := HistoryCall.RecordOutcome(o);
    HistoryCallAgrees(Saved(ENTRIES, s.history), s.history, call);
    BackedBy(ENTRIES, OnHistory(OnFile, Saved(ENTRIES, s.history), call).1, OnHistory(InMemory, s.history, call).1);
  }

  // ---------------------------------------------------------------- whole runs

  lemma CallAlike(env: MemoryEnv, s: GatewayState, call: Call)
    requires ReadableEnv(env) && Sound(s) && ValidCall(call)
    ensures AnswerTo(Filed(env), FileOf(s), call) == AnswerTo(env, s, call)
    ensures Step(Filed(env), FileOf(s), call) == FileOf(Step(env, s, call)) && Sound(Step(env, s, call))
  {
    hide ReadableEnv, Sound, InterceptStep, RepeaterStep, OperatorStep, OperatorSteps, OutcomeStep, ForwardInputs,
         DropInputs, Saved, Distinct, WaitsSoundly, NamedRules, ValidOutcome;
    SoundParts(s);
    match call
    case CallIntercept(a) => InterceptAlike(env, s, a);
    case CallRepeater(input) => RepeaterAlike(env, s, input);
    case CallOperator(input) => OperatorAlike(env, s, input);
    case CallForwardAll(reason) =>
      InputsAlike(s, reason, "", false);
      OperatorsAlike(env, s, ForwardInputs(s, reason));
    case CallDropAll(reason, activate) =>
      InputsAlike(s, None, reason, activate);
      OperatorsAlike(env, s, DropInputs(s, reason, activate));
    case CallOutcome(o) => OutcomeAlike(env, s, o);
    case CallSetMode(m) => SoundDrawn(s, s.(mode := m));
    case CallSetScope(scope) => SoundDrawn(s, s.(scope := scope));
    case CallSetReplaceRules(rules) => SoundRenamed(s, rules);
  }

  lemma SoundRenamed(s: GatewayState, rules: seq<MatchReplaceRule>)
    requires Sound(s) && NamedRules(rules)
    ensures Sound(s.(replaceRules := rules))
  {
    hide Distinct, NamedRules, WaitsSoundly;
  }

  /** Every run of valid calls, from any sound state, gets the same answers from files as from memory. */
  lemma {:induction false} GatewaysAgree(env: MemoryEnv, s: GatewayState, calls: seq<Call>)
    requires ReadableEnv(env) && Sound(s) && forall call | call in calls :: ValidCall(call)
    ensures Answers(Filed(env), FileOf(s), calls) == Answers(env, s, calls)
    decreases |calls|
  {
    hide ReadableEnv, Sound, AnswerTo, Step, FileOf, ValidCall;
    if calls != [] {
      CallAlike(env, s, calls[0]);
      GatewaysAgree(env, Step(env, s, calls[0]), calls[1..]);
    }
  }

  /** And leaves the same ledger, and on file the same entries. */
  lemma {:induction false} RunsAlike(env: MemoryEnv, s: GatewayState, calls: seq<Call>)
    requires ReadableEnv(env) && Sound(s) && forall call | call in calls :: ValidCall(call)
    ensures Run(Filed(env), FileOf(s), calls) == FileOf(Run(env, s, calls)) && Sound(Run(env, s, calls))
  {
    hide ReadableEnv, Sound, Step, FileOf, ValidCall;
    if calls != [] {
      RunsAlike(env, s, calls[..|calls| - 1]);
      CallAlike(env, Run(env, s, calls[..|calls| - 1]), calls[|calls| - 1]);
    }
  }
}
