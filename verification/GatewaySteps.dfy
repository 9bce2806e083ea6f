/**
 The intercept gateway (packages/integrations/intercept-gateway/src/gateway.ts) as a state
 machine: what every call returns or throws and the state it leaves, also when it throws
 half way. Ids and clock readings are drawn from two streams.
 */
module GatewaySteps {
  import opened Prelude
  import opened Sorting
  import opened KeyedStores
  import opened CanonicalJson
  import opened AuditEvents
  import opened AuditLedgers
  import opened PolicyEngine
  import opened PolicyStores
  import opened ProxyHistories
  import opened PolicyAudit
  import opened CompileCorrection
  import opened MatchReplace

  /**
   What the gateway is given at construction and never changes: where ids and clock readings come
   from, its names, the reading of correction texts, and whether its stores are in memory or on file.
   */
  datatype Env = Env(
    ids: nat -> string, clock: nat -> string, ctx: AuditContext, phrases: string -> seq<Atom>, medium: Medium)

  /** The environment of a gateway whose stores are in memory. */
  type MemoryEnv = env: Env | env.medium == InMemory
    witness Env((n: nat) => "", (n: nat) => "", AuditContext("", "", ""), (text: string) => [], InMemory)

  datatype GatewayState = GatewayState(
    rules: seq<Rule>, queue: seq<QueuedIntercept>, history: seq<HistoryEntry>, ledger: seq<SealedEvent>,
    mode: Mode, scope: Option<ProxyScope>, replaceRules: seq<MatchReplaceRule>, nextId: nat, ticks: nat)

  datatype Fault =
    | InvalidInput | NoQueuedIntercept(id: string) | NoHistoryEntry(id: string) | NothingToRepeat
    | AuditRefused | HistoryRefused(historyError: HistoryError) | StoreRefused(storeError: StoreError)
    | ReplaceFailed(replaceError: ReplaceError) | CorrectionRejected

  function Drawn(s: GatewayState, ids: nat, readings: nat): GatewayState {
    s.(nextId := s.nextId + ids, ticks := s.ticks + readings)
  }

  // ---------------------------------------------------------------- audit and history

  function AppendAudit(s: GatewayState, input: AuditEvent): (Result<(), Fault>, GatewayState) {
    var r := Seal(s.ledger, input);
    if r.Ok? then (Ok(()), s.(ledger := s.ledger + [r.value])) else (Err(AuditRefused), s)
  }

  function AppendVerdict(env: Env, s: GatewayState, a: Action, d: Decision, from: Option<string>): (Result<(), Fault>, GatewayState) {
    if !ValidAction(a) then (Err(InvalidInput), s)
    else AppendAudit(Drawn(s, 1, 1), VerdictEvent(env.ctx, env.ids(s.nextId), env.clock(s.ticks), a, d, from))
  }

  function AppendRule(env: Env, s: GatewayState, r: Rule): (Result<(), Fault>, GatewayState) {
    if !ValidRule(r) then (Err(InvalidInput), s)
    else AppendAudit(Drawn(s, 1, 1), RuleEvent(env.ctx, env.ids(s.nextId), env.clock(s.ticks), r))
  }

  datatype Remarks = Remarks(
    queueId: Option<string>, originalAction: Option<Action>, appliedRuleIds: seq<string>, notes: Option<seq<string>>)

  function NewEntry(env: Env, s: GatewayState, a: Action, d: Decision, remarks: Remarks): HistoryEntry {
    HistoryEntry(env.ids(s.nextId), remarks.originalAction, a, d, s.mode, env.clock(s.ticks), remarks.queueId,
                 if remarks.appliedRuleIds != [] then Some(remarks.appliedRuleIds) else None, remarks.notes, None)
  }

  function RecordHistory(env: Env, s: GatewayState, a: Action, d: Decision, remarks: Remarks): (Result<(), Fault>, GatewayState) {
    var (answer, history) := OnHistory(env.medium, s.history, HistoryCall.Record(NewEntry(env, s, a, d, remarks)));
    if answer.Refused? then (Err(HistoryRefused(answer.error)), Drawn(s, 1, 1))
    else (Ok(()), Drawn(s, 1, 1).(history := history))
  }

  /** Every verdict is appended to the ledger and then recorded in the history. */
  function LogVerdict(env: Env, s: GatewayState, a: Action, d: Decision, from: Option<string>, remarks: Remarks): (Result<(), Fault>, GatewayState) {
    var (appended, s1) := AppendVerdict(env, s, a, d, from);
    if appended.Err? then (appended, s1) else RecordHistory(env, s1, a, d, remarks)
  }

  // ---------------------------------------------------------------- intercept and repeater

  datatype Prepared = Prepared(action: Action, originalAction: Option<Action>, appliedRuleIds: seq<string>)

  /** `prepareAction` */
  function Prepare(s: GatewayState, raw: Action, applyRules: bool): Result<Prepared, Fault> {
    if !applyRules || s.replaceRules == [] then Ok(Prepared(raw, None, []))
    else
      var r := ApplyMatchReplaceRules(raw, s.replaceRules);
      if r.Err? then Err(ReplaceFailed(r.error))
      else if r.value.appliedRuleIds == [] then Ok(Prepared(r.value.action, None, []))
      else Ok(Prepared(r.value.action, Some(raw), r.value.appliedRuleIds))
  }

  function ActiveRulesOf(rules: seq<Rule>): seq<Rule> { Filter(Saved(RULES, rules), IsActive) }

  /** The decision the gateway reaches on an action right now. */
  function DecideNow(s: GatewayState, a: Action, mode: Mode): Decision {
    DecideFromStore(a, Ok(ActiveRulesOf(s.rules)), mode, s.scope)
  }

  function QueueErrorText(e: StoreError): string {
    match e
    case Invalid => ""
    case AlreadyExists(id) => ": intercept queue item " + id + " already exists"
    case DoesNotExist(id) => ""
  }

  function QueueFailedClosed(e: StoreError): Decision {
    Decision(Deny, false, ["Intercept queue failed closed" + QueueErrorText(e) + "."],
             ["Restore the intercept queue before running consequential actions."], DefaultDeny, None, None, None)
  }

  function InterceptStep(env: Env, s: GatewayState, raw: Action): (Result<Decision, Fault>, GatewayState) {
    var prepared := if ValidAction(raw) then Prepare(s, raw, true) else Err(InvalidInput);
    if prepared.Err? then (Err(prepared.error), s)
    else Judge(env, s, prepared.value)
  }

  /** The decision, the queueing of an ask, and the log. */
  function Judge(env: Env, s: GatewayState, p: Prepared): (Result<Decision, Fault>, GatewayState) {
    var decision := DecideNow(s, p.action, s.mode);
    if decision.verdict != Ask then
      var (logged, s1) := LogVerdict(env, s, p.action, decision, None, Remarks(None, p.originalAction, p.appliedRuleIds, None));
      (if logged.Err? then Err(logged.error) else Ok(decision), s1)
    else
      var queueId := env.ids(s.nextId);
      var (answer, queue) := OnQueue(env.medium, s.queue, Enqueue(QueuedIntercept(queueId, p.action, env.clock(s.ticks))));
      var d := if answer.Failed? then QueueFailedClosed(answer.error) else decision;
      var (logged, s1) := LogVerdict(env, Drawn(s, 1, 1).(queue := queue), p.action, d, None,
        Remarks(if answer.Failed? then None else Some(queueId), p.originalAction, p.appliedRuleIds, None));
      (if logged.Err? then Err(logged.error) else Ok(d), s1)
  }

  datatype RepeaterInput = RepeaterInput(action: Option<Action>, historyId: Option<string>, mode: Option<Mode>, applyMatchReplace: bool)

  function RepeaterAction(s: GatewayState, input: RepeaterInput): Result<Action, Fault> {
    if input.action.Some? then (if ValidAction(input.action.value) then Ok(input.action.value) else Err(InvalidInput))
    else if input.historyId.Some? then
      var entry := Lookup(ENTRIES, s.history, input.historyId.value);
      if entry.None? then Err(NoHistoryEntry(input.historyId.value)) else Ok(entry.value.action)
    else Err(NothingToRepeat)
  }

  function RepeaterStep(env: Env, s: GatewayState, input: RepeaterInput): (Result<Decision, Fault>, GatewayState) {
    var raw := RepeaterAction(s, input);
    var prepared := if raw.Ok? then Prepare(s, raw.value, input.applyMatchReplace) else Err(raw.error);
    if prepared.Err? then (Err(prepared.error), s)
    else
      var p := prepared.value;
      var decision := DecideNow(s, p.action, input.mode.GetOr(s.mode));
      var (logged, s1) := LogVerdict(env, s, p.action, decision, None,
        Remarks(None, p.originalAction, p.appliedRuleIds, Some(["repeater.send"])));
      (if logged.Err? then Err(logged.error) else Ok(decision), s1)
  }

  // ---------------------------------------------------------------- operator verdicts

  datatype OperatorInput = OperatorInput(queueId: string, approve: bool, reason: string, activate: bool, editedAction: Option<Action>)

  datatype OperatorResult = OperatorResult(decision: Decision, compiledRules: seq<Rule>)

  /** `correctionEventContract.parse` accepts the correction. */
  predicate ValidCorrection(env: Env, id: string, text: string, at: string) {
    id != "" && text != "" && ValidContext(env.ctx) && IsTimestamp(at)
  }

  function ApprovalCondition(a: Action): Option<Condition> {
    var approvals := ReadPath(Some(Obj(a.args)), ["reviews", "approved"]);
    if a.tool == "gh" && a.action == "pr-merge" && approvals.Some? && approvals.value.Num?
    then Some(Condition(ApprovedField, Ge, approvals.value)) else None
  }

  /** `approvalScopeFor` */
  function ApprovalScopeFor(a: Action): RuleScope {
    RuleScope(a.tool, a.action, if a.target.Some? then Some(TargetPatternFor(a.target.value)) else None, ApprovalCondition(a))
  }

  /** `compileApprovalRule` */
  function ApprovalRule(env: Env, s: GatewayState, a: Action, correctionId: string): Rule {
    Rule(env.ids(s.nextId), 1, correctionId, env.ids(s.nextId + 1), ApprovalScopeFor(a),
         Effect(Allow, ActivatePolicy, [], []), Active, None, env.clock(s.ticks))
  }

  const APPROVED := Decision(Allow, true, [], [], Operator, None, None, None)

  function Disapproved(reason: string): Decision {
    Decision(Deny, false, [reason], ["Activate the compiled policy rule or correct the action before retrying."],
             Operator, None, None, None)
  }

  /** A rule is written to the store and then to the ledger. */
  function StoreRule(env: Env, s: GatewayState, call: RuleCall, r: Rule): (Result<(), Fault>, GatewayState) {
    var (answer, rules) := OnRules(env.medium, s.rules, call);
    if answer.Failed? then (Err(StoreRefused(answer.error)), s) else AppendRule(env, s.(rules := rules), r)
  }

  function ApprovalText(a: Action, reason: string): string {
    if IsBlank(reason) then "approve " + a.tool + " " + a.action else reason
  }

  function Approve(env: Env, s: GatewayState, a: Action, original: Option<Action>, input: OperatorInput):
    (Result<OperatorResult, Fault>, GatewayState)
  {
    var correctionId := env.ids(s.nextId);
    var s0 := Drawn(s, 1, 1);
    if !ValidCorrection(env, correctionId, ApprovalText(a, input.reason), env.clock(s.ticks)) then (Err(InvalidInput), s0)
    else
      var (logged, s1) := LogVerdict(env, s0, a, APPROVED, Some(correctionId),
        Remarks(Some(input.queueId), original, [], Some(["intercept.forward"])));
      if logged.Err? then (Err(logged.error), s1)
      else
        var rule := ApprovalRule(env, s1, a, correctionId);
        if !ValidRule(rule) then (Err(InvalidInput), Drawn(s1, 2, 1))
        else
          var (stored, s2) := StoreRule(env, Drawn(s1, 2, 2), PutRule(rule), rule);
          (if stored.Err? then Err(stored.error) else Ok(OperatorResult(APPROVED, [rule])), s2)
  }

  /** The proposals of a drop are stored one by one and, when asked for, activated at once. */
  function StoreProposals(env: Env, s: GatewayState, proposals: seq<Rule>, activate: bool): (Result<seq<Rule>, Fault>, GatewayState)
    decreases |proposals|
  {
    if proposals == [] then (Ok([]), s)
    else
      var (stored, s1) := StoreProposal(env, s, proposals[0], activate);
      if stored.Err? then (Err(stored.error), s1)
      else
        var (rest, s2) := StoreProposals(env, s1, proposals[1..], activate);
        (if rest.Err? then rest else Ok([stored.value] + rest.value), s2)
  }

  function StoreProposal(env: Env, s: GatewayState, proposed: Rule, activate: bool): (Result<Rule, Fault>, GatewayState) {
    var (put, s1) := StoreRule(env, s, PutRule(proposed), proposed);
    if put.Err? then (Err(put.error), s1)
    else if !activate then (Ok(proposed), s1)
    else
      var active := proposed.(status := Active);
      var (updated, s2) := StoreRule(env, s1, UpdateRule(active), active);
      (if updated.Err? then Err(updated.error) else Ok(active), s2)
  }

  function Disapprove(env: Env, s: GatewayState, a: Action, original: Option<Action>, input: OperatorInput):
    (Result<OperatorResult, Fault>, GatewayState)
  {
    hide ValidCorrection, LogVerdict, Compile, StoreProposals;
    var correctionId := env.ids(s.nextId);
    var s0 := Drawn(s, 1, 1);
    if !ValidCorrection(env, correctionId, input.reason, env.clock(s.ticks)) then (Err(InvalidInput), s0)
    else
      var denied := Disapproved(input.reason);
      var (logged, s1) := LogVerdict(env, s0, a, denied, Some(correctionId),
        Remarks(Some(input.queueId), original, [], Some(["intercept.drop"])));
      if logged.Err? then (Err(logged.error), s1)
      else
        var compiled := Compile(env.phrases(input.reason), Some(a), correctionId, env.ids, env.clock, s1.nextId, s1.ticks);
        var s2 := s1.(nextId := compiled.nextId, ticks := compiled.ticks);
        if compiled.rules.None? then (Err(CorrectionRejected), s2)
        else
          var (stored, s3) := StoreProposals(env, s2, compiled.rules.value, input.activate);
          (if stored.Err? then Err(stored.error) else Ok(OperatorResult(denied, stored.value)), s3)
  }

  /** `operatorVerdict`: the item leaves the queue before anything can go wrong. */
  function OperatorStep(env: Env, s: GatewayState, input: OperatorInput): (Result<OperatorResult, Fault>, GatewayState) {
    var (answer, queue) := OnQueue(env.medium, s.queue, Remove(input.queueId));
    var item := Lookup(ITEMS, s.queue, input.queueId);
    var s0 := s.(queue := queue);
    if item.None? then (Err(NoQueuedIntercept(input.queueId)), s0)
    else if input.editedAction.Some? && !ValidAction(input.editedAction.value) then (Err(InvalidInput), s0)
    else
      var action := input.editedAction.GetOr(item.value.action);
      var original := if input.editedAction.Some? then Some(item.value.action) else None;
      if input.approve then Approve(env, s0, action, original, input) else Disapprove(env, s0, action, original, input)
  }

  // ---------------------------------------------------------------- all pending items

  function ForwardInput(item: QueuedIntercept, reason: Option<string>): OperatorInput {
    OperatorInput(item.id, true, reason.GetOr("forward " + item.action.tool + " " + item.action.action), false, None)
  }

  function DropInput(item: QueuedIntercept, reason: string, activate: bool): OperatorInput {
    OperatorInput(item.id, false, reason, activate, None)
  }

  /** Operator verdicts one after the other, stopping at the first that throws. */
  function OperatorSteps(env: Env, s: GatewayState, inputs: seq<OperatorInput>): (Result<seq<OperatorResult>, Fault>, GatewayState)
    decreases |inputs|
  {
    if inputs == [] then (Ok([]), s)
    else
      var (first, s1) := OperatorStep(env, s, inputs[0]);
      if first.Err? then (Err(first.error), s1)
      else
        var (rest, s2) := OperatorSteps(env, s1, inputs[1..]);
        (if rest.Err? then rest else Ok([first.value] + rest.value), s2)
  }

  function PendingItems(s: GatewayState): seq<QueuedIntercept> { Saved(ITEMS, s.queue) }

  function ForwardInputs(s: GatewayState, reason: Option<string>): seq<OperatorInput> {
    Map(PendingItems(s), (item: QueuedIntercept) => ForwardInput(item, reason))
  }

  function DropInputs(s: GatewayState, reason: string, activate: bool): seq<OperatorInput> {
    Map(PendingItems(s), (item: QueuedIntercept) => DropInput(item, reason, activate))
  }

  // ---------------------------------------------------------------- outcomes

  function OutcomeEvent(ctx: AuditContext, id: string, at: string, o: ProxyOutcome): AuditEvent {
    AuditEvent(id, ctx.caseId, ctx.dealId, "policy.outcome", ctx.decidingActor, "at-risk", "at-risk", at, None,
               Some([Member("actionOutcome", Obj([Member("actionId", Str(o.actionId)), Member("exitCode", Num(o.exitCode)),
                                                  Member("completedAt", Str(o.completedAt))]))]),
               Some([o.actionId]), None, None, None, None)
  }

  function OutcomeStep(env: Env, s: GatewayState, o: ProxyOutcome): (Result<ProxyOutcome, Fault>, GatewayState) {
    var (answer, history) := OnHistory(env.medium, s.history, HistoryCall.RecordOutcome(o));
    if answer.Refused? then (Err(HistoryRefused(answer.error)), s)
    else
      var (appended, s1) := AppendAudit(Drawn(s.(history := history), 1, 1), OutcomeEvent(env.ctx, env.ids(s.nextId), env.clock(s.ticks), o));
      (if appended.Err? then Err(appended.error) else Ok(o), s1)
  }

  // ---------------------------------------------------------------- calls and runs

  datatype Call =
    | CallIntercept(action: Action) | CallRepeater(repeat: RepeaterInput) | CallOperator(verdict: OperatorInput)
    | CallForwardAll(forwardReason: Option<string>) | CallDropAll(dropReason: string, activate: bool)
    | CallOutcome(outcome: ProxyOutcome)
    | CallSetMode(mode: Mode) | CallSetScope(scope: Option<ProxyScope>) | CallSetReplaceRules(rules: seq<MatchReplaceRule>)

  /** The state a call leaves, whether it returns or throws. */
  function Step(env: Env, s: GatewayState, call: Call): GatewayState {
    match call
    case CallIntercept(a) => InterceptStep(env, s, a).1
    case CallRepeater(input) => RepeaterStep(env, s, input).1
    case CallOperator(input) => OperatorStep(env, s, input).1
    case CallForwardAll(reason) => OperatorSteps(env, s, ForwardInputs(s, reason)).1
    case CallDropAll(reason, activate) => OperatorSteps(env, s, DropInputs(s, reason, activate)).1
    case CallOutcome(o) => OutcomeStep(env, s, o).1
    case CallSetMode(m) => s.(mode := m)
    case CallSetScope(scope) => s.(scope := scope)
    case CallSetReplaceRules(rules) => s.(replaceRules := rules)
  }

  function Run(env: Env, s: GatewayState, calls: seq<Call>): GatewayState {
    if calls == [] then s else Step(env, Run(env, s, calls[..|calls| - 1]), calls[|calls| - 1])
  }

  /** A gateway over empty stores. */
  function Initial(mode: Mode, scope: Option<ProxyScope>, replaceRules: seq<MatchReplaceRule>): GatewayState {
    GatewayState([], [], [], [], mode, scope, replaceRules, 0, 0)
  }
}
