/**
 Policy events in the ledger (packages/governance/src/policy-audit.ts): what is written
 for a verdict and for a rule, and how a rule's lifecycle is read back from the ledger.
 A rule is stored as JSON and parsed again; the parse undoes the encoding.
 */
module PolicyAudit {
  import opened Prelude
  import opened Sorting
  import opened CanonicalJson
  import opened AuditEvents
  import opened JsonRecords
  import opened AuditLedgers
  import opened PolicyEngine

  // ---------------------------------------------------------------- enumerations as strings

  function VerdictText(v: Verdict): string {
    match v case Allow => "allow" case Deny => "deny" case Ask => "ask"
  }

  function SourceText(s: Source): string {
    match s case Operator => "operator" case Policy => "policy" case ScopeSource => "scope" case DefaultDeny => "default-deny"
  }

  function StatusText(s: RuleStatus): string {
    match s case Proposed => "proposed" case Active => "active" case Narrowed => "narrowed" case Retired => "retired"
  }

  function ActionTypeText(t: ActionType): string {
    match t
    case ChangeStatus => "change_status"
    case CreateLinearWorkstream => "create_linear_workstream"
    case AssignOwner => "assign_owner"
    case BlockAgentAction => "block_agent_action"
    case RequireApproval => "require_approval"
    case GenerateEval => "generate_eval"
    case ActivatePolicy => "activate_policy"
    case RecordAuditEvent => "record_audit_event"
  }

  function FieldText(f: ConditionField): string {
    match f
    case ToolField => "tool"
    case ActionField => "action"
    case TargetField => "target"
    case ForceField => "args.force"
    case ApprovedField => "reviews.approved"
    case RejectedField => "reviews.rejected"
    case VisibilityField => "repo.visibility"
    case EnvironmentField => "deploy.environment"
  }

  function OpText(op: ConditionOp): string {
    match op
    case Lt => "<" case Le => "<=" case Gt => ">" case Ge => ">=" case Eq => "==" case Ne => "!="
    case Contains => "contains" case MatchesGlob => "matches"
  }

  function ParseVerdict(s: string): Option<Verdict> {
    if s == "allow" then Some(Allow) else if s == "deny" then Some(Deny) else if s == "ask" then Some(Ask) else None
  }

  function ParseStatus(s: string): Option<RuleStatus> {
    if s == "proposed" then Some(Proposed) else if s == "active" then Some(Active)
    else if s == "narrowed" then Some(Narrowed) else if s == "retired" then Some(Retired) else None
  }

  function ParseActionType(s: string): Option<ActionType> {
    if s == "change_status" then Some(ChangeStatus)
    else if s == "create_linear_workstream" then Some(CreateLinearWorkstream)
    else if s == "assign_owner" then Some(AssignOwner)
    else if s == "block_agent_action" then Some(BlockAgentAction)
    else if s == "require_approval" then Some(RequireApproval)
    else if s == "generate_eval" then Some(GenerateEval)
    else if s == "activate_policy" then Some(ActivatePolicy)
    else if s == "record_audit_event" then Some(RecordAuditEvent)
    else None
  }

  function ParseField(s: string): Option<ConditionField> {
    if s == "tool" then Some(ToolField)
    else if s == "action" then Some(ActionField)
    else if s == "target" then Some(TargetField)
    else if s == "args.force" then Some(ForceField)
    else if s == "reviews.approved" then Some(ApprovedField)
    else if s == "reviews.rejected" then Some(RejectedField)
    else if s == "repo.visibility" then Some(VisibilityField)
    else if s == "deploy.environment" then Some(EnvironmentField)
    else None
  }

  function ParseOp(s: string): Option<ConditionOp> {
    if s == "<" then Some(Lt) else if s == "<=" then Some(Le) else if s == ">" then Some(Gt)
    else if s == ">=" then Some(Ge) else if s == "==" then Some(Eq) else if s == "!=" then Some(Ne)
    else if s == "contains" then Some(Contains) else if s == "matches" then Some(MatchesGlob) else None
  }

  lemma TextsParse(v: Verdict, s: RuleStatus, t: ActionType, f: ConditionField, op: ConditionOp)
    ensures ParseVerdict(VerdictText(v)) == Some(v) && ParseStatus(StatusText(s)) == Some(s)
    ensures ParseOp(OpText(op)) == Some(op)
    ensures ParseActionType(ActionTypeText(t)) == Some(t) && ParseField(FieldText(f)) == Some(f)
  {
    ActionTypeParses(t);
    FieldParses(f);
  }

  lemma ActionTypeParses(t: ActionType)
    ensures ParseActionType(ActionTypeText(t)) == Some(t)
  {
  }

  lemma FieldParses(f: ConditionField)
    ensures ParseField(FieldText(f)) == Some(f)
  {
    var a, b := "reviews.approved", "reviews.rejected";
    assert a[8] != b[8];
  }

  // ---------------------------------------------------------------- rules as JSON

  function ConditionJson(c: Condition): Json {
    Obj(Record([Property("field", Some(Str(FieldText(c.field)))), Property("op", Some(Str(OpText(c.op)))),
                Property("value", Some(c.value))]))
  }

  function ScopeJson(s: RuleScope): Json {
    Obj(Record([Property("tool", Some(Str(s.tool))), Property("action", Some(Str(s.action))),
                Property("targetPattern", OptionalText(s.targetPattern)),
                Property("condition", if s.condition.Some? then Some(ConditionJson(s.condition.value)) else None)]))
  }

  function EffectJson(e: Effect): Json {
    Obj(Record([Property("verdict", Some(Str(VerdictText(e.verdict)))),
                Property("actionType", Some(Str(ActionTypeText(e.actionType)))),
                Property("reasons", Some(StringArray(e.reasons))),
                Property("requiredBefore", Some(StringArray(e.requiredBefore)))]))
  }

  function RuleProperties(r: Rule): seq<Property> {
    [Property("id", Some(Str(r.id))), Property("version", Some(Num(r.version))),
     Property("fromCorrectionId", Some(Str(r.fromCorrectionId))), Property("evalCaseId", Some(Str(r.evalCaseId))),
     Property("scope", Some(ScopeJson(r.scope))), Property("effect", Some(EffectJson(r.effect))),
     Property("status", Some(Str(StatusText(r.status)))), Property("supersedesId", OptionalText(r.supersedesId)),
     Property("createdAt", Some(Str(r.createdAt)))]
  }

  function RuleJson(r: Rule): Json { Obj(Record(RuleProperties(r))) }

  // ---------------------------------------------------------------- and back

  function ConditionFromJson(v: Json): Option<Condition> {
    if !v.Obj? then None
    else match (StringAt(v.members, "field"), StringAt(v.members, "op"), Get(v.members, "value"))
      case (Some(f), Some(op), Some(value)) =>
        (match (ParseField(f), ParseOp(op))
         case (Some(field), Some(o)) => Some(Condition(field, o, value))
         case _ => None)
      case _ => None
  }

  function MaybeCondition(v: Option<Json>): Option<Option<Condition>> {
    if v.None? then Some(None)
    else match ConditionFromJson(v.value)
      case None => None
      case Some(c) => Some(Some(c))
  }

  function ScopeFromJson(v: Option<Json>): Option<RuleScope> {
    match Members(v)
    case None => None
    case Some(ms) =>
      match (StringAt(ms, "tool"), StringAt(ms, "action"), MaybeStringAt(ms, "targetPattern"), MaybeCondition(Get(ms, "condition")))
      case (Some(tool), Some(action), Some(pattern), Some(condition)) => Some(RuleScope(tool, action, pattern, condition))
      case _ => None
  }

  function EffectFromJson(v: Option<Json>): Option<Effect> {
    match Members(v)
    case None => None
    case Some(ms) =>
      match (StringAt(ms, "verdict"), StringAt(ms, "actionType"), StringsAt(ms, "reasons"), StringsAt(ms, "requiredBefore"))
      case (Some(verdict), Some(actionType), Some(reasons), Some(requiredBefore)) =>
        (match (ParseVerdict(verdict), ParseActionType(actionType))
         case (Some(v), Some(t)) => Some(Effect(v, t, reasons, requiredBefore))
         case _ => None)
      case _ => None
  }

  /** `actionPolicyRuleContract.safeParse` */
  function RuleFromJson(v: Option<Json>): Option<Rule> {
    match Members(v)
    case None => None
    case Some(ms) =>
      var version := Get(ms, "version");
      var status := StringAt(ms, "status");
      match (StringAt(ms, "id"), StringAt(ms, "fromCorrectionId"), StringAt(ms, "evalCaseId"), ScopeFromJson(Get(ms, "scope")),
             EffectFromJson(Get(ms, "effect")), MaybeStringAt(ms, "supersedesId"), StringAt(ms, "createdAt"))
      case (Some(id), Some(from), Some(evalCase), Some(scope), Some(effect), Some(supersedes), Some(createdAt)) =>
        if version.None? || !version.value.Num? || status.None? || ParseStatus(status.value).None? then None
        else
          var r := Rule(id, version.value.n, from, evalCase, scope, effect, ParseStatus(status.value).value, supersedes, createdAt);
          if ValidRule(r) then Some(r) else None
      case _ => None
  }

  lemma ConditionRoundTrip(c: Condition)
    ensures ConditionFromJson(ConditionJson(c)) == Some(c)
  {
    var ps := [Property("field", Some(Str(FieldText(c.field)))), Property("op", Some(Str(OpText(c.op)))), Property("value", Some(c.value))];
    TextsParse(Allow, Proposed, AssignOwner, c.field, c.op);
    hide FieldText, OpText, ParseField, ParseOp, Record;
    assert "field"[0] != "value"[0];
    assert DistinctProperties(ps);
    RecordAt(ps, 0);
    RecordAt(ps, 1);
    RecordAt(ps, 2);
  }

  lemma ScopeRoundTrip(s: RuleScope)
    ensures ScopeFromJson(Some(ScopeJson(s))) == Some(s)
  {
    if s.condition.Some? { ConditionRoundTrip(s.condition.value); }
    hide ConditionJson, ConditionFromJson, Record;
    var ps := [Property("tool", Some(Str(s.tool))), Property("action", Some(Str(s.action))),
               Property("targetPattern", OptionalText(s.targetPattern)),
               Property("condition", if s.condition.Some? then Some(ConditionJson(s.condition.value)) else None)];
    assert DistinctProperties(ps);
    RecordAt(ps, 0);
    RecordAt(ps, 1);
    RecordAt(ps, 2);
    RecordAt(ps, 3);
  }

  lemma EffectRoundTrip(e: Effect)
    ensures EffectFromJson(Some(EffectJson(e))) == Some(e)
  {
    TextsParse(e.verdict, Proposed, e.actionType, ToolField, Eq);
    hide VerdictText, ActionTypeText, ParseVerdict, ParseActionType, Record, StringArray;
    var ps := [Property("verdict", Some(Str(VerdictText(e.verdict)))),
               Property("actionType", Some(Str(ActionTypeText(e.actionType)))),
               Property("reasons", Some(StringArray(e.reasons))),
               Property("requiredBefore", Some(StringArray(e.requiredBefore)))];
    assert "verdict"[0] != "reasons"[0];
    assert DistinctProperties(ps);
    RecordAt(ps, 0);
    RecordAt(ps, 1);
    RecordAt(ps, 2);
    RecordAt(ps, 3);
    StringArrayTexts(Record(ps), "reasons", e.reasons);
    StringArrayTexts(Record(ps), "requiredBefore", e.requiredBefore);
  }

  lemma RulePropertiesDistinct(r: Rule)
    ensures DistinctProperties(RuleProperties(r))
  {
    hide ScopeJson, EffectJson, StatusText, OptionalText;
    var ps := RuleProperties(r);
    assert "effect"[0] != "status"[0];
    assert |ps| == 9;
    assert forall i | 0 <= i < 9 :: |ps[i].key| == [2, 7, 16, 10, 5, 6, 6, 12, 9][i];
  }

  lemma RuleGets(r: Rule)
    ensures var ms := Record(RuleProperties(r));
      && Get(ms, "id") == Some(Str(r.id)) && Get(ms, "version") == Some(Num(r.version))
      && Get(ms, "fromCorrectionId") == Some(Str(r.fromCorrectionId)) && Get(ms, "evalCaseId") == Some(Str(r.evalCaseId))
      && Get(ms, "scope") == Some(ScopeJson(r.scope)) && Get(ms, "effect") == Some(EffectJson(r.effect))
      && Get(ms, "status") == Some(Str(StatusText(r.status))) && Get(ms, "supersedesId") == OptionalText(r.supersedesId)
      && Get(ms, "createdAt") == Some(Str(r.createdAt))
  {
    RulePropertiesDistinct(r);
    hide ScopeJson, EffectJson, StatusText, Record, DistinctProperties, OptionalText;
    var ps := RuleProperties(r);
    RecordAt(ps, 0); RecordAt(ps, 1); RecordAt(ps, 2); RecordAt(ps, 3); RecordAt(ps, 4);
    RecordAt(ps, 5); RecordAt(ps, 6); RecordAt(ps, 7); RecordAt(ps, 8);
  }

  /** Every valid rule is read back from its JSON. */
  lemma RuleRoundTrip(r: Rule)
    requires ValidRule(r)
    ensures RuleFromJson(Some(RuleJson(r))) == Some(r)
  {
    ScopeRoundTrip(r.scope);
    EffectRoundTrip(r.effect);
    TextsParse(Allow, r.status, AssignOwner, ToolField, Eq);
    RuleGets(r);
    hide ScopeJson, EffectJson, ScopeFromJson, EffectFromJson, StatusText, ParseStatus, ValidRule, Record,
         RuleProperties, Get;
  }

  // ---------------------------------------------------------------- events

  datatype AuditContext = AuditContext(caseId: string, dealId: string, decidingActor: string)

  function Present(s: Option<string>): seq<string> { if s.Some? then [s.value] else [] }

  function ActionJson(a: Action): Json {
    Obj(Record([Property("id", Some(Str(a.id))), Property("tool", Some(Str(a.tool))), Property("action", Some(Str(a.action))),
                Property("target", OptionalText(a.target)), Property("args", Some(Obj(a.args))),
                Property("requestedAt", Some(Str(a.requestedAt)))]))
  }

  function VerdictJson(d: Decision, fromCorrectionId: Option<string>): Json {
    Obj(Record([Property("verdict", Some(Str(VerdictText(d.verdict)))), Property("allowed", Some(Bool(d.allowed))),
                Property("reasons", Some(StringArray(d.reasons))),
                Property("requiredBeforeSend", Some(StringArray(d.requiredBeforeSend))),
                Property("source", Some(Str(SourceText(d.source)))),
                Property("sourceRuleId", OptionalText(d.sourceRuleId)),
                Property("fromCorrectionId", OptionalText(fromCorrectionId))]))
  }

  /** The input of `appendPolicyVerdictAudit` to the ledger. */
  function VerdictEvent(ctx: AuditContext, id: string, at: string, a: Action, d: Decision, from: Option<string>): AuditEvent {
    AuditEvent(id, ctx.caseId, ctx.dealId, "policy.verdict", ctx.decidingActor, "at-risk", "at-risk", at,
               Some([Member("interceptedAction", ActionJson(a))]),
               Some([Member("policyVerdict", VerdictJson(d, from))]),
               Some([a.id] + Present(d.sourceRuleId) + Present(from)), None, None, None, None)
  }

  /** The input of `appendPolicyRuleAudit` to the ledger. */
  function RuleEvent(ctx: AuditContext, id: string, at: string, r: Rule): AuditEvent {
    AuditEvent(id, ctx.caseId, ctx.dealId, "policy.rule." + StatusText(r.status), ctx.decidingActor, "at-risk", "at-risk", at,
               None, Some([Member("policyRule", RuleJson(r))]),
               Some([r.id, r.fromCorrectionId, r.evalCaseId]), None, Some([r.evalCaseId]), None, None)
  }

  // ---------------------------------------------------------------- reading rules back from the ledger

  /** `readPolicyRule` on the event's after-state. */
  function RuleOf(e: SealedEvent): Option<Rule> {
    if e.event.afterState.None? then None else RuleFromJson(Get(e.event.afterState.value, "policyRule"))
  }

  predicate Concerns(e: SealedEvent, ruleId: string) {
    var r := RuleOf(e);
    r.Some? && (r.value.id == ruleId || r.value.supersedesId == Some(ruleId))
  }

  /** The rule versions the ledger records for an id, oldest first. */
  function Versions(events: seq<SealedEvent>, ruleId: string): seq<Rule> {
    if events == [] then []
    else
      var e := events[|events| - 1];
      Versions(events[..|events| - 1], ruleId) + (if Concerns(e, ruleId) then [RuleOf(e).value] else [])
  }

  function Timeline(events: seq<SealedEvent>, ruleId: string): seq<SealedEvent> {
    if events == [] then []
    else
      var e := events[|events| - 1];
      Timeline(events[..|events| - 1], ruleId) + (if Concerns(e, ruleId) then [e] else [])
  }

  datatype RuleLifecycle = RuleLifecycle(
    ruleId: string, currentStatus: RuleStatus, versions: seq<Rule>, timeline: seq<SealedEvent>)

  datatype ReplayError = InvalidChain | NoEvents(ruleId: string)

  function ReconstructRule(events: seq<SealedEvent>, ruleId: string): Result<RuleLifecycle, ReplayError> {
    var versions := Versions(events, ruleId);
    if !ValidChain(events) then Err(InvalidChain)
    else if versions == [] then Err(NoEvents(ruleId))
    else Ok(RuleLifecycle(ruleId, versions[|versions| - 1].status, versions, Timeline(events, ruleId)))
  }

  /** `reconstructPolicyRuleLifecycle` */
  method ReconstructPolicyRuleLifecycle(events: seq<SealedEvent>, ruleId: string) returns (r: Result<RuleLifecycle, ReplayError>)
    ensures r == ReconstructRule(events, ruleId)
  {
    hide RuleFromJson, Good;
    var verification := VerifyChain(events);
    if !verification.valid { return Err(InvalidChain); }
    var versions: seq<Rule> := [];
    var timeline: seq<SealedEvent> := [];
    for i := 0 to |events|
      invariant versions == Versions(events[..i], ruleId) && timeline == Timeline(events[..i], ruleId)
    {
      var rule := RuleOf(events[i]);
      assert events[..i + 1][..i] == events[..i];
      if rule.Some? && (rule.value.id == ruleId || rule.value.supersedesId == Some(ruleId)) {
        versions := versions + [rule.value];
        timeline := timeline + [events[i]];
      }
    }
    assert events[..|events|] == events;
    if versions == [] { return Err(NoEvents(ruleId)); }
    r := Ok(RuleLifecycle(ruleId, versions[|versions| - 1].status, versions, timeline));
  }

  /** The event tells of a version of the rule, or of a rule that supersedes it. */
  predicate TellsOf(e: SealedEvent, ruleId: string) {
    RuleOf(e).Some? && (RuleOf(e).value.id == ruleId || RuleOf(e).value.supersedesId == Some(ruleId))
  }

  /**
   A rule is reconstructed exactly from a valid chain that tells of it: the timeline is every event that
   does, in order, the versions are read from these one by one, and the status is that of the last.
   */
  lemma ReconstructionLists(events: seq<SealedEvent>, ruleId: string)
    ensures var r := ReconstructRule(events, ruleId);
      && (r.Ok? <==> ValidChain(events) && exists e | e in events :: TellsOf(e, ruleId))
      && (r.Err? ==> r.error == if ValidChain(events) then NoEvents(ruleId) else InvalidChain)
      && (r.Ok? ==>
            && r.value.ruleId == ruleId && Selects(r.value.timeline, events, (e: SealedEvent) => TellsOf(e, ruleId))
            && |r.value.versions| == |r.value.timeline| > 0
            && (forall i | 0 <= i < |r.value.timeline| :: RuleOf(r.value.timeline[i]) == Some(r.value.versions[i]))
            && r.value.currentStatus == r.value.versions[|r.value.versions| - 1].status)
  {
    hide ValidChain, RuleOf;
    var tells := (e: SealedEvent) => TellsOf(e, ruleId);
    TimelineTells(events, ruleId);
    FilterSelects(events, tells);
    FilterMembers(events, tells);
    var timeline := Filter(events, tells);
    if timeline != [] { assert timeline[0] in timeline; }
  }

  lemma {:induction false} TimelineTells(events: seq<SealedEvent>, ruleId: string)
    ensures var timeline, versions := Timeline(events, ruleId), Versions(events, ruleId);
      && timeline == Filter(events, (e: SealedEvent) => TellsOf(e, ruleId)) && |versions| == |timeline|
      && forall i | 0 <= i < |timeline| :: RuleOf(timeline[i]) == Some(versions[i])
  {
    hide RuleOf;
    if events != [] {
      var n := |events| - 1;
      TimelineTells(events[..n], ruleId);
      FilterStep(events[..n], events[n], (e: SealedEvent) => TellsOf(e, ruleId));
      assert events == events[..n] + [events[n]];
    }
  }

  // ---------------------------------------------------------------- what sealing keeps of an event

  lemma NotSensitive(key: string)
    requires key == "policyRule" || key == "policyVerdict" || key == "interceptedAction" || key == "actionOutcome"
    ensures !IsSensitive(key)
  {
  }

  lemma RedactOne(key: string, v: Json)
    requires !IsSensitive(key)
    ensures RedactSnapshot(Some([Member(key, v)])) == Some([Member(key, v)])
  {
    assert Map([Member(key, v)], RedactMember) == [Member(key, v)];
  }

  /** The events of this module are sealed as they are, with only the link added. */
  lemma SealedAsIs(chain: seq<SealedEvent>, input: AuditEvent)
    requires ValidEvent(input.(prevHash := None)) && TailHash(chain) != ""
    requires RedactEvent(input) == input
    ensures Seal(chain, input).Ok? && Seal(chain, input).value.event == input.(prevHash := Some(TailHash(chain)))
  {
    hide TailHash, HashEvent, IsTimestamp, RedactSnapshot;
    assert RedactEvent(input.(prevHash := Some(TailHash(chain)))) == input.(prevHash := Some(TailHash(chain)));
  }

  predicate ValidContext(ctx: AuditContext) {
    ctx.caseId != "" && ctx.dealId != "" && ctx.decidingActor != ""
  }

  lemma VerdictEventSeals(chain: seq<SealedEvent>, ctx: AuditContext, id: string, at: string, a: Action, d: Decision, from: Option<string>)
    requires ValidContext(ctx) && id != "" && IsTimestamp(at) && a.id != "" && TailHash(chain) != ""
    requires (d.sourceRuleId.Some? ==> d.sourceRuleId.value != "") && (from.Some? ==> from.value != "")
    ensures var input := VerdictEvent(ctx, id, at, a, d, from);
      Seal(chain, input).Ok? && Seal(chain, input).value.event == input.(prevHash := Some(TailHash(chain)))
  {
    hide IsTimestamp, ActionJson, VerdictJson, TailHash, HashEvent;
    var input := VerdictEvent(ctx, id, at, a, d, from);
    NotSensitive("interceptedAction");
    NotSensitive("policyVerdict");
    RedactOne("interceptedAction", ActionJson(a));
    RedactOne("policyVerdict", VerdictJson(d, from));
    SealedAsIs(chain, input);
  }

  lemma RuleEventSeals(chain: seq<SealedEvent>, ctx: AuditContext, id: string, at: string, r: Rule)
    requires ValidContext(ctx) && id != "" && IsTimestamp(at) && ValidRule(r) && TailHash(chain) != ""
    ensures var input := RuleEvent(ctx, id, at, r);
      Seal(chain, input).Ok? && Seal(chain, input).value.event == input.(prevHash := Some(TailHash(chain)))
  {
    hide IsTimestamp, RuleJson, TailHash, HashEvent;
    var input := RuleEvent(ctx, id, at, r);
    NotSensitive("policyRule");
    RedactOne("policyRule", RuleJson(r));
    assert input.action[0] == 'p';
    SealedAsIs(chain, input);
  }

  lemma RuleOfRuleEvent(e: SealedEvent, ctx: AuditContext, id: string, at: string, r: Rule, prev: string)
    requires ValidRule(r) && e.event == RuleEvent(ctx, id, at, r).(prevHash := Some(prev))
    ensures RuleOf(e) == Some(r) && e.event.action != "policy.verdict"
  {
    RuleRoundTrip(r);
    hide RuleJson, RuleFromJson, ValidRule;
    assert e.event.action[7] == 'r' && "policy.verdict"[7] == 'v';
  }

  lemma RuleOfVerdictEvent(e: SealedEvent, ctx: AuditContext, id: string, at: string, a: Action, d: Decision, from: Option<string>, prev: string)
    requires e.event == VerdictEvent(ctx, id, at, a, d, from).(prevHash := Some(prev))
    ensures RuleOf(e) == None
  {
    hide VerdictJson, ActionJson, RuleFromJson;
    var ms := e.event.afterState.value;
    assert ms[0].key[6] == 'V' && "policyRule"[6] == 'R' && ms[1..] == [];
    assert Get(ms, "policyRule") == None;
    NoRuleFromNothing();
  }

  lemma NoRuleFromNothing()
    ensures RuleFromJson(None) == None
  {
  }
}
