/**
 Reading a verdict back from the ledger (packages/governance/src/policy-audit.ts): what the event of a
 verdict says of the action, the decision, the correction behind it, and its case.
 */
module VerdictRecords {
  import opened Prelude
  import opened CanonicalJson
  import opened AuditEvents
  import opened JsonRecords
  import opened AuditLedgers
  import opened PolicyEngine
  import opened PolicyAudit

  /** What a verdict event records. */
  datatype VerdictRecord = VerdictRecord(
    action: Action, verdict: Verdict, allowed: bool, reasons: seq<string>, requiredBeforeSend: seq<string>, source: Source,
    sourceRuleId: Option<string>, fromCorrectionId: Option<string>)

  /** The record of this action and decision. */
  function Recording(a: Action, d: Decision, from: Option<string>): VerdictRecord {
    VerdictRecord(a, d.verdict, d.allowed, d.reasons, d.requiredBeforeSend, d.source, d.sourceRuleId, from)
  }

  function ParseSource(s: string): Option<Source> {
    if s == "operator" then Some(Operator) else if s == "policy" then Some(Policy)
    else if s == "scope" then Some(ScopeSource) else if s == "default-deny" then Some(DefaultDeny) else None
  }

  function BoolAt(ms: seq<Member>, key: string): Option<bool> {
    var v := Get(ms, key);
    if v.Some? && v.value.Bool? then Some(v.value.b) else None
  }

  function ActionFromJson(v: Option<Json>): Option<Action> {
    match Members(v)
    case None => None
    case Some(ms) =>
      match (StringAt(ms, "id"), StringAt(ms, "tool"), StringAt(ms, "action"), MaybeStringAt(ms, "target"),
             Members(Get(ms, "args")), StringAt(ms, "requestedAt"))
      case (Some(id), Some(tool), Some(action), Some(target), Some(args), Some(at)) =>
        Some(Action(id, tool, action, target, args, at))
      case _ => None
  }

  /** The record with this action and the verdict's properties. */
  function VerdictFromJson(a: Action, v: Option<Json>): Option<VerdictRecord> {
    match Members(v)
    case None => None
    case Some(ms) =>
      match (StringAt(ms, "verdict"), BoolAt(ms, "allowed"), StringsAt(ms, "reasons"), StringsAt(ms, "requiredBeforeSend"),
             StringAt(ms, "source"), MaybeStringAt(ms, "sourceRuleId"), MaybeStringAt(ms, "fromCorrectionId"))
      case (Some(verdict), Some(allowed), Some(reasons), Some(required), Some(source), Some(ruleId), Some(from)) =>
        (match (ParseVerdict(verdict), ParseSource(source))
         case (Some(v), Some(s)) => Some(VerdictRecord(a, v, allowed, reasons, required, s, ruleId, from))
         case _ => None)
      case _ => None
  }

  /** What the event records, if it is a verdict event. */
  function RecordOf(e: SealedEvent): Option<VerdictRecord> {
    if e.event.action != "policy.verdict" || e.event.beforeState.None? || e.event.afterState.None? then None
    else match ActionFromJson(Get(e.event.beforeState.value, "interceptedAction"))
      case None => None
      case Some(a) => VerdictFromJson(a, Get(e.event.afterState.value, "policyVerdict"))
  }

  lemma ActionRoundTrip(a: Action)
    ensures ActionFromJson(Some(ActionJson(a))) == Some(a)
  {
    hide OptionalText, JsonRecords.Record;
    var ps := [Property("id", Some(Str(a.id))), Property("tool", Some(Str(a.tool))), Property("action", Some(Str(a.action))),
               Property("target", OptionalText(a.target)), Property("args", Some(Obj(a.args))),
               Property("requestedAt", Some(Str(a.requestedAt)))];
    assert "action"[0] != "target"[0] && "tool"[0] != "args"[0];
    assert forall i | 0 <= i < 6 :: |ps[i].key| == [2, 4, 6, 6, 4, 11][i];
    assert DistinctProperties(ps);
    RecordAt(ps, 0); RecordAt(ps, 1); RecordAt(ps, 2); RecordAt(ps, 3); RecordAt(ps, 4); RecordAt(ps, 5);
    MaybeText(Record(ps), "target", a.target);
    hide Get;
  }

  lemma MaybeText(ms: seq<Member>, key: string, s: Option<string>)
    requires Get(ms, key) == OptionalText(s)
    ensures MaybeStringAt(ms, key) == Some(s)
  {
    hide Get;
  }

  function VerdictProperties(d: Decision, from: Option<string>): seq<Property> {
    [Property("verdict", Some(Str(VerdictText(d.verdict)))), Property("allowed", Some(Bool(d.allowed))),
     Property("reasons", Some(StringArray(d.reasons))), Property("requiredBeforeSend", Some(StringArray(d.requiredBeforeSend))),
     Property("source", Some(Str(SourceText(d.source)))), Property("sourceRuleId", OptionalText(d.sourceRuleId)),
     Property("fromCorrectionId", OptionalText(from))]
  }

  lemma VerdictPropertiesDistinct(d: Decision, from: Option<string>)
    ensures DistinctProperties(VerdictProperties(d, from))
  {
    hide StringArray, VerdictText, SourceText, OptionalText;
    var ps := VerdictProperties(d, from);
    assert "verdict"[0] != "allowed"[0] && "verdict"[0] != "reasons"[0] && "allowed"[0] != "reasons"[0];
    assert forall i | 0 <= i < 7 :: |ps[i].key| == [7, 7, 7, 18, 6, 12, 16][i];
  }

  lemma VerdictGets(d: Decision, from: Option<string>)
    ensures VerdictJson(d, from).Obj?
    ensures var ms := VerdictJson(d, from).members;
      && Get(ms, "verdict") == Some(Str(VerdictText(d.verdict))) && Get(ms, "allowed") == Some(Bool(d.allowed))
      && Get(ms, "reasons") == Some(StringArray(d.reasons))
      && Get(ms, "requiredBeforeSend") == Some(StringArray(d.requiredBeforeSend))
      && Get(ms, "source") == Some(Str(SourceText(d.source))) && Get(ms, "sourceRuleId") == OptionalText(d.sourceRuleId)
      && Get(ms, "fromCorrectionId") == OptionalText(from)
  {
    VerdictPropertiesDistinct(d, from);
    hide StringArray, VerdictText, SourceText, OptionalText, JsonRecords.Record, DistinctProperties;
    var ps := VerdictProperties(d, from);
    RecordAt(ps, 0); RecordAt(ps, 1); RecordAt(ps, 2); RecordAt(ps, 3); RecordAt(ps, 4); RecordAt(ps, 5); RecordAt(ps, 6);
  }

  lemma SourceParses(s: Source)
    ensures ParseSource(SourceText(s)) == Some(s)
  {
  }

  lemma VerdictRoundTrip(a: Action, d: Decision, from: Option<string>)
    ensures VerdictFromJson(a, Some(VerdictJson(d, from))) == Some(Recording(a, d, from))
  {
    VerdictGets(d, from);
    TextsParse(d.verdict, Proposed, AssignOwner, ToolField, Eq);
    SourceParses(d.source);
    var ms := VerdictJson(d, from).members;
    StringArrayTexts(ms, "reasons", d.reasons);
    StringArrayTexts(ms, "requiredBeforeSend", d.requiredBeforeSend);
    MaybeText(ms, "sourceRuleId", d.sourceRuleId);
    MaybeText(ms, "fromCorrectionId", from);
    hide VerdictJson, Get, ParseVerdict, ParseSource, VerdictText, SourceText, StringArray, MaybeStringAt, StringsAt;
  }

  /** An event with these two snapshots records this action and this decision. */
  lemma SnapshotsRecord(e: SealedEvent, a: Action, d: Decision, from: Option<string>)
    requires e.event.action == "policy.verdict"
    requires e.event.beforeState == Some([Member("interceptedAction", ActionJson(a))])
    requires e.event.afterState == Some([Member("policyVerdict", VerdictJson(d, from))])
    ensures RecordOf(e) == Some(Recording(a, d, from))
  {
    ActionRoundTrip(a);
    VerdictRoundTrip(a, d, from);
    hide ActionJson, VerdictJson, ActionFromJson, VerdictFromJson, Recording;
  }

  /** The event is about this case, deal and actor. */
  predicate OfContext(e: SealedEvent, ctx: AuditContext) {
    e.event.caseId == ctx.caseId && e.event.dealId == ctx.dealId && e.event.decidingActor == ctx.decidingActor
  }

  /**
   Sealed onto a ledger, a verdict is read back as it was recorded; the event is about the case of its
   context, and cites the action, the rule that decided, and the correction behind it.
   */
  lemma SealedVerdictIsRead(
    chain: seq<SealedEvent>, ctx: AuditContext, id: string, at: string, a: Action, d: Decision, from: Option<string>)
    requires Seal(chain, VerdictEvent(ctx, id, at, a, d, from)).Ok?
    ensures var e := Seal(chain, VerdictEvent(ctx, id, at, a, d, from)).value;
      && RecordOf(e) == Some(Recording(a, d, from)) && OfContext(e, ctx)
      && e.event.id == id && e.event.recordedAt == at
      && e.event.evidenceIds.Some? && a.id in e.event.evidenceIds.value
      && (d.sourceRuleId.Some? ==> d.sourceRuleId.value in e.event.evidenceIds.value)
      && (from.Some? ==> from.value in e.event.evidenceIds.value)
  {
    hide IsTimestamp, ActionJson, VerdictJson, TailHash, HashEvent, RedactSnapshot, Recording, RecordOf;
    var e := Seal(chain, VerdictEvent(ctx, id, at, a, d, from)).value;
    NotSensitive("interceptedAction");
    NotSensitive("policyVerdict");
    RedactOne("interceptedAction", ActionJson(a));
    RedactOne("policyVerdict", VerdictJson(d, from));
    SnapshotsRecord(e, a, d, from);
    var cited := [a.id] + Present(d.sourceRuleId) + Present(from);
    assert cited[0] == a.id;
    if d.sourceRuleId.Some? { assert cited[1] == d.sourceRuleId.value; }
    if from.Some? { assert cited[|cited| - 1] == from.value; }
  }

  /** Likewise a rule: its event cites the rule, its correction and its evaluation case. */
  lemma SealedRuleIsRead(chain: seq<SealedEvent>, ctx: AuditContext, id: string, at: string, r: Rule)
    requires ValidRule(r) && Seal(chain, RuleEvent(ctx, id, at, r)).Ok?
    ensures var e := Seal(chain, RuleEvent(ctx, id, at, r)).value;
      && RuleOf(e) == Some(r) && OfContext(e, ctx) && e.event.id == id && e.event.recordedAt == at
      && e.event.evidenceIds == Some([r.id, r.fromCorrectionId, r.evalCaseId]) && e.event.evalIds == Some([r.evalCaseId])
  {
    assert RedactSnapshot(None) == None;
    hide IsTimestamp, RuleJson, RuleOf, TailHash, HashEvent, RedactSnapshot, ValidRule;
    NotSensitive("policyRule");
    RedactOne("policyRule", RuleJson(r));
    var e := Seal(chain, RuleEvent(ctx, id, at, r)).value;
    RuleOfRuleEvent(e, ctx, id, at, r, TailHash(chain));
  }
}
