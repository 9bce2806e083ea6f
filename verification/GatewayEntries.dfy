/**
 What each call of the gateway leaves of its action (packages/integrations/intercept-gateway/src/gateway.ts):
 the rewritten action is the one decided, queued, recorded and audited, and the original is kept beside
 it. For any stores, ids, clock and ledger, in memory and on file.
 */
module GatewayEntries {
  import opened Prelude
  import opened Sorting
  import opened KeyedStores
  import opened CanonicalJson
  import opened AuditEvents
  import opened JsonRecords
  import opened AuditLedgers
  import opened PolicyEngine
  import opened PolicyStores
  import opened ProxyHistories
  import opened PolicyAudit
  import opened VerdictRecords
  import opened CompileCorrection
  import opened MatchReplace
  import opened GatewaySteps
  import opened GatewayCoverage

  /** What was decided on which action, and what is noted about it. */
  datatype Note = Note(
    action: Action, decision: Decision, original: Option<Action>, applied: seq<string>, queueId: Option<string>,
    notes: Option<seq<string>>)

  predicate Bears(e: HistoryEntry, note: Note, mode: Mode) {
    && e.action == note.action && e.decision == note.decision && e.mode == mode && e.outcome.None?
    && e.originalAction == note.original && e.queueId == note.queueId && e.notes == note.notes
    && e.appliedRuleIds == (if note.applied == [] then None else Some(note.applied))
  }

  /**
   The note was recorded under the second id drawn and audited under the first: one more history entry,
   and one more event, of the gateway's own case, which tells the same action and decision and the
   correction behind it.
   */
  ghost predicate Noted(
    env: Env, s: GatewayState, s': GatewayState, note: Note, from: Option<string>, e: HistoryEntry, x: SealedEvent)
  {
    && s'.history == Write(env.medium, ENTRIES, s.history + [e]) && Bears(e, note, s.mode)
    && s'.ledger == s.ledger + [x] && OfContext(x, env.ctx) && RecordOf(x) == Some(Recording(note.action, note.decision, from))
    && x.event.id == env.ids(s.nextId) && x.event.recordedAt == env.clock(s.ticks)
    && e.id == env.ids(s.nextId + 1) && e.recordedAt == env.clock(s.ticks + 1)
  }

  function Lasting(note: Note): Remarks { Remarks(note.queueId, note.original, note.applied, note.notes) }

  lemma LogNotes(env: Env, s: GatewayState, note: Note, from: Option<string>) returns (e: HistoryEntry, x: SealedEvent)
    requires LogVerdict(env, s, note.action, note.decision, from, Lasting(note)).0.Ok?
    ensures var s' := LogVerdict(env, s, note.action, note.decision, from, Lasting(note)).1;
      Noted(env, s, s', note, from, e, x) && s' == Drawn(s, 2, 2).(ledger := s'.ledger, history := s'.history)
  {
    hide ValidAction, Seal, VerdictEvent, RecordOf, OfContext, Recording;
    var input := VerdictEvent(env.ctx, env.ids(s.nextId), env.clock(s.ticks), note.action, note.decision, from);
    x := Seal(s.ledger, input).value;
    SealedVerdictIsRead(s.ledger, env.ctx, env.ids(s.nextId), env.clock(s.ticks), note.action, note.decision, from);
    var s1 := AppendVerdict(env, s, note.action, note.decision, from).1;
    e := NewEntry(env, s1, note.action, note.decision, Lasting(note));
    RecordedIsWritten(env.medium, s.history, e);
    hide OnHistory, ValidEntry;
  }

  lemma RecordedIsWritten(m: Medium, history: seq<HistoryEntry>, e: HistoryEntry)
    ensures var (answer, history') := OnHistory(m, history, HistoryCall.Record(e));
      !answer.Refused? ==> history' == Write(m, ENTRIES, history + [e])
  {
    hide ValidEntry;
  }

  // ---------------------------------------------------------------- intercept

  /** The queue accepts the item. */
  predicate Accepts(m: Medium, queue: seq<QueuedIntercept>, item: QueuedIntercept) {
    (if m == OnFile then ValidItem(item) else ValidAction(item.action)) && !Has(ITEMS, queue, item.id)
  }

  lemma EnqueueMeans(m: Medium, queue: seq<QueuedIntercept>, item: QueuedIntercept)
    ensures var (answer, queue') := OnQueue(m, queue, Enqueue(item));
      if Accepts(m, queue, item) then !answer.Failed? && queue' == Write(m, ITEMS, queue + [item])
      else answer.Failed? && queue' == queue
  {
    hide ValidAction;
  }

  /** The action as the rewriting rules leave it. */
  lemma PrepareMeans(s: GatewayState, raw: Action)
    requires ValidAction(raw)
    ensures var done := ApplyMatchReplaceRules(raw, s.replaceRules);
      if done.Err? then Prepare(s, raw, true) == Err(ReplaceFailed(done.error))
      else Prepare(s, raw, true) == Ok(Prepared(done.value.action, Original(raw, done.value), done.value.appliedRuleIds))
  {
    hide ValidAction, ApplyRule;
  }

  /** The original is kept exactly when some rule applied. */
  function Original(raw: Action, done: Replaced): Option<Action> { if done.appliedRuleIds == [] then None else Some(raw) }

  /** Who decides a rewritten action: the rules and modes of the moment, or the queue by refusing it. */
  ghost predicate DecidedBy(env: Env, s: GatewayState, s': GatewayState, action: Action, d: Decision, queueId: Option<string>) {
    var asked := DecideNow(s, action, s.mode);
    var item := QueuedIntercept(env.ids(s.nextId), action, env.clock(s.ticks));
    if asked.verdict != Ask then d == asked && queueId.None? && s'.queue == s.queue
    else if Accepts(env.medium, s.queue, item) then
      d == asked && queueId == Some(item.id) && s'.queue == Write(env.medium, ITEMS, s.queue + [item])
    else d.verdict == Deny && !d.allowed && d.source == DefaultDeny && queueId.None? && s'.queue == s.queue
  }

  lemma JudgeNotes(env: Env, s: GatewayState, p: Prepared) returns (e: HistoryEntry, x: SealedEvent)
    requires Judge(env, s, p).0.Ok?
    ensures var (r, s') := Judge(env, s, p);
      var asked := DecideNow(s, p.action, s.mode).verdict == Ask;
      && DecidedBy(env, s, s', p.action, r.value, e.queueId) && s'.rules == s.rules && s'.mode == s.mode
      && Noted(env, if asked then Drawn(s, 1, 1) else s, s',
               Note(p.action, r.value, p.originalAction, p.appliedRuleIds, e.queueId, None), None, e, x)
  {
    hide DecideNow, LogVerdict, OnQueue, QueueErrorText, Noted, Accepts;
    var asked := DecideNow(s, p.action, s.mode);
    if asked.verdict != Ask {
      var note := Note(p.action, asked, p.originalAction, p.appliedRuleIds, None, None);
      e, x := LogNotes(env, s, note, None);
      NotedQueue(env, s, Judge(env, s, p).1, note, None, e, x);
    } else {
      var item := QueuedIntercept(env.ids(s.nextId), p.action, env.clock(s.ticks));
      EnqueueMeans(env.medium, s.queue, item);
      var (answer, queue) := OnQueue(env.medium, s.queue, Enqueue(item));
      var d := if answer.Failed? then QueueFailedClosed(answer.error) else asked;
      var note := Note(p.action, d, p.originalAction, p.appliedRuleIds, if answer.Failed? then None else Some(item.id), None);
      var s1 := Drawn(s, 1, 1).(queue := queue);
      e, x := LogNotes(env, s1, note, None);
      NotedQueue(env, s1, Judge(env, s, p).1, note, None, e, x);
      NotedElsewhere(env, s1, Drawn(s, 1, 1), Judge(env, s, p).1, note, None, e, x);
    }
  }

  lemma NotedQueue(
    env: Env, s: GatewayState, s': GatewayState, note: Note, from: Option<string>, e: HistoryEntry, x: SealedEvent)
    requires Noted(env, s, s', note, from, e, x)
    ensures e.queueId == note.queueId
  {
    hide RecordOf, OfContext, Recording;
  }

  /** Noting looks at nothing but history, ledger, counters and mode. */
  lemma NotedElsewhere(
    env: Env, s: GatewayState, t: GatewayState, s': GatewayState, note: Note, from: Option<string>, e: HistoryEntry, x: SealedEvent)
    requires Noted(env, s, s', note, from, e, x)
    requires t.history == s.history && t.ledger == s.ledger && t.nextId == s.nextId && t.ticks == s.ticks && t.mode == s.mode
    ensures Noted(env, t, s', note, from, e, x)
  {
    hide RecordOf, OfContext, Recording;
  }

  /** An action that does not parse, or that a rewriting rule fails on, is refused and leaves everything as it was. */
  lemma InterceptRefuses(env: Env, s: GatewayState, raw: Action)
    ensures !ValidAction(raw) ==> InterceptStep(env, s, raw) == (Err(InvalidInput), s)
    ensures var rewritten := ApplyMatchReplaceRules(raw, s.replaceRules);
      ValidAction(raw) && rewritten.Err? ==> InterceptStep(env, s, raw) == (Err(ReplaceFailed(rewritten.error)), s)
  {
    hide ValidAction, ApplyMatchReplaceRules, Prepare, Judge;
    if ValidAction(raw) { PrepareMeans(s, raw); }
  }

  /**
   Intercepting decides, queues, records and audits the action that the match-and-replace rules make of
   the one that came in, and keeps that one beside it exactly when some rule applied.
   */
  lemma InterceptRewrites(env: Env, s: GatewayState, raw: Action) returns (e: HistoryEntry, x: SealedEvent)
    requires InterceptStep(env, s, raw).0.Ok?
    ensures ValidAction(raw) && ApplyMatchReplaceRules(raw, s.replaceRules).Ok?
    ensures var (r, s') := InterceptStep(env, s, raw);
      var done := ApplyMatchReplaceRules(raw, s.replaceRules).value;
      var asked := DecideNow(s, done.action, s.mode).verdict == Ask;
      && DecidedBy(env, s, s', done.action, r.value, e.queueId) && s'.rules == s.rules
      && Noted(env, if asked then Drawn(s, 1, 1) else s, s',
               Note(done.action, r.value, Original(raw, done), done.appliedRuleIds, e.queueId, None), None, e, x)
  {
    hide ValidAction, DecideNow, ApplyMatchReplaceRules, Prepare, Judge, Noted, DecidedBy;
    PrepareMeans(s, raw);
    var done := ApplyMatchReplaceRules(raw, s.replaceRules).value;
    e, x := JudgeNotes(env, s, Prepared(done.action, Original(raw, done), done.appliedRuleIds));
  }

  // ---------------------------------------------------------------- repeater

  /** The action that is sent again: the given one, or the recorded one. */
  predicate Repeats(s: GatewayState, input: RepeaterInput, raw: Action) {
    if input.action.Some? then raw == input.action.value && ValidAction(raw)
    else input.historyId.Some? && exists h | h in s.history :: h.id == input.historyId.value && h.action == raw
  }

  /**
   Sending again decides the rewritten action, or the action as it is where rewriting is off, in the mode
   asked for; it is recorded and audited, and never queued.
   */
  lemma RepeaterRewrites(env: Env, s: GatewayState, input: RepeaterInput)
    returns (raw: Action, e: HistoryEntry, x: SealedEvent)
    requires RepeaterStep(env, s, input).0.Ok?
    ensures Repeats(s, input, raw)
    ensures var (r, s') := RepeaterStep(env, s, input);
      var rules := if input.applyMatchReplace then s.replaceRules else [];
      var rewritten := ApplyMatchReplaceRules(raw, rules);
      && rewritten.Ok?
      && r.value == DecideNow(s, rewritten.value.action, if input.mode.Some? then input.mode.value else s.mode)
      && s'.queue == s.queue && s'.rules == s.rules
      && Noted(env, s, s',
               Note(rewritten.value.action, r.value, Original(raw, rewritten.value), rewritten.value.appliedRuleIds, None,
                    Some(["repeater.send"])), None, e, x)
  {
    hide ValidAction, DecideNow, LogVerdict, Noted, ApplyRule;
    raw := RepeaterAction(s, input).value;
    RepeatedAction(s, input);
    hide RepeaterAction, Repeats;
    var p := Prepare(s, raw, input.applyMatchReplace).value;
    var d := DecideNow(s, p.action, input.mode.GetOr(s.mode));
    var note := Note(p.action, d, p.originalAction, p.appliedRuleIds, None, Some(["repeater.send"]));
    e, x := LogNotes(env, s, note, None);
    LogStores(env, s, p.action, d, None, Lasting(note));
    assert ValidAction(raw) by { PreparedFromValid(s, raw, input.applyMatchReplace); }
    PrepareMeans(s, raw);
    hide Prepare;
  }

  lemma PreparedFromValid(s: GatewayState, raw: Action, applyRules: bool)
    requires Prepare(s, raw, applyRules).Ok? && ValidAction(Prepare(s, raw, applyRules).value.action)
    ensures ValidAction(raw)
  {
    hide ValidAction, ApplyAll;
  }

  lemma RepeatedAction(s: GatewayState, input: RepeaterInput)
    requires RepeaterAction(s, input).Ok?
    ensures Repeats(s, input, RepeaterAction(s, input).value)
  {
    hide ValidAction;
    if input.action.None? {
      var i := Find(ENTRIES, s.history, input.historyId.value);
      assert ENTRIES.id(s.history[i]) == input.historyId.value && s.history[i] in s.history;
    }
  }

  // ---------------------------------------------------------------- operator verdicts

  /** The decision an operator's verdict records. */
  predicate OperatorSays(input: OperatorInput, d: Decision) {
    && d.source == Operator && d.sourceRuleId.None? && d.scopeReason.None? && d.shadow.None?
    && (input.approve ==> d.verdict == Allow && d.allowed && d.reasons == [] && d.requiredBeforeSend == [])
    && (!input.approve ==> d.verdict == Deny && !d.allowed && d.reasons == [input.reason])
  }

  function VerdictNote(input: OperatorInput, a: Action, original: Option<Action>): Note {
    Note(a, if input.approve then APPROVED else Disapproved(input.reason), original, [], Some(input.queueId),
         Some([if input.approve then "intercept.forward" else "intercept.drop"]))
  }

  /** The states after the log: the stores of rules and the ledger have grown, the history has not. */
  predicate GrownFrom(s: GatewayState, s': GatewayState) {
    s'.history == s.history && s.ledger <= s'.ledger && s'.queue == s.queue
  }

  lemma StoreGrows(env: Env, s: GatewayState, call: RuleCall, r: Rule)
    ensures GrownFrom(s, StoreRule(env, s, call, r).1)
  {
    hide ValidRule, Seal, OnRules, RuleEvent;
  }

  lemma {:induction false} ProposalsGrowLedger(env: Env, s: GatewayState, proposals: seq<Rule>, activate: bool)
    ensures GrownFrom(s, StoreProposals(env, s, proposals, activate).1)
    decreases |proposals|
  {
    hide StoreRule;
    if proposals != [] {
      var p := proposals[0];
      StoreGrows(env, s, PutRule(p), p);
      StoreGrows(env, StoreRule(env, s, PutRule(p), p).1, UpdateRule(p.(status := Active)), p.(status := Active));
      hide StoreProposal;
      ProposalsGrowLedger(env, StoreProposal(env, s, p, activate).1, proposals[1..], activate);
    }
  }

  /** The verdict is noted in a state with nothing but the correction drawn, before any rule is stored. */
  ghost predicate VerdictNoted(
    env: Env, s: GatewayState, s': GatewayState, input: OperatorInput, a: Action, original: Option<Action>, e: HistoryEntry,
    x: SealedEvent)
  {
    && |s'.ledger| > |s.ledger|
    && Noted(env, Drawn(s, 1, 1), s'.(ledger := s'.ledger[..|s.ledger| + 1]), VerdictNote(input, a, original),
             Some(env.ids(s.nextId)), e, x)
  }

  lemma NotedThenGrown(
    env: Env, s: GatewayState, s1: GatewayState, s': GatewayState, input: OperatorInput, a: Action, original: Option<Action>,
    e: HistoryEntry, x: SealedEvent)
    requires Noted(env, Drawn(s, 1, 1), s1, VerdictNote(input, a, original), Some(env.ids(s.nextId)), e, x) && GrownFrom(s1, s')
    ensures VerdictNoted(env, s, s', input, a, original, e, x)
  {
    hide RecordOf, OfContext, Recording, VerdictNote;
    assert s'.ledger[..|s.ledger| + 1] == s1.ledger;
  }

  lemma ApproveNotes(env: Env, s: GatewayState, a: Action, original: Option<Action>, input: OperatorInput)
    returns (e: HistoryEntry, x: SealedEvent)
    requires input.approve && Approve(env, s, a, original, input).0.Ok?
    ensures var (r, s') := Approve(env, s, a, original, input);
      && VerdictNoted(env, s, s', input, a, original, e, x) && s'.queue == s.queue && r.value.decision == APPROVED
      && |r.value.compiledRules| == 1 && r.value.compiledRules[0].fromCorrectionId == env.ids(s.nextId)
  {
    hide ValidCorrection, LogVerdict, StoreRule, ValidRule, ApprovalText, Noted, VerdictNoted, ApprovalScopeFor;
    var s0, note, from := Drawn(s, 1, 1), VerdictNote(input, a, original), Some(env.ids(s.nextId));
    e, x := LogNotes(env, s0, note, from);
    var s1 := LogVerdict(env, s0, a, APPROVED, from, Lasting(note)).1;
    var rule := ApprovalRule(env, s1, a, env.ids(s.nextId));
    StoreGrows(env, Drawn(s1, 2, 2), PutRule(rule), rule);
    NotedThenGrown(env, s, s1, Approve(env, s, a, original, input).1, input, a, original, e, x);
  }

  lemma DisapproveNotes(env: Env, s: GatewayState, a: Action, original: Option<Action>, input: OperatorInput)
    returns (e: HistoryEntry, x: SealedEvent)
    requires !input.approve && Disapprove(env, s, a, original, input).0.Ok?
    ensures var (r, s') := Disapprove(env, s, a, original, input);
      VerdictNoted(env, s, s', input, a, original, e, x) && s'.queue == s.queue && r.value.decision == Disapproved(input.reason)
  {
    hide ValidCorrection, LogVerdict, StoreProposals, Compile, Noted, VerdictNoted, Disapproved;
    var s0, note, from := Drawn(s, 1, 1), VerdictNote(input, a, original), Some(env.ids(s.nextId));
    e, x := LogNotes(env, s0, note, from);
    var s1 := LogVerdict(env, s0, a, Disapproved(input.reason), from, Lasting(note)).1;
    var c := Compile(env.phrases(input.reason), Some(a), env.ids(s.nextId), env.ids, env.clock, s1.nextId, s1.ticks);
    ProposalsGrowLedger(env, s1.(nextId := c.nextId, ticks := c.ticks), c.rules.value, input.activate);
    NotedThenGrown(env, s, s1, Disapprove(env, s, a, original, input).1, input, a, original, e, x);
  }

  /**
   A verdict that goes through is recorded and audited on the edited action where there is one, with the
   queued one beside it, else on the queued one; the item leaves the queue, and the event cites the
   correction, which is the first id drawn.
   */
  lemma OperatorNotes(env: Env, s: GatewayState, input: OperatorInput) returns (e: HistoryEntry, x: SealedEvent)
    requires OperatorStep(env, s, input).0.Ok?
    ensures var (r, s') := OperatorStep(env, s, input);
      var item := Lookup(ITEMS, s.queue, input.queueId);
      && item.Some? && OperatorSays(input, r.value.decision)
      && s'.queue == Write(env.medium, ITEMS, Without(ITEMS, s.queue, input.queueId))
      && (var edited := input.editedAction;
          var action, original := if edited.Some? then edited.value else item.value.action,
                                  if edited.Some? then Some(item.value.action) else None;
          VerdictNoted(env, s, s', input, action, original, e, x) && e.decision == r.value.decision)
  {
    hide ValidAction, Approve, Disapprove, Lookup, Without, VerdictNoted, Saved;
    var item := Lookup(ITEMS, s.queue, input.queueId);
    var s0 := s.(queue := OnQueue(env.medium, s.queue, Remove(input.queueId)).1);
    var action := input.editedAction.GetOr(item.value.action);
    var original := if input.editedAction.Some? then Some(item.value.action) else None;
    if input.approve {
      e, x := ApproveNotes(env, s0, action, original, input);
    } else {
      e, x := DisapproveNotes(env, s0, action, original, input);
    }
    NotedDecision(env, s0, s, OperatorStep(env, s, input).1, input, action, original, e, x);
  }

  lemma NotedDecision(
    env: Env, s0: GatewayState, s: GatewayState, s': GatewayState, input: OperatorInput, a: Action, original: Option<Action>,
    e: HistoryEntry, x: SealedEvent)
    requires VerdictNoted(env, s0, s', input, a, original, e, x) && s0 == s.(queue := s0.queue)
    ensures VerdictNoted(env, s, s', input, a, original, e, x)
    ensures e.decision == if input.approve then APPROVED else Disapproved(input.reason)
  {
    hide RecordOf, OfContext, Recording;
  }

  // ---------------------------------------------------------------- outcomes

  function IntAt(ms: seq<Member>, key: string): Option<int> {
    var v := Get(ms, key);
    if v.Some? && v.value.Num? then Some(v.value.n) else None
  }

  /** The outcome an event records. */
  function OutcomeOf(e: SealedEvent): Option<ProxyOutcome> {
    if e.event.action != "policy.outcome" || e.event.afterState.None? then None
    else match Members(Get(e.event.afterState.value, "actionOutcome"))
      case None => None
      case Some(ms) =>
        match (StringAt(ms, "actionId"), IntAt(ms, "exitCode"), StringAt(ms, "completedAt"))
        case (Some(id), Some(code), Some(at)) => Some(ProxyOutcome(id, code, at))
        case _ => None
  }

  /** Recording an outcome sets it on every entry of its action and on no other, and audits it as it is. */
  lemma OutcomeNotes(env: Env, s: GatewayState, o: ProxyOutcome) returns (entries: seq<HistoryEntry>, x: SealedEvent)
    requires OutcomeStep(env, s, o).0.Ok?
    ensures |entries| == |s.history| && (exists e | e in s.history :: e.action.id == o.actionId)
    ensures forall i | 0 <= i < |entries| ::
      var e := s.history[i]; entries[i] == if e.action.id == o.actionId then e.(outcome := Some(o)) else e
    ensures var (r, s') := OutcomeStep(env, s, o);
      && r.value == o && s'.history == Write(env.medium, ENTRIES, entries)
      && s'.ledger == s.ledger + [x] && OutcomeOf(x) == Some(o) && OfContext(x, env.ctx)
      && s'.rules == s.rules && s'.queue == s.queue
  {
    var id, at := env.ids(s.nextId), env.clock(s.ticks);
    var input := OutcomeEvent(env.ctx, id, at, o);
    entries := Map(s.history, SetOutcome(o));
    FilterMembers(s.history, (e: HistoryEntry) => e.action.id == o.actionId);
    if ForAction(s.history, o.actionId) != [] { assert ForAction(s.history, o.actionId)[0] in s.history; }
    hide Seal, Saved, IsTimestamp;
    x := Seal(s.ledger, input).value;
    OutcomeIsRead(s.ledger, env.ctx, id, at, o);
    hide OutcomeEvent, OutcomeOf, OfContext;
  }

  lemma OutcomeIsRead(chain: seq<SealedEvent>, ctx: AuditContext, id: string, at: string, o: ProxyOutcome)
    requires Seal(chain, OutcomeEvent(ctx, id, at, o)).Ok?
    ensures var e := Seal(chain, OutcomeEvent(ctx, id, at, o)).value; OutcomeOf(e) == Some(o) && OfContext(e, ctx)
  {
    var input := OutcomeEvent(ctx, id, at, o);
    assert RedactSnapshot(None) == None;
    hide TailHash, HashEvent, IsTimestamp, RedactSnapshot, OutcomeOf, Get;
    NotSensitive("actionOutcome");
    RedactOne("actionOutcome", input.afterState.value[0].val);
    OutcomeReads(Seal(chain, input).value, o);
  }

  function OutcomeMembers(o: ProxyOutcome): seq<Member> {
    [Member("actionId", Str(o.actionId)), Member("exitCode", Num(o.exitCode)), Member("completedAt", Str(o.completedAt))]
  }

  lemma OutcomeReads(e: SealedEvent, o: ProxyOutcome)
    requires e.event.action == "policy.outcome" && e.event.afterState == Some([Member("actionOutcome", Obj(OutcomeMembers(o)))])
    ensures OutcomeOf(e) == Some(o)
  {
    OutcomeGets(o);
    GetMember(e.event.afterState.value, Member("actionOutcome", Obj(OutcomeMembers(o))));
    hide Get, OutcomeMembers;
  }

  lemma OutcomeGets(o: ProxyOutcome)
    ensures var ms := OutcomeMembers(o);
      && Get(ms, "actionId") == Some(Str(o.actionId)) && Get(ms, "exitCode") == Some(Num(o.exitCode))
      && Get(ms, "completedAt") == Some(Str(o.completedAt))
  {
    var ms := OutcomeMembers(o);
    assert "actionId"[0] == 'a' && "exitCode"[0] == 'e' && "completedAt"[0] == 'c';
    GetMember(ms, ms[0]);
    GetMember(ms, ms[1]);
    GetMember(ms, ms[2]);
  }
}
