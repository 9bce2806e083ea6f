/**
 What every call of the intercept gateway keeps
 (packages/integrations/intercept-gateway/src/gateway.ts): the ledger verifies and replays
 the rules stored since it began, its verdict events follow the history entry by entry, and the
 rule list only grows. Ids are fresh; the stores may hold what earlier sessions left.
 */
module GatewayInvariants {
  import opened Prelude
  import opened Sorting
  import opened KeyedStores
  import opened CanonicalJson
  import opened AuditEvents
  import opened AuditLedgers
  import opened PolicyEngine
  import opened PolicyStores
  import opened ProxyHistories
  import opened PolicyAudit
  import opened CompileCorrection
  import opened GatewaySteps
  import opened GatewayCoverage

  // ---------------------------------------------------------------- the environment

  /** Ids never repeat, time stamps parse, and the gateway is configured with non-empty names. */
  ghost predicate FreshEnv(env: Env) {
    && ValidContext(env.ctx)
    && (forall i: nat, j: nat :: env.ids(i) == env.ids(j) ==> i == j)
    && (forall i: nat :: env.ids(i) != "")
    && (forall i: nat :: IsTimestamp(env.clock(i)))
    && (forall text :: ValidAtoms(env.phrases(text)))
  }

  /** The id is not drawn any more once `n` have been: it was one of them, or it is never drawn. */
  ghost predicate Spent(env: Env, n: nat, id: string) {
    forall i: nat | n <= i :: env.ids(i) != id
  }

  lemma DrawnIsSpent(env: MemoryEnv, k: nat, n: nat)
    requires FreshEnv(env)
    ensures Spent(env, n, env.ids(k)) <==> k < n
  {
  }

  // ---------------------------------------------------------------- the invariant

  ghost predicate RulesOk(env: Env, n: nat, rules: seq<Rule>) {
    && Distinct(RULES, rules)
    && forall i | 0 <= i < |rules| :: ValidRule(rules[i]) && Spent(env, n, rules[i].id)
  }

  ghost predicate QueueOk(env: Env, n: nat, queue: seq<QueuedIntercept>) {
    && Distinct(ITEMS, queue)
    && forall i | 0 <= i < |queue| :: ValidAction(queue[i].action) && Spent(env, n, queue[i].id)
  }

  ghost predicate HistoryOk(env: Env, n: nat, history: seq<HistoryEntry>) {
    && Distinct(ENTRIES, history)
    && forall i | 0 <= i < |history| :: ValidAction(history[i].action) && Spent(env, n, history[i].id)
  }

  /** How many rules and history entries the stores held when the session began, with a new ledger. */
  datatype Kept = Kept(rules: nat, entries: nat)

  /**
   The ledger records nothing of the kept rules; the last version it records of each later one is the
   stored one; and it records no other rule.
   */
  ghost predicate Replays(kept: Kept, ledger: seq<SealedEvent>, rules: seq<Rule>) {
    && kept.rules <= |rules|
    && (forall i | 0 <= i < kept.rules :: Versions(ledger, rules[i].id) == [])
    && (forall i | kept.rules <= i < |rules| ::
          var vs := Versions(ledger, rules[i].id);
          vs != [] && vs[|vs| - 1] == rules[i])
    && (forall k | 0 <= k < |ledger| && RuleOf(ledger[k]).Some? ::
          RuleOf(ledger[k]).value.supersedesId.None? && Has(RULES, rules, RuleOf(ledger[k]).value.id))
  }

  predicate IsVerdictEvent(e: SealedEvent) { e.event.action == "policy.verdict" }

  function VerdictEvents(ledger: seq<SealedEvent>): seq<SealedEvent> { Filter(ledger, IsVerdictEvent) }

  /** The event carries the action and the decision of the history entry. */
  ghost predicate RecordsEntry(e: SealedEvent, h: HistoryEntry) {
    && e.event.beforeState == Some([Member("interceptedAction", ActionJson(h.action))])
    && exists from :: e.event.afterState == Some([Member("policyVerdict", VerdictJson(h.decision, from))])
  }

  /** Verdict events and the history entries after the kept ones correspond one to one, in order. */
  ghost predicate Agrees(kept: Kept, ledger: seq<SealedEvent>, history: seq<HistoryEntry>) {
    var vs := VerdictEvents(ledger);
    |history| == kept.entries + |vs| && forall i | 0 <= i < |vs| :: RecordsEntry(vs[i], history[kept.entries + i])
  }

  ghost predicate Inv(env: Env, kept: Kept, s: GatewayState) {
    && RulesOk(env, s.nextId, s.rules) && QueueOk(env, s.nextId, s.queue) && HistoryOk(env, s.nextId, s.history)
    && ValidChain(s.ledger) && Replays(kept, s.ledger, s.rules) && Agrees(kept, s.ledger, s.history)
  }

  lemma KeptFirst(env: MemoryEnv, kept: Kept, s: GatewayState)
    requires Inv(env, kept, s)
    ensures kept.rules <= |s.rules| && kept.entries <= |s.history|
  {
    hide RulesOk, QueueOk, HistoryOk, ValidChain, Versions, RuleOf;
  }

  lemma StaysSpent(env: MemoryEnv, m: nat, n: nat, id: string)
    requires m <= n && Spent(env, m, id)
    ensures Spent(env, n, id)
  {
  }

  lemma DrawKeeps(env: MemoryEnv, kept: Kept, s: GatewayState, ids: nat, readings: nat)
    requires Inv(env, kept, s)
    ensures Inv(env, kept, Drawn(s, ids, readings))
  {
    hide ValidRule, ValidAction, ValidChain, Replays, Agrees, Distinct;
    forall id | Spent(env, s.nextId, id) ensures Spent(env, s.nextId + ids, id) {
      StaysSpent(env, s.nextId, s.nextId + ids, id);
    }
  }

  // ---------------------------------------------------------------- the ledger

  lemma TailNotEmpty(chain: seq<SealedEvent>)
    requires ValidChain(chain)
    ensures TailHash(chain) != ""
  {
    hide HashEvent;
    if chain != [] { assert Good(chain, |chain| - 1); }
  }

  lemma VersionsStep(ledger: seq<SealedEvent>, e: SealedEvent, ruleId: string)
    ensures Versions(ledger + [e], ruleId) == Versions(ledger, ruleId) + (if Concerns(e, ruleId) then [RuleOf(e).value] else [])
  {
    hide Concerns, RuleOf;
    assert (ledger + [e])[..|ledger|] == ledger;
  }

  lemma ReplaysWithoutRule(kept: Kept, ledger: seq<SealedEvent>, rules: seq<Rule>, e: SealedEvent)
    requires Replays(kept, ledger, rules) && RuleOf(e) == None
    ensures Replays(kept, ledger + [e], rules)
  {
    hide RuleOf;
    forall i | 0 <= i < |rules| ensures Versions(ledger + [e], rules[i].id) == Versions(ledger, rules[i].id) {
      VersionsStep(ledger, e, rules[i].id);
    }
  }

  lemma VerdictEventsStep(ledger: seq<SealedEvent>, e: SealedEvent)
    ensures VerdictEvents(ledger + [e]) == VerdictEvents(ledger) + (if IsVerdictEvent(e) then [e] else [])
  {
    FilterConcat(ledger, [e], IsVerdictEvent);
    assert [e][1..] == [];
  }

  /** After `AppendVerdict`: the ledger has one more verdict event, for this action and decision. */
  lemma VerdictAppended(env: MemoryEnv, s: GatewayState, a: Action, d: Decision, from: Option<string>)
    requires FreshEnv(env) && ValidChain(s.ledger) && ValidAction(a)
    requires (d.sourceRuleId.Some? ==> d.sourceRuleId.value != "") && (from.Some? ==> from.value != "")
    ensures var (r, s') := AppendVerdict(env, s, a, d, from);
      && r.Ok? && s' == Drawn(s, 1, 1).(ledger := s'.ledger) && |s'.ledger| == |s.ledger| + 1
      && s'.ledger == s.ledger + [s'.ledger[|s.ledger|]]
      && ValidChain(s'.ledger)
      && (var e := s'.ledger[|s.ledger|];
          RuleOf(e) == None && IsVerdictEvent(e)
          && e.event.beforeState == Some([Member("interceptedAction", ActionJson(a))])
          && e.event.afterState == Some([Member("policyVerdict", VerdictJson(d, from))]))
  {
    hide ValidAction, IsTimestamp, ActionJson, VerdictJson, RuleOf, HashEvent, ValidChain, ValidEvent, TailHash, Good;
    var id, at := env.ids(s.nextId), env.clock(s.ticks);
    var input := VerdictEvent(env.ctx, id, at, a, d, from);
    assert a.id != "" by { ActionHasId(a); }
    TailNotEmpty(s.ledger);
    VerdictEventSeals(s.ledger, env.ctx, id, at, a, d, from);
    SealKeepsVerdicts(s.ledger, input);
    var e := Seal(s.ledger, input).value;
    RuleOfVerdictEvent(e, env.ctx, id, at, a, d, from, TailHash(s.ledger));
    hide Seal;
    assert (s.ledger + [e])[|s.ledger|] == e;
  }

  lemma ActionHasId(a: Action)
    requires ValidAction(a)
    ensures a.id != ""
  {
  }

  // ---------------------------------------------------------------- logging a verdict

  lemma AppendEntryOk(env: MemoryEnv, s: GatewayState, e: HistoryEntry)
    requires FreshEnv(env) && HistoryOk(env, s.nextId, s.history) && e.id == env.ids(s.nextId) && ValidAction(e.action)
    ensures !Has(ENTRIES, s.history, e.id) && HistoryOk(env, s.nextId + 1, s.history + [e])
  {
    hide ValidAction, IsTimestamp;
    DrawnIsSpent(env, s.nextId, s.nextId);
    forall id | Spent(env, s.nextId, id) ensures Spent(env, s.nextId + 1, id) {
      StaysSpent(env, s.nextId, s.nextId + 1, id);
    }
    DrawnIsSpent(env, s.nextId, s.nextId + 1);
  }

  lemma AgreesStep(kept: Kept, ledger: seq<SealedEvent>, history: seq<HistoryEntry>, e: SealedEvent, h: HistoryEntry)
    requires Agrees(kept, ledger, history) && IsVerdictEvent(e) && RecordsEntry(e, h)
    ensures Agrees(kept, ledger + [e], history + [h])
  {
    hide RecordsEntry, IsVerdictEvent;
    VerdictEventsStep(ledger, e);
  }

  /** Logging never fails in a fresh environment, and keeps the invariant. */
  lemma LogKeeps(env: MemoryEnv, kept: Kept, s: GatewayState, a: Action, d: Decision, from: Option<string>, remarks: Remarks)
    requires FreshEnv(env) && Inv(env, kept, s) && ValidAction(a)
    requires (d.sourceRuleId.Some? ==> d.sourceRuleId.value != "") && (from.Some? ==> from.value != "")
    ensures var (r, s') := LogVerdict(env, s, a, d, from, remarks);
      && r.Ok? && Inv(env, kept, s') && s'.nextId == s.nextId + 2
      && s' == Drawn(s, 2, 2).(ledger := s'.ledger, history := s'.history)
      && s'.history == s.history + [NewEntry(env, Drawn(s, 1, 1), a, d, remarks)]
  {
    hide ValidAction, IsTimestamp, ValidChain, AppendVerdict, RulesOk, QueueOk, HistoryOk, FreshEnv, Replays,
         Agrees, RuleOf, ActionJson, VerdictJson;
    VerdictAppended(env, s, a, d, from);
    DrawKeeps(env, kept, s, 1, 1);
    DrawKeeps(env, kept, s, 2, 2);
    var s1 := AppendVerdict(env, s, a, d, from).1;
    var h := NewEntry(env, s1, a, d, remarks);
    assert h == NewEntry(env, Drawn(s, 1, 1), a, d, remarks);
    AppendEntryOk(env, s1, h);
    var e := s1.ledger[|s.ledger|];
    ReplaysWithoutRule(kept, s.ledger, s.rules, e);
    assert RecordsEntry(e, h);
    AgreesStep(kept, s.ledger, s.history, e, h);
    hide Has, RecordsEntry, IsVerdictEvent, NewEntry;
  }

  // ---------------------------------------------------------------- storing a rule

  /** After `AppendRule`: the ledger has one more event, which records this rule. */
  lemma RuleAppended(env: MemoryEnv, s: GatewayState, rule: Rule)
    requires FreshEnv(env) && ValidChain(s.ledger) && ValidRule(rule)
    ensures var (r, s') := AppendRule(env, s, rule);
      && r.Ok? && s' == Drawn(s, 1, 1).(ledger := s'.ledger) && |s'.ledger| == |s.ledger| + 1
      && s'.ledger == s.ledger + [s'.ledger[|s.ledger|]]
      && ValidChain(s'.ledger)
      && RuleOf(s'.ledger[|s.ledger|]) == Some(rule) && !IsVerdictEvent(s'.ledger[|s.ledger|])
  {
    hide ValidRule, IsTimestamp, RuleOf, HashEvent, ValidChain, ValidEvent, TailHash, Good, RuleJson;
    var id, at := env.ids(s.nextId), env.clock(s.ticks);
    var input := RuleEvent(env.ctx, id, at, rule);
    TailNotEmpty(s.ledger);
    RuleEventSeals(s.ledger, env.ctx, id, at, rule);
    SealKeepsVerdicts(s.ledger, input);
    var e := Seal(s.ledger, input).value;
    RuleOfRuleEvent(e, env.ctx, id, at, rule, TailHash(s.ledger));
    hide Seal;
    assert (s.ledger + [e])[|s.ledger|] == e;
  }

  /** `rules'` is `rules` with `r` stored last, new or in place of the last one, which has its id. */
  ghost predicate Stored(rules: seq<Rule>, rules': seq<Rule>, r: Rule) {
    && rules' != []
    && (var n := |rules'| - 1;
        && rules'[n] == r && n <= |rules| <= n + 1 && rules'[..n] == rules[..n]
        && (forall i | 0 <= i < n :: rules'[i].id != r.id)
        && (|rules| > n ==> rules[n].id == r.id))
  }

  lemma ReplaysWithRule(kept: Kept, ledger: seq<SealedEvent>, rules: seq<Rule>, rules': seq<Rule>, e: SealedEvent, r: Rule)
    requires Replays(kept, ledger, rules) && RuleOf(e) == Some(r) && r.supersedesId.None? && Stored(rules, rules', r)
    requires kept.rules < |rules'|
    ensures Replays(kept, ledger + [e], rules')
  {
    hide RuleOf;
    var n := |rules'| - 1;
    forall i | 0 <= i < |rules'|
      ensures Versions(ledger + [e], rules'[i].id) == Versions(ledger, rules'[i].id) + (if i == n then [r] else [])
      ensures i < n ==> rules'[i] == rules[i]
    {
      VersionsStep(ledger, e, rules'[i].id);
      if i < n { assert rules'[..n][i] == rules[..n][i]; }
    }
    forall k | 0 <= k < |ledger + [e]| && RuleOf((ledger + [e])[k]).Some?
      ensures var q := RuleOf((ledger + [e])[k]).value; q.supersedesId.None? && Has(RULES, rules', q.id)
    {
      if k < |ledger| {
        var q := RuleOf(ledger[k]).value;
        var j := Find(RULES, rules, q.id);
        assert rules[j].id == q.id && rules'[j].id == q.id;
        assert Find(RULES, rules', q.id) <= j;
      } else {
        assert Find(RULES, rules', r.id) <= n;
      }
    }
  }

  lemma StoreKeeps(env: MemoryEnv, kept: Kept, s: GatewayState, call: RuleCall, rule: Rule, rules': seq<Rule>)
    requires FreshEnv(env) && Inv(env, kept, s) && ValidRule(rule) && rule.supersedesId.None?
    requires OnRules(InMemory, s.rules, call) == (Done, rules') && RulesOk(env, s.nextId, rules') && Stored(s.rules, rules', rule)
    requires kept.rules < |rules'|
    ensures var (r, s') := StoreRule(env, s, call, rule);
      r.Ok? && Inv(env, kept, s') && s' == Drawn(s, 1, 1).(ledger := s'.ledger, rules := rules')
  {
    hide FreshEnv, ValidRule, ValidChain, AppendRule, OnRules, RuleOf, Replays, Agrees, Stored, QueueOk, HistoryOk,
         RulesOk;
    var s1 := s.(rules := rules');
    RuleAppended(env, s1, rule);
    var s' := AppendRule(env, s1, rule).1;
    var e := s'.ledger[|s.ledger|];
    ReplaysWithRule(kept, s.ledger, s.rules, rules', e, rule);
    NotVerdictAgrees(kept, s.ledger, s.history, e);
    hide IsVerdictEvent;
    KindsGrow(env, s, rules');
  }

  lemma NotVerdictAgrees(kept: Kept, ledger: seq<SealedEvent>, history: seq<HistoryEntry>, e: SealedEvent)
    requires Agrees(kept, ledger, history) && !IsVerdictEvent(e)
    ensures Agrees(kept, ledger + [e], history)
  {
    hide RecordsEntry, IsVerdictEvent;
    VerdictEventsStep(ledger, e);
  }

  lemma KindsGrow(env: MemoryEnv, s: GatewayState, rules: seq<Rule>)
    requires RulesOk(env, s.nextId, rules) && QueueOk(env, s.nextId, s.queue) && HistoryOk(env, s.nextId, s.history)
    ensures RulesOk(env, s.nextId + 1, rules) && QueueOk(env, s.nextId + 1, s.queue) && HistoryOk(env, s.nextId + 1, s.history)
  {
    hide ValidRule, ValidAction, Distinct;
    forall id | Spent(env, s.nextId, id) ensures Spent(env, s.nextId + 1, id) {
      StaysSpent(env, s.nextId, s.nextId + 1, id);
    }
  }

  lemma HasSpent(env: MemoryEnv, n: nat, rules: seq<Rule>, id: string)
    requires RulesOk(env, n, rules) && Has(RULES, rules, id)
    ensures Spent(env, n, id)
  {
  }

  lemma PutKeeps(env: MemoryEnv, kept: Kept, s: GatewayState, rule: Rule)
    requires FreshEnv(env) && Inv(env, kept, s) && ValidRule(rule) && rule.supersedesId.None?
    requires Spent(env, s.nextId, rule.id) && !Has(RULES, s.rules, rule.id)
    ensures var (r, s') := StoreRule(env, s, PutRule(rule), rule);
      r.Ok? && Inv(env, kept, s') && s' == Drawn(s, 1, 1).(ledger := s'.ledger, rules := s.rules + [rule])
  {
    var rules' := s.rules + [rule];
    hide FreshEnv, ValidRule, ValidChain, Replays, Agrees, Spent, StoreRule;
    assert Stored(s.rules, rules', rule) by { PutStored(s.rules, rule); }
    KeptFirst(env, kept, s);
    StoreKeeps(env, kept, s, PutRule(rule), rule, rules');
  }

  lemma PutStored(rules: seq<Rule>, r: Rule)
    requires Distinct(RULES, rules) && !Has(RULES, rules, r.id)
    ensures Stored(rules, rules + [r], r)
  {
    var rules' := rules + [r];
    assert rules'[..|rules|] == rules;
    forall i | 0 <= i < |rules| ensures rules'[i].id != r.id { assert rules'[i] == rules[i]; }
  }

  /** Updating the rule put last replaces it in place. */
  lemma ActivateKeeps(env: MemoryEnv, kept: Kept, s: GatewayState, front: seq<Rule>, proposed: Rule)
    requires FreshEnv(env) && Inv(env, kept, s) && s.rules == front + [proposed]
    requires ValidRule(proposed) && proposed.supersedesId.None? && kept.rules <= |front|
    ensures var active := proposed.(status := Active);
      var (r, s') := StoreRule(env, s, UpdateRule(active), active);
      r.Ok? && Inv(env, kept, s') && s' == Drawn(s, 1, 1).(ledger := s'.ledger, rules := front + [active])
  {
    var active := proposed.(status := Active);
    var rules' := front + [active];
    assert ValidRule(active);
    hide FreshEnv, ValidRule, ValidChain, Replays, Agrees, Spent, StoreRule, HistoryOk, QueueOk, OnRules, RulesOk;
    ActivatedOk(env, s.nextId, front, proposed);
    StoreKeeps(env, kept, s, UpdateRule(active), active, rules');
  }

  lemma ActivatedOk(env: MemoryEnv, n: nat, front: seq<Rule>, proposed: Rule)
    requires RulesOk(env, n, front + [proposed])
    ensures var active := proposed.(status := Active);
      var rules, rules' := front + [proposed], front + [active];
      && RulesOk(env, n, rules') && Stored(rules, rules', active)
      && (ValidRule(active) ==> OnRules(InMemory, rules, UpdateRule(active)) == (Done, rules'))
  {
    var active := proposed.(status := Active);
    var rules, rules' := front + [proposed], front + [active];
    assert ValidRule(proposed) && ValidRule(active) by { assert rules[|front|] == proposed; }
    hide ValidRule, Spent;
    assert rules[|front|] == proposed;
    FindUnique(RULES, rules, |front|);
    assert Replace(RULES, rules, active) == rules';
    assert Distinct(RULES, rules');
    LastStored(front, proposed, active);
    forall i | 0 <= i < |rules'| ensures ValidRule(rules'[i]) && Spent(env, n, rules'[i].id) {
      assert rules[i].id == rules'[i].id && ValidRule(rules[i]);
    }
  }

  lemma LastStored(front: seq<Rule>, old_: Rule, r: Rule)
    requires Distinct(RULES, front + [old_]) && old_.id == r.id
    ensures Stored(front + [old_], front + [r], r)
  {
    var rules, rules' := front + [old_], front + [r];
    assert rules'[..|front|] == front == rules[..|front|];
    forall i | 0 <= i < |front| ensures rules'[i].id != r.id {
      assert rules[i] == rules'[i] && RULES.id(rules[i]) != RULES.id(rules[|front|]);
    }
  }

  // ---------------------------------------------------------------- decisions

  lemma DecisionOk(env: MemoryEnv, s: GatewayState, a: Action, mode: Mode)
    requires RulesOk(env, s.nextId, s.rules) && ValidAction(a)
    ensures DecideNow(s, a, mode) == Decide(a, ActiveRulesOf(s.rules), mode, s.scope)
    ensures var d := DecideNow(s, a, mode);
      d.source != Operator && (d.sourceRuleId.Some? ==> d.sourceRuleId.value != "")
    ensures DistinctIds(ActiveRulesOf(s.rules))
    ensures forall r :: r in ActiveRulesOf(s.rules) <==> r in s.rules && r.status == Active
  {
    ActiveRulesMembers(s.rules);
    ActiveRulesDistinct(s.rules);
    hide ActiveRulesOf, ValidAction, EvaluateScope, Matches, Spent;
    var active := ActiveRulesOf(s.rules);
    assert ValidRules(active) by {
      forall r | r in active ensures ValidRule(r) {
        var i :| 0 <= i < |s.rules| && s.rules[i] == r;
      }
    }
    hide ValidRule, ValidRules, Decide, DecideFromStore, DistinctIds;
    StoredRulesDecide(a, active, mode, s.scope);
  }
}
