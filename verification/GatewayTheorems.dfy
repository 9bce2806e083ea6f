/**
 What holds of every session of the intercept gateway, over empty stores or kept ones
 (packages/integrations/intercept-gateway/src/gateway.ts).
 */
module GatewayTheorems {
  import opened Prelude
  import opened Sorting
  import opened KeyedStores
  import opened CanonicalJson
  import opened AuditEvents
  import opened AuditLedgers
  import opened PolicyEngine
  import opened PolicyStores
  import opened ProxyHistories
  import opened PolicyAudit
  import opened VerdictRecords
  import opened CompileCorrection
  import opened MatchReplace
  import opened GatewaySteps
  import opened GatewayCoverage
  import opened GatewayInvariants
  import opened GatewayRuns

  // ---------------------------------------------------------------- the ledger is the source of truth

  lemma {:induction false} NoVersions(ledger: seq<SealedEvent>, ruleId: string)
    requires forall k | 0 <= k < |ledger| :: !Concerns(ledger[k], ruleId)
    ensures Versions(ledger, ruleId) == []
  {
    hide Concerns;
    if ledger != [] { NoVersions(ledger[..|ledger| - 1], ruleId); }
  }

  /** Reconstruction gives a history that ends in the stored version, or finds nothing for an id that is not stored. */
  predicate EndsInStored(replay: Result<RuleLifecycle, ReplayError>, stored: Option<Rule>, ruleId: string) {
    match stored
    case None => replay == Err(NoEvents(ruleId))
    case Some(r) =>
      && replay.Ok? && replay.value.versions != []
      && replay.value.versions[|replay.value.versions| - 1] == r && replay.value.currentStatus == r.status
  }

  /** The rule a store holds under an id that the kept rules do not use. */
  function LaterRule(kept: seq<Rule>, rules: seq<Rule>, id: string): Option<Rule> {
    if Has(RULES, kept, id) then None else Lookup(RULES, rules, id)
  }

  lemma ReplayEnds(kept: Kept, ledger: seq<SealedEvent>, rules: seq<Rule>, ruleId: string)
    requires ValidChain(ledger) && Replays(kept, ledger, rules) && Distinct(RULES, rules)
    ensures EndsInStored(ReconstructRule(ledger, ruleId), LaterRule(rules[..kept.rules], rules, ruleId), ruleId)
    ensures Has(RULES, rules[..kept.rules], ruleId) ==>
      Lookup(RULES, rules, ruleId) == Lookup(RULES, rules[..kept.rules], ruleId)
  {
    hide ValidChain, RuleOf, Versions, Timeline;
    var front := rules[..kept.rules];
    if Has(RULES, front, ruleId) {
      var i := Find(RULES, front, ruleId);
      assert rules[i] == front[i];
      FindUnique(RULES, rules, i);
    } else if !Has(RULES, rules, ruleId) {
      forall k | 0 <= k < |ledger| ensures !Concerns(ledger[k], ruleId) {
        var r := RuleOf(ledger[k]);
        assert r.Some? ==> Has(RULES, rules, r.value.id);
      }
      NoVersions(ledger, ruleId);
    } else {
      LaterIndex(rules, kept.rules, ruleId);
    }
  }

  lemma LaterIndex(rules: seq<Rule>, n: nat, id: string)
    requires n <= |rules| && Has(RULES, rules, id) && !Has(RULES, rules[..n], id)
    ensures Find(RULES, rules, id) >= n
  {
    forall i | 0 <= i < n ensures RULES.id(rules[i]) != id { assert rules[..n][i] == rules[i]; }
  }

  /**
   Whatever the stores held when the session began, its ledger alone gives back exactly the stored
   version of each rule it stored, and nothing for any other id; and the kept rules are as they were.
   */
  lemma LedgerReplaysStore(env: MemoryEnv, s0: GatewayState, calls: seq<Call>, ruleId: string)
    requires FreshEnv(env) && Begins(env, s0)
    ensures var s := Run(env, s0, calls);
      && EndsInStored(ReconstructRule(s.ledger, ruleId), LaterRule(s0.rules, s.rules, ruleId), ruleId)
      && (Has(RULES, s0.rules, ruleId) ==> Lookup(RULES, s.rules, ruleId) == Lookup(RULES, s0.rules, ruleId))
  {
    hide FreshEnv, Begins, Run, EndsInStored, ReconstructRule, Lookup, Has, Replays, ValidChain, QueueOk, HistoryOk, Agrees;
    SessionKeeps(env, s0, calls);
    var s := Run(env, s0, calls);
    assert s.rules[..|s0.rules|] == s0.rules;
    ReplayEnds(KeptIn(s0), s.ledger, s.rules, ruleId);
  }

  /** The event records the action and the decision of the history entry. */
  ghost predicate TellsEntry(e: SealedEvent, h: HistoryEntry) {
    exists from :: RecordOf(e) == Some(Recording(h.action, h.decision, from))
  }

  /** Verdict events and the entries recorded in the session correspond one to one, in order, in action and decision. */
  lemma LedgerFollowsHistory(env: MemoryEnv, s0: GatewayState, calls: seq<Call>)
    requires FreshEnv(env) && Begins(env, s0)
    ensures var s := Run(env, s0, calls);
      && |s.history| == |s0.history| + |VerdictEvents(s.ledger)|
      && forall i | 0 <= i < |VerdictEvents(s.ledger)| :: TellsEntry(VerdictEvents(s.ledger)[i], s.history[|s0.history| + i])
  {
    hide FreshEnv, Begins, Run, ValidChain, RulesOk, QueueOk, HistoryOk, Replays, VerdictEvents, TellsEntry;
    SessionKeeps(env, s0, calls);
    var s := Run(env, s0, calls);
    forall i | 0 <= i < |VerdictEvents(s.ledger)| ensures TellsEntry(VerdictEvents(s.ledger)[i], s.history[|s0.history| + i]) {
      EventIsVerdict(s.ledger, i);
      EntryRead(VerdictEvents(s.ledger)[i], s.history[|s0.history| + i]);
    }
  }

  lemma EventIsVerdict(ledger: seq<SealedEvent>, i: nat)
    requires i < |VerdictEvents(ledger)|
    ensures VerdictEvents(ledger)[i].event.action == "policy.verdict"
  {
    var j := FilterIndex(ledger, IsVerdictEvent, i);
  }

  lemma EntryRead(e: SealedEvent, h: HistoryEntry)
    requires RecordsEntry(e, h) && e.event.action == "policy.verdict"
    ensures TellsEntry(e, h)
  {
    hide ActionJson, VerdictJson, RecordOf, Recording;
    var from :| e.event.afterState == Some([Member("policyVerdict", VerdictJson(h.decision, from))]);
    SnapshotsRecord(e, h.action, h.decision, from);
  }

  // ---------------------------------------------------------------- learned coverage

  lemma InvStore(env: MemoryEnv, kept: Kept, s: GatewayState)
    requires Inv(env, kept, s)
    ensures Distinct(RULES, s.rules) && AllValid(s.rules)
  {
    hide ValidRule, QueueOk, HistoryOk, ValidChain, Replays, Agrees, Spent, Distinct;
  }

  /** In every session a forward of a pending item goes through, so what `LearnedCoverage` says follows it. */
  lemma ForwardsAreLearned(
    env: MemoryEnv, s0: GatewayState, before: seq<Call>, input: OperatorInput, after: seq<Call>, mode: Mode)
    requires FreshEnv(env) && Begins(env, s0) && input.approve && Careful(input)
    requires Lookup(ITEMS, Run(env, s0, before).queue, input.queueId).Some?
    ensures var s := Run(env, s0, before);
      var a := input.editedAction.GetOr(Lookup(ITEMS, s.queue, input.queueId).value.action);
      var later := Run(env, OperatorStep(env, s, input).1, after);
      InScope(a, later.scope) ==> DecideNow(later, a, mode).source == Policy
  {
    hide Begins, Inv, FreshEnv, Run, OperatorStep, InScope, ApprovalScopeFor, OneMoreEntry, NoneAllows,
         DecideNow, Careful, RulesOk, AllValid, Distinct;
    SessionKeeps(env, s0, before);
    var s := Run(env, s0, before);
    InvStore(env, KeptIn(s0), s);
    OperatorKeeps(env, KeptIn(s0), s, input);
    LearnedCoverage(env, s, input, after, mode);
  }

  // ---------------------------------------------------------------- queue items are conserved

  predicate IsOperatorEntry(e: HistoryEntry) { e.queueId.Some? && e.decision.source == Operator }
  predicate IsAskEntry(e: HistoryEntry) { e.queueId.Some? && e.decision.source != Operator }

  /** An operator's verdict on the queue id. */
  function VerdictOn(id: string): HistoryEntry -> bool {
    (e: HistoryEntry) => IsOperatorEntry(e) && e.queueId == Some(id)
  }

  /** An ask that was queued under the id. */
  function AskedAs(id: string): HistoryEntry -> bool { (e: HistoryEntry) => IsAskEntry(e) && e.queueId == Some(id) }

  function Verdicts(history: seq<HistoryEntry>, id: string): nat { |Filter(history, VerdictOn(id))| }

  function Asks(history: seq<HistoryEntry>, id: string): nat { |Filter(history, AskedAs(id))| }

  function Waiting(queue: seq<QueuedIntercept>, id: string): nat { if Has(ITEMS, queue, id) then 1 else 0 }

  /** The asks queued under an id that are neither pending nor answered. */
  function Lost(s: GatewayState, id: string): int {
    Asks(s.history, id) - Waiting(s.queue, id) - Verdicts(s.history, id)
  }

  /** No ask got lost on the way, and none came back. */
  ghost predicate LosesNone(s: GatewayState, s': GatewayState) { forall id :: Lost(s', id) == Lost(s, id) }

  /** None came back. */
  ghost predicate FindsNone(s: GatewayState, s': GatewayState) { forall id :: Lost(s', id) >= Lost(s, id) }

  /** No id has both a pending item and a verdict, or two verdicts; an id still to be drawn has neither. */
  ghost predicate AtMostOnce(env: Env, s: GatewayState) {
    forall id :: Waiting(s.queue, id) + Verdicts(s.history, id) <= (if Spent(env, s.nextId, id) then 1 else 0)
  }

  lemma OneMore(history: seq<HistoryEntry>, history': seq<HistoryEntry>, id: string)
    requires |history'| == |history| + 1 && history'[..|history|] == history
    ensures var e := history'[|history|];
      && Verdicts(history', id) == Verdicts(history, id) + (if IsOperatorEntry(e) && e.queueId == Some(id) then 1 else 0)
      && Asks(history', id) == Asks(history, id) + (if IsAskEntry(e) && e.queueId == Some(id) then 1 else 0)
  {
    var e := history'[|history|];
    assert history' == history + [e];
    FilterStep(history, e, VerdictOn(id));
    FilterStep(history, e, AskedAs(id));
  }

  lemma OutcomeCounts(history: seq<HistoryEntry>, o: ProxyOutcome, id: string)
    ensures Verdicts(Map(history, SetOutcome(o)), id) == Verdicts(history, id)
    ensures Asks(Map(history, SetOutcome(o)), id) == Asks(history, id)
  {
    MappedCount(history, SetOutcome(o), VerdictOn(id));
    MappedCount(history, SetOutcome(o), AskedAs(id));
  }

  lemma {:induction false} MappedCount<T(!new)>(xs: seq<T>, f: T -> T, keep: T -> bool)
    requires forall x :: keep(f(x)) == keep(x)
    ensures |Filter(Map(xs, f), keep)| == |Filter(xs, keep)|
  {
    if xs != [] {
      MappedCount(xs[1..], f, keep);
      assert Map(xs, f)[1..] == Map(xs[1..], f);
    }
  }

  lemma WaitingWithout(queue: seq<QueuedIntercept>, removed: string, id: string)
    ensures Waiting(Without(ITEMS, queue, removed), id) == if id == removed then 0 else Waiting(queue, id)
  {
    var rest := Without(ITEMS, queue, removed);
    if Has(ITEMS, rest, id) {
      var i := FilterIndex(queue, NotKeyed(ITEMS, removed), Find(ITEMS, rest, id));
      assert Find(ITEMS, queue, id) <= i;
    }
    if Has(ITEMS, queue, id) && id != removed { KeptOther(queue, removed, Find(ITEMS, queue, id)); }
  }

  lemma {:induction false} KeptOther(queue: seq<QueuedIntercept>, removed: string, i: nat)
    requires i < |queue| && queue[i].id != removed
    ensures Has(ITEMS, Without(ITEMS, queue, removed), queue[i].id)
  {
    if i > 0 {
      KeptOther(queue[1..], removed, i - 1);
      var rest := Without(ITEMS, queue[1..], removed);
      if queue[0].id != removed { assert ([queue[0]] + rest)[1..] == rest; }
    }
  }

  lemma WaitingAdded(queue: seq<QueuedIntercept>, item: QueuedIntercept, id: string)
    requires !Has(ITEMS, queue, item.id)
    ensures Waiting(queue + [item], id) == Waiting(queue, id) + (if id == item.id then 1 else 0)
  {
    var queue' := queue + [item];
    if id == item.id {
      assert queue'[|queue|].id == id;
      assert Find(ITEMS, queue', id) <= |queue|;
    } else if Has(ITEMS, queue, id) {
      assert queue'[Find(ITEMS, queue, id)].id == id;
      assert Find(ITEMS, queue', id) <= Find(ITEMS, queue, id);
    } else {
      forall i | 0 <= i < |queue'| ensures queue'[i].id != id {
        if i < |queue| { assert queue'[i] == queue[i]; }
      }
    }
  }

  /** Nothing moved: queue and history are as before, apart from outcomes and unqueued entries. */
  lemma QuietStep(env: MemoryEnv, s: GatewayState, s': GatewayState)
    requires s'.queue == s.queue && s'.nextId >= s.nextId
    requires forall id :: Asks(s'.history, id) == Asks(s.history, id) && Verdicts(s'.history, id) == Verdicts(s.history, id)
    ensures LosesNone(s, s')
    ensures AtMostOnce(env, s) ==> AtMostOnce(env, s')
  {
    hide Has, Asks, Verdicts;
    forall id | Spent(env, s.nextId, id) ensures Spent(env, s'.nextId, id) {
      StaysSpent(env, s.nextId, s'.nextId, id);
    }
  }

  lemma NewItem(env: MemoryEnv, s: GatewayState)
    requires FreshEnv(env) && QueueOk(env, s.nextId, s.queue)
    ensures !Has(ITEMS, s.queue, env.ids(s.nextId)) && !Spent(env, s.nextId, env.ids(s.nextId))
  {
    DrawnIsSpent(env, s.nextId, s.nextId);
  }

  /** One entry was recorded, and its ask, if it is one, was queued under a new id. */
  lemma AskedStep(env: MemoryEnv, s: GatewayState, s': GatewayState, item: Option<QueuedIntercept>)
    requires FreshEnv(env)
    requires s'.nextId >= s.nextId && |s'.history| == |s.history| + 1 && s'.history[..|s.history|] == s.history
    requires s'.queue == s.queue + (if item.Some? then [item.value] else [])
    requires s'.history[|s.history|].decision.source != Operator
    requires s'.history[|s.history|].queueId == if item.Some? then Some(item.value.id) else None
    requires item.Some? ==>
      s'.nextId > s.nextId && item.value.id == env.ids(s.nextId) && !Has(ITEMS, s.queue, item.value.id) && !Spent(env, s.nextId, item.value.id)
    ensures LosesNone(s, s') && (AtMostOnce(env, s) ==> AtMostOnce(env, s'))
  {
    hide Has, Spent, Asks, Verdicts, Waiting, AtMostOnce;
    var e := s'.history[|s.history|];
    forall id ensures Asks(s'.history, id) == Asks(s.history, id) + (if e.queueId == Some(id) then 1 else 0)
                      && Verdicts(s'.history, id) == Verdicts(s.history, id) {
      OneMore(s.history, s'.history, id);
    }
    if item.None? {
      QuietStep(env, s, s');
    } else {
      forall id ensures Waiting(s'.queue, id) == Waiting(s.queue, id) + (if id == item.value.id then 1 else 0) {
        WaitingAdded(s.queue, item.value, id);
      }
      MovedIds(env, s, s', item.value.id);
    }
  }

  lemma JudgeConserves(env: MemoryEnv, kept: Kept, s: GatewayState, p: Prepared)
    requires FreshEnv(env) && Inv(env, kept, s) && ValidAction(p.action)
    ensures var s' := Judge(env, s, p).1;
      LosesNone(s, s') && (AtMostOnce(env, s) ==> AtMostOnce(env, s'))
  {
    hide FreshEnv, Inv, Judge, DecideNow, ValidAction, RulesOk, HistoryOk, QueueOk, Replays, Agrees, ValidChain,
         LosesNone, AtMostOnce, Has, Spent;
    JudgeKeeps(env, kept, s, p);
    JudgeDraws(env, s, p);
    assert QueueOk(env, s.nextId, s.queue) by { InvRules(env, kept, s); }
    NewItem(env, s);
    AskedStep(env, s, Judge(env, s, p).1,
              if DecideNow(s, p.action, s.mode).verdict == Ask
              then Some(QueuedIntercept(env.ids(s.nextId), p.action, env.clock(s.ticks))) else None);
  }

  lemma JudgeDraws(env: MemoryEnv, s: GatewayState, p: Prepared)
    ensures var s' := Judge(env, s, p).1; s'.nextId >= s.nextId
    ensures DecideNow(s, p.action, s.mode).verdict == Ask ==> Judge(env, s, p).1.nextId > s.nextId
  {
    hide DecideNow, ValidAction, Seal, OnHistory, OnQueue;
  }

  /** One id was queued, and was not issued before. */
  lemma MovedIds(env: MemoryEnv, s: GatewayState, s': GatewayState, queued: string)
    requires FreshEnv(env)
    requires s'.nextId > s.nextId && queued == env.ids(s.nextId) && !Spent(env, s.nextId, queued)
    requires forall id :: Waiting(s'.queue, id) == Waiting(s.queue, id) + (if id == queued then 1 else 0)
    requires forall id :: Asks(s'.history, id) == Asks(s.history, id) + (if id == queued then 1 else 0)
    requires forall id :: Verdicts(s'.history, id) == Verdicts(s.history, id)
    ensures LosesNone(s, s')
    ensures AtMostOnce(env, s) ==> AtMostOnce(env, s')
  {
    hide Has, Asks, Verdicts, Waiting;
    forall id | Spent(env, s.nextId, id) ensures Spent(env, s'.nextId, id) {
      StaysSpent(env, s.nextId, s'.nextId, id);
    }
    DrawnIsSpent(env, s.nextId, s'.nextId);
    if AtMostOnce(env, s) {
      assert Waiting(s.queue, queued) + Verdicts(s.history, queued) <= 0;
    }
  }

  /** A verdict on a pending item that the gateway cannot act on. */
  predicate LosesAsk(s: GatewayState, input: OperatorInput) {
    Lookup(ITEMS, s.queue, input.queueId).Some? && !Careful(input)
  }

  /** The exact account: a verdict loses one ask, the pending one it names, exactly if the gateway cannot act on the input. */
  lemma OperatorConserves(env: MemoryEnv, kept: Kept, s: GatewayState, input: OperatorInput)
    requires FreshEnv(env) && Inv(env, kept, s)
    ensures var s' := OperatorStep(env, s, input).1;
      && (AtMostOnce(env, s) ==> AtMostOnce(env, s'))
      && forall id :: Lost(s', id) == Lost(s, id) + (if LosesAsk(s, input) && id == input.queueId then 1 else 0)
  {
    hide FreshEnv, Inv, OperatorStep, Asks, Verdicts, Waiting, Careful, NoneAllows, ApprovalScopeFor, Without;
    OperatorKeeps(env, kept, s, input);
    OperatorDraws(env, s, input);
    var s', q := OperatorStep(env, s, input).1, input.queueId;
    forall id ensures Waiting(s'.queue, id) == if id == q then 0 else Waiting(s.queue, id) {
      WaitingWithout(s.queue, q, id);
    }
    if Lookup(ITEMS, s.queue, q).Some? {
      assert Waiting(s.queue, q) == 1 by { HasWaits(s.queue, q); }
      if Careful(input) {
        forall id ensures Asks(s'.history, id) == Asks(s.history, id)
                          && Verdicts(s'.history, id) == Verdicts(s.history, id) + (if id == q then 1 else 0) {
          OneMore(s.history, s'.history, id);
        }
      }
      RemovedId(env, s, s', q, Careful(input));
    }
  }

  lemma HasWaits(queue: seq<QueuedIntercept>, id: string)
    requires Lookup(ITEMS, queue, id).Some?
    ensures Waiting(queue, id) == 1
  {
  }

  lemma RemovedId(env: MemoryEnv, s: GatewayState, s': GatewayState, removed: string, logged: bool)
    requires s'.nextId >= s.nextId && Waiting(s.queue, removed) == 1
    requires forall id :: Waiting(s'.queue, id) == if id == removed then 0 else Waiting(s.queue, id)
    requires forall id :: Asks(s'.history, id) == Asks(s.history, id)
    requires forall id :: Verdicts(s'.history, id) == Verdicts(s.history, id) + (if logged && id == removed then 1 else 0)
    ensures AtMostOnce(env, s) ==> AtMostOnce(env, s')
    ensures forall id :: Lost(s', id) == Lost(s, id) + (if !logged && id == removed then 1 else 0)
  {
    hide Has, Asks, Verdicts, Waiting;
    forall id | Spent(env, s.nextId, id) ensures Spent(env, s'.nextId, id) {
      StaysSpent(env, s.nextId, s'.nextId, id);
    }
  }

  lemma OperatorDraws(env: MemoryEnv, s: GatewayState, input: OperatorInput)
    ensures OperatorStep(env, s, input).1.nextId >= s.nextId
  {
    hide ValidAction, Approve, Disapprove, OnQueue, Lookup;
    var item := Lookup(ITEMS, s.queue, input.queueId);
    var s0 := s.(queue := OnQueue(env.medium, s.queue, Remove(input.queueId)).1);
    if item.Some? {
      var action := input.editedAction.GetOr(item.value.action);
      var original := if input.editedAction.Some? then Some(item.value.action) else None;
      ApproveDraws(env, s0, action, original, input);
      DisapproveDraws(env, s0, action, original, input);
    }
  }

  lemma LogDraws(env: MemoryEnv, s: GatewayState, a: Action, d: Decision, from: Option<string>, remarks: Remarks)
    ensures LogVerdict(env, s, a, d, from, remarks).1.nextId >= s.nextId
  {
    hide ValidAction, Seal, OnHistory, VerdictEvent, NewEntry;
  }

  lemma StoreDraws(env: MemoryEnv, s: GatewayState, call: RuleCall, r: Rule)
    ensures StoreRule(env, s, call, r).1.nextId >= s.nextId
  {
    hide ValidRule, Seal, OnRules, RuleEvent;
  }

  lemma ApproveDraws(env: MemoryEnv, s: GatewayState, a: Action, original: Option<Action>, input: OperatorInput)
    ensures Approve(env, s, a, original, input).1.nextId >= s.nextId
  {
    hide LogVerdict, StoreRule, ValidRule, ValidCorrection, ApprovalRule, ApprovalText;
    var correctionId := env.ids(s.nextId);
    var remarks := Remarks(Some(input.queueId), original, [], Some(["intercept.forward"]));
    LogDraws(env, Drawn(s, 1, 1), a, APPROVED, Some(correctionId), remarks);
    var s1 := LogVerdict(env, Drawn(s, 1, 1), a, APPROVED, Some(correctionId), remarks).1;
    var rule := ApprovalRule(env, s1, a, correctionId);
    StoreDraws(env, Drawn(s1, 2, 2), PutRule(rule), rule);
  }

  lemma {:induction false} ProposalsDraw(env: MemoryEnv, s: GatewayState, proposals: seq<Rule>, activate: bool)
    ensures StoreProposals(env, s, proposals, activate).1.nextId >= s.nextId
    decreases |proposals|
  {
    hide StoreRule;
    if proposals != [] {
      var p := proposals[0];
      StoreDraws(env, s, PutRule(p), p);
      StoreDraws(env, StoreRule(env, s, PutRule(p), p).1, UpdateRule(p.(status := Active)), p.(status := Active));
      hide StoreProposal;
      ProposalsDraw(env, StoreProposal(env, s, p, activate).1, proposals[1..], activate);
    }
  }

  lemma DisapproveDraws(env: MemoryEnv, s: GatewayState, a: Action, original: Option<Action>, input: OperatorInput)
    ensures Disapprove(env, s, a, original, input).1.nextId >= s.nextId
  {
    hide LogVerdict, StoreProposals, Compile, ValidCorrection;
    var correctionId := env.ids(s.nextId);
    var denied := Disapproved(input.reason);
    var remarks := Remarks(Some(input.queueId), original, [], Some(["intercept.drop"]));
    LogDraws(env, Drawn(s, 1, 1), a, denied, Some(correctionId), remarks);
    var s1 := LogVerdict(env, Drawn(s, 1, 1), a, denied, Some(correctionId), remarks).1;
    CompiledCounters(env, s1, env.phrases(input.reason), Some(a), correctionId);
    var c := Compile(env.phrases(input.reason), Some(a), correctionId, env.ids, env.clock, s1.nextId, s1.ticks);
    if c.rules.Some? { ProposalsDraw(env, s1.(nextId := c.nextId, ticks := c.ticks), c.rules.value, input.activate); }
  }

  lemma {:induction false} OperatorsConserve(env: MemoryEnv, kept: Kept, s: GatewayState, inputs: seq<OperatorInput>)
    requires FreshEnv(env) && Inv(env, kept, s)
    ensures var s' := OperatorSteps(env, s, inputs).1;
      && (AtMostOnce(env, s) ==> AtMostOnce(env, s'))
      && FindsNone(s, s') && ((forall i | 0 <= i < |inputs| :: Careful(inputs[i])) ==> LosesNone(s, s'))
    decreases |inputs|
  {
    hide FreshEnv, Inv, OperatorStep, Careful, Lookup, OperatorEffect, AtMostOnce, Lost;
    if inputs != [] {
      OperatorKeeps(env, kept, s, inputs[0]);
      OperatorConserves(env, kept, s, inputs[0]);
      OperatorsConserve(env, kept, OperatorStep(env, s, inputs[0]).1, inputs[1..]);
    }
  }

  /** The calls whose operator inputs the gateway can act on. */
  predicate CarefulCall(call: Call) {
    (call.CallOperator? ==> Careful(call.verdict)) && (call.CallDropAll? ==> call.dropReason != "")
  }

  predicate AllCareful(calls: seq<Call>) { forall i | 0 <= i < |calls| :: CarefulCall(calls[i]) }

  lemma StepConserves(env: MemoryEnv, kept: Kept, s: GatewayState, call: Call)
    requires FreshEnv(env) && Inv(env, kept, s)
    ensures AtMostOnce(env, s) ==> AtMostOnce(env, Step(env, s, call))
    ensures FindsNone(s, Step(env, s, call)) && (CarefulCall(call) ==> LosesNone(s, Step(env, s, call)))
  {
    hide FreshEnv, Inv, Judge, OperatorSteps, OutcomeStep, RepeaterStep, OperatorStep, ValidAction, Prepare,
         Lookup, Careful, AtMostOnce, Lost, Asks, Verdicts, PendingItems;
    match call
    case CallIntercept(a) =>
      if ValidAction(a) {
        var p := Prepare(s, a, true);
        if p.Ok? {
          PreparedIsValid(s, a, true);
          JudgeConserves(env, kept, s, p.value);
        }
      }
    case CallRepeater(input) =>
      RepeaterKeeps(env, kept, s, input);
      RepeaterDraws(env, s, input);
      var s' := RepeaterStep(env, s, input).1;
      forall id ensures Asks(s'.history, id) == Asks(s.history, id) && Verdicts(s'.history, id) == Verdicts(s.history, id) {
        if s' != s { OneMore(s.history, s'.history, id); }
      }
      QuietStep(env, s, s');
    case CallOperator(input) => OperatorConserves(env, kept, s, input);
    case CallForwardAll(reason) =>
      assert forall i | 0 <= i < |ForwardInputs(s, reason)| :: Careful(ForwardInputs(s, reason)[i]) by { ForwardsCareful(s, reason); }
      OperatorsConserve(env, kept, s, ForwardInputs(s, reason));
    case CallDropAll(reason, activate) =>
      if reason != "" { DropsCareful(s, reason, activate); }
      OperatorsConserve(env, kept, s, DropInputs(s, reason, activate));
    case CallOutcome(o) =>
      OutcomeKeeps(env, kept, s, o);
      OutcomeDraws(env, s, o);
      var s' := OutcomeStep(env, s, o).1;
      forall id ensures Asks(s'.history, id) == Asks(s.history, id) && Verdicts(s'.history, id) == Verdicts(s.history, id) {
        OutcomeCounts(s.history, o, id);
      }
      QuietStep(env, s, s');
    case CallSetMode(m) => QuietStep(env, s, s.(mode := m));
    case CallSetScope(scope) => QuietStep(env, s, s.(scope := scope));
    case CallSetReplaceRules(rules) => QuietStep(env, s, s.(replaceRules := rules));
  }

  lemma ForwardsCareful(s: GatewayState, reason: Option<string>)
    ensures forall i | 0 <= i < |ForwardInputs(s, reason)| :: Careful(ForwardInputs(s, reason)[i])
  {
    hide PendingItems;
  }

  lemma DropsCareful(s: GatewayState, reason: string, activate: bool)
    requires reason != ""
    ensures forall i | 0 <= i < |DropInputs(s, reason, activate)| :: Careful(DropInputs(s, reason, activate)[i])
  {
    hide PendingItems;
  }

  lemma RepeaterDraws(env: MemoryEnv, s: GatewayState, input: RepeaterInput)
    ensures RepeaterStep(env, s, input).1.nextId >= s.nextId
  {
    hide RepeaterAction, Prepare, DecideNow, LogVerdict;
    var raw := RepeaterAction(s, input);
    if raw.Ok? {
      var prepared := Prepare(s, raw.value, input.applyMatchReplace);
      if prepared.Ok? {
        var p := prepared.value;
        LogDraws(env, s, p.action, DecideNow(s, p.action, input.mode.GetOr(s.mode)), None,
                 Remarks(None, p.originalAction, p.appliedRuleIds, Some(["repeater.send"])));
      }
    }
  }

  lemma OutcomeDraws(env: MemoryEnv, s: GatewayState, o: ProxyOutcome)
    ensures OutcomeStep(env, s, o).1.nextId >= s.nextId
  {
    hide OnHistory, Seal, OutcomeEvent;
  }

  lemma {:induction false} RunConserves(env: MemoryEnv, kept: Kept, s: GatewayState, calls: seq<Call>)
    requires FreshEnv(env) && Inv(env, kept, s)
    ensures AtMostOnce(env, s) ==> AtMostOnce(env, Run(env, s, calls))
    ensures var s' := Run(env, s, calls);
      FindsNone(s, s') && (AllCareful(calls) ==> LosesNone(s, s'))
  {
    hide FreshEnv, Inv, Step, AtMostOnce, Lost, CarefulCall;
    if calls != [] {
      var n := |calls| - 1;
      RunConserves(env, kept, s, calls[..n]);
      RunKeeps(env, kept, s, calls[..n]);
      StepConserves(env, kept, Run(env, s, calls[..n]), calls[n]);
    }
  }

  /**
   In every session, over whatever stores it began with: no queue id comes to have two operator
   verdicts; and if every drop gives a reason and every edited action is valid, each ask is pending
   or answered afterwards unless it was neither before. No call finds a lost ask again.
   */
  lemma QueueItemsConserved(env: MemoryEnv, s0: GatewayState, calls: seq<Call>, id: string)
    requires FreshEnv(env) && Begins(env, s0)
    ensures var s := Run(env, s0, calls);
      && (AtMostOnce(env, s0) ==> Verdicts(s.history, id) <= 1)
      && Lost(s, id) >= Lost(s0, id)
      && (AllCareful(calls) ==> Lost(s, id) == Lost(s0, id))
  {
    hide FreshEnv, Begins, Inv, Run, AllCareful, Asks, Verdicts, Lost, Spent, Has;
    BeginsInv(env, s0);
    RunConserves(env, KeptIn(s0), s0, calls);
  }

  /** Empty stores have no verdicts and no lost asks. */
  lemma NothingLostYet(env: Env, mode: Mode, scope: Option<ProxyScope>, replaceRules: seq<MatchReplaceRule>)
    ensures var s0 := Initial(mode, scope, replaceRules);
      Begins(env, s0) && AtMostOnce(env, s0) && forall id :: Lost(s0, id) == 0
  {
    EmptyBegins(env, mode, scope, replaceRules);
  }

  // ---------------------------------------------------------------- what one drop compiles

  /**
   A drop of a pending item with a reason stores its compiled rules after the others, all of
   them deny or ask, and all active or all proposed as asked; or the reason did not compile
   and no rule changed.
   */
  lemma DropStoresBlocks(env: MemoryEnv, kept: Kept, s: GatewayState, input: OperatorInput)
    requires FreshEnv(env) && Inv(env, kept, s) && !input.approve && Careful(input) && Lookup(ITEMS, s.queue, input.queueId).Some?
    ensures var (r, s') := OperatorStep(env, s, input);
      if r.Err? then r.error == CorrectionRejected && s'.rules == s.rules
      else
        && s'.rules == s.rules + r.value.compiledRules
        && forall c | c in r.value.compiledRules ::
             c.effect.verdict != Allow && c.status == if input.activate then Active else Proposed
  {
    hide FreshEnv, Inv, OperatorStep, OneMoreEntry, Lookup, Without, Careful, ApprovalScopeFor;
    OperatorKeeps(env, kept, s, input);
    var (r, s') := OperatorStep(env, s, input);
    assert OperatorEffect(s, input, r, s');
    if r.Ok? {
      assert s'.rules == s.rules + r.value.compiledRules;
    }
  }

  /**
   When the queue refuses an ask, the call answers and records a denial, or throws what the log
   throws and records nothing; either way it queues nothing and changes no rule.
   */
  lemma QueueRefusalDenies(env: Env, s: GatewayState, p: Prepared)
    requires DecideNow(s, p.action, s.mode).verdict == Ask
    requires OnQueue(env.medium, s.queue, Enqueue(QueuedIntercept(env.ids(s.nextId), p.action, env.clock(s.ticks)))).0.Failed?
    ensures var refusal := OnQueue(env.medium, s.queue, Enqueue(QueuedIntercept(env.ids(s.nextId), p.action, env.clock(s.ticks)))).0.error;
      var denial := QueueFailedClosed(refusal);
      var logged := LogVerdict(env, Drawn(s, 1, 1), p.action, denial, None, Remarks(None, p.originalAction, p.appliedRuleIds, None)).0;
      var (r, s') := Judge(env, s, p);
      && denial.verdict == Deny && !denial.allowed
      && r == (if logged.Ok? then Ok(denial) else Err(logged.error))
      && s'.queue == s.queue && s'.rules == s.rules
      && (r.Err? ==> s'.history == s.history)
      && (r.Ok? ==> s'.history == Write(env.medium, ENTRIES, s.history + [
            NewEntry(env, Drawn(s, 2, 2), p.action, denial, Remarks(None, p.originalAction, p.appliedRuleIds, None))]))
  {
    hide DecideNow, ValidAction, Seal, VerdictEvent, ValidEntry, NewEntry, Saved;
    RefusalKeepsQueue(env.medium, s.queue, QueuedIntercept(env.ids(s.nextId), p.action, env.clock(s.ticks)));
    hide OnQueue;
    NextEntry(env, s, p);
  }

  lemma RefusalKeepsQueue(m: Medium, queue: seq<QueuedIntercept>, item: QueuedIntercept)
    ensures OnQueue(m, queue, Enqueue(item)).0.Failed? ==> OnQueue(m, queue, Enqueue(item)).1 == queue
  {
    hide ValidAction;
  }

  lemma NextEntry(env: Env, s: GatewayState, p: Prepared)
    ensures forall ledger, d, remarks ::
      NewEntry(env, Drawn(s, 2, 2).(ledger := ledger), p.action, d, remarks) == NewEntry(env, Drawn(s, 2, 2), p.action, d, remarks)
  {
  }

  // ---------------------------------------------------------------- how an ask gets lost

  /**
   After one intercepted action that asks, an operator input the gateway cannot act on leaves the
   ask neither pending nor answered.
   */
  lemma CarelessLosesAsk(env: MemoryEnv, a: Action, input: OperatorInput)
    requires FreshEnv(env) && ValidAction(a) && input.queueId == env.ids(0) && !Careful(input)
    ensures LostAsk(Run(env, Initial(Intercept, None, []), [CallIntercept(a), CallOperator(input)]), input.queueId)
  {
    var s0 := Initial(Intercept, None, []);
    TwoCalls(env, s0, CallIntercept(a), CallOperator(input));
    hide FreshEnv, Inv, ValidAction, InterceptStep, OperatorStep, OneMoreEntry, NoneAllows, Careful, Run, LostAsk,
         AskWaits, Lookup, Without;
    FirstAsks(env, a);
    var s1 := InterceptStep(env, s0, a).1;
    assert Inv(env, KeptIn(s0), s1) && AskWaits(s1, input.queueId);
    WaitingFound(s1, input.queueId);
    OperatorKeeps(env, KeptIn(s0), s1, input);
    AskRemoved(s1, OperatorStep(env, s1, input).1, input.queueId);
  }

  /** The ask under this id was queued, and is neither pending nor answered. */
  predicate LostAsk(s: GatewayState, id: string) {
    Asks(s.history, id) == 1 && Waiting(s.queue, id) == 0 && Verdicts(s.history, id) == 0
  }

  /** The history is one ask, which waits under this id. */
  predicate AskWaits(s: GatewayState, id: string) {
    && Lookup(ITEMS, s.queue, id).Some?
    && |s.history| == 1 && s.history[0].queueId == Some(id) && s.history[0].decision.source != Operator
  }

  lemma WaitingFound(s: GatewayState, id: string)
    requires AskWaits(s, id)
    ensures Lookup(ITEMS, s.queue, id).Some?
  {
  }

  lemma AskRemoved(s: GatewayState, s': GatewayState, id: string)
    requires AskWaits(s, id) && s'.history == s.history && s'.queue == Without(ITEMS, s.queue, id)
    ensures LostAsk(s', id)
  {
    WaitingWithout(s.queue, id, id);
    hide Without, Waiting, Has, Lookup;
    assert s.history[..0] == [];
    OneMore([], s.history, id);
  }

  lemma TwoCalls(env: Env, s: GatewayState, first: Call, second: Call)
    ensures Run(env, s, [first, second]) == Step(env, Step(env, s, first), second)
  {
    hide Step;
    assert [first, second][..1] == [first] && [first][..0] == [];
    assert Run(env, s, []) == s;
    assert Run(env, s, [first]) == Step(env, s, first);
  }

  /** The first action of a gateway without rules asks, and waits under the first id drawn. */
  lemma FirstAsks(env: MemoryEnv, a: Action)
    requires FreshEnv(env) && ValidAction(a)
    ensures var s1 := InterceptStep(env, Initial(Intercept, None, []), a).1; Inv(env, Kept(0, 0), s1) && AskWaits(s1, env.ids(0))
  {
    var s0, p := Initial(Intercept, None, []), Prepared(a, None, []);
    EmptyBegins(env, Intercept, None, []);
    BeginsInv(env, s0);
    NothingStoredAsks(s0, a);
    hide FreshEnv, Inv, ValidAction, DecideNow, Judge, InterceptStep, Lookup;
    PlainIntercept(env, s0, a);
    JudgeKeeps(env, Kept(0, 0), s0, p);
    var s1 := Judge(env, s0, p).1;
    var item := QueuedIntercept(env.ids(0), a, env.clock(0));
    assert s1.queue == [item];
    assert Lookup(ITEMS, s1.queue, env.ids(0)) == Some(item) by { OnlyItem(item); }
  }

  lemma PlainIntercept(env: Env, s: GatewayState, a: Action)
    requires ValidAction(a) && s.replaceRules == []
    ensures InterceptStep(env, s, a) == Judge(env, s, Prepared(a, None, []))
  {
    hide ValidAction, Judge;
  }

  lemma OnlyItem(item: QueuedIntercept)
    ensures Lookup(ITEMS, [item], item.id) == Some(item)
  {
  }

  lemma NothingStoredAsks(s: GatewayState, a: Action)
    requires s.rules == [] && s.scope.None? && ValidAction(a)
    ensures DecideNow(s, a, Intercept).verdict == Ask
  {
    hide ValidAction;
    assert ActiveRulesOf([]) == [];
    assert ValidRules([]);
    hide ValidRule, ValidRules;
    assert BestMatchingRule(a, []) == None;
  }

  /** A drop without a reason loses the ask. */
  lemma EmptyReasonLosesAsk(env: MemoryEnv, a: Action, activate: bool)
    requires FreshEnv(env) && ValidAction(a)
    ensures var id := env.ids(0);
      LostAsk(Run(env, Initial(Intercept, None, []), [CallIntercept(a), CallOperator(OperatorInput(id, false, "", activate, None))]), id)
  {
    hide FreshEnv, ValidAction, Run, LostAsk;
    CarelessLosesAsk(env, a, OperatorInput(env.ids(0), false, "", activate, None));
  }

  /** So does a verdict, for or against, with an edited action that does not parse. */
  lemma InvalidEditLosesAsk(env: MemoryEnv, a: Action, edited: Action, approve: bool, reason: string)
    requires FreshEnv(env) && ValidAction(a) && !ValidAction(edited)
    ensures var input := OperatorInput(env.ids(0), approve, reason, false, Some(edited));
      LostAsk(Run(env, Initial(Intercept, None, []), [CallIntercept(a), CallOperator(input)]), input.queueId)
  {
    hide FreshEnv, ValidAction, Run, LostAsk;
    CarelessLosesAsk(env, a, OperatorInput(env.ids(0), approve, reason, false, Some(edited)));
  }

  // ---------------------------------------------------------------- forwarding everything

  /** The first of the pending items waits under its id, and without it the others remain. */
  lemma FrontWaits(queue: seq<QueuedIntercept>, items: seq<QueuedIntercept>)
    requires Distinct(ITEMS, queue) && items != [] && multiset(items) == multiset(queue)
    ensures Lookup(ITEMS, queue, items[0].id) == Some(items[0])
    ensures multiset(items[1..]) == multiset(Without(ITEMS, queue, items[0].id))
  {
    SameElements(items, queue);
    assert items[0] in Elements(queue);
    var i :| 0 <= i < |queue| && queue[i] == items[0];
    FindUnique(ITEMS, queue, i);
    PermutationDistinct(ITEMS, queue, items);
    FilterPermutes(items, queue, NotKeyed(ITEMS, items[0].id));
    WithoutFirst(items);
  }

  lemma QueueDistinct(env: MemoryEnv, kept: Kept, s: GatewayState)
    requires Inv(env, kept, s)
    ensures Distinct(ITEMS, s.queue)
  {
  }

  lemma ForwardOne(env: MemoryEnv, kept: Kept, s: GatewayState, items: seq<QueuedIntercept>, reason: Option<string>)
    requires FreshEnv(env) && Inv(env, kept, s) && items != [] && multiset(items) == multiset(s.queue)
    ensures var (r, s1) := OperatorStep(env, s, ForwardInput(items[0], reason));
      && Inv(env, kept, s1) && multiset(items[1..]) == multiset(s1.queue)
      && r.Ok? && |r.value.compiledRules| == 1 && r.value.compiledRules[0].scope == ApprovalScopeFor(items[0].action)
  {
    QueueDistinct(env, kept, s);
    hide FreshEnv, Inv, OperatorStep, ApprovalScopeFor, OneMoreEntry, NoneAllows, Lookup, Without, Distinct;
    FrontWaits(s.queue, items);
    OperatorKeeps(env, kept, s, ForwardInput(items[0], reason));
  }

  lemma WithoutFirst(items: seq<QueuedIntercept>)
    requires items != [] && Distinct(ITEMS, items)
    ensures Without(ITEMS, items, items[0].id) == items[1..]
  {
    var rest := items[1..];
    forall i | 0 <= i < |rest| ensures rest[i].id != items[0].id {
      assert rest[i] == items[i + 1];
      assert ITEMS.id(items[0]) != ITEMS.id(items[i + 1]);
    }
    AbsentHas(rest, items[0].id);
    DeleteAbsent(rest, items[0].id);
  }

  lemma AbsentHas(items: seq<QueuedIntercept>, id: string)
    requires forall i | 0 <= i < |items| :: items[i].id != id
    ensures !Has(ITEMS, items, id)
  {
  }

  /** One compiled rule for each item, scoped to the item's action. */
  predicate OneRuleEach(results: seq<OperatorResult>, items: seq<QueuedIntercept>) {
    && |results| == |items|
    && forall i | 0 <= i < |items| ::
         |results[i].compiledRules| == 1 && results[i].compiledRules[0].scope == ApprovalScopeFor(items[i].action)
  }

  lemma {:induction false} ForwardItems(env: MemoryEnv, kept: Kept, s: GatewayState, items: seq<QueuedIntercept>, reason: Option<string>)
    requires FreshEnv(env) && Inv(env, kept, s) && multiset(items) == multiset(s.queue)
    ensures var (r, s') := OperatorSteps(env, s, Map(items, (item: QueuedIntercept) => ForwardInput(item, reason)));
      r.Ok? && s'.queue == [] && OneRuleEach(r.value, items)
    decreases |items|
  {
    hide FreshEnv, Inv, OperatorStep, ApprovalScopeFor, ForwardInput;
    var forward := (item: QueuedIntercept) => ForwardInput(item, reason);
    if items == [] {
      assert |multiset(s.queue)| == 0;
      assert Map(items, forward) == [];
    } else {
      ForwardOne(env, kept, s, items, reason);
      var (first, s1) := OperatorStep(env, s, ForwardInput(items[0], reason));
      ForwardItems(env, kept, s1, items[1..], reason);
      assert Map(items, forward)[1..] == Map(items[1..], forward);
      var rest := OperatorSteps(env, s1, Map(items[1..], forward)).0.value;
      forall i | 0 <= i < |items|
        ensures var x := ([first.value] + rest)[i];
          |x.compiledRules| == 1 && x.compiledRules[0].scope == ApprovalScopeFor(items[i].action)
      {
        if i > 0 { assert items[1..][i - 1] == items[i]; }
      }
    }
  }

  /** In every session `forwardAll` empties the queue, kept items included, with one result for each, in order. */
  lemma ForwardAllEmptiesQueue(env: MemoryEnv, s0: GatewayState, calls: seq<Call>, reason: Option<string>)
    requires FreshEnv(env) && Begins(env, s0)
    ensures var s := Run(env, s0, calls);
      var (r, s') := OperatorSteps(env, s, ForwardInputs(s, reason));
      r.Ok? && s'.queue == [] && |r.value| == |s.queue| && OneRuleEach(r.value, PendingItems(s))
  {
    SessionKeeps(env, s0, calls);
    hide Begins, Run;
    var s := Run(env, s0, calls);
    SortPermutes(s.queue, Order(ITEMS));
    SortElements(s.queue, Order(ITEMS));
    ForwardItems(env, KeptIn(s0), s, PendingItems(s), reason);
    hide FreshEnv, Inv, OperatorSteps, ApprovalScopeFor;
  }
}
