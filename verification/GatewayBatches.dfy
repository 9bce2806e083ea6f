/**
 The operator verdicts on everything that is pending (packages/integrations/intercept-gateway/src/gateway.ts):
 one for each item, on its action, each with its rules, for any ids, clock and ledger, in memory and on file.
 */
module GatewayBatches {
  import opened Prelude
  import opened Sorting
  import opened KeyedStores
  import opened PolicyEngine
  import opened PolicyStores
  import opened GatewaySteps
  import opened GatewayEntries
  import opened GatewayScopes
  import opened GatewayTheorems

  /** The verdicts are on the items, as they are. */
  predicate OnItems(items: seq<QueuedIntercept>, inputs: seq<OperatorInput>) {
    |inputs| == |items| && forall i | 0 <= i < |items| :: inputs[i].queueId == items[i].id && inputs[i].editedAction.None?
  }

  /** The answer to a verdict on an action, and the rules it brings. */
  ghost predicate Answers(env: Env, input: OperatorInput, a: Action, r: OperatorResult) {
    if input.approve then
      r.decision == APPROVED && |r.compiledRules| == 1 && GrantsAlike(a, r.compiledRules[0])
    else
      r.decision == Disapproved(input.reason) && SaysReason(env, input.reason, input.activate, a, r.compiledRules)
  }

  /** The rules stored are those from before and the compiled ones of the results. */
  ghost predicate StoresAll(rules: seq<Rule>, rules': seq<Rule>, results: seq<OperatorResult>) {
    && Distinct(RULES, rules')
    && forall q :: q in rules' <==> q in rules || exists r | r in results :: q in r.compiledRules
  }

  /** The first item is answered, its rules are stored, and the other items are what is still pending. */
  ghost predicate Answered(
    env: Env, s: GatewayState, s': GatewayState, items: seq<QueuedIntercept>, input: OperatorInput, r: OperatorResult)
    requires items != []
  {
    && Answers(env, input, items[0].action, r) && AddsExactly(s.rules, s'.rules, r.compiledRules)
    && multiset(items[1..]) == multiset(s'.queue) && Distinct(ITEMS, s'.queue)
  }

  lemma OneAnswered(env: Env, s: GatewayState, items: seq<QueuedIntercept>, input: OperatorInput)
    requires Distinct(RULES, s.rules) && Distinct(ITEMS, s.queue) && items != [] && multiset(items) == multiset(s.queue)
    requires input.queueId == items[0].id && input.editedAction.None? && OperatorStep(env, s, input).0.Ok?
    ensures Answered(env, s, OperatorStep(env, s, input).1, items, input, OperatorStep(env, s, input).0.value)
  {
    hide OperatorStep, Distinct, Lookup, Without, Saved, Noted, VerdictNoted, OperatorSays, GrantsAlike, AddsExactly, SaysReason;
    FrontWaits(s.queue, items);
    var (r, s') := OperatorStep(env, s, input);
    var e, x := OperatorNotes(env, s, input);
    QueueAfter(env.medium, s.queue, input.queueId);
    if input.approve { ForwardGrants(env, s, input); OperatorDecides(env, s, input); } else { DropRenders(env, s, input); }
  }

  lemma OperatorDecides(env: Env, s: GatewayState, input: OperatorInput)
    requires input.approve && OperatorStep(env, s, input).0.Ok?
    ensures OperatorStep(env, s, input).0.value.decision == APPROVED
  {
    hide ValidAction, OnQueue, Lookup, ValidCorrection, LogVerdict, StoreRule, ValidRule, ApprovalRule, ApprovalText;
  }

  lemma QueueAfter(m: Medium, queue: seq<QueuedIntercept>, id: string)
    requires Distinct(ITEMS, queue)
    ensures var left := Write(m, ITEMS, Without(ITEMS, queue, id));
      multiset(left) == multiset(Without(ITEMS, queue, id)) && Distinct(ITEMS, left)
  {
    hide Distinct;
    WithoutDistinct(ITEMS, queue, NotKeyed(ITEMS, id));
    SortPermutes(Without(ITEMS, queue, id), Order(ITEMS));
    PermutationDistinct(ITEMS, Without(ITEMS, queue, id), Saved(ITEMS, Without(ITEMS, queue, id)));
  }

  lemma {:induction false} AllAnswered(env: Env, s: GatewayState, items: seq<QueuedIntercept>, inputs: seq<OperatorInput>)
    requires Distinct(RULES, s.rules) && Distinct(ITEMS, s.queue) && multiset(items) == multiset(s.queue)
    requires OnItems(items, inputs) && OperatorSteps(env, s, inputs).0.Ok?
    ensures var (r, s') := OperatorSteps(env, s, inputs);
      && s'.queue == [] && |r.value| == |items| && StoresAll(s.rules, s'.rules, r.value)
      && forall i | 0 <= i < |items| :: Answers(env, inputs[i], items[i].action, r.value[i])
    decreases |inputs|
  {
    hide OperatorStep, Distinct, Answers;
    if items == [] {
      assert |multiset(s.queue)| == 0;
    } else {
      OneAnswered(env, s, items, inputs[0]);
      var (first, s1) := OperatorStep(env, s, inputs[0]);
      AllAnswered(env, s1, items[1..], inputs[1..]);
      var rest := OperatorSteps(env, s1, inputs[1..]).0.value;
      StoresOneMore(s.rules, s1.rules, OperatorSteps(env, s, inputs).1.rules, first.value, rest);
      forall i | 0 <= i < |items| ensures Answers(env, inputs[i], items[i].action, ([first.value] + rest)[i]) {
        if i > 0 { assert items[1..][i - 1] == items[i] && inputs[1..][i - 1] == inputs[i]; }
      }
    }
  }

  lemma StoresOneMore(rules: seq<Rule>, rules1: seq<Rule>, rules': seq<Rule>, first: OperatorResult, rest: seq<OperatorResult>)
    requires AddsExactly(rules, rules1, first.compiledRules) && StoresAll(rules1, rules', rest)
    ensures StoresAll(rules, rules', [first] + rest)
  {
    hide Distinct;
    forall q ensures q in rules' <==> q in rules || exists r | r in [first] + rest :: q in r.compiledRules {
      if q in first.compiledRules { assert first in [first] + rest; }
      if r :| r in rest && q in r.compiledRules { assert r in [first] + rest; }
    }
  }

  lemma PendingAre(s: GatewayState)
    ensures multiset(PendingItems(s)) == multiset(s.queue)
  {
    SortPermutes(s.queue, Order(ITEMS));
  }

  /**
   A `forwardAll` that goes through answers the pending items in their order, one result each: an approval
   of the class of its action; the queue is empty afterwards and nothing else is stored.
   */
  lemma ForwardAllAnswers(env: Env, s: GatewayState, reason: Option<string>)
    requires Distinct(RULES, s.rules) && Distinct(ITEMS, s.queue) && OperatorSteps(env, s, ForwardInputs(s, reason)).0.Ok?
    ensures var (r, s') := OperatorSteps(env, s, ForwardInputs(s, reason));
      var items := PendingItems(s);
      && s'.queue == [] && |r.value| == |items| == |s.queue| && StoresAll(s.rules, s'.rules, r.value)
      && forall i | 0 <= i < |items| ::
           && r.value[i].decision == APPROVED && |r.value[i].compiledRules| == 1
           && GrantsAlike(items[i].action, r.value[i].compiledRules[0])
  {
    PendingAre(s);
    hide PendingItems, OperatorSteps, Distinct, GrantsAlike, SaysReason, StoresAll;
    AllAnswered(env, s, PendingItems(s), ForwardInputs(s, reason));
    assert |multiset(PendingItems(s))| == |multiset(s.queue)|;
    forall i | 0 <= i < |PendingItems(s)| ensures ForwardInputs(s, reason)[i].approve { }
  }

  /** A `dropAll` that goes through: for each item the rules of the reason, read on its action, active exactly if asked for. */
  lemma DropAllAnswers(env: Env, s: GatewayState, reason: string, activate: bool)
    requires Distinct(RULES, s.rules) && Distinct(ITEMS, s.queue) && OperatorSteps(env, s, DropInputs(s, reason, activate)).0.Ok?
    ensures var (r, s') := OperatorSteps(env, s, DropInputs(s, reason, activate));
      var items := PendingItems(s);
      && s'.queue == [] && |r.value| == |items| == |s.queue| && StoresAll(s.rules, s'.rules, r.value)
      && forall i | 0 <= i < |items| ::
           && r.value[i].decision == Disapproved(reason)
           && SaysReason(env, reason, activate, items[i].action, r.value[i].compiledRules)
  {
    PendingAre(s);
    hide PendingItems, OperatorSteps, Distinct, GrantsAlike, SaysReason, StoresAll, Disapproved;
    AllAnswered(env, s, PendingItems(s), DropInputs(s, reason, activate));
    assert |multiset(PendingItems(s))| == |multiset(s.queue)|;
    var inputs := DropInputs(s, reason, activate);
    forall i | 0 <= i < |PendingItems(s)| ensures inputs[i] == DropInput(PendingItems(s)[i], reason, activate) { }
  }
}
