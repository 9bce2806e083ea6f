/**
 Sessions of the gateway over files that earlier sessions left
 (packages/integrations/intercept-gateway/src/runtime.ts): each begins with a new ledger, and what
 holds of one holds of the next.
 */
module GatewaySessions {
  import opened Prelude
  import opened Sorting
  import opened KeyedStores
  import opened AuditLedgers
  import opened PolicyEngine
  import opened PolicyStores
  import opened ProxyHistories
  import opened PolicyAudit
  import opened MatchReplace
  import opened GatewaySteps
  import opened GatewayInvariants
  import opened GatewayRuns
  import opened GatewayTheorems
  import opened GatewayMedia

  // ---------------------------------------------------------------- sessions over kept files

  /** The stores are files as an earlier session saved them, or empty. */
  ghost predicate KeptFiles(s: GatewayState) { Sound(s) && FileOf(s) == s }

  /** A session over files, against the same calls over the same entries in memory. */
  lemma SessionAlike(env: MemoryEnv, s0: GatewayState, calls: seq<Call>)
    requires FreshEnv(env) && KeptFiles(s0) && forall call | call in calls :: ValidCall(call)
    ensures Run(Filed(env), s0, calls) == FileOf(Run(env, s0, calls)) && Sound(Run(env, s0, calls)) && ReadableEnv(env)
  {
    hide Run, Sound, FileOf, ValidCall;
    assert ReadableEnv(env);
    hide FreshEnv, ReadableEnv;
    RunsAlike(env, s0, calls);
  }

  /** The ledger of a session over files replays the rules that the session wrote to the rule file. */
  lemma FiledLedgerReplaysStore(env: MemoryEnv, s0: GatewayState, calls: seq<Call>, ruleId: string)
    requires FreshEnv(env) && Begins(env, s0) && KeptFiles(s0) && forall call | call in calls :: ValidCall(call)
    ensures var s := Run(Filed(env), s0, calls);
      && EndsInStored(ReconstructRule(s.ledger, ruleId), LaterRule(s0.rules, s.rules, ruleId), ruleId)
      && (Has(RULES, s0.rules, ruleId) ==> Lookup(RULES, s.rules, ruleId) == Lookup(RULES, s0.rules, ruleId))
  {
    hide FreshEnv, ReadableEnv, Begins, KeptFiles, Sound, Run, ValidCall, EndsInStored, ReconstructRule, Lookup, Has,
         Saved, Distinct;
    SessionAlike(env, s0, calls);
    LedgerReplaysStore(env, s0, calls, ruleId);
    var s := Run(env, s0, calls);
    SoundParts(s);
    SavedBacks(RULES, s.rules);
    BacksLookup(RULES, Saved(RULES, s.rules), s.rules, ruleId);
  }

  lemma CountsAlike(s: GatewayState, id: string)
    requires Distinct(ITEMS, s.queue)
    ensures Lost(FileOf(s), id) == Lost(s, id) && Verdicts(FileOf(s).history, id) == Verdicts(s.history, id)
  {
    SavedBacks(ITEMS, s.queue);
    BacksLookup(ITEMS, Saved(ITEMS, s.queue), s.queue, id);
    SortPermutes(s.history, Order(ENTRIES));
    SameCount(Saved(ENTRIES, s.history), s.history, VerdictOn(id));
    SameCount(Saved(ENTRIES, s.history), s.history, AskedAs(id));
    hide Saved, Distinct, Has;
  }

  lemma SameCount<T>(xs: seq<T>, ys: seq<T>, keep: T -> bool)
    requires multiset(xs) == multiset(ys)
    ensures |Filter(xs, keep)| == |Filter(ys, keep)|
  {
    FilterPermutes(xs, ys, keep);
    SameElements(Filter(xs, keep), Filter(ys, keep));
  }

  /** Queue items are accounted for over files as they are in memory. */
  lemma FiledItemsConserved(env: MemoryEnv, s0: GatewayState, calls: seq<Call>, id: string)
    requires FreshEnv(env) && Begins(env, s0) && KeptFiles(s0) && forall call | call in calls :: ValidCall(call)
    ensures var s := Run(Filed(env), s0, calls);
      && (AtMostOnce(env, s0) ==> Verdicts(s.history, id) <= 1)
      && Lost(s, id) >= Lost(s0, id)
      && (AllCareful(calls) ==> Lost(s, id) == Lost(s0, id))
  {
    hide FreshEnv, ReadableEnv, Begins, KeptFiles, Sound, Run, ValidCall, Lost, Verdicts, AtMostOnce, CarefulCall, FileOf;
    SessionAlike(env, s0, calls);
    QueueItemsConserved(env, s0, calls, id);
    SoundParts(Run(env, s0, calls));
    CountsAlike(Run(env, s0, calls), id);
  }

  /** And `forwardAll` empties the queue file. */
  lemma FiledForwardAllEmptiesQueue(env: MemoryEnv, s0: GatewayState, calls: seq<Call>, reason: Option<string>)
    requires FreshEnv(env) && Begins(env, s0) && KeptFiles(s0) && forall call | call in calls :: ValidCall(call)
    ensures var s := Run(Filed(env), s0, calls);
      var (r, s') := OperatorSteps(Filed(env), s, ForwardInputs(s, reason));
      r.Ok? && s'.queue == [] && |r.value| == |s.queue| && OneRuleEach(r.value, PendingItems(s))
  {
    SessionAlike(env, s0, calls);
    ForwardAllEmptiesQueue(env, s0, calls, reason);
    hide FreshEnv, ReadableEnv, Begins, KeptFiles, Sound, Run, ValidCall, OperatorSteps, ForwardInputs, OneRuleEach, PendingItems;
    var m := Run(env, s0, calls);
    SoundParts(m);
    InputsAlike(m, reason, "", false);
    PendingAlike(m);
    OperatorsAlike(env, m, ForwardInputs(m, reason));
    SortElements(m.queue, Order(ITEMS));
  }

  // ---------------------------------------------------------------- the next session

  /** No store and no queue id in the history knows the id. */
  predicate NewId(s: GatewayState, id: string) {
    && !Has(RULES, s.rules, id) && !Has(ITEMS, s.queue, id) && !Has(ENTRIES, s.history, id)
    && forall e | e in s.history :: e.queueId != Some(id)
  }

  /** The session draws ids that none of these stores knows. */
  ghost predicate NewTo(env: Env, s: GatewayState) { forall i: nat :: NewId(s, env.ids(i)) }

  /** The files that a session leaves, with new settings, a new ledger, and nothing drawn. */
  function Restarted(s: GatewayState, mode: Mode, scope: Option<ProxyScope>, replaceRules: seq<MatchReplaceRule>): GatewayState {
    GatewayState(s.rules, s.queue, s.history, [], mode, scope, replaceRules, 0, 0)
  }

  lemma NewIsSpent(env: Env, s: GatewayState)
    requires NewTo(env, s)
    ensures forall r | r in s.rules :: Spent(env, 0, r.id)
    ensures forall item | item in s.queue :: Spent(env, 0, item.id)
    ensures forall e | e in s.history :: Spent(env, 0, e.id)
  {
    forall i: nat
      ensures forall r | r in s.rules :: r.id != env.ids(i)
      ensures forall item | item in s.queue :: item.id != env.ids(i)
      ensures forall e | e in s.history :: e.id != env.ids(i)
    {
      assert NewId(s, env.ids(i));
      AbsentEverywhere(RULES, s.rules, env.ids(i));
      AbsentEverywhere(ITEMS, s.queue, env.ids(i));
      AbsentEverywhere(ENTRIES, s.history, env.ids(i));
      assert forall r | r in s.rules :: RULES.id(r) == r.id;
      assert forall item | item in s.queue :: ITEMS.id(item) == item.id;
      assert forall e | e in s.history :: ENTRIES.id(e) == e.id;
    }
  }

  lemma AbsentEverywhere<T>(k: Keying<T>, xs: seq<T>, key: string)
    requires !Has(k, xs, key)
    ensures forall x | x in xs :: k.id(x) != key
  {
    forall x | x in xs ensures k.id(x) != key {
      var i :| 0 <= i < |xs| && xs[i] == x;
    }
  }

  lemma SavedMembers<T>(k: Keying<T>, xs: seq<T>)
    requires Distinct(k, xs)
    ensures Distinct(k, Saved(k, xs)) && forall x :: x in Saved(k, xs) <==> x in xs
  {
    SortPermutes(xs, Order(k));
    PermutationDistinct(k, xs, Saved(k, xs));
    SameElements(Saved(k, xs), xs);
    forall x ensures x in Saved(k, xs) <==> x in xs {
      assert x in Elements(Saved(k, xs)) <==> x in Elements(xs);
    }
  }

  /** What waits or was answered, no id twice, is still so for a session that draws other ids. */
  lemma StillAtMostOnce(env: MemoryEnv, next: MemoryEnv, m: GatewayState, t: GatewayState)
    requires AtMostOnce(env, m) && NewTo(next, t) && t.nextId == 0 && Distinct(ITEMS, m.queue)
    requires t.queue == FileOf(m).queue && t.history == FileOf(m).history
    ensures AtMostOnce(next, t)
  {
    hide Distinct, Saved, Has, Verdicts;
    forall id ensures Waiting(t.queue, id) + Verdicts(t.history, id) <= (if Spent(next, 0, id) then 1 else 0) {
      CountsAlike(m, id);
      SavedBacks(ITEMS, m.queue);
      BacksLookup(ITEMS, Saved(ITEMS, m.queue), m.queue, id);
      assert Waiting(m.queue, id) + Verdicts(m.history, id) <= 1;
      if !Spent(next, 0, id) {
        var i: nat :| next.ids(i) == id;
        assert NewId(t, next.ids(i));
        NoVerdict(t.history, id);
      }
    }
  }

  lemma NoVerdict(history: seq<HistoryEntry>, id: string)
    requires forall e | e in history :: e.queueId != Some(id)
    ensures Verdicts(history, id) == 0
  {
    FilterMembers(history, VerdictOn(id));
    if Filter(history, VerdictOn(id)) != [] { assert Filter(history, VerdictOn(id))[0] in history; }
  }

  /**
   What a session leaves on file is what the next one may begin with: so all that is said of a session
   holds of each of any number of sessions over the same files, if each draws new ids.
   */
  lemma SessionsFollow(env: MemoryEnv, s0: GatewayState, calls: seq<Call>, next: MemoryEnv, mode: Mode,
                       scope: Option<ProxyScope>, replaceRules: seq<MatchReplaceRule>)
    requires FreshEnv(env) && Begins(env, s0) && KeptFiles(s0) && forall call | call in calls :: ValidCall(call)
    requires NewTo(next, Run(Filed(env), s0, calls)) && NamedRules(replaceRules)
    ensures var s := Run(Filed(env), s0, calls);
      var t := Restarted(s, mode, scope, replaceRules);
      && Begins(next, t) && KeptFiles(t)
      && (AtMostOnce(env, s0) ==> AtMostOnce(next, t))
      && forall id :: Lost(t, id) == Lost(s, id)
  {
    var m, s := Run(env, s0, calls), Run(Filed(env), s0, calls);
    var t := Restarted(s, mode, scope, replaceRules);
    SessionAlike(env, s0, calls);
    SessionKeeps(env, s0, calls);
    hide FreshEnv, ReadableEnv, Begins, KeptFiles, Run, ValidCall, AtMostOnce, Saved, Distinct, NewTo, Inv, Sound, NamedRules,
         Lost;
    NewToStores(next, s, t);
    RestartBegins(env, next, KeptIn(s0), m, t);
    SoundParts(m);
    if AtMostOnce(env, s0) {
      SessionOnce(env, s0, calls);
      StillAtMostOnce(env, next, m, t);
    }
    assert forall id :: Lost(t, id) == Lost(s, id) by { SameStores(s, t); }
  }

  lemma SameStores(s: GatewayState, t: GatewayState)
    requires t.queue == s.queue && t.history == s.history
    ensures forall id :: Lost(t, id) == Lost(s, id)
  {
  }

  lemma SessionOnce(env: MemoryEnv, s0: GatewayState, calls: seq<Call>)
    requires FreshEnv(env) && Begins(env, s0) && AtMostOnce(env, s0)
    ensures AtMostOnce(env, Run(env, s0, calls))
  {
    hide FreshEnv, Begins, Inv, Run, AtMostOnce, Lost, CarefulCall;
    BeginsInv(env, s0);
    RunConserves(env, KeptIn(s0), s0, calls);
  }

  lemma NewToStores(env: Env, s: GatewayState, t: GatewayState)
    requires NewTo(env, s) && t.rules == s.rules && t.queue == s.queue && t.history == s.history
    ensures NewTo(env, t)
  {
    forall i: nat ensures NewId(t, env.ids(i)) { assert NewId(s, env.ids(i)); }
  }

  lemma RestartBegins(env: MemoryEnv, next: MemoryEnv, kept: Kept, m: GatewayState, t: GatewayState)
    requires Inv(env, kept, m) && Sound(m) && NewTo(next, t) && NamedRules(t.replaceRules) && t.ledger == [] && t.nextId == 0
    requires t.rules == FileOf(m).rules && t.queue == FileOf(m).queue && t.history == FileOf(m).history
    ensures Begins(next, t) && KeptFiles(t)
  {
    InvRules(env, kept, m);
    SoundParts(m);
    NewIsSpent(next, t);
    hide Spent, NewTo, ValidRule, ValidAction, Saved, Distinct, ValidChain, Replays, Agrees, Inv, NamedRules, RulesOk, QueueOk,
         HistoryOk, WaitsSoundly;
    RulesStay(env, next, m.nextId, m.rules);
    QueueStays(env, next, m.nextId, m.queue);
    HistoryStays(env, next, m.nextId, m.history);
  }

  lemma RulesStay(env: MemoryEnv, next: MemoryEnv, n: nat, rules: seq<Rule>)
    requires RulesOk(env, n, rules) && forall r | r in Saved(RULES, rules) :: Spent(next, 0, r.id)
    ensures RulesOk(next, 0, Saved(RULES, rules)) && Saved(RULES, Saved(RULES, rules)) == Saved(RULES, rules)
    ensures Distinct(RULES, Saved(RULES, rules))
  {
    hide Spent, ValidRule, Saved, Distinct;
    SavedMembers(RULES, rules);
    SavedTwice(RULES, rules);
    var file := Saved(RULES, rules);
    forall i | 0 <= i < |file| ensures ValidRule(file[i]) && Spent(next, 0, file[i].id) {
      assert file[i] in rules;
    }
  }

  lemma QueueStays(env: MemoryEnv, next: MemoryEnv, n: nat, queue: seq<QueuedIntercept>)
    requires QueueOk(env, n, queue) && forall item | item in Saved(ITEMS, queue) :: Spent(next, 0, item.id)
    requires WaitsSoundly(queue)
    ensures QueueOk(next, 0, Saved(ITEMS, queue)) && Saved(ITEMS, Saved(ITEMS, queue)) == Saved(ITEMS, queue)
    ensures Distinct(ITEMS, Saved(ITEMS, queue)) && WaitsSoundly(Saved(ITEMS, queue))
  {
    hide Spent, ValidAction, Saved, Distinct;
    SavedMembers(ITEMS, queue);
    SavedTwice(ITEMS, queue);
    var file := Saved(ITEMS, queue);
    forall i | 0 <= i < |file| ensures ValidAction(file[i].action) && Spent(next, 0, file[i].id) {
      assert file[i] in queue;
    }
  }

  lemma HistoryStays(env: MemoryEnv, next: MemoryEnv, n: nat, history: seq<HistoryEntry>)
    requires HistoryOk(env, n, history) && forall e | e in Saved(ENTRIES, history) :: Spent(next, 0, e.id)
    ensures HistoryOk(next, 0, Saved(ENTRIES, history)) && Saved(ENTRIES, Saved(ENTRIES, history)) == Saved(ENTRIES, history)
    ensures Distinct(ENTRIES, Saved(ENTRIES, history))
  {
    hide Spent, ValidAction, Saved, Distinct;
    SavedMembers(ENTRIES, history);
    SavedTwice(ENTRIES, history);
    var file := Saved(ENTRIES, history);
    forall i | 0 <= i < |file| ensures ValidAction(file[i].action) && Spent(next, 0, file[i].id) {
      assert file[i] in history;
    }
  }

  lemma SavedTwice<T>(k: Keying<T>, xs: seq<T>)
    requires Distinct(k, xs)
    ensures Saved(k, Saved(k, xs)) == Saved(k, xs)
  {
    SortPermutes(xs, Order(k));
    SavedAlike(k, xs, Saved(k, xs));
  }

  // ---------------------------------------------------------------- any number of sessions

  /** What a session is given, and the calls it gets. */
  datatype Session = Session(
    env: MemoryEnv, mode: Mode, scope: Option<ProxyScope>, replaceRules: seq<MatchReplaceRule>, calls: seq<Call>)

  /** The gateway of a session before its first call, over the files `left` by the others. */
  function Opened(left: GatewayState, session: Session): GatewayState {
    Restarted(left, session.mode, session.scope, session.replaceRules)
  }

  /** What sessions over the same files leave, one after the other, from empty files. */
  function Left(sessions: seq<Session>): GatewayState {
    if sessions == [] then Initial(Intercept, None, [])
    else
      var n := |sessions| - 1;
      Run(Filed(sessions[n].env), Opened(Left(sessions[..n]), sessions[n]), sessions[n].calls)
  }

  /** Each session draws fresh ids, new to the files it finds, and gets valid calls. */
  ghost predicate Separate(sessions: seq<Session>) {
    if sessions == [] then true
    else
      var n := |sessions| - 1;
      && Separate(sessions[..n]) && FreshEnv(sessions[n].env) && NewTo(sessions[n].env, Left(sessions[..n]))
      && NamedRules(sessions[n].replaceRules) && forall call | call in sessions[n].calls :: ValidCall(call)
  }

  lemma {:induction false} EachBegins(sessions: seq<Session>)
    requires sessions != [] && Separate(sessions)
    ensures var n := |sessions| - 1;
      var env, t := sessions[n].env, Opened(Left(sessions[..n]), sessions[n]);
      Begins(env, t) && KeptFiles(t) && AtMostOnce(env, t)
  {
    hide FreshEnv, NewTo, NamedRules, ValidCall, Run, Begins, KeptFiles, AtMostOnce, Filed;
    var n := |sessions| - 1;
    var session := sessions[n];
    if n == 0 {
      FirstBegins(session);
    } else {
      EachBegins(sessions[..n]);
      var last := sessions[..n][n - 1];
      SessionsFollow(last.env, Opened(Left(sessions[..n][..n - 1]), last), last.calls, session.env, session.mode,
                     session.scope, session.replaceRules);
    }
  }

  lemma FirstBegins(session: Session)
    requires NamedRules(session.replaceRules)
    ensures var t := Opened(Left([]), session);
      Begins(session.env, t) && KeptFiles(t) && AtMostOnce(session.env, t) && forall id :: Lost(t, id) == 0
  {
    NothingLostYet(session.env, session.mode, session.scope, session.replaceRules);
  }

  /**
   Over any number of sessions on the same files no queue id comes to have two operator verdicts; and
   if all calls are careful, every ask any session queued is pending or answered at the end.
   */
  lemma {:induction false} SessionsConserve(sessions: seq<Session>, id: string)
    requires Separate(sessions)
    ensures Verdicts(Left(sessions).history, id) <= 1
    ensures Lost(Left(sessions), id) >= 0
    ensures (forall k | 0 <= k < |sessions| :: AllCareful(sessions[k].calls)) ==> Lost(Left(sessions), id) == 0
  {
    hide FreshEnv, NewTo, NamedRules, ValidCall, Run, Begins, KeptFiles, AtMostOnce, Filed, AllCareful;
    if sessions != [] {
      var n := |sessions| - 1;
      EachBegins(sessions);
      SessionsConserve(sessions[..n], id);
      var t := Opened(Left(sessions[..n]), sessions[n]);
      SameStores(Left(sessions[..n]), t);
      FiledItemsConserved(sessions[n].env, t, sessions[n].calls, id);
    }
  }
}
