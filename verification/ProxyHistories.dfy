/**
 The proxy history, in memory and on file
 (packages/integrations/intercept-gateway/src/history.ts).
 */
module ProxyHistories {
  import opened Prelude
  import opened Sorting
  import opened KeyedStores
  import opened AuditEvents
  import opened PolicyEngine
  import opened PolicyStores

  datatype ProxyOutcome = ProxyOutcome(actionId: string, exitCode: int, completedAt: string)

  datatype HistoryEntry = HistoryEntry(
    id: string, originalAction: Option<Action>, action: Action, decision: Decision, mode: Mode, recordedAt: string,
    queueId: Option<string>, appliedRuleIds: Option<seq<string>>, notes: Option<seq<string>>, outcome: Option<ProxyOutcome>)

  const ENTRIES: Keying<HistoryEntry> := Keying((e: HistoryEntry) => e.id, (e: HistoryEntry) => e.recordedAt)

  datatype HistoryFilter = HistoryFilter(tool: Option<string>, action: Option<string>, verdict: Option<Verdict>, inScopeOnly: bool)

  predicate MatchesFilter(e: HistoryEntry, f: HistoryFilter) {
    && (f.tool.Some? ==> e.action.tool == f.tool.value)
    && (f.action.Some? ==> e.action.action == f.action.value)
    && (f.verdict.Some? ==> e.decision.verdict == f.verdict.value)
    && (f.inScopeOnly ==> e.decision.scopeReason.None?)
  }

  predicate ValidOutcome(o: ProxyOutcome) { o.actionId != "" && IsTimestamp(o.completedAt) }

  predicate ValidDecision(d: Decision) {
    && NonEmptyStrings(d.reasons) && NonEmptyStrings(d.requiredBeforeSend)
    && (d.sourceRuleId.Some? ==> d.sourceRuleId.value != "")
    && (d.scopeReason.Some? ==> d.scopeReason.value != "")
    && (d.shadow.Some? ==> d.shadow.value.ruleId != "" && NonEmptyStrings(d.shadow.value.reasons))
  }

  /** `parseHistoryEntry` accepts the entry. */
  predicate ValidEntry(e: HistoryEntry) {
    && e.id != "" && ValidAction(e.action) && (e.originalAction.Some? ==> ValidAction(e.originalAction.value))
    && ValidDecision(e.decision) && IsTimestamp(e.recordedAt)
    && (e.queueId.Some? ==> e.queueId.value != "")
    && ValidIds(e.appliedRuleIds) && ValidIds(e.notes)
    && (e.outcome.Some? ==> ValidOutcome(e.outcome.value))
  }

  datatype HistoryError = InvalidEntry | EntryExists(id: string) | NoEntryForAction(actionId: string)

  datatype HistoryAnswer = Recorded | Refused(error: HistoryError) | Entries(entries: seq<HistoryEntry>) | Entry(entry: Option<HistoryEntry>)

  datatype HistoryCall =
    | Record(entry: HistoryEntry) | RecordOutcome(outcome: ProxyOutcome) | All(filter: HistoryFilter) | ById(id: string)

  function WithOutcome(e: HistoryEntry, o: ProxyOutcome): HistoryEntry {
    if e.action.id == o.actionId then e.(outcome := Some(o)) else e
  }

  function SetOutcome(o: ProxyOutcome): HistoryEntry -> HistoryEntry { (e: HistoryEntry) => WithOutcome(e, o) }

  function ForAction(entries: seq<HistoryEntry>, actionId: string): seq<HistoryEntry> {
    Filter(entries, (e: HistoryEntry) => e.action.id == actionId)
  }

  /** Only the file store parses what it is given. */
  function OnHistory(m: Medium, entries: seq<HistoryEntry>, call: HistoryCall): (HistoryAnswer, seq<HistoryEntry>) {
    match call
    case Record(e) =>
      if m == OnFile && !ValidEntry(e) then (Refused(InvalidEntry), entries)
      else if Has(ENTRIES, entries, e.id) then (Refused(EntryExists(e.id)), entries)
      else (Recorded, Write(m, ENTRIES, entries + [e]))
    case RecordOutcome(o) =>
      if m == OnFile && !ValidOutcome(o) then (Refused(InvalidEntry), entries)
      else if ForAction(entries, o.actionId) == [] then (Refused(NoEntryForAction(o.actionId)), entries)
      else (Recorded, Write(m, ENTRIES, Map(entries, SetOutcome(o))))
    case All(f) => (Entries(Saved(ENTRIES, Filter(entries, (e: HistoryEntry) => MatchesFilter(e, f)))), entries)
    case ById(id) => (Entry(Lookup(ENTRIES, entries, id)), entries)
  }

  class InMemoryProxyHistory {
    var entries: seq<HistoryEntry>

    constructor ()
      ensures entries == []
    {
      entries := [];
    }

    method Record(entry: HistoryEntry) returns (r: HistoryAnswer)
      modifies this
      ensures (r, entries) == OnHistory(InMemory, old(entries), HistoryCall.Record(entry))
    {
      if Has(ENTRIES, entries, entry.id) { return Refused(EntryExists(entry.id)); }
      entries := entries + [entry];
      r := Recorded;
    }

    /** Sets the outcome on every entry of the action, one map entry at a time. */
    method RecordOutcome(outcome: ProxyOutcome) returns (r: HistoryAnswer)
      modifies this
      requires Distinct(ENTRIES, entries)
      ensures (r, entries) == OnHistory(InMemory, old(entries), HistoryCall.RecordOutcome(outcome))
      ensures r.Refused? <==> forall e | e in old(entries) :: e.action.id != outcome.actionId
      ensures r.Refused? ==> entries == old(entries)
      ensures !r.Refused? ==> |entries| == |old(entries)| && forall i | 0 <= i < |entries| ::
        var e := old(entries)[i]; entries[i] == if e.action.id == outcome.actionId then e.(outcome := Some(outcome)) else e
    {
      var matches := ForAction(entries, outcome.actionId);
      ActionMembers(entries, outcome.actionId);
      if matches == [] { return Refused(NoEntryForAction(outcome.actionId)); }
      ghost var before := entries;
      ghost var done: nat := 0;
      hide WithOutcome, OutcomeSet, ForAction;
      NothingSet(before, outcome);
      for i := 0 to |matches|
        invariant OutcomeSet(before, entries, done, outcome)
        invariant matches[i..] == ForAction(before[done..], outcome.actionId)
      {
        ghost var n := FirstForAction(before, done, outcome.actionId);
        assert matches[i] == matches[i..][0] == before[n];
        SetNext(before, entries, done, n, outcome);
        entries := entries[Find(ENTRIES, entries, matches[i].id) := matches[i].(outcome := Some(outcome))];
        done := n + 1;
        assert matches[i..][1..] == matches[i + 1..];
      }
      NoneForAction(before[done..], outcome);
      AllSet(before, entries, done, outcome);
      r := Recorded;
    }

    method All(f: HistoryFilter) returns (r: seq<HistoryEntry>)
      ensures forall e :: e in r <==> e in entries && Asked(e, f)
      ensures Distinct(ENTRIES, entries) ==>
        Distinct(ENTRIES, r) && InOrder((e: HistoryEntry) => e.recordedAt, (e: HistoryEntry) => e.id, r)
      ensures (Entries(r), entries) == OnHistory(InMemory, entries, HistoryCall.All(f))
    {
      FilteredListing(entries, f);
      r := Sort(Filter(entries, (e: HistoryEntry) => MatchesFilter(e, f)), Order(ENTRIES));
    }

    method ById(id: string) returns (r: Option<HistoryEntry>)
      ensures IsStored(ENTRIES, entries, id, r)
      ensures (Entry(r), entries) == OnHistory(InMemory, entries, HistoryCall.ById(id))
    {
      LookupFinds(ENTRIES, entries, id);
      r := Lookup(ENTRIES, entries, id);
    }
  }

  class FileProxyHistory {
    var file: seq<HistoryEntry>

    constructor ()
      ensures file == []
    {
      file := [];
    }

    method Record(entry: HistoryEntry) returns (r: HistoryAnswer)
      modifies this
      ensures (r, file) == OnHistory(OnFile, old(file), HistoryCall.Record(entry))
    {
      if !ValidEntry(entry) { return Refused(InvalidEntry); }
      var entries := file;
      if Has(ENTRIES, entries, entry.id) { return Refused(EntryExists(entry.id)); }
      entries := entries + [entry];
      file := Sort(entries, Order(ENTRIES));
      r := Recorded;
    }

    method RecordOutcome(outcome: ProxyOutcome) returns (r: HistoryAnswer)
      modifies this
      ensures (r, file) == OnHistory(OnFile, old(file), HistoryCall.RecordOutcome(outcome))
    {
      if !ValidOutcome(outcome) { return Refused(InvalidEntry); }
      if ForAction(file, outcome.actionId) == [] { return Refused(NoEntryForAction(outcome.actionId)); }
      file := Sort(Map(file, SetOutcome(outcome)), Order(ENTRIES));
      r := Recorded;
    }

    method All(f: HistoryFilter) returns (r: seq<HistoryEntry>)
      ensures forall e :: e in r <==> e in file && Asked(e, f)
      ensures Distinct(ENTRIES, file) ==>
        Distinct(ENTRIES, r) && InOrder((e: HistoryEntry) => e.recordedAt, (e: HistoryEntry) => e.id, r)
      ensures (Entries(r), file) == OnHistory(OnFile, file, HistoryCall.All(f))
    {
      FilteredListing(file, f);
      r := Sort(Filter(file, (e: HistoryEntry) => MatchesFilter(e, f)), Order(ENTRIES));
    }

    method ById(id: string) returns (r: Option<HistoryEntry>)
      ensures IsStored(ENTRIES, file, id, r)
      ensures (Entry(r), file) == OnHistory(OnFile, file, HistoryCall.ById(id))
    {
      LookupFinds(ENTRIES, file, id);
      r := Lookup(ENTRIES, file, id);
    }
  }

  /** The entry is about the tool, the action and the verdict asked for, and decided in scope where that is asked. */
  predicate Asked(e: HistoryEntry, f: HistoryFilter) {
    && (f.tool.None? || e.action.tool == f.tool.value) && (f.action.None? || e.action.action == f.action.value)
    && (f.verdict.None? || e.decision.verdict == f.verdict.value) && !(f.inScopeOnly && e.decision.scopeReason.Some?)
  }

  lemma FilteredListing(entries: seq<HistoryEntry>, f: HistoryFilter)
    ensures var listed := Saved(ENTRIES, Filter(entries, (e: HistoryEntry) => MatchesFilter(e, f)));
      && (forall e :: e in listed <==> e in entries && Asked(e, f))
      && (Distinct(ENTRIES, entries) ==>
            Distinct(ENTRIES, listed) && InOrder((e: HistoryEntry) => e.recordedAt, (e: HistoryEntry) => e.id, listed))
  {
    var keep := (e: HistoryEntry) => MatchesFilter(e, f);
    var kept := Filter(entries, keep);
    FilterMembers(entries, keep);
    SavedLists(ENTRIES, kept);
    SameElements(Saved(ENTRIES, kept), kept);
    forall e ensures e in Saved(ENTRIES, kept) <==> e in kept {
      assert e in Elements(Saved(ENTRIES, kept)) <==> e in Elements(kept);
    }
    if Distinct(ENTRIES, entries) { WithoutDistinct(ENTRIES, entries, keep); }
  }

  /** The outcome is set in front of `done`, and nothing else has changed. */
  ghost predicate OutcomeSet(before: seq<HistoryEntry>, entries: seq<HistoryEntry>, done: nat, o: ProxyOutcome) {
    && Distinct(ENTRIES, entries) && done <= |before| == |entries|
    && (forall j | 0 <= j < done :: entries[j] == WithOutcome(before[j], o))
    && (forall j | done <= j < |before| :: entries[j] == before[j])
  }

  lemma NothingSet(entries: seq<HistoryEntry>, o: ProxyOutcome)
    requires Distinct(ENTRIES, entries)
    ensures OutcomeSet(entries, entries, 0, o) && entries[0..] == entries
  {
  }

  lemma ActionMembers(entries: seq<HistoryEntry>, actionId: string)
    ensures ForAction(entries, actionId) == [] <==> forall e | e in entries :: e.action.id != actionId
  {
    FilterMembers(entries, (e: HistoryEntry) => e.action.id == actionId);
    var found := ForAction(entries, actionId);
    if found != [] { assert found[0] in found; }
  }

  lemma SetNext(before: seq<HistoryEntry>, entries: seq<HistoryEntry>, done: nat, n: nat, o: ProxyOutcome)
    requires OutcomeSet(before, entries, done, o) && done <= n < |before| && before[n].action.id == o.actionId
    requires forall j | done <= j < n :: before[j].action.id != o.actionId
    ensures n < |entries| && Find(ENTRIES, entries, before[n].id) == n
    ensures OutcomeSet(before, entries[n := before[n].(outcome := Some(o))], n + 1, o)
  {
    FindUnique(ENTRIES, entries, n);
  }

  lemma AllSet(before: seq<HistoryEntry>, entries: seq<HistoryEntry>, done: nat, o: ProxyOutcome)
    requires OutcomeSet(before, entries, done, o)
    requires forall i | 0 <= i < |before[done..]| :: WithOutcome(before[done..][i], o) == before[done..][i]
    ensures entries == Map(before, SetOutcome(o)) && |entries| == |before|
    ensures forall i | 0 <= i < |entries| ::
      entries[i] == if before[i].action.id == o.actionId then before[i].(outcome := Some(o)) else before[i]
  {
    forall i | 0 <= i < |before| ensures entries[i] == WithOutcome(before[i], o) {
      if i >= done { assert before[i] == before[done..][i - done]; }
    }
  }

  /** The first entry of the action at or after `from`. */
  lemma {:induction false} FirstForAction(entries: seq<HistoryEntry>, from: nat, actionId: string) returns (n: nat)
    requires from <= |entries| && ForAction(entries[from..], actionId) != []
    ensures from <= n < |entries| && entries[n].action.id == actionId
    ensures forall j | from <= j < n :: entries[j].action.id != actionId
    ensures ForAction(entries[from..], actionId) == [entries[n]] + ForAction(entries[n + 1..], actionId)
    decreases |entries| - from
  {
    assert entries[from..][1..] == entries[from + 1..];
    if entries[from].action.id == actionId {
      n := from;
    } else {
      n := FirstForAction(entries, from + 1, actionId);
    }
  }

  lemma {:induction false} NoneForAction(entries: seq<HistoryEntry>, o: ProxyOutcome)
    requires ForAction(entries, o.actionId) == []
    ensures forall i | 0 <= i < |entries| :: WithOutcome(entries[i], o) == entries[i]
  {
    if entries != [] {
      NoneForAction(entries[1..], o);
      assert entries[0].action.id != o.actionId;
      forall i | 0 <= i < |entries| ensures WithOutcome(entries[i], o) == entries[i] {
        if i > 0 { assert entries[i] == entries[1..][i - 1]; }
      }
    }
  }

  // ---------------------------------------------------------------- file and memory agree

  function HistoryAnswers(m: Medium, entries: seq<HistoryEntry>, calls: seq<HistoryCall>): seq<HistoryAnswer>
    decreases |calls|
  {
    if calls == [] then []
    else var (answer, entries') := OnHistory(m, entries, calls[0]); [answer] + HistoryAnswers(m, entries', calls[1..])
  }

  predicate ValidHistoryCall(call: HistoryCall) {
    (call.Record? ==> ValidEntry(call.entry)) && (call.RecordOutcome? ==> ValidOutcome(call.outcome))
  }

  lemma HistoryCallAgrees(file: seq<HistoryEntry>, entries: seq<HistoryEntry>, call: HistoryCall)
    requires Backs(ENTRIES, file, entries) && ValidHistoryCall(call)
    ensures OnHistory(OnFile, file, call).0 == OnHistory(InMemory, entries, call).0
    ensures Backs(ENTRIES, OnHistory(OnFile, file, call).1, OnHistory(InMemory, entries, call).1)
  {
    hide ValidEntry, ValidOutcome, Backs, Saved, MatchesFilter;
    match call
    case Record(e) =>
      BacksLookup(ENTRIES, file, entries, e.id);
      if !Has(ENTRIES, entries, e.id) { BacksAdd(ENTRIES, file, entries, e); }
    case RecordOutcome(o) =>
      BacksPermutes(ENTRIES, file, entries);
      FilterPermutes(file, entries, (e: HistoryEntry) => e.action.id == o.actionId);
      SameElements(ForAction(file, o.actionId), ForAction(entries, o.actionId));
      BacksMap(ENTRIES, file, entries, SetOutcome(o));
    case All(f) =>
      BacksPermutes(ENTRIES, file, entries);
      var keep := (e: HistoryEntry) => MatchesFilter(e, f);
      FilterPermutes(entries, file, keep);
      WithoutDistinct(ENTRIES, entries, keep) by { assert Distinct(ENTRIES, entries) by { BacksDistinct(file, entries); } }
      SavedAlike(ENTRIES, Filter(entries, keep), Filter(file, keep));
    case ById(id) => BacksLookup(ENTRIES, file, entries, id);
  }

  lemma BacksDistinct(file: seq<HistoryEntry>, entries: seq<HistoryEntry>)
    requires Backs(ENTRIES, file, entries)
    ensures Distinct(ENTRIES, entries)
  {
  }

  /** Every run of valid calls gets the same answers from the file as from memory. */
  lemma {:induction false} HistoriesAgree(file: seq<HistoryEntry>, entries: seq<HistoryEntry>, calls: seq<HistoryCall>)
    requires Backs(ENTRIES, file, entries) && forall c | c in calls :: ValidHistoryCall(c)
    ensures HistoryAnswers(OnFile, file, calls) == HistoryAnswers(InMemory, entries, calls)
    decreases |calls|
  {
    hide OnHistory, Backs, ValidHistoryCall;
    if calls != [] {
      HistoryCallAgrees(file, entries, calls[0]);
      HistoriesAgree(OnHistory(OnFile, file, calls[0]).1, OnHistory(InMemory, entries, calls[0]).1, calls[1..]);
    }
  }
}
