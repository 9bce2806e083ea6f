/**
 Opening governance cases from a grading report (packages/governance/src/requirement-case.ts)
 over the case store (packages/integrations/governance-case-store/src/index.ts). The loop
 reads live cases through a lazy per-deal cache; the specification reads the store afresh.
 */
module CaseOpenings {
  import opened Prelude
  import opened Sorting
  import opened KeyedStores
  import opened GovernanceCases
  import opened RequirementStores
  import opened RequirementChecks

  // ---------------------------------------------------------------- the case store

  const CASES: Keying<GovernanceCase> := Keying((c: GovernanceCase) => c.id, (c: GovernanceCase) => c.detectedAt)

  function OnDeal(dealId: string): GovernanceCase -> bool { (c: GovernanceCase) => c.dealId == dealId }

  class InMemoryGovernanceCaseStore {
    var cases: seq<GovernanceCase>

    constructor ()
      ensures cases == []
    {
      cases := [];
    }

    method Open(c: GovernanceCase)
      modifies this
      ensures cases == Put(CASES, old(cases), c)
      ensures old(Distinct(CASES, cases)) ==> Distinct(CASES, cases) && Lookup(CASES, cases, c.id) == Some(c)
    {
      if Distinct(CASES, cases) { PutLookup(CASES, cases, c, c.id); }
      cases := Put(CASES, cases, c);
    }

    method Correct(caseId: string)
      modifies this
      ensures match Lookup(CASES, old(cases), caseId)
        case None => cases == old(cases)
        case Some(c) => cases == Put(CASES, old(cases), c.(status := Corrected))
    {
      var c := Lookup(CASES, cases, caseId);
      if c.Some? { cases := Put(CASES, cases, c.value.(status := Corrected)); }
    }

    method ByDeal(dealId: string) returns (r: seq<GovernanceCase>)
      ensures Selects(r, cases, OnDeal(dealId))
      ensures forall c :: c in r <==> c in cases && c.dealId == dealId
      ensures r == Filter(cases, OnDeal(dealId))
    {
      FilterSelects(cases, OnDeal(dealId));
      FilterMembers(cases, OnDeal(dealId));
      r := Filter(cases, OnDeal(dealId));
    }
  }

  // ---------------------------------------------------------------- live cases

  predicate IsLive(s: CaseStatus) { s in {OpenCase, Corrected, Enforced, Reopened} }

  /** The case is live, on this deal, for this requirement text. */
  predicate LiveFor(c: GovernanceCase, dealId: string, text: string) {
    c.dealId == dealId && c.missedRequirement == text && IsLive(c.status)
  }

  /** The first live case for a text on a deal. */
  function FirstLive(cases: seq<GovernanceCase>, dealId: string, text: string): Option<GovernanceCase> {
    if cases == [] then None
    else if LiveFor(cases[0], dealId, text) then Some(cases[0])
    else FirstLive(cases[1..], dealId, text)
  }

  function LiveCount(cases: seq<GovernanceCase>, dealId: string, text: string): nat {
    |Filter(cases, (c: GovernanceCase) => LiveFor(c, dealId, text))|
  }

  lemma {:induction false} FirstLiveAppend(cases: seq<GovernanceCase>, c: GovernanceCase, dealId: string, text: string)
    ensures FirstLive(cases + [c], dealId, text) ==
      var front := FirstLive(cases, dealId, text);
      if front.Some? then front else if LiveFor(c, dealId, text) then Some(c) else None
  {
    if cases == [] {
      assert cases + [c] == [c];
    } else {
      assert (cases + [c])[1..] == cases[1..] + [c];
      FirstLiveAppend(cases[1..], c, dealId, text);
    }
  }

  lemma {:induction false} LiveCountPositive(cases: seq<GovernanceCase>, dealId: string, text: string)
    ensures LiveCount(cases, dealId, text) > 0 <==> FirstLive(cases, dealId, text).Some?
  {
    if cases != [] { LiveCountPositive(cases[1..], dealId, text); }
  }

  lemma LiveCountAppend(cases: seq<GovernanceCase>, c: GovernanceCase, dealId: string, text: string)
    ensures LiveCount(cases + [c], dealId, text) == LiveCount(cases, dealId, text) + (if LiveFor(c, dealId, text) then 1 else 0)
  {
    FilterStep(cases, c, (x: GovernanceCase) => LiveFor(x, dealId, text));
  }

  // ---------------------------------------------------------------- a case for a finding

  datatype OpenError = UnknownRequirement(id: string) | FindingMismatch | NotCaseOpening(id: string)

  function CategoryFor(s: FindingStatus): string {
    match s
    case Missing => "requirement-missing"
    case Contradicted => "requirement-contradicted"
    case UnsupportedOnTrackClaim => "unsupported-on-track-claim"
    case MissingOwnerOrWorkstream => "missing-owner-or-workstream"
    case Satisfied => "requirement-violation"
  }

  function RecommendedActionsFor(r: Requirement, f: Finding): seq<string> {
    var ref := "requirement " + r.id + " (\"" + r.text + "\")";
    var assign := "Assign a " + r.ownerRole + " owner accountable for " + r.id + ".";
    match f.status
    case Contradicted =>
      ["Reverse or block the action that overrides " + ref + ".", assign,
       "Record an audit event capturing the override of " + r.id + "."]
    case MissingOwnerOrWorkstream =>
      ["Assign a " + r.ownerRole + " owner / workstream for " + ref + ".",
       "Open a remediation workstream tracking " + r.id + " to completion."]
    case UnsupportedOnTrackClaim =>
      ["Move the deal to At Risk until " + ref + " is satisfied.",
       "Block customer-facing on-track updates until " + r.id + " is satisfied.", assign]
    case _ =>
      ["Open a remediation workstream for " + ref + ".", assign, "Block downstream actions until " + r.id + " is satisfied."]
  }

  function NonEmpty(ss: seq<string>): Option<seq<string>> { if ss == [] then None else Some(ss) }

  /** A blocking open case that cites the requirement's own text, surfaces and evidence. */
  function GovernanceCaseForFinding(r: Requirement, f: Finding, id: string, at: string, impact: Option<string>):
    (c: Result<GovernanceCase, OpenError>)
    ensures c.Ok? <==> f.requirementId == r.id && f.caseOpening
    ensures c.Ok? ==> c.value.id == id && LiveFor(c.value, r.dealId, r.text)
  {
    if f.requirementId != r.id then Err(FindingMismatch)
    else if !f.caseOpening then Err(NotCaseOpening(r.id))
    else Ok(GovernanceCase(id, r.dealId, r.text, CategoryFor(f.status), Blocking, OpenCase, at, impact,
                           NonEmpty(r.scope), NonEmpty(r.evidenceRefs), Some(RecommendedActionsFor(r, f))))
  }

  // ---------------------------------------------------------------- the specification

  datatype Deduped = Deduped(requirementId: string, existingCaseId: string)

  datatype Opening = Opening(newCases: seq<GovernanceCase>, deduped: seq<Deduped>)

  /** The stored cases, and how many ids and clock readings were drawn. */
  datatype OpenState = OpenState(cases: seq<GovernanceCase>, nextId: nat, ticks: nat)

  /** What one call opens, given the findings, the requirements by id, and where ids and time come from. */
  datatype Job = Job(src: Source, requirements: seq<Requirement>, impact: Option<string>)

  /** One finding: a live case for the requirement's text on its deal, read afresh, makes it a duplicate. */
  function OpenOne(job: Job, s: OpenState, f: Finding): (Result<Opening, OpenError>, OpenState) {
    match Latest(job.requirements, f.requirementId)
    case None => (Err(UnknownRequirement(f.requirementId)), s)
    case Some(r) =>
      match FirstLive(s.cases, r.dealId, r.text)
      case Some(existing) => (Ok(Opening([], [Deduped(r.id, existing.id)])), s)
      case None =>
        var drawn := s.(nextId := s.nextId + 1, ticks := s.ticks + 1);
        match GovernanceCaseForFinding(r, f, job.src.ids(s.nextId), job.src.clock(s.ticks), job.impact)
        case Err(e) => (Err(e), drawn)
        case Ok(c) => (Ok(Opening([c], [])), drawn.(cases := Put(CASES, s.cases, c)))
  }

  function Joined(front: Opening, rest: Result<Opening, OpenError>): Result<Opening, OpenError> {
    if rest.Err? then rest else Ok(Opening(front.newCases + rest.value.newCases, front.deduped + rest.value.deduped))
  }

  function OpenAll(job: Job, s: OpenState, findings: seq<Finding>): (Result<Opening, OpenError>, OpenState)
    decreases |findings|
  {
    if findings == [] then (Ok(Opening([], [])), s)
    else
      var (first, s1) := OpenOne(job, s, findings[0]);
      if first.Err? then (first, s1)
      else var (rest, s2) := OpenAll(job, s1, findings[1..]); (Joined(first.value, rest), s2)
  }

  // ---------------------------------------------------------------- the cache

  type Index = map<string, string>

  /** The index is what a fresh read of the store gives: the first live case of each text. */
  ghost predicate IndexFits(index: Index, cases: seq<GovernanceCase>, dealId: string) {
    forall text ::
      match FirstLive(cases, dealId, text)
      case None => text !in index
      case Some(c) => text in index && index[text] == c.id
  }

  ghost predicate CacheFits(cache: map<string, Index>, cases: seq<GovernanceCase>) {
    forall dealId | dealId in cache :: IndexFits(cache[dealId], cases, dealId)
  }

  lemma {:induction false} FirstLiveOfDeal(cases: seq<GovernanceCase>, dealId: string, text: string)
    ensures FirstLive(Filter(cases, OnDeal(dealId)), dealId, text) == FirstLive(cases, dealId, text)
  {
    if cases != [] {
      FirstLiveOfDeal(cases[1..], dealId, text);
      var rest := Filter(cases[1..], OnDeal(dealId));
      assert ([cases[0]] + rest)[1..] == rest;
    }
  }

  lemma IndexGrows(index: Index, cases: seq<GovernanceCase>, c: GovernanceCase, dealId: string)
    requires IndexFits(index, cases, dealId) && c.dealId == dealId
    ensures IndexFits(if IsLive(c.status) && c.missedRequirement !in index then index[c.missedRequirement := c.id] else index,
                      cases + [c], dealId)
  {
    hide FirstLive;
    forall text ensures FirstLive(cases + [c], dealId, text) ==
      var front := FirstLive(cases, dealId, text);
      if front.Some? then front else if LiveFor(c, dealId, text) then Some(c) else None
    {
      FirstLiveAppend(cases, c, dealId, text);
    }
    assert match FirstLive(cases, dealId, c.missedRequirement)
           case None => c.missedRequirement !in index
           case Some(_) => c.missedRequirement in index;
  }

  lemma IndexOfOtherDeal(index: Index, cases: seq<GovernanceCase>, c: GovernanceCase, dealId: string)
    requires IndexFits(index, cases, dealId) && c.dealId != dealId
    ensures IndexFits(index, cases + [c], dealId)
  {
    hide FirstLive;
    forall text ensures FirstLive(cases + [c], dealId, text) == FirstLive(cases, dealId, text) {
      FirstLiveAppend(cases, c, dealId, text);
    }
  }

  // ---------------------------------------------------------------- the loop

  /** The store, the id generator and the clock a call is given. */
  class Deps {
    const caseStore: InMemoryGovernanceCaseStore
    const src: Source
    var nextId: nat
    var ticks: nat

    constructor (caseStore: InMemoryGovernanceCaseStore, src: Source)
      ensures this.caseStore == caseStore && this.src == src && nextId == 0 && ticks == 0
    {
      this.caseStore, this.src, nextId, ticks := caseStore, src, 0, 0;
    }

    function State(): OpenState
      reads this, caseStore
    {
      OpenState(caseStore.cases, nextId, ticks)
    }
  }

  /** Every id still to be drawn is new to the store and drawn once. */
  ghost predicate FreshIds(src: Source, s: OpenState) {
    && (forall i: nat | i >= s.nextId :: !Has(CASES, s.cases, src.ids(i)))
    && (forall i: nat, j: nat | s.nextId <= i < j :: src.ids(i) != src.ids(j))
  }

  /** `liveCasesFor`, filling the index of a deal from one read of the store. */
  method LiveCasesFor(caseStore: InMemoryGovernanceCaseStore, dealId: string) returns (index: Index)
    ensures IndexFits(index, caseStore.cases, dealId)
  {
    hide FirstLive, Selects;
    var onDeal := caseStore.ByDeal(dealId);
    index := map[];
    assert IndexFits(map[], [], dealId) by { NoLive(dealId); }
    assert onDeal[..0] == [];
    for i := 0 to |onDeal|
      invariant IndexFits(index, onDeal[..i], dealId)
    {
      var existing := onDeal[i];
      assert existing.dealId == dealId by { FilterMembers(caseStore.cases, OnDeal(dealId)); assert existing in onDeal; }
      IndexGrows(index, onDeal[..i], existing, dealId);
      assert onDeal[..i + 1] == onDeal[..i] + [existing];
      if IsLive(existing.status) && existing.missedRequirement !in index {
        index := index[existing.missedRequirement := existing.id];
      }
    }
    assert onDeal[..|onDeal|] == onDeal;
    forall text ensures FirstLive(onDeal, dealId, text) == FirstLive(caseStore.cases, dealId, text) {
      FirstLiveOfDeal(caseStore.cases, dealId, text);
    }
  }

  lemma NoLive(dealId: string)
    ensures IndexFits(map[], [], dealId)
  {
  }

  lemma JoinedStep(front: Opening, one: Opening, rest: Result<Opening, OpenError>)
    ensures Joined(front, Joined(one, rest)) == Joined(Opening(front.newCases + one.newCases, front.deduped + one.deduped), rest)
  {
    if rest.Ok? {
      assert front.newCases + (one.newCases + rest.value.newCases) == front.newCases + one.newCases + rest.value.newCases;
      assert front.deduped + (one.deduped + rest.value.deduped) == front.deduped + one.deduped + rest.value.deduped;
    }
  }

  lemma JoinedSkip(newCases: seq<GovernanceCase>, deduped: seq<Deduped>, d: Deduped, rest: Result<Opening, OpenError>)
    ensures Joined(Opening(newCases, deduped), Joined(Opening([], [d]), rest)) == Joined(Opening(newCases, deduped + [d]), rest)
  {
    JoinedStep(Opening(newCases, deduped), Opening([], [d]), rest);
    assert newCases + [] == newCases;
  }

  lemma JoinedOpen(newCases: seq<GovernanceCase>, deduped: seq<Deduped>, c: GovernanceCase, rest: Result<Opening, OpenError>)
    ensures Joined(Opening(newCases, deduped), Joined(Opening([c], []), rest)) == Joined(Opening(newCases + [c], deduped), rest)
  {
    JoinedStep(Opening(newCases, deduped), Opening([c], []), rest);
    assert deduped + [] == deduped;
  }

  lemma JoinedEnd(newCases: seq<GovernanceCase>, deduped: seq<Deduped>)
    ensures Joined(Opening(newCases, deduped), Ok(Opening([], []))) == Ok(Opening(newCases, deduped))
  {
    assert newCases + [] == newCases && deduped + [] == deduped;
  }

  lemma JoinedError(front: Opening, e: OpenError)
    ensures Joined(front, Err(e)) == Err(e)
  {
  }

  lemma JoinedNothing(rest: Result<Opening, OpenError>)
    ensures Joined(Opening([], []), rest) == rest
  {
    if rest.Ok? { assert [] + rest.value.newCases == rest.value.newCases && [] + rest.value.deduped == rest.value.deduped; }
  }

  /** A fresh case goes last, and the ids still to come stay fresh. */
  lemma OpenedFresh(src: Source, s: OpenState, c: GovernanceCase)
    requires FreshIds(src, s) && c.id == src.ids(s.nextId)
    ensures Put(CASES, s.cases, c) == s.cases + [c]
    ensures FreshIds(src, OpenState(s.cases + [c], s.nextId + 1, s.ticks + 1))
  {
    forall i: nat | i > s.nextId ensures !Has(CASES, s.cases + [c], src.ids(i)) {
      assert forall k | 0 <= k < |s.cases| :: (s.cases + [c])[k] == s.cases[k];
      assert Find(CASES, s.cases, src.ids(i)) == |s.cases|;
    }
  }

  /** What one finding does, by the answers the loop gets. */
  lemma OneFinding(job: Job, s: OpenState, f: Finding)
    ensures Latest(job.requirements, f.requirementId).None? ==> OpenOne(job, s, f) == (Err(UnknownRequirement(f.requirementId)), s)
    ensures Latest(job.requirements, f.requirementId).Some? ==>
      var q := Latest(job.requirements, f.requirementId).value;
      var live := FirstLive(s.cases, q.dealId, q.text);
      if live.Some? then OpenOne(job, s, f) == (Ok(Opening([], [Deduped(q.id, live.value.id)])), s)
      else
        var c := GovernanceCaseForFinding(q, f, job.src.ids(s.nextId), job.src.clock(s.ticks), job.impact);
        if c.Err? then OpenOne(job, s, f) == (Err(c.error), OpenState(s.cases, s.nextId + 1, s.ticks + 1))
        else OpenOne(job, s, f) == (Ok(Opening([c.value], [])), OpenState(Put(CASES, s.cases, c.value), s.nextId + 1, s.ticks + 1))
  {
    hide FirstLive, Latest, GovernanceCaseForFinding;
  }

  /** With fresh ids, the loop over the cache opens and skips exactly what fresh reads of the store would. */
  method OpenCasesFromReport(deps: Deps, requirements: seq<Requirement>, findings: seq<Finding>, impact: Option<string>)
    returns (r: Result<Opening, OpenError>)
    requires FreshIds(deps.src, deps.State())
    modifies deps`nextId, deps`ticks, deps.caseStore
    ensures (r, deps.State()) == OpenAll(Job(deps.src, requirements, impact), old(deps.State()), findings)
    ensures FreshIds(deps.src, deps.State())
  {
    hide FirstLive, IndexFits, CacheFits, FreshIds, GovernanceCaseForFinding, Latest, Joined, OpenOne, Put, Has,
         Distinct, Lookup;
    var job := Job(deps.src, requirements, impact);
    ghost var goal := OpenAll(job, deps.State(), findings);
    var cache: map<string, Index> := map[];
    var newCases: seq<GovernanceCase> := [];
    var deduped: seq<Deduped> := [];
    assert findings[0..] == findings;
    JoinedNothing(goal.0);
    assert CacheFits(cache, deps.caseStore.cases) by { EmptyCacheFits(deps.caseStore.cases); }
    for i := 0 to |findings|
      invariant FreshIds(deps.src, deps.State())
      invariant CacheFits(cache, deps.caseStore.cases)
      invariant var rest := OpenAll(job, deps.State(), findings[i..]);
        goal.1 == rest.1 && goal.0 == Joined(Opening(newCases, deduped), rest.0)
    {
      assert findings[i..][1..] == findings[i + 1..];
      ghost var here := deps.State();
      ghost var (one, next) := OpenOne(job, here, findings[i]);
      ghost var rest := OpenAll(job, next, findings[i + 1..]).0;
      OneFinding(job, here, findings[i]);
      var requirement := Latest(requirements, findings[i].requirementId);
      if one.Err? { JoinedError(Opening(newCases, deduped), one.error); }
      if requirement.None? { return Err(UnknownRequirement(findings[i].requirementId)); }
      var q := requirement.value;
      var index: Index;
      if q.dealId in cache {
        index := cache[q.dealId];
        CachedFits(cache, deps.caseStore.cases, q.dealId);
      } else {
        index := LiveCasesFor(deps.caseStore, q.dealId);
        CacheFilled(cache, deps.caseStore.cases, q.dealId, index);
        cache := cache[q.dealId := index];
      }
      IndexAnswers(index, deps.caseStore.cases, q.dealId, q.text);
      if q.text in index {
        JoinedSkip(newCases, deduped, Deduped(q.id, index[q.text]), rest);
        deduped := deduped + [Deduped(q.id, index[q.text])];
      } else {
        var id := deps.src.ids(deps.nextId);
        var detectedAt := deps.src.clock(deps.ticks);
        deps.nextId, deps.ticks := deps.nextId + 1, deps.ticks + 1;
        var c := GovernanceCaseForFinding(q, findings[i], id, detectedAt, impact);
        if c.Err? { FreshStays(deps.src, here, deps.State()); return Err(c.error); }
        OpenedFresh(deps.src, here, c.value);
        CaseCites(q, findings[i], id, detectedAt, impact);
        CacheGrows(cache, here.cases, c.value, q.dealId);
        deps.caseStore.Open(c.value);
        assert deps.State() == next;
        JoinedOpen(newCases, deduped, c.value, rest);
        newCases := newCases + [c.value];
        index := index[q.text := c.value.id];
        cache := cache[q.dealId := index];
      }
    }
    JoinedEnd(newCases, deduped);
    r := Ok(Opening(newCases, deduped));
  }

  lemma EmptyCacheFits(cases: seq<GovernanceCase>)
    ensures CacheFits(map[], cases)
  {
  }

  lemma CachedFits(cache: map<string, Index>, cases: seq<GovernanceCase>, dealId: string)
    requires CacheFits(cache, cases) && dealId in cache
    ensures IndexFits(cache[dealId], cases, dealId)
  {
    hide IndexFits;
  }

  lemma CacheFilled(cache: map<string, Index>, cases: seq<GovernanceCase>, dealId: string, index: Index)
    requires CacheFits(cache, cases) && IndexFits(index, cases, dealId)
    ensures CacheFits(cache[dealId := index], cases)
  {
    hide IndexFits;
  }

  lemma IndexAnswers(index: Index, cases: seq<GovernanceCase>, dealId: string, text: string)
    requires IndexFits(index, cases, dealId)
    ensures text in index <==> FirstLive(cases, dealId, text).Some?
    ensures text in index ==> index[text] == FirstLive(cases, dealId, text).value.id
  {
    hide FirstLive;
  }

  lemma FreshStays(src: Source, s: OpenState, s': OpenState)
    requires FreshIds(src, s) && s'.cases == s.cases && s'.nextId >= s.nextId
    ensures FreshIds(src, s')
  {
  }

  lemma CaseCites(r: Requirement, f: Finding, id: string, at: string, impact: Option<string>)
    requires GovernanceCaseForFinding(r, f, id, at, impact).Ok?
    ensures var c := GovernanceCaseForFinding(r, f, id, at, impact).value;
      c.id == id && c.dealId == r.dealId && c.missedRequirement == r.text && IsLive(c.status)
  {
  }

  lemma CacheGrows(cache: map<string, Index>, cases: seq<GovernanceCase>, c: GovernanceCase, dealId: string)
    requires CacheFits(cache, cases) && dealId in cache && c.dealId == dealId && IsLive(c.status)
    requires c.missedRequirement !in cache[dealId]
    ensures CacheFits(cache[dealId := cache[dealId][c.missedRequirement := c.id]], cases + [c])
  {
    hide IndexFits, FirstLive;
    IndexGrows(cache[dealId], cases, c, dealId);
    forall d | d in cache && d != dealId ensures IndexFits(cache[d], cases + [c], d) {
      IndexOfOtherDeal(cache[d], cases, c, d);
    }
  }

  // ---------------------------------------------------------------- what every call guarantees

  lemma OneKeeps(job: Job, s: OpenState, f: Finding)
    requires FreshIds(job.src, s)
    ensures var (r, s') := OpenOne(job, s, f);
      && FreshIds(job.src, s') && s.cases <= s'.cases
      && (r.Err? ==> s'.cases == s.cases)
      && (r.Ok? ==>
            && s'.cases == s.cases + r.value.newCases && |r.value.newCases| + |r.value.deduped| == 1
            && (r.value.newCases == [] ==> s' == s)
            && Latest(job.requirements, f.requirementId).Some?
            && var q := Latest(job.requirements, f.requirementId).value;
               FirstLive(s'.cases, q.dealId, q.text).Some?)
  {
    hide FirstLive, Latest;
    match Latest(job.requirements, f.requirementId)
    case None =>
    case Some(q) =>
      if FirstLive(s.cases, q.dealId, q.text).None? {
        var s' := OpenOne(job, s, f).1;
        var c := GovernanceCaseForFinding(q, f, job.src.ids(s.nextId), job.src.clock(s.ticks), job.impact);
        if c.Ok? {
          OpenedFresh(job.src, s, c.value);
          FirstLiveAppend(s.cases, c.value, q.dealId, q.text);
        } else {
          FreshStays(job.src, s, s');
        }
      }
  }

  /** One finding opens a case only where there is no live one. */
  lemma OneCounts(job: Job, s: OpenState, f: Finding, dealId: string, text: string)
    requires FreshIds(job.src, s)
    ensures var s' := OpenOne(job, s, f).1;
      || LiveCount(s'.cases, dealId, text) == LiveCount(s.cases, dealId, text)
      || (LiveCount(s.cases, dealId, text) == 0 && LiveCount(s'.cases, dealId, text) == 1)
  {
    hide FirstLive, Latest, LiveCount;
    match Latest(job.requirements, f.requirementId)
    case None =>
    case Some(q) =>
      if FirstLive(s.cases, q.dealId, q.text).None? {
        var c := GovernanceCaseForFinding(q, f, job.src.ids(s.nextId), job.src.clock(s.ticks), job.impact);
        if c.Ok? {
          OpenedFresh(job.src, s, c.value);
          LiveCountPositive(s.cases, dealId, text);
          LiveCountAppend(s.cases, c.value, dealId, text);
        }
      }
  }

  /** Whether the call returns or throws, it only adds cases, and never a second live one for a text on a deal. */
  lemma {:induction false} NeverTwoLive(job: Job, s: OpenState, findings: seq<Finding>, dealId: string, text: string)
    requires FreshIds(job.src, s)
    ensures var s' := OpenAll(job, s, findings).1;
      && s.cases <= s'.cases
      && (|| LiveCount(s'.cases, dealId, text) == LiveCount(s.cases, dealId, text)
          || (LiveCount(s.cases, dealId, text) == 0 && LiveCount(s'.cases, dealId, text) == 1))
    decreases |findings|
  {
    hide OpenOne, LiveCount, FreshIds, FirstLive, Latest;
    if findings != [] {
      OneKeeps(job, s, findings[0]);
      OneCounts(job, s, findings[0], dealId, text);
      if OpenOne(job, s, findings[0]).0.Ok? {
        NeverTwoLive(job, OpenOne(job, s, findings[0]).1, findings[1..], dealId, text);
      }
    }
  }

  /** The finding's requirement is known and has a live case. */
  ghost predicate Covered(job: Job, cases: seq<GovernanceCase>, f: Finding) {
    match Latest(job.requirements, f.requirementId)
    case None => false
    case Some(q) => FirstLive(cases, q.dealId, q.text).Some?
  }

  lemma {:induction false} LiveStays(cases: seq<GovernanceCase>, more: seq<GovernanceCase>, dealId: string, text: string)
    requires FirstLive(cases, dealId, text).Some? && cases <= more
    ensures FirstLive(more, dealId, text).Some?
  {
    assert more[0] == cases[0];
    if !LiveFor(cases[0], dealId, text) {
      assert cases[1..] <= more[1..];
      LiveStays(cases[1..], more[1..], dealId, text);
    }
  }

  /** Every finding either opens a case or is deduplicated, and has a live case afterwards. */
  lemma {:induction false} EveryFindingCovered(job: Job, s: OpenState, findings: seq<Finding>)
    requires FreshIds(job.src, s) && OpenAll(job, s, findings).0.Ok?
    ensures var (r, s') := OpenAll(job, s, findings);
      && |r.value.newCases| + |r.value.deduped| == |findings|
      && s'.cases == s.cases + r.value.newCases && FreshIds(job.src, s')
      && forall f | f in findings :: Covered(job, s'.cases, f)
    decreases |findings|
  {
    hide OpenOne, FreshIds, FirstLive, Latest;
    if findings == [] {
      assert s.cases + [] == s.cases;
    } else {
      OneKeeps(job, s, findings[0]);
      var (one, s1) := OpenOne(job, s, findings[0]);
      EveryFindingCovered(job, s1, findings[1..]);
      var (rest, s') := OpenAll(job, s1, findings[1..]);
      assert (s.cases + one.value.newCases) + rest.value.newCases == s.cases + (one.value.newCases + rest.value.newCases);
      var q := Latest(job.requirements, findings[0].requirementId).value;
      LiveStays(s1.cases, s'.cases, q.dealId, q.text);
      assert Covered(job, s'.cases, findings[0]);
    }
  }

  lemma {:induction false} CoveredOpensNothing(job: Job, s: OpenState, findings: seq<Finding>)
    requires forall f | f in findings :: Covered(job, s.cases, f)
    ensures var (r, s') := OpenAll(job, s, findings);
      s' == s && r.Ok? && r.value.newCases == [] && |r.value.deduped| == |findings|
    decreases |findings|
  {
    hide FirstLive, Latest;
    if findings != [] {
      assert Covered(job, s.cases, findings[0]);
      CoveredOpensNothing(job, s, findings[1..]);
    }
  }

  /** Running the same report again opens nothing and changes nothing. */
  lemma RerunOpensNothing(job: Job, s: OpenState, findings: seq<Finding>)
    requires FreshIds(job.src, s) && OpenAll(job, s, findings).0.Ok?
    ensures var s' := OpenAll(job, s, findings).1;
      var (again, s'') := OpenAll(job, s', findings);
      s'' == s' && again.Ok? && again.value.newCases == [] && |again.value.deduped| == |findings|
  {
    hide OpenAll, FreshIds, Covered;
    EveryFindingCovered(job, s, findings);
    CoveredOpensNothing(job, OpenAll(job, s, findings).1, findings);
  }

  /** A report of case-opening findings goes through exactly when every requirement it cites is known. */
  lemma {:induction false} OpensIff(job: Job, s: OpenState, findings: seq<Finding>)
    requires forall f | f in findings :: f.caseOpening
    ensures OpenAll(job, s, findings).0.Ok? <==> forall f | f in findings :: Latest(job.requirements, f.requirementId).Some?
    decreases |findings|
  {
    if findings != [] {
      LatestHasId(job.requirements, findings[0].requirementId);
      hide FirstLive, Latest, GovernanceCaseForFinding;
      assert findings[0] in findings;
      var (one, s1) := OpenOne(job, s, findings[0]);
      assert one.Ok? <==> Latest(job.requirements, findings[0].requirementId).Some?;
      if one.Ok? {
        OpensIff(job, s1, findings[1..]);
        assert findings == [findings[0]] + findings[1..];
      }
    }
  }

  lemma {:induction false} LatestHasId(versions: seq<Requirement>, id: string)
    ensures Latest(versions, id).Some? ==> Latest(versions, id).value in versions && Latest(versions, id).value.id == id
    ensures Latest(versions, id).Some? <==> exists r | r in versions :: r.id == id
  {
    if versions != [] {
      var n := |versions| - 1;
      LatestHasId(versions[..n], id);
      assert versions == versions[..n] + [versions[n]];
    }
  }

  // ---------------------------------------------------------------- what an opened case says

  /** A case is live unless it is dismissed or closed. */
  lemma LiveUnlessTerminal(s: CaseStatus)
    ensures IsLive(s) <==> s != Dismissed && s != Closed
  {
  }

  ghost predicate HasPart(s: string, part: string) { exists pre, post :: s == pre + part + post }

  lemma PartOf(pre: string, part: string, post: string)
    ensures HasPart(pre + part + post, part)
  {
  }

  /** The list, where there is none nothing. */
  predicate Lists(ss: Option<seq<string>>, list: seq<string>) { if list == [] then ss.None? else ss == Some(list) }

  /** An opened case: blocking and open, for the requirement's text on its deal, with its surfaces and its evidence. */
  ghost predicate OpenedFor(c: GovernanceCase, r: Requirement, f: Finding, at: string, impact: Option<string>) {
    && c.severity == Blocking && c.status == OpenCase && c.detectedAt == at && c.businessImpact == impact
    && c.dealId == r.dealId && c.missedRequirement == r.text && Lists(c.missingFrom, r.scope) && Lists(c.evidenceIds, r.evidenceRefs)
    && c.category == CategoryFor(f.status)
    && c.recommendedActions.Some? && c.recommendedActions.value != []
    && forall x | x in c.recommendedActions.value :: HasPart(x, r.id)
  }

  /** The categories tell the failures apart. */
  lemma CategoriesDiffer(s: FindingStatus, t: FindingStatus)
    requires CategoryFor(s) == CategoryFor(t)
    ensures s == t
  {
    assert |CategoryFor(s)| == match s case Missing => 19 case Contradicted => 24 case UnsupportedOnTrackClaim => 26
                                       case MissingOwnerOrWorkstream => 27 case Satisfied => 21;
    assert |CategoryFor(t)| == match t case Missing => 19 case Contradicted => 24 case UnsupportedOnTrackClaim => 26
                                       case MissingOwnerOrWorkstream => 27 case Satisfied => 21;
  }

  lemma ActionsNameRequirement(r: Requirement, f: Finding)
    ensures forall x | x in RecommendedActionsFor(r, f) :: HasPart(x, r.id)
  {
    var id, rest := r.id, " (\"" + r.text + "\")";
    var assign := "Assign a " + r.ownerRole + " owner accountable for " + id + ".";
    PartOf("Assign a " + r.ownerRole + " owner accountable for ", id, ".");
    PartOf("Record an audit event capturing the override of ", id, ".");
    PartOf("Open a remediation workstream tracking ", id, " to completion.");
    PartOf("Block customer-facing on-track updates until ", id, " is satisfied.");
    PartOf("Block downstream actions until ", id, " is satisfied.");
    RefHasId("Reverse or block the action that overrides ", id, rest, ".");
    RefHasId("Assign a " + r.ownerRole + " owner / workstream for ", id, rest, ".");
    RefHasId("Move the deal to At Risk until ", id, rest, " is satisfied.");
    RefHasId("Open a remediation workstream for ", id, rest, ".");
    RefIs(r);
    hide HasPart;
  }

  lemma RefIs(r: Requirement)
    ensures "requirement " + r.id + " (\"" + r.text + "\")" == "requirement " + r.id + (" (\"" + r.text + "\")")
  {
  }

  lemma RefHasId(front: string, id: string, rest: string, end: string)
    ensures HasPart(front + ("requirement " + id + rest) + end, id)
  {
    assert front + ("requirement " + id + rest) + end == (front + "requirement ") + id + (rest + end);
  }

  lemma CaseIsOpenedFor(r: Requirement, f: Finding, id: string, at: string, impact: Option<string>)
    requires GovernanceCaseForFinding(r, f, id, at, impact).Ok?
    ensures OpenedFor(GovernanceCaseForFinding(r, f, id, at, impact).value, r, f, at, impact)
  {
    ActionsNameRequirement(r, f);
    hide HasPart, CategoryFor;
  }

  /** Each new case was opened for some finding and the requirement that is listed last under its id. */
  ghost predicate OpenedForSome(job: Job, findings: seq<Finding>, c: GovernanceCase) {
    exists f, at | f in findings :: Latest(job.requirements, f.requirementId).Some?
                                    && OpenedFor(c, Latest(job.requirements, f.requirementId).value, f, at, job.impact)
  }

  /** Each duplicate names a requirement of some finding, and the live case that made it one. */
  ghost predicate NamesLive(job: Job, cases: seq<GovernanceCase>, findings: seq<Finding>, d: Deduped) {
    exists f, c | f in findings && c in cases ::
      var q := Latest(job.requirements, f.requirementId);
      q.Some? && d.requirementId == q.value.id && d.existingCaseId == c.id && LiveFor(c, q.value.dealId, q.value.text)
  }

  lemma {:induction false} FirstLiveIsLive(cases: seq<GovernanceCase>, dealId: string, text: string)
    requires FirstLive(cases, dealId, text).Some?
    ensures FirstLive(cases, dealId, text).value in cases && LiveFor(FirstLive(cases, dealId, text).value, dealId, text)
  {
    if !LiveFor(cases[0], dealId, text) { FirstLiveIsLive(cases[1..], dealId, text); }
  }

  lemma OneSays(job: Job, s: OpenState, f: Finding)
    requires OpenOne(job, s, f).0.Ok?
    ensures var r := OpenOne(job, s, f).0.value;
      && (forall c | c in r.newCases :: OpenedForSome(job, [f], c)) && (forall d | d in r.deduped :: NamesLive(job, s.cases, [f], d))
  {
    hide OpenedFor, LiveFor, FirstLive, Latest, GovernanceCaseForFinding, Put;
    OneFinding(job, s, f);
    var q := Latest(job.requirements, f.requirementId).value;
    assert f in [f];
    if FirstLive(s.cases, q.dealId, q.text).Some? {
      FirstLiveIsLive(s.cases, q.dealId, q.text);
    } else {
      CaseIsOpenedFor(q, f, job.src.ids(s.nextId), job.src.clock(s.ticks), job.impact);
    }
    hide OpenOne;
  }

  lemma SaysMore(job: Job, cases: seq<GovernanceCase>, cases': seq<GovernanceCase>, some: seq<Finding>, all: seq<Finding>, o: Opening)
    requires (forall f | f in some :: f in all) && (forall c | c in cases :: c in cases')
    requires (forall c | c in o.newCases :: OpenedForSome(job, some, c)) && (forall d | d in o.deduped :: NamesLive(job, cases, some, d))
    ensures (forall c | c in o.newCases :: OpenedForSome(job, all, c)) && (forall d | d in o.deduped :: NamesLive(job, cases', all, d))
  {
    hide OpenedFor, LiveFor, Latest;
  }

  /** What a call that goes through returns: cases opened for its findings, and duplicates that name a live case. */
  lemma {:induction false} OpeningSays(job: Job, s: OpenState, findings: seq<Finding>)
    requires FreshIds(job.src, s) && OpenAll(job, s, findings).0.Ok?
    ensures var (r, s') := OpenAll(job, s, findings);
      && (forall c | c in r.value.newCases :: OpenedForSome(job, findings, c))
      && (forall d | d in r.value.deduped :: NamesLive(job, s'.cases, findings, d))
    decreases |findings|
  {
    hide OpenOne, FreshIds, OpenedForSome, NamesLive, Latest, FirstLive;
    if findings != [] {
      OneKeeps(job, s, findings[0]);
      OneSays(job, s, findings[0]);
      var (one, s1) := OpenOne(job, s, findings[0]);
      OpeningSays(job, s1, findings[1..]);
      EveryFindingCovered(job, s1, findings[1..]);
      var (rest, s') := OpenAll(job, s1, findings[1..]);
      assert findings == [findings[0]] + findings[1..];
      SaysMore(job, s.cases, s'.cases, [findings[0]], findings, one.value);
      SaysMore(job, s'.cases, s'.cases, findings[1..], findings, rest.value);
    }
  }
}
