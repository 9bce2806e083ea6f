/**
 What the cases opened for a checked subject say (packages/governance/src/requirement-case.ts):
 exactly which requirement texts have a live case afterwards, exactly when each case cites a
 violated requirement, and exactly when each finding gets a case of its own.
 */
module CheckedCases {
  import opened Prelude
  import opened Sorting
  import opened KeyedStores
  import opened AuditEvents
  import opened GovernanceCases
  import opened RequirementStores
  import opened RequirementChecks
  import opened CaseOpenings

  // ---------------------------------------------------------------- what a finding cites

  /** A requirement text on a deal: what live cases are told apart by. */
  datatype Citation = Citation(dealId: string, text: string)

  /** What a case opened for the finding cites: the requirement listed last under its id. */
  function CitationOf(job: Job, f: Finding): Option<Citation> {
    match Latest(job.requirements, f.requirementId)
    case None => None
    case Some(q) => Some(Citation(q.dealId, q.text))
  }

  predicate IsLiveIn(cases: seq<GovernanceCase>, x: Citation) { FirstLive(cases, x.dealId, x.text).Some? }

  predicate CitesIt(c: GovernanceCase, x: Citation) { c.dealId == x.dealId && c.missedRequirement == x.text }

  lemma {:induction false} LiveInIff(cases: seq<GovernanceCase>, x: Citation)
    ensures IsLiveIn(cases, x) <==> exists c | c in cases :: LiveFor(c, x.dealId, x.text)
  {
    if cases != [] {
      LiveInIff(cases[1..], x);
      assert cases == [cases[0]] + cases[1..];
      assert cases[0] in cases;
    }
  }

  lemma LiveInAppend(cases: seq<GovernanceCase>, c: GovernanceCase, x: Citation)
    requires IsLive(c.status)
    ensures IsLiveIn(cases + [c], x) <==> IsLiveIn(cases, x) || CitesIt(c, x)
  {
    hide FirstLive;
    FirstLiveAppend(cases, c, x.dealId, x.text);
  }

  // ---------------------------------------------------------------- one finding, then all

  /** A case-opening finding with a known requirement: it opens a blocking case for its citation, or that is live already. */
  lemma OneCites(job: Job, s: OpenState, f: Finding)
    requires FreshIds(job.src, s) && f.caseOpening && CitationOf(job, f).Some?
    ensures var (r, s') := OpenOne(job, s, f);
      var x := CitationOf(job, f).value;
      && r.Ok? && FreshIds(job.src, s')
      && (IsLiveIn(s.cases, x) ==> s' == s && r.value.newCases == [] && |r.value.deduped| == 1)
      && (!IsLiveIn(s.cases, x) ==>
            && |r.value.newCases| == 1 && r.value.deduped == [] && s'.cases == s.cases + r.value.newCases
            && (var c := r.value.newCases[0]; CitesIt(c, x) && IsLive(c.status) && c.severity == Blocking))
  {
    hide FirstLive, Latest, FreshIds, Put, CategoryFor, RecommendedActionsFor;
    LatestHasId(job.requirements, f.requirementId);
    OneKeeps(job, s, f);
    OneFinding(job, s, f);
    hide OpenOne;
  }

  /** Every finding opens cases and is about a known requirement. */
  predicate Cited(job: Job, findings: seq<Finding>) {
    forall f | f in findings :: f.caseOpening && CitationOf(job, f).Some?
  }

  /** The findings are about different citations, none of which has a live case. */
  ghost predicate AllNew(job: Job, cases: seq<GovernanceCase>, findings: seq<Finding>)
    requires Cited(job, findings)
  {
    && (forall i | 0 <= i < |findings| :: !IsLiveIn(cases, CitationOf(job, findings[i]).value))
    && (forall i, j | 0 <= i < j < |findings| :: CitationOf(job, findings[i]) != CitationOf(job, findings[j]))
  }

  lemma CitedRest(job: Job, findings: seq<Finding>)
    requires Cited(job, findings) && findings != []
    ensures findings[0] in findings && Cited(job, findings[1..])
    ensures findings[0].caseOpening && CitationOf(job, findings[0]).Some?
  {
    hide CitationOf;
    assert findings[0] in findings;
  }

  lemma AllNewStep(job: Job, cases: seq<GovernanceCase>, c: GovernanceCase, findings: seq<Finding>)
    requires findings != [] && Cited(job, findings) && Cited(job, findings[1..]) && IsLive(c.status)
    requires CitesIt(c, CitationOf(job, findings[0]).value) && !IsLiveIn(cases, CitationOf(job, findings[0]).value)
    ensures AllNew(job, cases, findings) <==> AllNew(job, cases + [c], findings[1..])
  {
    hide IsLiveIn, CitationOf;
    var rest := findings[1..];
    forall i | 0 <= i < |rest|
      ensures rest[i] == findings[i + 1]
      ensures IsLiveIn(cases + [c], CitationOf(job, rest[i]).value)
              <==> IsLiveIn(cases, CitationOf(job, rest[i]).value) || CitationOf(job, rest[i]) == CitationOf(job, findings[0])
    {
      LiveInAppend(cases, c, CitationOf(job, rest[i]).value);
    }
    if AllNew(job, cases + [c], rest) {
      forall i, j | 0 <= i < j < |findings| ensures CitationOf(job, findings[i]) != CitationOf(job, findings[j]) {
        assert findings[j] == rest[j - 1];
        if i > 0 { assert findings[i] == rest[i - 1]; }
      }
      forall i | 0 <= i < |findings| ensures !IsLiveIn(cases, CitationOf(job, findings[i]).value) {
        if i > 0 { assert findings[i] == rest[i - 1]; }
      }
    }
    if AllNew(job, cases, findings) {
      assert forall j | 0 < j < |findings| :: CitationOf(job, findings[0]) != CitationOf(job, findings[j]);
    }
  }

  /**
   Each finding of a report gets its own case exactly when no citation has a live case yet and no
   two findings cite the same text on the same deal: cases are told apart by text, not by requirement.
   */
  lemma {:induction false} OwnCaseIff(job: Job, s: OpenState, findings: seq<Finding>)
    requires FreshIds(job.src, s) && Cited(job, findings)
    ensures var r := OpenAll(job, s, findings).0;
      && r.Ok? && |r.value.newCases| + |r.value.deduped| == |findings|
      && (r.value.deduped == [] <==> AllNew(job, s.cases, findings))
    decreases |findings|
  {
    hide OpenOne, FreshIds, CitationOf, IsLiveIn, Cited, AllNew, CitesIt;
    if findings == [] {
      assert AllNew(job, s.cases, findings) by { NothingNew(job, s.cases); }
    } else {
      CitedRest(job, findings);
      OneCites(job, s, findings[0]);
      var (one, s1) := OpenOne(job, s, findings[0]);
      OwnCaseIff(job, s1, findings[1..]);
      if IsLiveIn(s.cases, CitationOf(job, findings[0]).value) {
        NotAllNew(job, s.cases, findings);
      } else {
        assert s1.cases == s.cases + [one.value.newCases[0]];
        AllNewStep(job, s.cases, one.value.newCases[0], findings);
      }
    }
  }

  lemma NothingNew(job: Job, cases: seq<GovernanceCase>)
    ensures Cited(job, []) && AllNew(job, cases, [])
  {
  }

  lemma NotAllNew(job: Job, cases: seq<GovernanceCase>, findings: seq<Finding>)
    requires findings != [] && Cited(job, findings) && IsLiveIn(cases, CitationOf(job, findings[0]).value)
    ensures !AllNew(job, cases, findings)
  {
    hide IsLiveIn, CitationOf, Cited;
  }

  /** Some finding cites it. */
  predicate SomeCites(job: Job, findings: seq<Finding>, x: Citation) {
    exists f | f in findings :: CitationOf(job, f) == Some(x)
  }

  lemma SomeCitesStep(job: Job, findings: seq<Finding>, x: Citation)
    requires findings != []
    ensures SomeCites(job, findings, x) <==> CitationOf(job, findings[0]) == Some(x) || SomeCites(job, findings[1..], x)
  {
    hide CitationOf;
    assert findings == [findings[0]] + findings[1..] && findings[0] in findings;
  }

  /** Afterwards exactly those citations have a live case that had one or that some finding makes. */
  lemma {:induction false} LiveAfterIff(job: Job, s: OpenState, findings: seq<Finding>, x: Citation)
    requires FreshIds(job.src, s) && Cited(job, findings)
    ensures IsLiveIn(OpenAll(job, s, findings).1.cases, x) <==> IsLiveIn(s.cases, x) || SomeCites(job, findings, x)
    decreases |findings|
  {
    hide OpenOne, FreshIds, CitationOf, IsLiveIn, Cited, SomeCites;
    if findings == [] {
      assert !SomeCites(job, findings, x) by { NobodyCites(job, x); }
    } else {
      CitedRest(job, findings);
      OneCites(job, s, findings[0]);
      SomeCitesStep(job, findings, x);
      var (one, s1) := OpenOne(job, s, findings[0]);
      LiveAfterIff(job, s1, findings[1..], x);
      if one.value.newCases != [] {
        assert s1.cases == s.cases + [one.value.newCases[0]];
        LiveInAppend(s.cases, one.value.newCases[0], x);
      }
    }
  }

  lemma NobodyCites(job: Job, x: Citation)
    ensures !SomeCites(job, [], x)
  {
  }

  /** Every new case is blocking, and for a citation of some finding that had no live case before. */
  ghost predicate MadeFor(job: Job, cases: seq<GovernanceCase>, findings: seq<Finding>, c: GovernanceCase) {
    var x := Citation(c.dealId, c.missedRequirement);
    c.severity == Blocking && IsLive(c.status) && !IsLiveIn(cases, x) && SomeCites(job, findings, x)
  }

  lemma {:induction false} NewCasesMadeFor(job: Job, s: OpenState, findings: seq<Finding>)
    requires FreshIds(job.src, s) && Cited(job, findings)
    ensures var (r, s') := OpenAll(job, s, findings);
      && r.Ok? && s'.cases == s.cases + r.value.newCases
      && forall c | c in r.value.newCases :: MadeFor(job, s.cases, findings, c)
    decreases |findings|
  {
    hide OpenOne, FreshIds, CitationOf, IsLiveIn, Cited, SomeCites;
    if findings == [] {
      assert s.cases + [] == s.cases;
    } else {
      CitedRest(job, findings);
      OneCites(job, s, findings[0]);
      var (one, s1) := OpenOne(job, s, findings[0]);
      NewCasesMadeFor(job, s1, findings[1..]);
      var (rest, s') := OpenAll(job, s1, findings[1..]);
      assert s1.cases == s.cases + one.value.newCases by { assert s.cases + [] == s.cases; }
      assert (s.cases + one.value.newCases) + rest.value.newCases == s.cases + (one.value.newCases + rest.value.newCases);
      forall c | c in one.value.newCases + rest.value.newCases ensures MadeFor(job, s.cases, findings, c) {
        SomeCitesStep(job, findings, Citation(c.dealId, c.missedRequirement));
        if c in rest.value.newCases {
          if one.value.newCases != [] {
            assert s1.cases == s.cases + [one.value.newCases[0]];
            LiveInAppend(s.cases, one.value.newCases[0], Citation(c.dealId, c.missedRequirement));
          }
        } else {
          assert c == one.value.newCases[0] && CitationOf(job, findings[0]) == Some(Citation(c.dealId, c.missedRequirement));
        }
      }
    }
  }

  // ---------------------------------------------------------------- from a checked subject to its cases

  /** The requirement is active, hard, and the output does not satisfy it. */
  predicate Violated(r: Requirement, s: CheckSubject) {
    r.status == Active && r.severity == Hard && InScope(r, s) && Classify(r, s).status != Satisfied
  }

  lemma OpeningFindings(requirements: seq<Requirement>, s: CheckSubject)
    ensures forall f | f in ReportOn(requirements, s).caseOpeningFindings ::
      f.caseOpening && exists r | r in requirements :: r.id == f.requirementId && Violated(r, s)
    ensures forall r | r in requirements && Violated(r, s) :: Grade(s)(r) in ReportOn(requirements, s).caseOpeningFindings
  {
    hide InScope, Classify;
    var checked := Filter(requirements, Checked(s));
    var findings := Map(checked, Grade(s));
    FilterMembers(requirements, Checked(s));
    FilterMembers(findings, OPENS_CASE);
    forall f | f in findings && f.caseOpening ensures exists r | r in requirements :: r.id == f.requirementId && Violated(r, s) {
      var i :| 0 <= i < |findings| && findings[i] == f;
      assert checked[i] in checked;
      assert checked[i] in requirements && Violated(checked[i], s);
    }
    forall r | r in requirements && Violated(r, s) ensures Grade(s)(r) in findings {
      assert r in checked;
      var i :| 0 <= i < |checked| && checked[i] == r;
      assert findings[i] == Grade(s)(r);
    }
  }

  /** Each case cites a requirement that is active, hard and violated. */
  ghost predicate Justified(c: GovernanceCase, requirements: seq<Requirement>, s: CheckSubject) {
    exists r | r in requirements :: Violated(r, s) && c.missedRequirement == r.text && c.dealId == r.dealId && c.severity == Blocking
  }

  lemma GradeId(q: Requirement, s: CheckSubject)
    ensures Grade(s)(q).requirementId == q.id
  {
    hide Classify;
  }

  lemma CheckedAreCited(job: Job, subject: CheckSubject)
    ensures Cited(job, ReportOn(job.requirements, subject).caseOpeningFindings)
  {
    OpeningFindings(job.requirements, subject);
    hide ReportOn, Violated, Latest;
    forall f | f in ReportOn(job.requirements, subject).caseOpeningFindings ensures CitationOf(job, f).Some? {
      LatestHasId(job.requirements, f.requirementId);
    }
  }

  /** Some violated requirement is cited as `x`: the last one listed under its id has this text on this deal. */
  ghost predicate Charged(job: Job, subject: CheckSubject, x: Citation) {
    exists r | r in job.requirements :: Violated(r, subject) && LastUnder(job, r.id, x)
  }

  predicate LastUnder(job: Job, id: string, x: Citation) {
    match Latest(job.requirements, id) case None => false case Some(q) => q.dealId == x.dealId && q.text == x.text
  }

  lemma ChargedIff(job: Job, subject: CheckSubject, x: Citation)
    ensures SomeCites(job, ReportOn(job.requirements, subject).caseOpeningFindings, x) <==> Charged(job, subject, x)
  {
    var findings := ReportOn(job.requirements, subject).caseOpeningFindings;
    OpeningFindings(job.requirements, subject);
    hide ReportOn, Violated, Latest, Grade;
    if f :| f in findings && CitationOf(job, f) == Some(x) {
      var r :| r in job.requirements && r.id == f.requirementId && Violated(r, subject);
      assert LastUnder(job, r.id, x);
    }
    if r :| r in job.requirements && Violated(r, subject) && LastUnder(job, r.id, x) {
      GradeId(r, subject);
      assert CitationOf(job, Grade(subject)(r)) == Some(x);
    }
  }

  /** A violated requirement has this text on this deal. */
  ghost predicate TextViolated(job: Job, subject: CheckSubject, x: Citation) {
    exists p | p in job.requirements :: Violated(p, subject) && p.dealId == x.dealId && p.text == x.text
  }

  /** Wherever a case is due and none is live, a violated requirement has the text it will cite. */
  ghost predicate WellAttributed(job: Job, cases: seq<GovernanceCase>, subject: CheckSubject) {
    forall r | r in job.requirements && Violated(r, subject) ::
      match Latest(job.requirements, r.id)
      case None => true
      case Some(q) => IsLiveIn(cases, Citation(q.dealId, q.text)) || TextViolated(job, subject, Citation(q.dealId, q.text))
  }

  lemma MadeForIsCharged(job: Job, s: OpenState, subject: CheckSubject, c: GovernanceCase)
    requires MadeFor(job, s.cases, ReportOn(job.requirements, subject).caseOpeningFindings, c)
    ensures Justified(c, job.requirements, subject) <==> TextViolated(job, subject, Citation(c.dealId, c.missedRequirement))
  {
    hide Violated, IsLiveIn, SomeCites, ReportOn;
  }

  /**
   Opening cases for a checked subject never throws. Afterwards exactly those texts have a live
   case on a deal that had one or that the last requirement under a violated one's id has.
   Every new case cites a violated requirement if and only if the job is well attributed.
   */
  lemma CheckedCasesOpen(job: Job, s: OpenState, subject: CheckSubject)
    requires FreshIds(job.src, s)
    ensures var (r, s') := OpenAll(job, s, ReportOn(job.requirements, subject).caseOpeningFindings);
      && r.Ok? && s'.cases == s.cases + r.value.newCases
      && (forall x :: IsLiveIn(s'.cases, x) <==> IsLiveIn(s.cases, x) || Charged(job, subject, x))
      && ((forall c | c in r.value.newCases :: Justified(c, job.requirements, subject)) <==> WellAttributed(job, s.cases, subject))
  {
    var findings := ReportOn(job.requirements, subject).caseOpeningFindings;
    CheckedAreCited(job, subject);
    NewCasesMadeFor(job, s, findings);
    hide ReportOn, OpenAll, FreshIds, Cited, IsLiveIn, SomeCites, Charged, MadeFor, Justified, WellAttributed,
         Violated;
    forall x ensures IsLiveIn(OpenAll(job, s, findings).1.cases, x) <==> IsLiveIn(s.cases, x) || Charged(job, subject, x) {
      LiveAfterIff(job, s, findings, x);
      ChargedIff(job, subject, x);
    }
    var newCases := OpenAll(job, s, findings).0.value.newCases;
    if WellAttributed(job, s.cases, subject) {
      forall c | c in newCases ensures Justified(c, job.requirements, subject) {
        AttributedIsJustified(job, s, subject, c);
      }
    }
    if forall c | c in newCases :: Justified(c, job.requirements, subject) {
      JustifiedIsAttributed(job, s, subject, newCases);
    }
  }

  lemma AttributedIsJustified(job: Job, s: OpenState, subject: CheckSubject, c: GovernanceCase)
    requires WellAttributed(job, s.cases, subject)
    requires MadeFor(job, s.cases, ReportOn(job.requirements, subject).caseOpeningFindings, c)
    ensures Justified(c, job.requirements, subject)
  {
    var x := Citation(c.dealId, c.missedRequirement);
    MadeForIsCharged(job, s, subject, c);
    ChargedIff(job, subject, x);
    hide Violated, IsLiveIn, SomeCites, ReportOn, TextViolated, Justified;
    var r :| r in job.requirements && Violated(r, subject) && LastUnder(job, r.id, x);
  }

  lemma JustifiedIsAttributed(job: Job, s: OpenState, subject: CheckSubject, newCases: seq<GovernanceCase>)
    requires forall c | c in newCases ::
      Justified(c, job.requirements, subject) && MadeFor(job, s.cases, ReportOn(job.requirements, subject).caseOpeningFindings, c)
    requires forall x :: IsLiveIn(s.cases + newCases, x) <==> IsLiveIn(s.cases, x) || Charged(job, subject, x)
    ensures WellAttributed(job, s.cases, subject)
  {
    hide Violated, IsLiveIn, SomeCites, ReportOn, MadeFor, Justified, TextViolated, Latest;
    forall r | r in job.requirements && Violated(r, subject) && Latest(job.requirements, r.id).Some?
      ensures var q := Latest(job.requirements, r.id).value;
        IsLiveIn(s.cases, Citation(q.dealId, q.text)) || TextViolated(job, subject, Citation(q.dealId, q.text))
    {
      var q := Latest(job.requirements, r.id).value;
      var x := Citation(q.dealId, q.text);
      assert LastUnder(job, r.id, x);
      if !IsLiveIn(s.cases, x) {
        var c := NewlyLive(s.cases, newCases, x);
        MadeForIsCharged(job, s, subject, c);
      }
    }
  }

  lemma NewlyLive(cases: seq<GovernanceCase>, newCases: seq<GovernanceCase>, x: Citation) returns (c: GovernanceCase)
    requires IsLiveIn(cases + newCases, x) && !IsLiveIn(cases, x)
    ensures c in newCases && CitesIt(c, x)
  {
    hide IsLiveIn;
    LiveInIff(cases + newCases, x);
    LiveInIff(cases, x);
    c :| c in cases + newCases && LiveFor(c, x.dealId, x.text);
  }

  /** Distinct ids are enough: each new case then cites a violated requirement, and each of those has a live case. */
  lemma DistinctIdsAttribute(job: Job, cases: seq<GovernanceCase>, subject: CheckSubject)
    requires Distinct(REQUIREMENTS, job.requirements)
    ensures WellAttributed(job, cases, subject)
    ensures forall r | r in job.requirements && Violated(r, subject) :: Charged(job, subject, Citation(r.dealId, r.text))
  {
    hide Violated, IsLiveIn, Latest;
    forall r | r in job.requirements && Violated(r, subject)
      ensures Latest(job.requirements, r.id) == Some(r)
      ensures TextViolated(job, subject, Citation(r.dealId, r.text)) && Charged(job, subject, Citation(r.dealId, r.text))
    {
      LatestHasId(job.requirements, r.id);
      var q := Latest(job.requirements, r.id).value;
      var i :| 0 <= i < |job.requirements| && job.requirements[i] == r;
      var j :| 0 <= j < |job.requirements| && job.requirements[j] == q;
      FindUnique(REQUIREMENTS, job.requirements, i);
      FindUnique(REQUIREMENTS, job.requirements, j);
      assert LastUnder(job, r.id, Citation(r.dealId, r.text));
    }
  }

  /** `openCasesForAgentOutput` */
  method OpenCasesForAgentOutput(deps: Deps, requirements: seq<Requirement>, output: AgentOutput, impact: Option<string>)
    returns (r: Result<Opening, OpenError>)
    requires FreshIds(deps.src, deps.State())
    modifies deps`nextId, deps`ticks, deps.caseStore
    ensures r.Ok? && deps.caseStore.cases == old(deps.caseStore.cases) + r.value.newCases
    ensures var job, subject := Job(deps.src, requirements, impact), AgentOutputToSubject(output);
      && (forall x :: IsLiveIn(deps.caseStore.cases, x) <==> IsLiveIn(old(deps.caseStore.cases), x) || Charged(job, subject, x))
      && ((forall c | c in r.value.newCases :: Justified(c, requirements, subject))
          <==> WellAttributed(job, old(deps.caseStore.cases), subject))
  {
    hide FreshIds, Charged, Justified, ReportOn, OpenAll, IsLiveIn, AgentOutputToSubject, WellAttributed;
    var subject := AgentOutputToSubject(output);
    var report := CheckRequirements(requirements, subject);
    CheckedCasesOpen(Job(deps.src, requirements, impact), deps.State(), subject);
    r := OpenCasesFromReport(deps, requirements, report.caseOpeningFindings, impact);
  }

  // ---------------------------------------------------------------- two inputs

  const KEPT := Requirement("r", "g", "d", "kept", "o", Hard, [], Active, ByOperator, Some("a"), [], AT, Some(AT))

  /** A retired requirement under the id of `KEPT`. */
  const GONE := KEPT.(text := "gone", status := Retired)

  /** A requirement of its own with the text of `KEPT`. */
  const TWIN := KEPT.(id := "q")

  /** A subject that says nothing at all. */
  predicate Silent(s: CheckSubject) {
    s.surfaces == WholeDeal && s.text == "" && s.violatedRequirements == [] && s.droppedRequirements == []
  }

  lemma WitnessesValid()
    ensures ValidRequirement(KEPT) && ValidRequirement(GONE) && ValidRequirement(TWIN)
  {
    AtIsTimestamp();
    hide IsTimestamp;
  }

  lemma SilenceViolates(s: CheckSubject)
    requires Silent(s)
    ensures Violated(KEPT, s) && Violated(TWIN, s) && !Violated(GONE, s)
  {
    assert Tokenize("") == [];
  }

  /**
   With two valid requirements under one id the case cites the later one, even one that is not
   active.
   */
  lemma SharedIdMisattributes(src: Source, s: CheckSubject)
    requires Silent(s) && FreshIds(src, OpenState([], 0, 0))
    ensures ValidRequirement(KEPT) && ValidRequirement(GONE)
    ensures var job := Job(src, [KEPT, GONE], None);
      var r := OpenAll(job, OpenState([], 0, 0), ReportOn(job.requirements, s).caseOpeningFindings).0;
      r.Ok? && exists c | c in r.value.newCases :: c.missedRequirement == "gone" && !Justified(c, job.requirements, s)
  {
    var job, s0, x := Job(src, [KEPT, GONE], None), OpenState([], 0, 0), Citation("d", "gone");
    WitnessesValid();
    GoneIsCharged(job, s);
    CheckedCasesOpen(job, s0, s);
    hide ReportOn, OpenAll, FreshIds, Charged, TextViolated, WellAttributed, MadeFor, Silent;
    var r := OpenAll(job, s0, ReportOn(job.requirements, s).caseOpeningFindings).0;
    assert !IsLiveIn([], x);
    hide IsLiveIn;
    var c := NewlyLive(s0.cases, r.value.newCases, x);
    CheckedAreCited(job, s);
    NewCasesMadeFor(job, s0, ReportOn(job.requirements, s).caseOpeningFindings);
    MadeForIsCharged(job, s0, s, c);
  }

  lemma GoneIsCharged(job: Job, s: CheckSubject)
    requires job.requirements == [KEPT, GONE] && Silent(s)
    ensures Charged(job, s, Citation("d", "gone")) && !TextViolated(job, s, Citation("d", "gone"))
  {
    SilenceViolates(s);
    assert Latest(job.requirements, "r") == Some(GONE);
    hide Violated, Latest, Silent;
    assert KEPT in job.requirements && LastUnder(job, "r", Citation("d", "gone"));
    assert "kept"[0] != "gone"[0];
    forall p | p in job.requirements && Violated(p, s) ensures p.text != "gone" { assert p == KEPT; }
  }

  /** In the other order the ids are shared as well, and every case is justified. */
  lemma SharedIdCanAttribute(src: Source, cases: seq<GovernanceCase>, s: CheckSubject)
    ensures !Distinct(REQUIREMENTS, [GONE, KEPT]) && WellAttributed(Job(src, [GONE, KEPT], None), cases, s)
  {
    var job := Job(src, [GONE, KEPT], None);
    assert REQUIREMENTS.id(job.requirements[0]) == REQUIREMENTS.id(job.requirements[1]);
    assert Latest(job.requirements, "r") == Some(KEPT);
    hide Violated, Latest, IsLiveIn;
    assert !Violated(GONE, s) by { GoneNotViolated(s); }
    forall r | r in job.requirements && Violated(r, s) ensures r == KEPT && TextViolated(job, s, Citation(KEPT.dealId, KEPT.text)) {
      assert r == KEPT;
    }
  }

  lemma GoneNotViolated(s: CheckSubject)
    ensures !Violated(GONE, s)
  {
  }

  /** Two valid requirements with ids of their own and one text on one deal, both violated, share one case. */
  lemma SharedTextDedupes(src: Source, s: CheckSubject)
    requires Silent(s) && FreshIds(src, OpenState([], 0, 0))
    ensures ValidRequirement(KEPT) && ValidRequirement(TWIN) && Distinct(REQUIREMENTS, [KEPT, TWIN])
    ensures Violated(KEPT, s) && Violated(TWIN, s)
    ensures var job := Job(src, [KEPT, TWIN], None);
      var findings := ReportOn(job.requirements, s).caseOpeningFindings;
      var r := OpenAll(job, OpenState([], 0, 0), findings).0;
      |findings| == 2 && r.Ok? && |r.value.newCases| == 1 && |r.value.deduped| == 1
  {
    WitnessesValid();
    SilenceViolates(s);
    hide Violated, ValidRequirement;
    TwinReport(s);
    assert "r"[0] != "q"[0];
    var job, findings := Job(src, [KEPT, TWIN], None), [Grade(s)(KEPT), Grade(s)(TWIN)];
    CheckedAreCited(job, s);
    TwinCitations(job, s);
    hide ReportOn;
    TwinsShare(job, OpenState([], 0, 0), findings, Citation("d", "kept"));
  }

  lemma TwinCitations(job: Job, s: CheckSubject)
    requires job.requirements == [KEPT, TWIN]
    ensures CitationOf(job, Grade(s)(KEPT)) == CitationOf(job, Grade(s)(TWIN)) == Some(Citation("d", "kept"))
  {
    GradeId(KEPT, s);
    GradeId(TWIN, s);
    assert "r"[0] != "q"[0];
    assert Latest(job.requirements, "r") == Some(KEPT) && Latest(job.requirements, "q") == Some(TWIN);
    hide Grade, Latest;
  }

  /** Two findings with one citation that has no live case: one opens it, the other is a duplicate. */
  lemma TwinsShare(job: Job, s: OpenState, findings: seq<Finding>, x: Citation)
    requires FreshIds(job.src, s) && Cited(job, findings) && |findings| == 2 && !IsLiveIn(s.cases, x)
    requires CitationOf(job, findings[0]) == CitationOf(job, findings[1]) == Some(x)
    ensures var r := OpenAll(job, s, findings).0; r.Ok? && |r.value.newCases| == 1 && |r.value.deduped| == 1
  {
    hide OpenAll, FreshIds, CitationOf, IsLiveIn, MadeFor;
    OwnCaseIff(job, s, findings);
    NewCasesMadeFor(job, s, findings);
    LiveAfterIff(job, s, findings, x);
    assert findings[0] in findings;
    var c := NewlyLive(s.cases, OpenAll(job, s, findings).0.value.newCases, x);
  }

  lemma TwinReport(s: CheckSubject)
    requires Violated(KEPT, s) && Violated(TWIN, s)
    ensures ReportOn([KEPT, TWIN], s).caseOpeningFindings == [Grade(s)(KEPT), Grade(s)(TWIN)]
  {
    hide Classify, InScope;
    var both := [KEPT, TWIN];
    FilterStep([KEPT], TWIN, Checked(s));
    FilterStep([], KEPT, Checked(s));
    assert [KEPT] + [TWIN] == both && [] + [KEPT] == [KEPT];
    var findings := [Grade(s)(KEPT), Grade(s)(TWIN)];
    assert Map(both, Grade(s)) == findings;
    FilterStep([findings[0]], findings[1], OPENS_CASE);
    FilterStep([], findings[0], OPENS_CASE);
    assert [findings[0]] + [findings[1]] == findings && [] + [findings[0]] == [findings[0]];
  }
}
