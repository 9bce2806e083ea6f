/**
 Amending a requirement between two checks (packages/integrations/requirement-store/src/index.ts,
 packages/governance/src/requirement-case.ts): an amended text is a text without a case, so one
 requirement may come to have two live cases on its deal.
 */
module AmendedCases {
  import opened Prelude
  import opened KeyedStores
  import opened AuditEvents
  import opened RequirementStores
  import opened RequirementChecks
  import opened CaseOpenings
  import opened CheckedCases

  /** What `activeByDeal` answers on this log. */
  ghost predicate ActiveOnDeal(listed: seq<Requirement>, versions: seq<Requirement>, dealId: string) {
    && Distinct(REQUIREMENTS, listed)
    && forall r :: r in listed <==> Latest(versions, r.id) == Some(r) && r.status == Active && r.dealId == dealId
  }

  /** Checking a subject and opening the cases that are due. */
  function CheckAndOpen(job: Job, s: OpenState, subject: CheckSubject): (Result<Opening, OpenError>, OpenState) {
    OpenAll(job, s, ReportOn(job.requirements, subject).caseOpeningFindings)
  }

  /** A violated requirement of the list has a live case afterwards, a new one exactly if there was none. */
  lemma CheckedHasCase(job: Job, s: OpenState, subject: CheckSubject, r: Requirement)
    requires FreshIds(job.src, s) && Distinct(REQUIREMENTS, job.requirements) && r in job.requirements && Violated(r, subject)
    ensures var (opening, s') := CheckAndOpen(job, s, subject);
      var x := Citation(r.dealId, r.text);
      && opening.Ok? && FreshIds(job.src, s') && s'.cases == s.cases + opening.value.newCases
      && IsLiveIn(s'.cases, x)
      && ((exists c | c in opening.value.newCases :: CitesIt(c, x) && IsLive(c.status)) <==> !IsLiveIn(s.cases, x))
      && forall y | IsLiveIn(s.cases, y) :: IsLiveIn(s'.cases, y)
  {
    var findings, x := ReportOn(job.requirements, subject).caseOpeningFindings, Citation(r.dealId, r.text);
    DistinctIdsAttribute(job, s.cases, subject);
    CheckedCasesOpen(job, s, subject);
    CheckedAreCited(job, subject);
    NewCasesMadeFor(job, s, findings);
    EveryFindingCovered(job, s, findings);
    hide ReportOn, OpenAll, FreshIds, Cited, IsLiveIn, SomeCites, Charged, Justified, WellAttributed, Violated, Distinct;
    var newCases := OpenAll(job, s, findings).0.value.newCases;
    if !IsLiveIn(s.cases, x) { var c := NewlyLive(s.cases, newCases, x); }
  }

  /**
   A requirement is violated, gets its case, is amended, and is violated again. Both texts then have
   a live case on its deal, and the second check opens one for the requirement exactly if the new text
   had none.
   */
  lemma SecondCaseIff(src: Source, st: State, id: string, changes: Amendment, requirements: seq<Requirement>,
                      requirements': seq<Requirement>, before: CheckSubject, after: CheckSubject, cs: Source,
                      impact: Option<string>, s: OpenState)
    requires Latest(st.versions, id).Some? && OnCall(src, st, CallAmend(id, changes)).0.Ok? && FreshIds(cs, s)
    requires var r := Latest(st.versions, id).value;
      && r.status == Active && ActiveOnDeal(requirements, st.versions, r.dealId) && Violated(r, before)
    requires var (answer, st') := OnCall(src, st, CallAmend(id, changes));
      ActiveOnDeal(requirements', st'.versions, answer.value.dealId) && Violated(answer.value, after)
    ensures var r, r' := Latest(st.versions, id).value, OnCall(src, st, CallAmend(id, changes)).0.value;
      var s1 := CheckAndOpen(Job(cs, requirements, impact), s, before).1;
      var (second, s2) := CheckAndOpen(Job(cs, requirements', impact), s1, after);
      var x, x' := Citation(r.dealId, r.text), Citation(r.dealId, r'.text);
      && r'.id == r.id == id && IsLiveIn(s2.cases, x) && IsLiveIn(s2.cases, x') && second.Ok?
      && ((exists c | c in second.value.newCases :: CitesIt(c, x') && IsLive(c.status)) <==> !IsLiveIn(s1.cases, x'))
  {
    var r, r' := Latest(st.versions, id).value, OnCall(src, st, CallAmend(id, changes)).0.value;
    AmendKeeps(src, st, id, changes);
    hide CheckAndOpen, OnCall, Violated, IsLiveIn, FreshIds, Latest, Distinct;
    var job, job' := Job(cs, requirements, impact), Job(cs, requirements', impact);
    CheckedHasCase(job, s, before, r);
    var s1 := CheckAndOpen(job, s, before).1;
    CheckedHasCase(job', s1, after, r');
  }

  lemma AmendKeeps(src: Source, st: State, id: string, changes: Amendment)
    requires Latest(st.versions, id).Some? && OnCall(src, st, CallAmend(id, changes)).0.Ok?
    ensures var r, (answer, st') := Latest(st.versions, id).value, OnCall(src, st, CallAmend(id, changes));
      var r' := answer.value;
      r.id == r'.id == id && r'.dealId == r.dealId && r'.status == r.status && Latest(st'.versions, id) == Some(r')
  {
    hide ValidRequirement;
    LatestHasId(st.versions, id);
  }

  // ---------------------------------------------------------------- an input

  const DRAFT := Draft("g", "d", "kept", "o", Hard, [], ByOperator, [])

  const TO_MOVED := Amendment(Some("moved"), None, None, None, None)

  const MOVED := KEPT.(text := "moved")

  /** Every id drawn is `r`, every reading `AT`. */
  const ONE_ID := Source(i => "r", i => AT)

  const AMENDING := [CallCreate(DRAFT), CallApprove("r", "a"), CallAmend("r", TO_MOVED)]

  lemma AmendingRun()
    ensures Run(ONE_ID, AMENDING[..2]).versions == [KEPT.(status := Proposed, approvedBy := None, activatedAt := None), KEPT]
    ensures Run(ONE_ID, AMENDING) == OnCall(ONE_ID, Run(ONE_ID, AMENDING[..2]), CallAmend("r", TO_MOVED)).1
    ensures OnCall(ONE_ID, Run(ONE_ID, AMENDING[..2]), CallAmend("r", TO_MOVED)).0 == Ok(MOVED)
    ensures Run(ONE_ID, AMENDING).versions == Run(ONE_ID, AMENDING[..2]).versions + [MOVED]
  {
    WitnessesValid();
    assert AMENDING[..2][..1] == [CallCreate(DRAFT)] && [CallCreate(DRAFT)][..0] == [];
    assert Run(ONE_ID, []) == State([], 0, 0);
    var p := KEPT.(status := Proposed, approvedBy := None, activatedAt := None);
    assert Run(ONE_ID, [CallCreate(DRAFT)]) == State([p], 1, 1);
    assert Run(ONE_ID, AMENDING[..2]) == State([p, KEPT], 1, 2);
  }

  /**
   One requirement, created, approved and amended, with two live cases on its deal: a subject that
   says nothing violates it before and after, and the store of cases begins empty.
   */
  lemma AmendedHasTwoCases(cs: Source, subject: CheckSubject)
    requires Silent(subject) && FreshIds(cs, OpenState([], 0, 0))
    ensures ActiveOnDeal([KEPT], Run(ONE_ID, AMENDING[..2]).versions, "d")
    ensures ActiveOnDeal([MOVED], Run(ONE_ID, AMENDING).versions, "d")
    ensures var s1 := CheckAndOpen(Job(cs, [KEPT], None), OpenState([], 0, 0), subject).1;
      var (second, s2) := CheckAndOpen(Job(cs, [MOVED], None), s1, subject);
      && IsLiveIn(s2.cases, Citation("d", "kept")) && IsLiveIn(s2.cases, Citation("d", "moved"))
      && second.Ok? && exists c | c in second.value.newCases :: CitesIt(c, Citation("d", "moved")) && IsLive(c.status)
  {
    hide Run, Silent, Violated, FreshIds, OnCall, CheckAndOpen, IsLiveIn, ActiveOnDeal, Latest, CitesIt;
    var st := Run(ONE_ID, AMENDING[..2]);
    AmendingRun();
    AmendingLists();
    SilenceViolates(subject);
    MovedViolated(subject);
    SecondCaseIff(ONE_ID, st, "r", TO_MOVED, [KEPT], [MOVED], subject, subject, cs, None, OpenState([], 0, 0));
    MovedNotLive(cs, subject);
  }

  lemma AmendingLists()
    ensures Latest(Run(ONE_ID, AMENDING[..2]).versions, "r") == Some(KEPT)
    ensures ActiveOnDeal([KEPT], Run(ONE_ID, AMENDING[..2]).versions, "d")
    ensures ActiveOnDeal([MOVED], Run(ONE_ID, AMENDING).versions, "d")
  {
    AmendingRun();
    hide Run, OnCall, ActiveOnDeal;
    OneActive(Run(ONE_ID, AMENDING[..2]).versions, KEPT);
    OneActive(Run(ONE_ID, AMENDING).versions, MOVED);
  }

  /** The first check opens nothing for the text to come. */
  lemma MovedNotLive(cs: Source, subject: CheckSubject)
    requires FreshIds(cs, OpenState([], 0, 0))
    ensures !IsLiveIn(CheckAndOpen(Job(cs, [KEPT], None), OpenState([], 0, 0), subject).1.cases, Citation("d", "moved"))
  {
    var job, s, x := Job(cs, [KEPT], None), OpenState([], 0, 0), Citation("d", "moved");
    assert !IsLiveIn(s.cases, x);
    hide FreshIds, Violated, ReportOn, OpenAll, IsLiveIn, Charged, Justified, WellAttributed;
    CheckedCasesOpen(job, s, subject);
    MovedNotCharged(job, subject);
  }

  lemma MovedNotCharged(job: Job, subject: CheckSubject)
    requires job.requirements == [KEPT]
    ensures !Charged(job, subject, Citation("d", "moved"))
  {
    assert "kept"[0] != "moved"[0];
    assert Latest([KEPT], "r") == Some(KEPT);
    hide Violated, Latest;
  }

  lemma MovedViolated(subject: CheckSubject)
    requires Silent(subject)
    ensures Violated(MOVED, subject)
  {
    assert Tokenize("") == [];
  }

  lemma OneActive(versions: seq<Requirement>, r: Requirement)
    requires versions != [] && versions[|versions| - 1] == r && r.status == Active
    requires forall q | q in versions :: q.id == r.id
    ensures ActiveOnDeal([r], versions, r.dealId)
  {
    forall q ensures q in [r] <==> Latest(versions, q.id) == Some(q) && q.status == Active && q.dealId == r.dealId {
      if q.id != r.id { LatestAbsent(versions, q.id); }
    }
  }

  lemma {:induction false} LatestAbsent(versions: seq<Requirement>, id: string)
    requires forall q | q in versions :: q.id != id
    ensures Latest(versions, id) == None
  {
    if versions != [] { LatestAbsent(versions[..|versions| - 1], id); }
  }
}
