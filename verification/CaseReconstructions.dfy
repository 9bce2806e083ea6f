/**
 Rebuilding a governance case from the ledger alone: the checked fold over case snapshots
 (packages/governance/src/audit-reconstruction.ts) and the lean one
 (packages/governance/src/audit-ledger.ts).
 */
module CaseReconstructions {
  import opened Prelude
  import opened Sorting
  import opened CanonicalJson
  import opened AuditEvents
  import opened AuditLedgers
  import opened JsonRecords
  import opened GovernanceCases

  datatype Transition = Transition(eventId: string, action: string, recordedAt: string, from: Option<CaseStatus>, to: CaseStatus)

  datatype CaseLifecycle = CaseLifecycle(
    caseId: string, dealId: string, current: GovernanceCase, lifecycleStatuses: seq<CaseStatus>, transitions: seq<Transition>,
    eventIds: seq<string>, actionIds: seq<string>, evalIds: seq<string>, chainHeadHash: string)

  datatype ReconstructionError =
    | BrokenChain | NoCaseEvents | SpansDeals | BadSnapshot(eventId: string) | MissingAfter(eventId: string)
    | OtherCase(eventId: string) | OtherDeal(eventId: string) | MissingBefore(eventId: string) | BeforeMismatch(eventId: string)
    | NothingReconstructed

  /** The variables of the loop. */
  datatype Progress = Progress(
    current: Option<GovernanceCase>, dealId: Option<string>, statuses: seq<CaseStatus>, transitions: seq<Transition>,
    eventIds: seq<string>, actionIds: seq<string>, evalIds: seq<string>)

  const START := Progress(None, None, [], [], [], [], [])

  function InCase(caseId: string): SealedEvent -> bool { (e: SealedEvent) => e.event.caseId == caseId }

  function CaseEvents(events: seq<SealedEvent>, caseId: string): seq<SealedEvent> { Filter(events, InCase(caseId)) }

  /** `readCaseSnapshot`: no snapshot, a case, or a snapshot that does not parse. */
  function ReadCaseSnapshot(state: Option<seq<Member>>): Result<Option<GovernanceCase>, ()> {
    var v := if state.None? then None else Get(state.value, "governanceCase");
    if v.None? then Ok(None)
    else match CaseFromJson(v.value)
      case None => Err(())
      case Some(c) => Ok(Some(c))
  }

  function StatusOf(c: Option<GovernanceCase>): Option<CaseStatus> { if c.Some? then Some(c.value.status) else None }

  function TransitionOf(e: AuditEvent, before: Option<GovernanceCase>, after: GovernanceCase): Transition {
    Transition(e.id, e.action, e.recordedAt, StatusOf(before), after.status)
  }

  /** One iteration: the checks in their order, then the updates. */
  function StepEvent(p: Progress, sealed: SealedEvent, caseId: string): Result<Progress, ReconstructionError> {
    var e := sealed.event;
    if p.dealId.Some? && p.dealId.value != e.dealId then Err(SpansDeals)
    else if ReadCaseSnapshot(e.beforeState).Err? || ReadCaseSnapshot(e.afterState).Err? then Err(BadSnapshot(e.id))
    else
      var before, read := ReadCaseSnapshot(e.beforeState).value, ReadCaseSnapshot(e.afterState).value;
      if read.None? then Err(MissingAfter(e.id))
      else
        var after := read.value;
        if after.id != caseId then Err(OtherCase(e.id))
        else if after.dealId != e.dealId then Err(OtherDeal(e.id))
        else if p.current.Some? && before.None? then Err(MissingBefore(e.id))
        else if p.current.Some? && CaseHash(before.value) != CaseHash(p.current.value) then Err(BeforeMismatch(e.id))
        else Ok(Progress(
          Some(after), Some(e.dealId),
          if p.statuses != [] && p.statuses[|p.statuses| - 1] == after.status then p.statuses else p.statuses + [after.status],
          p.transitions + [TransitionOf(e, before, after)], p.eventIds + [e.id],
          AddAll(p.actionIds, e.actionIds.GetOr([])), AddAll(p.evalIds, e.evalIds.GetOr([]))))
  }

  function FoldFrom(p: Progress, events: seq<SealedEvent>, caseId: string): Result<Progress, ReconstructionError>
    decreases |events|
  {
    if events == [] then Ok(p)
    else
      var next := StepEvent(p, events[0], caseId);
      if next.Err? then Err(next.error) else FoldFrom(next.value, events[1..], caseId)
  }

  function Finished(p: Progress, caseId: string, head: string): Result<CaseLifecycle, ReconstructionError> {
    if p.current.None? || p.dealId.None? || p.dealId.value == "" then Err(NothingReconstructed)
    else Ok(CaseLifecycle(caseId, p.dealId.value, p.current.value, p.statuses, p.transitions, p.eventIds, p.actionIds, p.evalIds, head))
  }

  function ReconstructCase(events: seq<SealedEvent>, caseId: string): Result<CaseLifecycle, ReconstructionError> {
    if !ValidChain(events) then Err(BrokenChain)
    else if CaseEvents(events, caseId) == [] then Err(NoCaseEvents)
    else
      var folded := FoldFrom(START, CaseEvents(events, caseId), caseId);
      if folded.Err? then Err(folded.error)
      else Finished(folded.value, caseId, if events == [] then "" else events[|events| - 1].eventHash)
  }

  /** `reconstructCaseLifecycleFromEvents` */
  method ReconstructCaseLifecycleFromEvents(events: seq<SealedEvent>, caseId: string)
    returns (r: Result<CaseLifecycle, ReconstructionError>)
    ensures r == ReconstructCase(events, caseId)
  {
    hide ReadCaseSnapshot, CaseHash, Good;
    var chain := VerifyChain(events);
    if !chain.valid { return Err(BrokenChain); }
    var caseEvents := CaseEvents(events, caseId);
    if |caseEvents| == 0 { return Err(NoCaseEvents); }
    var p := START;
    assert caseEvents[0..] == caseEvents;
    for i := 0 to |caseEvents|
      invariant FoldFrom(p, caseEvents[i..], caseId) == FoldFrom(START, caseEvents, caseId)
    {
      var e := caseEvents[i].event;
      assert caseEvents[i..][1..] == caseEvents[i + 1..];
      if p.dealId.Some? && p.dealId.value != e.dealId { return Err(SpansDeals); }
      var before := ReadCaseSnapshot(e.beforeState);
      var after := ReadCaseSnapshot(e.afterState);
      if before.Err? || after.Err? { return Err(BadSnapshot(e.id)); }
      if after.value.None? { return Err(MissingAfter(e.id)); }
      var c := after.value.value;
      if c.id != caseId { return Err(OtherCase(e.id)); }
      if c.dealId != e.dealId { return Err(OtherDeal(e.id)); }
      if p.current.Some? && before.value.None? { return Err(MissingBefore(e.id)); }
      if p.current.Some? && CaseHash(before.value.value) != CaseHash(p.current.value) { return Err(BeforeMismatch(e.id)); }
      var statuses := p.statuses;
      if |statuses| == 0 || statuses[|statuses| - 1] != c.status { statuses := statuses + [c.status]; }
      var actionIds := AddIds(p.actionIds, e.actionIds.GetOr([]));
      var evalIds := AddIds(p.evalIds, e.evalIds.GetOr([]));
      var next := Progress(Some(c), Some(e.dealId), statuses, p.transitions + [TransitionOf(e, before.value, c)],
                           p.eventIds + [e.id], actionIds, evalIds);
      assert StepEvent(p, caseEvents[i], caseId) == Ok(next);
      p := next;
    }
    r := Finished(p, caseId, if |events| == 0 then "" else events[|events| - 1].eventHash);
  }

  method AddIds(ids: seq<string>, more: seq<string>) returns (r: seq<string>)
    ensures r == AddAll(ids, more)
  {
    r := ids;
    for i := 0 to |more|
      invariant r == AddAll(ids, more[..i])
    {
      assert more[..i + 1][..i] == more[..i];
      if more[i] !in r { r := r + [more[i]]; }
    }
    assert more[..|more|] == more;
  }

  // ---------------------------------------------------------------- what a reconstruction says

  function BeforeOf(e: SealedEvent): Option<GovernanceCase> {
    var r := ReadCaseSnapshot(e.event.beforeState);
    if r.Ok? then r.value else None
  }

  function AfterOf(e: SealedEvent): Option<GovernanceCase> {
    var r := ReadCaseSnapshot(e.event.afterState);
    if r.Ok? then r.value else None
  }

  /** The event carries a snapshot of this case, and of its own deal. */
  predicate Tells(e: SealedEvent, caseId: string) {
    && ReadCaseSnapshot(e.event.beforeState).Ok? && AfterOf(e).Some?
    && AfterOf(e).value.id == caseId && AfterOf(e).value.dealId == e.event.dealId
  }

  /** The second event starts from what the first one left. */
  predicate Continues(d: SealedEvent, e: SealedEvent) {
    && e.event.dealId == d.event.dealId
    && AfterOf(d).Some? && BeforeOf(e).Some? && CaseHash(BeforeOf(e).value) == CaseHash(AfterOf(d).value)
  }

  predicate WellTold(es: seq<SealedEvent>, caseId: string) {
    && (forall i | 0 <= i < |es| :: Tells(es[i], caseId))
    && (forall i | 0 < i < |es| :: Continues(es[i - 1], es[i]))
  }

  function ToStatuses(ts: seq<Transition>): seq<CaseStatus> { Map(ts, (t: Transition) => t.to) }

  /** A status sequence with adjacent repeats removed: the places where the status is new. */
  function WithoutRepeats(ss: seq<CaseStatus>): seq<CaseStatus> {
    if |ss| == 0 then []
    else
      var n := |ss| - 1;
      WithoutRepeats(ss[..n]) + (if n == 0 || ss[n - 1] != ss[n] then [ss[n]] else [])
  }

  function AllIds(es: seq<SealedEvent>, ids: AuditEvent -> Option<seq<string>>): seq<string> {
    if es == [] then [] else AllIds(es[..|es| - 1], ids) + ids(es[|es| - 1].event).GetOr([])
  }

  /** What the loop variables are after the events `es`. */
  ghost predicate Told(es: seq<SealedEvent>, p: Progress) {
    && |p.transitions| == |es| == |p.eventIds|
    && (forall i | 0 <= i < |es| ::
          && AfterOf(es[i]).Some? && p.eventIds[i] == es[i].event.id
          && p.transitions[i] == TransitionOf(es[i].event, BeforeOf(es[i]), AfterOf(es[i]).value))
    && p.statuses == WithoutRepeats(ToStatuses(p.transitions))
    && p.actionIds == AddAll([], AllIds(es, (e: AuditEvent) => e.actionIds))
    && p.evalIds == AddAll([], AllIds(es, (e: AuditEvent) => e.evalIds))
    && (if es == [] then p.current.None? && p.dealId.None?
        else p.current == AfterOf(es[|es| - 1]) && p.dealId == Some(es[|es| - 1].event.dealId))
  }

  lemma {:induction false} FoldAppend(p: Progress, es: seq<SealedEvent>, e: SealedEvent, caseId: string)
    ensures var front := FoldFrom(p, es, caseId);
      FoldFrom(p, es + [e], caseId) == if front.Err? then front else StepEvent(front.value, e, caseId)
    decreases |es|
  {
    hide StepEvent;
    if es == [] {
      assert [e][1..] == [] && es + [e] == [e];
    } else {
      assert (es + [e])[1..] == es[1..] + [e];
      var next := StepEvent(p, es[0], caseId);
      if next.Ok? { FoldAppend(next.value, es[1..], e, caseId); }
    }
  }

  lemma {:induction false} LastStatus(ss: seq<CaseStatus>)
    requires ss != []
    ensures WithoutRepeats(ss) != [] && WithoutRepeats(ss)[|WithoutRepeats(ss)| - 1] == ss[|ss| - 1]
  {
    if |ss| > 1 { LastStatus(ss[..|ss| - 1]); }
  }

  lemma AddAllAppend(ids: seq<string>, a: seq<string>, b: seq<string>)
    ensures AddAll(ids, a + b) == AddAll(AddAll(ids, a), b)
  {
    if b == [] {
      assert a + b == a;
    } else {
      var n := |b| - 1;
      assert (a + b)[..|a| + n] == a + b[..n];
      AddAllAppend(ids, a, b[..n]);
    }
  }

  lemma AllIdsAppend(es: seq<SealedEvent>, e: SealedEvent, ids: AuditEvent -> Option<seq<string>>)
    ensures AddAll([], AllIds(es + [e], ids)) == AddAll(AddAll([], AllIds(es, ids)), ids(e.event).GetOr([]))
  {
    assert (es + [e])[..|es|] == es;
    AddAllAppend([], AllIds(es, ids), ids(e.event).GetOr([]));
  }

  lemma StatusesStep(ts: seq<Transition>, t: Transition)
    ensures var rs := WithoutRepeats(ToStatuses(ts));
      && (ts != [] ==> rs != [] && rs[|rs| - 1] == ts[|ts| - 1].to)
      && WithoutRepeats(ToStatuses(ts + [t])) == if rs != [] && rs[|rs| - 1] == t.to then rs else rs + [t.to]
  {
    var ss, ss' := ToStatuses(ts), ToStatuses(ts + [t]);
    assert ss'[..|ts|] == ss;
    if ts != [] { LastStatus(ss); }
  }

  lemma StepSucceedsIff(es: seq<SealedEvent>, p: Progress, e: SealedEvent, caseId: string)
    requires
      if es == [] then p.current.None? && p.dealId.None?
      else p.current == AfterOf(es[|es| - 1]) && p.current.Some? && p.dealId == Some(es[|es| - 1].event.dealId)
    ensures StepEvent(p, e, caseId).Ok? <==> Tells(e, caseId) && (es != [] ==> Continues(es[|es| - 1], e))
  {
    hide ReadCaseSnapshot, CaseHash, AddAll;
  }

  /** One step succeeds exactly when the event tells on, and moves the variables on. */
  lemma StepTold(es: seq<SealedEvent>, p: Progress, e: SealedEvent, caseId: string)
    requires Told(es, p)
    ensures StepEvent(p, e, caseId).Ok? <==> Tells(e, caseId) && (es != [] ==> Continues(es[|es| - 1], e))
    ensures StepEvent(p, e, caseId).Ok? ==> Told(es + [e], StepEvent(p, e, caseId).value)
  {
    hide ReadCaseSnapshot, CaseHash, AddAll, AllIds, Tells, Continues, WithoutRepeats, ToStatuses;
    StepSucceedsIff(es, p, e, caseId);
    if StepEvent(p, e, caseId).Ok? {
      var q := StepEvent(p, e, caseId).value;
      AllIdsAppend(es, e, (x: AuditEvent) => x.actionIds);
      AllIdsAppend(es, e, (x: AuditEvent) => x.evalIds);
      StatusesStep(p.transitions, TransitionOf(e.event, BeforeOf(e), AfterOf(e).value));
    }
  }

  /** The fold succeeds exactly on well-told events, and then says what they tell. */
  lemma {:induction false} FoldTold(es: seq<SealedEvent>, caseId: string)
    ensures var folded := FoldFrom(START, es, caseId);
      (folded.Ok? <==> WellTold(es, caseId)) && (folded.Ok? ==> Told(es, folded.value))
  {
    hide Tells, Continues, StepEvent, Told;
    if es == [] {
      assert Told([], START) by { NothingTold(); }
    } else {
      var n := |es| - 1;
      assert es == es[..n] + [es[n]];
      FoldTold(es[..n], caseId);
      FoldAppend(START, es[..n], es[n], caseId);
      var front := FoldFrom(START, es[..n], caseId);
      if front.Ok? {
        StepTold(es[..n], front.value, es[n], caseId);
        assert es[..n] != [] ==> es[..n][|es[..n]| - 1] == es[n - 1];
      }
      WellToldStep(es, caseId);
    }
  }

  lemma NothingTold()
    ensures Told([], START)
  {
    assert ToStatuses([]) == [];
  }

  lemma WellToldStep(es: seq<SealedEvent>, caseId: string)
    requires es != []
    ensures var n := |es| - 1;
      WellTold(es, caseId) <==> WellTold(es[..n], caseId) && Tells(es[n], caseId) && (n > 0 ==> Continues(es[n - 1], es[n]))
  {
    hide Tells, Continues;
    var n := |es| - 1;
    if WellTold(es, caseId) {
      assert forall i | 0 <= i < n :: es[..n][i] == es[i];
    }
    if WellTold(es[..n], caseId) && Tells(es[n], caseId) && (n > 0 ==> Continues(es[n - 1], es[n])) {
      forall i | 0 <= i < |es| ensures Tells(es[i], caseId) && (i > 0 ==> Continues(es[i - 1], es[i])) {
        if i < n { assert es[..n][i] == es[i]; if i > 0 { assert es[..n][i - 1] == es[i - 1]; } }
      }
    }
  }

  lemma ToldFinishes(es: seq<SealedEvent>, p: Progress, caseId: string, head: string)
    requires es != [] && WellTold(es, caseId) && Told(es, p)
    ensures Finished(p, caseId, head).Ok?
  {
    hide ValidCase, AllIds, AddAll, WithoutRepeats, ToStatuses;
    assert Tells(es[|es| - 1], caseId);
    assert ValidCase(p.current.value);
    assert p.current.value.dealId != "" by { CaseHasDeal(p.current.value); }
  }

  lemma CaseHasDeal(c: GovernanceCase)
    requires ValidCase(c)
    ensures c.dealId != ""
  {
  }

  /** Reconstruction succeeds exactly on a valid chain whose events for the case, of which there are some, are well told. */
  lemma ReconstructsIff(events: seq<SealedEvent>, caseId: string)
    ensures ReconstructCase(events, caseId).Ok? <==>
      ValidChain(events) && CaseEvents(events, caseId) != [] && WellTold(CaseEvents(events, caseId), caseId)
    ensures ReconstructCase(events, caseId).Ok? ==>
      var p := FoldFrom(START, CaseEvents(events, caseId), caseId);
      p.Ok? && Told(CaseEvents(events, caseId), p.value)
      && ReconstructCase(events, caseId) == Finished(p.value, caseId, if events == [] then "" else events[|events| - 1].eventHash)
  {
    var es := CaseEvents(events, caseId);
    FoldTold(es, caseId);
    hide ValidChain, CaseEvents, FoldFrom, WellTold, Told;
    if ValidChain(events) && es != [] && WellTold(es, caseId) {
      ToldFinishes(es, FoldFrom(START, es, caseId).value, caseId, if events == [] then "" else events[|events| - 1].eventHash);
    }
    hide Finished;
  }

  /** The transition is the one the event's snapshots show, on this deal. */
  predicate Shows(e: SealedEvent, t: Transition, dealId: string) {
    && e.event.dealId == dealId && AfterOf(e).Some? && AfterOf(e).value.dealId == dealId
    && t.eventId == e.event.id && t.action == e.event.action && t.recordedAt == e.event.recordedAt
    && t.to == AfterOf(e).value.status && t.from == StatusOf(BeforeOf(e))
  }

  /** A transition starts where the one before ended, or two snapshots collide. */
  ghost predicate Linked(d: SealedEvent, e: SealedEvent, t: Transition, u: Transition) {
    || u.from == Some(t.to)
    || (BeforeOf(e).Some? && AfterOf(d).Some? && CaseCollision(BeforeOf(e).value, AfterOf(d).value))
  }

  /** `ids` are those that the events name, each once. */
  ghost predicate Gathers(ids: seq<string>, es: seq<SealedEvent>, named: AuditEvent -> Option<seq<string>>) {
    && (forall id :: id in ids <==> exists e | e in es :: named(e.event).Some? && id in named(e.event).value)
    && (forall i, j | 0 <= i < j < |ids| :: ids[i] != ids[j])
  }

  /** No status follows itself, and walking through all statuses moves through these one by one. */
  ghost predicate Condenses(ls: seq<CaseStatus>, ss: seq<CaseStatus>) {
    && (forall i | 0 < i < |ls| :: ls[i - 1] != ls[i])
    && exists at: seq<nat> :: Walks(ls, ss, at)
  }

  ghost predicate Walks(ls: seq<CaseStatus>, ss: seq<CaseStatus>, at: seq<nat>) {
    && |at| == |ss| && (if ss == [] then ls == [] else at[0] == 0 && at[|ss| - 1] == |ls| - 1)
    && (forall i | 0 <= i < |ss| :: at[i] < |ls| && ss[i] == ls[at[i]])
    && (forall i | 0 < i < |ss| :: at[i] == at[i - 1] || at[i] == at[i - 1] + 1)
  }

  ghost predicate Explains(r: CaseLifecycle, es: seq<SealedEvent>) {
    && es != [] && |r.transitions| == |es| && r.eventIds == Map(es, (e: SealedEvent) => e.event.id)
    && Condenses(r.lifecycleStatuses, ToStatuses(r.transitions))
    && Some(r.current) == AfterOf(es[|es| - 1])
    && Gathers(r.actionIds, es, (e: AuditEvent) => e.actionIds) && Gathers(r.evalIds, es, (e: AuditEvent) => e.evalIds)
    && (forall i | 0 <= i < |es| :: Shows(es[i], r.transitions[i], r.dealId))
    && (forall i | 0 < i < |es| :: Linked(es[i - 1], es[i], r.transitions[i - 1], r.transitions[i]))
  }

  lemma {:induction false} RepeatsRemoved(ss: seq<CaseStatus>) returns (at: seq<nat>)
    ensures var ls := WithoutRepeats(ss);
      (forall i | 0 < i < |ls| :: ls[i - 1] != ls[i]) && Walks(ls, ss, at)
  {
    at := [];
    if ss != [] {
      var n := |ss| - 1;
      var front := RepeatsRemoved(ss[..n]);
      if n > 0 { LastStatus(ss[..n]); }
      at := front + [|WithoutRepeats(ss)| - 1];
    }
  }

  lemma {:induction false} AllIdsMembers(es: seq<SealedEvent>, named: AuditEvent -> Option<seq<string>>, id: string)
    ensures id in AllIds(es, named) <==> exists e | e in es :: named(e.event).Some? && id in named(e.event).value
  {
    if es != [] {
      var n := |es| - 1;
      AllIdsMembers(es[..n], named, id);
      assert es == es[..n] + [es[n]];
    }
  }

  lemma IdsGathered(es: seq<SealedEvent>, named: AuditEvent -> Option<seq<string>>)
    ensures Gathers(AddAll([], AllIds(es, named)), es, named)
  {
    ListedOnce(AllIds(es, named));
    forall id ensures id in AllIds(es, named) <==> exists e | e in es :: named(e.event).Some? && id in named(e.event).value {
      AllIdsMembers(es, named, id);
    }
  }

  lemma ToldExplains(es: seq<SealedEvent>, p: Progress, r: CaseLifecycle)
    requires es != [] && Told(es, p) && p.current.Some? && p.dealId.Some?
    requires r == CaseLifecycle(
      r.caseId, p.dealId.value, p.current.value, p.statuses, p.transitions, p.eventIds, p.actionIds, p.evalIds, r.chainHeadHash)
    requires forall i | 0 <= i < |es| :: Shows(es[i], r.transitions[i], r.dealId)
    requires forall i | 0 < i < |es| :: Linked(es[i - 1], es[i], r.transitions[i - 1], r.transitions[i])
    ensures Explains(r, es)
  {
    IdsGathered(es, (e: AuditEvent) => e.actionIds);
    IdsGathered(es, (e: AuditEvent) => e.evalIds);
    var at := RepeatsRemoved(ToStatuses(r.transitions));
    hide ReadCaseSnapshot, AddAll, AllIds, WithoutRepeats, ToStatuses, Walks, Gathers, Shows, Linked;
    assert r.eventIds == Map(es, (e: SealedEvent) => e.event.id);
  }

  lemma TransitionsShow(es: seq<SealedEvent>, p: Progress, caseId: string)
    requires es != [] && Told(es, p) && p.dealId.Some? && WellTold(es, caseId)
    ensures forall i | 0 <= i < |es| :: Shows(es[i], p.transitions[i], p.dealId.value)
    ensures forall i | 0 < i < |es| :: Linked(es[i - 1], es[i], p.transitions[i - 1], p.transitions[i])
  {
    OneDeal(es, caseId);
    hide ReadCaseSnapshot, AddAll, AllIds, WithoutRepeats, ToStatuses, Linked, CaseHash;
    forall i | 0 <= i < |es| ensures Shows(es[i], p.transitions[i], p.dealId.value) {
      assert Tells(es[i], caseId);
    }
    forall i | 0 < i < |es| ensures Linked(es[i - 1], es[i], p.transitions[i - 1], p.transitions[i]) {
      assert Continues(es[i - 1], es[i]);
      LinkedUp(es[i - 1], es[i], p.transitions[i - 1], p.transitions[i], p.dealId.value);
    }
  }

  /**
   A successful reconstruction lists one transition per event of the case, all on one deal;
   each starts from the status the one before ended with, unless two snapshots collide; the
   lifecycle is the end statuses with adjacent repeats removed, and the ids are those the events name.
   */
  lemma ReconstructionIsSound(events: seq<SealedEvent>, caseId: string)
    requires ReconstructCase(events, caseId).Ok?
    ensures var r := ReconstructCase(events, caseId).value;
      && Explains(r, CaseEvents(events, caseId))
      && events != [] && r.caseId == caseId && r.chainHeadHash == events[|events| - 1].eventHash
  {
    ReconstructsIff(events, caseId);
    var r, es := ReconstructCase(events, caseId).value, CaseEvents(events, caseId);
    assert events == [] ==> es == [];
    var p := FoldFrom(START, es, caseId).value;
    hide ReconstructCase, CaseEvents, FoldFrom, WellTold, Told, Explains, Shows, Linked;
    TransitionsShow(es, p, caseId);
    ToldExplains(es, p, r);
  }

  /** Why an event does not go on with the story of the events before it, which do. */
  predicate Breaks(es: seq<SealedEvent>, i: nat, caseId: string, error: ReconstructionError)
    requires i < |es|
  {
    var e := es[i];
    var readable := ReadCaseSnapshot(e.event.beforeState).Ok? && ReadCaseSnapshot(e.event.afterState).Ok?;
    var sameDeal := i == 0 || es[i - 1].event.dealId == e.event.dealId;
    match error
    case SpansDeals => !sameDeal
    case BadSnapshot(id) => id == e.event.id && sameDeal && !readable
    case MissingAfter(id) => id == e.event.id && sameDeal && readable && AfterOf(e).None?
    case OtherCase(id) => id == e.event.id && sameDeal && readable && AfterOf(e).Some? && AfterOf(e).value.id != caseId
    case OtherDeal(id) =>
      && id == e.event.id && sameDeal && readable && AfterOf(e).Some? && AfterOf(e).value.id == caseId
      && AfterOf(e).value.dealId != e.event.dealId
    case MissingBefore(id) => id == e.event.id && sameDeal && Tells(e, caseId) && i > 0 && BeforeOf(e).None?
    case BeforeMismatch(id) =>
      && id == e.event.id && sameDeal && Tells(e, caseId) && i > 0 && BeforeOf(e).Some?
      && AfterOf(es[i - 1]).Some? && CaseHash(BeforeOf(e).value) != CaseHash(AfterOf(es[i - 1]).value)
    case _ => false
  }

  lemma StepBreaks(es: seq<SealedEvent>, p: Progress, e: SealedEvent, caseId: string)
    requires Told(es, p) && (es != [] ==> AfterOf(es[|es| - 1]).Some?) && StepEvent(p, e, caseId).Err?
    ensures Breaks(es + [e], |es|, caseId, StepEvent(p, e, caseId).error)
  {
    hide ReadCaseSnapshot, CaseHash, AddAll, AllIds, WithoutRepeats, ToStatuses;
  }

  lemma {:induction false} FoldBreaks(es: seq<SealedEvent>, caseId: string) returns (i: nat)
    requires FoldFrom(START, es, caseId).Err?
    ensures i < |es| && WellTold(es[..i], caseId) && Breaks(es, i, caseId, FoldFrom(START, es, caseId).error)
  {
    hide StepEvent, Told, Tells, Continues, Breaks;
    var n := |es| - 1;
    assert es == es[..n] + [es[n]];
    FoldAppend(START, es[..n], es[n], caseId);
    FoldTold(es[..n], caseId);
    if FoldFrom(START, es[..n], caseId).Err? {
      i := FoldBreaks(es[..n], caseId);
      assert es[..n][..i] == es[..i];
      BreaksAlike(es[..n], es, i, caseId, FoldFrom(START, es, caseId).error);
    } else {
      i := n;
      var p := FoldFrom(START, es[..n], caseId).value;
      if n > 0 { LastTold(es[..n], p); }
      StepBreaks(es[..n], p, es[n], caseId);
    }
  }

  lemma LastTold(es: seq<SealedEvent>, p: Progress)
    requires Told(es, p) && es != []
    ensures AfterOf(es[|es| - 1]).Some?
  {
    hide ReadCaseSnapshot, AddAll, AllIds, WithoutRepeats, ToStatuses;
  }

  lemma BreaksAlike(ds: seq<SealedEvent>, es: seq<SealedEvent>, i: nat, caseId: string, error: ReconstructionError)
    requires i < |ds| <= |es| && ds == es[..|ds|] && Breaks(ds, i, caseId, error)
    ensures Breaks(es, i, caseId, error)
  {
    hide ReadCaseSnapshot, CaseHash;
  }

  /**
   A reconstruction that fails says why: the chain does not verify, there is no event of the case, or the
   first event that does not go on with the story breaks it as the error says.
   */
  lemma ReconstructionNamesBreak(events: seq<SealedEvent>, caseId: string)
    requires ReconstructCase(events, caseId).Err?
    ensures var error, es := ReconstructCase(events, caseId).error, CaseEvents(events, caseId);
      if !ValidChain(events) then error == BrokenChain
      else if es == [] then error == NoCaseEvents
      else exists i: nat | i < |es| :: WellTold(es[..i], caseId) && Breaks(es, i, caseId, error)
  {
    hide ValidChain, FoldFrom, WellTold, Breaks, CaseEvents;
    var es := CaseEvents(events, caseId);
    if ValidChain(events) && es != [] {
      ReconstructsIff(events, caseId);
      FoldTold(es, caseId);
      var i := FoldBreaks(es, caseId);
    }
  }

  lemma LinkedUp(d: SealedEvent, e: SealedEvent, t: Transition, u: Transition, dealId: string)
    requires Continues(d, e) && Shows(d, t, dealId) && Shows(e, u, dealId)
    ensures Linked(d, e, t, u)
  {
    hide ReadCaseSnapshot, CaseHash, CaseCollision;
    CaseHashDetermines(BeforeOf(e).value, AfterOf(d).value);
  }

  lemma {:induction false} OneDeal(es: seq<SealedEvent>, caseId: string)
    requires WellTold(es, caseId)
    ensures forall i | 0 <= i < |es| :: es[i].event.dealId == es[|es| - 1].event.dealId
  {
    hide Tells, ReadCaseSnapshot, CaseHash;
    if es != [] {
      var n := |es| - 1;
      WellToldStep(es, caseId);
      OneDeal(es[..n], caseId);
      forall i | 0 <= i < |es| ensures es[i].event.dealId == es[n].event.dealId {
        if i < n { assert es[..n][i] == es[i] && es[..n][n - 1] == es[n - 1] && Continues(es[n - 1], es[n]); }
      }
    }
  }

  // ---------------------------------------------------------------- longer ledgers

  ghost predicate ExtendsBy(r: CaseLifecycle, r': CaseLifecycle, e: SealedEvent) {
    && r'.caseId == r.caseId && r'.dealId == r.dealId && r'.chainHeadHash == e.eventHash
    && r.transitions <= r'.transitions && |r'.transitions| == |r.transitions| + 1
    && r'.eventIds == r.eventIds + [e.event.id]
    && r.lifecycleStatuses <= r'.lifecycleStatuses && |r'.lifecycleStatuses| <= |r.lifecycleStatuses| + 1
  }

  lemma StepExtends(p: Progress, e: SealedEvent, caseId: string, head: string)
    requires StepEvent(p, e, caseId).Ok? && p.dealId.Some?
    requires Finished(p, caseId, head).Ok? && Finished(StepEvent(p, e, caseId).value, caseId, e.eventHash).Ok?
    ensures ExtendsBy(Finished(p, caseId, head).value, Finished(StepEvent(p, e, caseId).value, caseId, e.eventHash).value, e)
  {
    hide ReadCaseSnapshot, CaseHash, AddAll;
  }

  /** One more event: another case's changes only the head hash; this case's adds one transition at the end. */
  lemma ReconstructionExtends(events: seq<SealedEvent>, e: SealedEvent, caseId: string)
    requires ValidChain(events + [e]) && ReconstructCase(events, caseId).Ok?
    ensures var r, r' := ReconstructCase(events, caseId).value, ReconstructCase(events + [e], caseId);
      && (e.event.caseId != caseId ==> r' == Ok(r.(chainHeadHash := e.eventHash)))
      && (e.event.caseId == caseId && r'.Ok? ==> ExtendsBy(r, r'.value, e))
  {
    var es := CaseEvents(events, caseId);
    hide ValidChain, CaseEvents, StepEvent, FoldFrom, WellTold, Told, ExtendsBy;
    CaseEventsStep(events, e, caseId);
    FoldAppend(START, es, e, caseId);
    ReconstructsIff(events, caseId);
    if e.event.caseId == caseId && ReconstructCase(events + [e], caseId).Ok? {
      StepExtends(FoldFrom(START, es, caseId).value, e, caseId, if events == [] then "" else events[|events| - 1].eventHash);
    }
  }

  lemma CaseEventsStep(events: seq<SealedEvent>, e: SealedEvent, caseId: string)
    ensures CaseEvents(events + [e], caseId)
            == if e.event.caseId == caseId then CaseEvents(events, caseId) + [e] else CaseEvents(events, caseId)
  {
    FilterStep(events, e, InCase(caseId));
    assert CaseEvents(events, caseId) + [] == CaseEvents(events, caseId);
  }

  /** The event without its link. */
  function Unsealed(e: SealedEvent): AuditEvent { e.event.(prevHash := None) }

  function CaseStory(events: seq<SealedEvent>, caseId: string): seq<AuditEvent> { Map(CaseEvents(events, caseId), Unsealed) }

  function AnyHead(r: Result<CaseLifecycle, ReconstructionError>): Result<CaseLifecycle, ReconstructionError> {
    if r.Ok? then Ok(r.value.(chainHeadHash := "")) else r
  }

  lemma StepIgnoresSeal(p: Progress, d: SealedEvent, e: SealedEvent, caseId: string)
    requires Unsealed(d) == Unsealed(e)
    ensures StepEvent(p, d, caseId) == StepEvent(p, e, caseId)
  {
    hide ReadCaseSnapshot, CaseHash, AddAll;
  }

  lemma {:induction false} FoldIgnoresSeals(p: Progress, ds: seq<SealedEvent>, es: seq<SealedEvent>, caseId: string)
    requires Map(ds, Unsealed) == Map(es, Unsealed)
    ensures FoldFrom(p, ds, caseId) == FoldFrom(p, es, caseId)
    decreases |ds|
  {
    hide StepEvent, Unsealed;
    assert |ds| == |Map(ds, Unsealed)| == |es|;
    if ds != [] {
      assert Unsealed(ds[0]) == Map(ds, Unsealed)[0] == Unsealed(es[0]);
      StepIgnoresSeal(p, ds[0], es[0], caseId);
      forall i | 0 <= i < |ds[1..]| ensures Unsealed(ds[1..][i]) == Unsealed(es[1..][i]) {
        assert Map(ds, Unsealed)[i + 1] == Map(es, Unsealed)[i + 1];
      }
      assert Map(ds[1..], Unsealed) == Map(es[1..], Unsealed);
      var next := StepEvent(p, ds[0], caseId);
      if next.Ok? { FoldIgnoresSeals(next.value, ds[1..], es[1..], caseId); }
    }
  }

  /** Only the events of the case matter, and not their links: everything else shows in the head hash alone. */
  lemma OtherCasesDoNotMatter(c: seq<SealedEvent>, d: seq<SealedEvent>, caseId: string)
    requires ValidChain(c) && ValidChain(d) && CaseStory(c, caseId) == CaseStory(d, caseId)
    ensures AnyHead(ReconstructCase(c, caseId)) == AnyHead(ReconstructCase(d, caseId))
  {
    hide ValidChain, CaseEvents, FoldFrom, Unsealed;
    var cs, ds := CaseEvents(c, caseId), CaseEvents(d, caseId);
    assert |cs| == |CaseStory(c, caseId)| == |ds|;
    FoldIgnoresSeals(START, cs, ds, caseId);
  }

  // ---------------------------------------------------------------- ledgers that were appended to

  predicate Accepted(input: AuditEvent) { ValidEvent(RedactEvent(input.(prevHash := Some(GENESIS)))) }

  function StoryOf(caseId: string): AuditEvent -> bool {
    (input: AuditEvent) => input.caseId == caseId && Accepted(input)
  }

  function Written(input: AuditEvent): AuditEvent { RedactEvent(input.(prevHash := None)) }

  lemma SealAccepts(chain: seq<SealedEvent>, input: AuditEvent)
    requires ValidChain(chain)
    ensures Seal(chain, input).Ok? <==> Accepted(input)
    ensures Seal(chain, input).Ok? ==> Unsealed(Seal(chain, input).value) == Written(input)
  {
    hide HashEvent, RedactSnapshot;
    if chain != [] { assert Good(chain, |chain| - 1); }
  }

  /** The story of a case in a ledger is what was appended for it and accepted, redacted, in order. */
  lemma {:induction false} LedgerTellsStory(inputs: seq<AuditEvent>, caseId: string)
    ensures CaseStory(AppendAll([], inputs), caseId) == Map(Filter(inputs, StoryOf(caseId)), Written)
  {
    hide Seal, Accepted, Unsealed, Written;
    if inputs == [] {
      assert CaseEvents([], caseId) == [];
    } else {
      var n := |inputs| - 1;
      var shorter, input := AppendAll([], inputs[..n]), inputs[n];
      LedgerTellsStory(inputs[..n], caseId);
      AppendAllValid([], inputs[..n]);
      SealAccepts(shorter, input);
      assert inputs == inputs[..n] + [input];
      FilterConcat(inputs[..n], [input], StoryOf(caseId));
      assert [input][1..] == [];
      assert Filter(inputs[..n], StoryOf(caseId)) + [] == Filter(inputs[..n], StoryOf(caseId));
      if Seal(shorter, input).Ok? {
        var e := Seal(shorter, input).value;
        SealedCase(shorter, input);
        FilterConcat(shorter, [e], InCase(caseId));
        assert [e][1..] == [] && CaseEvents(shorter, caseId) + [] == CaseEvents(shorter, caseId);
      }
    }
  }

  lemma SealedCase(chain: seq<SealedEvent>, input: AuditEvent)
    requires Seal(chain, input).Ok?
    ensures Seal(chain, input).value.event.caseId == input.caseId
  {
  }

  /** However other cases' events are interleaved with a case's, its reconstruction differs in the head hash alone. */
  lemma InterleavingDoesNotMatter(a: seq<AuditEvent>, b: seq<AuditEvent>, caseId: string)
    requires Filter(a, StoryOf(caseId)) == Filter(b, StoryOf(caseId))
    ensures AnyHead(ReconstructCase(AppendAll([], a), caseId)) == AnyHead(ReconstructCase(AppendAll([], b), caseId))
  {
    hide StoryOf, ReconstructCase, AppendAll, CaseStory;
    AppendAllValid([], a);
    AppendAllValid([], b);
    LedgerTellsStory(a, caseId);
    LedgerTellsStory(b, caseId);
    OtherCasesDoNotMatter(AppendAll([], a), AppendAll([], b), caseId);
  }

  // ---------------------------------------------------------------- the lean reconstruction

  datatype LeanCase = LeanCase(caseId: string, dealId: string, currentStatus: string, dealStatus: string, timeline: seq<SealedEvent>)

  function TextIn(state: Option<seq<Member>>, key: string): Option<string> {
    if state.None? then None else StringAt(state.value, key)
  }

  /** The case status an event asserts, if any. */
  function SaysStatus(e: AuditEvent): Option<string> {
    if TextIn(e.afterState, "status").Some? then TextIn(e.afterState, "status")
    else if e.action == "case.opened" then Some("open")
    else if e.action == "case.closed" then Some("closed")
    else if e.action == "correction.enforced" || e.action == "correction-enforced" then Some("corrected")
    else None
  }

  function SaysDeal(e: AuditEvent): string { TextIn(e.afterState, "dealStatus").GetOr(e.newStatus) }

  /** The status the last event that asserts one asserts. */
  ghost predicate LastSaid(es: seq<SealedEvent>, status: string) {
    || (status == "open" && forall i | 0 <= i < |es| :: SaysStatus(es[i].event).None?)
    || (exists i | 0 <= i < |es| :: SaysStatus(es[i].event) == Some(status)
                                    && forall j | i < j < |es| :: SaysStatus(es[j].event).None?)
  }

  /** `reconstructCaseLifecycle`: the last word on each status wins. */
  method ReconstructCaseLifecycle(events: seq<SealedEvent>, caseId: string) returns (r: Result<LeanCase, ReconstructionError>)
    ensures r.Err? ==> r.error == if ValidChain(events) then NoCaseEvents else BrokenChain
    ensures r.Ok? <==> ValidChain(events) && CaseEvents(events, caseId) != []
    ensures r.Ok? ==>
      && r.value.caseId == caseId && r.value.timeline == CaseEvents(events, caseId)
      && r.value.dealId == r.value.timeline[0].event.dealId
      && LastSaid(r.value.timeline, r.value.currentStatus)
      && r.value.dealStatus == SaysDeal(r.value.timeline[|r.value.timeline| - 1].event)
  {
    hide Good;
    var verdict := VerifyChain(events);
    if !verdict.valid { return Err(BrokenChain); }
    var timeline := CaseEvents(events, caseId);
    if |timeline| == 0 { return Err(NoCaseEvents); }
    var currentStatus := "open";
    var dealStatus := timeline[0].event.previousStatus;
    for i := 0 to |timeline|
      invariant LastSaid(timeline[..i], currentStatus)
      invariant i > 0 ==> dealStatus == SaysDeal(timeline[i - 1].event)
    {
      var e := timeline[i].event;
      dealStatus := e.newStatus;
      var afterStatus := TextIn(e.afterState, "status");
      ghost var was := currentStatus;
      if afterStatus.Some? {
        currentStatus := afterStatus.value;
      } else if e.action == "case.opened" {
        currentStatus := "open";
      } else if e.action == "case.closed" {
        currentStatus := "closed";
      } else if e.action == "correction.enforced" || e.action == "correction-enforced" {
        currentStatus := "corrected";
      }
      SaidNext(timeline, i, was, currentStatus);
      var afterDeal := TextIn(e.afterState, "dealStatus");
      if afterDeal.Some? { dealStatus := afterDeal.value; }
    }
    assert timeline[..|timeline|] == timeline;
    r := Ok(LeanCase(caseId, timeline[0].event.dealId, currentStatus, dealStatus, timeline));
  }

  lemma SaidNext(es: seq<SealedEvent>, n: nat, was: string, status: string)
    requires n < |es| && LastSaid(es[..n], was) && status == SaysStatus(es[n].event).GetOr(was)
    ensures LastSaid(es[..n + 1], status)
  {
    hide SaysStatus;
    var es' := es[..n + 1];
    assert forall i | 0 <= i < n :: es'[i] == es[..n][i];
    assert es'[n] == es[n];
    if SaysStatus(es[n].event).None? && !(was == "open" && forall i | 0 <= i < n :: SaysStatus(es[..n][i].event).None?) {
      var i :| 0 <= i < n && SaysStatus(es[..n][i].event) == Some(was) && forall j | i < j < n :: SaysStatus(es[..n][j].event).None?;
      assert SaysStatus(es'[i].event) == Some(status);
    }
  }
}
