/**
 The requirement store (packages/integrations/requirement-store/src/index.ts): an
 append-only log of versions, with lifecycle transitions, read in two ways.
 */
module RequirementStores {
  import opened Prelude
  import opened Sorting
  import opened KeyedStores
  import opened AuditEvents

  datatype Severity = Hard | Soft | Info
  datatype Status = Proposed | Active | Rejected | Retired
  datatype Origin = ByOperator | ByImport | ByProposal

  datatype Requirement = Requirement(
    id: string, goalId: string, dealId: string, text: string, ownerRole: string, severity: Severity, scope: seq<string>,
    status: Status, createdBy: Origin, approvedBy: Option<string>, evidenceRefs: seq<string>, createdAt: string,
    activatedAt: Option<string>)

  datatype Draft = Draft(
    goalId: string, dealId: string, text: string, ownerRole: string, severity: Severity, scope: seq<string>,
    createdBy: Origin, evidenceRefs: seq<string>)

  /** The fields an amendment may revise; a missing one is left as it is. */
  datatype Amendment = Amendment(
    text: Option<string>, ownerRole: Option<string>, severity: Option<Severity>, scope: Option<seq<string>>,
    evidenceRefs: Option<seq<string>>)

  /** `requirementContract` accepts the record. */
  predicate ValidRequirement(r: Requirement) {
    && r.id != "" && r.goalId != "" && r.dealId != "" && r.text != "" && r.ownerRole != ""
    && NonEmptyStrings(r.scope) && NonEmptyStrings(r.evidenceRefs)
    && (r.approvedBy.Some? ==> r.approvedBy.value != "")
    && IsTimestamp(r.createdAt) && (r.activatedAt.Some? ==> IsTimestamp(r.activatedAt.value))
    && (r.status == Active ==> r.approvedBy.Some?)
  }

  /** `to` is missing when an amendment is refused. */
  datatype RequirementError =
    | Duplicate(id: string) | NotFound(id: string) | Violation(id: string)
    | InvalidTransition(id: string, from: Status, to: Option<Status>)

  type Answer = Result<Requirement, RequirementError>

  datatype Call =
    | CallCreate(draft: Draft) | CallApprove(id: string, approver: string) | CallReject(id: string) | CallRetire(id: string)
    | CallAmend(id: string, changes: Amendment)

  /** The log, and how many ids and clock readings were drawn. */
  datatype State = State(versions: seq<Requirement>, nextId: nat, ticks: nat)

  /** Where ids and clock readings come from. */
  datatype Source = Source(ids: nat -> string, clock: nat -> string)

  // ---------------------------------------------------------------- the specification

  /** The newest version of an id. */
  function Latest(versions: seq<Requirement>, id: string): Option<Requirement> {
    if versions == [] then None
    else
      var n := |versions| - 1;
      if versions[n].id == id then Some(versions[n]) else Latest(versions[..n], id)
  }

  function HasId(id: string): Requirement -> bool { (r: Requirement) => r.id == id }

  /** All versions of an id, oldest first. */
  function History(versions: seq<Requirement>, id: string): seq<Requirement> { Filter(versions, HasId(id)) }

  function Proposal(draft: Draft, id: string, at: string): Requirement {
    Requirement(id, draft.goalId, draft.dealId, draft.text, draft.ownerRole, draft.severity, draft.scope, Proposed,
                draft.createdBy, None, draft.evidenceRefs, at, None)
  }

  function Amended(r: Requirement, c: Amendment): Requirement {
    r.(text := c.text.GetOr(r.text), ownerRole := c.ownerRole.GetOr(r.ownerRole), severity := c.severity.GetOr(r.severity),
       scope := c.scope.GetOr(r.scope), evidenceRefs := c.evidenceRefs.GetOr(r.evidenceRefs))
  }

  function Appended(s: State, r: Requirement): (Answer, State) {
    if ValidRequirement(r) then (Ok(r), s.(versions := s.versions + [r])) else (Err(Violation(r.id)), s)
  }

  function OnCall(src: Source, s: State, call: Call): (Answer, State) {
    match call
    case CallCreate(draft) =>
      var id := src.ids(s.nextId);
      var s' := s.(nextId := s.nextId + 1);
      if Latest(s.versions, id).Some? then (Err(Duplicate(id)), s')
      else Appended(s'.(ticks := s.ticks + 1), Proposal(draft, id, src.clock(s.ticks)))
    case CallApprove(id, approver) => (
      match Latest(s.versions, id)
      case None => (Err(NotFound(id)), s)
      case Some(r) =>
        if r.status != Proposed then (Err(InvalidTransition(id, r.status, Some(Active))), s)
        else Appended(s.(ticks := s.ticks + 1),
                      r.(status := Active, approvedBy := Some(approver), activatedAt := Some(src.clock(s.ticks)))))
    case CallReject(id) => (
      match Latest(s.versions, id)
      case None => (Err(NotFound(id)), s)
      case Some(r) =>
        if r.status != Proposed then (Err(InvalidTransition(id, r.status, Some(Rejected))), s)
        else Appended(s, r.(status := Rejected)))
    case CallRetire(id) => (
      match Latest(s.versions, id)
      case None => (Err(NotFound(id)), s)
      case Some(r) =>
        if r.status != Active then (Err(InvalidTransition(id, r.status, Some(Retired))), s)
        else Appended(s, r.(status := Retired)))
    case CallAmend(id, changes) => (
      match Latest(s.versions, id)
      case None => (Err(NotFound(id)), s)
      case Some(r) =>
        if r.status in {Rejected, Retired} then (Err(InvalidTransition(id, r.status, None)), s)
        else Appended(s, Amended(r, changes)))
  }

  function Run(src: Source, calls: seq<Call>): State {
    if calls == [] then State([], 0, 0)
    else OnCall(src, Run(src, calls[..|calls| - 1]), calls[|calls| - 1]).1
  }

  // ---------------------------------------------------------------- the two ways of reading

  const REQUIREMENTS: Keying<Requirement> := Keying((r: Requirement) => r.id, (r: Requirement) => r.createdAt)

  /** The map filled by one pass over the log. */
  function ById(versions: seq<Requirement>): seq<Requirement> {
    if versions == [] then [] else Put(REQUIREMENTS, ById(versions[..|versions| - 1]), versions[|versions| - 1])
  }

  function Governs(matches: Requirement -> bool): Requirement -> bool {
    (r: Requirement) => r.status == Active && matches(r)
  }

  /** The forward pass over the log and the backward scan agree on what is current. */
  lemma {:induction false} ByIdIsLatest(versions: seq<Requirement>, id: string)
    ensures Distinct(REQUIREMENTS, ById(versions))
    ensures Lookup(REQUIREMENTS, ById(versions), id) == Latest(versions, id)
  {
    if versions != [] {
      var n := |versions| - 1;
      ByIdIsLatest(versions[..n], id);
      PutLookup(REQUIREMENTS, ById(versions[..n]), versions[n], id);
    }
  }

  /** What `active` lists: the current versions that are active and match, each once. */
  lemma ActiveIsCurrent(versions: seq<Requirement>, matches: Requirement -> bool)
    ensures var listed := Filter(ById(versions), Governs(matches));
      && (forall r :: r in listed <==> Latest(versions, r.id) == Some(r) && r.status == Active && matches(r))
      && Distinct(REQUIREMENTS, listed)
  {
    var byId := ById(versions);
    ByIdIsLatest(versions, "");
    FilterMembers(byId, Governs(matches));
    WithoutDistinct(REQUIREMENTS, byId, Governs(matches));
    forall r ensures r in byId <==> Latest(versions, r.id) == Some(r) {
      ByIdIsLatest(versions, r.id);
      var i := Find(REQUIREMENTS, byId, r.id);
      if r in byId {
        var j :| 0 <= j < |byId| && byId[j] == r;
        FindUnique(REQUIREMENTS, byId, j);
      }
      if i < |byId| { assert byId[i] in byId; }
    }
  }

  /** The newest version is the last one of the history. */
  lemma {:induction false} LatestEndsHistory(versions: seq<Requirement>, id: string)
    ensures Latest(versions, id).None? <==> History(versions, id) == []
    ensures Latest(versions, id).Some? ==>
      var h := History(versions, id); h[|h| - 1] == Latest(versions, id).value && h[|h| - 1].id == id
  {
    if versions != [] {
      var n := |versions| - 1;
      HistoryStep(versions[..n], versions[n], id);
      assert versions == versions[..n] + [versions[n]];
      LatestEndsHistory(versions[..n], id);
    }
  }

  lemma HistoryStep(versions: seq<Requirement>, r: Requirement, id: string)
    ensures History(versions + [r], id) == History(versions, id) + (if r.id == id then [r] else [])
  {
    FilterConcat(versions, [r], HasId(id));
    assert [r][1..] == [];
  }

  // ---------------------------------------------------------------- the store

  class InMemoryRequirementStore {
    const src: Source
    var versions: seq<Requirement>
    var nextId: nat
    var ticks: nat

    function Snapshot(): State
      reads this
    {
      State(versions, nextId, ticks)
    }

    constructor (src: Source)
      ensures this.src == src && Snapshot() == State([], 0, 0)
    {
      this.src, versions, nextId, ticks := src, [], 0, 0;
    }

    method Create(draft: Draft) returns (r: Answer)
      modifies this
      ensures (r, Snapshot()) == OnCall(src, old(Snapshot()), CallCreate(draft))
    {
      hide ValidRequirement;
      var id := src.ids(nextId);
      nextId := nextId + 1;
      var current := Current(id);
      if current.Some? { return Err(Duplicate(id)); }
      var createdAt := src.clock(ticks);
      ticks := ticks + 1;
      r := Append(Proposal(draft, id, createdAt));
    }

    method Approve(id: string, approver: string) returns (r: Answer)
      modifies this
      ensures (r, Snapshot()) == OnCall(src, old(Snapshot()), CallApprove(id, approver))
    {
      hide ValidRequirement;
      var current := Current(id);
      if current.None? { return Err(NotFound(id)); }
      if current.value.status != Proposed { return Err(InvalidTransition(id, current.value.status, Some(Active))); }
      var activatedAt := src.clock(ticks);
      ticks := ticks + 1;
      r := Append(current.value.(status := Active, approvedBy := Some(approver), activatedAt := Some(activatedAt)));
    }

    method Reject(id: string) returns (r: Answer)
      modifies this
      ensures (r, Snapshot()) == OnCall(src, old(Snapshot()), CallReject(id))
    {
      hide ValidRequirement;
      var current := Current(id);
      if current.None? { return Err(NotFound(id)); }
      if current.value.status != Proposed { return Err(InvalidTransition(id, current.value.status, Some(Rejected))); }
      r := Append(current.value.(status := Rejected));
    }

    method Retire(id: string) returns (r: Answer)
      modifies this
      ensures (r, Snapshot()) == OnCall(src, old(Snapshot()), CallRetire(id))
    {
      hide ValidRequirement;
      var current := Current(id);
      if current.None? { return Err(NotFound(id)); }
      if current.value.status != Active { return Err(InvalidTransition(id, current.value.status, Some(Retired))); }
      r := Append(current.value.(status := Retired));
    }

    method Amend(id: string, changes: Amendment) returns (r: Answer)
      modifies this
      ensures (r, Snapshot()) == OnCall(src, old(Snapshot()), CallAmend(id, changes))
    {
      hide ValidRequirement;
      var current := Current(id);
      if current.None? { return Err(NotFound(id)); }
      if current.value.status in {Rejected, Retired} { return Err(InvalidTransition(id, current.value.status, None)); }
      r := Append(Amended(current.value, changes));
    }

    /** Scans the log from its newest end. */
    method Current(id: string) returns (r: Option<Requirement>)
      ensures r == Latest(versions, id)
    {
      var i := |versions|;
      assert versions[..i] == versions;
      while i > 0
        invariant 0 <= i <= |versions| && Latest(versions, id) == Latest(versions[..i], id)
      {
        i := i - 1;
        assert versions[..i + 1][..i] == versions[..i];
        if versions[i].id == id { return Some(versions[i]); }
      }
      r := None;
    }

    method Get(id: string) returns (r: Answer)
      ensures r == match Latest(versions, id) case None => Err(NotFound(id)) case Some(v) => Ok(v)
    {
      var current := Current(id);
      r := if current.None? then Err(NotFound(id)) else Ok(current.value);
    }

    method HistoryOf(id: string) returns (r: Result<seq<Requirement>, RequirementError>)
      ensures r == if History(versions, id) == [] then Err(NotFound(id)) else Ok(History(versions, id))
      ensures if r.Ok? then Selects(r.value, versions, HasId(id)) else forall v | v in versions :: v.id != id
    {
      var found := Filter(versions, (v: Requirement) => v.id == id);
      assert found == History(versions, id) by { FilterAlike(versions, (v: Requirement) => v.id == id, HasId(id)); }
      FilterSelects(versions, HasId(id));
      FilterMembers(versions, HasId(id));
      r := if |found| == 0 then Err(NotFound(id)) else Ok(found);
    }

    /** Fills a map by id on one forward pass: the last write wins. */
    method ActiveWhere(matches: Requirement -> bool) returns (listed: seq<Requirement>)
      ensures forall r :: r in listed <==> Latest(versions, r.id) == Some(r) && r.status == Active && matches(r)
      ensures Distinct(REQUIREMENTS, listed)
    {
      var byId: seq<Requirement> := [];
      for i := 0 to |versions|
        invariant byId == ById(versions[..i])
      {
        assert versions[..i + 1][..i] == versions[..i];
        byId := Put(REQUIREMENTS, byId, versions[i]);
      }
      assert versions[..|versions|] == versions;
      ActiveIsCurrent(versions, matches);
      listed := Filter(byId, Governs(matches));
    }

    method ActiveByDeal(dealId: string) returns (listed: seq<Requirement>)
      ensures forall r :: r in listed <==> Latest(versions, r.id) == Some(r) && r.status == Active && r.dealId == dealId
      ensures Distinct(REQUIREMENTS, listed)
    {
      listed := ActiveWhere((r: Requirement) => r.dealId == dealId);
    }

    method ActiveByGoal(goalId: string) returns (listed: seq<Requirement>)
      ensures forall r :: r in listed <==> Latest(versions, r.id) == Some(r) && r.status == Active && r.goalId == goalId
      ensures Distinct(REQUIREMENTS, listed)
    {
      listed := ActiveWhere((r: Requirement) => r.goalId == goalId);
    }

    method ActiveByScope(surface: string) returns (listed: seq<Requirement>)
      ensures forall r :: r in listed <==> Latest(versions, r.id) == Some(r) && r.status == Active && surface in r.scope
      ensures Distinct(REQUIREMENTS, listed)
    {
      listed := ActiveWhere((r: Requirement) => surface in r.scope);
    }

    method Append(record: Requirement) returns (r: Answer)
      modifies this`versions
      ensures (r, Snapshot()) == Appended(old(Snapshot()), record)
    {
      if !ValidRequirement(record) { return Err(Violation(record.id)); }
      versions := versions + [record];
      r := Ok(record);
    }
  }

  // ---------------------------------------------------------------- every run is lawful

  /**
   The statuses of an id: proposed one or more times; then nothing, rejected once, or
   active one or more times and then at most one retired.
   */
  ghost predicate LawfulStatuses(h: seq<Requirement>) {
    exists p: nat, a: nat :: StatusRuns(h, p, a)
  }

  ghost predicate StatusRuns(h: seq<Requirement>, p: nat, a: nat) {
    && 1 <= p && p + a <= |h| <= p + a + 1
    && (forall i | 0 <= i < p :: h[i].status == Proposed)
    && (forall i | p <= i < p + a :: h[i].status == Active)
    && (|h| == p + a + 1 ==> h[p + a].status == if a == 0 then Rejected else Retired)
  }

  predicate SameIdentity(r: Requirement, q: Requirement) {
    r.id == q.id && r.goalId == q.goalId && r.dealId == q.dealId && r.createdBy == q.createdBy && r.createdAt == q.createdAt
  }

  /** Approval data is present exactly once the requirement was activated. */
  predicate ApprovalFits(r: Requirement) {
    && (r.status in {Active, Retired} <==> r.approvedBy.Some?)
    && (r.status in {Active, Retired} <==> r.activatedAt.Some?)
  }

  ghost predicate LawfulHistory(h: seq<Requirement>) {
    && LawfulStatuses(h)
    && (forall i | 0 <= i < |h| :: ValidRequirement(h[i]) && ApprovalFits(h[i]))
    && (forall i, j | 0 <= i < j < |h| :: SameIdentity(h[i], h[j]))
    && (forall i, j | 0 <= i < j < |h| && h[i].approvedBy.Some? ::
          h[j].approvedBy == h[i].approvedBy && h[j].activatedAt == h[i].activatedAt)
  }

  ghost predicate Lawful(versions: seq<Requirement>) {
    forall id :: History(versions, id) == [] || LawfulHistory(History(versions, id))
  }

  /** `next` may follow `last` in the history of an id. */
  predicate Follows(last: Requirement, next: Requirement) {
    && ValidRequirement(next) && SameIdentity(last, next) && ApprovalFits(next)
    && (last.approvedBy.Some? ==> next.approvedBy == last.approvedBy && next.activatedAt == last.activatedAt)
    && match last.status
       case Proposed => next.status in {Proposed, Rejected, Active}
       case Active => next.status in {Active, Retired}
       case Rejected => false
       case Retired => false
  }

  lemma LatestFits(versions: seq<Requirement>, id: string)
    requires Lawful(versions)
    ensures match Latest(versions, id) case None => true case Some(r) => r.id == id && ValidRequirement(r) && ApprovalFits(r)
  {
    hide ValidRequirement, ApprovalFits, LawfulStatuses, History;
    LatestEndsHistory(versions, id);
  }

  lemma StatusStep(h: seq<Requirement>, next: Requirement)
    requires h != [] && LawfulStatuses(h) && Follows(h[|h| - 1], next)
    ensures LawfulStatuses(h + [next])
  {
    hide ValidRequirement, SameIdentity, ApprovalFits;
    var p: nat, a: nat :| StatusRuns(h, p, a);
    assert h[p - 1].status == Proposed && (a > 0 ==> h[p + a - 1].status == Active);
    assert |h| == p + a;
    if next.status == Proposed {
      assert StatusRuns(h + [next], p + 1, 0);
    } else if next.status == Active {
      assert StatusRuns(h + [next], p, a + 1);
    } else {
      assert StatusRuns(h + [next], p, a);
    }
  }

  lemma HistoryGrows(h: seq<Requirement>, next: Requirement)
    requires h != [] && LawfulHistory(h) && Follows(h[|h| - 1], next)
    ensures LawfulHistory(h + [next])
  {
    StatusStep(h, next);
    hide ValidRequirement, LawfulStatuses;
    var last, h' := h[|h| - 1], h + [next];
    forall i, j | 0 <= i < j < |h'|
      ensures SameIdentity(h'[i], h'[j])
      ensures h'[i].approvedBy.Some? ==> h'[j].approvedBy == h'[i].approvedBy && h'[j].activatedAt == h'[i].activatedAt
    {
      if j == |h| && i < |h| - 1 { assert SameIdentity(h[i], last); }
    }
  }

  lemma HistoryStarts(r: Requirement)
    requires ValidRequirement(r) && ApprovalFits(r) && r.status == Proposed
    ensures LawfulHistory([r])
  {
    hide ValidRequirement;
    assert StatusRuns([r], 1, 0);
  }

  /** What a successful call appends is the start of a history or may follow its last version. */
  lemma CallFollows(src: Source, s: State, call: Call)
    requires Lawful(s.versions)
    ensures var (answer, s') := OnCall(src, s, call);
      match answer
      case Err(_) => s'.versions == s.versions
      case Ok(r) =>
        && s'.versions == s.versions + [r] && ValidRequirement(r) && ApprovalFits(r)
        && match Latest(s.versions, r.id) case None => r.status == Proposed case Some(last) => Follows(last, r)
  {
    if !call.CallCreate? { LatestFits(s.versions, call.id); }
    hide ValidRequirement, Lawful;
  }

  lemma StepLawful(src: Source, s: State, call: Call)
    requires Lawful(s.versions)
    ensures Lawful(OnCall(src, s, call).1.versions)
  {
    CallFollows(src, s, call);
    var (answer, s') := OnCall(src, s, call);
    hide OnCall, LawfulHistory, Follows, ValidRequirement, ApprovalFits;
    if answer.Ok? {
      var r := answer.value;
      forall id ensures History(s'.versions, id) == [] || LawfulHistory(History(s'.versions, id)) {
        HistoryStep(s.versions, r, id);
        LatestEndsHistory(s.versions, id);
        hide History;
        var h := History(s.versions, id);
        assert h + [] == h;
        if id == r.id {
          if h == [] {
            assert h + [r] == [r];
            HistoryStarts(r);
          } else {
            HistoryGrows(h, r);
          }
        }
      }
    }
  }

  /** In every run, whatever ids and clock readings come, the history of each id is lawful. */
  lemma {:induction false} RunLawful(src: Source, calls: seq<Call>)
    ensures Lawful(Run(src, calls).versions)
  {
    if calls != [] {
      RunLawful(src, calls[..|calls| - 1]);
      hide OnCall, Lawful;
      StepLawful(src, Run(src, calls[..|calls| - 1]), calls[|calls| - 1]);
    }
  }

  lemma CallAppends(src: Source, s: State, call: Call)
    ensures s.versions <= OnCall(src, s, call).1.versions
  {
    hide ValidRequirement, Latest;
  }

  lemma RunLast(src: Source, calls: seq<Call>, last: Call)
    ensures Run(src, calls + [last]) == OnCall(src, Run(src, calls), last).1
  {
    hide OnCall;
    assert (calls + [last])[..|calls|] == calls;
  }

  /** The log of a run is kept, as it is, by every continuation. */
  lemma {:induction false} RunAppends(src: Source, calls: seq<Call>, more: seq<Call>)
    ensures Run(src, calls).versions <= Run(src, calls + more).versions
  {
    hide OnCall, Run;
    if more == [] {
      assert calls + more == calls;
    } else {
      var n := |more| - 1;
      RunAppends(src, calls, more[..n]);
      assert calls + more == (calls + more[..n]) + [more[n]];
      RunLast(src, calls + more[..n], more[n]);
      CallAppends(src, Run(src, calls + more[..n]), more[n]);
    }
  }

  /** Exactly when each transition goes through, on the log of any run. */
  lemma TransitionsIff(src: Source, calls: seq<Call>, call: Call)
    requires !call.CallCreate?
    ensures var s := Run(src, calls);
      OnCall(src, s, call).0.Ok? <==>
        match Latest(s.versions, call.id)
        case None => false
        case Some(r) =>
          match call
          case CallCreate(_) => false
          case CallApprove(_, approver) => r.status == Proposed && approver != "" && IsTimestamp(src.clock(s.ticks))
          case CallReject(_) => r.status == Proposed
          case CallRetire(_) => r.status == Active
          case CallAmend(_, c) =>
            && r.status in {Proposed, Active} && c.text != Some("") && c.ownerRole != Some("")
            && NonEmptyStrings(c.scope.GetOr([])) && NonEmptyStrings(c.evidenceRefs.GetOr([]))
  {
    RunLawful(src, calls);
    LatestFits(Run(src, calls).versions, call.id);
    hide IsTimestamp, Lawful, NonEmptyStrings, Run;
  }

  // ---------------------------------------------------------------- what drafts and amendments carry over

  function DraftOf(r: Requirement): Draft {
    Draft(r.goalId, r.dealId, r.text, r.ownerRole, r.severity, r.scope, r.createdBy, r.evidenceRefs)
  }

  /** A proposal holds its draft, the id and the time it was drawn, and nothing of an approval. */
  lemma ProposalHoldsDraft(d: Draft, id: string, at: string)
    ensures var r := Proposal(d, id, at);
      && DraftOf(r) == d && r.id == id && r.createdAt == at && r.status == Proposed
      && r.approvedBy.None? && r.activatedAt.None?
  {
  }

  /** The draft with the revised fields of the amendment. */
  predicate Revises(d: Draft, d': Draft, c: Amendment) {
    && d'.goalId == d.goalId && d'.dealId == d.dealId && d'.createdBy == d.createdBy
    && (if c.text.Some? then Some(d'.text) == c.text else d'.text == d.text)
    && (if c.ownerRole.Some? then Some(d'.ownerRole) == c.ownerRole else d'.ownerRole == d.ownerRole)
    && (if c.severity.Some? then Some(d'.severity) == c.severity else d'.severity == d.severity)
    && (if c.scope.Some? then Some(d'.scope) == c.scope else d'.scope == d.scope)
    && (if c.evidenceRefs.Some? then Some(d'.evidenceRefs) == c.evidenceRefs else d'.evidenceRefs == d.evidenceRefs)
  }

  /**
   An amendment that goes through appends the current version with exactly the given fields revised; its
   lifecycle is as it was.
   */
  lemma AmendRevises(src: Source, s: State, id: string, c: Amendment)
    requires OnCall(src, s, CallAmend(id, c)).0.Ok?
    ensures Latest(s.versions, id).Some?
    ensures var r, r' := Latest(s.versions, id).value, OnCall(src, s, CallAmend(id, c)).0.value;
      && Revises(DraftOf(r), DraftOf(r'), c)
      && r'.id == r.id && r'.status == r.status && r'.createdAt == r.createdAt
      && r'.approvedBy == r.approvedBy && r'.activatedAt == r.activatedAt
  {
    hide Latest, ValidRequirement;
  }

  /** A transition changes the status, and an approval notes who and when; the content stays. */
  lemma TransitionKeepsContent(src: Source, s: State, call: Call)
    requires !call.CallCreate? && !call.CallAmend? && OnCall(src, s, call).0.Ok?
    ensures Latest(s.versions, call.id).Some?
    ensures var r, r' := Latest(s.versions, call.id).value, OnCall(src, s, call).0.value;
      && DraftOf(r') == DraftOf(r) && r'.id == r.id && r'.createdAt == r.createdAt
      && (if call.CallApprove? then r'.status == Active && r'.approvedBy == Some(call.approver)
                                    && r'.activatedAt == Some(src.clock(s.ticks))
          else r'.approvedBy == r.approvedBy && r'.activatedAt == r.activatedAt)
      && (call.CallReject? ==> r'.status == Rejected) && (call.CallRetire? ==> r'.status == Retired)
  {
    hide Latest, ValidRequirement;
  }

  /** The status a call would move a requirement to; an amendment moves it nowhere. */
  function Target(call: Call): Option<Status> {
    match call
    case CallApprove(_, _) => Some(Active)
    case CallReject(_) => Some(Rejected)
    case CallRetire(_) => Some(Retired)
    case _ => None
  }

  /** A refused call says why: no such requirement, a move its status does not allow, or a record that is not valid. */
  lemma RefusalSays(src: Source, s: State, call: Call)
    requires !call.CallCreate? && OnCall(src, s, call).0.Err?
    ensures OnCall(src, s, call).0.error ==
      match Latest(s.versions, call.id)
      case None => NotFound(call.id)
      case Some(r) =>
        var fits := if call.CallAmend? then r.status in {Proposed, Active}
                    else if call.CallRetire? then r.status == Active else r.status == Proposed;
        if fits then Violation(r.id) else InvalidTransition(call.id, r.status, Target(call))
  {
    hide Latest, ValidRequirement;
    var r := Latest(s.versions, call.id);
    assert r.Some? ==> r.value.status.Proposed? || r.value.status.Active? || r.value.status.Rejected? || r.value.status.Retired?;
  }
}
