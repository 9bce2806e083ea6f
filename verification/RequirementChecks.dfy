/**
 Checking requirements (packages/governance/src/active-requirement-checker.ts): token
 matching, the classification of one requirement, the report over all of them, and what
 more text can do to it.
 */
module RequirementChecks {
  import opened Prelude
  import opened Sorting
  import opened MatchReplace
  import opened RequirementStores

  // ---------------------------------------------------------------- tokens

  predicate IsWordChar(c: char) { 'a' <= c <= 'z' || '0' <= c <= '9' }

  /** Lower case, as far as it reaches ASCII letters: the Kelvin sign and the dotted capital I do too. */
  function LowerChar(c: char): string {
    if 'A' <= c <= 'Z' then [('a' as int + (c as int - 'A' as int)) as char]
    else if c == '\U{212A}' then "k"
    else if c == '\U{130}' then ['i', '\U{307}']
    else [c]
  }

  function Lower(s: string): string {
    if s == "" then "" else LowerChar(s[0]) + Lower(s[1..])
  }

  /** The length of the run of word characters in front. */
  function RunLength(s: string): (n: nat)
    ensures n <= |s| && (forall i | 0 <= i < n :: IsWordChar(s[i])) && (n < |s| ==> !IsWordChar(s[n]))
  {
    if s == "" || !IsWordChar(s[0]) then 0 else 1 + RunLength(s[1..])
  }

  /** All matches of `/[a-z0-9]+/g`. */
  function Runs(s: string): seq<string>
    decreases |s|
  {
    if s == "" then []
    else if IsWordChar(s[0]) then [s[..RunLength(s)]] + Runs(s[RunLength(s)..])
    else Runs(s[1..])
  }

  /** `s[i..j]` is a longest stretch of word characters. */
  ghost predicate MaximalRun(s: string, i: nat, j: nat) {
    && i < j <= |s| && (forall k | i <= k < j :: IsWordChar(s[k]))
    && (i > 0 ==> !IsWordChar(s[i - 1])) && (j < |s| ==> !IsWordChar(s[j]))
  }

  /** A run of `s` past a front part that ends its own run is a run of the rest. */
  lemma RunPast(s: string, n: nat, i: nat, j: nat)
    requires 0 < n <= i <= j <= |s| && !(IsWordChar(s[n - 1]) && n < |s| && IsWordChar(s[n]))
    ensures MaximalRun(s, i, j) <==> MaximalRun(s[n..], i - n, j - n)
    ensures s[i..j] == s[n..][i - n..j - n]
  {
    var rest := s[n..];
    assert forall k | n <= k < |s| :: s[k] == rest[k - n];
    assert forall k | 0 <= k < |rest| :: rest[k] == s[n + k];
  }

  /** The first token and where the text goes on after it, or one separator. */
  function Chunk(s: string): (n: nat)
    requires s != ""
    ensures 0 < n <= |s| && !(IsWordChar(s[n - 1]) && n < |s| && IsWordChar(s[n]))
  {
    if IsWordChar(s[0]) then RunLength(s) else 1
  }

  datatype Span = Span(from: nat, to: nat)

  /** The stretches `at` are all the longest ones of `s`, from left to right, and `runs` are their texts. */
  ghost predicate RunsAt(s: string, runs: seq<string>, at: seq<Span>) {
    && |at| == |runs|
    && (forall k | 0 <= k < |at| :: MaximalRun(s, at[k].from, at[k].to) && runs[k] == s[at[k].from..at[k].to])
    && (forall k, l | 0 <= k < l < |at| :: at[k].to <= at[l].from)
    && (forall i: nat, j: nat | MaximalRun(s, i, j) :: Span(i, j) in at)
  }

  function Shift(at: seq<Span>, n: nat): (r: seq<Span>)
    ensures |r| == |at| && forall k | 0 <= k < |at| :: r[k] == Span(at[k].from + n, at[k].to + n)
  {
    seq(|at|, k requires 0 <= k < |at| => Span(at[k].from + n, at[k].to + n))
  }

  lemma InShift(at: seq<Span>, n: nat, x: Span)
    requires x in at
    ensures Span(x.from + n, x.to + n) in Shift(at, n)
  {
    var k :| 0 <= k < |at| && at[k] == x;
    assert Shift(at, n)[k] == Span(x.from + n, x.to + n);
  }

  lemma MovedRuns(s: string, n: nat, runs: seq<string>, at: seq<Span>)
    requires s != "" && n == Chunk(s) && RunsAt(s[n..], runs, at)
    ensures forall k | 0 <= k < |at| ::
      var x := Shift(at, n)[k]; n <= x.from && MaximalRun(s, x.from, x.to) && runs[k] == s[x.from..x.to]
  {
    hide Chunk;
    var shifted := Shift(at, n);
    forall k | 0 <= k < |at|
      ensures n <= shifted[k].from && MaximalRun(s, shifted[k].from, shifted[k].to) && runs[k] == s[shifted[k].from..shifted[k].to]
    {
      RunPast(s, n, shifted[k].from, shifted[k].to);
    }
  }

  lemma RunsCover(s: string, runs: seq<string>, at: seq<Span>, i: nat, j: nat)
    requires RunsAt(s, runs, at) && MaximalRun(s, i, j)
    ensures Span(i, j) in at
  {
    hide MaximalRun;
  }

  lemma MovedCover(s: string, n: nat, runs: seq<string>, at: seq<Span>, i: nat, j: nat)
    requires s != "" && n == Chunk(s) && RunsAt(s[n..], runs, at) && MaximalRun(s, i, j)
    ensures Span(i, j) in Shift(at, n) || (IsWordChar(s[0]) && i == 0 && j == n)
  {
    hide RunsAt, IsWordChar;
    if i >= n {
      RunPast(s, n, i, j);
      RunsCover(s[n..], runs, at, i - n, j - n);
      InShift(at, n, Span(i - n, j - n));
    } else {
      StartsTogether(s, i, j);
    }
  }

  lemma PrependRun(s: string, n: nat, runs: seq<string>, at: seq<Span>)
    requires MaximalRun(s, 0, n) && |at| == |runs|
    requires forall k | 0 <= k < |at| ::
      n <= at[k].from && MaximalRun(s, at[k].from, at[k].to) && runs[k] == s[at[k].from..at[k].to]
    requires forall k, l | 0 <= k < l < |at| :: at[k].to <= at[l].from
    requires forall i: nat, j: nat | MaximalRun(s, i, j) :: Span(i, j) in at || (i == 0 && j == n)
    ensures RunsAt(s, [s[..n]] + runs, [Span(0, n)] + at)
  {
    assert n <= |s| && s[..n] == s[0..n];
    hide MaximalRun;
    var runs', at' := [s[..n]] + runs, [Span(0, n)] + at;
    assert at'[0] == Span(0, n);
    forall k | 0 <= k < |at'| ensures MaximalRun(s, at'[k].from, at'[k].to) && runs'[k] == s[at'[k].from..at'[k].to] {
      if k > 0 { assert at'[k] == at[k - 1] && runs'[k] == runs[k - 1]; }
    }
    forall x | x in at ensures x in at' { }
  }

  lemma RunsApart(s: string, runs: seq<string>, at: seq<Span>, n: nat)
    requires RunsAt(s, runs, at)
    ensures |at| == |runs| && forall k, l | 0 <= k < l < |at| :: Shift(at, n)[k].to <= Shift(at, n)[l].from
  {
    hide MaximalRun;
  }

  /** The spans of the rest, moved, and in front of them the span of the first token. */
  lemma ShiftedRuns(s: string, n: nat, runs: seq<string>, at: seq<Span>)
    requires s != "" && n == Chunk(s) && RunsAt(s[n..], runs, at)
    ensures
      if IsWordChar(s[0]) then RunsAt(s, [s[..n]] + runs, [Span(0, n)] + Shift(at, n))
      else RunsAt(s, runs, Shift(at, n))
  {
    assert IsWordChar(s[0]) ==> MaximalRun(s, 0, n);
    hide MaximalRun, IsWordChar, Chunk, RunsAt;
    MovedRuns(s, n, runs, at);
    RunsApart(s[n..], runs, at, n);
    forall i: nat, j: nat | MaximalRun(s, i, j) ensures Span(i, j) in Shift(at, n) || (IsWordChar(s[0]) && i == 0 && j == n) {
      MovedCover(s, n, runs, at, i, j);
    }
    if IsWordChar(s[0]) {
      PrependRun(s, n, runs, Shift(at, n));
    } else {
      AssembleRuns(s, runs, Shift(at, n));
    }
  }

  lemma AssembleRuns(s: string, runs: seq<string>, at: seq<Span>)
    requires |at| == |runs|
    requires forall k | 0 <= k < |at| :: MaximalRun(s, at[k].from, at[k].to) && runs[k] == s[at[k].from..at[k].to]
    requires forall k, l | 0 <= k < l < |at| :: at[k].to <= at[l].from
    requires forall i: nat, j: nat | MaximalRun(s, i, j) :: Span(i, j) in at
    ensures RunsAt(s, runs, at)
  {
  }

  /** The tokens before filtering are the longest stretches of word characters, each one, from left to right. */
  lemma {:induction false} RunsInOrder(s: string) returns (at: seq<Span>)
    ensures RunsAt(s, Runs(s), at)
    decreases |s|
  {
    at := [];
    if s != "" {
      var n := Chunk(s);
      var rest := RunsInOrder(s[n..]);
      ShiftedRuns(s, n, Runs(s[n..]), rest);
      RunsStep(s);
      hide RunsAt, IsWordChar;
      assert [] + Runs(s[n..]) == Runs(s[n..]);
      hide Runs;
      at := if IsWordChar(s[0]) then [Span(0, n)] + Shift(rest, n) else Shift(rest, n);
    }
  }

  lemma StartsTogether(s: string, i: nat, j: nat)
    requires MaximalRun(s, i, j) && i < Chunk(s)
    ensures i == 0 && j == RunLength(s)
  {
    assert forall k | 0 <= k < RunLength(s) :: IsWordChar(s[k]);
  }

  const STOPWORDS: set<string> := {
    "the", "a", "an", "of", "to", "in", "on", "and", "or", "for", "be", "is", "are",
    "at", "by", "with", "within", "shall", "this", "that", "its", "their", "any",
    "as", "from", "into", "only", "not", "no", "all", "must", "each", "per", "every",
    "will", "should", "may", "remain", "remains"}

  predicate Salient(t: string) { |t| >= 2 && t !in STOPWORDS }

  function Tokenize(input: string): seq<string> { Filter(Runs(Lower(input)), Salient) }

  predicate Shares(a: string, b: string, n: nat) { |a| >= n && |b| >= n && a[..n] == b[..n] }

  predicate TokensMatch(a: string, b: string) {
    || a == b
    || Shares(a, b, 5)
    || (|a| >= 4 && |b| >= 4 && (a <= b || b <= a))
  }

  /** Some token of `tokens` matches. */
  function FoundIn(tokens: seq<string>): string -> bool {
    (t: string) => exists u | u in tokens :: TokensMatch(t, u)
  }

  function JoinSpaced(parts: seq<string>): string {
    if |parts| == 0 then "" else if |parts| == 1 then parts[0] else parts[0] + " " + JoinSpaced(parts[1..])
  }

  function TrimStart(s: string): string { if s != "" && IsSpace(s[0]) then TrimStart(s[1..]) else s }

  function TrimEnd(s: string): string { if s != "" && IsSpace(s[|s| - 1]) then TrimEnd(s[..|s| - 1]) else s }

  function RoleKey(role: string): string { Lower(TrimEnd(TrimStart(role))) }

  // ---------------------------------------------------------------- subjects and findings

  datatype Surfaces = WholeDeal | Only(names: seq<string>)

  datatype SubjectKind = OfAgentOutput | OfInterceptedAction

  datatype CheckSubject = CheckSubject(
    id: string, kind: SubjectKind, dealId: Option<string>, surfaces: Surfaces, claimsOnTrack: bool, droppedRequirements: seq<string>,
    violatedRequirements: seq<string>, assertedOwnerRoles: seq<string>, text: string, at: Option<string>)

  datatype FindingStatus = Satisfied | Missing | Contradicted | UnsupportedOnTrackClaim | MissingOwnerOrWorkstream

  datatype Classification = Classification(status: FindingStatus, matchedPhrase: Option<string>)

  datatype Finding = Finding(
    requirementId: string, status: FindingStatus, severity: Severity, hardFail: bool, caseOpening: bool, ownerRole: string,
    scope: seq<string>, matchedPhrase: Option<string>)

  datatype Report = Report(
    subjectId: string, subjectKind: SubjectKind, dealId: Option<string>, at: Option<string>, findings: seq<Finding>,
    caseOpeningFindings: seq<Finding>, passed: bool, checkedRequirementIds: seq<string>, skippedRequirementIds: seq<string>)

  // ---------------------------------------------------------------- one requirement

  function RequirementTokens(r: Requirement): seq<string> {
    Tokenize(r.text + " " + JoinSpaced(r.scope) + " " + r.ownerRole)
  }

  predicate PhraseReferences(phrase: string, r: Requirement) {
    var tokens := Tokenize(phrase);
    tokens != [] && forall t | t in tokens :: FoundIn(RequirementTokens(r))(t)
  }

  /** The first phrase that references the requirement. */
  function FirstReference(phrases: seq<string>, r: Requirement): Option<string> {
    if phrases == [] then None
    else if PhraseReferences(phrases[0], r) then Some(phrases[0])
    else FirstReference(phrases[1..], r)
  }

  /** At least three fifths of the distinct statement tokens are found in the text. */
  predicate TextAddresses(text: string, r: Requirement) {
    var statement := AddAll([], Tokenize(r.text));
    && Tokenize(text) != [] && statement != []
    && 5 * |Filter(statement, FoundIn(Tokenize(text)))| >= 3 * |statement|
  }

  const OWNER_SURFACE_TOKENS: seq<string> := ["owner", "owners", "ownership", "workstream", "workstreams"]

  predicate RequiresOwner(r: Requirement) {
    exists t | t in Tokenize(JoinSpaced(r.scope)) :: FoundIn(OWNER_SURFACE_TOKENS)(t)
  }

  predicate OwnerEvidenced(r: Requirement, s: CheckSubject) {
    || (exists role | role in s.assertedOwnerRoles :: RoleKey(role) == RoleKey(r.ownerRole))
    || (Tokenize(r.ownerRole) != [] && forall t | t in Tokenize(r.ownerRole) :: FoundIn(Tokenize(s.text))(t))
  }

  predicate SurfacesMeet(scope: string, surface: string) {
    exists t | t in Tokenize(scope) :: FoundIn(Tokenize(surface))(t)
  }

  predicate InScope(r: Requirement, s: CheckSubject) {
    match s.surfaces
    case WholeDeal => true
    case Only(names) => exists scope, surface | scope in r.scope && surface in names :: SurfacesMeet(scope, surface)
  }

  function Classify(r: Requirement, s: CheckSubject): Classification {
    var violation := FirstReference(s.violatedRequirements, r);
    var dropped := FirstReference(s.droppedRequirements, r);
    if violation.Some? then Classification(Contradicted, violation)
    else if dropped.Some? then Classification(if s.claimsOnTrack then UnsupportedOnTrackClaim else Missing, dropped)
    else if RequiresOwner(r) && !OwnerEvidenced(r, s) then Classification(MissingOwnerOrWorkstream, None)
    else if TextAddresses(s.text, r) then Classification(Satisfied, None)
    else Classification(if s.claimsOnTrack then UnsupportedOnTrackClaim else Missing, None)
  }

  /** The finding on one requirement. */
  function Grade(s: CheckSubject): Requirement -> Finding {
    (r: Requirement) =>
      var c := Classify(r, s);
      var hardFail := r.severity == Hard && c.status != Satisfied;
      Finding(r.id, c.status, r.severity, hardFail, hardFail, r.ownerRole, r.scope, c.matchedPhrase)
  }

  function Checked(s: CheckSubject): Requirement -> bool { (r: Requirement) => r.status == Active && InScope(r, s) }

  function Skipped(s: CheckSubject): Requirement -> bool { (r: Requirement) => !Checked(s)(r) }

  const ID_OF: Requirement -> string := (r: Requirement) => r.id

  const OPENS_CASE: Finding -> bool := (f: Finding) => f.caseOpening

  /** What the report lists: one finding per active requirement in scope, and every other id as skipped. */
  function ReportOn(requirements: seq<Requirement>, s: CheckSubject): Report {
    var findings := Map(Filter(requirements, Checked(s)), Grade(s));
    var opening := Filter(findings, OPENS_CASE);
    Report(s.id, s.kind, s.dealId, s.at, findings, opening, opening == [],
           Map(Filter(requirements, Checked(s)), ID_OF), Map(Filter(requirements, Skipped(s)), ID_OF))
  }

  method CheckRequirements(requirements: seq<Requirement>, s: CheckSubject) returns (report: Report)
    ensures report == ReportOn(requirements, s)
  {
    hide InScope, Classify, Map, Filter;
    var findings: seq<Finding> := [];
    assert requirements[..0] == [];
    NothingChecked(s);
    var checkedIds: seq<string> := [];
    var skippedIds: seq<string> := [];
    for i := 0 to |requirements|
      invariant findings == Map(Filter(requirements[..i], Checked(s)), Grade(s))
      invariant checkedIds == Map(Filter(requirements[..i], Checked(s)), ID_OF)
      invariant skippedIds == Map(Filter(requirements[..i], Skipped(s)), ID_OF)
    {
      var r := requirements[i];
      assert requirements[..i + 1] == requirements[..i] + [r];
      ReportStep(requirements[..i], r, s);
      if r.status != Active || !InScope(r, s) {
        skippedIds := skippedIds + [r.id];
      } else {
        checkedIds := checkedIds + [r.id];
        var c := Classify(r, s);
        var hardFail := r.severity == Hard && c.status != Satisfied;
        findings := findings + [Finding(r.id, c.status, r.severity, hardFail, hardFail, r.ownerRole, r.scope, c.matchedPhrase)];
      }
    }
    assert requirements[..|requirements|] == requirements;
    var opening := Filter(findings, OPENS_CASE);
    report := Report(s.id, s.kind, s.dealId, s.at, findings, opening, |opening| == 0, checkedIds, skippedIds);
  }

  lemma NothingChecked(s: CheckSubject)
    ensures Map(Filter([], Checked(s)), Grade(s)) == [] && Map(Filter([], Checked(s)), ID_OF) == []
    ensures Map(Filter([], Skipped(s)), ID_OF) == []
  {
  }

  /** What one more requirement adds to a report. */
  lemma ReportStep(front: seq<Requirement>, r: Requirement, s: CheckSubject)
    ensures var all := front + [r];
      if Checked(s)(r)
      then Map(Filter(all, Checked(s)), Grade(s)) == Map(Filter(front, Checked(s)), Grade(s)) + [Grade(s)(r)]
           && Map(Filter(all, Checked(s)), ID_OF) == Map(Filter(front, Checked(s)), ID_OF) + [r.id]
           && Filter(all, Skipped(s)) == Filter(front, Skipped(s))
      else Filter(all, Checked(s)) == Filter(front, Checked(s))
           && Map(Filter(all, Skipped(s)), ID_OF) == Map(Filter(front, Skipped(s)), ID_OF) + [r.id]
  {
    hide InScope, Classify;
    FilterStep(front, r, Checked(s));
    FilterStep(front, r, Skipped(s));
  }

  datatype AgentOutput = AgentOutput(
    id: string, dealId: string, onTrack: bool, summary: string, droppedRequirements: seq<string>, artifacts: seq<string>)

  /** `agentOutputToSubject`: a status report speaks for the whole deal. */
  function AgentOutputToSubject(o: AgentOutput): CheckSubject {
    CheckSubject(o.id, OfAgentOutput, Some(o.dealId), WholeDeal, o.onTrack, o.droppedRequirements, [], [],
                 JoinSpaced([o.summary] + o.artifacts), None)
  }

  // ---------------------------------------------------------------- tokens of joined texts

  lemma {:induction false} LowerConcat(a: string, b: string)
    ensures Lower(a + b) == Lower(a) + Lower(b)
  {
    if a == "" {
      assert a + b == b;
    } else {
      assert (a + b)[1..] == a[1..] + b;
      LowerConcat(a[1..], b);
      assert (LowerChar(a[0]) + Lower(a[1..])) + Lower(b) == LowerChar(a[0]) + (Lower(a[1..]) + Lower(b));
    }
  }

  lemma {:induction false} RunLengthConcat(a: string, b: string)
    requires b == "" || !IsWordChar(b[0])
    ensures RunLength(a + b) == RunLength(a)
  {
    if a == "" {
      assert a + b == b;
    } else if IsWordChar(a[0]) {
      assert (a + b)[1..] == a[1..] + b;
      RunLengthConcat(a[1..], b);
    }
  }

  lemma RunsStep(s: string)
    requires s != ""
    ensures Runs(s) == (if IsWordChar(s[0]) then [s[..RunLength(s)]] else []) + Runs(s[Chunk(s)..])
  {
    if !IsWordChar(s[0]) { assert [] + Runs(s[1..]) == Runs(s[1..]); }
  }

  /** Where a separator follows, the runs of a text split there. */
  lemma {:induction false} RunsConcat(a: string, b: string)
    requires b == "" || !IsWordChar(b[0])
    ensures Runs(a + b) == Runs(a) + Runs(b)
    decreases |a|
  {
    if a == "" {
      assert a + b == b;
    } else {
      RunsStep(a);
      RunsStep(a + b);
      RunLengthConcat(a, b);
      hide Runs, RunLength, IsWordChar;
      var n := Chunk(a);
      SplitConcat(a, b, n);
      RunsConcat(a[n..], b);
      Associate(if IsWordChar(a[0]) then [a[..n]] else [], Runs(a[n..]), Runs(b));
    }
  }

  lemma SplitConcat(a: string, b: string, n: nat)
    requires 0 < n <= |a|
    ensures (a + b)[0] == a[0] && (a + b)[..n] == a[..n] && (a + b)[n..] == a[n..] + b
  {
  }

  /** Tokenizing a space-joined text is concatenating tokens. */
  lemma TokenizeJoined(a: string, b: string)
    ensures Tokenize(a + " " + b) == Tokenize(a) + Tokenize(b)
  {
    hide Salient;
    LowerConcat(a, " " + b);
    LowerConcat(" ", b);
    assert a + " " + b == a + (" " + b);
    assert Lower(" ") == " " by { assert " "[1..] == ""; }
    RunsConcat(Lower(a), " " + Lower(b));
    assert (" " + Lower(b))[1..] == Lower(b);
    FilterConcat(Runs(Lower(a)), Runs(Lower(b)), Salient);
  }

  lemma {:induction false} TokenizeJoin(parts: seq<string>, more: seq<string>)
    requires parts != []
    ensures Tokenize(JoinSpaced(parts + more)) == Tokenize(JoinSpaced(parts)) + (if more == [] then [] else Tokenize(JoinSpaced(more)))
  {
    hide Tokenize;
    if more == [] {
      assert parts + more == parts;
    } else if |parts| == 1 {
      assert (parts + more)[1..] == more;
      TokenizeJoined(parts[0], JoinSpaced(more));
    } else {
      assert (parts + more)[1..] == parts[1..] + more;
      TokenizeJoin(parts[1..], more);
      TokenizeJoined(parts[0], JoinSpaced(parts[1..] + more));
      TokenizeJoined(parts[0], JoinSpaced(parts[1..]));
    }
  }

  // ---------------------------------------------------------------- more text only helps

  lemma {:induction false} FilterGains<T>(xs: seq<T>, f: T -> bool, g: T -> bool)
    requires forall x | x in xs && f(x) :: g(x)
    ensures |Filter(xs, f)| <= |Filter(xs, g)|
  {
    if xs != [] { FilterGains(xs[1..], f, g); }
  }

  /** Every token of `text` is a token of `text'`. */
  ghost predicate Says(text': string, text: string) {
    forall t | t in Tokenize(text) :: t in Tokenize(text')
  }

  lemma AddressesGains(text: string, text': string, r: Requirement)
    requires Says(text', text) && TextAddresses(text, r)
    ensures TextAddresses(text', r)
  {
    hide Tokenize, TokensMatch;
    assert Tokenize(text)[0] in Tokenize(text');
    FilterGains(AddAll([], Tokenize(r.text)), FoundIn(Tokenize(text)), FoundIn(Tokenize(text')));
  }

  lemma OwnerGains(r: Requirement, s: CheckSubject, text': string)
    requires Says(text', s.text) && OwnerEvidenced(r, s)
    ensures OwnerEvidenced(r, s.(text := text'))
  {
    hide Tokenize, TokensMatch, RoleKey;
  }

  /** A satisfied requirement stays satisfied when the text comes to say more. */
  lemma SatisfiedGains(r: Requirement, s: CheckSubject, text': string)
    requires Says(text', s.text) && Classify(r, s).status == Satisfied
    ensures Classify(r, s.(text := text')).status == Satisfied
  {
    hide Tokenize, TokensMatch, RequiresOwner, OwnerEvidenced, FirstReference, TextAddresses, Says;
    if OwnerEvidenced(r, s) { OwnerGains(r, s, text'); }
    AddressesGains(s.text, text', r);
  }

  /** A report passes exactly when every active hard requirement in scope is satisfied. */
  lemma PassedIff(requirements: seq<Requirement>, s: CheckSubject)
    ensures ReportOn(requirements, s).passed <==>
      forall r | r in requirements && r.status == Active && InScope(r, s) && r.severity == Hard :: Classify(r, s).status == Satisfied
  {
    hide InScope, Classify;
    var checked := Filter(requirements, Checked(s));
    var findings := Map(checked, Grade(s));
    FilterMembers(requirements, Checked(s));
    FilterMembers(findings, OPENS_CASE);
    var opening := Filter(findings, OPENS_CASE);
    if opening == [] {
      forall r | r in requirements && r.status == Active && InScope(r, s) && r.severity == Hard
        ensures Classify(r, s).status == Satisfied
      {
        assert r in checked;
        var i :| 0 <= i < |checked| && checked[i] == r;
        assert findings[i] in findings && findings[i] !in opening;
      }
    } else {
      assert opening[0] in findings;
      var i :| 0 <= i < |findings| && findings[i] == opening[0];
      assert checked[i] in checked && OPENS_CASE(findings[i]);
    }
  }

  /** Nothing a subject additionally says turns a passing report into a failing one. */
  lemma PassingGains(requirements: seq<Requirement>, s: CheckSubject, text': string)
    requires Says(text', s.text) && ReportOn(requirements, s).passed
    ensures ReportOn(requirements, s.(text := text')).passed
  {
    var s' := s.(text := text');
    PassedIff(requirements, s);
    PassedIff(requirements, s');
    hide ReportOn, Classify, Says;
    forall r | r in requirements && r.status == Active && InScope(r, s') && r.severity == Hard
      ensures Classify(r, s').status == Satisfied
    {
      assert InScope(r, s);
      SatisfiedGains(r, s, text');
    }
  }

  /** Appending artifacts to an agent's output keeps what was satisfied, and keeps a passing report passing. */
  lemma ArtifactsOnlyHelp(requirements: seq<Requirement>, o: AgentOutput, more: seq<string>)
    ensures var s, s' := AgentOutputToSubject(o), AgentOutputToSubject(o.(artifacts := o.artifacts + more));
      && (forall r :: Classify(r, s).status == Satisfied ==> Classify(r, s').status == Satisfied)
      && (ReportOn(requirements, s).passed ==> ReportOn(requirements, s').passed)
  {
    var s, s' := AgentOutputToSubject(o), AgentOutputToSubject(o.(artifacts := o.artifacts + more));
    assert [o.summary] + (o.artifacts + more) == ([o.summary] + o.artifacts) + more;
    TokenizeJoin([o.summary] + o.artifacts, more);
    assert Says(s'.text, s.text) by { hide Tokenize, JoinSpaced; }
    assert s' == s.(text := s'.text);
    hide Says, Classify, ReportOn, AgentOutputToSubject;
    forall r | Classify(r, s).status == Satisfied ensures Classify(r, s').status == Satisfied {
      SatisfiedGains(r, s, s'.text);
    }
    if ReportOn(requirements, s).passed { PassingGains(requirements, s, s'.text); }
  }

  lemma {:induction false} TokenOfJoined(parts: seq<string>, t: string)
    requires parts != []
    ensures t in Tokenize(JoinSpaced(parts)) <==> exists p | p in parts :: t in Tokenize(p)
  {
    hide Tokenize;
    if |parts| > 1 {
      TokenOfJoined(parts[1..], t);
      TokenizeJoined(parts[0], JoinSpaced(parts[1..]));
      assert parts == [parts[0]] + parts[1..];
    }
  }

  /** Texts that say the same are classified alike. */
  lemma ClassifyAlike(r: Requirement, s: CheckSubject, text': string)
    requires Says(text', s.text) && Says(s.text, text')
    ensures Classify(r, s.(text := text')) == Classify(r, s)
  {
    hide Tokenize, TokensMatch, RequiresOwner, OwnerEvidenced, FirstReference, TextAddresses, Says;
    var s' := s.(text := text');
    assert s == s'.(text := s.text);
    if OwnerEvidenced(r, s) { OwnerGains(r, s, text'); }
    if OwnerEvidenced(r, s') { OwnerGains(r, s', s.text); }
    if TextAddresses(s.text, r) { AddressesGains(s.text, text', r); }
    if TextAddresses(text', r) { AddressesGains(text', s.text, r); }
  }

  lemma ReportAlike(requirements: seq<Requirement>, s: CheckSubject, text': string)
    requires Says(text', s.text) && Says(s.text, text')
    ensures ReportOn(requirements, s.(text := text')) == ReportOn(requirements, s)
  {
    hide Says, Classify, Filter;
    var s' := s.(text := text');
    forall r ensures InScope(r, s') == InScope(r, s) { }
    hide InScope;
    FilterAlike(requirements, Checked(s), Checked(s'));
    FilterAlike(requirements, Skipped(s), Skipped(s'));
    forall r ensures Grade(s')(r) == Grade(s)(r) { ClassifyAlike(r, s, text'); }
    var checked := Filter(requirements, Checked(s));
    assert Map(checked, Grade(s')) == Map(checked, Grade(s)) by { hide Grade; }
  }

  /** Neither the order of the artifacts nor how often one occurs shows in a classification or a report. */
  lemma ArtifactOrderIrrelevant(requirements: seq<Requirement>, o: AgentOutput, artifacts: seq<string>)
    requires forall a :: a in artifacts <==> a in o.artifacts
    ensures var s, s' := AgentOutputToSubject(o), AgentOutputToSubject(o.(artifacts := artifacts));
      && (forall r :: Classify(r, s') == Classify(r, s))
      && ReportOn(requirements, s') == ReportOn(requirements, s)
  {
    var s, s' := AgentOutputToSubject(o), AgentOutputToSubject(o.(artifacts := artifacts));
    SameParts([o.summary] + artifacts, [o.summary] + o.artifacts);
    SameParts([o.summary] + o.artifacts, [o.summary] + artifacts);
    assert s' == s.(text := s'.text);
    hide Says, Classify, ReportOn, AgentOutputToSubject;
    forall r ensures Classify(r, s') == Classify(r, s) { ClassifyAlike(r, s, s'.text); }
    ReportAlike(requirements, s, s'.text);
  }

  lemma SameParts(parts': seq<string>, parts: seq<string>)
    requires parts != [] && parts' != [] && forall p | p in parts :: p in parts'
    ensures Says(JoinSpaced(parts'), JoinSpaced(parts))
  {
    hide Tokenize, JoinSpaced;
    forall t | t in Tokenize(JoinSpaced(parts)) ensures t in Tokenize(JoinSpaced(parts')) {
      TokenOfJoined(parts, t);
      TokenOfJoined(parts', t);
    }
  }
}
