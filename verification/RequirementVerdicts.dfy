/**
 What a finding says (packages/governance/src/active-requirement-checker.ts): each status by what the
 subject says and does not say, in the order of precedence of the classification; and what
 a reported drop comes to.
 */
module RequirementVerdicts {
  import opened Prelude
  import opened Sorting
  import opened KeyedStores
  import opened MatchReplace
  import opened RequirementStores
  import opened RequirementChecks
  import opened CaseOpenings
  import opened CheckedCases

  // ---------------------------------------------------------------- tokens

  /** Equal, or alike in their first five characters, or one of at least four characters in front of the other. */
  ghost predicate Alike(a: string, b: string) {
    || a == b
    || (exists p :: |p| == 5 && p <= a && p <= b)
    || (|a| >= 4 && a <= b) || (|b| >= 4 && b <= a)
  }

  lemma AlikeIff(a: string, b: string)
    ensures TokensMatch(a, b) <==> Alike(a, b)
  {
    if Shares(a, b, 5) { assert |a[..5]| == 5 && a[..5] <= a && a[..5] <= b; }
    if p :| |p| == 5 && p <= a && p <= b { assert a[..5] == p == b[..5]; }
  }

  ghost predicate IsFound(t: string, tokens: seq<string>) { exists u | u in tokens :: Alike(t, u) }

  lemma FoundIff(t: string, tokens: seq<string>)
    ensures FoundIn(tokens)(t) <==> IsFound(t, tokens)
  {
    hide TokensMatch, Alike;
    forall u ensures TokensMatch(t, u) <==> Alike(t, u) { AlikeIff(t, u); }
  }

  /** A token of the requirement's statement, of one of its surfaces, or of its owning role. */
  ghost predicate Grounds(r: Requirement, u: string) {
    u in Tokenize(r.text) || u in Tokenize(r.ownerRole) || exists surface | surface in r.scope :: u in Tokenize(surface)
  }

  lemma GroundTokens(r: Requirement, u: string)
    ensures u in RequirementTokens(r) <==> Grounds(r, u)
  {
    NoTokens();
    hide Tokenize, JoinSpaced;
    assert r.text + " " + JoinSpaced(r.scope) + " " + r.ownerRole == (r.text + " " + JoinSpaced(r.scope)) + " " + r.ownerRole;
    TokenizeJoined(r.text + " " + JoinSpaced(r.scope), r.ownerRole);
    TokenizeJoined(r.text, JoinSpaced(r.scope));
    if r.scope != [] { TokenOfJoined(r.scope, u); }
  }

  lemma NoTokens()
    ensures Tokenize(JoinSpaced([])) == []
  {
  }

  /** `t` is a longest stretch of word characters of `s`. */
  ghost predicate IsWord(s: string, t: string) { exists i: nat, j: nat :: MaximalRun(s, i, j) && s[i..j] == t }

  lemma RunIsWord(s: string, t: string)
    ensures t in Runs(s) <==> IsWord(s, t)
  {
    var at := RunsInOrder(s);
    hide Runs;
    if t in Runs(s) {
      var k :| 0 <= k < |Runs(s)| && Runs(s)[k] == t;
      assert MaximalRun(s, at[k].from, at[k].to) && s[at[k].from..at[k].to] == t;
    }
    if IsWord(s, t) {
      var i: nat, j: nat :| MaximalRun(s, i, j) && s[i..j] == t;
      var k :| 0 <= k < |at| && at[k] == Span(i, j);
      assert Runs(s)[k] == t;
    }
  }

  /** A token is a longest stretch of word characters of the text in lower case, of two or more, that is no stopword. */
  lemma TokenIff(text: string, t: string)
    ensures t in Tokenize(text) <==> |t| >= 2 && t !in STOPWORDS && IsWord(Lower(text), t)
  {
    RunIsWord(Lower(text), t);
    FilterMembers(Runs(Lower(text)), Salient);
    hide Runs, Lower, IsWord;
  }

  // ---------------------------------------------------------------- phrases

  /** The phrase has tokens, and each is found among those of the requirement. */
  ghost predicate References(phrase: string, r: Requirement) {
    Tokenize(phrase) != [] && forall t | t in Tokenize(phrase) :: exists u | Grounds(r, u) :: Alike(t, u)
  }

  lemma ReferencesIff(phrase: string, r: Requirement)
    ensures PhraseReferences(phrase, r) <==> References(phrase, r)
  {
    hide Tokenize, Alike, Grounds, RequirementTokens;
    forall t ensures FoundIn(RequirementTokens(r))(t) <==> exists u | Grounds(r, u) :: Alike(t, u) {
      FoundIff(t, RequirementTokens(r));
      forall u ensures u in RequirementTokens(r) <==> Grounds(r, u) { GroundTokens(r, u); }
    }
  }

  ghost predicate Mentions(phrases: seq<string>, r: Requirement) { exists p | p in phrases :: References(p, r) }

  /** The first of the phrases that references the requirement. */
  ghost predicate IsFirstMention(phrases: seq<string>, r: Requirement, phrase: string) {
    exists i | 0 <= i < |phrases| ::
      phrases[i] == phrase && References(phrase, r) && forall j | 0 <= j < i :: !References(phrases[j], r)
  }

  lemma {:induction false} FirstMention(phrases: seq<string>, r: Requirement)
    ensures FirstReference(phrases, r).Some? <==> Mentions(phrases, r)
    ensures FirstReference(phrases, r).Some? ==> IsFirstMention(phrases, r, FirstReference(phrases, r).value)
  {
    hide References, PhraseReferences;
    if phrases != [] {
      ReferencesIff(phrases[0], r);
      FirstMention(phrases[1..], r);
      assert phrases == [phrases[0]] + phrases[1..] && phrases[0] in phrases;
      if !PhraseReferences(phrases[0], r) && FirstReference(phrases, r).Some? {
        var phrase := FirstReference(phrases, r).value;
        var i :| 0 <= i < |phrases[1..]| && phrases[1..][i] == phrase && References(phrase, r)
                 && forall j | 0 <= j < i :: !References(phrases[1..][j], r);
        assert phrases[i + 1] == phrase;
        forall j | 0 <= j < i + 1 ensures !References(phrases[j], r) {
          if j > 0 { assert phrases[j] == phrases[1..][j - 1]; }
        }
      }
    }
  }

  // ---------------------------------------------------------------- addressed

  ghost function Tokens(text: string): set<string> { set t | t in Tokenize(text) }

  /** At least three fifths of the tokens of the statement are found in the text. */
  ghost predicate Addressed(text: string, r: Requirement) {
    var found := set t | t in Tokens(r.text) && IsFound(t, Tokenize(text));
    Tokens(text) != {} && Tokens(r.text) != {} && 5 * |found| >= 3 * |Tokens(r.text)|
  }

  ghost function Kept<T>(xs: seq<T>, keep: T -> bool): set<T> { set x | x in xs && keep(x) }

  /** In a list without repetitions the elements kept are as many as their set. */
  lemma {:induction false} KeptCount<T>(xs: seq<T>, keep: T -> bool)
    requires forall i, j | 0 <= i < j < |xs| :: xs[i] != xs[j]
    ensures |Filter(xs, keep)| == |Kept(xs, keep)|
  {
    var kept := Kept(xs, keep);
    if xs == [] {
      assert kept == {};
    } else {
      var rest := Kept(xs[1..], keep);
      KeptCount(xs[1..], keep);
      assert xs == [xs[0]] + xs[1..];
      assert xs[0] !in xs[1..];
      assert kept == if keep(xs[0]) then {xs[0]} + rest else rest;
    }
  }

  lemma {:induction false} DistinctSize<T>(xs: seq<T>)
    requires forall i, j | 0 <= i < j < |xs| :: xs[i] != xs[j]
    ensures |xs| == |set x | x in xs|
  {
    var all := set x | x in xs;
    if xs == [] {
      assert all == {};
    } else {
      DistinctSize(xs[1..]);
      assert xs == [xs[0]] + xs[1..] && xs[0] !in xs[1..];
      assert all == {xs[0]} + set x | x in xs[1..];
    }
  }

  lemma CountFound(words: seq<string>, tokens: seq<string>)
    ensures var statement := AddAll([], words);
      && |statement| == |set t | t in words| && (statement == [] <==> words == [])
      && |Filter(statement, FoundIn(tokens))| == |set t | t in words && IsFound(t, tokens)|
  {
    hide Alike, IsFound, FoundIn;
    var statement := AddAll([], words);
    ListedOnce(words);
    DistinctSize(statement);
    KeptCount(statement, FoundIn(tokens));
    hide AddAll, Filter;
    forall t ensures FoundIn(tokens)(t) <==> IsFound(t, tokens) { FoundIff(t, tokens); }
    assert (set t | t in statement) == set t | t in words;
    assert Kept(statement, FoundIn(tokens)) == set t | t in words && IsFound(t, tokens);
    if words != [] { assert words[0] in statement; }
    if statement != [] { assert statement[0] in words; }
  }

  lemma AddressedIff(text: string, r: Requirement)
    ensures TextAddresses(text, r) <==> Addressed(text, r)
  {
    hide Tokenize, IsFound, FoundIn, AddAll, Filter;
    var words, tokens := Tokenize(r.text), Tokenize(text);
    CountFound(words, tokens);
    assert (set t | t in words && IsFound(t, tokens)) == set t | t in Tokens(r.text) && IsFound(t, tokens);
    if tokens != [] { assert tokens[0] in Tokens(text); }
    if words != [] { assert words[0] in Tokens(r.text); }
  }

  // ---------------------------------------------------------------- owners

  /** Some surface of the requirement speaks of owners or workstreams. */
  ghost predicate NeedsOwner(r: Requirement) {
    exists surface, t, o | surface in r.scope && t in Tokenize(surface) && o in OWNER_SURFACE_TOKENS :: Alike(t, o)
  }

  lemma NeedsOwnerIff(r: Requirement)
    ensures RequiresOwner(r) <==> NeedsOwner(r)
  {
    NoTokens();
    hide Tokenize, JoinSpaced, Alike, TokensMatch;
    forall t ensures t in Tokenize(JoinSpaced(r.scope)) <==> exists surface | surface in r.scope :: t in Tokenize(surface) {
      if r.scope != [] { TokenOfJoined(r.scope, t); }
    }
    forall t ensures FoundIn(OWNER_SURFACE_TOKENS)(t) <==> IsFound(t, OWNER_SURFACE_TOKENS) { FoundIff(t, OWNER_SURFACE_TOKENS); }
    if t :| t in Tokenize(JoinSpaced(r.scope)) && FoundIn(OWNER_SURFACE_TOKENS)(t) {
      var o :| o in OWNER_SURFACE_TOKENS && Alike(t, o);
    }
    if surface, t, o :| surface in r.scope && t in Tokenize(surface) && o in OWNER_SURFACE_TOKENS && Alike(t, o) {
      assert IsFound(t, OWNER_SURFACE_TOKENS);
    }
  }

  /** The owner is asserted, up to case and outer blanks, or all tokens of the role are found in the text. */
  ghost predicate OwnerShown(r: Requirement, s: CheckSubject) {
    || (exists role | role in s.assertedOwnerRoles :: RoleKey(role) == RoleKey(r.ownerRole))
    || (Tokenize(r.ownerRole) != [] && forall t | t in Tokenize(r.ownerRole) :: IsFound(t, Tokenize(s.text)))
  }

  lemma OwnerShownIff(r: Requirement, s: CheckSubject)
    ensures OwnerEvidenced(r, s) <==> OwnerShown(r, s)
  {
    hide Tokenize, RoleKey, IsFound;
    forall t ensures FoundIn(Tokenize(s.text))(t) <==> IsFound(t, Tokenize(s.text)) { FoundIff(t, Tokenize(s.text)); }
  }

  lemma {:induction false} StartTrims(front: string, s: string)
    requires forall c | c in front :: IsSpace(c)
    ensures TrimStart(front + s) == TrimStart(s)
  {
    if front != "" {
      assert front[0] in front && (front + s)[1..] == front[1..] + s;
      StartTrims(front[1..], s);
    } else {
      assert front + s == s;
    }
  }

  lemma {:induction false} EndTrims(s: string, back: string)
    requires forall c | c in back :: IsSpace(c)
    ensures TrimEnd(s + back) == TrimEnd(s)
  {
    if back != "" {
      var n := |back| - 1;
      assert back[n] in back && (s + back)[..|s| + n] == s + back[..n];
      EndTrims(s, back[..n]);
    } else {
      assert s + back == s;
    }
  }

  lemma {:induction false} StartKeepsBack(s: string, back: string)
    requires forall c | c in back :: IsSpace(c)
    ensures TrimStart(s + back) == TrimStart(s) + back || (TrimStart(s) == "" && TrimStart(s + back) == "")
  {
    if s == "" {
      StartTrims(back, "");
      assert back + "" == back == s + back;
    } else if IsSpace(s[0]) {
      assert (s + back)[1..] == s[1..] + back;
      StartKeepsBack(s[1..], back);
    }
  }

  /** Blanks around an owner role do not matter. */
  lemma OuterBlanksDoNotMatter(front: string, role: string, back: string)
    requires forall c | c in front + back :: IsSpace(c)
    ensures RoleKey(front + role + back) == RoleKey(role)
  {
    assert front + role + back == front + (role + back);
    assert forall c | c in front :: c in front + back;
    assert forall c | c in back :: c in front + back;
    StartTrims(front, role + back);
    StartKeepsBack(role, back);
    EndTrims(TrimStart(role), back);
  }

  // ---------------------------------------------------------------- scope

  /** The subject speaks for the whole deal, or a surface of the requirement shares a token with one of the subject. */
  ghost predicate Touches(r: Requirement, s: CheckSubject) {
    s.surfaces.Only? ==>
      exists scope, name, t, u | scope in r.scope && name in s.surfaces.names && t in Tokenize(scope) && u in Tokenize(name) ::
        Alike(t, u)
  }

  lemma InScopeIff(r: Requirement, s: CheckSubject)
    ensures InScope(r, s) <==> Touches(r, s)
  {
    hide Tokenize, Alike, TokensMatch;
    forall t, u ensures TokensMatch(t, u) <==> Alike(t, u) { AlikeIff(t, u); }
  }

  // ---------------------------------------------------------------- statuses

  /**
   The status of a requirement by what the subject says: a reported violation comes first, then a
   reported drop, then an owner that is needed and not shown, then whether the text speaks to the
   statement; what is dropped or passed over is missing, or an unsupported claim to be on track.
   */
  lemma StatusIff(r: Requirement, s: CheckSubject)
    ensures var status := Classify(r, s).status;
      var violated, dropped := Mentions(s.violatedRequirements, r), Mentions(s.droppedRequirements, r);
      var owned := NeedsOwner(r) ==> OwnerShown(r, s);
      && (status == Contradicted <==> violated)
      && (status == MissingOwnerOrWorkstream <==> !violated && !dropped && !owned)
      && (status == Satisfied <==> !violated && !dropped && owned && Addressed(s.text, r))
      && (status == UnsupportedOnTrackClaim <==>
            s.claimsOnTrack && !violated && (dropped || (owned && !Addressed(s.text, r))))
      && (status == Missing <==> !s.claimsOnTrack && !violated && (dropped || (owned && !Addressed(s.text, r))))
  {
    FirstMention(s.violatedRequirements, r);
    FirstMention(s.droppedRequirements, r);
    NeedsOwnerIff(r);
    OwnerShownIff(r, s);
    AddressedIff(s.text, r);
    hide FirstReference, RequiresOwner, OwnerEvidenced, TextAddresses, Mentions, NeedsOwner, OwnerShown, Addressed,
         IsFirstMention;
  }

  /** The phrase a finding cites is the first that reports the violation, or else the drop. */
  lemma CitedPhrase(r: Requirement, s: CheckSubject)
    ensures var phrase := Classify(r, s).matchedPhrase;
      && (phrase.Some? <==> Mentions(s.violatedRequirements, r) || Mentions(s.droppedRequirements, r))
      && (phrase.Some? ==>
            if Mentions(s.violatedRequirements, r) then IsFirstMention(s.violatedRequirements, r, phrase.value)
            else IsFirstMention(s.droppedRequirements, r, phrase.value))
  {
    FirstMention(s.violatedRequirements, r);
    FirstMention(s.droppedRequirements, r);
    hide FirstReference, RequiresOwner, OwnerEvidenced, TextAddresses, Mentions, IsFirstMention;
  }

  // ---------------------------------------------------------------- reports

  /** The finding is about the requirement, and opens a case exactly if that is hard and not satisfied. */
  predicate FindingOn(f: Finding, r: Requirement, s: CheckSubject) {
    && f.requirementId == r.id && f.severity == r.severity && f.ownerRole == r.ownerRole && f.scope == r.scope
    && f.status == Classify(r, s).status && f.matchedPhrase == Classify(r, s).matchedPhrase
    && (f.hardFail <==> r.severity == Hard && f.status != Satisfied) && (f.caseOpening <==> f.hardFail)
  }

  /**
   The findings of a report are, in the order of the list, those on the active requirements in scope; the
   ids of these are checked and all others skipped; the findings that open cases are picked out in order.
   */
  lemma ReportLists(requirements: seq<Requirement>, s: CheckSubject) returns (checked: seq<Requirement>)
    ensures Selects(checked, requirements, (r: Requirement) => r.status == Active && InScope(r, s))
    ensures var report := ReportOn(requirements, s);
      && |report.findings| == |checked| == |report.checkedRequirementIds|
      && (forall i | 0 <= i < |checked| ::
            FindingOn(report.findings[i], checked[i], s) && report.checkedRequirementIds[i] == checked[i].id)
      && Selects(report.caseOpeningFindings, report.findings, (f: Finding) => f.caseOpening)
      && (report.passed <==> report.caseOpeningFindings == [])
      && |report.skippedRequirementIds| + |checked| == |requirements|
      && (forall r | r in requirements && !(r.status == Active && InScope(r, s)) :: r.id in report.skippedRequirementIds)
  {
    hide InScope, Classify, Selects;
    var inScope := (r: Requirement) => r.status == Active && InScope(r, s);
    checked := Filter(requirements, Checked(s));
    FilterAlike(requirements, inScope, Checked(s));
    FilterSelects(requirements, inScope);
    SkippedIds(requirements, s);
    var findings := ReportOn(requirements, s).findings;
    FilterAlike(findings, (f: Finding) => f.caseOpening, OPENS_CASE);
    FilterSelects(findings, (f: Finding) => f.caseOpening);
    hide Filter, Skipped;
  }

  lemma SkippedIds(requirements: seq<Requirement>, s: CheckSubject)
    ensures var ids := Map(Filter(requirements, Skipped(s)), ID_OF);
      && |ids| + |Filter(requirements, Checked(s))| == |requirements|
      && (forall r | r in requirements && !(r.status == Active && InScope(r, s)) :: r.id in ids)
  {
    hide InScope;
    SplitCount(requirements, Checked(s), Skipped(s));
    FilterMembers(requirements, Skipped(s));
    hide Filter;
    var skipped := Filter(requirements, Skipped(s));
    forall r | r in requirements && !(r.status == Active && InScope(r, s)) ensures r.id in Map(skipped, ID_OF) {
      var i :| 0 <= i < |skipped| && skipped[i] == r;
      assert Map(skipped, ID_OF)[i] == r.id;
    }
  }

  lemma {:induction false} SplitCount<T>(xs: seq<T>, f: T -> bool, g: T -> bool)
    requires forall x | x in xs :: f(x) != g(x)
    ensures |Filter(xs, f)| + |Filter(xs, g)| == |xs|
  {
    if xs != [] { SplitCount(xs[1..], f, g); }
  }

  // ---------------------------------------------------------------- reported drops

  /** An agent's output speaks for the whole deal, by its summary and its artifacts. */
  lemma OutputSpeaks(o: AgentOutput, t: string)
    ensures var s := AgentOutputToSubject(o);
      && s.id == o.id && s.dealId == Some(o.dealId) && s.surfaces == WholeDeal && s.claimsOnTrack == o.onTrack
      && s.droppedRequirements == o.droppedRequirements && s.violatedRequirements == [] && s.assertedOwnerRoles == []
      && (t in Tokenize(s.text) <==> t in Tokenize(o.summary) || exists a | a in o.artifacts :: t in Tokenize(a))
  {
    hide Tokenize, JoinSpaced;
    var parts := [o.summary] + o.artifacts;
    TokenOfJoined(parts, t);
    assert parts[0] == o.summary && forall p :: p in parts <==> p == o.summary || p in o.artifacts;
  }

  lemma NothingMentioned(r: Requirement)
    ensures !Mentions([], r)
  {
  }

  /** An agent that reports to have dropped an active hard requirement violates it, and its report fails. */
  lemma DropViolates(requirements: seq<Requirement>, o: AgentOutput, r: Requirement)
    requires r in requirements && r.status == Active && r.severity == Hard && Mentions(o.droppedRequirements, r)
    ensures var s := AgentOutputToSubject(o);
      && Classify(r, s).status == (if o.onTrack then UnsupportedOnTrackClaim else Missing)
      && Violated(r, s) && !ReportOn(requirements, s).passed
  {
    var s := AgentOutputToSubject(o);
    StatusIff(r, s);
    NothingMentioned(r);
    PassedIff(requirements, s);
    assert InScope(r, s);
    hide Classify, ReportOn, Mentions, NeedsOwner, OwnerShown, Addressed, JoinSpaced;
  }

  /** And where no two requirements share an id, there is a live case for it afterwards. */
  lemma DropOpensCase(job: Job, s: OpenState, o: AgentOutput, r: Requirement)
    requires FreshIds(job.src, s) && Distinct(REQUIREMENTS, job.requirements)
    requires r in job.requirements && r.status == Active && r.severity == Hard && Mentions(o.droppedRequirements, r)
    ensures var (opening, s') := OpenAll(job, s, ReportOn(job.requirements, AgentOutputToSubject(o)).caseOpeningFindings);
      opening.Ok? && IsLiveIn(s'.cases, Citation(r.dealId, r.text))
  {
    var subject := AgentOutputToSubject(o);
    DropViolates(job.requirements, o, r);
    DistinctIdsAttribute(job, s.cases, subject);
    CheckedCasesOpen(job, s, subject);
    hide FreshIds, Violated, ReportOn, OpenAll, IsLiveIn, Charged, Justified, WellAttributed, Mentions, AgentOutputToSubject;
  }
}
