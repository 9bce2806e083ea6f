/**
 Governance cases and their canonical payload (packages/contracts/src/governance-case.contract.ts),
 and the parse of a case from a JSON snapshot. The payload determines the case.
 */
module GovernanceCases {
  import opened Prelude
  import opened Text
  import opened CanonicalJson
  import opened JsonRoundTrip
  import opened Fips180
  import opened AuditEvents
  import opened JsonRecords

  datatype CaseStatus = OpenCase | Corrected | Enforced | Dismissed | Reopened | Closed

  datatype CaseSeverity = Blocking | High | Medium | Low

  datatype GovernanceCase = GovernanceCase(
    id: string, dealId: string, missedRequirement: string, category: string, severity: CaseSeverity, status: CaseStatus,
    detectedAt: string, businessImpact: Option<string>, missingFrom: Option<seq<string>>, evidenceIds: Option<seq<string>>,
    recommendedActions: Option<seq<string>>)

  /** `governanceCaseContract` accepts the case. */
  predicate ValidCase(c: GovernanceCase) {
    && c.id != "" && c.dealId != "" && c.missedRequirement != "" && c.category != "" && IsTimestamp(c.detectedAt)
    && c.businessImpact != Some("") && ValidIds(c.missingFrom) && ValidIds(c.evidenceIds) && ValidIds(c.recommendedActions)
  }

  function CaseStatusText(s: CaseStatus): string {
    match s
    case OpenCase => "open" case Corrected => "corrected" case Enforced => "enforced"
    case Dismissed => "dismissed" case Reopened => "reopened" case Closed => "closed"
  }

  function SeverityText(s: CaseSeverity): string {
    match s case Blocking => "blocking" case High => "high" case Medium => "medium" case Low => "low"
  }

  function ParseCaseStatus(s: string): Option<CaseStatus> {
    if s == "open" then Some(OpenCase) else if s == "corrected" then Some(Corrected) else if s == "enforced" then Some(Enforced)
    else if s == "dismissed" then Some(Dismissed) else if s == "reopened" then Some(Reopened)
    else if s == "closed" then Some(Closed) else None
  }

  function ParseSeverity(s: string): Option<CaseSeverity> {
    if s == "blocking" then Some(Blocking) else if s == "high" then Some(High)
    else if s == "medium" then Some(Medium) else if s == "low" then Some(Low) else None
  }

  lemma CaseTextsParse(s: CaseStatus, v: CaseSeverity)
    ensures ParseCaseStatus(CaseStatusText(s)) == Some(s) && ParseSeverity(SeverityText(v)) == Some(v)
  {
  }

  // ---------------------------------------------------------------- the canonical payload

  const CASE_KEYS: seq<string> := [
    "schema", "id", "deal_id", "missed_requirement", "category", "severity", "status", "detected_at", "business_impact",
    "missing_from", "evidence_ids", "recommended_actions"]

  function CaseValues(c: GovernanceCase): (vs: seq<Option<Json>>)
    ensures |vs| == 12
  {
    [Some(Str("liminal_engine.governance_case.v1")), Some(Str(c.id)), Some(Str(c.dealId)), Some(Str(c.missedRequirement)),
     Some(Str(c.category)), Some(Str(SeverityText(c.severity))), Some(Str(CaseStatusText(c.status))), Some(Str(c.detectedAt)),
     OptionalText(c.businessImpact), OptionalArray(c.missingFrom), OptionalArray(c.evidenceIds), OptionalArray(c.recommendedActions)]
  }

  /** The canonical projection of a case. */
  function CaseProperties(c: GovernanceCase): (ps: seq<Property>)
    ensures |ps| == 12 && forall i | 0 <= i < 12 :: ps[i] == Property(CASE_KEYS[i], CaseValues(c)[i])
  {
    seq(12, i requires 0 <= i < 12 => Property(CASE_KEYS[i], CaseValues(c)[i]))
  }

  function CanonicalCase(c: GovernanceCase): Json { Obj(Record(CaseProperties(c))) }

  function CasePayload(c: GovernanceCase): seq<byte> { Utf8(Stringify(CanonicalCase(c))) }

  /** `governanceCaseContract.hash` */
  function CaseHash(c: GovernanceCase): string { CanonicalHash(CanonicalCase(c)) }

  /** Two different cases whose payloads have the same digest. */
  ghost predicate CaseCollision(a: GovernanceCase, b: GovernanceCase) {
    CasePayload(a) != CasePayload(b) && Digest(CasePayload(a)) == Digest(CasePayload(b))
  }

  // ---------------------------------------------------------------- the payload determines the case

  /** Length, first and last letter tell the twelve keys apart. */
  function Mark(key: string): int
    requires key != ""
  {
    1000 * |key| + key[0] as int + key[|key| - 1] as int
  }

  const KEY_MARKS: seq<int> := [6212, 2205, 7200, 18225, 8220, 8236, 6230, 11216, 15214, 12218, 12216, 19229]

  lemma KeyMarks(i: nat)
    requires i < 12
    ensures CASE_KEYS[i] != "" && Mark(CASE_KEYS[i]) == KEY_MARKS[i]
  {
  }

  lemma CaseKeysDistinct(c: GovernanceCase)
    ensures DistinctProperties(CaseProperties(c))
  {
    hide CaseValues, Mark;
    forall i, j | 0 <= i < j < 12 ensures CASE_KEYS[i] != CASE_KEYS[j] {
      KeyMarks(i);
      KeyMarks(j);
    }
  }

  lemma {:induction false} RecordDistinct(ps: seq<Property>)
    requires DistinctProperties(ps)
    ensures DistinctKeys(Record(ps))
    ensures forall m | m in Record(ps) :: exists i | 0 <= i < |ps| :: ps[i] == Property(m.key, Some(m.val))
  {
    if ps != [] {
      RecordDistinct(ps[1..]);
      var rest := Record(ps[1..]);
      forall m | m in rest ensures m.key != ps[0].key && exists i | 0 <= i < |ps| :: ps[i] == Property(m.key, Some(m.val)) {
        var i :| 0 <= i < |ps[1..]| && ps[1..][i] == Property(m.key, Some(m.val));
        assert ps[i + 1] == ps[1..][i];
      }
      if ps[0].val.Some? {
        assert Record(ps) == [Member(ps[0].key, ps[0].val.value)] + rest;
      } else {
        assert Record(ps) == rest;
      }
    }
  }

  lemma {:induction false} GetIndex(ms: seq<Member>, key: string) returns (k: nat)
    requires Get(ms, key).Some?
    ensures k < |ms| && ms[k] == Member(key, Get(ms, key).value)
  {
    if ms[0].key == key {
      k := 0;
    } else {
      k := GetIndex(ms[1..], key);
      k := k + 1;
    }
  }

  /** Where two records print alike, their properties agree. */
  lemma SameProperty(ps: seq<Property>, qs: seq<Property>, i: nat)
    requires DistinctProperties(ps) && DistinctProperties(qs) && i < |ps| && i < |qs| && ps[i].key == qs[i].key
    requires Same(Obj(Record(ps)), Obj(Record(qs))) && ps[i].val.Some?
    ensures qs[i].val.Some? && Same(ps[i].val.value, qs[i].val.value)
  {
    hide Record, Get;
    RecordAt(ps, i);
    var k := GetIndex(Record(ps), ps[i].key);
    var n := SameMember(Record(ps), Record(qs), k);
    RecordDistinct(qs);
    assert Record(qs)[n] in Record(qs);
    var j :| 0 <= j < |qs| && qs[j] == Property(Record(qs)[n].key, Some(Record(qs)[n].val));
    assert j == i;
  }

  lemma CaseWellFormed(c: GovernanceCase)
    ensures WellFormed(CanonicalCase(c))
  {
    CaseKeysDistinct(c);
    RecordDistinct(CaseProperties(c));
    hide Record, CaseStatusText, SeverityText;
    var ps := CaseProperties(c);
    forall m | m in Record(ps) ensures WellFormed(m.val) {
      var i :| 0 <= i < 12 && ps[i] == Property(m.key, Some(m.val));
      assert CaseValues(c)[i] == Some(m.val);
    }
  }

  lemma SameCaseValue(a: GovernanceCase, b: GovernanceCase, i: nat)
    requires CasePayload(a) == CasePayload(b) && i < 12
    ensures SameOption(CaseValues(a)[i], CaseValues(b)[i])
  {
    CaseWellFormed(a);
    CaseWellFormed(b);
    CaseKeysDistinct(a);
    CaseKeysDistinct(b);
    hide Record, WellFormed, Stringify, CaseValues, Same, DistinctProperties;
    Utf8Injective(Stringify(CanonicalCase(a)), Stringify(CanonicalCase(b)));
    StringifyDecidesSame(CanonicalCase(a), CanonicalCase(b));
    StringifyDecidesSame(CanonicalCase(b), CanonicalCase(a));
    if CaseValues(a)[i].Some? { SameProperty(CaseProperties(a), CaseProperties(b), i); }
    if CaseValues(b)[i].Some? { SameProperty(CaseProperties(b), CaseProperties(a), i); }
  }

  /** The payload loses nothing. */
  lemma CasePayloadDeterminesCase(a: GovernanceCase, b: GovernanceCase)
    requires CasePayload(a) == CasePayload(b)
    ensures a == b
  {
    hide CasePayload;
    forall i: nat | i < 12 ensures SameOption(CaseValues(a)[i], CaseValues(b)[i]) {
      SameCaseValue(a, b, i);
    }
    hide OptionalArray;
    EqualCaseTexts(a, b);
    EqualCaseLists(a, b);
    CaseTextsParse(a.status, a.severity);
    CaseTextsParse(b.status, b.severity);
    hide CaseValues;
  }

  lemma EqualCaseTexts(a: GovernanceCase, b: GovernanceCase)
    requires forall i: nat | i < 12 :: SameOption(CaseValues(a)[i], CaseValues(b)[i])
    ensures a.id == b.id && a.dealId == b.dealId && a.missedRequirement == b.missedRequirement && a.category == b.category
    ensures a.detectedAt == b.detectedAt && a.businessImpact == b.businessImpact
    ensures SeverityText(a.severity) == SeverityText(b.severity) && CaseStatusText(a.status) == CaseStatusText(b.status)
  {
    hide SeverityText, CaseStatusText, OptionalArray;
    forall i: nat | 1 <= i <= 8 ensures CaseValues(a)[i] == CaseValues(b)[i] {
      assert SameOption(CaseValues(a)[i], CaseValues(b)[i]);
    }
    assert CaseValues(a)[1] == CaseValues(b)[1] && CaseValues(a)[2] == CaseValues(b)[2] && CaseValues(a)[3] == CaseValues(b)[3];
    assert CaseValues(a)[4] == CaseValues(b)[4] && CaseValues(a)[5] == CaseValues(b)[5] && CaseValues(a)[6] == CaseValues(b)[6];
    assert CaseValues(a)[7] == CaseValues(b)[7] && CaseValues(a)[8] == CaseValues(b)[8];
  }

  lemma EqualCaseLists(a: GovernanceCase, b: GovernanceCase)
    requires forall i: nat | i < 12 :: SameOption(CaseValues(a)[i], CaseValues(b)[i])
    ensures a.missingFrom == b.missingFrom && a.evidenceIds == b.evidenceIds && a.recommendedActions == b.recommendedActions
  {
    hide SameOption, OptionalArray, SeverityText, CaseStatusText;
    assert SameOption(CaseValues(a)[9], CaseValues(b)[9]);
    assert SameOption(CaseValues(a)[10], CaseValues(b)[10]);
    assert SameOption(CaseValues(a)[11], CaseValues(b)[11]);
    SameStringArray(a.missingFrom, b.missingFrom);
    SameStringArray(a.evidenceIds, b.evidenceIds);
    SameStringArray(a.recommendedActions, b.recommendedActions);
  }

  /** Cases with the same hash are the same case, or their payloads collide. */
  lemma CaseHashDetermines(a: GovernanceCase, b: GovernanceCase)
    requires CaseHash(a) == CaseHash(b)
    ensures a == b || CaseCollision(a, b)
  {
    DigestHexDecidesDigest(CasePayload(a), CasePayload(b));
    hide DigestHex, Digest, CanonicalCase;
    if CasePayload(a) == CasePayload(b) { CasePayloadDeterminesCase(a, b); }
  }

  // ---------------------------------------------------------------- parsing a snapshot

  function MaybeStringsAt(ms: seq<Member>, key: string): Option<Option<seq<string>>> {
    if Get(ms, key).None? then Some(None)
    else match StringsAt(ms, key)
      case None => None
      case Some(ss) => Some(Some(ss))
  }

  /** `governanceCaseContract.parse`: unknown properties are dropped. */
  function CaseFromJson(v: Json): Option<GovernanceCase> {
    if !v.Obj? then None
    else
      var ms := v.members;
      match (StringAt(ms, "id"), StringAt(ms, "dealId"), StringAt(ms, "missedRequirement"), StringAt(ms, "category"),
             StringAt(ms, "severity"), StringAt(ms, "status"), StringAt(ms, "detectedAt"))
      case (Some(id), Some(dealId), Some(missed), Some(category), Some(severity), Some(status), Some(detectedAt)) =>
        (match (ParseSeverity(severity), ParseCaseStatus(status), MaybeStringAt(ms, "businessImpact"),
                MaybeStringsAt(ms, "missingFrom"), MaybeStringsAt(ms, "evidenceIds"), MaybeStringsAt(ms, "recommendedActions"))
         case (Some(sev), Some(st), Some(impact), Some(missing), Some(evidence), Some(actions)) =>
           var c := GovernanceCase(id, dealId, missed, category, sev, st, detectedAt, impact, missing, evidence, actions);
           if ValidCase(c) then Some(c) else None
         case _ => None)
      case _ => None
  }

  /** What the payload of a case holds under each name. */
  lemma CanonicalCaseNames(c: GovernanceCase)
    ensures var ms := CanonicalCase(c).members;
      && Get(ms, "schema") == Some(Str("liminal_engine.governance_case.v1")) && Get(ms, "id") == Some(Str(c.id))
      && Get(ms, "deal_id") == Some(Str(c.dealId)) && Get(ms, "missed_requirement") == Some(Str(c.missedRequirement))
      && Get(ms, "category") == Some(Str(c.category)) && Get(ms, "severity") == Some(Str(SeverityText(c.severity)))
      && Get(ms, "status") == Some(Str(CaseStatusText(c.status))) && Get(ms, "detected_at") == Some(Str(c.detectedAt))
      && Get(ms, "business_impact") == OptionalText(c.businessImpact) && Get(ms, "missing_from") == OptionalArray(c.missingFrom)
      && Get(ms, "evidence_ids") == OptionalArray(c.evidenceIds)
      && Get(ms, "recommended_actions") == OptionalArray(c.recommendedActions)
  {
    var ps := CaseProperties(c);
    CaseKeysDistinct(c);
    hide Record, Get, DistinctProperties, SeverityText, CaseStatusText, OptionalText, OptionalArray;
    RecordAt(ps, 0); RecordAt(ps, 1); RecordAt(ps, 2); RecordAt(ps, 3); RecordAt(ps, 4); RecordAt(ps, 5);
    RecordAt(ps, 6); RecordAt(ps, 7); RecordAt(ps, 8); RecordAt(ps, 9); RecordAt(ps, 10); RecordAt(ps, 11);
  }

  // ---------------------------------------------------------------- a case as a snapshot

  function SnapshotProperties(c: GovernanceCase): seq<Property> {
    [Property("id", Some(Str(c.id))), Property("dealId", Some(Str(c.dealId))),
     Property("missedRequirement", Some(Str(c.missedRequirement))), Property("category", Some(Str(c.category))),
     Property("severity", Some(Str(SeverityText(c.severity)))), Property("status", Some(Str(CaseStatusText(c.status)))),
     Property("detectedAt", Some(Str(c.detectedAt))), Property("businessImpact", OptionalText(c.businessImpact)),
     Property("missingFrom", OptionalArray(c.missingFrom)), Property("evidenceIds", OptionalArray(c.evidenceIds)),
     Property("recommendedActions", OptionalArray(c.recommendedActions))]
  }

  /** A case as the property of a snapshot. */
  function CaseJson(c: GovernanceCase): Json { Obj(Record(SnapshotProperties(c))) }

  lemma SnapshotPropertiesDistinct(c: GovernanceCase)
    ensures DistinctProperties(SnapshotProperties(c))
  {
    hide SeverityText, CaseStatusText, OptionalText, OptionalArray;
    var ps := SnapshotProperties(c);
    assert "dealId"[0] == 'd' && "status"[0] == 's' && "missingFrom"[0] == 'm' && "evidenceIds"[0] == 'e';
    assert forall i | 0 <= i < 11 :: |ps[i].key| == [2, 6, 17, 8, 8, 6, 10, 14, 11, 11, 18][i];
    assert "category"[0] == 'c' && "severity"[0] == 's';
  }

  lemma MaybeTextRead(ms: seq<Member>, key: string, s: Option<string>)
    requires Get(ms, key) == OptionalText(s)
    ensures MaybeStringAt(ms, key) == Some(s)
  {
    hide Get;
  }

  lemma MaybeListRead(ms: seq<Member>, key: string, ss: Option<seq<string>>)
    requires Get(ms, key) == OptionalArray(ss)
    ensures MaybeStringsAt(ms, key) == Some(ss)
  {
    if ss.Some? { StringArrayTexts(ms, key, ss.value); }
    hide Get, StringsAt;
  }

  /** Every valid case is read back from its snapshot. */
  lemma CaseRoundTrip(c: GovernanceCase)
    requires ValidCase(c)
    ensures CaseFromJson(CaseJson(c)) == Some(c)
  {
    var ps := SnapshotProperties(c);
    SnapshotPropertiesDistinct(c);
    CaseTextsParse(c.status, c.severity);
    hide Record, Get, DistinctProperties, SeverityText, CaseStatusText, ParseSeverity, ParseCaseStatus, OptionalText, OptionalArray,
         ValidCase, MaybeStringAt, MaybeStringsAt;
    RecordAt(ps, 0); RecordAt(ps, 1); RecordAt(ps, 2); RecordAt(ps, 3); RecordAt(ps, 4); RecordAt(ps, 5);
    RecordAt(ps, 6); RecordAt(ps, 7); RecordAt(ps, 8); RecordAt(ps, 9); RecordAt(ps, 10);
    var ms := Record(ps);
    MaybeTextRead(ms, "businessImpact", c.businessImpact);
    MaybeListRead(ms, "missingFrom", c.missingFrom);
    MaybeListRead(ms, "evidenceIds", c.evidenceIds);
    MaybeListRead(ms, "recommendedActions", c.recommendedActions);
    hide SnapshotProperties;
  }
}
