/**
 Audit events and their canonical payload (packages/contracts/src/audit-event.contract.ts,
 packages/contracts/src/redact.ts, packages/governance/src/redact.ts). The payload keeps
 everything but the key order of the two free-form snapshots.
 */
module AuditEvents {
  import opened Prelude
  import opened Sorting
  import opened Text
  import opened CanonicalJson
  import opened JsonRoundTrip
  import opened Fips180

  datatype AuditEvent = AuditEvent(
    id: string,
    caseId: string,
    dealId: string,
    action: string,
    decidingActor: string,
    previousStatus: string,
    newStatus: string,
    recordedAt: string,
    beforeState: Option<seq<Member>>,
    afterState: Option<seq<Member>>,
    evidenceIds: Option<seq<string>>,
    actionIds: Option<seq<string>>,
    evalIds: Option<seq<string>>,
    affectedSystems: Option<seq<string>>,
    prevHash: Option<string>)

  // ---------------------------------------------------------------- validity

  predicate IsDigits(s: string) {
    s != [] && forall i | 0 <= i < |s| :: IsDigit(s[i])
  }

  /** The shape `YYYY-MM-DDThh:mm:ss[.digits]Z` of `z.string().datetime()`. */
  predicate IsTimestamp(s: string) {
    && |s| >= 20
    && IsDigits(s[0..4]) && s[4] == '-' && IsDigits(s[5..7]) && s[7] == '-' && IsDigits(s[8..10]) && s[10] == 'T'
    && IsDigits(s[11..13]) && s[13] == ':' && IsDigits(s[14..16]) && s[16] == ':' && IsDigits(s[17..19])
    && s[|s| - 1] == 'Z'
    && (|s| == 20 || (s[19] == '.' && IsDigits(s[20..|s| - 1])))
  }

  /** A time for examples. */
  const AT := "2026-06-27T10:00:00Z"

  lemma AtIsTimestamp()
    ensures IsTimestamp(AT)
  {
    assert AT[0..4] == "2026" && AT[5..7] == "06" && AT[8..10] == "27" && AT[11..13] == "10" && AT[14..16] == "00" && AT[17..19] == "00";
  }

  predicate NonEmptyStrings(ss: seq<string>) {
    forall i | 0 <= i < |ss| :: ss[i] != ""
  }

  predicate ValidIds(ids: Option<seq<string>>) {
    ids.Some? ==> NonEmptyStrings(ids.value)
  }

  predicate IsDealStatus(s: string) {
    s == "on-track" || s == "at-risk"
  }

  /** `auditEventContract.parse` accepts the event. */
  predicate ValidEvent(e: AuditEvent) {
    && e.id != "" && e.caseId != "" && e.dealId != "" && e.action != "" && e.decidingActor != ""
    && IsDealStatus(e.previousStatus) && IsDealStatus(e.newStatus)
    && IsTimestamp(e.recordedAt)
    && ValidIds(e.evidenceIds) && ValidIds(e.actionIds) && ValidIds(e.evalIds) && ValidIds(e.affectedSystems)
    && (e.prevHash.Some? ==> e.prevHash.value != "")
  }

  /** Snapshots are JavaScript objects: no key twice, at any depth. */
  predicate WellFormedEvent(e: AuditEvent) {
    && (e.beforeState.Some? ==> WellFormed(Obj(e.beforeState.value)))
    && (e.afterState.Some? ==> WellFormed(Obj(e.afterState.value)))
  }

  // ---------------------------------------------------------------- the canonical payload

  const FIELDS: nat := 16

  /** The keys of the canonical projection, in the order it writes them. */
  function Key(i: nat): string
    requires i < FIELDS
  {
    match i
    case 0 => "schema"
    case 1 => "id"
    case 2 => "case_id"
    case 3 => "deal_id"
    case 4 => "action"
    case 5 => "deciding_actor"
    case 6 => "previous_status"
    case 7 => "new_status"
    case 8 => "recorded_at"
    case 9 => "before_state"
    case 10 => "after_state"
    case 11 => "evidence_ids"
    case 12 => "action_ids"
    case 13 => "eval_ids"
    case 14 => "affected_systems"
    case _ => "prev_hash"
  }

  function StringArray(ss: seq<string>): Json {
    Arr(Map(ss, (s: string) => Str(s)))
  }

  function OptionalArray(ids: Option<seq<string>>): Option<Json> {
    if ids.Some? then Some(StringArray(ids.value)) else None
  }

  function Snapshot(state: Option<seq<Member>>): Option<Json> {
    if state.Some? then Some(Obj(state.value)) else None
  }

  /** The value under key `i`; optional fields are left out when absent. */
  function Field(e: AuditEvent, i: nat): Option<Json>
    requires i < FIELDS
  {
    match i
    case 0 => Some(Str("liminal_engine.audit_event.v1"))
    case 1 => Some(Str(e.id))
    case 2 => Some(Str(e.caseId))
    case 3 => Some(Str(e.dealId))
    case 4 => Some(Str(e.action))
    case 5 => Some(Str(e.decidingActor))
    case 6 => Some(Str(e.previousStatus))
    case 7 => Some(Str(e.newStatus))
    case 8 => Some(Str(e.recordedAt))
    case 9 => Snapshot(e.beforeState)
    case 10 => Snapshot(e.afterState)
    case 11 => OptionalArray(e.evidenceIds)
    case 12 => OptionalArray(e.actionIds)
    case 13 => OptionalArray(e.evalIds)
    case 14 => OptionalArray(e.affectedSystems)
    case _ => if e.prevHash.Some? then Some(Str(e.prevHash.value)) else None
  }

  function Fields(e: AuditEvent, i: nat): seq<Member>
    requires i <= FIELDS
    decreases FIELDS - i
  {
    if i == FIELDS then []
    else (if Field(e, i).Some? then [Member(Key(i), Field(e, i).value)] else []) + Fields(e, i + 1)
  }

  /** `auditEventContract.canonical` */
  function Canonical(e: AuditEvent): Json { Obj(Fields(e, 0)) }

  /** `canonicalHash` */
  function CanonicalHash(v: Json): (h: string)
    ensures |h| == 64
  {
    DigestHex(Utf8(Stringify(v)))
  }

  function HashEvent(e: AuditEvent): (h: string)
    ensures |h| == 64
  {
    CanonicalHash(Canonical(e))
  }

  /** The bytes that are hashed for an event. */
  function Payload(e: AuditEvent): seq<byte> { Utf8(Stringify(Canonical(e))) }

  // ---------------------------------------------------------------- redaction

  function Get(ms: seq<Member>, key: string): Option<Json> {
    if ms == [] then None else if ms[0].key == key then Some(ms[0].val) else Get(ms[1..], key)
  }

  predicate IsSensitive(key: string) {
    key in ["customerClaim", "customerData", "customerRecord", "personalData", "pii"]
  }

  predicate IsRedactedRef(v: Json) {
    && v.Obj?
    && Get(v.members, "redacted") == Some(Bool(true))
    && Get(v.members, "scheme") == Some(Str("canonical-sha256"))
    && (var h := Get(v.members, "hash"); h.Some? && h.value.Str?)
  }

  function Redact(v: Json, key: string): Json {
    if IsRedactedRef(v) then v
    else Obj([Member("redacted", Bool(true)), Member("scheme", Str("canonical-sha256")),
              Member("hash", Str(CanonicalHash(v))), Member("label", Str(key))])
  }

  function RedactMember(m: Member): Member {
    if IsSensitive(m.key) && !IsRedactedRef(m.val) then Member(m.key, Redact(m.val, m.key)) else m
  }

  /** `redactAuditSnapshot` */
  function RedactSnapshot(state: Option<seq<Member>>): Option<seq<Member>> {
    if state.Some? then Some(Map(state.value, RedactMember)) else None
  }

  /** `redactAuditEventSnapshots` */
  function RedactEvent(e: AuditEvent): AuditEvent {
    e.(beforeState := RedactSnapshot(e.beforeState), afterState := RedactSnapshot(e.afterState))
  }

  /** No raw value under a sensitive key. */
  ghost predicate NoRawData(state: Option<seq<Member>>) {
    state.Some? ==> forall i | 0 <= i < |state.value| :: IsSensitive(state.value[i].key) ==> IsRedactedRef(state.value[i].val)
  }

  lemma RedactGivesRef(v: Json, key: string)
    ensures IsRedactedRef(Redact(v, key))
  {
    hide CanonicalHash;
    if !IsRedactedRef(v) {
      var ms := Redact(v, key).members;
      assert ms[1..][0].key == "scheme" && ms[1..][1..][0].key == "hash";
      assert "redacted"[0] != "scheme"[0] && "redacted"[0] != "hash"[0] && "scheme"[0] != "hash"[0];
      assert Get(ms, "hash") == Get(ms[1..], "hash") == Get(ms[1..][1..], "hash");
      assert Get(ms, "scheme") == Get(ms[1..], "scheme");
    }
  }

  /** Sealing leaves no raw sensitive value, touches nothing else, and does nothing twice. */
  lemma RedactionSound(state: Option<seq<Member>>)
    ensures NoRawData(RedactSnapshot(state))
    ensures RedactSnapshot(RedactSnapshot(state)) == RedactSnapshot(state)
    ensures NoRawData(state) ==> RedactSnapshot(state) == state
    ensures state.Some? ==> forall i | 0 <= i < |state.value| ::
      var m := RedactSnapshot(state).value[i];
      m.key == state.value[i].key && (!IsSensitive(m.key) ==> m == state.value[i])
  {
    hide IsRedactedRef, IsSensitive, Redact;
    if state.Some? {
      forall i | 0 <= i < |state.value|
        ensures IsSensitive(state.value[i].key) ==> IsRedactedRef(RedactMember(state.value[i]).val)
      {
        RedactGivesRef(state.value[i].val, state.value[i].key);
      }
      var once := RedactSnapshot(state).value;
      assert Map(once, RedactMember) == once;
      if NoRawData(state) { assert once == state.value; }
    }
  }

  lemma RedactWellFormed(e: AuditEvent)
    requires WellFormedEvent(e)
    ensures WellFormedEvent(RedactEvent(e))
  {
    RedactSnapshotWellFormed(e.beforeState);
    RedactSnapshotWellFormed(e.afterState);
  }

  lemma RedactSnapshotWellFormed(state: Option<seq<Member>>)
    requires state.Some? ==> WellFormed(Obj(state.value))
    ensures state.Some? ==> WellFormed(Obj(RedactSnapshot(state).value))
  {
    hide IsRedactedRef, IsSensitive;
    if state.Some? {
      forall i | 0 <= i < |state.value| ensures WellFormed(RedactMember(state.value[i]).val) {
        assert state.value[i] in state.value;
        RefWellFormed(state.value[i].val, state.value[i].key);
      }
    }
  }

  lemma RefWellFormed(v: Json, key: string)
    requires WellFormed(v)
    ensures WellFormed(Redact(v, key))
  {
    hide CanonicalHash, IsRedactedRef;
    if !IsRedactedRef(v) {
      var ms := Redact(v, key).members;
      assert "redacted"[0] == 'r' && "scheme"[0] == 's' && "hash"[0] == 'h' && "label"[0] == 'l';
      assert DistinctKeys(ms);
    }
  }

  // ---------------------------------------------------------------- the payload determines the event

  function KeyCode(key: string): int
    requires key != ""
  {
    1000 * |key| + key[0] as int
  }

  lemma KeyInjective(i: nat, j: nat)
    requires i < FIELDS && j < FIELDS && Key(i) == Key(j)
    ensures i == j
  {
    KeyCodes(i);
    KeyCodes(j);
  }

  /** Length and first letter tell the sixteen keys apart. */
  lemma KeyCodes(i: nat)
    requires i < FIELDS
    ensures Key(i) != ""
    ensures KeyCode(Key(i)) == [6115, 2105, 7099, 7100, 6097, 14100, 15112, 10110, 11114, 12098, 11097,
                                12101, 10097, 8101, 16097, 9112][i]
  {
  }

  lemma {:induction false} FieldKeys(e: AuditEvent, i: nat)
    requires i <= FIELDS
    ensures DistinctKeys(Fields(e, i))
    ensures forall k | 0 <= k < |Fields(e, i)| :: exists j | i <= j < FIELDS ::
      Fields(e, i)[k].key == Key(j) && Field(e, j) == Some(Fields(e, i)[k].val)
    decreases FIELDS - i
  {
    hide Key, Field;
    if i < FIELDS {
      FieldKeys(e, i + 1);
      var rest := Fields(e, i + 1);
      forall k | 0 <= k < |rest| ensures rest[k].key != Key(i) {
        var j :| i + 1 <= j < FIELDS && rest[k].key == Key(j);
        if Key(j) == Key(i) { KeyInjective(i, j); }
      }
      if Field(e, i).Some? {
        assert Fields(e, i) == [Member(Key(i), Field(e, i).value)] + rest;
      } else {
        assert Fields(e, i) == rest;
      }
    }
  }

  lemma {:induction false} FieldPresent(e: AuditEvent, i: nat, j: nat)
    requires i <= j < FIELDS && Field(e, j).Some?
    ensures Member(Key(j), Field(e, j).value) in Fields(e, i)
    decreases FIELDS - i
  {
    hide Key, Field;
    if i < j { FieldPresent(e, i + 1, j); }
  }

  lemma CanonicalWellFormed(e: AuditEvent)
    requires WellFormedEvent(e)
    ensures WellFormed(Canonical(e))
  {
    FieldKeys(e, 0);
    hide Key;
    var ms := Fields(e, 0);
    forall k | 0 <= k < |ms| ensures WellFormed(ms[k].val) {
      var j :| 0 <= j < FIELDS && ms[k].key == Key(j) && Field(e, j) == Some(ms[k].val);
      FieldWellFormed(e, j);
    }
  }

  lemma FieldWellFormed(e: AuditEvent, j: nat)
    requires WellFormedEvent(e) && j < FIELDS && Field(e, j).Some?
    ensures WellFormed(Field(e, j).value)
  {
  }

  ghost predicate SameOption(a: Option<Json>, b: Option<Json>) {
    a.Some? == b.Some? && (a.Some? ==> Same(a.value, b.value))
  }

  lemma SameFields(a: AuditEvent, b: AuditEvent, i: nat)
    requires Same(Canonical(a), Canonical(b)) && Same(Canonical(b), Canonical(a)) && i < FIELDS
    ensures SameOption(Field(a, i), Field(b, i))
  {
    hide Key, Field;
    if Field(a, i).Some? { SameField(a, b, i); }
    if Field(b, i).Some? { SameField(b, a, i); }
  }

  lemma SameField(a: AuditEvent, b: AuditEvent, i: nat)
    requires Same(Canonical(a), Canonical(b)) && i < FIELDS && Field(a, i).Some?
    ensures Field(b, i).Some? && Same(Field(a, i).value, Field(b, i).value)
  {
    hide Key, Field;
    FieldPresent(a, 0, i);
    FieldKeys(b, 0);
    var ms, ns := Fields(a, 0), Fields(b, 0);
    var k :| 0 <= k < |ms| && ms[k] == Member(Key(i), Field(a, i).value);
    var n := SameMember(ms, ns, k);
    var j :| 0 <= j < FIELDS && ns[n].key == Key(j) && Field(b, j) == Some(ns[n].val);
    KeyInjective(i, j);
  }

  lemma SameMember(ms: seq<Member>, ns: seq<Member>, k: nat) returns (n: nat)
    requires Same(Obj(ms), Obj(ns)) && k < |ms|
    ensures n < |ns| && ms[k].key == ns[n].key && Same(ms[k].val, ns[n].val)
  {
    n :| 0 <= n < |ns| && ms[k].key == ns[n].key && Same(ms[k].val, ns[n].val);
  }

  /** Equal, except that the keys of the snapshots may come in another order. */
  ghost predicate SameEvent(a: AuditEvent, b: AuditEvent) {
    && a == b.(beforeState := a.beforeState, afterState := a.afterState)
    && SameOption(Snapshot(a.beforeState), Snapshot(b.beforeState))
    && SameOption(Snapshot(a.afterState), Snapshot(b.afterState))
  }

  lemma SameStringArray(a: Option<seq<string>>, b: Option<seq<string>>)
    requires SameOption(OptionalArray(a), OptionalArray(b))
    ensures a == b
  {
    if a.Some? {
      forall i | 0 <= i < |a.value| ensures a.value[i] == b.value[i] {
        assert Same(StringArray(a.value).items[i], StringArray(b.value).items[i]);
      }
      assert a.value == b.value;
    }
  }

  /** The payload loses nothing but the key order of the snapshots. */
  lemma PayloadDeterminesEvent(a: AuditEvent, b: AuditEvent)
    requires WellFormedEvent(a) && WellFormedEvent(b) && Payload(a) == Payload(b)
    ensures SameEvent(a, b)
  {
    Utf8Injective(Stringify(Canonical(a)), Stringify(Canonical(b)));
    CanonicalWellFormed(a);
    CanonicalWellFormed(b);
    StringifyDecidesSame(Canonical(a), Canonical(b));
    StringifyDecidesSame(Canonical(b), Canonical(a));
    forall i: nat | i < FIELDS ensures SameOption(Field(a, i), Field(b, i)) {
      SameFields(a, b, i);
    }
    hide Canonical, Key, Stringify;
    EqualFields(a, b);
  }

  lemma EqualFields(a: AuditEvent, b: AuditEvent)
    requires forall i: nat | i < FIELDS :: SameOption(Field(a, i), Field(b, i))
    ensures SameEvent(a, b)
  {
    hide SameOption, Field;
    EqualScalars(a, b);
    EqualArrays(a, b);
    EqualSnapshots(a, b);
  }

  lemma EqualScalars(a: AuditEvent, b: AuditEvent)
    requires forall i: nat | i < FIELDS :: SameOption(Field(a, i), Field(b, i))
    ensures a.id == b.id && a.caseId == b.caseId && a.dealId == b.dealId && a.action == b.action
    ensures a.decidingActor == b.decidingActor && a.previousStatus == b.previousStatus
    ensures a.newStatus == b.newStatus && a.recordedAt == b.recordedAt && a.prevHash == b.prevHash
  {
    forall i: nat | 1 <= i <= 8 ensures Field(a, i) == Field(b, i) {
      assert SameOption(Field(a, i), Field(b, i));
    }
    assert Field(a, 1) == Field(b, 1) && Field(a, 2) == Field(b, 2) && Field(a, 3) == Field(b, 3);
    assert Field(a, 4) == Field(b, 4) && Field(a, 5) == Field(b, 5) && Field(a, 6) == Field(b, 6);
    assert Field(a, 7) == Field(b, 7) && Field(a, 8) == Field(b, 8);
    assert SameOption(Field(a, 15), Field(b, 15));
  }

  lemma EqualArrays(a: AuditEvent, b: AuditEvent)
    requires forall i: nat | i < FIELDS :: SameOption(Field(a, i), Field(b, i))
    ensures a.evidenceIds == b.evidenceIds && a.actionIds == b.actionIds
    ensures a.evalIds == b.evalIds && a.affectedSystems == b.affectedSystems
  {
    hide SameOption, OptionalArray;
    assert SameOption(Field(a, 11), Field(b, 11)) && SameOption(Field(a, 12), Field(b, 12));
    assert SameOption(Field(a, 13), Field(b, 13)) && SameOption(Field(a, 14), Field(b, 14));
    SameStringArray(a.evidenceIds, b.evidenceIds);
    SameStringArray(a.actionIds, b.actionIds);
    SameStringArray(a.evalIds, b.evalIds);
    SameStringArray(a.affectedSystems, b.affectedSystems);
  }

  lemma EqualSnapshots(a: AuditEvent, b: AuditEvent)
    requires forall i: nat | i < FIELDS :: SameOption(Field(a, i), Field(b, i))
    ensures SameOption(Snapshot(a.beforeState), Snapshot(b.beforeState))
    ensures SameOption(Snapshot(a.afterState), Snapshot(b.afterState))
  {
    hide SameOption, Snapshot;
    assert SameOption(Field(a, 9), Field(b, 9)) && SameOption(Field(a, 10), Field(b, 10));
  }

  // ---------------------------------------------------------------- the names of the payload

  lemma {:induction false} FieldAbsent(e: AuditEvent, i: nat, j: nat)
    requires i <= j < FIELDS && Field(e, j).None?
    ensures forall k | 0 <= k < |Fields(e, i)| :: Fields(e, i)[k].key != Key(j)
  {
    FieldKeys(e, i);
    hide Key, Field;
    forall k | 0 <= k < |Fields(e, i)| ensures Fields(e, i)[k].key != Key(j) {
      var n :| i <= n < FIELDS && Fields(e, i)[k].key == Key(n) && Field(e, n) == Some(Fields(e, i)[k].val);
      if Key(n) == Key(j) { KeyInjective(n, j); }
    }
  }

  lemma {:induction false} GetMember(ms: seq<Member>, m: Member)
    requires DistinctKeys(ms) && m in ms
    ensures Get(ms, m.key) == Some(m.val)
  {
    var i :| 0 <= i < |ms| && ms[i] == m;
    if i > 0 {
      assert ms[0].key != ms[i].key && ms[1..][i - 1] == m;
      GetMember(ms[1..], m);
    }
  }

  lemma {:induction false} GetAbsent(ms: seq<Member>, key: string)
    requires forall k | 0 <= k < |ms| :: ms[k].key != key
    ensures Get(ms, key) == None
  {
    if ms != [] { GetAbsent(ms[1..], key); }
  }

  lemma CanonicalAt(e: AuditEvent, i: nat)
    requires i < FIELDS
    ensures Get(Fields(e, 0), Key(i)) == Field(e, i)
  {
    FieldKeys(e, 0);
    hide Key, Field, Fields;
    if Field(e, i).Some? {
      FieldPresent(e, 0, i);
      GetMember(Fields(e, 0), Member(Key(i), Field(e, i).value));
    } else {
      FieldAbsent(e, 0, i);
      GetAbsent(Fields(e, 0), Key(i));
    }
  }

  /** What the payload holds under each name. */
  lemma CanonicalNames(e: AuditEvent)
    ensures var ms := Canonical(e).members;
      && Get(ms, "schema") == Some(Str("liminal_engine.audit_event.v1"))
      && Get(ms, "id") == Some(Str(e.id)) && Get(ms, "case_id") == Some(Str(e.caseId)) && Get(ms, "deal_id") == Some(Str(e.dealId))
      && Get(ms, "action") == Some(Str(e.action)) && Get(ms, "deciding_actor") == Some(Str(e.decidingActor))
      && Get(ms, "previous_status") == Some(Str(e.previousStatus)) && Get(ms, "new_status") == Some(Str(e.newStatus))
      && Get(ms, "recorded_at") == Some(Str(e.recordedAt))
    ensures var ms := Canonical(e).members;
      && Get(ms, "before_state") == Snapshot(e.beforeState) && Get(ms, "after_state") == Snapshot(e.afterState)
      && Get(ms, "evidence_ids") == OptionalArray(e.evidenceIds) && Get(ms, "action_ids") == OptionalArray(e.actionIds)
      && Get(ms, "eval_ids") == OptionalArray(e.evalIds) && Get(ms, "affected_systems") == OptionalArray(e.affectedSystems)
      && Get(ms, "prev_hash") == if e.prevHash.Some? then Some(Str(e.prevHash.value)) else None
  {
    hide Get, Fields, OptionalArray, Snapshot;
    CanonicalAt(e, 0); CanonicalAt(e, 1); CanonicalAt(e, 2); CanonicalAt(e, 3);
    CanonicalAt(e, 4); CanonicalAt(e, 5); CanonicalAt(e, 6); CanonicalAt(e, 7);
    CanonicalAt(e, 8); CanonicalAt(e, 9); CanonicalAt(e, 10); CanonicalAt(e, 11);
    CanonicalAt(e, 12); CanonicalAt(e, 13); CanonicalAt(e, 14); CanonicalAt(e, 15);
  }

  // ---------------------------------------------------------------- what a redacted reference says

  /** `verifyRedaction` */
  predicate VerifyRedaction(ref: Json, raw: Json) {
    ref.Obj? && Get(ref.members, "hash") == Some(Str(CanonicalHash(raw)))
  }

  lemma RedactHolds(v: Json, key: string)
    requires !IsRedactedRef(v)
    ensures var ref := Redact(v, key);
      ref.Obj? && Get(ref.members, "hash") == Some(Str(CanonicalHash(v))) && Get(ref.members, "label") == Some(Str(key))
  {
    hide CanonicalHash, IsRedactedRef;
    var ms := Redact(v, key).members;
    assert "redacted"[0] == 'r' && "scheme"[0] == 's' && "hash"[0] == 'h' && "label"[0] == 'l';
    assert DistinctKeys(ms);
    GetMember(ms, ms[2]);
    GetMember(ms, ms[3]);
  }

  /**
   A reference proves the value it stands for, and no other: a value that verifies against it is the same
   up to the order of keys, or the two have payloads with one digest.
   */
  lemma RedactionVerifies(v: Json, key: string, w: Json)
    requires !IsRedactedRef(v) && WellFormed(v) && WellFormed(w)
    ensures VerifyRedaction(Redact(v, key), v)
    ensures VerifyRedaction(Redact(v, key), w) ==>
      Same(v, w) || (Utf8(Stringify(v)) != Utf8(Stringify(w)) && Digest(Utf8(Stringify(v))) == Digest(Utf8(Stringify(w))))
  {
    RedactHolds(v, key);
    hide Get, Redact, IsRedactedRef, DigestHex, Digest, Stringify, Same, WellFormed, Utf8;
    if VerifyRedaction(Redact(v, key), w) {
      DigestHexDecidesDigest(Utf8(Stringify(v)), Utf8(Stringify(w)));
      if Utf8(Stringify(v)) == Utf8(Stringify(w)) {
        Utf8Injective(Stringify(v), Stringify(w));
        StringifyDecidesSame(v, w);
      }
    }
  }

  /** The values under these five keys are replaced by references to them, labelled with the key; no other value is touched. */
  lemma RedactsPersonalData(state: seq<Member>, i: nat)
    requires i < |state|
    ensures RedactSnapshot(Some(state)).Some? && |RedactSnapshot(Some(state)).value| == |state|
    ensures var m, m' := state[i], RedactSnapshot(Some(state)).value[i];
      && m'.key == m.key
      && (m.key == "customerClaim" || m.key == "customerData" || m.key == "customerRecord" || m.key == "personalData" || m.key == "pii" ==>
            IsRedactedRef(m'.val)
            && (if IsRedactedRef(m.val) then m' == m
                else VerifyRedaction(m'.val, m.val) && Get(m'.val.members, "label") == Some(Str(m.key))))
      && (m.key != "customerClaim" && m.key != "customerData" && m.key != "customerRecord" && m.key != "personalData" && m.key != "pii" ==>
            m' == m)
  {
    RedactedMember(state[i]);
    hide IsRedactedRef, RedactMember, VerifyRedaction, Get;
  }

  lemma RedactedMember(m: Member)
    ensures var m' := RedactMember(m);
      && m'.key == m.key
      && (if m.key == "customerClaim" || m.key == "customerData" || m.key == "customerRecord" || m.key == "personalData" || m.key == "pii" then
            IsRedactedRef(m'.val)
            && (if IsRedactedRef(m.val) then m' == m
                else VerifyRedaction(m'.val, m.val) && Get(m'.val.members, "label") == Some(Str(m.key)))
          else m' == m)
  {
    SensitiveKeys(m.key);
    RedactGivesRef(m.val, m.key);
    if !IsRedactedRef(m.val) { RedactHolds(m.val, m.key); }
    hide IsSensitive, IsRedactedRef, Redact, CanonicalHash, Get;
  }

  lemma SensitiveKeys(key: string)
    ensures IsSensitive(key) <==>
      key == "customerClaim" || key == "customerData" || key == "customerRecord" || key == "personalData" || key == "pii"
  {
  }
}
