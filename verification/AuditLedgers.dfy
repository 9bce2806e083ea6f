/**
 The hash-chained audit ledger (packages/governance/src/audit-ledger.ts): the append-only
 writer, the verifier, and what a verified chain guarantees. Nothing is assumed about the
 hash: two chains with the same head are the same chain, or two of their payloads collide.
 */
module AuditLedgers {
  import opened Prelude
  import opened Fips180
  import opened AuditEvents

  datatype SealedEvent = SealedEvent(event: AuditEvent, eventHash: string)

  const GENESIS := "genesis"

  // ---------------------------------------------------------------- what a good link is

  /** The `prevHash` event `i` must carry: the recomputed hash of its predecessor. */
  function Link(events: seq<SealedEvent>, i: nat): string
    requires i < |events|
  {
    if i == 0 then GENESIS else HashEvent(events[i - 1].event)
  }

  predicate LinkOk(events: seq<SealedEvent>, i: nat)
    requires i < |events|
  {
    events[i].event.prevHash == Some(Link(events, i))
  }

  predicate HashOk(events: seq<SealedEvent>, i: nat)
    requires i < |events|
  {
    HashEvent(events[i].event) == events[i].eventHash
  }

  predicate Good(events: seq<SealedEvent>, i: nat)
    requires i < |events|
  {
    LinkOk(events, i) && HashOk(events, i)
  }

  predicate ValidChain(events: seq<SealedEvent>) {
    forall i: nat | i < |events| :: Good(events, i)
  }

  // ---------------------------------------------------------------- the writer

  function TailHash(chain: seq<SealedEvent>): string {
    if chain == [] then GENESIS else chain[|chain| - 1].eventHash
  }

  /** What `append` seals onto `chain`: the redacted, validated event with its link and hash. */
  function Seal(chain: seq<SealedEvent>, input: AuditEvent): Result<SealedEvent, ()> {
    var event := RedactEvent(input.(prevHash := Some(TailHash(chain))));
    if ValidEvent(event) then Ok(SealedEvent(event, HashEvent(event))) else Err(())
  }

  class AuditLedger {
    var chain: seq<SealedEvent>

    constructor ()
      ensures chain == []
    {
      chain := [];
    }

    /** Loads an existing chain to continue it. */
    constructor FromEvents(events: seq<SealedEvent>)
      ensures chain == events
      ensures ValidChain(events) ==>
        forall inputs :: ValidChain(AppendAll(chain, inputs)) && events <= AppendAll(chain, inputs)
    {
      chain := events;
      new;
      hide ValidChain, AppendAll;
      forall inputs | ValidChain(events) ensures ValidChain(AppendAll(events, inputs)) && events <= AppendAll(events, inputs) {
        AppendAllValid(events, inputs);
      }
    }

    method Append(input: AuditEvent) returns (r: Result<SealedEvent, ()>)
      modifies this
      ensures r == Seal(old(chain), input)
      ensures chain == if r.Ok? then old(chain) + [r.value] else old(chain)
      ensures old(ValidChain(chain)) ==> ValidChain(chain)
    {
      hide ValidEvent, RedactEvent, HashEvent;
      var prevHash := if |chain| > 0 then chain[|chain| - 1].eventHash else GENESIS;
      var event := RedactEvent(input.(prevHash := Some(prevHash)));
      if !ValidEvent(event) {
        return Err(());
      }
      var sealed := SealedEvent(event, HashEvent(event));
      SealKeepsVerdicts(chain, input);
      chain := chain + [sealed];
      r := Ok(sealed);
    }

    method Events() returns (events: seq<SealedEvent>)
      ensures events == chain
    {
      events := chain;
    }
  }

  /** Appending leaves every verdict on earlier events as it was, and adds a good one after good ones. */
  lemma SealKeepsVerdicts(chain: seq<SealedEvent>, input: AuditEvent)
    requires Seal(chain, input).Ok?
    ensures var longer := chain + [Seal(chain, input).value];
      && (forall i: nat | i < |chain| :: Good(longer, i) <==> Good(chain, i))
      && (ValidChain(chain) ==> ValidChain(longer))
      && (ValidChain(longer) ==> ValidChain(chain))
  {
    hide HashEvent, ValidEvent, RedactSnapshot;
    var longer := chain + [Seal(chain, input).value];
    forall i: nat | i < |chain| ensures Good(longer, i) <==> Good(chain, i) {
      assert longer[i] == chain[i];
      if i > 0 { assert longer[i - 1] == chain[i - 1]; }
    }
    if ValidChain(longer) {
      forall i: nat | i < |chain| ensures Good(chain, i) {
        assert Good(longer, i);
      }
    }
    if ValidChain(chain) && chain != [] {
      assert Good(chain, |chain| - 1);
      assert longer[|chain| - 1] == chain[|chain| - 1];
    }
  }

  // ---------------------------------------------------------------- the verifier

  datatype Reason = HeadNotGenesis | BrokenLink | HashMismatch

  datatype ChainVerification = ChainVerification(valid: bool, length: nat, brokenAt: Option<nat>, reason: Option<Reason>)

  /** `verifyChain` accepts exactly the valid chains and otherwise names the first bad event and why. */
  method VerifyChain(events: seq<SealedEvent>) returns (v: ChainVerification)
    ensures v.length == |events|
    ensures v.valid <==> ValidChain(events)
    ensures v.valid ==> v.brokenAt.None? && v.reason.None?
    ensures !v.valid ==> v.brokenAt.Some? && v.reason.Some? && v.brokenAt.value < |events|
    ensures !v.valid ==> !Good(events, v.brokenAt.value) && forall i: nat | i < v.brokenAt.value :: Good(events, i)
    ensures !v.valid ==> (v.reason.value == HashMismatch <==> LinkOk(events, v.brokenAt.value))
    ensures !v.valid ==> (v.reason.value == HeadNotGenesis ==> v.brokenAt.value == 0)
    ensures !v.valid ==> (v.reason.value == BrokenLink ==> v.brokenAt.value > 0)
  {
    hide HashEvent;
    var expectedPrev := GENESIS;
    for i := 0 to |events|
      invariant i < |events| ==> expectedPrev == Link(events, i)
      invariant forall j: nat | j < i :: Good(events, j)
    {
      var e := events[i];
      if e.event.prevHash != Some(expectedPrev) {
        assert !Good(events, i);
        return ChainVerification(false, |events|, Some(i), Some(if i == 0 then HeadNotGenesis else BrokenLink));
      }
      var recomputed := HashEvent(e.event);
      if recomputed != e.eventHash {
        assert !Good(events, i);
        return ChainVerification(false, |events|, Some(i), Some(HashMismatch));
      }
      expectedPrev := recomputed;
    }
    v := ChainVerification(true, |events|, None, None);
  }

  // ---------------------------------------------------------------- whole runs

  /** The chain after the appends of `inputs`, refused ones leaving it alone. */
  function AppendAll(chain: seq<SealedEvent>, inputs: seq<AuditEvent>): seq<SealedEvent> {
    if inputs == [] then chain
    else
      var shorter := AppendAll(chain, inputs[..|inputs| - 1]);
      var r := Seal(shorter, inputs[|inputs| - 1]);
      if r.Ok? then shorter + [r.value] else shorter
  }

  /** Every ledger continued from a valid chain verifies, and keeps what it was loaded with. */
  lemma {:induction false} AppendAllValid(chain: seq<SealedEvent>, inputs: seq<AuditEvent>)
    requires ValidChain(chain)
    ensures ValidChain(AppendAll(chain, inputs)) && chain <= AppendAll(chain, inputs)
  {
    hide Seal, ValidChain;
    if inputs != [] {
      var n := |inputs| - 1;
      AppendAllValid(chain, inputs[..n]);
      var shorter := AppendAll(chain, inputs[..n]);
      if Seal(shorter, inputs[n]).Ok? { SealKeepsVerdicts(shorter, inputs[n]); }
    }
  }

  ghost predicate Redacted(chain: seq<SealedEvent>) {
    forall i | 0 <= i < |chain| :: NoRawData(chain[i].event.beforeState) && NoRawData(chain[i].event.afterState)
  }

  /** No append ever commits a raw sensitive value. */
  lemma {:induction false} AppendAllRedacted(chain: seq<SealedEvent>, inputs: seq<AuditEvent>)
    requires Redacted(chain)
    ensures Redacted(AppendAll(chain, inputs))
  {
    hide HashEvent, ValidEvent, NoRawData, RedactSnapshot;
    if inputs != [] {
      var n := |inputs| - 1;
      AppendAllRedacted(chain, inputs[..n]);
      RedactionSound(inputs[n].beforeState);
      RedactionSound(inputs[n].afterState);
    }
  }

  ghost predicate WellFormedChain(chain: seq<SealedEvent>) {
    forall i | 0 <= i < |chain| :: WellFormedEvent(chain[i].event)
  }

  /** Appending well-formed events to a well-formed chain keeps it well-formed. */
  lemma {:induction false} AppendAllWellFormed(chain: seq<SealedEvent>, inputs: seq<AuditEvent>)
    requires WellFormedChain(chain) && forall i | 0 <= i < |inputs| :: WellFormedEvent(inputs[i])
    ensures WellFormedChain(AppendAll(chain, inputs))
  {
    hide HashEvent, ValidEvent, WellFormedEvent, RedactEvent;
    if inputs != [] {
      var n := |inputs| - 1;
      AppendAllWellFormed(chain, inputs[..n]);
      var shorter := AppendAll(chain, inputs[..n]);
      LinkedWellFormed(inputs[n], TailHash(shorter));
      RedactWellFormed(inputs[n].(prevHash := Some(TailHash(shorter))));
    }
  }

  lemma LinkedWellFormed(e: AuditEvent, prev: string)
    requires WellFormedEvent(e)
    ensures WellFormedEvent(e.(prevHash := Some(prev)))
  {
  }

  // ---------------------------------------------------------------- tamper evidence

  /** Two distinct payloads, one from each chain, have the same SHA-256 digest. */
  ghost predicate Collision(c: seq<SealedEvent>, d: seq<SealedEvent>) {
    exists i, j | 0 <= i < |c| && 0 <= j < |d| ::
      Payload(c[i].event) != Payload(d[j].event) && Digest(Payload(c[i].event)) == Digest(Payload(d[j].event))
  }

  ghost predicate SameChain(c: seq<SealedEvent>, d: seq<SealedEvent>) {
    |c| == |d| && forall i | 0 <= i < |c| :: SameEvent(c[i].event, d[i].event) && c[i].eventHash == d[i].eventHash
  }

  lemma CollisionGrows(c: seq<SealedEvent>, d: seq<SealedEvent>, m: nat, n: nat)
    requires m <= |c| && n <= |d| && Collision(c[..m], d[..n])
    ensures Collision(c, d)
  {
    hide Payload, Digest;
    var i, j :| 0 <= i < m && 0 <= j < n && Payload(c[..m][i].event) != Payload(d[..n][j].event)
                && Digest(Payload(c[..m][i].event)) == Digest(Payload(d[..n][j].event));
    assert c[..m][i] == c[i] && d[..n][j] == d[j];
  }

  lemma EqualHashes(c: seq<SealedEvent>, d: seq<SealedEvent>, i: nat, j: nat)
    requires i < |c| && j < |d| && WellFormedChain(c) && WellFormedChain(d)
    requires HashEvent(c[i].event) == HashEvent(d[j].event)
    ensures SameEvent(c[i].event, d[j].event) || Collision(c, d)
  {
    var p, q := Payload(c[i].event), Payload(d[j].event);
    DigestHexDecidesDigest(p, q);
    hide Payload, Digest, SameEvent;
    if p == q {
      PayloadDeterminesEvent(c[i].event, d[j].event);
    }
  }

  lemma ValidPrefix(c: seq<SealedEvent>, n: nat)
    requires ValidChain(c) && n <= |c|
    ensures ValidChain(c[..n])
  {
    hide HashEvent;
    forall i: nat | i < n ensures Good(c[..n], i) {
      assert Good(c, i);
      if i > 0 { assert c[..n][i - 1] == c[i - 1]; }
    }
  }

  lemma LastGood(c: seq<SealedEvent>)
    requires ValidChain(c) && c != []
    ensures c[|c| - 1].eventHash == HashEvent(c[|c| - 1].event)
    ensures |c| == 1 ==> c[|c| - 1].event.prevHash == Some(GENESIS)
    ensures |c| > 1 ==> c[|c| - 1].event.prevHash == Some(c[|c| - 2].eventHash)
    ensures |c| > 1 ==> |c[|c| - 2].eventHash| == 64
  {
    hide Canonical, CanonicalHash;
    assert Good(c, |c| - 1);
    if |c| > 1 { assert Good(c, |c| - 2); }
  }

  /**
   The head hash pins the whole ledger: two valid chains with the same last hash have the
   same events, or two of their payloads collide. Lengths cannot differ, because the
   genesis link is no digest.
   */
  lemma {:induction false} HeadPinsLedger(c: seq<SealedEvent>, d: seq<SealedEvent>)
    requires ValidChain(c) && ValidChain(d) && WellFormedChain(c) && WellFormedChain(d)
    requires c != [] && d != [] && c[|c| - 1].eventHash == d[|d| - 1].eventHash
    ensures SameChain(c, d) || Collision(c, d)
    decreases |c|
  {
    hide ValidChain, Collision, HashEvent;
    var m, n := |c| - 1, |d| - 1;
    LastGood(c);
    LastGood(d);
    EqualHashes(c, d, m, n);
    if SameEvent(c[m].event, d[n].event) {
      if m > 0 && n > 0 {
        ValidPrefix(c, m);
        ValidPrefix(d, n);
        HeadPinsLedger(c[..m], d[..n]);
        if Collision(c[..m], d[..n]) { CollisionGrows(c, d, m, n); }
        if SameChain(c[..m], d[..n]) { SameChainGrows(c, d); }
      }
    }
  }

  lemma SameChainGrows(c: seq<SealedEvent>, d: seq<SealedEvent>)
    requires c != [] && d != [] && SameChain(c[..|c| - 1], d[..|d| - 1])
    requires SameEvent(c[|c| - 1].event, d[|d| - 1].event) && c[|c| - 1].eventHash == d[|d| - 1].eventHash
    ensures SameChain(c, d)
  {
    hide SameEvent;
    forall i | 0 <= i < |c| ensures SameEvent(c[i].event, d[i].event) && c[i].eventHash == d[i].eventHash {
      if i < |c| - 1 {
        assert c[..|c| - 1][i] == c[i] && d[..|d| - 1][i] == d[i];
      }
    }
  }

  /** Ledgers appended to from nothing: with equal heads they are the same, or two of their payloads collide. */
  lemma HeadPinsAppends(a: seq<AuditEvent>, b: seq<AuditEvent>, c: seq<SealedEvent>, d: seq<SealedEvent>)
    requires forall i | 0 <= i < |a| :: WellFormedEvent(a[i])
    requires forall i | 0 <= i < |b| :: WellFormedEvent(b[i])
    requires c == AppendAll([], a) && d == AppendAll([], b)
    requires c != [] && d != [] && c[|c| - 1].eventHash == d[|d| - 1].eventHash
    ensures SameChain(c, d) || Collision(c, d)
  {
    assert WellFormedChain([]) && ValidChain([]);
    hide ValidChain, AppendAll, SameChain, Collision, WellFormedChain, WellFormedEvent;
    AppendAllValid([], a);
    AppendAllValid([], b);
    AppendAllWellFormed([], a);
    AppendAllWellFormed([], b);
    HeadPinsLedger(c, d);
  }
}
