# Governance engine: a verified model

A Dafny model of the deterministic core of the engine, with proofs about it. Three
connected parts are modelled.

**Hash and ledger.** `JsNumber`, `Fips180`, `WordBits` and `Sha256` relate the hand-written SHA-256,
with JavaScript's signed 32-bit operators, to FIPS 180-4. `CanonicalJson` and
`JsonRoundTrip` hold the canonical printer and a parser that undoes it. `AuditEvents` and
`AuditLedgers` build the hash chain on top; nothing is assumed about the hash, so a result
about tampering reads "equal, or here are two payloads with one digest".

**Policy and gateway.** `Globs`, `PolicyEngine`, `MatchReplace`, `CompileCorrection`,
`PolicyAudit`, `PolicyStores` and `ProxyHistories` are the pieces; `PolicyVerdicts`,
`CorrectionScopes` and `VerdictRecords` say what decisions, learned scopes and audit events mean.
`GatewaySteps` says what each call of the gateway returns and leaves behind, with stores in memory
or on file;
`InterceptGateways` is the gateway in memory as an object proved against it.
`GatewayEntries` says what each call records, `GatewayCoverage`, `GatewayScopes` and
`GatewayBatches` what drops and forwards do to any stored rules and how far they reach, `GatewayInvariants`,
`GatewayRuns` and `GatewayTheorems` what holds of every session that begins with a new ledger,
over empty stores or what earlier sessions left; `GatewayMedia` proves that files and memory give
the same answers, and `GatewaySessions` carries the rest over to files and from one session to the
next.

**Requirements and cases.** `RequirementStores` is the version log, `RequirementChecks` the
check of a subject against it, `RequirementVerdicts` what its findings mean, `CaseOpenings` the
case opener with its cache, `CheckedCases` what its cases say of a checked subject, `AmendedCases` what amending a requirement does to them,
`CaseReconstructions` the rebuilding of a case from the ledger, `Escalations` the escalation metric.

`Prelude`, `Sorting`, `Text`, `KeyedStores`, `JsonRecords` and `GovernanceCases` are shared.

Conventions:

- A call that throws returns `Err`; the state it leaves is modelled also then.
- Ids and clock readings are drawn from two streams. Theorems that need fresh ids or
  readable time stamps say so (`FreshEnv`, `ReadableEnv`, `FreshIds`, and `Begins` and `NewTo` for
  ids that the kept stores do not know); the rest hold for any streams.
- JSON numbers are integers; objects are lists of members whose keys are distinct where a
  theorem needs it (`WellFormed`).
- A `Map` is a list in insertion order, with each key once (`Distinct`) where a method relies
  on it; a file is the array written to it.
- Validation by a schema is a validity predicate.

Where code and documentation part, the model follows the code:

- Cases are deduplicated by requirement text on a deal, not by requirement
  (packages/governance/src/requirement-case.ts:273-280): two requirements with the same text on
  one deal share a case, and one requirement whose text is amended while it is active gets a second
  one. `SharedTextDedupes` and `AmendedHasTwoCases` give the inputs, `OwnCaseIff` says exactly when
  each finding gets its own case, and `SecondCaseIff` exactly when an amended one gets another.
- "Only active requirements open cases" is not true of every list of requirements: where two
  share an id, the case cites the later one, whatever its status. `SharedIdMisattributes` gives
  the input and `CheckedCasesOpen` the exact condition. Distinct ids are enough
  (`DistinctIdsAttribute`) but not needed (`SharedIdCanAttribute`); the lists of the requirement
  store have them (`ActiveIsCurrent`).
- A queued ask is lost, with no operator entry, when a drop gives an empty reason or an edited
  action does not parse, because the item leaves the queue first. `EmptyReasonLosesAsk` and
  `InvalidEditLosesAsk` give the runs; `OperatorConserves` proves that exactly these inputs lose an
  ask, and one each.
- An activated "never do X" does not block the dropped action where a more specific approval of it is
  stored, as one of a merge with its approvals is. `ApprovalOutlivesDrop` gives the input and
  `DropAllowsIff` the exact condition.
- The padded length is right exactly below 2^31 - 72 bytes; for the next 2^31 lengths the shift
  turns it negative (`PaddedLengthExact`).

## Model

| member | source | states |
|---|---|---|
| JsNumber.SignedSum | packages/contracts/src/canonical-hash.ts:86-113 | a sum of signed and unsigned 32-bit readings, taken `>>> 0`, is the unsigned sum modulo 2^32 |
| Sha256.RightRotateIsRotr | packages/contracts/src/canonical-hash.ts:50-51 | `(x >>> n) \| (x << (32 - n))` is the signed reading of the rotation of section 3.2 of FIPS 180-4 |
| Sha256.PaddedLengthExact | packages/contracts/src/canonical-hash.ts:61 | for every length, the shifted padded length is the one section 5.1.1 of FIPS 180-4 asks for if and only if the input is shorter than 2^31 - 72 bytes; for the next 2^31 lengths it is negative |
| Fips180.PadLayout | packages/contracts/src/canonical-hash.ts:61-67 | the padding of section 5.1.1 of FIPS 180-4 is the message, 0x80, fewer than 64 zero bytes and the bit length in 8 big-endian bytes |
| Fips180.RoundConstants | packages/contracts/src/canonical-hash.ts:37-48 | each round constant is the first 32 fraction bits of the cube root of its prime (section 4.2.2 of FIPS 180-4) |
| Fips180.InitialValue | packages/contracts/src/canonical-hash.ts:69-76 | each initial hash word is the first 32 fraction bits of the square root of its prime (section 5.3.3 of FIPS 180-4) |
| WordBits.SigmaBits | packages/contracts/src/canonical-hash.ts:84-104 | each bit of the four sigma functions of section 4.1.2 of FIPS 180-4 is the sum modulo 2 of three bits of the word, at the rotations and shifts of the standard |
| WordBits.ChBit | packages/contracts/src/canonical-hash.ts:100-100 | Ch takes each bit from its second or third word, as the bit of the first says |
| WordBits.MajBit | packages/contracts/src/canonical-hash.ts:103-103 | Maj has a bit exactly where at least two of its words have it |
| WordBits.BitsMakeWord | packages/contracts/src/canonical-hash.ts:50-52 | two words with the same 32 bits are the same, so the three rows above leave nothing of these functions open |
| Sha256.PadMessage | packages/contracts/src/canonical-hash.ts:59-67 | the in-place padding yields exactly the padded message of section 5.1.1 of FIPS 180-4 |
| Sha256.FillSchedule | packages/contracts/src/canonical-hash.ts:80-87 | the array filled in place holds the message schedule of section 6.2.2 of FIPS 180-4, word by word |
| Sha256.Temporaries | packages/contracts/src/canonical-hash.ts:99-104 | the mixed signed and unsigned sums are T1 and T2 of section 6.2.2 of FIPS 180-4 |
| Sha256.RoundStep | packages/contracts/src/canonical-hash.ts:98-114 | one iteration is one round of section 6.2.2 of FIPS 180-4 |
| Sha256.CompressBlock | packages/contracts/src/canonical-hash.ts:89-114 | 64 iterations are the 64 rounds on the block |
| Sha256.Sha256Hex | packages/contracts/src/canonical-hash.ts:58-129 | for every input of fewer than 2^31 - 72 bytes the loops return the FIPS 180-4 digest in 64 lower-case hexadecimal digits |
| Fips180.DigestHexDecidesDigest | packages/contracts/src/canonical-hash.ts:126-128 | two hexadecimal texts are equal exactly when the digests are |
| Text.Utf8Injective | packages/contracts/src/canonical-hash.ts:59 | different strings have different UTF-8 encodings |
| Text.StringOrder | packages/contracts/src/canonical-hash.ts:31-32 | the key order by UTF-16 code units is a strict total order |
| Text.StringLessIff | packages/contracts/src/canonical-hash.ts:31-32 | one string is before another exactly where its UTF-16 code units end first or are smaller at the first difference |
| JsonRoundTrip.ReadStringify | packages/contracts/src/canonical-hash.ts:27-35 | parsing what the printer printed, with nothing left over, gives back the tree with keys sorted at every level |
| JsonRoundTrip.CanonAscends | packages/contracts/src/canonical-hash.ts:27-35 | the printed tree has its keys in ascending order at every level |
| CanonicalJson.EscapeForms | packages/contracts/src/canonical-hash.ts:28-33 | quotes, backslashes and five controls are escaped by two characters, the other controls by six, and nothing else |
| JsonRoundTrip.StringifyDecidesSame | packages/contracts/src/canonical-hash.ts:20-35 | two trees print alike exactly when they differ only in the order of object keys |
| AuditEvents.RedactionSound | packages/governance/src/redact.ts:59-84 | redaction leaves no raw value under a sensitive key, touches nothing else, and does nothing a second time |
| AuditEvents.RedactsPersonalData | packages/governance/src/redact.ts:44-84 | the values under the five personal-data keys become references that verify against them and are labelled with the key; no other value is touched |
| AuditEvents.RedactionVerifies | packages/contracts/src/redact.ts:56-86 | a reference verifies against its value, and any other value that verifies is the same up to key order, or the two payloads collide |
| AuditEvents.PayloadDeterminesEvent | packages/contracts/src/audit-event.contract.ts:34-55 | the hashed payload loses nothing of an event but the key order inside its two snapshots |
| AuditEvents.CanonicalNames | packages/contracts/src/audit-event.contract.ts:34-55 | under each of its sixteen names the payload holds the field of that name |
| AuditLedgers.AuditLedger.FromEvents | packages/governance/src/audit-ledger.ts:128-132 | a ledger loaded from a valid chain verifies after every further run of appends and still begins with what was loaded |
| AuditLedgers.AuditLedger.Append | packages/governance/src/audit-ledger.ts:100-120 | the redacted, validated event is sealed onto the tail hash, nothing else changes, a refusal leaves the chain alone, and a valid chain stays valid |
| AuditLedgers.VerifyChain | packages/governance/src/audit-ledger.ts:158-190 | valid exactly when every link and hash is good; otherwise it names the least bad index and which test failed there |
| AuditLedgers.SealKeepsVerdicts | packages/governance/src/audit-ledger.ts:100-120 | sealing changes no verdict on earlier events, and the longer chain verifies exactly when the shorter one does |
| AuditLedgers.AppendAllValid | packages/governance/src/audit-ledger.ts:90-132 | every ledger grown by appends from a valid chain verifies and keeps what it had |
| AuditLedgers.AppendAllRedacted | packages/governance/src/audit-ledger.ts:100-120 | no run of appends commits a raw sensitive value |
| AuditLedgers.HeadPinsLedger | packages/governance/src/audit-ledger.ts:145-190 | two valid non-empty chains with the same head hash have the same length and the same events, or two of their payloads collide |
| AuditLedgers.AppendAllWellFormed | packages/governance/src/audit-ledger.ts:100-120 | appending events whose snapshots are objects with distinct keys keeps every event of the chain so, also after redaction |
| AuditLedgers.HeadPinsAppends | packages/governance/src/audit-ledger.ts:100-120 | two ledgers appended to from nothing that share a head hash are the same ledger, or two of their payloads collide |
| Globs.WildcardMatchIsGlob | packages/policy/src/policy-engine.ts:249-254 | the regular expression built by escaping and expanding `*` accepts a string exactly when the glob does, `*` standing for any run without line terminators |
| Globs.MatchesItself | packages/policy/src/scope.ts:70-75 | every string matches itself used as a pattern |
| PolicyEngine.MatchSpecificity | packages/policy/src/policy-engine.ts:161-187 | the accumulated value is the specificity of the scope exactly when every constrained dimension matches |
| PolicyEngine.SpecificityIsDimensions | packages/policy/src/policy-engine.ts:161-187 | equal specificity means exactly the same dimensions are constrained |
| PolicyEngine.InScopeIff | packages/policy/src/scope.ts:22-68 | an action is in scope exactly when no scope is set, or some include matches and no exclude does |
| PolicyEngine.BestIsGreatest | packages/policy/src/policy-engine.ts:135-159 | the chosen rule is an active matching rule that precedes every other one, and there is none only when nothing matches |
| PolicyEngine.BestUnique | packages/policy/src/policy-engine.ts:135-159 | there is at most one such rule |
| PolicyVerdicts.DecidingRule | packages/policy/src/policy-engine.ts:110-159 | where some active rule matches, the decision reports a most specific one, to which every other most specific one yields: allow to ask to deny, then lower to higher version, then older to newer, then larger to smaller id |
| PolicyVerdicts.NothingMatches | packages/policy/src/policy-engine.ts:61-89 | where none matches the decision comes from no rule: ask, or allow in shadow mode |
| PolicyVerdicts.DeniedIff | packages/policy/src/policy-engine.ts:38-159 | outside shadow mode an in-scope action is denied exactly when some active matching deny rule is at least as specific as every active matching rule |
| PolicyVerdicts.AskedIff | packages/policy/src/policy-engine.ts:38-159 | and asked exactly when nothing matches, or some most specific match asks and none denies |
| PolicyVerdicts.SpecificityOrder | packages/policy/src/policy-engine.ts:161-187 | a scope is less specific than another exactly by the first of condition, target, action and tool that only one of them constrains |
| PolicyVerdicts.FieldsRead | packages/policy/src/policy-engine.ts:219-247 | each condition field reads its own place of the action |
| PolicyVerdicts.ConditionMeans | packages/policy/src/policy-engine.ts:189-217 | the comparisons hold of two numbers only and exclude each other as numbers do; != denies ==; contains is being a part or an item; matches is the glob |
| PolicyVerdicts.ScopeNames | packages/policy/src/scope.ts:22-68 | excludes come first, and the report names the first matching rule of each list |
| PolicyVerdicts.ScopeRuleCovers | packages/policy/src/scope.ts:61-68 | a rule of a proxy scope matches exactly what a policy rule of that tool, action and target would, a missing part standing for anything |
| PolicyEngine.DecisionIgnoresRuleOrder | packages/policy/src/policy-engine.ts:44-89 | any rearrangement of rules with distinct ids gives the same decision |
| PolicyEngine.AllowedIff | packages/policy/src/policy-engine.ts:44-133 | outside shadow mode an in-scope action is allowed exactly when some active matching allow rule is strictly more specific than every active matching deny or ask rule |
| PolicyEngine.BlocksNeverWiden | packages/policy/src/policy-engine.ts:44-133 | adding deny and ask rules makes no action newly allowed |
| PolicyEngine.AllowsNeverNarrow | packages/policy/src/policy-engine.ts:44-133 | adding allow rules takes no permission away and denies nothing new |
| PolicyEngine.FailsClosed | packages/policy/src/policy-engine.ts:91-108 | a failed fetch or an action or rule that does not parse denies in every mode; otherwise the engine decides, allowing everything in shadow mode |
| PolicyStores.InMemoryPolicyStore.PutRule | packages/integrations/policy-store/src/index.ts:17-23 | a valid rule under a new id goes last; an invalid or repeated one is refused and nothing changes |
| PolicyStores.InMemoryPolicyStore.UpdateRule | packages/integrations/policy-store/src/index.ts:25-31 | a valid rule replaces the one under its id in place; an unknown id is refused |
| PolicyStores.InMemoryPolicyStore.ActiveRules | packages/integrations/policy-store/src/index.ts:13-15 | exactly the stored active rules, each once, in the order of creation time and id: the full listing without the others |
| PolicyStores.InMemoryPolicyStore.ById | packages/integrations/policy-store/src/index.ts:33-35 | a rule exactly if one is stored under the id, and then that one |
| PolicyStores.FilePolicyStore.PutRule | packages/integrations/policy-store/src/index.ts:59-67 | the file is the sorted array with the rule added, or as it was when the rule is refused |
| PolicyStores.FilePolicyStore.UpdateRule | packages/integrations/policy-store/src/index.ts:69-78 | the file is the sorted array with the rule replaced, or as it was when the rule is refused |
| PolicyStores.RuleStoresAgree | packages/integrations/policy-store/src/index.ts:10-97 | on every sequence of calls the file-backed rule store gives the same answers and errors as the in-memory one |
| PolicyStores.InMemoryInterceptQueue.Enqueue | packages/integrations/policy-store/src/index.ts:102-112 | a valid action under a new id is queued last; otherwise it is refused and nothing changes |
| PolicyStores.InMemoryInterceptQueue.Pending | packages/integrations/policy-store/src/index.ts:114-118 | every waiting item exactly once, in the order of queueing time and id |
| PolicyStores.InMemoryInterceptQueue.Remove | packages/integrations/policy-store/src/index.ts:120-124 | the item under the id is returned and gone, the others stay |
| PolicyStores.FileInterceptQueue.Enqueue | packages/integrations/policy-store/src/index.ts:134-142 | the file is the sorted array with the item added, or as it was when the item is refused |
| PolicyStores.FileInterceptQueue.Remove | packages/integrations/policy-store/src/index.ts:148-154 | the item under the id is returned and filtered from the file |
| PolicyStores.QueuesAgree | packages/integrations/policy-store/src/index.ts:99-165 | on every sequence of valid calls the file-backed queue gives the same answers and errors as the in-memory one |
| ProxyHistories.InMemoryProxyHistory.Record | packages/integrations/intercept-gateway/src/history.ts:43-48 | an entry under a new id is recorded last; a repeated id is refused |
| ProxyHistories.InMemoryProxyHistory.RecordOutcome | packages/integrations/intercept-gateway/src/history.ts:50-58 | the loop over matching entries sets the outcome on every entry of the action and on no other; an action without entries is refused |
| ProxyHistories.InMemoryProxyHistory.All | packages/integrations/intercept-gateway/src/history.ts:60-65 | exactly the stored entries about the tool, action and verdict asked for, and in scope where that is asked, in the order of recording time and id |
| ProxyHistories.FileProxyHistory.Record | packages/integrations/intercept-gateway/src/history.ts:80-88 | the file is the sorted array with the entry added, or as it was when the entry is refused |
| ProxyHistories.FileProxyHistory.RecordOutcome | packages/integrations/intercept-gateway/src/history.ts:90-104 | the file is the sorted array with the outcome set on every entry of the action |
| ProxyHistories.FileProxyHistory.All | packages/integrations/intercept-gateway/src/history.ts:106-111 | the same of the entries on file |
| ProxyHistories.HistoriesAgree | packages/integrations/intercept-gateway/src/history.ts:40-128 | on every sequence of valid calls the file-backed history gives the same answers and errors as the in-memory one |
| MatchReplace.ReadPathLoop | packages/integrations/intercept-gateway/src/match-replace.ts:74-81 | the moving cursor reads what the path leads to |
| MatchReplace.ApplyMatchReplaceRulesLoop | packages/integrations/intercept-gateway/src/match-replace.ts:24-41 | the loop applies the enabled rules in order, collects the ids of those that changed the action, and stops at the first error |
| MatchReplace.RuleWritesLeaf | packages/integrations/intercept-gateway/src/match-replace.ts:55-96 | whenever a rule writes, its path is non-empty and read as a leaf; afterwards it reads as the replacement, no path appears or disappears, and every path that is neither prefix nor extension reads as before |
| MatchReplace.EmptyPathNeverMatches | packages/integrations/intercept-gateway/src/match-replace.ts:58-63 | a path without parts never gets as far as a write |
| MatchReplace.ReadBack | packages/integrations/intercept-gateway/src/match-replace.ts:83-96 | reading the written path gives the written value |
| MatchReplace.ReadElsewhere | packages/integrations/intercept-gateway/src/match-replace.ts:83-96 | a path that is neither prefix nor extension of the written one reads as before |
| MatchReplace.ObjectsOnTheWay | packages/integrations/intercept-gateway/src/match-replace.ts:86-93 | when the path reads as something, every object on the way is there already, so none is created |
| MatchReplace.WritesCommute | packages/integrations/intercept-gateway/src/match-replace.ts:83-96 | writes to two independent existing paths give the same arguments in either order |
| MatchReplace.RulesCommute | packages/integrations/intercept-gateway/src/match-replace.ts:24-65 | two argument rules on independent paths give the same action and the same applied ids in either order |
| MatchReplace.RuleAppliesIff | packages/integrations/intercept-gateway/src/match-replace.ts:43-72 | an argument rule without a path is an error; otherwise a rule applies exactly where its value, or its glob, matches what it looks at, and then replaces that and nothing else |
| MatchReplace.RulesRewrite | packages/integrations/intercept-gateway/src/match-replace.ts:24-41 | from the action to the result there is one action for each rule: a rule that is switched on and hits what the rules before it left replaces there, any other leaves it; the ids returned are those of the rules that hit, in order |
| MatchReplace.PathCuts | packages/integrations/intercept-gateway/src/match-replace.ts:55-58 | a path is cut at its dots and empty parts are dropped |
| CompileCorrection.CompileCorrectionLoop | packages/governance/src/compile-correction.ts:66-148 | the loop compiles one rule per phrase, drawing three ids and three readings each, and throws at the first phrase that does not compile; `CompiledRulesRender` says what the rules mean |
| CompileCorrection.CompiledRules | packages/governance/src/compile-correction.ts:84-106 | every compiled rule is a valid, proposed deny or ask rule under its own new id, one for each phrase, none with a predecessor |
| CompileCorrection.CompileThrowsIff | packages/governance/src/compile-correction.ts:70-73 | compilation throws exactly on an empty correction or an unsupported phrase |
| CompileCorrection.TargetPatternMatches | packages/integrations/intercept-gateway/src/gateway.ts:496-499 | the pattern made from a target matches that target |
| CorrectionScopes.TargetPatternIff | packages/integrations/intercept-gateway/src/gateway.ts:496-499 | the pattern made from a target matches every pull request for a pull request, else exactly what the target says read as a glob, which without a star is the target itself |
| CorrectionScopes.PhraseScopeIff | packages/governance/src/compile-correction.ts:165-318 | the scope compiled from a phrase matches exactly the actions the phrase is about: merges of pull requests with fewer than two approvals, or with a rejection; or the calls of its topic, on the target the correction was made on |
| CorrectionScopes.CompiledRulesRender | packages/governance/src/compile-correction.ts:66-148 | the compiled rules are, in order, one for each phrase: denying or asking as the phrase says, with its reason, about exactly what it is about, with its weight, traced to the correction and to the ids and readings drawn for it |
| CorrectionScopes.AboutItself | packages/governance/src/compile-correction.ts:270-318 | a phrase without a topic of its own is about the action the correction was made on |
| PolicyAudit.RuleRoundTrip | packages/governance/src/policy-audit.ts:142-147 | parsing the JSON of a valid rule gives back the rule |
| PolicyAudit.ReconstructPolicyRuleLifecycle | packages/governance/src/policy-audit.ts:106-140 | over a valid chain, the versions are exactly the rules the events record under the id or as superseding it, in order; a broken chain or no such event is an error |
| PolicyAudit.ReconstructionLists | packages/governance/src/policy-audit.ts:106-140 | a rule is reconstructed exactly from a valid chain that tells of it; the timeline is every event that does, in order, each version is read from its event, and the status is that of the last |
| PolicyAudit.VerdictEventSeals | packages/governance/src/policy-audit.ts:31-66 | a verdict event with non-empty names always seals, and unredacted |
| VerdictRecords.SealedVerdictIsRead | packages/governance/src/policy-audit.ts:31-66 | a sealed verdict is read back whole, action, decision and correction; its event is about the case, deal and actor of its context and cites action, rule and correction |
| VerdictRecords.SealedRuleIsRead | packages/governance/src/policy-audit.ts:75-97 | likewise a sealed rule, citing itself, its correction and its evaluation case |
| PolicyAudit.RuleOfRuleEvent | packages/governance/src/policy-audit.ts:75-97 | the rule read back from a rule event is the rule that was appended |
| InterceptGateways.InterceptGateway.Intercept | packages/integrations/intercept-gateway/src/gateway.ts:118-158 | the call validates, rewrites, decides, queues an ask, failing closed when the queue refuses, and logs, with exactly the answer and the state of the step function, also when it throws; `InterceptRewrites` says what that leaves |
| InterceptGateways.InterceptGateway.Repeater | packages/integrations/intercept-gateway/src/gateway.ts:187-202 | a given or recorded action is decided again in the given mode and logged, and nothing is queued; `RepeaterRewrites` says what that leaves |
| InterceptGateways.InterceptGateway.OperatorVerdict | packages/integrations/intercept-gateway/src/gateway.ts:237-355 | the item leaves the queue first; an approval logs, compiles and stores one allow rule, a drop logs, compiles and stores its proposals, and each fault leaves the state reached so far |
| InterceptGateways.InterceptGateway.StoreProposed | packages/integrations/intercept-gateway/src/gateway.ts:311-347 | the loop stores and audits each proposal, and its activation when asked, stopping at the first fault |
| InterceptGateways.InterceptGateway.CompileApprovalRule | packages/integrations/intercept-gateway/src/gateway.ts:440-477 | the compiled rule is an active allow rule under two new ids for the scope that `ApprovalScopeIff` gives the meaning of |
| InterceptGateways.InterceptGateway.ForwardAll | packages/integrations/intercept-gateway/src/gateway.ts:212-222 | forwarding the pending items one by one, stopping at the first that throws |
| InterceptGateways.InterceptGateway.DropAll | packages/integrations/intercept-gateway/src/gateway.ts:224-235 | dropping the pending items one by one, stopping at the first that throws |
| InterceptGateways.InterceptGateway.RecordOutcome | packages/integrations/intercept-gateway/src/gateway.ts:168-185 | the outcome is set in the history and appended to the ledger; or the history refuses and nothing changes; or the history has it and the ledger refuses the event |
| InterceptGateways.InterceptGateway.LogVerdict | packages/integrations/intercept-gateway/src/gateway.ts:357-402 | a verdict is appended to the ledger and then recorded in the history |
| GatewayEntries.InterceptRewrites | packages/integrations/intercept-gateway/src/gateway.ts:118-158 | the action that the match-and-replace rules make of the incoming one is decided, queued as an ask, recorded and audited; the incoming one and the ids of the rules are kept beside it exactly when some rule applied |
| GatewayEntries.InterceptRefuses | packages/integrations/intercept-gateway/src/gateway.ts:118-120 | an action that does not parse, or that a rewriting rule fails on, is refused and nothing changes |
| GatewayEntries.RepeaterRewrites | packages/integrations/intercept-gateway/src/gateway.ts:187-202 | the given or recorded action, rewritten where asked for, is decided in the mode asked for, recorded and audited, and never queued |
| GatewayEntries.OperatorNotes | packages/integrations/intercept-gateway/src/gateway.ts:237-310 | a verdict that goes through is recorded and audited on the edited action, with the queued one beside it, or on the queued one; the item leaves the queue and the event cites the correction drawn first |
| GatewayEntries.OutcomeNotes | packages/integrations/intercept-gateway/src/gateway.ts:168-185 | the outcome is set on every entry of its action and on no other, and its event tells it as it is |
| GatewayInvariants.LogKeeps | packages/integrations/intercept-gateway/src/gateway.ts:357-402 | with fresh ids logging never fails, adds one entry, and keeps ledger, history and stores in agreement |
| GatewayRuns.JudgeKeeps | packages/integrations/intercept-gateway/src/gateway.ts:118-158 | with fresh ids intercepting never fails, adds one history entry, and queues exactly the asks |
| GatewayRuns.OperatorKeeps | packages/integrations/intercept-gateway/src/gateway.ts:237-355 | an operator verdict keeps the invariant, and what it adds to rules, queue and history is exactly what its answer says |
| GatewayRuns.StepKeeps | packages/integrations/intercept-gateway/src/gateway.ts:80-402 | every call keeps the invariant, and the rule list only grows |
| GatewayRuns.RunKeeps | packages/integrations/intercept-gateway/src/gateway.ts:80-402 | so does every run |
| GatewayRuns.SessionKeeps | packages/integrations/intercept-gateway/src/runtime.ts:33-60 | a session with a new ledger, over empty or kept stores under ids it does not draw, keeps the invariant to its end, and its rule list begins with the kept rules |
| GatewayTheorems.LedgerReplaysStore | packages/governance/src/policy-audit.ts:106-140 | in every session, over empty or kept stores, reconstruction over the new ledger ends in exactly the stored version of each rule the session stored and finds nothing for any other id, and every kept rule is as it was |
| GatewayTheorems.LedgerFollowsHistory | packages/integrations/intercept-gateway/src/gateway.ts:357-402 | in every session the verdict events are the history entries after the kept ones, one to one and in order, and each is read back as the action and the whole decision of its entry |
| GatewayCoverage.ApprovalScopeMatches | packages/integrations/intercept-gateway/src/gateway.ts:480-499 | the scope compiled from an approved action matches that action (`ApprovalScopeIff` says what else) |
| CorrectionScopes.ApprovalScopeIff | packages/integrations/intercept-gateway/src/gateway.ts:480-499 | that scope matches exactly the actions with the same tool, action and target, any pull request standing for a pull request, and, for a merge with a number of approvals, at least as many |
| GatewayCoverage.OperatorGrows | packages/integrations/intercept-gateway/src/gateway.ts:237-355 | for any stored rules, ids, clock and ledger, in memory or on file, and also when it throws, an operator verdict keeps every stored rule and adds only valid ones, allow rules for a forward and blocking rules for a drop; a forward that goes through stores an active rule for its action |
| GatewayCoverage.RunStores | packages/integrations/intercept-gateway/src/gateway.ts:80-402 | whatever runs, in memory or on file, stored rules stay stored and no invalid rule is added |
| GatewayCoverage.LearnedCoverage | packages/integrations/intercept-gateway/src/gateway.ts:248-297 | after a forward that goes through, from any store of valid rules, along every continuation and in every mode, the forwarded action is decided by a rule as long as it is in scope |
| GatewayTheorems.ForwardsAreLearned | packages/integrations/intercept-gateway/src/gateway.ts:248-297 | in every session each forward of a pending item, kept or new, with a valid action is learned so |
| GatewayCoverage.DropNeverWidens | packages/integrations/intercept-gateway/src/gateway.ts:299-347 | outside shadow mode, for all prior rules and all actions, a drop, activated or not and even when it throws, makes no action newly allowed |
| GatewayCoverage.ForwardNeverNarrows | packages/integrations/intercept-gateway/src/gateway.ts:248-297 | outside shadow mode, for all prior rules and all actions, a forward makes no allowed action not allowed and no undenied action denied |
| GatewayScopes.ForwardWidensOnly | packages/integrations/intercept-gateway/src/gateway.ts:248-297 | outside shadow mode, for all prior rules, ids and clocks, in memory and on file, every action that a forward newly allows is one approved alike |
| GatewayScopes.ForwardAllWidensOnly | packages/integrations/intercept-gateway/src/gateway.ts:212-222 | and forwarding everything newly allows only actions like some pending one |
| GatewayScopes.ForwardGrants | packages/integrations/intercept-gateway/src/gateway.ts:248-297 | a forward that goes through stores exactly one rule: active, allowing, of version 1, for the actions approved alike, traced to the correction drawn first, under the ids and the reading drawn for it |
| GatewayBatches.ForwardAllAnswers | packages/integrations/intercept-gateway/src/gateway.ts:212-222 | forwarding everything, when it goes through, answers each pending item, in order, with an approval of the class of its action, stores nothing else and empties the queue |
| GatewayScopes.DropRenders | packages/integrations/intercept-gateway/src/gateway.ts:299-347 | a drop that goes through stores exactly one rule for each phrase of its reason, rendering it, active if asked for, traced to the correction drawn first |
| GatewayBatches.DropAllAnswers | packages/integrations/intercept-gateway/src/gateway.ts:224-235 | dropping everything, when it goes through, stores for each pending item, in order, the rules of the reason read on its action, active exactly if asked for, and empties the queue |
| GatewayScopes.DropAllowsIff | packages/integrations/intercept-gateway/src/gateway.ts:299-347 | after an activated drop an in-scope action is allowed exactly if a stored approval beats every stored block and is more specific than every compiled rule that matches |
| GatewayScopes.DropBlocks | packages/integrations/intercept-gateway/src/gateway.ts:299-347 | what a phrase of an activated drop is about is not allowed afterwards, unless a stored approval of it is more specific than the phrase |
| GatewayScopes.DropBlocksItself | packages/integrations/intercept-gateway/src/gateway.ts:299-347 | so it is of the dropped action itself for a phrase without a topic of its own |
| GatewayScopes.MergeDropDenies | packages/governance/src/compile-correction.ts:173-205 | a correction about merges without approvals or with a rejection denies every such merge, whatever else is stored |
| GatewayScopes.ApprovalOutlivesDrop | packages/integrations/intercept-gateway/src/gateway.ts:299-347 | dropping a merge with "never do that" does not block it where a like merge with its approvals was forwarded before |
| GatewayScopes.ProposedDropDecidesAlike | packages/integrations/intercept-gateway/src/gateway.ts:329-346 | a drop whose rules stay proposed changes no decision |
| GatewayCoverage.AllPendingAlike | packages/integrations/intercept-gateway/src/gateway.ts:212-235 | the same of dropping and of forwarding everything that is pending |
| GatewayTheorems.DropStoresBlocks | packages/integrations/intercept-gateway/src/gateway.ts:299-347 | a drop of a pending item with a reason stores its compiled rules after the others, all deny or ask, all active or all proposed as asked; or the reason did not compile and no rule changed |
| GatewayTheorems.QueueRefusalDenies | packages/integrations/intercept-gateway/src/gateway.ts:125-148 | when the queue refuses an ask, the call answers the denial and records exactly it, or throws what the log throws and records nothing; either way nothing is queued and no rule changes |
| GatewayTheorems.OperatorConserves | packages/integrations/intercept-gateway/src/gateway.ts:237-310 | an operator verdict loses exactly one ask, the pending one it names, if the gateway cannot act on the input, and otherwise none; where no id has two verdicts, or one and a pending item, none comes to |
| GatewayTheorems.CarelessLosesAsk | packages/integrations/intercept-gateway/src/gateway.ts:237-244 | from empty stores, one asked action and then any verdict the gateway cannot act on: the ask is neither pending nor answered |
| GatewayTheorems.EmptyReasonLosesAsk | packages/integrations/intercept-gateway/src/gateway.ts:299-306 | so for a drop with an empty reason |
| GatewayTheorems.InvalidEditLosesAsk | packages/integrations/intercept-gateway/src/gateway.ts:242-244 | so for a verdict with an edited action that does not parse |
| GatewayTheorems.QueueItemsConserved | packages/integrations/intercept-gateway/src/gateway.ts:118-355 | in every session, over empty or kept stores: if no id begins with two operator verdicts, or with one and a pending item, none comes to have two; no call brings a lost ask back, and with reasons given and valid edits no ask gets lost |
| GatewayTheorems.ForwardAllEmptiesQueue | packages/integrations/intercept-gateway/src/gateway.ts:212-222 | after every run of a session forwarding all succeeds, empties the queue, kept items included, and returns for each pending item, in order, one rule scoped to its action |
| GatewayMedia.GatewaysAgree | packages/integrations/intercept-gateway/src/runtime.ts:33-60 | from any sound stores, kept ones included, every run of valid calls gets the same answers and the same faults from the gateway over files as from the one in memory |
| GatewayMedia.RunsAlike | packages/integrations/intercept-gateway/src/runtime.ts:33-60 | and leaves the same ledger, settings and counters, and files that hold the same entries, sorted |
| GatewaySessions.FiledLedgerReplaysStore | packages/integrations/intercept-gateway/src/runtime.ts:33-60 | the ledger of a session over kept files replays exactly the rules that the session wrote, and the kept rules are as they were |
| GatewaySessions.FiledItemsConserved | packages/integrations/intercept-gateway/src/runtime.ts:33-60 | the same over kept files |
| GatewaySessions.FiledForwardAllEmptiesQueue | packages/integrations/intercept-gateway/src/runtime.ts:33-60 | over kept files forwarding all succeeds and empties the queue file |
| GatewaySessions.SessionsFollow | packages/integrations/intercept-gateway/src/runtime.ts:33-60 | the files a session leaves are ones the next session may begin with, if that draws ids the files do not know; pending and answered ids stay apart, and lost asks are counted alike |
| GatewaySessions.SessionsConserve | packages/integrations/intercept-gateway/src/runtime.ts:33-60 | over any number of sessions on the same files no queue id comes to have two operator verdicts, and if all calls are careful every ask of any session is pending or answered at the end |
| RequirementStores.InMemoryRequirementStore.Create | packages/integrations/requirement-store/src/index.ts:86-99 | a proposal with a drawn id is appended; a repeated id or an invalid draft is refused and the log untouched |
| RequirementStores.InMemoryRequirementStore.Approve | packages/integrations/requirement-store/src/index.ts:101-115 | the current proposal is appended as active with approver and time; any other status is an invalid transition |
| RequirementStores.InMemoryRequirementStore.Reject | packages/integrations/requirement-store/src/index.ts:117-126 | the current proposal is appended as rejected; any other status is an invalid transition |
| RequirementStores.InMemoryRequirementStore.Retire | packages/integrations/requirement-store/src/index.ts:128-137 | the current active version is appended as retired; any other status is an invalid transition |
| RequirementStores.InMemoryRequirementStore.Amend | packages/integrations/requirement-store/src/index.ts:139-156 | the current version with the given fields revised is appended, unless it is terminal |
| RequirementStores.InMemoryRequirementStore.Current | packages/integrations/requirement-store/src/index.ts:190-196 | the backward scan finds the newest version of the id |
| RequirementStores.InMemoryRequirementStore.HistoryOf | packages/integrations/requirement-store/src/index.ts:165-173 | exactly the versions of the id, at increasing positions of the log, none left out; not found exactly when there is none |
| RequirementStores.InMemoryRequirementStore.ActiveWhere | packages/integrations/requirement-store/src/index.ts:199-203 | the forward map scan lists exactly the current versions that are active and match, each id once |
| RequirementStores.InMemoryRequirementStore.ActiveByScope | packages/integrations/requirement-store/src/index.ts:183-185 | exactly the current active versions that govern the surface |
| RequirementStores.ByIdIsLatest | packages/integrations/requirement-store/src/index.ts:190-203 | the forward map scan and the backward scan agree on what is current, for every id |
| RequirementStores.RunLawful | packages/integrations/requirement-store/src/index.ts:86-156 | in every run, for every id, the statuses are proposed one or more times, then nothing, one rejected, or active one or more times and at most one retired; identity never changes; approval data is present from activation on and never changes |
| RequirementStores.CallFollows | packages/integrations/requirement-store/src/index.ts:86-156 | a failed call leaves the log untouched; a successful one appends one version that may follow the current one |
| RequirementStores.RunAppends | packages/integrations/requirement-store/src/index.ts:73-78 | the log of a run is a prefix of the log of every continuation |
| RequirementStores.TransitionsIff | packages/integrations/requirement-store/src/index.ts:101-156 | exactly when each transition and amendment goes through, on the log of any run |
| RequirementStores.ProposalHoldsDraft | packages/integrations/requirement-store/src/index.ts:86-99 | a proposal holds the draft as it was given, and nothing of an approval |
| RequirementStores.AmendRevises | packages/integrations/requirement-store/src/index.ts:139-156 | an amendment revises exactly the fields it gives and leaves the lifecycle as it was |
| RequirementStores.TransitionKeepsContent | packages/integrations/requirement-store/src/index.ts:101-137 | approving, rejecting and retiring leave the content as it was; only approving notes who and when |
| RequirementStores.RefusalSays | packages/integrations/requirement-store/src/index.ts:101-156 | a refused call names what is missing, the status that does not allow the move and its aim, or the record that is not valid |
| RequirementChecks.RunsInOrder | packages/governance/src/active-requirement-checker.ts:130-132 | the raw tokens are the texts of all longest stretches of word characters, each one, from left to right |
| RequirementVerdicts.TokenIff | packages/governance/src/active-requirement-checker.ts:122-134 | a token is a longest stretch of word characters of the lower-case text, of two or more, that is no stopword |
| RequirementChecks.CheckRequirements | packages/governance/src/active-requirement-checker.ts:253-294 | the loop reports one finding per active requirement in scope, in order, lists every other id as skipped, and passes exactly when no finding opens a case; `StatusIff` and `ReportLists` say what the findings mean |
| RequirementVerdicts.StatusIff | packages/governance/src/active-requirement-checker.ts:172-246 | the status by what the subject says: contradicted if some phrase reports a violation; else missing, or unsupported where it claims to be on track, if some phrase reports a drop; else without an owner if one is needed and not shown; else satisfied exactly if three fifths of the tokens of the statement are found in its text |
| RequirementVerdicts.CitedPhrase | packages/governance/src/active-requirement-checker.ts:224-234 | the phrase a finding cites is the first that reports the violation, or else the drop |
| RequirementVerdicts.InScopeIff | packages/governance/src/active-requirement-checker.ts:200-210 | a requirement is in scope exactly if the subject speaks for the whole deal or some surface of each have like tokens |
| RequirementVerdicts.OuterBlanksDoNotMatter | packages/governance/src/active-requirement-checker.ts:191-193 | an owner role with blanks around it is compared as the role without them |
| RequirementVerdicts.ReferencesIff | packages/governance/src/active-requirement-checker.ts:141-165 | a phrase references a requirement exactly if it has tokens and each is like some token of the statement, a surface or the owning role |
| RequirementVerdicts.ReportLists | packages/governance/src/active-requirement-checker.ts:253-294 | the findings are, in order, those on the active requirements in scope, with their severity, role and surfaces; each opens a case exactly if its requirement is hard and not satisfied |
| RequirementVerdicts.OutputSpeaks | packages/governance/src/active-requirement-checker.ts:326-340 | an output is checked for the whole deal, by its summary and all its artifacts, with its claim and its drops |
| RequirementVerdicts.DropViolates | packages/governance/src/active-requirement-checker.ts:224-294 | an output that reports a drop of an active hard requirement fails its report, as unsupported where it claims to be on track |
| RequirementVerdicts.DropOpensCase | packages/governance/src/requirement-case.ts:302-309 | and where ids are distinct the requirement has a live case afterwards |
| RequirementChecks.TokenizeJoined | packages/governance/src/active-requirement-checker.ts:130-134 | tokenizing two texts joined by a space concatenates their tokens |
| RequirementChecks.SatisfiedGains | packages/governance/src/active-requirement-checker.ts:172-246 | a satisfied requirement stays satisfied when the text has more tokens |
| RequirementChecks.PassedIff | packages/governance/src/active-requirement-checker.ts:253-294 | a report passes exactly when every active hard requirement in scope is satisfied |
| RequirementChecks.ArtifactsOnlyHelp | packages/governance/src/active-requirement-checker.ts:326-340 | appending artifacts turns no satisfied requirement unsatisfied and no passing report failing |
| RequirementChecks.ArtifactOrderIrrelevant | packages/governance/src/active-requirement-checker.ts:326-340 | an output with the same artifacts in any order and any number gets the same classification of every requirement, phrase included, and the same report |
| CaseOpenings.InMemoryGovernanceCaseStore.Open | packages/integrations/governance-case-store/src/index.ts:12-14 | the case is set under its id, a new one last, a present one in place |
| CaseOpenings.InMemoryGovernanceCaseStore.Correct | packages/integrations/governance-case-store/src/index.ts:16-19 | a present case becomes corrected in place; an absent one changes nothing |
| CaseOpenings.InMemoryGovernanceCaseStore.ByDeal | packages/integrations/governance-case-store/src/index.ts:21-23 | exactly the cases of the deal, at increasing positions of the store, none left out and none twice |
| CaseOpenings.GovernanceCaseForFinding | packages/governance/src/requirement-case.ts:125-167 | succeeds exactly for a case-opening finding on this very requirement, with a live case for its text on its deal; `OpeningSays` says the rest |
| CaseOpenings.LiveCasesFor | packages/governance/src/requirement-case.ts:246-258 | the index filled from one read of the store gives, for every text, the first live case on the deal |
| CaseOpenings.OpenCasesFromReport | packages/governance/src/requirement-case.ts:234-295 | with fresh ids the loop over the lazy cache opens, skips and throws exactly as a fresh read of the store for every finding would |
| CaseOpenings.NeverTwoLive | packages/governance/src/requirement-case.ts:234-295 | whether it returns or throws, a call only adds cases and never raises the live cases of a text on a deal above one |
| CaseOpenings.EveryFindingCovered | packages/governance/src/requirement-case.ts:263-294 | opened plus deduplicated equals the findings, and each finding's requirement has a live case afterwards |
| CaseOpenings.RerunOpensNothing | packages/governance/src/requirement-case.ts:225-233 | running the same report again opens nothing and changes nothing |
| CaseOpenings.OpensIff | packages/governance/src/requirement-case.ts:263-271 | a report of case-opening findings goes through exactly when every requirement it cites is known |
| CaseOpenings.OpeningSays | packages/governance/src/requirement-case.ts:109-293 | every new case is open and blocking for the requirement of some finding, with its surfaces as missing, its evidence, the category of its failure and actions that name it; every duplicate names the live case that made it one |
| CaseOpenings.CategoriesDiffer | packages/governance/src/requirement-case.ts:169-184 | different failures have different categories |
| CaseOpenings.LiveUnlessTerminal | packages/governance/src/requirement-case.ts:56-66 | a case is live unless it is dismissed or closed |
| CheckedCases.OwnCaseIff | packages/governance/src/requirement-case.ts:234-295 | each finding gets a case of its own exactly when no cited text is live on its deal yet and no two findings cite the same text on the same deal |
| CheckedCases.SharedTextDedupes | packages/governance/src/requirement-case.ts:273-280 | two valid, violated requirements with distinct ids and one text on one deal: one case opened, one finding deduplicated |
| AmendedCases.SecondCaseIff | packages/integrations/requirement-store/src/index.ts:139-156 | a violated requirement has a case, is amended and violated again: both texts then have a live case on its deal, and the second check opens one for it exactly if the new text had none |
| AmendedCases.AmendedHasTwoCases | packages/governance/src/requirement-case.ts:27-30 | one requirement created, approved and amended, with two live cases on its deal |
| CheckedCases.LiveAfterIff | packages/governance/src/requirement-case.ts:263-294 | afterwards exactly those texts have a live case on a deal that had one or that some finding cites |
| CheckedCases.CheckedCasesOpen | packages/governance/src/requirement-case.ts:302-323 | opening cases for a checked subject never throws; afterwards exactly those texts are live that were or that the last requirement under a violated one's id has; every new case cites a violated active hard requirement if and only if, wherever a case is due and none is live, some violated requirement has the text it will cite |
| CheckedCases.DistinctIdsAttribute | packages/governance/src/requirement-case.ts:240-271 | distinct requirement ids are enough for that, and then every violated requirement has a live case afterwards |
| CheckedCases.OpenCasesForAgentOutput | packages/governance/src/requirement-case.ts:302-309 | the same for an agent output, over the store: never an error, exactly these live texts, and the same exact condition for justified cases |
| CheckedCases.SharedIdMisattributes | packages/governance/src/requirement-case.ts:240-271 | two valid requirements under one id: the case cites the later, retired one, which nothing violates |
| CheckedCases.SharedIdCanAttribute | packages/governance/src/requirement-case.ts:240-271 | the same two in the other order share the id as well, and the condition holds for every subject and store |
| GovernanceCases.CasePayloadDeterminesCase | packages/contracts/src/governance-case.contract.ts:37-54 | the hashed payload determines the case |
| GovernanceCases.CanonicalCaseNames | packages/contracts/src/governance-case.contract.ts:37-54 | under each of its twelve names the payload holds the field of that name |
| GovernanceCases.CaseRoundTrip | packages/governance/src/audit-reconstruction.ts:146-149 | every valid case is read back from its snapshot |
| CaseReconstructions.ReconstructCaseLifecycleFromEvents | packages/governance/src/audit-reconstruction.ts:56-136 | the loop with its checks in their order is the checked fold over the case's events, with the head hash of the chain |
| CaseReconstructions.ReconstructsIff | packages/governance/src/audit-reconstruction.ts:56-119 | reconstruction succeeds exactly on a valid chain whose events for the case, at least one, carry snapshots of that case and one deal, each before-snapshot hashing like the after-snapshot before it |
| CaseReconstructions.ReconstructionIsSound | packages/governance/src/audit-reconstruction.ts:76-136 | one transition per event, with its action and time, all on one deal; each starts from the status the previous ended with, or two named snapshots collide; the lifecycle is the end statuses with adjacent repeats removed; the action and evaluation ids are those the events name, each once; the head is that of the chain |
| CaseReconstructions.ReconstructionNamesBreak | packages/governance/src/audit-reconstruction.ts:56-124 | a reconstruction that fails says why: a broken chain, no event of the case, or, at the first event that does not go on with the story of those before it, the first check that this fails |
| CaseReconstructions.ReconstructionExtends | packages/governance/src/audit-reconstruction.ts:56-136 | one more event of another case changes the head hash alone; one of this case adds one transition at the end |
| CaseReconstructions.OtherCasesDoNotMatter | packages/governance/src/audit-reconstruction.ts:70-136 | two valid chains with the same events for the case, links aside, reconstruct alike but for the head hash |
| CaseReconstructions.InterleavingDoesNotMatter | packages/governance/src/audit-reconstruction.ts:56-136 | ledgers appended with the same events of a case, however interleaved with others, reconstruct it alike but for the head hash |
| CaseReconstructions.ReconstructCaseLifecycle | packages/governance/src/audit-ledger.ts:216-263 | on a valid chain with events for the case, the case status is the last one any event asserts, open if none does, and the deal status is the last event's |
| Escalations.EscalationSeries | packages/policy/src/escalation-metric.ts:10-22 | sample i counts the asks among the first i + 1 decisions and gives their share |
| Escalations.AsksCount | packages/policy/src/escalation-metric.ts:10-22 | the asks counted are the positions at which the decision asks |
| Escalations.FinalEscalationRate | packages/policy/src/escalation-metric.ts:24-28 | the share of asks in all decisions, between 0 and 1, and 0 for none |
| Escalations.IsMonotonicNonIncreasing | packages/policy/src/escalation-metric.ts:30-35 | comparing neighbours decides whether any later rate exceeds an earlier one |
| Escalations.MonotoneIffAsksFormPrefix | packages/policy/src/escalation-metric.ts:10-35 | the rate never rises exactly when the asks form a prefix of the decisions |
| Escalations.CountSafetyRegressions | packages/policy/src/escalation-metric.ts:37-47 | the number of positions where a denial was expected and the decision allows |

## Left out

- Strings have no lone surrogates, and `localeCompare` is the order by UTF-16 code units; locale-dependent collation and JavaScript prototype keys are outside the model.
- JSON numbers are integers with their exact decimal text, which is what JavaScript prints up to 2^53; larger magnitudes are inexact there and take exponents from 10^21 on, and fractions, NaN, negative zero and `undefined` inside JSON are not modelled, and rates are exact, so the rounding of very long series is not.
- Asynchronous calls are atomic steps; interleavings of concurrent gateway calls are not modelled.
- The files of the file-backed stores are the arrays written to them; file systems, renames and JSON parsing of files are not modelled.
- A time stamp is checked for its shape, not for calendar ranges.
- Splitting a correction into phrases and reading a phrase are data (`Env.phrases` gives the compiled templates); the English matching is not part of this model. Evaluation cases, enforcement actions and previews are not modelled beyond the ids and readings they draw.
- The provenance fields of an intercepted action (agent, session, goal, lane) are left out; they decide nothing.
- `canonicalHash` is used as a function on the ledger side; `Sha256Hex` is proved equal to it for inputs shorter than 2^31 - 72 bytes.
- Printing maps every member and then sorts, where the code sorts the keys and then maps; the printed text is the same.
- The write along a path is a recursion on the value, where the code moves a cursor through a clone; aliasing inside the clone is not modelled.
- The parse of a rule snapshot drops unknown properties instead of refusing them; no event the engine writes has any.
- Store failures other than the one `decideFromStore` and the queue catch are not modelled.
- Lower-casing covers ASCII and the two letters that lower to ASCII ones; other letters keep their case, which shows only in comparing asserted owner roles.
- The detail strings of findings, the projection of an intercepted action onto a check subject, and `openCasesForInterceptedAction` are not modelled; the theorems on check subjects cover it.
- The share of statement tokens is compared as 5p >= 3n.
- The default id source numbers the ids of a process id, which an operating system may use again; what is said of sessions over kept files asks that ids do not repeat.
- React screens, HTTP servers, command lines, foreign clients, loaders, the policy router, goal alignment, the evaluation library and the approval gate are not part of this model.
