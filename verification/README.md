# Verified model of the assessment and remediation core

This project models, in Dafny, the parts of the repository whose correctness spans many statements
or many functions, and proves what they guarantee together.

**The remediation execution protocol.** Four schema revisions install CHECKs, unique indexes and
triggers over proposals, decisions, executions, their event journal, worker claims, target
reservations, verifications and receipts. `Protocol` states each guard once; one accepted INSERT or
UPDATE is one atomic `Step`, a refused one changes nothing, and arbitrary clients are arbitrary
sequences of steps. Reachable databases are `Run(Empty(), steps)`. `Journals`, `Invariants`,
`RunSafety`, `Causality` and `JournalReach` derive fencing, the single intent, permanent quarantine,
attempt budgets, the chain behind every receipt and the exact language of journals. `Downgrade`
relates revision 0008 to the later ones. `Store` is the database itself, a class whose methods update
its tables in place, keep the invariant whatever the order of calls, and say what an accepted statement
means for its caller.

**Scan history.** `ScanGraph` models scans and their evidence-graph tables with the gate a scan
passes when it becomes terminal; `Catalog` models the membership freeze of a referenced catalog.

**The evidence-graph validator.** `Records` keeps records once each by identifier;
`GraphAcceptance` is the validator, with its loops and dictionaries, proved to accept exactly the
complete graphs; `GraphMeaning` says what a constructed graph is and what construction does not
depend on. `KmsManifest` specifies the S3-to-KMS edge manifest, `ManifestCheck` is the three-pass
check, `ManifestMeaning` what an accepted manifest says. `TrailManifest` specifies and checks both
CloudTrail manifests, the sources of every trail and the edges of their destinations, `TrailMeaning`
says what an accepted one means, and `TrailWitness` is one trail with all its sources.
`ResourceAdmission` admits inventory resources beside a graph. `S3Encryption` holds the encryption
normaliser and validator over JSON. `Identities` treats the delimiter-joined identity seeds.

**Cached proofs.** `Sources` is source resolution, `Governance` and `IamPolicy` the two proofs
computed afresh, `TagChain` the sources and field checks behind one resource's tags, `TagVerdict` the
required-tag verdict and the form tags travel in, `IamMeaning` what an accepted IAM population says,
`IamWorld`, `IamAdmitted` and `IamWitness` two snapshots that pass everything before the one-context
check and fail it, and `Readers` the reader with its indexes, its caches and its mutable ledgers.

Modelling conventions:

- Time is an integer number of microseconds; UUIDs are numbers, primary keys constants once inserted.
- A name-based UUID, a SHA-256 digest, a UUID's text and canonical JSON text are functions the
  members receive; where a theorem needs them injective it says so (`Collisionless`, `Injective`).
- SQL three-valued logic is written out where a column is nullable: claim intent, readback start,
  first event's previous digest. The journal CHECK alone lets a NULL previous digest through, because
  a CHECK refuses only what is false; the trigger is what refuses it.
- A refusal is `None` or `false`; which message is raised is not modelled. The cached governance
  failure is raised again with a different message than the first time; both are the same refusal.
- In `Identities`, `KmsManifest`, `ResourceAdmission` and `IamMeaning`, preconditions such as
  `ValidResource`, `IdentitiesValid` and `RecordsValid` restate what constructing the records has
  already checked.

- In the concrete graphs (`Numbered`, `TrailWitness`, `IamWorld`) sources are numbered in order: outcome
  and artifact identifiers are those numbers and digests are placeholders, because deriving them from
  the content happens when the records are constructed, which is not part of this model.

Results that came out as exact conditions rather than as plain promises:

- The transition table alone admits two acknowledgements; the unique index is what forbids them.
- `region or "global"` is ambiguous on its own; seeds agree exactly up to that default, and the scope
  rule of validated records is what makes them injective.
- An inline policy of the collection account has one usage context for every retained record of its
  owner, and an inline policy of another account has none. `IamWitness` builds a snapshot of each failing
  kind: one user retained twice, and one policy of another account under the resource identifier of a
  local policy. Both graphs are constructed, both inventories admitted and both populations accepted,
  and then the one-context check refuses that policy's proof. The foreign policy has what admission asks
  of any external resource (app/assessment/evidence_graph.py:4478-4494): authoritative evidence of its
  owner, and a resolved edge, from an Access Analyzer finding, which may refer to a resource of any type
  (app/assessment/relationships.py:157-160).
- Repeating a relationship in a submission never changes what is stored, and is refused in exactly two
  cases: a CloudTrail trail's edge, in a scan with CloudTrail evidence, and an S3-to-KMS edge of which
  there are already as many copies as the evidence holds references. `TrailWitness` is an input of the
  first kind: one trail with its discovery, its five sources and its bucket edge is constructed, and the
  same submission with the edge repeated is refused.

## Model

| member | source | states |
|---|---|---|
| Journals.TableLanguage | alembic/versions/20261008_0009_remediation_worker.py:146-157 | the transition table generates exactly REQUESTED CLAIMED* with one of the permitted endings: both inclusions |
| Journals.SingleIntent | alembic/versions/20261008_0009_remediation_worker.py:146-157 | a journal the table lets through holds at most one WRITE_INTENT, with no help from the unique index |
| Journals.TableAdmitsTwoAcknowledgements | alembic/versions/20261008_0009_remediation_worker.py:272-279 | the table alone lets two acknowledgements through, so the unique index is needed |
| Journals.IntentExcludesEndings | alembic/versions/20261008_0009_remediation_worker.py:146-157 | a journal with a write intent, a verdict or an observation never holds EXPIRED, BLOCKED or NO_WRITE |
| Journals.EffectNeedsIntent | alembic/versions/20261008_0009_remediation_worker.py:146-157 | every verdict or observation comes after a write intent that directly follows a claim |
| Journals.NextInSequence | alembic/versions/20261008_0009_remediation_worker.py:143-148 | an accepted event carries exactly the next sequence number and succeeds the last event |
| JournalReach.ReachableJournals | alembic/versions/20261008_0009_remediation_worker.py:31-42 | a word is the journal of some execution in some reachable database if and only if it is in the language and has at most one acknowledgement |
| JournalReach.ReachableJournalOrdered | alembic/versions/20261008_0009_remediation_worker.py:143-148 | reachable journals are gap-free, chained by digest, and never go back in time |
| Invariants.StepKeepsInv | alembic/versions/20261008_0009_remediation_worker.py:133-232 | every accepted statement of any client keeps the invariant over all tables |
| Invariants.ReachableInv | alembic/versions/20261013_0010_remediation_verification.py:55-100 | every state reachable from the empty tables satisfies the invariant |
| Invariants.NoTakeoverAfterIntent | alembic/versions/20261008_0009_remediation_worker.py:222-229 | once an intent is journaled, the condition for rotating a claim can never hold again |
| Invariants.TerminalScanFrozen | alembic/versions/20260903_0001_canonical_assessment_history.py:251-277 | no accepted statement rewrites or removes a terminal scan |
| RunSafety.TakeoverFences | alembic/versions/20261008_0009_remediation_worker.py:146-163 | after a takeover is journaled against a claim of generation g, a write intent is accepted only once the row has rotated past g, however many steps lie between |
| RunSafety.NotBeforeHistory | alembic/versions/20261008_0009_remediation_worker.py:146-148 | a new event is no earlier than any event before it in its journal |
| RunSafety.IntentFreezesClaim | alembic/versions/20261008_0009_remediation_worker.py:207-232 | from the write intent on, over any later run, token, generation and lease never change, stamped or not |
| RunSafety.ClaimStartsUnstamped | alembic/versions/20261008_0009_remediation_worker.py:194-206 | every accepted claim insert is unstamped: no intent can exist before the claim row |
| RunSafety.StampIsTheIntent | alembic/versions/20261008_0009_remediation_worker.py:218-221 | a stamp names the only write intent of the execution, in every later state |
| RunSafety.OneIntent | alembic/versions/20261008_0009_remediation_worker.py:146-157 | two write intents of one execution are the same event |
| RunSafety.BudgetsBoundTheRun | alembic/versions/20261008_0009_remediation_worker.py:212-215 | all rises of each attempt counter over a whole run, takeovers included, sum to its value and to at most three |
| RunSafety.ReadbackStartFixed | alembic/versions/20261008_0009_remediation_worker.py:216-217 | the readback window opens once and its start never moves |
| RunSafety.OneHolder | alembic/versions/20261007_0008_execution_admission.py:197-214 | in every reachable state two holders share a scope exactly when they are one execution |
| RunSafety.StepKeepsHold | alembic/versions/20261008_0009_remediation_worker.py:185-193 | no statement takes a scope from an execution that is not terminal |
| RunSafety.ReleasedOnlyWhenTerminal | alembic/versions/20261008_0009_remediation_worker.py:185-193 | a scope leaves an execution only at a moment when that execution is terminal |
| RunSafety.QuarantineNotTerminal | alembic/versions/20261008_0009_remediation_worker.py:123-130 | a quarantined execution is never terminal, whatever else was journaled |
| RunSafety.QuarantineStays | alembic/versions/20261008_0009_remediation_worker.py:123-130 | quarantine is permanent: not terminal in any later state |
| RunSafety.QuarantineHoldsForever | alembic/versions/20261008_0009_remediation_worker.py:171-193 | a reservation held while its execution is quarantined is held by it in every later state |
| RunSafety.QuarantineUndoesTerminal | alembic/versions/20261008_0009_remediation_worker.py:123-130 | an accepted quarantine takes terminality away for good, although an acknowledgement had granted it |
| Causality.EffectTracesBack | alembic/versions/20261008_0009_remediation_worker.py:138-157 | an acknowledgement traces back to its intent and that intent's claim, times in order, inside the execution |
| Causality.ReceiptCausality | alembic/versions/20261013_0010_remediation_verification.py:55-100 | every reachable receipt rests on proposal, approval, execution, claim, one intent, acknowledgement and verification, with times in order, the expiries nested and three distinct humans |
| Causality.AdmittedUnrevoked | alembic/versions/20261007_0008_execution_admission.py:59-72 | every execution was admitted at some step of the run on a standing approval, before any revocation |
| Causality.AttemptsBounded | alembic/versions/20261013_0010_remediation_verification.py:77-81 | an execution's attempts are exactly 1..k with k at most three, and all but the last have a receipt |
| Causality.AttemptsOwnTheirScans | alembic/versions/20261013_0010_remediation_verification.py:134-138 | no two attempts share a scan |
| Causality.TerminalScanForever | alembic/versions/20260903_0001_canonical_assessment_history.py:251-277 | a terminal scan's row is the same in every later state |
| Causality.ReceiptScanFrozen | alembic/versions/20261013_0010_remediation_verification.py:91-94 | a receipt's scan is terminal, completed at the receipt's time, and its row never changes again |
| Downgrade.TerminalsCoincide | alembic/versions/20261008_0009_remediation_worker.py:123-130 | where the worker preflight passes, the two revisions' notions of terminal coincide |
| Downgrade.StepsCoincide | alembic/env.py:421-451 | on a passing state the older schema accepts exactly the statements the newer one accepts that still pass |
| Downgrade.PreflightIsExact | alembic/env.py:468-497 | a database passes both preflights and is reachable at revision 0010 if and only if revision 0008 can reach it by itself |
| Downgrade.PassingRowsFitBoth | alembic/versions/20261008_0009_remediation_worker.py:22-42 | in a database that passes, every journal row satisfies the row CHECKs of both revisions, digests and previous digests included |
| Downgrade.OldRowsFitBoth | alembic/versions/20261007_0008_execution_admission.py:166-190 | conversely every journal row revision 0008 can reach satisfies the row CHECKs of both revisions |
| Downgrade.PreflightPassedBefore | alembic/env.py:435-445 | worker and verification history is never erased: passing now means having always passed |
| Store.RemediationStore.InsertEvent | alembic/versions/20261008_0009_remediation_worker.py:134-170 | an accepted event continues its journal: next number, chained digest, no earlier time; the journal grows by exactly it, and it is the first intent or acknowledgement of its execution |
| Store.RemediationStore.UpdateClaim | alembic/versions/20261008_0009_remediation_worker.py:194-232 | an accepted update keeps both counters rising and within three, rotates the token only together with the generation, and rotates nothing once an intent is journaled |
| Store.RemediationStore.UpdateReservation | alembic/versions/20261008_0009_remediation_worker.py:171-193 | an accepted update never takes a reservation from a quarantined holder |
| Store.RemediationStore.InsertExecution | alembic/versions/20261007_0008_execution_admission.py:59-72 | an accepted execution has a requester, an approver and an operator who are three different humans, nested times, no revocation, and is the first of its proposal |
| Store.RemediationStore.InsertDecision | alembic/versions/20261006_0007_remediation_authority.py:120-131 | after an accepted revocation no execution of its proposal can be admitted |
| Store.RemediationStore.InsertVerification | alembic/versions/20261013_0010_remediation_verification.py:55-87 | an accepted attempt has the next number, at most three, is appended to its execution's attempts, and comes after receipts for all of them, on a scan none of them used |
| Store.RemediationStore.InsertReceipt | alembic/versions/20261013_0010_remediation_verification.py:88-100 | an accepted receipt concludes the last attempt of its execution, whose scan is over and completed at the receipt's time |
| Store.RemediationStore.Replay | alembic/versions/20261008_0009_remediation_worker.py:133-232 | offering statements one by one to a store ends in the state the run function gives, so the run theorems are theorems about stores |
| ScanGraph.GateIsExact | alembic/versions/20260915_0003_evidence_graph_foundation.py:199-253 | the terminalization predicate refuses exactly the incomplete graphs |
| ScanGraph.StepFreezes | alembic/versions/20260915_0003_evidence_graph_foundation.py:40-86 | no statement touches the row or any child row of a terminal scan |
| ScanGraph.TerminalHistoryFrozen | alembic/versions/20260915_0003_evidence_graph_foundation.py:40-86 | over any later run a terminal scan's whole history is the same |
| ScanGraph.TerminalGraphComplete | alembic/versions/20260915_0003_evidence_graph_foundation.py:158-275 | every terminal scan of every reachable state has an empty graph with no manifest version, or a versioned manifest with contracts, one outcome for each and an outcome for every artifact |
| ScanGraph.TerminalizationAccepted | alembic/versions/20260915_0003_evidence_graph_foundation.py:254-275 | a RUNNING scan may become terminal exactly when its graph is complete and its new row passes the row checks |
| Catalog.StepFreezesClosure | alembic/versions/20260903_0001_canonical_assessment_history.py:185-232 | no statement, duplicates included, changes the closure of a referenced catalog |
| Catalog.ClosureFrozen | alembic/versions/20260903_0001_canonical_assessment_history.py:57-94 | while a catalog stays referenced, versions, mappings and the references of every mapped framework stay the same over a run |
| Catalog.ClosureFrozenForever | alembic/versions/20260903_0001_canonical_assessment_history.py:185-232 | once a terminal scan refers to a catalog, its closure never changes again |
| Catalog.VersionEntersUnreferenced | alembic/versions/20260903_0001_canonical_assessment_history.py:185-198 | a fresh control version enters a catalog if and only if no scan refers to it |
| Catalog.MappingEntersUnreferenced | alembic/versions/20260903_0001_canonical_assessment_history.py:199-214 | a fresh mapping enters if and only if no scan refers to the catalog of its control version |
| Catalog.ReferenceEntersUnreferenced | alembic/versions/20260903_0001_canonical_assessment_history.py:215-232 | a fresh reference enters a framework if and only if no scan refers to a catalog that maps the framework |
| Records.Deduplicate | app/assessment/evidence_graph.py:4348-4363 | succeeds exactly when no two records conflict over an identifier, and then lists each record once by ascending identifier |
| Records.AscendingDetermined | app/assessment/relationships.py:637-654 | there is one such listing, whatever the order and repetition of the input |
| GraphAcceptance.IndexByProvenance | app/assessment/evidence_graph.py:4384-4392 | the index holds, for every provenance, exactly what a linear scan finds, ambiguity included |
| GraphAcceptance.CheckSources | app/assessment/evidence_graph.py:1228-1258 | accepts exactly when contracts and outcomes cover each other, each pair agrees and cites its artifact, and every artifact is referenced |
| GraphAcceptance.CheckRelationships | app/assessment/evidence_graph.py:1286-1296 | accepts exactly when every edge belongs to the graph's observation and matches one outcome, PRESENT |
| GraphAcceptance.CheckTrailEdges | app/assessment/evidence_graph.py:3050-3057 | accepts exactly when no two submitted trail edges share an observation identifier |
| GraphAcceptance.Construct | app/assessment/evidence_graph.py:1194-1316 | a graph is constructed if and only if an acceptable canonical one exists, and then it is that one |
| GraphAcceptance.StoredDetermined | app/assessment/evidence_graph.py:1201-1222 | submissions with the same records store the same tuples |
| GraphMeaning.ContractsAnswered | app/assessment/evidence_graph.py:1228-1250 | contracts and outcomes are in bijection: equally many, and the i-th outcome answers the i-th contract |
| GraphMeaning.ArtifactsAreCited | app/assessment/evidence_graph.py:1233-1258 | the stored artifacts are exactly the cited ones, by reference and digest, each under its own reference |
| GraphMeaning.ContractsFor | app/assessment/evidence_graph.py:1381-1395 | returns exactly the declarations whose outcome has the relationship's provenance, in stored order |
| GraphMeaning.OneContractPerRelationship | app/assessment/evidence_graph.py:1381-1395 | in a constructed graph that is one declaration, and its outcome is PRESENT |
| GraphMeaning.ConflictsArePerEdge | app/assessment/relationships.py:637-654 | relationships conflict exactly when two different records describe one directional edge of one scan |
| GraphMeaning.ConstructionIgnoresOrder | app/assessment/evidence_graph.py:4348-4363 | permuting the submission, or repeating contracts, artifacts or outcomes, changes neither acceptance nor what is stored |
| GraphMeaning.RepeatedRelationship | app/assessment/evidence_graph.py:2886-2895 | one more copy of a relationship is refused in exactly two cases: a trail's edge where the scan holds CloudTrail evidence (lines 3050-3057), or an S3-to-KMS edge with already as many copies as references |
| GraphMeaning.RepeatedIsRefused | app/assessment/evidence_graph.py:1201-1222 | where the repeated submission is refused over its canonical graph, no other graph could be accepted for it |
| TrailManifest.CheckTrailSources | app/assessment/evidence_graph.py:1413-1630 | accepts exactly when there is one well-formed global discovery, every other trail source is a well-formed source of an admitted trail, none comes twice, and every admitted trail has all five |
| TrailManifest.ExpectDestinations | app/assessment/evidence_graph.py:3059-3081 | indexes exactly the destinations the PRESENT configurations name, each with the configuration that names it |
| TrailManifest.CheckDestinations | app/assessment/evidence_graph.py:3059-3112 | accepts exactly when the stored trail edges are one for each configured destination, each standing for its destination |
| TrailMeaning.SourcesAreTheGrid | app/assessment/evidence_graph.py:1508-1566 | in a constructed graph a trail has a source of a kind if and only if discovery admitted it and the kind is one of the five, and then just one |
| TrailMeaning.DiscoveredTrails | app/assessment/evidence_graph.py:1469-1506 | no discovered trail is lost: it is admitted with PRESENT identity evidence of the account and Region its ARN names, or its ARN names another account |
| TrailMeaning.TrailEdgesAreDestinations | app/assessment/evidence_graph.py:3059-3112 | a trail has an edge of a type if and only if its PRESENT configuration names such a destination; that edge is unique and stands for it |
| TrailMeaning.KeyEdgesExact | app/assessment/evidence_graph.py:3159-3255 | a trail's key edge is stored if and only if it is the one the configured key ARN, the DescribeKey evidence and the bucket locations determine, resolution included |
| TrailWitness.RepeatedTrailEdgeRefused | app/assessment/evidence_graph.py:3050-3057 | a concrete trail edge, in a graph with the discovery and the five sources of its trail: submitted once the graph is constructed, submitted twice it is refused |
| KmsManifest.PairsAreReferences | app/assessment/evidence_graph.py:2636-2647 | the pairs both passes visit are exactly the explicit references of the PRESENT encryption observations |
| ManifestCheck.IndexSources | app/assessment/evidence_graph.py:2609-2647 | fails exactly on an unreadable encryption observation, and otherwise files every bucket under the kind of each of its references |
| ManifestCheck.IndexKeys | app/assessment/evidence_graph.py:2649-2729 | fails exactly on an improper or conflicting DescribeKey observation, and otherwise indexes them by kind and by proved key |
| ManifestCheck.ExpectedEdges | app/assessment/evidence_graph.py:2731-2884 | fails exactly when some reference has no edge or two disagree over one observation, and otherwise records and counts them all |
| ManifestCheck.CompareManifest | app/assessment/evidence_graph.py:2886-2897 | accepts exactly when no edge was submitted too often and the stored edges are the expected ones |
| ManifestCheck.CheckManifest | app/assessment/evidence_graph.py:2592-2897 | the three passes together accept exactly the graphs whose S3-to-KMS edges are those of the evidence |
| ManifestMeaning.EdgesAreTheReferences | app/assessment/evidence_graph.py:2731-2897 | an S3-to-KMS edge is stored if and only if some explicit reference of PRESENT evidence stands for it, and it cites that very observation |
| ManifestMeaning.EveryReferenceHasItsEdge | app/assessment/evidence_graph.py:2783-2884 | no explicit reference is left without its edge, from the bucket that holds it |
| ManifestMeaning.ResolvedExactly | app/assessment/evidence_graph.py:2825-2866 | an edge is RESOLVED if and only if its DescribeKey is PRESENT or its reference identifies a key proved PRESENT in the lookup Region, and then it points at such a key |
| ManifestMeaning.KeyArnIsItsTarget | app/assessment/evidence_graph.py:2934-3002 | a PRESENT DescribeKey of a key ARN resolves to that very ARN |
| ManifestMeaning.Coalescing | app/assessment/evidence_graph.py:2878-2884 | two references give one record exactly when they lead from one bucket to one target |
| ManifestMeaning.SubmissionsBounded | app/assessment/evidence_graph.py:2886-2895 | an edge is submitted at most as often as there are references for it |
| ManifestMeaning.DescribedBucketsExact | app/assessment/evidence_graph.py:2649-2703 | a DescribeKey observation belongs to a reference, and names exactly the buckets that hold that reference in that lookup Region |
| ResourceAdmission.Admit | app/assessment/evidence_graph.py:3258-3439 | an inventory is accepted beside a graph exactly when its identities are consistent, every subject and endpoint is present, and every resource rests on its proof |
| ResourceAdmission.ExternalResourcesProved | app/assessment/evidence_graph.py:4466-4495 | an admitted external resource has authoritative PRESENT evidence of its owner and is the end of a resolved edge |
| ResourceAdmission.KeysProved | app/assessment/evidence_graph.py:3344-3439 | an admitted KMS key has a DescribeKey proof, and a bucket named by such a proof holds a resolved edge to it cited from the bucket's own encryption |
| S3Encryption.Normalize | app/assessment/evidence_graph.py:4031-4098 | gives the canonical rules in canonical order exactly when every provider rule is well formed |
| S3Encryption.Validate | app/assessment/evidence_graph.py:3972-4028 | accepts exactly the canonical values, and returns them unchanged |
| S3Encryption.NormalizedIsCanonical | app/assessment/evidence_graph.py:4031-4098 | whatever the normaliser puts out, the validator accepts unchanged |
| S3Encryption.CanonicalIsImage | app/assessment/evidence_graph.py:3972-4028 | the validator accepts exactly what the normaliser can put out |
| S3Encryption.RuleOrderIrrelevant | app/assessment/evidence_graph.py:4097-4098 | permuting the provider's rules gives the same output or the same refusal |
| S3Encryption.ReferencesPreserved | app/assessment/evidence_graph.py:501-513 | the explicit key references of the output are exactly those of the input |
| Identities.JoinInjective | app/assessment/identities.py:64-75 | joining separator-free components loses nothing, not even how many there were |
| Identities.SnapshotSeedsAgree | app/assessment/identities.py:78-101 | two snapshot seeds agree exactly when scan and resource do, up to the defaulted Region |
| Identities.SnapshotSeedInjective | app/assessment/identities.py:78-101 | on validated resources snapshot seeds are injective |
| Identities.ResourceSeedInjective | app/assessment/identities.py:52-75 | on validated resources stable seeds are injective |
| Identities.RegionDefaultCollides | app/assessment/identities.py:64-74 | without the scope rule two different identities share every seed |
| Identities.TargetsNotConfused | app/assessment/relationships.py:567-593 | a stable and an unresolved target never share their part of a seed, and equal parts mean equal targets |
| Identities.RelationshipSeedInjective | app/assessment/relationships.py:567-593 | relationship seeds agree exactly when source, type and target do |
| Identities.ObservationIdentifiesEdge | app/assessment/relationships.py:628-634 | one observation identifier, one directional edge of one scan |
| Sources.ResolveIgnoresTarget | app/assessment/evidence_reader.py:89-110 | an account-scoped source resolves to the same evidence whichever resource asks |
| Governance.DiscoveryIsAccountWide | app/assessment/governance_evidence.py:53-102 | every governed family is enumerated by an account-scoped source |
| Governance.CoverageIgnoresTarget | app/assessment/governance_evidence.py:221-246 | population proofs do not depend on the target that first asked for them |
| Governance.DecisiveMeansClosed | app/assessment/governance_evidence.py:392-406 | a decisive answer rests on the closed enumeration of every governed family, not only the target's |
| TagVerdict.HexRoundTrip | app/assessment/governance_evidence.py:447-456 | hexadecimal text gives back the bytes it was written from |
| TagVerdict.TagsRoundTrip | app/assessment/governance_evidence.py:376-389 | a consumer of the proof reads back exactly the tags it was made from |
| TagVerdict.VerdictIsOnTheTags | app/assessment/governance_evidence.py:447-466 | the verdict on a proof is PASS exactly when every required key is present on the resource, not reserved and not blank |
| TagChain.ListedTagsRead | app/assessment/governance_evidence.py:249-262 | tags listed by ascending key read back as the same tags |
| TagChain.ChainCarriesTags | app/assessment/governance_evidence.py:265-389 | a proved chain carries the retained tags, and a source it cites lists exactly those tags |
| Governance.ProofCarriesTags | app/assessment/governance_evidence.py:392-444 | a proof about a governed resource carries that resource's own tags, from a source among its citations |
| Governance.VerdictOfAnswer | app/assessment/governance_evidence.py:392-466 | end to end: a governed resource with a proof passes exactly when its retained tags carry a usable value for every required key, fails otherwise, and any other target is not applicable |
| IamMeaning.LinkedAreExpected | app/assessment/iam_policy_evidence.py:110-128 | the linked resources are one for each expected identifier, all retained, none twice |
| IamMeaning.OwnerUsesListed | app/assessment/iam_policy_evidence.py:193-225 | an owner uses exactly the policies its attachment listing and its configured boundary name |
| IamMeaning.PopulationExact | app/assessment/iam_policy_evidence.py:142-274 | in an accepted population each account-wide listing names exactly the retained resources of its type, managed policies are exactly those listed or used by some owner, inline policies exactly those some owner names |
| IamMeaning.InlineOwnerUnique | app/assessment/iam_policy_evidence.py:243-255 | two owners that could name one inline policy are one identity |
| IamMeaning.InlineUsage | app/assessment/iam_policy_evidence.py:255-270 | an inline policy of the account has one usage context for each retained record of its owner, and one of another account has none |
| IamMeaning.OneContextCheck | app/assessment/iam_policy_evidence.py:391-393 | with distinct owners the one-context check passes exactly for inline policies of the collection account |
| IamWitness.OwnerTwice | app/assessment/iam_policy_evidence.py:391-393 | a snapshot that retains one user twice: its graph is constructed, its inventory admitted and its population accepted, but its inline policy has two contexts and no proof |
| IamWitness.ForeignTwin | app/assessment/iam_policy_evidence.py:274 | a snapshot with a policy of another account under a local identifier, authoritative evidence and a resolved edge included: graph, inventory and population pass, but it has no context and no proof |
| Readers.AssessmentReader.constructor | app/assessment/evidence_reader.py:31-53 | the index dictionaries hold what scanning the snapshot finds, and every cache is empty |
| Readers.AssessmentReader.ResolveSource | app/assessment/evidence_reader.py:246-267 | the indexed lookup finds what a scan of the graph finds |
| Readers.AssessmentReader.FamilyMembers | app/assessment/evidence_reader.py:71-87 | the lazily built family index returns exactly the family's resources |
| Readers.AssessmentReader.GovernedPopulations | app/assessment/governance_evidence.py:221-246 | the cached answer, success or failure, is what this target would compute now |
| Readers.AssessmentReader.GovernanceProof | app/assessment/governance_evidence.py:392-444 | each governance answer equals the cache-free one |
| Readers.AssessmentReader.ProveCoverage | app/assessment/iam_policy_evidence.py:131-134 | the cached population is the proved one, a failure is not cached, and a cached one is kept |
| Readers.AssessmentReader.IamPolicyProof | app/assessment/iam_policy_evidence.py:337-432 | each IAM answer equals the cache-free one, and the cached ledger is left as it was |
| Readers.AssessmentReader.Serve | app/assessment/evidence_reader.py:142-150 | any sequence of requests on one reader is answered as if nothing had ever been cached |

## Left out

- Schema mechanics: table rebuilds, trigger drop and restore, PRAGMAs and lock statements; each accepted statement is atomic, and the common predicate of the two dialects is modelled once.
- Columns no guard reads: JSON content, roles, reasons and the remediation_requests table; audit event types are an enumeration rather than text.
- UPDATE of a primary key, such as moving a worker claim to another execution: primary keys and finding identity are constants once inserted.
- Protocol.Accepts: lets a scan become terminal without the evidence-graph gate and without the profile and catalog foreign keys, which ScanGraph and Catalog model, because the protocol's guards read none of those rows; it admits more runs than the database, so every safety theorem covers the database's own runs, and the journals built in JournalReach terminalize no scan.
- Resource snapshots, control assessments and evidence artifacts of a scan: their guards are single checks against the scan and its profile.
- alembic/env.py: path selection, offline refusals and the preflights of the other revisions; only the worker and verification preflights are modelled.
- GraphAcceptance.Construct: the S3 source manifest enters as the parameter `s3Sources` and the verdict of the bucket-location reconstruction as the parameter `locations`, functions of the canonical graph; the enum and date facts of a DescribeKey value enter as the predicate `isKeyShape`.
- KmsManifest.EdgeTo: does not strip surrounding whitespace from the identifier of an unresolved target, as the relationship models do when they are built, so it speaks of references without such whitespace.
- ResourceAdmission.Admit: does not model the Access Analyzer Region coverage, the S3 and KMS readback and the CloudTrail readback; bucket-location evidence enters as a map.
- Readers.AssessmentReader.FamilyMembers: models the lazily built index of the families but not the freezing in place of the nested JSON of the resources it returns.
- TagChain.ResourceTags: JSON integers and floating-point numbers are one kind of number.
- UTF-8 itself: an encoding and its decoding enter TagVerdict as functions, with losslessness assumed of what encodes.
- The bounded syntax of a policy document, which enters as a predicate.
- Other proof strategies of the reader: security groups, flow logs, S3, CloudTrail and IAM keys; and the persistence-side candidate validation.
- Routing, settings, API, dashboard, AWS sessions and collectors: nothing here assumes that callers order their statements helpfully.
