/**
 Append-only evidence graphs and the gate every scan passes when it becomes terminal: rows are
 accepted only while the scan is RUNNING, and it stops RUNNING only with a complete graph.
 */
module ScanGraph {
  import opened Wrappers
  import opened Scans

  datatype Phase = DISCOVERY | ENRICHMENT

  datatype SourceState =
    PRESENT | EXPECTED_ABSENCE | UNAVAILABLE | MALFORMED | CONFLICT | RESOURCE_DISAPPEARED

  datatype Manifest = Manifest(
    scanId: Id,
    account: string,
    scope: ScanScope,
    successfulRegions: seq<string>,
    schemaVersion: Option<string>,
    checksum: Option<Digest>)

  datatype Contract = Contract(
    scanId: Id,
    account: string,
    phase: Phase,
    evidenceKind: string,
    collector: string,
    collectorVersion: string,
    sourceApi: string)

  datatype Artifact = Artifact(scanId: Id, account: string, reference: string, sha: Digest)

  datatype Outcome = Outcome(
    scanId: Id,
    account: string,
    phase: Phase,
    evidenceKind: string,
    collector: string,
    collectorVersion: string,
    sourceApi: string,
    state: SourceState,
    collectedAt: Time,
    artifactId: Id,
    reference: string,
    sha: Digest)

  datatype Relationship = Relationship(
    relationshipId: Id,
    scanId: Id,
    account: string,
    outcomeId: Id,
    collector: string,
    collectorVersion: string,
    sourceApi: string,
    reference: string,
    collectedAt: Time)

  /** Contracts and outcomes share the key `source_outcome_id`. */
  datatype Db = Db(
    scans: map<Id, Scan>,
    manifests: map<Id, Manifest>,
    contracts: map<Id, Contract>,
    artifacts: map<Id, Artifact>,
    outcomes: map<Id, Outcome>,
    relationships: map<Id, Relationship>)

  function Empty(): Db {
    Db(map[], map[], map[], map[], map[], map[])
  }

  datatype Step =
    | InsertScan(id: Id, scan: Scan)
    | UpdateScan(id: Id, scan: Scan)
    | DeleteScan(id: Id)
    | InsertManifest(id: Id, manifest: Manifest)
    | InsertContract(id: Id, contract: Contract)
    | InsertArtifact(id: Id, artifact: Artifact)
    | InsertOutcome(id: Id, outcome: Outcome)
    | InsertRelationship(id: Id, relationship: Relationship)

  // ----- Guards -----

  predicate IsRunning(db: Db, scan: Id) {
    scan in db.scans && db.scans[scan].status == RUNNING
  }

  predicate OwnedBy(db: Db, scan: Id, account: string) {
    scan in db.scans && db.scans[scan].account == Some(account)
  }

  predicate ManifestAdmitted(db: Db, id: Id, m: Manifest) {
    && id !in db.manifests && IsRunning(db, m.scanId) && OwnedBy(db, m.scanId, m.account)
    && db.scans[m.scanId].scope == m.scope
    && db.scans[m.scanId].successfulRegions == m.successfulRegions
    && (forall o :: o in db.manifests ==> db.manifests[o].scanId != m.scanId)
  }

  predicate ContractAdmitted(db: Db, id: Id, c: Contract) {
    id !in db.contracts && IsRunning(db, c.scanId) && OwnedBy(db, c.scanId, c.account)
  }

  predicate ArtifactAdmitted(db: Db, id: Id, a: Artifact) {
    && id !in db.artifacts && IsRunning(db, a.scanId) && OwnedBy(db, a.scanId, a.account) && IsDigest(a.sha)
    && (forall o :: o in db.artifacts ==>
          (db.artifacts[o].scanId, db.artifacts[o].reference) != (a.scanId, a.reference))
  }

  /** An outcome answers its own contract with an artifact of the same scan. */
  predicate Answers(contracts: map<Id, Contract>, artifacts: map<Id, Artifact>, id: Id, o: Outcome) {
    && id in contracts && o.artifactId in artifacts
    && var c, a := contracts[id], artifacts[o.artifactId];
    && a.scanId == o.scanId && a.reference == o.reference && a.sha == o.sha && a.account == o.account
    && c.scanId == o.scanId && c.account == o.account && c.phase == o.phase
    && c.evidenceKind == o.evidenceKind && c.collector == o.collector
    && c.collectorVersion == o.collectorVersion && c.sourceApi == o.sourceApi
  }

  predicate OutcomeAdmitted(db: Db, id: Id, o: Outcome) {
    && id !in db.outcomes && IsRunning(db, o.scanId) && IsDigest(o.sha)
    && (o.state == RESOURCE_DISAPPEARED ==> o.phase == ENRICHMENT)
    && Answers(db.contracts, db.artifacts, id, o)
  }

  /** An edge cites the one PRESENT outcome that established it. */
  predicate Established(outcomes: map<Id, Outcome>, r: Relationship) {
    && r.outcomeId in outcomes
    && var o := outcomes[r.outcomeId];
    && o.scanId == r.scanId && o.account == r.account && o.state == PRESENT
    && o.collector == r.collector && o.collectorVersion == r.collectorVersion
    && o.sourceApi == r.sourceApi && o.reference == r.reference && o.collectedAt == r.collectedAt
  }

  predicate RelationshipAdmitted(db: Db, id: Id, r: Relationship) {
    && id !in db.relationships && IsRunning(db, r.scanId) && Established(db.outcomes, r)
    && (forall o :: o in db.relationships ==>
          (db.relationships[o].scanId, db.relationships[o].relationshipId) != (r.scanId, r.relationshipId))
  }

  predicate HasContract(db: Db, scan: Id) {
    exists c :: c in db.contracts && db.contracts[c].scanId == scan
  }

  predicate GraphRowsExist(db: Db, scan: Id) {
    || HasContract(db, scan)
    || (exists a :: a in db.artifacts && db.artifacts[a].scanId == scan)
    || (exists o :: o in db.outcomes && db.outcomes[o].scanId == scan)
    || (exists r :: r in db.relationships && db.relationships[r].scanId == scan)
  }

  predicate UnansweredContract(db: Db, scan: Id) {
    exists c :: c in db.contracts && db.contracts[c].scanId == scan
                && !(c in db.outcomes && db.outcomes[c].scanId == scan)
  }

  predicate UncitedArtifact(db: Db, scan: Id) {
    exists a :: a in db.artifacts && db.artifacts[a].scanId == scan
                && !(exists o :: o in db.outcomes && db.outcomes[o].scanId == scan && db.outcomes[o].artifactId == a)
  }

  /** One manifest row's part of the terminalization predicate. */
  predicate ManifestDefect(db: Db, scan: Id, m: Manifest) {
    || (m.schemaVersion.None? != m.checksum.None?)
    || (m.checksum.Some? && !IsDigest(m.checksum.value))
    || (m.schemaVersion.None? && GraphRowsExist(db, scan))
    || (m.schemaVersion.Some? &&
          (!HasContract(db, scan) || UnansweredContract(db, scan) || UncitedArtifact(db, scan)))
  }

  predicate MissingGraph(db: Db, scan: Id) {
    || (GraphRowsExist(db, scan) && !exists m :: m in db.manifests && db.manifests[m].scanId == scan)
    || (exists m :: m in db.manifests && db.manifests[m].scanId == scan && ManifestDefect(db, scan, db.manifests[m]))
  }

  predicate Unreferenced(db: Db, scan: Id) {
    && !GraphRowsExist(db, scan)
    && (forall m :: m in db.manifests ==> db.manifests[m].scanId != scan)
  }

  predicate Accepts(db: Db, s: Step) {
    match s
    case InsertScan(id, scan) => id !in db.scans && ScanInsertable(scan)
    case UpdateScan(id, scan) =>
      id in db.scans && ScanUpdatable(db.scans[id], scan)
      && (scan.status != RUNNING ==> !MissingGraph(db, id))
    case DeleteScan(id) => IsRunning(db, id) && Unreferenced(db, id)
    case InsertManifest(id, m) => ManifestAdmitted(db, id, m)
    case InsertContract(id, c) => ContractAdmitted(db, id, c)
    case InsertArtifact(id, a) => ArtifactAdmitted(db, id, a)
    case InsertOutcome(id, o) => OutcomeAdmitted(db, id, o)
    case InsertRelationship(id, r) => RelationshipAdmitted(db, id, r)
  }

  function Apply(db: Db, s: Step): Db {
    match s
    case InsertScan(id, scan) => db.(scans := db.scans[id := scan])
    case UpdateScan(id, scan) => db.(scans := db.scans[id := scan])
    case DeleteScan(id) => db.(scans := db.scans - {id})
    case InsertManifest(id, m) => db.(manifests := db.manifests[id := m])
    case InsertContract(id, c) => db.(contracts := db.contracts[id := c])
    case InsertArtifact(id, a) => db.(artifacts := db.artifacts[id := a])
    case InsertOutcome(id, o) => db.(outcomes := db.outcomes[id := o])
    case InsertRelationship(id, r) => db.(relationships := db.relationships[id := r])
  }

  function Exec(db: Db, s: Step): Db {
    if Accepts(db, s) then Apply(db, s) else db
  }

  function Run(db: Db, steps: seq<Step>): Db
    decreases |steps|
  {
    if steps == [] then db else Exec(Run(db, steps[..|steps| - 1]), steps[|steps| - 1])
  }

  // ----- The rows of one scan -----

  function ContractsOf(contracts: map<Id, Contract>, scan: Id): map<Id, Contract> {
    map c | c in contracts && contracts[c].scanId == scan :: contracts[c]
  }

  function ArtifactsOf(artifacts: map<Id, Artifact>, scan: Id): map<Id, Artifact> {
    map a | a in artifacts && artifacts[a].scanId == scan :: artifacts[a]
  }

  function OutcomesOf(outcomes: map<Id, Outcome>, scan: Id): map<Id, Outcome> {
    map o | o in outcomes && outcomes[o].scanId == scan :: outcomes[o]
  }

  function RelationshipsOf(relationships: map<Id, Relationship>, scan: Id): map<Id, Relationship> {
    map r | r in relationships && relationships[r].scanId == scan :: relationships[r]
  }

  function ManifestsOf(manifests: map<Id, Manifest>, scan: Id): map<Id, Manifest> {
    map m | m in manifests && manifests[m].scanId == scan :: manifests[m]
  }

  function RowOf(scans: map<Id, Scan>, scan: Id): map<Id, Scan> {
    map s | s in scans && s == scan :: scans[s]
  }

  /** Everything retained about one scan: the scan's own row and its children. */
  function HistoryOf(db: Db, scan: Id): Db {
    Db(RowOf(db.scans, scan),
       ManifestsOf(db.manifests, scan), ContractsOf(db.contracts, scan), ArtifactsOf(db.artifacts, scan),
       OutcomesOf(db.outcomes, scan), RelationshipsOf(db.relationships, scan))
  }

  /**
   A complete graph: nothing at all, and no manifest claiming otherwise; or one manifest with a
   version and a digest, at least one contract, exactly one outcome for each contract, and for
   each artifact an outcome that cites it.
   */
  ghost predicate Complete(db: Db, scan: Id) {
    || ( && ContractsOf(db.contracts, scan) == map[] && ArtifactsOf(db.artifacts, scan) == map[]
         && OutcomesOf(db.outcomes, scan) == map[] && RelationshipsOf(db.relationships, scan) == map[]
         && forall m :: m in ManifestsOf(db.manifests, scan) ==>
              db.manifests[m].schemaVersion.None? && db.manifests[m].checksum.None?)
    || ( && (exists m :: && ManifestsOf(db.manifests, scan).Keys == {m} && db.manifests[m].schemaVersion.Some?
                         && db.manifests[m].checksum.Some? && IsDigest(db.manifests[m].checksum.value))
         && ContractsOf(db.contracts, scan) != map[]
         && ContractsOf(db.contracts, scan).Keys == OutcomesOf(db.outcomes, scan).Keys
         && ArtifactsOf(db.artifacts, scan).Keys == set o | o in OutcomesOf(db.outcomes, scan) ::
             db.outcomes[o].artifactId)
  }

  // ----- Invariant -----

  ghost predicate Linked(db: Db) {
    && (forall o :: o in db.outcomes ==> Answers(db.contracts, db.artifacts, o, db.outcomes[o]))
    && (forall r :: r in db.relationships ==> Established(db.outcomes, db.relationships[r]))
    && (forall m, n :: m in db.manifests && n in db.manifests ==>
          db.manifests[m].scanId == db.manifests[n].scanId ==> m == n)
  }

  lemma LinkedKept(db: Db, s: Step)
    requires Linked(db)
    ensures Linked(Exec(db, s))
  {
  }

  /** The gate refuses exactly the incomplete graphs. */
  lemma GateIsExact(db: Db, scan: Id)
    requires Linked(db)
    ensures MissingGraph(db, scan) <==> !Complete(db, scan)
  {
    var contracts, artifacts := ContractsOf(db.contracts, scan), ArtifactsOf(db.artifacts, scan);
    var outcomes, relationships := OutcomesOf(db.outcomes, scan), RelationshipsOf(db.relationships, scan);
    assert HasContract(db, scan) <==> contracts != map[] by {
      assert forall c :: c in contracts <==> c in db.contracts && db.contracts[c].scanId == scan;
      if contracts != map[] {
        var c :| c in contracts;
      }
    }
    hide Linked;
    EmptyGraph(db, scan);
    AnsweredExactly(db, scan);
    CitedExactly(db, scan);
    if exists m :: m in db.manifests && db.manifests[m].scanId == scan {
      var m :| m in db.manifests && db.manifests[m].scanId == scan;
      assert ManifestsOf(db.manifests, scan).Keys == {m};
      assert MissingGraph(db, scan) <==> ManifestDefect(db, scan, db.manifests[m]);
    } else {
      assert ManifestsOf(db.manifests, scan) == map[];
    }
  }

  lemma EmptyGraph(db: Db, scan: Id)
    ensures !GraphRowsExist(db, scan) <==>
              && ContractsOf(db.contracts, scan) == map[] && ArtifactsOf(db.artifacts, scan) == map[]
              && OutcomesOf(db.outcomes, scan) == map[] && RelationshipsOf(db.relationships, scan) == map[]
  {
    assert forall c :: c in ContractsOf(db.contracts, scan) <==> c in db.contracts && db.contracts[c].scanId == scan;
    assert forall c :: c in ArtifactsOf(db.artifacts, scan) <==> c in db.artifacts && db.artifacts[c].scanId == scan;
    assert forall c :: c in OutcomesOf(db.outcomes, scan) <==> c in db.outcomes && db.outcomes[c].scanId == scan;
    assert forall c :: c in RelationshipsOf(db.relationships, scan) <==>
        c in db.relationships && db.relationships[c].scanId == scan;
  }

  lemma LinksStayInside(db: Db, scan: Id)
    requires Linked(db)
    ensures forall o :: o in OutcomesOf(db.outcomes, scan) ==>
              && o in ContractsOf(db.contracts, scan)
              && db.outcomes[o].artifactId in ArtifactsOf(db.artifacts, scan)
  {
    forall o | o in OutcomesOf(db.outcomes, scan)
      ensures o in ContractsOf(db.contracts, scan) && db.outcomes[o].artifactId in ArtifactsOf(db.artifacts, scan)
    {
      assert Answers(db.contracts, db.artifacts, o, db.outcomes[o]);
    }
  }

  /** Given the links, "none unanswered" is an equality of key sets. */
  lemma AnsweredExactly(db: Db, scan: Id)
    requires Linked(db)
    ensures !UnansweredContract(db, scan) <==>
              ContractsOf(db.contracts, scan).Keys == OutcomesOf(db.outcomes, scan).Keys
  {
    hide Linked;
    LinksStayInside(db, scan);
    var contracts, outcomes := ContractsOf(db.contracts, scan), OutcomesOf(db.outcomes, scan);
    assert outcomes.Keys <= contracts.Keys;
    if UnansweredContract(db, scan) {
      var c :| c in db.contracts && db.contracts[c].scanId == scan
               && !(c in db.outcomes && db.outcomes[c].scanId == scan);
      assert c in contracts.Keys && c !in outcomes.Keys;
    } else {
      assert forall c :: c in contracts ==> c in outcomes;
    }
  }

  /** And so is "none uncited". */
  lemma CitedExactly(db: Db, scan: Id)
    requires Linked(db)
    ensures !UncitedArtifact(db, scan) <==>
              ArtifactsOf(db.artifacts, scan).Keys == set o | o in OutcomesOf(db.outcomes, scan) ::
                  db.outcomes[o].artifactId
  {
    hide Linked;
    LinksStayInside(db, scan);
    var artifacts, outcomes := ArtifactsOf(db.artifacts, scan), OutcomesOf(db.outcomes, scan);
    var cited := set o | o in outcomes :: db.outcomes[o].artifactId;
    assert cited <= artifacts.Keys;
    if UncitedArtifact(db, scan) {
      var a :| a in db.artifacts && db.artifacts[a].scanId == scan
               && !(exists o :: o in db.outcomes && db.outcomes[o].scanId == scan && db.outcomes[o].artifactId == a);
      assert a in artifacts.Keys && a !in cited;
    } else {
      forall a | a in artifacts ensures a in cited {
        var o :| o in db.outcomes && db.outcomes[o].scanId == scan && db.outcomes[o].artifactId == a;
        assert o in outcomes;
      }
    }
  }

  // ----- Terminal scans, over whole runs -----

  /** The key a statement writes, and whether it is a new one. */
  predicate WritesNewKey(db: Db, s: Step) {
    match s
    case InsertScan(id, _) => id !in db.scans
    case UpdateScan(_, _) => false
    case DeleteScan(_) => false
    case InsertManifest(id, _) => id !in db.manifests
    case InsertContract(id, _) => id !in db.contracts
    case InsertArtifact(id, _) => id !in db.artifacts
    case InsertOutcome(id, _) => id !in db.outcomes
    case InsertRelationship(id, _) => id !in db.relationships
  }

  /** The scan a statement is about. */
  function Subject(s: Step): Id {
    match s
    case InsertScan(id, _) => id
    case UpdateScan(id, _) => id
    case DeleteScan(id) => id
    case InsertManifest(_, m) => m.scanId
    case InsertContract(_, c) => c.scanId
    case InsertArtifact(_, a) => a.scanId
    case InsertOutcome(_, o) => o.scanId
    case InsertRelationship(_, r) => r.scanId
  }

  lemma ActsElsewhere(db: Db, s: Step, scan: Id)
    requires Accepts(db, s) && scan in db.scans && db.scans[scan].status != RUNNING
    ensures Subject(s) != scan
    ensures s.UpdateScan? || s.DeleteScan? || WritesNewKey(db, s)
  {
    match s
    case UpdateScan(_, _) =>
    case _ =>
  }

  /** A terminal scan's row and children are touched by no statement. */
  lemma StepFreezes(db: Db, s: Step, scan: Id)
    requires scan in db.scans && db.scans[scan].status != RUNNING
    ensures HistoryOf(Exec(db, s), scan) == HistoryOf(db, scan)
  {
    if Accepts(db, s) {
      ActsElsewhere(db, s, scan);
      match s
      case InsertScan(id, row) => assert RowOf(db.scans[id := row], scan) == RowOf(db.scans, scan);
      case UpdateScan(id, row) => assert RowOf(db.scans[id := row], scan) == RowOf(db.scans, scan);
      case DeleteScan(id) => assert RowOf(db.scans - {id}, scan) == RowOf(db.scans, scan);
      case InsertManifest(id, m) => assert ManifestsOf(db.manifests[id := m], scan) == ManifestsOf(db.manifests, scan);
      case InsertContract(id, c) => assert ContractsOf(db.contracts[id := c], scan) == ContractsOf(db.contracts, scan);
      case InsertArtifact(id, a) => assert ArtifactsOf(db.artifacts[id := a], scan) == ArtifactsOf(db.artifacts, scan);
      case InsertOutcome(id, o) => assert OutcomesOf(db.outcomes[id := o], scan) == OutcomesOf(db.outcomes, scan);
      case InsertRelationship(id, r) =>
        assert RelationshipsOf(db.relationships[id := r], scan) == RelationshipsOf(db.relationships, scan);
    }
  }

  lemma {:induction false} TerminalHistoryFrozen(db: Db, steps: seq<Step>, scan: Id)
    requires scan in db.scans && db.scans[scan].status != RUNNING
    ensures scan in Run(db, steps).scans && Run(db, steps).scans[scan] == db.scans[scan]
    ensures HistoryOf(Run(db, steps), scan) == HistoryOf(db, scan)
    decreases |steps|
  {
    if steps != [] {
      TerminalHistoryFrozen(db, steps[..|steps| - 1], scan);
      StepFreezes(Run(db, steps[..|steps| - 1]), steps[|steps| - 1], scan);
      assert scan in HistoryOf(db, scan).scans;
    }
  }

  lemma SameOutcomes(a: Db, b: Db, scan: Id)
    requires OutcomesOf(a.outcomes, scan) == OutcomesOf(b.outcomes, scan)
    ensures forall o :: o in OutcomesOf(a.outcomes, scan) ==>
              o in a.outcomes && o in b.outcomes && a.outcomes[o] == b.outcomes[o]
  {
    assert forall o :: o in OutcomesOf(a.outcomes, scan) ==>
        OutcomesOf(a.outcomes, scan)[o] == OutcomesOf(b.outcomes, scan)[o];
  }

  lemma SameManifests(a: Db, b: Db, scan: Id)
    requires ManifestsOf(a.manifests, scan) == ManifestsOf(b.manifests, scan)
    ensures forall m :: m in ManifestsOf(a.manifests, scan) ==>
              m in a.manifests && m in b.manifests && a.manifests[m] == b.manifests[m]
  {
    assert forall m :: m in ManifestsOf(a.manifests, scan) ==>
        ManifestsOf(a.manifests, scan)[m] == ManifestsOf(b.manifests, scan)[m];
  }

  /** Completeness is a matter of the scan's own history. */
  lemma CompleteIsLocal(a: Db, b: Db, scan: Id)
    requires HistoryOf(a, scan) == HistoryOf(b, scan) && Complete(a, scan)
    ensures Complete(b, scan)
  {
    hide OutcomesOf, ManifestsOf, ContractsOf, ArtifactsOf, RelationshipsOf, RowOf;
    SameOutcomes(a, b, scan);
    SameManifests(a, b, scan);
    assert (set o | o in OutcomesOf(a.outcomes, scan) :: a.outcomes[o].artifactId)
        == (set o | o in OutcomesOf(b.outcomes, scan) :: b.outcomes[o].artifactId);
  }

  lemma {:induction false} ReachableLinked(steps: seq<Step>)
    ensures Linked(Run(Empty(), steps))
    decreases |steps|
  {
    if steps != [] {
      ReachableLinked(steps[..|steps| - 1]);
      LinkedKept(Run(Empty(), steps[..|steps| - 1]), steps[|steps| - 1]);
    }
  }

  /** Every terminal scan any clients can bring about has a complete graph. */
  lemma {:induction false} TerminalGraphComplete(steps: seq<Step>, scan: Id)
    requires scan in Run(Empty(), steps).scans && Run(Empty(), steps).scans[scan].status != RUNNING
    ensures Complete(Run(Empty(), steps), scan)
    decreases |steps|
  {
    if steps != [] {
      var s := steps[|steps| - 1];
      var db, now := Run(Empty(), steps[..|steps| - 1]), Run(Empty(), steps);
      if scan in db.scans && db.scans[scan].status != RUNNING {
        TerminalGraphComplete(steps[..|steps| - 1], scan);
        StepFreezes(db, s, scan);
        CompleteIsLocal(db, now, scan);
      } else {
        BecameTerminal(db, s, scan);
        ReachableLinked(steps[..|steps| - 1]);
        GateIsExact(db, scan);
        assert Complete(now, scan);
      }
    }
  }

  lemma BecameTerminal(db: Db, s: Step, scan: Id)
    requires !(scan in db.scans && db.scans[scan].status != RUNNING)
    requires scan in Exec(db, s).scans && Exec(db, s).scans[scan].status != RUNNING
    ensures s.UpdateScan? && Accepts(db, s) && !MissingGraph(db, scan)
    ensures Exec(db, s) == db.(scans := Exec(db, s).scans)
  {
  }

  /**
   A RUNNING scan may become terminal exactly when its graph is complete and its new row passes
   the row checks: the gate neither lets a partial graph through nor strands a whole one.
   */
  lemma TerminalizationAccepted(steps: seq<Step>, scan: Id, row: Scan)
    requires row.status != RUNNING
    ensures var db := Run(Empty(), steps);
            Accepts(db, UpdateScan(scan, row)) <==>
              IsRunning(db, scan) && ScanChecks(row) && Complete(db, scan)
  {
    ReachableLinked(steps);
    GateIsExact(Run(Empty(), steps), scan);
  }
}
