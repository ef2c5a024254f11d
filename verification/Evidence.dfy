/** The records of an evidence graph, as the graph validator receives them. */
module Evidence {
  import opened Wrappers
  import opened Scans
  import opened Identities
  import opened JsonValues
  import ScanGraph

  type Phase = ScanGraph.Phase
  type SourceState = ScanGraph.SourceState

  const PRESENT: SourceState := ScanGraph.PRESENT
  const MALFORMED: SourceState := ScanGraph.MALFORMED
  const CONFLICT: SourceState := ScanGraph.CONFLICT
  const UNAVAILABLE: SourceState := ScanGraph.UNAVAILABLE
  const EXPECTED_ABSENCE: SourceState := ScanGraph.EXPECTED_ABSENCE
  const ENRICHMENT: Phase := ScanGraph.ENRICHMENT

  datatype OwnerMode = COLLECTION_ACCOUNT | AWS_MANAGED | EXTERNAL_ACCOUNT

  datatype Subject =
    | AccountSubject(account: string, scope: ResourceScope, region: Option<string>)
    | ResourceSubject(resource: Resource)

  datatype Contract = Contract(
    outcomeId: Uuid,
    scan: Uuid,
    account: string,
    key: string,
    version: string,
    phase: Phase,
    subject: Subject,
    evidenceKind: string,
    collector: string,
    collectorVersion: string,
    sourceApi: string,
    single: bool,
    ownerMode: OwnerMode,
    identityAuthoritative: bool,
    allowsSupplementalRegion: bool)

  datatype Outcome = Outcome(
    outcomeId: Uuid,
    scan: Uuid,
    account: string,
    phase: Phase,
    subject: Subject,
    evidenceKind: string,
    state: SourceState,
    failure: Option<string>,
    collector: string,
    collectorVersion: string,
    sourceApi: string,
    collectedAt: Time,
    reference: string,
    sha: Digest)

  datatype Artifact = Artifact(
    artifactId: Uuid,
    scan: Uuid,
    account: string,
    reference: string,
    sha: Digest,
    schema: string,
    schemaVersion: string,
    collectedAt: Time,
    payload: Json)

  /** The fields that tie an edge to the observation that established it. */
  datatype Provenance = Provenance(
    collector: string, collectorVersion: string, sourceApi: string, reference: string, collectedAt: Time)

  datatype Resolution =
    | RESOLVED
    | TARGET_NOT_COLLECTED
    | TARGET_OUTSIDE_SCAN_SCOPE
    | TARGET_ACCESS_DENIED
    | TARGET_EVIDENCE_INCOMPLETE
    | TARGET_IDENTITY_INCOMPLETE

  datatype Relationship = Relationship(
    account: string, edge: Edge, resolution: Resolution, provenance: Provenance)

  /** A constructed record: its identifiers follow from its fields, so only these remain to hold. */
  predicate ValidRelationship(r: Relationship) {
    && ValidEdge(r.edge)
    && (r.resolution == TARGET_IDENTITY_INCOMPLETE <==> r.edge.target.Unresolved?)
  }

  function ProvenanceOf(o: Outcome): Provenance {
    Provenance(o.collector, o.collectorVersion, o.sourceApi, o.reference, o.collectedAt)
  }

  /** An outcome is the exact result of a declaration. */
  predicate MatchesOutcome(c: Contract, o: Outcome) {
    && o.outcomeId == c.outcomeId && o.scan == c.scan && o.account == c.account && o.phase == c.phase
    && o.subject == c.subject && o.evidenceKind == c.evidenceKind && o.collector == c.collector
    && o.collectorVersion == c.collectorVersion && o.sourceApi == c.sourceApi
  }
}
