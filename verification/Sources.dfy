/** How a proof finds its one complete source: the lookup every assessment rests on. */
module Sources {
  import opened Wrappers
  import opened Scans
  import opened Identities
  import opened JsonValues
  import opened Evidence
  import opened GraphAcceptance

  /** A top-level resource observation. */
  datatype Record = Record(
    resource: Resource, arn: Option<string>, name: Option<string>, tags: map<string, string>, configuration: Json)

  /** A revalidated snapshot; a snapshot without a graph has empty record lists. */
  datatype Snapshot = Snapshot(h: Hashes, graph: Graph, requestedRegion: string, resources: seq<Record>)

  datatype SubjectKind = TARGET | GLOBAL_ACCOUNT | REGIONAL_ACCOUNT

  datatype RequiredSource = RequiredSource(
    collector: string,
    evidenceKind: string,
    sourceApi: string,
    subject: SubjectKind,
    version: string,
    completeness: set<string>,
    admitted: bool,
    absenceIsComplete: bool)

  datatype Citation = Citation(outcomeId: Uuid, artifactId: Uuid, sha: Digest)

  datatype Resolved = Resolved(outcome: Outcome, artifact: Artifact, citation: Citation)

  type SourceKey = (string, string, string)

  function KeyOf(c: Contract): SourceKey {
    (c.collector, c.evidenceKind, c.sourceApi)
  }

  function TargetId(snap: Snapshot, target: Resource): Uuid {
    SnapshotId(snap.h, snap.graph.scan, target)
  }

  /** The retained resource of a snapshot identifier; of equal identities the last one. */
  function RecordAt(snap: Snapshot, resources: seq<Record>, id: Uuid): Option<Record> {
    if resources == [] then None
    else if TargetId(snap, resources[|resources| - 1].resource) == id then Some(resources[|resources| - 1])
    else RecordAt(snap, resources[..|resources| - 1], id)
  }

  /** The declarations of one collector, kind and API, by linear scan. */
  function Declared(contracts: seq<Contract>, key: SourceKey): seq<Contract> {
    if contracts == [] then []
    else
      var last := contracts[|contracts| - 1];
      Declared(contracts[..|contracts| - 1], key) + if KeyOf(last) == key then [last] else []
  }

  predicate SubjectMatches(snap: Snapshot, subject: Subject, required: RequiredSource, target: Resource) {
    if required.subject == TARGET && target.resourceType != "aws_account" then
      subject.ResourceSubject? && TargetId(snap, subject.resource) == TargetId(snap, target)
    else
      var scope := match required.subject
                   case TARGET => target.scope
                   case GLOBAL_ACCOUNT => GLOBAL
                   case REGIONAL_ACCOUNT => REGIONAL;
      && subject.AccountSubject?
      && subject.account == snap.graph.account && subject.scope == scope
      && subject.region == if scope == REGIONAL then Some(snap.requestedRegion) else None
  }

  function Matching(
    snap: Snapshot, declared: seq<Contract>, required: RequiredSource, target: Resource): seq<Contract>
  {
    if declared == [] then []
    else
      var last := declared[|declared| - 1];
      Matching(snap, declared[..|declared| - 1], required, target)
      + if last.version == required.version && SubjectMatches(snap, last.subject, required, target) then [last] else []
  }

  /** A state that counts, every attestation true, and nothing discarded. */
  predicate CompleteEvidence(o: Outcome, payload: Json, completeness: set<string>, absenceIsComplete: bool) {
    && (o.state == PRESENT || (absenceIsComplete && o.state == EXPECTED_ABSENCE))
    && (forall f :: f in completeness ==> Get(payload, f) == Bool(true))
    && (payload.Object? && "admission_complete" in payload.fields ==>
        payload.fields["admission_complete"] == Bool(true))
    && (payload.Object? && "discarded_item_count" in payload.fields ==>
          payload.fields["discarded_item_count"] in {Number(0), Bool(false)})
  }

  function OutcomeOf(outcomes: seq<Outcome>, id: Uuid): Option<Outcome> {
    if outcomes == [] then None
    else if outcomes[|outcomes| - 1].outcomeId == id then Some(outcomes[|outcomes| - 1])
    else OutcomeOf(outcomes[..|outcomes| - 1], id)
  }

  function ArtifactOf(artifacts: seq<Artifact>, reference: string): Option<Artifact> {
    if artifacts == [] then None
    else if artifacts[|artifacts| - 1].reference == reference then Some(artifacts[|artifacts| - 1])
    else ArtifactOf(artifacts[..|artifacts| - 1], reference)
  }

  /** Exactly one declaration, admitted where that is required, and complete evidence behind it. */
  function Resolve(snap: Snapshot, required: RequiredSource, target: Resource): Option<Resolved> {
    var key := (required.collector, required.evidenceKind, required.sourceApi);
    var found := Matching(snap, Declared(snap.graph.contracts, key), required, target);
    if |found| != 1 || (required.admitted && !found[0].identityAuthoritative) then None
    else ResolveOutcome(snap, required, OutcomeOf(snap.graph.outcomes, found[0].outcomeId))
  }

  function ResolveOutcome(snap: Snapshot, required: RequiredSource, outcome: Option<Outcome>): Option<Resolved> {
    if outcome.None? then None
    else
      var artifact := ArtifactOf(snap.graph.artifacts, outcome.value.reference);
      if || artifact.None?
         || !CompleteEvidence(
              outcome.value, artifact.value.payload, required.completeness, required.absenceIsComplete)
      then None
      else Some(Resolved(outcome.value, artifact.value,
                         Citation(outcome.value.outcomeId, artifact.value.artifactId, artifact.value.sha)))
  }

  lemma {:induction false} MatchingIgnoresTarget(
    snap: Snapshot, declared: seq<Contract>, required: RequiredSource, target: Resource, other: Resource)
    requires required.subject != TARGET
    ensures Matching(snap, declared, required, target) == Matching(snap, declared, required, other)
  {
    if declared != [] {
      MatchingIgnoresTarget(snap, declared[..|declared| - 1], required, target, other);
    }
  }

  /** An account-scoped source resolves to the same evidence whichever resource asks. */
  lemma ResolveIgnoresTarget(snap: Snapshot, required: RequiredSource, target: Resource, other: Resource)
    requires required.subject != TARGET
    ensures Resolve(snap, required, target) == Resolve(snap, required, other)
  {
    var declared := Declared(snap.graph.contracts, (required.collector, required.evidenceKind, required.sourceApi));
    MatchingIgnoresTarget(snap, declared, required, target, other);
  }
}
