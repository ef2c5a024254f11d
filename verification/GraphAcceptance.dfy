/** Construction of an evidence graph: canonical records, complete provenance, exact edges. */
module GraphAcceptance {
  import opened Wrappers
  import opened Scans
  import opened Ordering
  import opened Identities
  import opened JsonValues
  import opened Evidence
  import opened Records
  import opened KmsManifest
  import opened ManifestCheck
  import opened TrailManifest

  datatype Graph = Graph(
    scan: Uuid,
    account: string,
    collectedAt: Time,
    contracts: seq<Contract>,
    artifacts: seq<Artifact>,
    outcomes: seq<Outcome>,
    relationships: seq<Relationship>)

  /**
   Hashes and shape checks; `s3Sources` is the S3 source manifest, and `locations` whether the S3
   bucket-location evidence is complete, where there is valid evidence of it.
   */
  datatype Settings = Settings(
    h: Hashes,
    sha256: string -> string,
    json: Json -> string,
    isKeyShape: Json -> bool,
    s3Sources: Graph -> bool,
    locations: Graph -> Option<bool>)

  function ContractId(): Contract -> Uuid {
    (c: Contract) => c.outcomeId
  }

  function ArtifactId(): Artifact -> Uuid {
    (a: Artifact) => a.artifactId
  }

  function OutcomeId(): Outcome -> Uuid {
    (o: Outcome) => o.outcomeId
  }

  function EdgeId(h: Hashes): Relationship -> Uuid {
    (r: Relationship) => ObservationId(h, r.edge)
  }

  function ByReference(artifacts: seq<Artifact>): map<string, Artifact> {
    if artifacts == [] then map[]
    else
      var last := artifacts[|artifacts| - 1];
      ByReference(artifacts[..|artifacts| - 1])[last.reference := last]
  }

  function ContextOf(s: Settings, g: Graph): Context {
    Context(s.h, s.sha256, s.json, s.isKeyShape, g.scan, g.account, ByReference(g.artifacts))
  }

  // ----- What acceptance means -----

  /** The stored tuples are the submitted records, each once, by identifier. */
  ghost predicate Canonicalizes(s: Settings, raw: Graph, g: Graph) {
    && g.scan == raw.scan && g.account == raw.account && g.collectedAt == raw.collectedAt
    && Lists(ContractId(), g.contracts, raw.contracts)
    && Lists(ArtifactId(), g.artifacts, raw.artifacts)
    && Lists(OutcomeId(), g.outcomes, raw.outcomes)
    && Lists(EdgeId(s.h), g.relationships, raw.relationships)
  }

  /** Every record is an observation of this scan, in this account, at this time. */
  ghost predicate OneObservation(g: Graph) {
    && (forall c :: c in g.contracts ==> ContractPlaced(g, c))
    && (forall o :: o in g.outcomes ==> OutcomePlaced(g, o))
    && AllOfGraph(g, g.artifacts)
    && (forall r :: r in g.relationships ==> EdgeOfGraph(g, r))
  }

  /** The outcome reported under a contract's identifier. */
  predicate Reports(g: Graph, c: Contract, o: Outcome) {
    c in g.contracts && o in g.outcomes && c.outcomeId == o.outcomeId
  }

  function ContractIds(g: Graph): set<Uuid> {
    set c | c in g.contracts :: c.outcomeId
  }

  function OutcomeIds(g: Graph): set<Uuid> {
    set o | o in g.outcomes :: o.outcomeId
  }

  predicate SameSources(g: Graph) {
    ContractIds(g) == OutcomeIds(g)
  }

  lemma ReportOf(g: Graph, c: Contract) returns (o: Outcome)
    requires SameSources(g) && c in g.contracts
    ensures Reports(g, c, o)
  {
    assert c.outcomeId in ContractIds(g);
    o :| o in g.outcomes && o.outcomeId == c.outcomeId;
  }

  lemma DeclarationOf(g: Graph, o: Outcome) returns (c: Contract)
    requires SameSources(g) && o in g.outcomes
    ensures Reports(g, c, o)
  {
    assert o.outcomeId in OutcomeIds(g);
    c :| c in g.contracts && c.outcomeId == o.outcomeId;
  }

  /** Each contract is answered by its outcome. */
  ghost predicate Answered(g: Graph) {
    forall c, o :: Reports(g, c, o) ==> MatchesOutcome(c, o)
  }

  predicate Cites(o: Outcome, a: Artifact) {
    a.reference == o.reference && a.sha == o.sha && a.collectedAt == o.collectedAt
  }

  ghost predicate UniqueReferences(artifacts: seq<Artifact>) {
    forall a, b :: a in artifacts && b in artifacts && a.reference == b.reference ==> a.artifactId == b.artifactId
  }

  /** Outcomes cite artifacts of the graph, and no artifact goes uncited. */
  ghost predicate OutcomesSupported(g: Graph) {
    forall o :: o in g.outcomes ==> exists a :: a in g.artifacts && Cites(o, a)
  }

  ghost predicate ArtifactsUsed(g: Graph) {
    forall a :: a in g.artifacts ==> exists o :: o in g.outcomes && Cites(o, a)
  }

  ghost predicate Supported(g: Graph) {
    OutcomesSupported(g) && ArtifactsUsed(g)
  }

  /** The outcomes with a given provenance, by linear scan. */
  function Scan(outcomes: seq<Outcome>, p: Provenance): seq<Outcome> {
    if outcomes == [] then []
    else
      var last := outcomes[|outcomes| - 1];
      Scan(outcomes[..|outcomes| - 1], p) + if ProvenanceOf(last) == p then [last] else []
  }

  /** One outcome has the edge's provenance, and it is PRESENT. */
  predicate Established(outcomes: seq<Outcome>, r: Relationship) {
    |Scan(outcomes, r.provenance)| == 1 && Scan(outcomes, r.provenance)[0].state == PRESENT
  }

  ghost predicate AllEstablished(g: Graph) {
    forall r :: r in g.relationships ==> Established(g.outcomes, r)
  }

  /** Complete declared-source provenance. */
  ghost predicate Provenanced(g: Graph) {
    && g.contracts != [] && g.artifacts != [] && g.outcomes != []
    && OneObservation(g)
    && SameSources(g) && Answered(g)
    && UniqueReferences(g.artifacts) && Supported(g)
    && AllEstablished(g)
  }

  function TrailObserving(id: Relationship -> Uuid, k: Uuid): Relationship -> bool {
    (r: Relationship) => FromTrail(r) && id(r) == k
  }

  /** No observation of a trail edge was submitted twice. */
  ghost predicate TrailEdgesOnce(id: Relationship -> Uuid, raw: seq<Relationship>) {
    forall k :: Count(raw, TrailObserving(id, k)) <= 1
  }

  /** The CloudTrail sources are the five of each admitted trail, and the edges their destinations. */
  ghost predicate TrailsComplete(s: Settings, g: Graph) {
    && TrailSources(ContextOf(s, g), ById(ContractId(), g.contracts), g.outcomes)
    && TrailEdges(ContextOf(s, g), g.outcomes, s.locations(g), g.relationships)
  }

  ghost predicate Complete(s: Settings, g: Graph, raw: seq<Relationship>) {
    && Provenanced(g)
    && (Applies(g.outcomes) ==> s.s3Sources(g))
    && (HasTrailEvidence(g.outcomes) ==> TrailsComplete(s, g) && TrailEdgesOnce(EdgeId(s.h), raw))
    && Holds(ContextOf(s, g), g.outcomes, g.relationships, raw)
  }

  ghost predicate Accepted(s: Settings, raw: Graph, g: Graph) {
    Canonicalizes(s, raw, g) && Complete(s, g, raw.relationships)
  }

  // ----- The validator -----

  ghost predicate Finds(byReference: map<string, Artifact>, artifacts: seq<Artifact>) {
    && (forall a :: a in artifacts ==> a.reference in byReference && byReference[a.reference] == a)
    && (forall k :: k in byReference ==> byReference[k] in artifacts && byReference[k].reference == k)
  }

  predicate OfGraph(g: Graph, a: Artifact) {
    a.scan == g.scan && a.account == g.account && a.collectedAt == g.collectedAt
  }

  method IndexArtifacts(g: Graph) returns (ok: bool, byReference: map<string, Artifact>)
    requires StrictlyAscending(ArtifactId(), g.artifacts)
    ensures ok <==> UniqueReferences(g.artifacts) && AllOfGraph(g, g.artifacts)
    ensures ok ==> byReference == ByReference(g.artifacts) && Finds(byReference, g.artifacts)
  {
    byReference := map[];
    for i := 0 to |g.artifacts|
      invariant ArtifactsRead(g, i, byReference)
    {
      var a := g.artifacts[i];
      NextArtifact(g, i, byReference);
      if !OfGraph(g, a) || (a.reference in byReference && byReference[a.reference].artifactId != a.artifactId) {
        return false, byReference;
      }
      byReference := byReference[a.reference := a];
    }
    assert g.artifacts[..|g.artifacts|] == g.artifacts;
    FindsUnique(g.artifacts, byReference);
    ok := true;
  }

  /** The first i artifacts are in order and indexed. */
  ghost predicate ArtifactsRead(g: Graph, i: nat, byReference: map<string, Artifact>)
    requires i <= |g.artifacts|
  {
    && AllOfGraph(g, g.artifacts[..i])
    && Finds(byReference, g.artifacts[..i])
    && byReference == ByReference(g.artifacts[..i])
  }

  lemma NextArtifact(g: Graph, i: nat, byReference: map<string, Artifact>)
    requires StrictlyAscending(ArtifactId(), g.artifacts) && i < |g.artifacts| && ArtifactsRead(g, i, byReference)
    ensures var a := g.artifacts[i];
            if !OfGraph(g, a) then !AllOfGraph(g, g.artifacts)
            else if a.reference in byReference && byReference[a.reference].artifactId != a.artifactId
            then !UniqueReferences(g.artifacts)
            else ArtifactsRead(g, i + 1, byReference[a.reference := a])
  {
    var a := g.artifacts[i];
    assert a in g.artifacts && g.artifacts[..i + 1] == g.artifacts[..i] + [a];
    if a.reference in byReference && byReference[a.reference].artifactId != a.artifactId {
      SharedReference(g.artifacts, i, byReference);
    } else {
      FreshReference(g.artifacts, i, byReference);
      FindsAppend(g.artifacts[..i], byReference, a);
    }
  }

  ghost predicate AllOfGraph(g: Graph, artifacts: seq<Artifact>) {
    forall a :: a in artifacts ==> OfGraph(g, a)
  }

  lemma FindsUnique(artifacts: seq<Artifact>, byReference: map<string, Artifact>)
    requires Finds(byReference, artifacts)
    ensures UniqueReferences(artifacts)
  {
  }

  lemma SharedReference(artifacts: seq<Artifact>, i: nat, byReference: map<string, Artifact>)
    requires i < |artifacts| && Finds(byReference, artifacts[..i]) && artifacts[i].reference in byReference
    requires byReference[artifacts[i].reference].artifactId != artifacts[i].artifactId
    ensures !UniqueReferences(artifacts)
  {
    assert byReference[artifacts[i].reference] in artifacts && artifacts[i] in artifacts;
  }

  /** A reference met before, with the identifier met now, would be the same artifact twice. */
  lemma FreshReference(artifacts: seq<Artifact>, i: nat, byReference: map<string, Artifact>)
    requires StrictlyAscending(ArtifactId(), artifacts) && i < |artifacts|
    requires Finds(byReference, artifacts[..i])
    requires artifacts[i].reference in byReference ==>
               byReference[artifacts[i].reference].artifactId == artifacts[i].artifactId
    ensures artifacts[i].reference !in byReference
  {
    forall a | a in artifacts[..i] ensures ArtifactId()(a) < ArtifactId()(artifacts[i]) {
      var j :| 0 <= j < i && artifacts[j] == a;
    }
  }

  lemma FindsAppend(artifacts: seq<Artifact>, byReference: map<string, Artifact>, a: Artifact)
    requires Finds(byReference, artifacts) && a.reference !in byReference
    ensures Finds(byReference[a.reference := a], artifacts + [a])
    ensures ByReference(artifacts + [a]) == ByReference(artifacts)[a.reference := a]
  {
    assert (artifacts + [a])[..|artifacts|] == artifacts;
  }

  predicate ContractPlaced(g: Graph, c: Contract) {
    c.scan == g.scan && c.account == g.account
  }

  predicate OutcomePlaced(g: Graph, o: Outcome) {
    o.scan == g.scan && o.account == g.account && o.collectedAt == g.collectedAt
  }

  predicate CitesOne(byReference: map<string, Artifact>, o: Outcome) {
    o.reference in byReference && Cites(o, byReference[o.reference])
  }

  ghost predicate SourceOk(g: Graph, byReference: map<string, Artifact>, c: Contract, o: Outcome) {
    ContractPlaced(g, c) && OutcomePlaced(g, o) && MatchesOutcome(c, o) && CitesOne(byReference, o)
  }

  ghost predicate SourcesOk(g: Graph, byReference: map<string, Artifact>) {
    forall c, o :: Reports(g, c, o) ==> SourceOk(g, byReference, c, o)
  }

  ghost predicate AllCited(g: Graph) {
    forall a :: a in g.artifacts ==> exists o :: o in g.outcomes && o.reference == a.reference
  }

  /** The contract's own outcome is in order, and cites an artifact of the graph. */
  ghost predicate Visited(g: Graph, byReference: map<string, Artifact>, outcomeById: map<Uuid, Outcome>, c: Contract) {
    c.outcomeId in outcomeById && SourceOk(g, byReference, c, outcomeById[c.outcomeId])
  }

  ghost predicate CitedBy(
    byReference: map<string, Artifact>, outcomeById: map<Uuid, Outcome>, contracts: seq<Contract>, id: Uuid)
  {
    exists c :: && c in contracts && c.outcomeId in outcomeById
                && outcomeById[c.outcomeId].reference in byReference
                && byReference[outcomeById[c.outcomeId].reference].artifactId == id
  }

  method VisitContracts(g: Graph, byReference: map<string, Artifact>, outcomeById: map<Uuid, Outcome>)
    returns (ok: bool, referenced: set<Uuid>)
    requires forall c :: c in g.contracts ==> c.outcomeId in outcomeById
    ensures ok <==> forall c :: c in g.contracts ==> Visited(g, byReference, outcomeById, c)
    ensures ok ==> forall id :: id in referenced <==> CitedBy(byReference, outcomeById, g.contracts, id)
  {
    referenced := {};
    for i := 0 to |g.contracts|
      invariant forall c :: c in g.contracts[..i] ==> Visited(g, byReference, outcomeById, c)
      invariant forall id :: id in referenced <==> CitedBy(byReference, outcomeById, g.contracts[..i], id)
    {
      var c := g.contracts[i];
      assert c in g.contracts && g.contracts[..i + 1] == g.contracts[..i] + [c];
      var o := outcomeById[c.outcomeId];
      if !ContractPlaced(g, c) || !OutcomePlaced(g, o) || !MatchesOutcome(c, o) || !CitesOne(byReference, o) {
        return false, referenced;
      }
      CitedAppend(byReference, outcomeById, g.contracts[..i], c);
      referenced := referenced + {byReference[o.reference].artifactId};
    }
    assert g.contracts[..|g.contracts|] == g.contracts;
    ok := true;
  }

  lemma CitedAppend(
    byReference: map<string, Artifact>, outcomeById: map<Uuid, Outcome>, contracts: seq<Contract>, c: Contract)
    requires c.outcomeId in outcomeById && outcomeById[c.outcomeId].reference in byReference
    ensures forall id :: CitedBy(byReference, outcomeById, contracts + [c], id) <==>
              CitedBy(byReference, outcomeById, contracts, id)
              || id == byReference[outcomeById[c.outcomeId].reference].artifactId
  {
    assert c in contracts + [c] && forall d :: d in contracts ==> d in contracts + [c];
  }

  /** Every declared source, with its outcome and the artifact that outcome cites. */
  method CheckSources(g: Graph, byReference: map<string, Artifact>) returns (ok: bool)
    requires StrictlyAscending(ContractId(), g.contracts) && StrictlyAscending(OutcomeId(), g.outcomes)
    requires StrictlyAscending(ArtifactId(), g.artifacts) && Finds(byReference, g.artifacts)
    ensures ok <==> SameSources(g) && SourcesOk(g, byReference) && AllCited(g)
  {
    var contractById, outcomeById := ById(ContractId(), g.contracts), ById(OutcomeId(), g.outcomes);
    ByIdFinds(ContractId(), g.contracts);
    ByIdFinds(OutcomeId(), g.outcomes);
    SourcesAsKeys(g, contractById, outcomeById);
    if contractById.Keys != outcomeById.Keys {
      return false;
    }
    forall c | c in g.contracts ensures c.outcomeId in outcomeById {
      assert ContractId()(c) in contractById.Keys;
    }
    var referenced;
    ok, referenced := VisitContracts(g, byReference, outcomeById);
    VisitedAll(g, byReference, outcomeById);
    if ok {
      ok := referenced == set a | a in g.artifacts :: a.artifactId;
      ReferencedAll(g, byReference, outcomeById, referenced);
    }
  }

  ghost predicate FindsOutcomes(outcomeById: map<Uuid, Outcome>, outcomes: seq<Outcome>) {
    && (forall o :: o in outcomes ==> OutcomeId()(o) in outcomeById && outcomeById[OutcomeId()(o)] == o)
    && (forall k :: k in outcomeById ==> outcomeById[k] in outcomes && OutcomeId()(outcomeById[k]) == k)
  }

  lemma VisitedAll(g: Graph, byReference: map<string, Artifact>, outcomeById: map<Uuid, Outcome>)
    requires FindsOutcomes(outcomeById, g.outcomes)
    requires forall c :: c in g.contracts ==> c.outcomeId in outcomeById
    ensures (forall c :: c in g.contracts ==> Visited(g, byReference, outcomeById, c)) <==> SourcesOk(g, byReference)
  {
    forall c, o | Reports(g, c, o) ensures outcomeById[c.outcomeId] == o {
      assert outcomeById[OutcomeId()(o)] == o;
    }
    forall c | c in g.contracts ensures Reports(g, c, outcomeById[c.outcomeId]) {
      assert OutcomeId()(outcomeById[c.outcomeId]) == c.outcomeId;
    }
  }

  lemma SourcesAsKeys(g: Graph, contractById: map<Uuid, Contract>, outcomeById: map<Uuid, Outcome>)
    requires forall c :: c in g.contracts ==> ContractId()(c) in contractById && contractById[ContractId()(c)] == c
    requires forall k :: k in contractById ==> contractById[k] in g.contracts && ContractId()(contractById[k]) == k
    requires forall o :: o in g.outcomes ==> OutcomeId()(o) in outcomeById && outcomeById[OutcomeId()(o)] == o
    requires forall k :: k in outcomeById ==> outcomeById[k] in g.outcomes && OutcomeId()(outcomeById[k]) == k
    ensures contractById.Keys == outcomeById.Keys <==> SameSources(g)
  {
    forall k ensures k in contractById <==> k in ContractIds(g) {
      if k in ContractIds(g) {
        var c :| c in g.contracts && c.outcomeId == k;
        assert ContractId()(c) == k;
      }
    }
    forall k ensures k in outcomeById <==> k in OutcomeIds(g) {
      if k in OutcomeIds(g) {
        var o :| o in g.outcomes && o.outcomeId == k;
        assert OutcomeId()(o) == k;
      }
    }
    assert contractById.Keys == ContractIds(g) && outcomeById.Keys == OutcomeIds(g);
  }

  lemma CitedExactly(g: Graph, byReference: map<string, Artifact>, outcomeById: map<Uuid, Outcome>, a: Artifact)
    requires StrictlyAscending(ArtifactId(), g.artifacts) && Finds(byReference, g.artifacts) && a in g.artifacts
    requires FindsOutcomes(outcomeById, g.outcomes) && SameSources(g)
    requires forall c :: c in g.contracts ==> c.outcomeId in outcomeById
    ensures CitedBy(byReference, outcomeById, g.contracts, a.artifactId) <==>
              exists o :: o in g.outcomes && o.reference == a.reference
  {
    if CitedBy(byReference, outcomeById, g.contracts, a.artifactId) {
      var c :| c in g.contracts && c.outcomeId in outcomeById && outcomeById[c.outcomeId].reference in byReference
               && byReference[outcomeById[c.outcomeId].reference].artifactId == a.artifactId;
      var o := outcomeById[c.outcomeId];
      SameArtifact(g.artifacts, a, byReference[o.reference]);
      assert o in g.outcomes && o.reference == a.reference;
    }
    if o :| o in g.outcomes && o.reference == a.reference {
      var c := DeclarationOf(g, o);
      assert outcomeById[OutcomeId()(o)] == o && byReference[o.reference] == a;
    }
  }

  lemma ReferencedAll(
    g: Graph, byReference: map<string, Artifact>, outcomeById: map<Uuid, Outcome>, referenced: set<Uuid>)
    requires StrictlyAscending(ArtifactId(), g.artifacts) && Finds(byReference, g.artifacts)
    requires FindsOutcomes(outcomeById, g.outcomes) && SameSources(g)
    requires forall c :: c in g.contracts ==> c.outcomeId in outcomeById
    requires forall id :: id in referenced <==> CitedBy(byReference, outcomeById, g.contracts, id)
    ensures referenced == (set a | a in g.artifacts :: a.artifactId) <==> AllCited(g)
  {
    var all := set a | a in g.artifacts :: a.artifactId;
    forall id | id in referenced ensures id in all {
      var c :| c in g.contracts && c.outcomeId in outcomeById && outcomeById[c.outcomeId].reference in byReference
               && byReference[outcomeById[c.outcomeId].reference].artifactId == id;
    }
    forall a | a in g.artifacts
      ensures a.artifactId in referenced <==> exists o :: o in g.outcomes && o.reference == a.reference
    {
      CitedExactly(g, byReference, outcomeById, a);
    }
    assert referenced == all <==> forall a :: a in g.artifacts ==> a.artifactId in referenced;
  }

  lemma SameArtifact(artifacts: seq<Artifact>, a: Artifact, b: Artifact)
    requires StrictlyAscending(ArtifactId(), artifacts) && a in artifacts && b in artifacts
              && a.artifactId == b.artifactId
    ensures a == b
  {
    var i :| 0 <= i < |artifacts| && artifacts[i] == a;
    var j :| 0 <= j < |artifacts| && artifacts[j] == b;
    assert i < j ==> ArtifactId()(artifacts[i]) < ArtifactId()(artifacts[j]);
    assert j < i ==> ArtifactId()(artifacts[j]) < ArtifactId()(artifacts[i]);
  }

  function OutcomesAt(index: map<Provenance, seq<Outcome>>, p: Provenance): seq<Outcome> {
    if p in index then index[p] else []
  }

  lemma IndexedAppend(index: map<Provenance, seq<Outcome>>, outcomes: seq<Outcome>, o: Outcome)
    requires forall p :: OutcomesAt(index, p) == Scan(outcomes, p)
    requires forall p :: p in index <==> Scan(outcomes, p) != []
    ensures var key := ProvenanceOf(o);
            var now := index[key := OutcomesAt(index, key) + [o]];
            && (forall p :: OutcomesAt(now, p) == Scan(outcomes + [o], p))
            && (forall p :: p in now <==> Scan(outcomes + [o], p) != [])
  {
    hide Scan;
    forall p
      ensures Scan(outcomes + [o], p)
              == if p == ProvenanceOf(o) then Scan(outcomes, p) + [o] else Scan(outcomes, p)
    {
      ScanAppend(outcomes, o, p);
    }
  }

  lemma ScanAppend(outcomes: seq<Outcome>, o: Outcome, p: Provenance)
    ensures Scan(outcomes + [o], p) == if p == ProvenanceOf(o) then Scan(outcomes, p) + [o] else Scan(outcomes, p)
  {
    assert (outcomes + [o])[..|outcomes|] == outcomes;
  }

  /** The index holds, for every provenance, what a linear scan finds, ambiguity included. */
  method IndexByProvenance(outcomes: seq<Outcome>) returns (index: map<Provenance, seq<Outcome>>)
    ensures forall p :: OutcomesAt(index, p) == Scan(outcomes, p)
    ensures forall p :: p in index <==> Scan(outcomes, p) != []
  {
    index := map[];
    for i := 0 to |outcomes|
      invariant forall p :: OutcomesAt(index, p) == Scan(outcomes[..i], p)
      invariant forall p :: p in index <==> Scan(outcomes[..i], p) != []
    {
      assert outcomes[..i + 1] == outcomes[..i] + [outcomes[i]];
      IndexedAppend(index, outcomes[..i], outcomes[i]);
      var key := ProvenanceOf(outcomes[i]);
      index := index[key := OutcomesAt(index, key) + [outcomes[i]]];
    }
    assert outcomes[..|outcomes|] == outcomes;
  }

  predicate EdgeOfGraph(g: Graph, r: Relationship) {
    r.edge.scan == g.scan && r.account == g.account
  }

  method CheckRelationships(g: Graph) returns (ok: bool)
    ensures ok <==> forall r :: r in g.relationships ==> EdgeOfGraph(g, r) && Established(g.outcomes, r)
  {
    var index := IndexByProvenance(g.outcomes);
    for i := 0 to |g.relationships|
      invariant forall r :: r in g.relationships[..i] ==> EdgeOfGraph(g, r) && Established(g.outcomes, r)
    {
      var r := g.relationships[i];
      assert r in g.relationships && g.relationships[..i + 1] == g.relationships[..i] + [r];
      if !EdgeOfGraph(g, r) {
        return false;
      }
      var matches := OutcomesAt(index, r.provenance);
      assert matches == Scan(g.outcomes, r.provenance);
      if |matches| != 1 || matches[0].state != PRESENT {
        return false;
      }
    }
    assert g.relationships[..|g.relationships|] == g.relationships;
    ok := true;
  }

  /** Submissions with the same records store the same tuples. */
  lemma StoredDetermined(s: Settings, raw: Graph, g: Graph, raw': Graph, g': Graph)
    requires Canonicalizes(s, raw, g) && Canonicalizes(s, raw', g')
    requires raw.scan == raw'.scan && raw.account == raw'.account && raw.collectedAt == raw'.collectedAt
    requires SameElements(raw.contracts, raw'.contracts) && SameElements(raw.artifacts, raw'.artifacts)
    requires SameElements(raw.outcomes, raw'.outcomes) && SameElements(raw.relationships, raw'.relationships)
    ensures g == g'
  {
    AscendingDetermined(ContractId(), g.contracts, g'.contracts);
    AscendingDetermined(ArtifactId(), g.artifacts, g'.artifacts);
    AscendingDetermined(OutcomeId(), g.outcomes, g'.outcomes);
    AscendingDetermined(EdgeId(s.h), g.relationships, g'.relationships);
  }

  /** The four lists, each record once; None if two records conflict over an identifier. */
  method Canonicalize(s: Settings, raw: Graph) returns (r: Option<Graph>)
    ensures r.Some? ==> Canonicalizes(s, raw, r.value)
    ensures r.None? ==> forall g :: !Canonicalizes(s, raw, g)
  {
    var contracts := Deduplicate(ContractId(), raw.contracts);
    var artifacts := Deduplicate(ArtifactId(), raw.artifacts);
    var outcomes := Deduplicate(OutcomeId(), raw.outcomes);
    var relationships := Deduplicate(EdgeId(s.h), raw.relationships);
    if contracts.None? || artifacts.None? || outcomes.None? || relationships.None? {
      forall g ensures !Canonicalizes(s, raw, g) {
        if Canonicalizes(s, raw, g) {
          ListingConsistent(ContractId(), g.contracts, raw.contracts);
          ListingConsistent(ArtifactId(), g.artifacts, raw.artifacts);
          ListingConsistent(OutcomeId(), g.outcomes, raw.outcomes);
          ListingConsistent(EdgeId(s.h), g.relationships, raw.relationships);
        }
      }
      return None;
    }
    r := Some(Graph(raw.scan, raw.account, raw.collectedAt,
                    contracts.value, artifacts.value, outcomes.value, relationships.value));
  }

  lemma StoredIdsDistinct(s: Settings, g: Graph)
    requires StrictlyAscending(EdgeId(s.h), g.relationships)
    ensures DistinctIds(IdsOf(ContextOf(s, g)), g.relationships)
  {
    forall r, t | r in g.relationships && t in g.relationships && EdgeId(s.h)(r) == EdgeId(s.h)(t) ensures r == t {
      ListingConsistent(EdgeId(s.h), g.relationships, g.relationships);
    }
    assert forall r :: IdsOf(ContextOf(s, g))(r) == EdgeId(s.h)(r);
  }

  ghost predicate RecordsPlaced(g: Graph) {
    && (forall c :: c in g.contracts ==> ContractPlaced(g, c))
    && (forall o :: o in g.outcomes ==> OutcomePlaced(g, o))
  }

  ghost predicate OutcomesCite(g: Graph, byReference: map<string, Artifact>) {
    forall o :: o in g.outcomes ==> CitesOne(byReference, o)
  }

  lemma SourceParts(g: Graph, byReference: map<string, Artifact>, c: Contract, o: Outcome)
    requires Reports(g, c, o) && SourcesOk(g, byReference)
    ensures ContractPlaced(g, c) && OutcomePlaced(g, o) && MatchesOutcome(c, o) && CitesOne(byReference, o)
  {
    assert SourceOk(g, byReference, c, o);
  }

  /** Checking each contract against its outcome checks every contract and every outcome. */
  lemma SourcesInOrder(g: Graph, byReference: map<string, Artifact>)
    requires SameSources(g) && SourcesOk(g, byReference)
    ensures Answered(g) && RecordsPlaced(g) && OutcomesCite(g, byReference)
  {
    forall c, o | Reports(g, c, o) ensures MatchesOutcome(c, o) {
      SourceParts(g, byReference, c, o);
    }
    forall c | c in g.contracts ensures ContractPlaced(g, c) {
      var o := ReportOf(g, c);
      SourceParts(g, byReference, c, o);
    }
    forall o | o in g.outcomes ensures OutcomePlaced(g, o) && CitesOne(byReference, o) {
      var c := DeclarationOf(g, o);
      SourceParts(g, byReference, c, o);
    }
  }

  lemma OrderIsEnough(g: Graph, byReference: map<string, Artifact>)
    requires Answered(g) && RecordsPlaced(g) && OutcomesCite(g, byReference)
    ensures SourcesOk(g, byReference)
  {
  }

  lemma CitationsSupport(g: Graph, byReference: map<string, Artifact>)
    requires Finds(byReference, g.artifacts)
    ensures OutcomesCite(g, byReference) && AllCited(g) <==> Supported(g)
  {
    if OutcomesCite(g, byReference) && AllCited(g) {
      forall a | a in g.artifacts ensures exists o :: o in g.outcomes && Cites(o, a) {
        var o :| o in g.outcomes && o.reference == a.reference;
        assert byReference[o.reference] == a;
      }
    }
    if Supported(g) {
      forall a | a in g.artifacts ensures exists o :: o in g.outcomes && o.reference == a.reference {
        var o :| o in g.outcomes && Cites(o, a);
      }
      forall o | o in g.outcomes ensures CitesOne(byReference, o) {
        var a :| a in g.artifacts && Cites(o, a);
      }
    }
  }

  /** The loops' verdicts, taken together, are complete provenance. */
  lemma VerdictsSuffice(g: Graph, byReference: map<string, Artifact>)
    requires Finds(byReference, g.artifacts) && SameSources(g)
    ensures SourcesOk(g, byReference) && AllCited(g) <==> Answered(g) && RecordsPlaced(g) && Supported(g)
  {
    CitationsSupport(g, byReference);
    if SourcesOk(g, byReference) {
      SourcesInOrder(g, byReference);
    } else if Answered(g) && RecordsPlaced(g) && OutcomesCite(g, byReference) {
      OrderIsEnough(g, byReference);
    }
  }

  method CheckSourcesAndArtifacts(g: Graph) returns (ok: bool)
    requires StrictlyAscending(ContractId(), g.contracts) && StrictlyAscending(ArtifactId(), g.artifacts)
    requires StrictlyAscending(OutcomeId(), g.outcomes)
    ensures ok <==>
              && UniqueReferences(g.artifacts) && AllOfGraph(g, g.artifacts)
              && SameSources(g) && Answered(g) && RecordsPlaced(g) && Supported(g)
  {
    var byReference;
    ok, byReference := IndexArtifacts(g);
    if ok {
      ok := CheckSources(g, byReference);
      if SameSources(g) {
        VerdictsSuffice(g, byReference);
      }
    }
  }

  method CheckProvenance(g: Graph) returns (ok: bool)
    requires StrictlyAscending(ContractId(), g.contracts) && StrictlyAscending(ArtifactId(), g.artifacts)
    requires StrictlyAscending(OutcomeId(), g.outcomes)
    ensures ok <==> Provenanced(g)
  {
    if g.contracts == [] || g.artifacts == [] || g.outcomes == [] {
      return false;
    }
    ok := CheckSourcesAndArtifacts(g);
    if ok {
      ok := CheckRelationships(g);
    }
  }

  /** The trail edges are as many as their observation identifiers. */
  method CheckTrailEdges(id: Relationship -> Uuid, raw: seq<Relationship>) returns (ok: bool)
    ensures ok <==> TrailEdgesOnce(id, raw)
  {
    var edges, ids: set<Uuid> := 0, {};
    for i := 0 to |raw|
      invariant |ids| <= edges
      invariant forall k :: k in ids <==> Count(raw[..i], TrailObserving(id, k)) > 0
      invariant |ids| == edges <==> TrailEdgesOnce(id, raw[..i])
    {
      TrailAppend(id, raw[..i], raw[i]);
      assert raw[..i + 1] == raw[..i] + [raw[i]];
      if FromTrail(raw[i]) {
        edges, ids := edges + 1, ids + {id(raw[i])};
      }
    }
    assert raw[..|raw|] == raw;
    ok := |ids| == edges;
  }

  lemma TrailAppend(id: Relationship -> Uuid, raw: seq<Relationship>, r: Relationship)
    ensures forall k ::
              Count(raw + [r], TrailObserving(id, k))
              == Count(raw, TrailObserving(id, k)) + if FromTrail(r) && id(r) == k then 1 else 0
    ensures TrailEdgesOnce(id, raw + [r]) <==>
              TrailEdgesOnce(id, raw) && (FromTrail(r) ==> Count(raw, TrailObserving(id, id(r))) == 0)
  {
    assert (raw + [r])[..|raw|] == raw;
    forall k: Uuid
      ensures Count(raw + [r], TrailObserving(id, k))
              == Count(raw, TrailObserving(id, k)) + if FromTrail(r) && id(r) == k then 1 else 0
    {
    }
    if TrailEdgesOnce(id, raw + [r]) {
      forall k ensures Count(raw, TrailObserving(id, k)) <= 1 {
        assert Count(raw + [r], TrailObserving(id, k)) <= 1;
      }
      assert Count(raw + [r], TrailObserving(id, id(r))) <= 1;
    }
  }

  lemma AscendingDiffer<T(!new)>(key: T -> Uuid, s: seq<T>)
    requires StrictlyAscending(key, s)
    ensures forall i, j :: 0 <= i < j < |s| ==> s[i] != s[j]
  {
    forall i, j | 0 <= i < j < |s| ensures s[i] != s[j] {
      assert key(s[i]) < key(s[j]);
    }
  }

  method CheckTrails(s: Settings, g: Graph, raw: seq<Relationship>) returns (ok: bool)
    requires StrictlyAscending(OutcomeId(), g.outcomes) && StrictlyAscending(EdgeId(s.h), g.relationships)
    ensures ok <==> TrailsComplete(s, g) && TrailEdgesOnce(EdgeId(s.h), raw)
  {
    hide TrailEdges, TrailEdgesOnce;
    AscendingDiffer(OutcomeId(), g.outcomes);
    AscendingDiffer(EdgeId(s.h), g.relationships);
    ok := CheckTrailSources(ContextOf(s, g), ById(ContractId(), g.contracts), g.outcomes);
    if ok {
      ok := CheckTrailEdges(EdgeId(s.h), raw);
    }
    if ok {
      ok := CheckDestinations(ContextOf(s, g), g.outcomes, s.locations(g), g.relationships);
    }
  }

  /** The checks that follow canonicalisation. */
  method CheckGraph(s: Settings, g: Graph, raw: seq<Relationship>) returns (ok: bool)
    requires StrictlyAscending(ContractId(), g.contracts) && StrictlyAscending(ArtifactId(), g.artifacts)
    requires StrictlyAscending(OutcomeId(), g.outcomes) && StrictlyAscending(EdgeId(s.h), g.relationships)
    ensures ok <==> Complete(s, g, raw)
  {
    hide Provenanced, TrailsComplete, TrailEdgesOnce, Holds;
    ok := CheckProvenance(g);
    if !ok || (Applies(g.outcomes) && !s.s3Sources(g)) {
      return false;
    }
    if HasTrailEvidence(g.outcomes) {
      ok := CheckTrails(s, g, raw);
      if !ok {
        return;
      }
    }
    StoredIdsDistinct(s, g);
    ok := CheckManifest(ContextOf(s, g), g.outcomes, g.relationships, raw);
  }

  /** A graph is constructed if and only if one is acceptable, and then it is that one. */
  method Construct(s: Settings, raw: Graph) returns (r: Option<Graph>)
    ensures r.Some? ==> Accepted(s, raw, r.value)
    ensures r.None? ==> forall g :: !Accepted(s, raw, g)
  {
    hide Complete;
    r := Canonicalize(s, raw);
    if r.None? {
      return;
    }
    var ok := CheckGraph(s, r.value, raw.relationships);
    if !ok {
      forall g ensures !Accepted(s, raw, g) {
        if Canonicalizes(s, raw, g) {
          StoredDetermined(s, raw, g, raw, r.value);
        }
      }
      return None;
    }
  }
}
