/** Which inventory resources a constructed graph admits, and the proof each of them rests on. */
module ResourceAdmission {
  import opened Wrappers
  import opened Ordering
  import opened Identities
  import opened JsonValues
  import opened Evidence
  import opened Records
  import opened KmsManifest
  import opened GraphAcceptance

  /** A top-level resource; everything besides its identity is one opaque value. */
  datatype Observed = Observed(resource: Resource, facts: Json)

  /** `bucketRegions` is the reconstructed bucket-location evidence, when there is any. */
  datatype Inventory = Inventory(
    resources: seq<Observed>, requestedRegion: string, bucketRegions: Option<map<string, string>>)

  // ----- What counts as proof -----

  predicate IsHexDigest(s: string) {
    |s| == 64 && forall i :: 0 <= i < |s| ==> '0' <= s[i] <= '9' || 'a' <= s[i] <= 'f'
  }

  predicate IsKey(r: Resource) {
    r.service == "kms" && r.resourceType == "kms_key"
  }

  predicate IsTrail(r: Resource) {
    r.service == "cloudtrail" && r.resourceType == "cloudtrail_trail"
  }

  /** The DescribeKey identity proof of a canonical KMS key. */
  predicate IsKeyAuthority(c: Contract) {
    && c.phase == ENRICHMENT && c.subject.ResourceSubject? && IsKey(c.subject.resource)
    && c.key == c.evidenceKind
    && StartsWith(c.evidenceKind, "kms.key.") && IsHexDigest(c.evidenceKind[8..])
    && c.collector == "kms.keys" && c.collectorVersion == "1.0.0" && c.sourceApi == "kms:DescribeKey"
    && c.identityAuthoritative
  }

  /** The ListTrails proof of one trail and its home Region. */
  predicate IsTrailAuthority(c: Contract) {
    && c.subject.ResourceSubject? && IsTrail(c.subject.resource) && c.subject.resource.scope == REGIONAL
    && c.key == "cloudtrail.trail.identity" && c.version == "1.0.0"
    && c.evidenceKind == "cloudtrail.trail.identity" && c.collector == "cloudtrail.trails"
    && c.collectorVersion == "1.0.0" && c.sourceApi == "cloudtrail:ListTrails"
    && c.phase == ENRICHMENT && c.single && c.identityAuthoritative && !c.allowsSupplementalRegion
  }

  predicate IsEncryptionSource(o: Outcome) {
    && o.state == PRESENT && o.phase == ENRICHMENT && o.subject.ResourceSubject? && IsBucket(o.subject.resource)
    && o.evidenceKind == "s3.bucket-encryption" && o.collector == "s3.bucket-encryption"
    && o.collectorVersion == "1.0.0" && o.sourceApi == "s3:GetEncryptionConfiguration"
  }

  function OwnerOf(account: string, r: Resource): OwnerMode {
    if r.account == "aws" then AWS_MANAGED
    else if r.account != account then EXTERNAL_ACCOUNT
    else COLLECTION_ACCOUNT
  }

  /** One resource, the PRESENT declarations about it, and whether resolved edges reach it. */
  predicate Admissible(
    inv: Inventory, account: string, r: Resource, proofs: seq<Contract>, referenced: bool, encrypts: bool)
  {
    var owner := OwnerOf(account, r);
    && (owner != COLLECTION_ACCOUNT ==> exists c :: c in proofs && c.identityAuthoritative && c.ownerMode == owner)
    && (owner == EXTERNAL_ACCOUNT ==> referenced)
    && (IsKey(r) ==> (exists c :: c in proofs && IsKeyAuthority(c)) && encrypts)
    && (IsBucket(r) && r.account == account && inv.bucketRegions.Some? ==>
          if r.resourceId in inv.bucketRegions.value
          then r.region == Some(inv.bucketRegions.value[r.resourceId])
          else proofs == [])
    && (r.scope == REGIONAL && r.region != Some(inv.requestedRegion) ==>
          InAnotherRegion(inv, account, r, proofs, encrypts))
  }

  /** The grounds on which a resource may lie outside the requested Region. */
  predicate InAnotherRegion(inv: Inventory, account: string, r: Resource, proofs: seq<Contract>, encrypts: bool) {
    || (proofs == [] && (IsTrail(r) || IsBucket(r)))
    || ( && IsBucket(r) && r.account == account && inv.bucketRegions.Some?
         && r.resourceId in inv.bucketRegions.value && r.region == Some(inv.bucketRegions.value[r.resourceId]))
    || (IsKey(r) && (exists c :: c in proofs && IsKeyAuthority(c)) && encrypts)
    || (IsTrail(r) && exists c :: c in proofs && IsTrailAuthority(c))
    || (exists c :: c in proofs && c.allowsSupplementalRegion)
  }

  // ----- The resources by snapshot -----

  function SnapshotOf(s: Settings, g: Graph): Resource -> Uuid {
    (r: Resource) => SnapshotId(s.h, g.scan, r)
  }

  ghost predicate InventoryOk(snapshot: Resource -> Uuid, resources: seq<Observed>) {
    && (forall a :: a in resources ==> ScopeCanonical(a.resource))
    && (forall a, b :: a in resources && b in resources && snapshot(a.resource) == snapshot(b.resource) ==> a == b)
  }

  ghost predicate Knows(snapshot: Resource -> Uuid, resources: seq<Observed>, known: map<Uuid, Observed>) {
    && (forall a :: a in resources ==> snapshot(a.resource) in known && known[snapshot(a.resource)] == a)
    && (forall id :: id in known ==> known[id] in resources && snapshot(known[id].resource) == id)
  }

  method IndexResources(snapshot: Resource -> Uuid, resources: seq<Observed>)
    returns (ok: bool, known: map<Uuid, Observed>)
    ensures ok <==> InventoryOk(snapshot, resources)
    ensures ok ==> Knows(snapshot, resources, known)
  {
    known := map[];
    for i := 0 to |resources|
      invariant InventoryOk(snapshot, resources[..i]) && Knows(snapshot, resources[..i], known)
    {
      var a := resources[i];
      assert a in resources && resources[..i + 1] == resources[..i] + [a];
      var id := snapshot(a.resource);
      if !ScopeCanonical(a.resource) || (id in known && known[id] != a) {
        assert id in known ==> known[id] in resources;
        return false, known;
      }
      known := known[id := a];
    }
    assert resources[..|resources|] == resources;
    ok := true;
  }

  /** An exact top-level snapshot exists for the identity. */
  predicate Present(snapshot: Resource -> Uuid, known: map<Uuid, Observed>, r: Resource) {
    snapshot(r) in known && known[snapshot(r)].resource == r
  }

  // ----- First loop: the proofs of each snapshot -----

  /** A PRESENT resource outcome, as a proof about its subject. */
  datatype Proof = Proof(subject: Resource, contract: Contract, buckets: set<string>)

  function NamesIn(names: Json): set<string> {
    set n | n in Items(names) && n.Text? :: n.text
  }

  /** A sorted list of distinct non-empty names. */
  predicate NamesOk(names: Json) {
    && names.List? && names.items != [] && "" !in NamesIn(names)
    && names == List(Texts(SortedText(NamesIn(names))))
  }

  function ContractOf(g: Graph, o: Outcome): Option<Contract> {
    var contracts := ById(ContractId(), g.contracts);
    if o.outcomeId in contracts then Some(contracts[o.outcomeId]) else None
  }

  function NamesOf(s: Settings, g: Graph, o: Outcome): Json {
    Field(ContextOf(s, g), o, "source_bucket_names")
  }

  function ProofOf(s: Settings, g: Graph): Outcome -> Option<Proof> {
    (o: Outcome) =>
      if o.state != PRESENT || !o.subject.ResourceSubject? || ContractOf(g, o).None? then None
      else
        var c := ContractOf(g, o).value;
        Some(Proof(o.subject.resource, c, if IsKeyAuthority(c) then NamesIn(NamesOf(s, g, o)) else {}))
  }

  /** A key proof must name its buckets properly. */
  function NamesGood(s: Settings, g: Graph): Outcome -> bool {
    (o: Outcome) => ContractOf(g, o).Some? && IsKeyAuthority(ContractOf(g, o).value) ==> NamesOk(NamesOf(s, g, o))
  }

  function ProofsOf(
    proofOf: Outcome -> Option<Proof>, snapshot: Resource -> Uuid, outcomes: seq<Outcome>, id: Uuid): seq<Contract>
  {
    if outcomes == [] then []
    else
      var last := proofOf(outcomes[|outcomes| - 1]);
      ProofsOf(proofOf, snapshot, outcomes[..|outcomes| - 1], id)
      + if last.Some? && snapshot(last.value.subject) == id then [last.value.contract] else []
  }

  ghost predicate NamedBucket(
    proofOf: Outcome -> Option<Proof>, snapshot: Resource -> Uuid, outcomes: seq<Outcome>, id: Uuid, bucket: string)
  {
    exists o :: && o in outcomes && proofOf(o).Some? && snapshot(proofOf(o).value.subject) == id
                && bucket in proofOf(o).value.buckets
  }

  function ContractsAt(proofs: map<Uuid, seq<Contract>>, id: Uuid): seq<Contract> {
    if id in proofs then proofs[id] else []
  }

  function NamesAt(buckets: map<Uuid, set<string>>, id: Uuid): set<string> {
    if id in buckets then buckets[id] else {}
  }

  ghost predicate ContractsGathered(
    proofOf: Outcome -> Option<Proof>, snapshot: Resource -> Uuid, outcomes: seq<Outcome>,
    proofs: map<Uuid, seq<Contract>>)
  {
    forall id :: ContractsAt(proofs, id) == ProofsOf(proofOf, snapshot, outcomes, id)
  }

  ghost predicate NamesGathered(
    proofOf: Outcome -> Option<Proof>, snapshot: Resource -> Uuid, outcomes: seq<Outcome>,
    buckets: map<Uuid, set<string>>)
  {
    forall id, b :: b in NamesAt(buckets, id) <==> NamedBucket(proofOf, snapshot, outcomes, id, b)
  }

  ghost predicate Gathered(
    proofOf: Outcome -> Option<Proof>, snapshot: Resource -> Uuid, outcomes: seq<Outcome>,
    proofs: map<Uuid, seq<Contract>>, buckets: map<Uuid, set<string>>)
  {
    && ContractsGathered(proofOf, snapshot, outcomes, proofs)
    && NamesGathered(proofOf, snapshot, outcomes, buckets)
  }

  lemma ProofsAppend(
    proofOf: Outcome -> Option<Proof>, snapshot: Resource -> Uuid, outcomes: seq<Outcome>, o: Outcome, id: Uuid)
    ensures ProofsOf(proofOf, snapshot, outcomes + [o], id)
            == ProofsOf(proofOf, snapshot, outcomes, id)
               + if proofOf(o).Some? && snapshot(proofOf(o).value.subject) == id
                 then [proofOf(o).value.contract] else []
  {
    assert (outcomes + [o])[..|outcomes|] == outcomes;
  }

  lemma NamedAppend(
    proofOf: Outcome -> Option<Proof>, snapshot: Resource -> Uuid, outcomes: seq<Outcome>, o: Outcome, id: Uuid,
    bucket: string)
    ensures NamedBucket(proofOf, snapshot, outcomes + [o], id, bucket) <==>
              || NamedBucket(proofOf, snapshot, outcomes, id, bucket)
              || ( && proofOf(o).Some? && snapshot(proofOf(o).value.subject) == id
                   && bucket in proofOf(o).value.buckets)
  {
    assert o in outcomes + [o] && forall x :: x in outcomes ==> x in outcomes + [o];
  }

  lemma ContractsAppend(
    proofOf: Outcome -> Option<Proof>, snapshot: Resource -> Uuid, outcomes: seq<Outcome>,
    proofs: map<Uuid, seq<Contract>>, o: Outcome)
    requires ContractsGathered(proofOf, snapshot, outcomes, proofs)
    ensures proofOf(o).None? ==> ContractsGathered(proofOf, snapshot, outcomes + [o], proofs)
    ensures proofOf(o).Some? ==>
              var p := proofOf(o).value;
              var id := snapshot(p.subject);
              ContractsGathered(proofOf, snapshot, outcomes + [o], proofs[id := ContractsAt(proofs, id) + [p.contract]])
  {
    hide ProofsOf;
    forall k ensures ProofsOf(proofOf, snapshot, outcomes + [o], k)
        == ContractsAt(proofs, k)
           + if proofOf(o).Some? && snapshot(proofOf(o).value.subject) == k then [proofOf(o).value.contract] else []
    {
      ProofsAppend(proofOf, snapshot, outcomes, o, k);
    }
    assert forall k :: ContractsAt(proofs, k) + [] == ContractsAt(proofs, k);
  }

  lemma NamesAppend(
    proofOf: Outcome -> Option<Proof>, snapshot: Resource -> Uuid, outcomes: seq<Outcome>,
    buckets: map<Uuid, set<string>>, o: Outcome)
    requires NamesGathered(proofOf, snapshot, outcomes, buckets)
    ensures proofOf(o).None? ==> NamesGathered(proofOf, snapshot, outcomes + [o], buckets)
    ensures proofOf(o).Some? ==>
              var p := proofOf(o).value;
              var id := snapshot(p.subject);
              NamesGathered(proofOf, snapshot, outcomes + [o], buckets[id := NamesAt(buckets, id) + p.buckets])
  {
    hide NamedBucket;
    forall k, b
      ensures NamedBucket(proofOf, snapshot, outcomes + [o], k, b) <==>
                || b in NamesAt(buckets, k)
                || (proofOf(o).Some? && snapshot(proofOf(o).value.subject) == k && b in proofOf(o).value.buckets)
    {
      NamedAppend(proofOf, snapshot, outcomes, o, k, b);
    }
  }

  lemma GatheredAppend(
    proofOf: Outcome -> Option<Proof>, snapshot: Resource -> Uuid, outcomes: seq<Outcome>,
    proofs: map<Uuid, seq<Contract>>, buckets: map<Uuid, set<string>>, o: Outcome)
    requires Gathered(proofOf, snapshot, outcomes, proofs, buckets)
    ensures if proofOf(o).None? then Gathered(proofOf, snapshot, outcomes + [o], proofs, buckets)
            else
              var p := proofOf(o).value;
              var id := snapshot(p.subject);
              Gathered(proofOf, snapshot, outcomes + [o], proofs[id := ContractsAt(proofs, id) + [p.contract]],
                       buckets[id := NamesAt(buckets, id) + p.buckets])
  {
    hide ContractsGathered, NamesGathered;
    ContractsAppend(proofOf, snapshot, outcomes, proofs, o);
    NamesAppend(proofOf, snapshot, outcomes, buckets, o);
  }

  method GatherProofs(
    proofOf: Outcome -> Option<Proof>, good: Outcome -> bool, snapshot: Resource -> Uuid,
    known: map<Uuid, Observed>, outcomes: seq<Outcome>)
    returns (ok: bool, proofs: map<Uuid, seq<Contract>>, buckets: map<Uuid, set<string>>)
    ensures ok <==> forall o :: o in outcomes && proofOf(o).Some? ==>
              Present(snapshot, known, proofOf(o).value.subject) && good(o)
    ensures ok ==> Gathered(proofOf, snapshot, outcomes, proofs, buckets)
  {
    proofs, buckets := map[], map[];
    for i := 0 to |outcomes|
      invariant forall o :: o in outcomes[..i] && proofOf(o).Some? ==>
                  Present(snapshot, known, proofOf(o).value.subject) && good(o)
      invariant Gathered(proofOf, snapshot, outcomes[..i], proofs, buckets)
    {
      var o := outcomes[i];
      assert o in outcomes && outcomes[..i + 1] == outcomes[..i] + [o];
      GatheredAppend(proofOf, snapshot, outcomes[..i], proofs, buckets, o);
      if proofOf(o).Some? {
        var p := proofOf(o).value;
        if !Present(snapshot, known, p.subject) || !good(o) {
          return false, proofs, buckets;
        }
        var id := snapshot(p.subject);
        proofs := proofs[id := ContractsAt(proofs, id) + [p.contract]];
        buckets := buckets[id := NamesAt(buckets, id) + p.buckets];
      }
    }
    assert outcomes[..|outcomes|] == outcomes;
    ok := true;
  }

  // ----- Second loop: the resolved edges -----

  /** A resolved edge to a known target. */
  predicate IsResolved(r: Relationship) {
    r.resolution == RESOLVED && r.edge.target.Stable?
  }

  predicate EndpointsPresent(snapshot: Resource -> Uuid, known: map<Uuid, Observed>, r: Relationship) {
    && Present(snapshot, known, r.edge.source)
    && (r.resolution == RESOLVED ==> r.edge.target.Stable? && Present(snapshot, known, r.edge.target.resource))
  }

  /** An encryption edge cited from the bucket's own configuration. */
  function FromEncryption(snapshot: Resource -> Uuid, outcomes: seq<Outcome>): Relationship -> bool {
    (r: Relationship) =>
      && IsResolved(r) && r.edge.kind == ENCRYPTED_WITH && IsBucket(r.edge.source) && IsKey(r.edge.target.resource)
      && var found := Scan(outcomes, r.provenance);
      && |found| == 1 && IsEncryptionSource(found[0])
      && snapshot(found[0].subject.resource) == snapshot(r.edge.source)
  }

  ghost predicate Touched(snapshot: Resource -> Uuid, relationships: seq<Relationship>, id: Uuid) {
    exists r :: r in relationships && IsResolved(r)
                && (snapshot(r.edge.source) == id || snapshot(r.edge.target.resource) == id)
  }

  ghost predicate Encrypts(
    snapshot: Resource -> Uuid, named: (Uuid, string) -> bool, cited: Relationship -> bool,
    relationships: seq<Relationship>, id: Uuid)
  {
    exists r :: r in relationships && IsResolved(r) && cited(r)
                && snapshot(r.edge.target.resource) == id && named(id, r.edge.source.resourceId)
  }

  method VisitRelationships(
    snapshot: Resource -> Uuid, named: (Uuid, string) -> bool, cited: Relationship -> bool,
    known: map<Uuid, Observed>, relationships: seq<Relationship>)
    returns (ok: bool, touched: set<Uuid>, encrypted: set<Uuid>)
    ensures ok <==> forall r :: r in relationships ==> EndpointsPresent(snapshot, known, r)
    ensures ok ==> forall id :: id in touched <==> Touched(snapshot, relationships, id)
    ensures ok ==> forall id :: id in encrypted <==> Encrypts(snapshot, named, cited, relationships, id)
  {
    touched, encrypted := {}, {};
    for i := 0 to |relationships|
      invariant forall r :: r in relationships[..i] ==> EndpointsPresent(snapshot, known, r)
      invariant forall id :: id in touched <==> Touched(snapshot, relationships[..i], id)
      invariant forall id :: id in encrypted <==> Encrypts(snapshot, named, cited, relationships[..i], id)
    {
      var r := relationships[i];
      assert r in relationships && relationships[..i + 1] == relationships[..i] + [r];
      if !EndpointsPresent(snapshot, known, r) {
        return false, touched, encrypted;
      }
      VisitedAppend(snapshot, named, cited, relationships[..i], r);
      if IsResolved(r) {
        var target := snapshot(r.edge.target.resource);
        touched := touched + {snapshot(r.edge.source), target};
        if cited(r) && named(target, r.edge.source.resourceId) {
          encrypted := encrypted + {target};
        }
      }
    }
    assert relationships[..|relationships|] == relationships;
    ok := true;
  }

  lemma VisitedAppend(
    snapshot: Resource -> Uuid, named: (Uuid, string) -> bool, cited: Relationship -> bool,
    relationships: seq<Relationship>, r: Relationship)
    ensures forall id :: Touched(snapshot, relationships + [r], id) <==>
              Touched(snapshot, relationships, id)
              || (IsResolved(r) && (snapshot(r.edge.source) == id || snapshot(r.edge.target.resource) == id))
    ensures forall id :: Encrypts(snapshot, named, cited, relationships + [r], id) <==>
              Encrypts(snapshot, named, cited, relationships, id)
              || (IsResolved(r) && cited(r) && snapshot(r.edge.target.resource) == id
                  && named(id, r.edge.source.resourceId))
  {
    assert r in relationships + [r] && forall x :: x in relationships ==> x in relationships + [r];
  }

  // ----- The whole validation -----

  function EncryptsFrom(s: Settings, g: Graph): Relationship -> bool {
    FromEncryption(SnapshotOf(s, g), g.outcomes)
  }

  function ResourceProofs(s: Settings, g: Graph, r: Resource): seq<Contract> {
    ProofsOf(ProofOf(s, g), SnapshotOf(s, g), g.outcomes, SnapshotId(s.h, g.scan, r))
  }

  ghost predicate ReachedByEncryption(s: Settings, g: Graph, id: Uuid) {
    exists r :: && r in g.relationships && IsResolved(r) && EncryptsFrom(s, g)(r)
                && SnapshotOf(s, g)(r.edge.target.resource) == id
                && NamedBucket(ProofOf(s, g), SnapshotOf(s, g), g.outcomes, id, r.edge.source.resourceId)
  }

  ghost predicate InInventory(resources: seq<Observed>, r: Resource) {
    exists a :: a in resources && a.resource == r
  }

  ghost predicate SubjectsPresent(outcomes: seq<Outcome>, resources: seq<Observed>) {
    forall o :: o in outcomes && o.subject.ResourceSubject? ==> InInventory(resources, o.subject.resource)
  }

  ghost predicate EdgesPresent(relationships: seq<Relationship>, resources: seq<Observed>) {
    forall r :: r in relationships ==>
      && InInventory(resources, r.edge.source)
      && (r.resolution == RESOLVED ==> r.edge.target.Stable? && InInventory(resources, r.edge.target.resource))
  }

  ghost predicate NamesProper(s: Settings, g: Graph) {
    forall o :: o in g.outcomes && ProofOf(s, g)(o).Some? ==> NamesGood(s, g)(o)
  }

  ghost predicate EachAdmissible(s: Settings, g: Graph, inv: Inventory) {
    forall a :: a in inv.resources ==>
      Admissible(inv, g.account, a.resource, ResourceProofs(s, g, a.resource),
                 Touched(SnapshotOf(s, g), g.relationships, SnapshotId(s.h, g.scan, a.resource)),
                 ReachedByEncryption(s, g, SnapshotId(s.h, g.scan, a.resource)))
  }

  ghost predicate Admits(s: Settings, g: Graph, inv: Inventory) {
    && InventoryOk(SnapshotOf(s, g), inv.resources)
    && SubjectsPresent(g.outcomes, inv.resources) && EdgesPresent(g.relationships, inv.resources)
    && NamesProper(s, g)
    && EachAdmissible(s, g, inv)
  }

  lemma PresentIsInInventory(
    snapshot: Resource -> Uuid, known: map<Uuid, Observed>, resources: seq<Observed>, r: Resource)
    requires Knows(snapshot, resources, known)
    ensures Present(snapshot, known, r) <==> InInventory(resources, r)
  {
  }

  method CheckSubjects(
    snapshot: Resource -> Uuid, known: map<Uuid, Observed>, ghost resources: seq<Observed>, outcomes: seq<Outcome>)
    returns (ok: bool)
    requires Knows(snapshot, resources, known)
    ensures ok <==> SubjectsPresent(outcomes, resources)
  {
    for i := 0 to |outcomes|
      invariant SubjectsPresent(outcomes[..i], resources)
    {
      var o := outcomes[i];
      assert o in outcomes && outcomes[..i + 1] == outcomes[..i] + [o];
      if o.subject.ResourceSubject? {
        PresentIsInInventory(snapshot, known, resources, o.subject.resource);
        if !Present(snapshot, known, o.subject.resource) {
          return false;
        }
      }
    }
    assert outcomes[..|outcomes|] == outcomes;
    ok := true;
  }

  method CheckEach(inv: Inventory, account: string, snapshot: Resource -> Uuid,
                   proofs: map<Uuid, seq<Contract>>, touched: set<Uuid>, encrypted: set<Uuid>)
    returns (ok: bool)
    ensures ok <==> forall a :: a in inv.resources ==>
              var id := snapshot(a.resource);
              Admissible(inv, account, a.resource, ContractsAt(proofs, id), id in touched, id in encrypted)
  {
    for i := 0 to |inv.resources|
      invariant forall k :: 0 <= k < i ==>
                  var id := snapshot(inv.resources[k].resource);
                  Admissible(inv, account, inv.resources[k].resource, ContractsAt(proofs, id),
                             id in touched, id in encrypted)
    {
      var id := snapshot(inv.resources[i].resource);
      if !Admissible(inv, account, inv.resources[i].resource, ContractsAt(proofs, id), id in touched, id in encrypted) {
        assert inv.resources[i] in inv.resources;
        return false;
      }
    }
    ok := true;
  }

  /** An inventory is accepted beside a graph exactly when every resource rests on its proof. */
  method Admit(s: Settings, g: Graph, inv: Inventory) returns (ok: bool)
    ensures ok <==> Admits(s, g, inv)
  {
    var snapshot := SnapshotOf(s, g);
    var known;
    ok, known := IndexResources(snapshot, inv.resources);
    if !ok {
      return;
    }
    var proofs, buckets;
    ok, proofs, buckets := GatherProofs(ProofOf(s, g), NamesGood(s, g), snapshot, known, g.outcomes);
    ProofSubjectsPresent(s, g, snapshot, known, inv.resources);
    if !ok {
      return;
    }
    var named := (id: Uuid, bucket: string) => bucket in NamesAt(buckets, id);
    var touched, encrypted;
    ok, touched, encrypted := VisitRelationships(snapshot, named, EncryptsFrom(s, g), known, g.relationships);
    EndpointsInInventory(snapshot, known, inv.resources, g.relationships);
    if !ok {
      return;
    }
    ok := CheckSubjects(snapshot, known, inv.resources, g.outcomes);
    if !ok {
      return;
    }
    ok := CheckEach(inv, g.account, snapshot, proofs, touched, encrypted);
    TalliesMatch(s, g, inv, snapshot, named, proofs, buckets, touched, encrypted);
  }

  lemma ProofSubjectsPresent(
    s: Settings, g: Graph, snapshot: Resource -> Uuid, known: map<Uuid, Observed>, resources: seq<Observed>)
    requires Knows(snapshot, resources, known)
    ensures SubjectsPresent(g.outcomes, resources) ==>
              forall o :: o in g.outcomes && ProofOf(s, g)(o).Some? ==>
                Present(snapshot, known, ProofOf(s, g)(o).value.subject)
  {
  }

  lemma EndpointsInInventory(
    snapshot: Resource -> Uuid, known: map<Uuid, Observed>, resources: seq<Observed>, relationships: seq<Relationship>)
    requires Knows(snapshot, resources, known)
    ensures (forall r :: r in relationships ==> EndpointsPresent(snapshot, known, r)) <==>
              EdgesPresent(relationships, resources)
  {
  }

  lemma TalliesMatch(
    s: Settings, g: Graph, inv: Inventory, snapshot: Resource -> Uuid, named: (Uuid, string) -> bool,
    proofs: map<Uuid, seq<Contract>>, buckets: map<Uuid, set<string>>, touched: set<Uuid>, encrypted: set<Uuid>)
    requires snapshot == SnapshotOf(s, g) && Gathered(ProofOf(s, g), snapshot, g.outcomes, proofs, buckets)
    requires forall id, b :: named(id, b) <==> b in NamesAt(buckets, id)
    requires forall id :: id in touched <==> Touched(snapshot, g.relationships, id)
    requires forall id :: id in encrypted <==> Encrypts(snapshot, named, EncryptsFrom(s, g), g.relationships, id)
    ensures EachAdmissible(s, g, inv) <==>
              forall a :: a in inv.resources ==>
                var id := snapshot(a.resource);
                Admissible(inv, g.account, a.resource, ContractsAt(proofs, id), id in touched, id in encrypted)
  {
    forall id
      ensures Encrypts(snapshot, named, EncryptsFrom(s, g), g.relationships, id) <==> ReachedByEncryption(s, g, id)
    {
      assert forall b :: named(id, b) <==> NamedBucket(ProofOf(s, g), snapshot, g.outcomes, id, b);
    }
    forall a | a in inv.resources
      ensures ContractsAt(proofs, snapshot(a.resource)) == ResourceProofs(s, g, a.resource)
    {
    }
  }

  // ----- What admission means -----

  lemma {:induction false} ProofsAreDeclared(
    proofOf: Outcome -> Option<Proof>, snapshot: Resource -> Uuid, outcomes: seq<Outcome>, id: Uuid, c: Contract)
    requires c in ProofsOf(proofOf, snapshot, outcomes, id)
    ensures exists o :: && o in outcomes && proofOf(o).Some? && proofOf(o).value.contract == c
                        && snapshot(proofOf(o).value.subject) == id
  {
    var init, last := outcomes[..|outcomes| - 1], outcomes[|outcomes| - 1];
    assert outcomes == init + [last];
    if c in ProofsOf(proofOf, snapshot, init, id) {
      ProofsAreDeclared(proofOf, snapshot, init, id, c);
    } else {
      assert proofOf(last).Some? && proofOf(last).value.contract == c;
    }
  }

  /** A PRESENT outcome about exactly this resource, and the declaration it answers. */
  ghost predicate Proved(g: Graph, r: Resource, o: Outcome, c: Contract) {
    o in g.outcomes && o.state == PRESENT && o.subject == ResourceSubject(r) && ContractOf(g, o) == Some(c)
  }

  ghost predicate IdentitiesValid(g: Graph, inv: Inventory) {
    && (forall a :: a in inv.resources ==> ValidResource(a.resource))
    && (forall o :: o in g.outcomes && o.subject.ResourceSubject? ==> ValidResource(o.subject.resource))
    && (forall r :: r in g.relationships ==> ValidRelationship(r))
  }

  lemma ProofIsAboutResource(s: Settings, g: Graph, inv: Inventory, r: Resource, c: Contract) returns (o: Outcome)
    requires Collisionless(s.h) && IdentitiesValid(g, inv) && ValidResource(r)
    requires c in ResourceProofs(s, g, r)
    ensures Proved(g, r, o, c)
  {
    ProofsAreDeclared(ProofOf(s, g), SnapshotOf(s, g), g.outcomes, SnapshotId(s.h, g.scan, r), c);
    o :| && o in g.outcomes && ProofOf(s, g)(o).Some? && ProofOf(s, g)(o).value.contract == c
         && SnapshotOf(s, g)(ProofOf(s, g)(o).value.subject) == SnapshotId(s.h, g.scan, r);
    SnapshotIdInjective(s.h, g.scan, o.subject.resource, g.scan, r);
  }

  /** An external resource is proved by its owner's evidence and is the end of a resolved edge. */
  lemma ExternalResourcesProved(s: Settings, g: Graph, inv: Inventory, a: Observed)
    requires Collisionless(s.h) && IdentitiesValid(g, inv) && Admits(s, g, inv)
    requires a in inv.resources && OwnerOf(g.account, a.resource) == EXTERNAL_ACCOUNT
    ensures exists o, c :: Proved(g, a.resource, o, c) && c.identityAuthoritative && c.ownerMode == EXTERNAL_ACCOUNT
    ensures exists r :: r in g.relationships && IsResolved(r)
                        && (r.edge.source == a.resource || r.edge.target == Stable(a.resource))
  {
    var id := SnapshotId(s.h, g.scan, a.resource);
    assert Admissible(inv, g.account, a.resource, ResourceProofs(s, g, a.resource),
                      Touched(SnapshotOf(s, g), g.relationships, id), ReachedByEncryption(s, g, id));
    var c :| c in ResourceProofs(s, g, a.resource) && c.identityAuthoritative && c.ownerMode == EXTERNAL_ACCOUNT;
    var o := ProofIsAboutResource(s, g, inv, a.resource, c);
    var r :| r in g.relationships && IsResolved(r)
             && (SnapshotOf(s, g)(r.edge.source) == id || SnapshotOf(s, g)(r.edge.target.resource) == id);
    SnapshotIdInjective(s.h, g.scan, r.edge.source, g.scan, a.resource);
    SnapshotIdInjective(s.h, g.scan, r.edge.target.resource, g.scan, a.resource);
  }

  /** The edge from a bucket to the key, cited from the one PRESENT encryption outcome of the bucket. */
  ghost predicate EncryptionEdge(g: Graph, r: Relationship, key: Resource) {
    && r in g.relationships && IsResolved(r) && r.edge.kind == ENCRYPTED_WITH
    && IsBucket(r.edge.source) && r.edge.target == Stable(key)
    && |Scan(g.outcomes, r.provenance)| == 1
    && IsEncryptionSource(Scan(g.outcomes, r.provenance)[0])
    && Scan(g.outcomes, r.provenance)[0].subject == ResourceSubject(r.edge.source)
  }

  lemma ScannedAreOutcomes(outcomes: seq<Outcome>, p: Provenance)
    ensures forall o :: o in Scan(outcomes, p) ==> o in outcomes
  {
    if outcomes != [] {
      ScannedAreOutcomes(outcomes[..|outcomes| - 1], p);
    }
  }

  lemma EncryptionEdgeFound(s: Settings, g: Graph, inv: Inventory, key: Resource, r: Relationship)
    requires Collisionless(s.h) && IdentitiesValid(g, inv) && ValidResource(key)
    requires r in g.relationships && IsResolved(r) && EncryptsFrom(s, g)(r)
    requires SnapshotOf(s, g)(r.edge.target.resource) == SnapshotId(s.h, g.scan, key)
    ensures EncryptionEdge(g, r, key)
  {
    SnapshotIdInjective(s.h, g.scan, r.edge.target.resource, g.scan, key);
    var found := Scan(g.outcomes, r.provenance);
    ScannedAreOutcomes(g.outcomes, r.provenance);
    assert found[0] in found;
    SnapshotIdInjective(s.h, g.scan, found[0].subject.resource, g.scan, r.edge.source);
  }

  /**
   A KMS key is admitted only with a DescribeKey proof of it, and a bucket that such a proof names
   and that itself holds a resolved edge to the key, cited from the bucket's own encryption.
   */
  lemma KeysProved(s: Settings, g: Graph, inv: Inventory, a: Observed)
    requires Collisionless(s.h) && IdentitiesValid(g, inv) && Admits(s, g, inv)
    requires a in inv.resources && IsKey(a.resource)
    ensures exists o, c :: Proved(g, a.resource, o, c) && IsKeyAuthority(c)
    ensures exists r, o, c ::
              && EncryptionEdge(g, r, a.resource)
              && Proved(g, a.resource, o, c) && IsKeyAuthority(c)
              && r.edge.source.resourceId in NamesIn(NamesOf(s, g, o))
  {
    var id := SnapshotId(s.h, g.scan, a.resource);
    assert Admissible(inv, g.account, a.resource, ResourceProofs(s, g, a.resource),
                      Touched(SnapshotOf(s, g), g.relationships, id), ReachedByEncryption(s, g, id));
    var r :| && r in g.relationships && IsResolved(r) && EncryptsFrom(s, g)(r)
             && SnapshotOf(s, g)(r.edge.target.resource) == id
             && NamedBucket(ProofOf(s, g), SnapshotOf(s, g), g.outcomes, id, r.edge.source.resourceId);
    EncryptionEdgeFound(s, g, inv, a.resource, r);
    var o := NamingProof(s, g, inv, a.resource, r.edge.source.resourceId);
  }

  lemma NamingProof(s: Settings, g: Graph, inv: Inventory, key: Resource, bucket: string) returns (o: Outcome)
    requires Collisionless(s.h) && IdentitiesValid(g, inv) && ValidResource(key)
    requires NamedBucket(ProofOf(s, g), SnapshotOf(s, g), g.outcomes, SnapshotId(s.h, g.scan, key), bucket)
    ensures exists c :: Proved(g, key, o, c) && IsKeyAuthority(c)
    ensures bucket in NamesIn(NamesOf(s, g, o))
  {
    o :| && o in g.outcomes && ProofOf(s, g)(o).Some?
         && SnapshotOf(s, g)(ProofOf(s, g)(o).value.subject) == SnapshotId(s.h, g.scan, key)
         && bucket in ProofOf(s, g)(o).value.buckets;
    SnapshotIdInjective(s.h, g.scan, o.subject.resource, g.scan, key);
    assert Proved(g, key, o, ContractOf(g, o).value);
  }
}
