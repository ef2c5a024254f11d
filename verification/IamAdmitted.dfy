/** The two inventories of `IamWorld` pass the graph validator and the admission check. */
module IamAdmitted {
  import opened Wrappers
  import opened Ordering
  import opened Identities
  import opened Evidence
  import opened Records
  import opened GraphAcceptance
  import opened Numbered
  import opened ResourceAdmission
  import opened Sources
  import opened IamWorld
  import KmsManifest
  import TrailManifest

  // ----- The validator -----

  lemma CollectorsAt(k: nat)
    requires k < 10
    ensures KeyAt(k).0 != "" && KeyAt(k).0[0] == if k == 8 then 'a' else 'i'
  {
  }

  lemma NumberOf(h: Hashes, id: string, n: nat, o: Outcome) returns (k: nat)
    requires o in Chain(h, id, n).outcomes
    ensures k < n && o == OutcomeAt(id, k) && Chain(h, id, n).outcomes[k] == o
  {
    k :| 0 <= k < |Chain(h, id, n).outcomes| && Chain(h, id, n).outcomes[k] == o;
  }

  lemma OtherFamilies(h: Hashes, id: string, n: nat, g: Graph)
    requires g == Chain(h, id, n) && Size(n)
    ensures !KmsManifest.Applies(g.outcomes) && !TrailManifest.HasTrailEvidence(g.outcomes)
    ensures forall o :: o in g.outcomes ==> o.collector != "kms.keys"
  {
    hide Chain, KeyAt;
    forall o | o in g.outcomes ensures o.collector != "" && o.collector[0] in {'a', 'i'} {
      var k := NumberOf(h, id, n, o);
      CollectorsAt(k);
    }
    assert "s3.buckets"[0] == 's' && "kms.keys"[0] == 'k';
    assert forall c :: c in TrailManifest.TRAIL_COLLECTORS ==> c[0] == 'c';
  }

  lemma EdgesDiffer(h: Hashes, id: string)
    requires Collisionless(h) && Plain(id)
    ensures EdgeId(h)(InlineEdge(id)) != EdgeId(h)(FindingEdge(id))
  {
    hide ObservationId, Collisionless, ValidResource;
    EdgesValid(id);
    ObservationIdentifiesEdge(h, InlineEdge(id).edge, FindingEdge(id).edge);
    assert InlineEdge(id).edge.kind[0] == 'a' && FindingEdge(id).edge.kind[0] == 'r';
  }

  lemma EdgesOrdered(h: Hashes, id: string, n: nat)
    requires Collisionless(h) && Plain(id)
    ensures StrictlyAscending(EdgeId(h), EdgesOf(h, id, n))
  {
    hide ObservationId, Collisionless, InlineEdge, FindingEdge;
    EdgesDiffer(h, id);
  }

  lemma EdgesCited(h: Hashes, id: string, n: nat, g: Graph, r: Relationship)
    requires g == Chain(h, id, n) && Size(n) && r in g.relationships
    ensures EdgeOfGraph(g, r) && exists k: nat :: CitesNumber(g, r, k)
  {
    hide EdgesOf, OutcomeAt;
    EdgeIsOneOf(h, id, n, r);
    var k := if r == InlineEdge(id) then 7 else 8;
    assert g.outcomes[k] == OutcomeAt(id, k);
    assert OutcomeAt(id, k).state == PRESENT by {
      OutcomePresent(id, k);
    }
    assert CitesNumber(g, r, k);
  }

  lemma OutcomePresent(id: string, k: nat)
    ensures OutcomeAt(id, k).state == PRESENT
  {
  }

  /** The graph is constructed, as it stands. */
  lemma ChainAccepted(s: Settings, id: string, n: nat, g: Graph)
    requires g == Chain(s.h, id, n) && Size(n) && Collisionless(s.h) && Plain(id)
    ensures Accepted(s, g, g)
  {
    hide InLines, Accepted, EdgesOf, Collisionless;
    ChainInLines(s.h, id, n, g);
    OtherFamilies(s.h, id, n, g);
    EdgesOrdered(s.h, id, n);
    assert g.relationships == EdgesOf(s.h, id, n);
    forall r | r in g.relationships ensures EdgeOfGraph(g, r) && exists k: nat :: CitesNumber(g, r, k) {
      EdgesCited(s.h, id, n, g, r);
    }
    NumberedIsAccepted(s, g);
  }

  // ----- The admission check -----

  function Observe(r: Record): Observed {
    Observed(r.resource, r.configuration)
  }

  function InventoryOf(snap: Snapshot): Inventory {
    Inventory(Map(Observe, snap.resources), snap.requestedRegion, None)
  }

  lemma Listed(snap: Snapshot, r: Record)
    requires r in snap.resources
    ensures Observe(r) in InventoryOf(snap).resources && InInventory(InventoryOf(snap).resources, r.resource)
  {
    var i :| 0 <= i < |snap.resources| && snap.resources[i] == r;
    assert InventoryOf(snap).resources[i] == Observe(r);
  }

  lemma Unlisted(snap: Snapshot, a: Observed) returns (r: Record)
    requires a in InventoryOf(snap).resources
    ensures r in snap.resources && a == Observe(r)
  {
    var i :| 0 <= i < |InventoryOf(snap).resources| && InventoryOf(snap).resources[i] == a;
    r := snap.resources[i];
  }

  /** One identity, one record. */
  lemma RecordsAgree(id: string, n: nat, a: Record, b: Record)
    requires a in [User()] + Extras(id, n) + [PolicyOf(ACCOUNT, id)]
    requires b in [User()] + Extras(id, n) + [PolicyOf(ACCOUNT, id)]
    requires a.resource == b.resource
    ensures a == b
  {
    hide Extras;
    ResourceIsOneOf(id, n, a);
    ResourceIsOneOf(id, n, b);
    assert ACCOUNT[0] == '1' && FOREIGN[0] == '2';
    assert User().resource.service[0] == 'i' && FindingRecord().resource.service[0] == 'a';
    assert User().resource.resourceType[4] == 'u' && PolicyOf(ACCOUNT, id).resource.resourceType[4] == 'i';
  }

  lemma IdentitiesConsistent(s: Settings, snap: Snapshot, id: string, n: nat)
    requires snap == World(s.h, id, n) && Size(n) && Collisionless(s.h) && Plain(id)
    ensures InventoryOk(SnapshotOf(s, snap.graph), InventoryOf(snap).resources)
  {
    hide Extras, Chain, Collisionless, ValidResource, ScopeCanonical, InventoryOf;
    forall a | a in InventoryOf(snap).resources ensures ScopeCanonical(a.resource) {
      var r := Unlisted(snap, a);
      ResourceOk(id, n, r);
    }
    forall a, b |
      a in InventoryOf(snap).resources && b in InventoryOf(snap).resources
      && SnapshotOf(s, snap.graph)(a.resource) == SnapshotOf(s, snap.graph)(b.resource)
      ensures a == b
    {
      var r := Unlisted(snap, a);
      var q := Unlisted(snap, b);
      ResourceOk(id, n, r);
      ResourceOk(id, n, q);
      SnapshotIdInjective(s.h, snap.graph.scan, r.resource, snap.graph.scan, q.resource);
      RecordsAgree(id, n, r, q);
    }
  }

  lemma SubjectListed(snap: Snapshot, h: Hashes, id: string, n: nat, k: nat)
    requires snap == World(h, id, n) && Size(n) && k < n && SubjectAt(id, k).ResourceSubject?
    ensures InInventory(InventoryOf(snap).resources, SubjectAt(id, k).resource)
  {
    hide Chain, InInventory, InventoryOf;
    var r := if k < 8 then User() else if k == 8 then FindingRecord() else PolicyOf(FOREIGN, id);
    assert r in snap.resources;
    Listed(snap, r);
  }

  lemma SubjectsListed(s: Settings, snap: Snapshot, id: string, n: nat)
    requires snap == World(s.h, id, n) && Size(n)
    ensures SubjectsPresent(snap.graph.outcomes, InventoryOf(snap).resources)
  {
    hide InInventory, InventoryOf, SubjectAt, Extras;
    forall o | o in snap.graph.outcomes && o.subject.ResourceSubject?
      ensures InInventory(InventoryOf(snap).resources, o.subject.resource)
    {
      var k := NumberOf(s.h, id, n, o);
      SubjectListed(snap, s.h, id, n, k);
    }
  }

  lemma EndsListed(s: Settings, snap: Snapshot, id: string, n: nat)
    requires snap == World(s.h, id, n) && Size(n)
    ensures EdgesPresent(snap.graph.relationships, InventoryOf(snap).resources)
  {
    hide InInventory, InventoryOf, EdgesOf;
    forall r | r in snap.graph.relationships
      ensures && InInventory(InventoryOf(snap).resources, r.edge.source)
              && r.edge.target.Stable? && InInventory(InventoryOf(snap).resources, r.edge.target.resource)
    {
      EdgeIsOneOf(s.h, id, n, r);
      if r == InlineEdge(id) {
        Listed(snap, User());
        Listed(snap, PolicyOf(ACCOUNT, id));
      } else {
        Listed(snap, FindingRecord());
        Listed(snap, PolicyOf(FOREIGN, id));
      }
    }
  }

  lemma NoKeys(s: Settings, snap: Snapshot, id: string, n: nat)
    requires snap == World(s.h, id, n) && Size(n)
    ensures NamesProper(s, snap.graph)
  {
    hide KeyAt, SubjectAt, Extras, NamesOk;
    var g := snap.graph;
    forall o | o in g.outcomes ensures NamesGood(s, g)(o) {
      var k := NumberOf(s.h, id, n, o);
      Declares(s.h, id, n, g, k);
      CollectorsAt(k);
      assert "kms.keys"[0] == 'k';
    }
  }

  lemma Declares(h: Hashes, id: string, n: nat, g: Graph, k: nat)
    requires g == Chain(h, id, n) && Size(n) && k < n
    ensures ContractOf(g, OutcomeAt(id, k)) == Some(ContractAt(id, k)) && OutcomeAt(id, k) in g.outcomes
  {
    hide KeyAt, SubjectAt, EdgesOf, OwnerAt, AuthoritativeAt;
    ByIdFinds(ContractId(), g.contracts);
    assert g.contracts[k] == ContractAt(id, k) && g.contracts[k] in g.contracts;
    assert g.outcomes[k] == OutcomeAt(id, k);
  }

  lemma {:induction false} ProofFound(
    proofOf: Outcome -> Option<Proof>, snapshot: Resource -> Uuid, outcomes: seq<Outcome>, o: Outcome)
    requires o in outcomes && proofOf(o).Some?
    ensures proofOf(o).value.contract in ProofsOf(proofOf, snapshot, outcomes, snapshot(proofOf(o).value.subject))
  {
    var last := outcomes[|outcomes| - 1];
    if o != last {
      assert o in outcomes[..|outcomes| - 1];
      ProofFound(proofOf, snapshot, outcomes[..|outcomes| - 1], o);
    }
  }

  /** The other account's policy has its authoritative evidence and the finding's edge. */
  lemma ForeignProved(s: Settings, id: string, g: Graph)
    requires g == Chain(s.h, id, 10)
    ensures ContractAt(id, 9) in ResourceProofs(s, g, PolicyOf(FOREIGN, id).resource)
    ensures Touched(SnapshotOf(s, g), g.relationships, SnapshotId(s.h, g.scan, PolicyOf(FOREIGN, id).resource))
  {
    hide KeyAt, Chain, IsKeyAuthority;
    Declares(s.h, id, 10, g, 9);
    ProofFound(ProofOf(s, g), SnapshotOf(s, g), g.outcomes, OutcomeAt(id, 9));
    assert FindingEdge(id) in g.relationships by {
      FindingCited(s.h, id);
    }
    assert IsResolved(FindingEdge(id));
  }

  lemma FindingCited(h: Hashes, id: string)
    ensures FindingEdge(id) in Chain(h, id, 10).relationships
  {
  }

  /** A resource of the account, outside S3 and KMS, in the requested Region or in none. */
  lemma OwnAdmissible(
    inv: Inventory, account: string, r: Resource, proofs: seq<Contract>, referenced: bool, encrypts: bool)
    requires OwnerOf(account, r) == COLLECTION_ACCOUNT && r.service != "kms" && r.service != "s3"
    requires r.scope == REGIONAL ==> r.region == Some(inv.requestedRegion)
    ensures Admissible(inv, account, r, proofs, referenced, encrypts)
  {
  }

  lemma ForeignAdmissible(
    inv: Inventory, account: string, r: Resource, proofs: seq<Contract>, c: Contract, encrypts: bool)
    requires OwnerOf(account, r) == EXTERNAL_ACCOUNT && r.service != "kms" && r.service != "s3" && r.scope == GLOBAL
    requires c in proofs && c.identityAuthoritative && c.ownerMode == EXTERNAL_ACCOUNT
    ensures Admissible(inv, account, r, proofs, true, encrypts)
  {
  }

  lemma ServicesDiffer()
    ensures "iam" != "kms" && "iam" != "s3" && "access-analyzer" != "kms" && "access-analyzer" != "s3"
    ensures ACCOUNT != FOREIGN && ACCOUNT != "aws" && FOREIGN != "aws"
  {
    assert "iam"[0] == 'i' && "kms"[0] == 'k' && "s3"[0] == 's' && "access-analyzer"[0] == 'a';
    assert ACCOUNT[0] == '1' && FOREIGN[0] == '2' && "aws"[0] == 'a';
  }

  lemma EachAdmitted(s: Settings, snap: Snapshot, id: string, n: nat)
    requires snap == World(s.h, id, n) && Size(n)
    ensures EachAdmissible(s, snap.graph, InventoryOf(snap))
  {
    hide Admissible, InventoryOf, Touched, ReachedByEncryption, ResourceProofs, Chain, Extras, ContractAt;
    var g, inv := snap.graph, InventoryOf(snap);
    ServicesDiffer();
    assert inv.requestedRegion == HOME by {
      RegionOf(snap);
    }
    forall a | a in inv.resources
      ensures Admissible(inv, g.account, a.resource, ResourceProofs(s, g, a.resource),
                         Touched(SnapshotOf(s, g), g.relationships, SnapshotId(s.h, g.scan, a.resource)),
                         ReachedByEncryption(s, g, SnapshotId(s.h, g.scan, a.resource)))
    {
      var r := Unlisted(snap, a);
      ResourceIsOneOf(id, n, r);
      var at := SnapshotId(s.h, g.scan, a.resource);
      assert g.account == ACCOUNT by {
        AccountOf(s.h, id, n);
      }
      if r == PolicyOf(FOREIGN, id) {
        ForeignProved(s, id, g);
        Authority(id);
        ForeignAdmissible(inv, g.account, a.resource, ResourceProofs(s, g, a.resource), ContractAt(id, 9),
                          ReachedByEncryption(s, g, at));
      } else {
        OwnAdmissible(inv, g.account, a.resource, ResourceProofs(s, g, a.resource),
                      Touched(SnapshotOf(s, g), g.relationships, at), ReachedByEncryption(s, g, at));
      }
    }
  }

  lemma RegionOf(snap: Snapshot)
    ensures InventoryOf(snap).requestedRegion == snap.requestedRegion
  {
  }

  lemma AccountOf(h: Hashes, id: string, n: nat)
    ensures Chain(h, id, n).account == ACCOUNT
  {
  }

  lemma Authority(id: string)
    ensures ContractAt(id, 9).identityAuthoritative && ContractAt(id, 9).ownerMode == EXTERNAL_ACCOUNT
  {
  }

  /** The inventory is admitted beside the graph. */
  lemma WorldAdmitted(s: Settings, snap: Snapshot, id: string, n: nat)
    requires snap == World(s.h, id, n) && Size(n) && Collisionless(s.h) && Plain(id)
    ensures Admits(s, snap.graph, InventoryOf(snap))
  {
    hide InventoryOk, SubjectsPresent, EdgesPresent, NamesProper, EachAdmissible, World, InventoryOf;
    IdentitiesConsistent(s, snap, id, n);
    SubjectsListed(s, snap, id, n);
    EndsListed(s, snap, id, n);
    NoKeys(s, snap, id, n);
    EachAdmitted(s, snap, id, n);
  }
}
