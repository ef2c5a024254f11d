/**
 One user with one inline policy and all the sources the population proof asks for, in two
 inventories: one lists the user twice, the other lists a policy of another account that carries
 the local policy's resource identifier, referred to by an Access Analyzer finding.
 */
module IamWorld {
  import opened Wrappers
  import opened Identities
  import opened JsonValues
  import opened Evidence
  import opened GraphAcceptance
  import opened Numbered
  import opened Sources
  import opened IamPolicy
  import opened IamMeaning
  import ScanGraph

  const HOME := "eu-west-1"
  const REFERENCES_RESOURCE: RelationshipType := "references_resource"
  const ATTACHED_INLINE: RelationshipType := "attached_inline_policy"
  const ACCOUNT := "111111111111"
  const FOREIGN := "222222222222"

  // ----- One user with one inline policy -----

  function UserResource(): Resource {
    Resource(ACCOUNT, "iam", "iam_user", GLOBAL, None, "AIDA")
  }

  function User(): Record {
    Record(UserResource(), None, Some("ann"), map[], Object(map["permissions_boundary_arn" := Null]))
  }

  function PolicyId(rules: PolicyRules): string {
    rules.inlineId(InlineKey(ACCOUNT, "AIDA", "iam_user", "p"))
  }

  function PolicyOf(account: string, id: string): Record {
    Record(Resource(account, "iam", INLINE_TYPE, GLOBAL, None, id), None, Some("p"), map[],
           Object(map["owner_resource_type" := Text("iam_user"), "owner_resource_id" := Text("AIDA"),
                      "owner_name" := Text("ann"), "policy_name" := Text("p")]))
  }

  /** The eight sources the population proof asks for. */
  function Needed(k: nat): RequiredSource
    requires k < 8
  {
    if k < 4 then Listings()[k].0
    else if k == 4 then IdentitySource("iam_user")
    else if k == 5 then AttachmentSource("iam_user")
    else if k == 6 then ProfileSource("iam_user")
    else InlineSource("iam_user")
  }

  /** Those eight, a finding's source, and the authoritative source of a policy of another account. */
  function KeyAt(k: nat): SourceKey {
    if k < 8 then (Needed(k).collector, Needed(k).evidenceKind, Needed(k).sourceApi)
    else if k == 8 then ("access-analyzer.findings", "access-analyzer.finding", "access-analyzer:GetFinding")
    else ("iam.inline-policies", "iam.inline-policy.identity", "iam:GetUserPolicy")
  }

  function FindingRecord(): Record {
    Record(Resource(ACCOUNT, "access-analyzer", "access_analyzer_finding", REGIONAL, Some(HOME), "finding"),
           None, None, map[], Object(map[]))
  }

  function SubjectAt(id: string, k: nat): Subject {
    if k < 4 then AccountSubject(ACCOUNT, GLOBAL, None)
    else if k < 8 then ResourceSubject(UserResource())
    else if k == 8 then ResourceSubject(FindingRecord().resource)
    else ResourceSubject(PolicyOf(FOREIGN, id).resource)
  }

  function PhaseAt(k: nat): Phase {
    if k < 4 then ScanGraph.DISCOVERY else ENRICHMENT
  }

  function OwnerAt(k: nat): OwnerMode {
    if k < 9 then COLLECTION_ACCOUNT else EXTERNAL_ACCOUNT
  }

  predicate AuthoritativeAt(k: nat) {
    k > 8 || (k < 8 && Needed(k).admitted)
  }

  function ShaAt(): string {
    seq(64, _ => 'a')
  }

  function PayloadAt(k: nat): Json {
    Object(map[
      "complete" := Bool(true), "account_id" := Text(ACCOUNT),
      "resource_type" := Text("iam_user"), "resource_id" := Text("AIDA"),
      "resource_ids" := List(if k == 0 then [Text("AIDA")] else []),
      "resource_count" := Number(if k == 0 then 1 else 0),
      "permissions_boundary_arn" := Null,
      "policy_arns" := List([]), "policy_names" := List([Text("p")]),
      "policy_count" := Number(if k == 7 then 1 else 0)])
  }

  function ContractAt(id: string, k: nat): Contract {
    Contract(k, 0, ACCOUNT, KeyAt(k).1, "1.0.0", PhaseAt(k), SubjectAt(id, k), KeyAt(k).1,
             KeyAt(k).0, "1.0.0", KeyAt(k).2, true, OwnerAt(k), AuthoritativeAt(k), false)
  }

  function OutcomeAt(id: string, k: nat): Outcome {
    Outcome(k, 0, ACCOUNT, PhaseAt(k), SubjectAt(id, k), KeyAt(k).1, PRESENT, None,
            KeyAt(k).0, "1.0.0", KeyAt(k).2, 0, ReferenceAt(k), ShaAt())
  }

  function ArtifactAt(k: nat): Artifact {
    Artifact(k, 0, ACCOUNT, ReferenceAt(k), ShaAt(), KeyAt(k).1, "1.0.0", 0, PayloadAt(k))
  }

  function InlineEdge(id: string): Relationship {
    Relationship(ACCOUNT, Edge(0, UserResource(), ATTACHED_INLINE, Stable(PolicyOf(ACCOUNT, id).resource)),
                 RESOLVED, ProvenanceOf(OutcomeAt(id, 7)))
  }

  /** An Access Analyzer finding may refer to a resource of any type. */
  function FindingEdge(id: string): Relationship {
    Relationship(
      ACCOUNT, Edge(0, FindingRecord().resource, REFERENCES_RESOURCE, Stable(PolicyOf(FOREIGN, id).resource)),
      RESOLVED, ProvenanceOf(OutcomeAt(id, 8)))
  }

  /** The edges in the order of their identifiers. */
  function EdgesOf(h: Hashes, id: string, n: nat): seq<Relationship> {
    if n < 10 then [InlineEdge(id)]
    else if EdgeId(h)(InlineEdge(id)) < EdgeId(h)(FindingEdge(id)) then [InlineEdge(id), FindingEdge(id)]
    else [FindingEdge(id), InlineEdge(id)]
  }

  function Chain(h: Hashes, id: string, n: nat): Graph {
    Graph(0, ACCOUNT, 0, seq(n, (k: nat) => ContractAt(id, k)), seq(n, (k: nat) => ArtifactAt(k)),
          seq(n, (k: nat) => OutcomeAt(id, k)), EdgesOf(h, id, n))
  }

  /** With eight sources the user twice; with ten the finding and the other account's policy. */
  function Extras(id: string, n: nat): seq<Record> {
    if n < 10 then [User()] else [FindingRecord(), PolicyOf(FOREIGN, id)]
  }

  function World(h: Hashes, id: string, n: nat): Snapshot {
    Snapshot(h, Chain(h, id, n), HOME, [User()] + Extras(id, n) + [PolicyOf(ACCOUNT, id)])
  }

  predicate Size(n: nat) {
    n == 8 || n == 10
  }

  // ----- Finding the one record that fits -----

  lemma {:induction false} DeclaredIs(contracts: seq<Contract>, key: SourceKey, k: nat)
    requires forall j :: 0 <= j < |contracts| ==> (KeyOf(contracts[j]) == key <==> j == k)
    ensures Declared(contracts, key) == if k < |contracts| then [contracts[k]] else []
  {
    if contracts != [] {
      DeclaredIs(contracts[..|contracts| - 1], key, k);
    }
  }

  lemma {:induction false} OutcomeIs(outcomes: seq<Outcome>, k: nat)
    requires k < |outcomes| && forall j :: 0 <= j < |outcomes| ==> outcomes[j].outcomeId == j
    ensures OutcomeOf(outcomes, k) == Some(outcomes[k])
  {
    if k < |outcomes| - 1 {
      OutcomeIs(outcomes[..|outcomes| - 1], k);
    }
  }

  lemma {:induction false} ArtifactIs(artifacts: seq<Artifact>, k: nat)
    requires k < |artifacts| && forall j :: 0 <= j < |artifacts| ==> artifacts[j].reference == ReferenceAt(j)
    ensures ArtifactOf(artifacts, ReferenceAt(k)) == Some(artifacts[k])
  {
    if k < |artifacts| - 1 {
      ReferenceDiffers(k, |artifacts| - 1);
      ArtifactIs(artifacts[..|artifacts| - 1], k);
    }
  }

  lemma KindShape(k: nat)
    requires k < 10
    ensures |KeyAt(k).1| == [19, 20, 19, 39, 8, 34, 16, 24, 23, 26][k]
    ensures k == 0 ==> KeyAt(k).1[4] == 'u'
    ensures k == 2 ==> KeyAt(k).1[4] == 'r'
  {
  }

  lemma KeysDiffer(j: nat, k: nat)
    requires j < 10 && k < 10
    ensures KeyAt(j) == KeyAt(k) <==> j == k
  {
    hide KeyAt;
    KindShape(j);
    KindShape(k);
  }

  lemma PayloadSubject(k: nat)
    ensures var p := PayloadAt(k);
            && Get(p, "complete") == Bool(true) && Get(p, "account_id") == Text(ACCOUNT)
            && Get(p, "resource_type") == Text("iam_user") && Get(p, "resource_id") == Text("AIDA")
            && "permissions_boundary_arn" in p.fields && Get(p, "permissions_boundary_arn") == Null
            && "admission_complete" !in p.fields && "discarded_item_count" !in p.fields
  {
  }

  lemma PayloadLists(k: nat)
    ensures var p := PayloadAt(k);
            && Get(p, "resource_ids") == List(if k == 0 then [Text("AIDA")] else [])
            && Get(p, "resource_count") == Number(if k == 0 then 1 else 0)
            && Get(p, "policy_arns") == List([]) && Get(p, "policy_names") == List([Text("p")])
            && Get(p, "policy_count") == Number(if k == 7 then 1 else 0)
  {
  }

  // ----- Every source resolves -----

  lemma ChainInLines(h: Hashes, id: string, n: nat, g: Graph)
    requires g == Chain(h, id, n) && Size(n)
    ensures InLines(g) && |g.outcomes| == n
  {
    hide KeyAt, SubjectAt, PhaseAt, OwnerAt, AuthoritativeAt, PayloadAt, ReferenceAt, ShaAt;
    forall k | 0 <= k < |g.contracts| ensures InLine(g, k) {
      assert g.contracts[k] == ContractAt(id, k) && g.outcomes[k] == OutcomeAt(id, k);
      assert g.artifacts[k] == ArtifactAt(k);
    }
  }

  function Answer(id: string, k: nat): Resolved {
    Resolved(OutcomeAt(id, k), ArtifactAt(k), Citation(k, k, ShaAt()))
  }

  lemma MatchingIs(snap: Snapshot, c: Contract, required: RequiredSource, target: Resource)
    requires c.version == required.version && SubjectMatches(snap, c.subject, required, target)
    ensures Matching(snap, [c], required, target) == [c]
  {
    assert [c][..0] == [];
  }

  lemma SubjectFits(snap: Snapshot, id: string, k: nat, target: Resource)
    requires snap.graph.account == ACCOUNT && k < 8 && (k < 4 || target == UserResource())
    ensures SubjectMatches(snap, SubjectAt(id, k), Needed(k), target) && Needed(k).version == "1.0.0"
  {
  }

  lemma ContractFound(snap: Snapshot, id: string, n: nat, k: nat, target: Resource)
    requires snap.graph == Chain(snap.h, id, n) && Size(n) && k < 8 && (k < 4 || target == UserResource())
    ensures Matching(snap, Declared(snap.graph.contracts, KeyAt(k)), Needed(k), target) == [ContractAt(id, k)]
  {
    hide Needed, KeyAt;
    var contracts := snap.graph.contracts;
    forall j | 0 <= j < |contracts| ensures KeyOf(contracts[j]) == KeyAt(k) <==> j == k {
      KeysDiffer(j, k);
    }
    DeclaredIs(contracts, KeyAt(k), k);
    SubjectFits(snap, id, k, target);
    MatchingIs(snap, ContractAt(id, k), Needed(k), target);
  }

  lemma EvidenceComplete(id: string, k: nat)
    requires k < 8
    ensures CompleteEvidence(OutcomeAt(id, k), PayloadAt(k), Needed(k).completeness, Needed(k).absenceIsComplete)
  {
    PayloadSubject(k);
    assert forall f :: f in Needed(k).completeness ==> f == "complete";
  }

  lemma ResolvesTo(snap: Snapshot, id: string, n: nat, k: nat, target: Resource)
    requires snap.graph == Chain(snap.h, id, n) && Size(n) && k < 8 && (k < 4 || target == UserResource())
    ensures Resolve(snap, Needed(k), target) == Some(Answer(id, k))
  {
    hide Needed, PayloadAt, CompleteEvidence, ReferenceAt;
    ContractFound(snap, id, n, k, target);
    OutcomeIs(snap.graph.outcomes, k);
    ArtifactIs(snap.graph.artifacts, k);
    EvidenceComplete(id, k);
  }

  lemma Resolves(snap: Snapshot, id: string, n: nat, k: nat, target: Resource)
    requires snap.graph == Chain(snap.h, id, n) && Size(n) && k < 8 && (k < 4 || target == UserResource())
    ensures SourceAbout(snap, Needed(k), target) == Some(Answer(id, k))
  {
    hide Resolve, PayloadAt;
    ResolvesTo(snap, id, n, k, target);
    PayloadSubject(k);
    assert k < 4 ==> Needed(k).subject == GLOBAL_ACCOUNT;
  }

  // ----- What the user contributes -----

  lemma EnumeratesNone(payload: Json, field: string, count: string)
    requires Get(payload, field) == List([]) && Get(payload, count) == Number(0)
    ensures Enumerated(payload, field, count) == Some({})
  {
    var found := Enumerated(payload, field, count);
    assert found.Some? && found.value == {};
  }

  lemma EnumeratesOne(payload: Json, field: string, count: string, name: string)
    requires Get(payload, field) == List([Text(name)]) && Get(payload, count) == Number(1) && name != ""
    ensures Enumerated(payload, field, count) == Some({name})
  {
    var names := Get(payload, field);
    assert Text(name) in names.items;
    assert (set v | v in names.items && v.Text? :: v.text) == {name};
  }

  lemma Enumerations()
    ensures Enumerated(PayloadAt(5), "policy_arns", "policy_count") == Some({})
    ensures Enumerated(PayloadAt(7), "policy_names", "policy_count") == Some({"p"})
    ensures forall k :: 0 <= k < 4 ==>
              Enumerated(PayloadAt(k), "resource_ids", "resource_count") == Some(if k == 0 then {"AIDA"} else {})
  {
    PayloadLists(5);
    EnumeratesNone(PayloadAt(5), "policy_arns", "policy_count");
    PayloadLists(7);
    EnumeratesOne(PayloadAt(7), "policy_names", "policy_count", "p");
    forall k | 0 <= k < 4
      ensures Enumerated(PayloadAt(k), "resource_ids", "resource_count") == Some(if k == 0 then {"AIDA"} else {})
    {
      PayloadLists(k);
      if k == 0 {
        EnumeratesOne(PayloadAt(k), "resource_ids", "resource_count", "AIDA");
      } else {
        EnumeratesNone(PayloadAt(k), "resource_ids", "resource_count");
      }
    }
  }

  lemma LeavingIs(snap: Snapshot, id: string, n: nat, kind: RelationshipType)
    requires snap.graph == Chain(snap.h, id, n) && Size(n)
    requires kind != REFERENCES_RESOURCE
    ensures Leaving(snap, snap.graph.relationships, TargetId(snap, UserResource()), kind)
            == if kind == ATTACHED_INLINE then [InlineEdge(id)] else []
  {
    var owner := TargetId(snap, UserResource());
    hide SnapshotId, EdgeId, OutcomeAt;
    LeavingOne(snap, InlineEdge(id), owner, kind);
    LeavingOne(snap, FindingEdge(id), owner, kind);
    LeavingTwo(snap, InlineEdge(id), FindingEdge(id), owner, kind);
    LeavingTwo(snap, FindingEdge(id), InlineEdge(id), owner, kind);
    hide Leaving;
  }

  lemma LeavingOne(snap: Snapshot, r: Relationship, owner: Uuid, kind: RelationshipType)
    ensures Leaving(snap, [r], owner, kind)
            == if TargetId(snap, r.edge.source) == owner && r.edge.kind == kind then [r] else []
  {
    assert [r][..0] == [];
  }

  lemma LeavingTwo(snap: Snapshot, r: Relationship, q: Relationship, owner: Uuid, kind: RelationshipType)
    ensures Leaving(snap, [r, q], owner, kind) == Leaving(snap, [r], owner, kind) + Leaving(snap, [q], owner, kind)
  {
    assert [r, q][..1] == [r];
    LeavingOne(snap, q, owner, kind);
  }

  lemma NothingLinked(snap: Snapshot, id: string, n: nat, kind: RelationshipType, found: Resolved)
    requires snap.graph == Chain(snap.h, id, n) && Size(n)
    requires kind in {"attached_managed_policy", "permissions_boundary"}
    ensures Linked(snap, UserResource(), kind, {}, found).Some?
    ensures Linked(snap, UserResource(), kind, {}, found).value.policies == []
  {
    LeavingIs(snap, id, n, kind);
    assert NamesOf([]) == {};
  }

  lemma EdgeRests(snap: Snapshot, id: string, n: nat)
    requires snap.graph == Chain(snap.h, id, n) && Size(n)
    ensures RestsOn(snap, InlineEdge(id), 7)
  {
    ChainInLines(snap.h, id, n, snap.graph);
    ScanNumber(snap.graph, 7);
    assert snap.graph.outcomes[7] == OutcomeAt(id, 7);
  }

  lemma PolicyEnds(snap: Snapshot, h: Hashes, id: string, n: nat)
    requires snap == World(h, id, n) && Size(n)
    ensures Endpoints(snap, [InlineEdge(id)], 7) == Some([PolicyOf(ACCOUNT, id)])
  {
    hide EdgesOf, Chain, Extras, RestsOn, ObservationId, OutcomeAt;
    EdgeRests(snap, id, n);
    LastRecord(snap, snap.resources);
    assert snap.resources[|snap.resources| - 1] == PolicyOf(ACCOUNT, id);
    assert Endpoint(snap, InlineEdge(id), 7) == Some(PolicyOf(ACCOUNT, id));
    var edges := [InlineEdge(id)];
    assert edges[..0] == [] && edges[0] == InlineEdge(id);
    assert Endpoints(snap, edges[..0], 7) == Some([]);
    assert Endpoints(snap, edges, 7).value == [PolicyOf(ACCOUNT, id)];
  }

  lemma LastRecord(snap: Snapshot, resources: seq<Record>)
    requires resources != []
    ensures RecordAt(snap, resources, TargetId(snap, resources[|resources| - 1].resource))
            == Some(resources[|resources| - 1])
  {
  }

  lemma PolicyNamed(id: string)
    ensures NamesOf([InlineEdge(id)]) == {id}
  {
    assert InlineEdge(id) in [InlineEdge(id)] && TargetName(InlineEdge(id)) == id;
  }

  lemma PolicyLinked(snap: Snapshot, h: Hashes, id: string, n: nat)
    requires snap == World(h, id, n) && Size(n)
    ensures Linked(snap, UserResource(), ATTACHED_INLINE, {id}, Answer(id, 7)).Some?
    ensures Linked(snap, UserResource(), ATTACHED_INLINE, {id}, Answer(id, 7)).value.policies
              == [PolicyOf(ACCOUNT, id)]
  {
    hide World, InlineEdge, Endpoints, Leaving, NamesOf, EdgeIds, Cited;
    assert snap.graph == Chain(snap.h, id, n) by {
      WorldGraph(h, id, n);
    }
    LeavingIs(snap, id, n, ATTACHED_INLINE);
    PolicyNamed(id);
    PolicyEnds(snap, h, id, n);
  }

  lemma WorldGraph(h: Hashes, id: string, n: nat)
    ensures World(h, id, n).graph == Chain(World(h, id, n).h, id, n)
  {
  }

  lemma PolicyIsInline(id: string)
    ensures IsInlineOf(User(), {"p"}, PolicyOf(ACCOUNT, id))
  {
  }

  lemma NamesFound(snap: Snapshot, id: string, n: nat)
    requires snap.graph == Chain(snap.h, id, n) && Size(n)
    ensures InlineNames(snap, UserResource()) == Some((Answer(id, 7), {"p"}))
  {
    hide SourceAbout, Enumerated;
    Resolves(snap, id, n, 7, UserResource());
    Enumerations();
  }

  lemma InlineFound(snap: Snapshot, h: Hashes, rules: PolicyRules, id: string, n: nat)
    requires snap == World(h, id, n) && Size(n) && id == PolicyId(rules)
    ensures Inline(snap, rules, User()).Some?
    ensures Inline(snap, rules, User()).value.policies == [PolicyOf(ACCOUNT, id)]
  {
    hide Linked, InlineNames, IsInlineOf;
    assert InlineNames(snap, UserResource()) == Some((Answer(id, 7), {"p"})) by {
      NamesFound(snap, id, n);
    }
    assert InlineIds(rules, UserResource(), {"p"}) == {id};
    PolicyLinked(snap, h, id, n);
    PolicyIsInline(id);
  }

  lemma AttachedFound(snap: Snapshot, id: string, n: nat)
    requires snap.graph == Chain(snap.h, id, n) && Size(n)
    ensures Identity(snap, UserResource()).Some?
    ensures Attached(snap, UserResource()).Some? && Attached(snap, UserResource()).value.policies == []
  {
    hide SourceAbout, Enumerated, Linked;
    Resolves(snap, id, n, 4, UserResource());
    Resolves(snap, id, n, 5, UserResource());
    Enumerations();
    NothingLinked(snap, id, n, "attached_managed_policy", Answer(id, 5));
  }

  lemma BoundaryFound(snap: Snapshot, id: string, n: nat)
    requires snap.graph == Chain(snap.h, id, n) && Size(n)
    ensures Boundary(snap, User()).Some? && Boundary(snap, User()).value.policies == []
  {
    hide SourceAbout, Linked;
    Resolves(snap, id, n, 6, UserResource());
    PayloadSubject(6);
    NothingLinked(snap, id, n, "permissions_boundary", Answer(id, 6));
  }

  lemma UserFacts(snap: Snapshot, h: Hashes, rules: PolicyRules, id: string, n: nat)
    requires snap == World(h, id, n) && Size(n) && id == PolicyId(rules)
    ensures FactsOf(snap, rules, User()).Some?
    ensures var facts := FactsOf(snap, rules, User()).value;
            facts.attached == [] && facts.bounding == [] && facts.inline == [PolicyOf(ACCOUNT, id)]
  {
    AttachedFound(snap, id, n);
    BoundaryFound(snap, id, n);
    InlineFound(snap, h, rules, id, n);
  }

  // ----- The population is accepted -----

  lemma {:induction false} OfTypeAppend(a: seq<Record>, b: seq<Record>, kind: string)
    ensures OfType(a + b, kind) == OfType(a, kind) + OfType(b, kind)
  {
    if b == [] {
      assert a + b == a;
    } else {
      var init := b[..|b| - 1];
      assert (a + b)[..|a + b| - 1] == a + init;
      OfTypeAppend(a, init, kind);
    }
  }

  lemma OfTypeOne(r: Record, kind: string)
    ensures OfType([r], kind) == if r.resource.service == "iam" && r.resource.resourceType == kind then [r] else []
  {
    assert [r][..0] == [];
  }

  function OwnersWith(n: nat): seq<Record> {
    if n < 10 then [User(), User()] else [User()]
  }

  lemma OfTypeExtras(id: string, n: nat, kind: string)
    ensures OfType(Extras(id, n), kind)
            == if n < 10 then OfType([User()], kind) else OfType([PolicyOf(FOREIGN, id)], kind)
  {
    if n >= 10 {
      OfTypeAppend([FindingRecord()], [PolicyOf(FOREIGN, id)], kind);
      OfTypeOne(FindingRecord(), kind);
      assert "access-analyzer"[0] == 'a';
    }
  }

  lemma OfTypeWorld(snap: Snapshot, h: Hashes, id: string, n: nat, kind: string)
    requires snap == World(h, id, n)
    ensures OfType(snap.resources, kind)
            == (if kind == "iam_user" then OwnersWith(n) else [])
               + (if kind == INLINE_TYPE then (if n < 10 then [] else [PolicyOf(FOREIGN, id)]) else [])
               + (if kind == INLINE_TYPE then [PolicyOf(ACCOUNT, id)] else [])
  {
    hide Extras, OfType;
    OfTypeAppend([User()] + Extras(id, n), [PolicyOf(ACCOUNT, id)], kind);
    OfTypeAppend([User()], Extras(id, n), kind);
    OfTypeExtras(id, n, kind);
    OfTypeOne(User(), kind);
    OfTypeOne(PolicyOf(ACCOUNT, id), kind);
    OfTypeOne(PolicyOf(FOREIGN, id), kind);
    assert "iam_user" != INLINE_TYPE by {
      assert "iam_user"[4] == 'u' && INLINE_TYPE[4] == 'i';
    }
  }

  lemma Population(snap: Snapshot, h: Hashes, id: string, n: nat)
    requires snap == World(h, id, n) && Size(n)
    ensures Owners(snap) == OwnersWith(n) && OfType(snap.resources, "iam_user") == OwnersWith(n)
    ensures OfType(snap.resources, INLINE_TYPE)
            == (if n < 10 then [PolicyOf(ACCOUNT, id)] else [PolicyOf(FOREIGN, id), PolicyOf(ACCOUNT, id)])
    ensures OfType(snap.resources, GROUP_TYPE) == [] && OfType(snap.resources, "iam_role") == [] && Managed(snap) == []
    ensures OfType(snap.resources, "iam_customer_managed_policy") == []
  {
    hide World, OfType, OwnersWith;
    assert "iam_user"[4] == 'u' && "iam_role"[4] == 'r' && GROUP_TYPE[4] == 'g' && INLINE_TYPE[4] == 'i';
    assert "iam_customer_managed_policy"[4] == 'c' && "iam_aws_managed_policy"[4] == 'a';
    OfTypeWorld(snap, h, id, n, "iam_user");
    OfTypeWorld(snap, h, id, n, GROUP_TYPE);
    OfTypeWorld(snap, h, id, n, "iam_role");
    OfTypeWorld(snap, h, id, n, INLINE_TYPE);
    OfTypeWorld(snap, h, id, n, "iam_customer_managed_policy");
    OfTypeWorld(snap, h, id, n, "iam_aws_managed_policy");
  }

  lemma PopulationIds(snap: Snapshot, h: Hashes, id: string, n: nat)
    requires snap == World(h, id, n) && Size(n)
    ensures ResourceIds(OfType(snap.resources, "iam_user")) == {"AIDA"}
    ensures ResourceIds(OfType(snap.resources, INLINE_TYPE)) == {id}
    ensures ResourceIds(OfType(snap.resources, GROUP_TYPE)) == {}
    ensures ResourceIds(OfType(snap.resources, "iam_role")) == {}
    ensures ResourceIds(OfType(snap.resources, "iam_customer_managed_policy")) == {}
  {
    hide OfType, World;
    Population(snap, h, id, n);
    assert User() in OwnersWith(n);
    assert PolicyOf(ACCOUNT, id) in OfType(snap.resources, INLINE_TYPE);
  }

  lemma Listed(snap: Snapshot, h: Hashes, id: string, n: nat, k: nat)
    requires snap == World(h, id, n) && Size(n) && k < 4
    ensures ListingOf(snap, Listings()[k].0, Listings()[k].1).Some?
  {
    hide SourceAbout, Enumerated;
    Resolves(snap, id, n, k, Resource(snap.graph.account, "iam", "aws_account", GLOBAL, None, snap.graph.account));
    Enumerations();
    PopulationIds(snap, h, id, n);
  }

  lemma {:induction false} AllCited(snap: Snapshot, listings: seq<(RequiredSource, string)>)
    requires forall k :: 0 <= k < |listings| ==> ListingOf(snap, listings[k].0, listings[k].1).Some?
    ensures ListedCitations(snap, listings).Some?
  {
    if listings != [] {
      AllCited(snap, listings[..|listings| - 1]);
    }
  }

  lemma UsageIs(facts: OwnerProof, n: nat, id: string)
    requires facts(User()).Some?
    requires var f := facts(User()).value; f.attached == [] && f.bounding == [] && f.inline == [PolicyOf(ACCOUNT, id)]
    ensures UsageOf(facts, OwnersWith(n)).Some?
    ensures UsageOf(facts, OwnersWith(n)).value.managed == {}
    ensures UsageOf(facts, OwnersWith(n)).value.inline == {id}
  {
    var f := facts(User()).value;
    assert ResourceIds(f.inline) == {id} by {
      assert f.inline[0] in f.inline;
    }
    assert [User()][..0] == [] && [User(), User()][..1] == [User()];
    assert UsageOf(facts, []) == Some(Usage(map[], {}, {}, {}));
    assert UsageOf(facts, [User()]) == Some(AddFacts(Usage(map[], {}, {}, {}), f));
  }

  lemma PopulationAccepted(snap: Snapshot, h: Hashes, rules: PolicyRules, id: string, n: nat)
    requires snap == World(h, id, n) && Size(n) && id == PolicyId(rules)
    ensures CoverageOf(snap, rules).Some?
  {
    hide ListingOf, FactsOf, UsageOf, ListedCitations, OfType, World;
    forall k | 0 <= k < |Listings()| ensures ListingOf(snap, Listings()[k].0, Listings()[k].1).Some? {
      Listed(snap, h, id, n, k);
    }
    AllCited(snap, Listings());
    UserFacts(snap, h, rules, id, n);
    UsageIs(Facts(snap, rules), n, id);
    Population(snap, h, id, n);
    PopulationIds(snap, h, id, n);
  }

  lemma ResourcesValid(id: string)
    requires Plain(id)
    ensures ValidResource(UserResource()) && ScopeCanonical(UserResource())
    ensures forall account :: account in {ACCOUNT, FOREIGN} ==>
              ValidResource(PolicyOf(account, id).resource) && ScopeCanonical(PolicyOf(account, id).resource)
  {
    assert IsAccount(ACCOUNT) && IsAccount(FOREIGN);
  }

  lemma FindingValid()
    ensures ValidResource(FindingRecord().resource) && ScopeCanonical(FindingRecord().resource)
  {
    hide GLOBAL_TYPES;
    assert IsAccount(ACCOUNT);
    NotGlobal();
    hide REGIONAL_TYPES;
  }

  lemma NotGlobal()
    ensures ("access-analyzer", "access_analyzer_finding") !in GLOBAL_TYPES
  {
    assert forall t :: t in GLOBAL_TYPES ==> t.0 == "iam";
    assert "access-analyzer"[0] == 'a' && "iam"[0] == 'i';
  }

  /** Every resource of the world, whichever it is. */
  lemma ResourceIsOneOf(id: string, n: nat, r: Record)
    requires r in [User()] + Extras(id, n) + [PolicyOf(ACCOUNT, id)]
    ensures || r == User() || r == PolicyOf(ACCOUNT, id)
            || (n >= 10 && (r == FindingRecord() || r == PolicyOf(FOREIGN, id)))
  {
  }

  lemma ResourceOk(id: string, n: nat, r: Record)
    requires Plain(id) && r in [User()] + Extras(id, n) + [PolicyOf(ACCOUNT, id)]
    ensures ValidResource(r.resource) && ScopeCanonical(r.resource)
  {
    hide ValidResource, ScopeCanonical, Extras;
    ResourcesValid(id);
    FindingValid();
    ResourceIsOneOf(id, n, r);
    assert ACCOUNT in {ACCOUNT, FOREIGN} && FOREIGN in {ACCOUNT, FOREIGN};
  }

  lemma EdgeIsOneOf(h: Hashes, id: string, n: nat, r: Relationship)
    requires r in EdgesOf(h, id, n)
    ensures r == InlineEdge(id) || (n >= 10 && r == FindingEdge(id))
  {
  }

  lemma EdgesValid(id: string)
    requires Plain(id)
    ensures ValidRelationship(InlineEdge(id)) && ValidRelationship(FindingEdge(id))
  {
    hide ValidResource;
    ResourcesValid(id);
    FindingValid();
    assert ACCOUNT in {ACCOUNT, FOREIGN} && FOREIGN in {ACCOUNT, FOREIGN};
    assert Plain(ATTACHED_INLINE) && Plain(REFERENCES_RESOURCE);
  }

  lemma WorldValid(snap: Snapshot, h: Hashes, id: string, n: nat)
    requires snap == World(h, id, n) && Size(n) && Collisionless(h) && Plain(id)
    ensures RecordsValid(snap)
  {
    hide Collisionless, ValidResource, ScopeCanonical, ValidRelationship, EdgesOf, Extras;
    forall r | r in snap.resources ensures ValidResource(r.resource) && ScopeCanonical(r.resource) {
      ResourceOk(id, n, r);
    }
    EdgesValid(id);
    ResourcesValid(id);
    assert ACCOUNT in {ACCOUNT, FOREIGN} && FOREIGN in {ACCOUNT, FOREIGN};
    forall r | r in snap.graph.relationships ensures r == InlineEdge(id) || r == FindingEdge(id) {
      EdgeIsOneOf(h, id, n, r);
    }
    assert REFERENCES_RESOURCE != ATTACHED_INLINE by {
      assert REFERENCES_RESOURCE[0] == 'r' && ATTACHED_INLINE[0] == 'a';
    }
  }
}
