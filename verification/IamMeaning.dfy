/** What an accepted IAM policy population says. */
module IamMeaning {
  import opened Wrappers
  import opened Ordering
  import opened Identities
  import opened JsonValues
  import opened Evidence
  import opened Sources
  import opened IamPolicy

  /** What constructing the records has already checked. */
  ghost predicate RecordsValid(snap: Snapshot) {
    && Collisionless(snap.h)
    && (forall r :: r in snap.resources ==> ValidResource(r.resource) && ScopeCanonical(r.resource))
    && (forall r :: r in snap.graph.relationships ==>
          && ValidRelationship(r)
          && (r.edge.target.Stable? ==> ScopeCanonical(r.edge.target.resource))
          && (r.edge.kind == "attached_inline_policy" && r.edge.target.Stable? ==>
                r.edge.target.resource.service == "iam" && r.edge.target.resource.resourceType == INLINE_TYPE))
  }

  // ----- Edges and their endpoints -----

  lemma {:induction false} RecordAtIs(snap: Snapshot, resources: seq<Record>, id: Uuid)
    ensures RecordAt(snap, resources, id).Some? ==>
              RecordAt(snap, resources, id).value in resources
              && TargetId(snap, RecordAt(snap, resources, id).value.resource) == id
  {
    if resources != [] {
      RecordAtIs(snap, resources[..|resources| - 1], id);
    }
  }

  lemma {:induction false} LeavingMembers(
    snap: Snapshot, relationships: seq<Relationship>, owner: Uuid, kind: RelationshipType)
    ensures forall r :: r in Leaving(snap, relationships, owner, kind) ==>
              r in relationships && r.edge.kind == kind && TargetId(snap, r.edge.source) == owner
  {
    if relationships != [] {
      LeavingMembers(snap, relationships[..|relationships| - 1], owner, kind);
    }
  }

  /** A resolved edge ends at the record it names. */
  lemma EndpointIsTarget(snap: Snapshot, r: Relationship, outcomeId: Uuid)
    requires RecordsValid(snap) && r in snap.graph.relationships && Endpoint(snap, r, outcomeId).Some?
    ensures r.edge.target == Stable(Endpoint(snap, r, outcomeId).value.resource)
    ensures Endpoint(snap, r, outcomeId).value in snap.resources
  {
    RecordAtIs(snap, snap.resources, TargetId(snap, r.edge.target.resource));
    var record := Endpoint(snap, r, outcomeId).value;
    SnapshotIdInjective(snap.h, snap.graph.scan, record.resource, snap.graph.scan, r.edge.target.resource);
  }

  lemma {:induction false} EndpointsAre(snap: Snapshot, edges: seq<Relationship>, outcomeId: Uuid)
    requires RecordsValid(snap) && forall r :: r in edges ==> r in snap.graph.relationships
    requires Endpoints(snap, edges, outcomeId).Some?
    ensures var found := Endpoints(snap, edges, outcomeId).value;
            |found| == |edges| && forall i :: 0 <= i < |edges| ==>
              edges[i].edge.target == Stable(found[i].resource) && found[i] in snap.resources
  {
    if edges != [] {
      var init, last := edges[..|edges| - 1], edges[|edges| - 1];
      assert last in edges && forall r :: r in init ==> r in edges;
      EndpointsAre(snap, init, outcomeId);
      EndpointIsTarget(snap, last, outcomeId);
    }
  }

  /** As many edges as names means no name twice. */
  lemma {:induction false} NamesDistinct(edges: seq<Relationship>)
    ensures |NamesOf(edges)| <= |edges|
    ensures |NamesOf(edges)| == |edges| ==>
              forall i, j :: 0 <= i < j < |edges| ==> TargetName(edges[i]) != TargetName(edges[j])
  {
    if edges != [] {
      var init, last := edges[..|edges| - 1], edges[|edges| - 1];
      assert edges == init + [last];
      NamesDistinct(init);
      assert NamesOf(edges) == NamesOf(init) + {TargetName(last)};
      if |NamesOf(edges)| == |edges| {
        forall i | 0 <= i < |init| ensures TargetName(init[i]) != TargetName(last) {
          assert TargetName(init[i]) in NamesOf(init) by {
            assert init[i] in init;
          }
          assert TargetName(last) in NamesOf(init) ==> NamesOf(edges) == NamesOf(init);
        }
      }
    }
  }

  predicate IsInlineIdentity(r: Resource) {
    r.service == "iam" && r.resourceType == INLINE_TYPE && r.scope == GLOBAL
  }

  lemma SameNames(edges: seq<Relationship>, policies: seq<Record>)
    requires |edges| == |policies|
    requires forall i :: 0 <= i < |edges| ==> edges[i].edge.target == Stable(policies[i].resource)
    ensures ResourceIds(policies) == NamesOf(edges)
    ensures forall i :: 0 <= i < |edges| ==> TargetName(edges[i]) == policies[i].resource.resourceId
  {
    forall n | n in NamesOf(edges) ensures n in ResourceIds(policies) {
      var r :| r in edges && TargetName(r) == n;
      var i :| 0 <= i < |edges| && edges[i] == r;
      assert policies[i] in policies;
    }
    forall n | n in ResourceIds(policies) ensures n in NamesOf(edges) {
      var p :| p in policies && p.resource.resourceId == n;
      var i :| 0 <= i < |policies| && policies[i] == p;
      assert edges[i] in edges;
    }
  }

  predicate DistinctIds(policies: seq<Record>) {
    forall i, j :: 0 <= i < j < |policies| ==> policies[i].resource.resourceId != policies[j].resource.resourceId
  }

  /** The linked resources: one for each expected identifier. */
  lemma LinkedAreExpected(
    snap: Snapshot, owner: Resource, kind: RelationshipType, expected: set<string>, found: Resolved)
    requires RecordsValid(snap) && Linked(snap, owner, kind, expected, found).Some?
    ensures var policies := Linked(snap, owner, kind, expected, found).value.policies;
            && |policies| == |expected| && ResourceIds(policies) == expected && DistinctIds(policies)
            && (forall p :: p in policies ==> p in snap.resources)
            && (kind == "attached_inline_policy" ==> forall p :: p in policies ==> IsInlineIdentity(p.resource))
  {
    var edges := Leaving(snap, snap.graph.relationships, TargetId(snap, owner), kind);
    var policies := Linked(snap, owner, kind, expected, found).value.policies;
    LeavingMembers(snap, snap.graph.relationships, TargetId(snap, owner), kind);
    EndpointsAre(snap, edges, found.outcome.outcomeId);
    NamesDistinct(edges);
    SameNames(edges, policies);
    EndsRetained(snap, edges, policies, kind);
  }

  lemma EndsRetained(snap: Snapshot, edges: seq<Relationship>, policies: seq<Record>, kind: RelationshipType)
    requires RecordsValid(snap) && |edges| == |policies|
    requires forall r :: r in edges ==> r in snap.graph.relationships && r.edge.kind == kind
    requires forall i :: 0 <= i < |edges| ==>
               edges[i].edge.target == Stable(policies[i].resource) && policies[i] in snap.resources
    ensures forall p :: p in policies ==> p in snap.resources
    ensures kind == "attached_inline_policy" ==> forall p :: p in policies ==> IsInlineIdentity(p.resource)
  {
    forall p | p in policies
      ensures p in snap.resources && (kind == "attached_inline_policy" ==> IsInlineIdentity(p.resource))
    {
      var i :| 0 <= i < |policies| && policies[i] == p;
      InlineTarget(snap, edges[i]);
    }
  }

  lemma InlineTarget(snap: Snapshot, r: Relationship)
    requires RecordsValid(snap) && r in snap.graph.relationships && r.edge.target.Stable?
    ensures r.edge.kind == "attached_inline_policy" ==> IsInlineIdentity(r.edge.target.resource)
  {
  }

  // ----- The closed population -----

  /** Some attachment or the boundary of the owner leads to the policy. */
  ghost predicate Uses(facts: OwnerProof, owner: Record, arn: string) {
    && facts(owner).Some?
    && (arn in ResourceIds(facts(owner).value.attached) || arn in ResourceIds(facts(owner).value.bounding))
  }

  ghost predicate Names(facts: OwnerProof, owner: Record, id: string) {
    facts(owner).Some? && id in ResourceIds(facts(owner).value.inline)
  }

  lemma {:induction false} UsageIsUnion(facts: OwnerProof, owners: seq<Record>)
    requires UsageOf(facts, owners).Some?
    ensures forall o :: o in owners ==> facts(o).Some?
    ensures forall arn :: arn in UsageOf(facts, owners).value.managed <==>
              exists o :: o in owners && Uses(facts, o, arn)
    ensures forall id :: id in UsageOf(facts, owners).value.inline <==> exists o :: o in owners && Names(facts, o, id)
  {
    if owners != [] {
      var init, last := owners[..|owners| - 1], owners[|owners| - 1];
      assert owners == init + [last];
      UsageIsUnion(facts, init);
      forall arn
        ensures arn in UsageOf(facts, owners).value.managed <==> exists o :: o in owners && Uses(facts, o, arn)
      {
        assert arn in UsageOf(facts, owners).value.managed <==>
               arn in UsageOf(facts, init).value.managed || Uses(facts, last, arn);
        assert (exists o :: o in owners && Uses(facts, o, arn)) <==>
               (exists o :: o in init && Uses(facts, o, arn)) || Uses(facts, last, arn);
      }
      forall id ensures id in UsageOf(facts, owners).value.inline <==> exists o :: o in owners && Names(facts, o, id) {
        assert (exists o :: o in owners && Names(facts, o, id)) <==>
               (exists o :: o in init && Names(facts, o, id)) || Names(facts, last, id);
      }
    }
  }

  lemma AttachedIsListed(snap: Snapshot, owner: Resource) returns (payload: Json)
    requires RecordsValid(snap) && Attached(snap, owner).Some?
    ensures Enumerated(payload, "policy_arns", "policy_count")
              == Some(ResourceIds(Attached(snap, owner).value.policies))
  {
    var found := SourceAbout(snap, AttachmentSource(owner.resourceType), owner).value;
    payload := found.artifact.payload;
    var arns := Enumerated(payload, "policy_arns", "policy_count").value;
    LinkedAreExpected(snap, owner, "attached_managed_policy", arns, found);
  }

  lemma BoundaryIsConfigured(snap: Snapshot, owner: Record)
    requires RecordsValid(snap) && Boundary(snap, owner).Some?
    ensures |Boundary(snap, owner).value.policies| <= 1
    ensures ResourceIds(Boundary(snap, owner).value.policies)
            == if Get(owner.configuration, "permissions_boundary_arn").Text?
               then {Get(owner.configuration, "permissions_boundary_arn").text} else {}
  {
    var kind := owner.resource.resourceType;
    var found := SourceAbout(snap, ProfileSource(kind), owner.resource).value;
    var boundary := Get(found.artifact.payload, "permissions_boundary_arn");
    var expected: set<string> := if boundary.Text? then {boundary.text} else {};
    LinkedAreExpected(snap, owner.resource, "permissions_boundary", expected, found);
  }

  lemma FactsParts(snap: Snapshot, rules: PolicyRules, owner: Record)
    requires FactsOf(snap, rules, owner).Some?
    ensures var facts, r := FactsOf(snap, rules, owner).value, owner.resource;
            && r.account == snap.graph.account && r.scope == GLOBAL
            && Attached(snap, r).Some? && facts.attached == Attached(snap, r).value.policies
            && AllManaged(facts.attached) && AllManaged(facts.bounding)
            && Inline(snap, rules, owner).Some? && facts.inline == Inline(snap, rules, owner).value.policies
            && (if r.resourceType == GROUP_TYPE then facts.bounding == []
                else Boundary(snap, owner).Some? && facts.bounding == Boundary(snap, owner).value.policies)
  {
  }

  function BoundaryName(owner: Record): set<string> {
    var boundary := Get(owner.configuration, "permissions_boundary_arn");
    if owner.resource.resourceType != GROUP_TYPE && boundary.Text? then {boundary.text} else {}
  }

  lemma BoundsByName(snap: Snapshot, rules: PolicyRules, owner: Record)
    requires RecordsValid(snap) && FactsOf(snap, rules, owner).Some?
    ensures ResourceIds(FactsOf(snap, rules, owner).value.bounding) == BoundaryName(owner)
  {
    FactsParts(snap, rules, owner);
    if owner.resource.resourceType != GROUP_TYPE {
      BoundaryIsConfigured(snap, owner);
    }
  }

  lemma AttachedByName(snap: Snapshot, rules: PolicyRules, owner: Record) returns (payload: Json)
    requires RecordsValid(snap) && FactsOf(snap, rules, owner).Some?
    ensures Enumerated(payload, "policy_arns", "policy_count")
              == Some(ResourceIds(FactsOf(snap, rules, owner).value.attached))
  {
    FactsParts(snap, rules, owner);
    payload := AttachedIsListed(snap, owner.resource);
  }

  /** An owner uses exactly the policies its attachment listing and its own boundary name. */
  lemma OwnerUsesListed(snap: Snapshot, rules: PolicyRules, owner: Record) returns (payload: Json)
    requires RecordsValid(snap) && Facts(snap, rules)(owner).Some?
    ensures Enumerated(payload, "policy_arns", "policy_count").Some?
    ensures forall arn :: Uses(Facts(snap, rules), owner, arn) <==>
              arn in Enumerated(payload, "policy_arns", "policy_count").value + BoundaryName(owner)
  {
    payload := AttachedByName(snap, rules, owner);
    BoundsByName(snap, rules, owner);
    var facts := Facts(snap, rules)(owner).value;
    assert forall arn :: Uses(Facts(snap, rules), owner, arn) <==>
        arn in ResourceIds(facts.attached) || arn in ResourceIds(facts.bounding);
  }

  /** The discovery evidence of a listing names exactly the retained resources of its type. */
  ghost predicate ListsItsType(snap: Snapshot, listing: (RequiredSource, string)) {
    && ListingOf(snap, listing.0, listing.1).Some?
    && ListingOf(snap, listing.0, listing.1).value.1 == ResourceIds(OfType(snap.resources, listing.1))
  }

  lemma {:induction false} AllListed(snap: Snapshot, listings: seq<(RequiredSource, string)>, k: nat)
    requires ListedCitations(snap, listings).Some? && k < |listings|
    ensures ListsItsType(snap, listings[k])
  {
    if k < |listings| - 1 {
      AllListed(snap, listings[..|listings| - 1], k);
    }
  }

  /**
   In an accepted population each account-wide listing names exactly the retained resources of its
   type, the managed policies are exactly those listed or used by some owner, and the inline
   policies exactly those some owner names.
   */
  lemma PopulationExact(snap: Snapshot, rules: PolicyRules, arn: string, id: string)
    requires CoverageOf(snap, rules).Some?
    ensures forall k :: 0 <= k < |Listings()| ==> ListsItsType(snap, Listings()[k])
    ensures arn in ResourceIds(Managed(snap)) <==>
              || arn in ResourceIds(OfType(snap.resources, "iam_customer_managed_policy"))
              || exists o :: o in Owners(snap) && Uses(Facts(snap, rules), o, arn)
    ensures id in ResourceIds(OfType(snap.resources, INLINE_TYPE)) <==>
              exists o :: o in Owners(snap) && Names(Facts(snap, rules), o, id)
  {
    UsageIsUnion(Facts(snap, rules), Owners(snap));
    var usage := UsageOf(Facts(snap, rules), Owners(snap)).value;
    assert PopulationClosed(snap, usage);
    assert arn in ResourceIds(Managed(snap)) <==>
           arn in ResourceIds(OfType(snap.resources, "iam_customer_managed_policy")) + usage.managed;
    forall k | 0 <= k < |Listings()| ensures ListsItsType(snap, Listings()[k]) {
      AllListed(snap, Listings(), k);
    }
  }

  // ----- One usage context for each inline policy -----

  /** What an owner's inline evidence names. */
  lemma InlineByName(snap: Snapshot, rules: PolicyRules, owner: Record)
    requires RecordsValid(snap) && Inline(snap, rules, owner).Some?
    ensures InlineNames(snap, owner.resource).Some?
    ensures var policies := Inline(snap, rules, owner).value.policies;
            && ResourceIds(policies) == InlineIds(rules, owner.resource, InlineNames(snap, owner.resource).value.1)
            && DistinctIds(policies)
            && forall p :: p in policies ==>
                 p in snap.resources && IsInlineIdentity(p.resource) && p.resource.account == owner.resource.account
  {
    var listed := InlineNames(snap, owner.resource).value;
    LinkedAreExpected(snap, owner.resource, "attached_inline_policy", InlineIds(rules, owner.resource, listed.1),
                      listed.0);
    assert forall p :: p in Inline(snap, rules, owner).value.policies ==> IsInlineOf(owner, listed.1, p);
  }

  lemma {:induction false} NamingNone(snap: Snapshot, owner: Record, policies: seq<Record>, usage: string, t: Resource)
    requires RecordsValid(snap) && ValidResource(t)
    requires forall p :: p in policies ==> ValidResource(p.resource) && p.resource != t
    ensures Naming(snap, owner, policies, usage, TargetId(snap, t)) == []
  {
    if policies != [] {
      var last := policies[|policies| - 1];
      assert last in policies;
      NamingNone(snap, owner, policies[..|policies| - 1], usage, t);
      SnapshotIdInjective(snap.h, snap.graph.scan, last.resource, snap.graph.scan, t);
    }
  }

  /** Among inline policies of one account with distinct names, a policy is named at most once. */
  lemma {:induction false} NamingOnce(snap: Snapshot, owner: Record, policies: seq<Record>, usage: string, t: Resource)
    requires RecordsValid(snap) && ValidResource(t) && IsInlineIdentity(t) && DistinctIds(policies)
    requires forall p :: p in policies ==>
               ValidResource(p.resource) && IsInlineIdentity(p.resource) && p.resource.account == owner.resource.account
    ensures |Naming(snap, owner, policies, usage, TargetId(snap, t))|
            == if t.account == owner.resource.account && t.resourceId in ResourceIds(policies) then 1 else 0
  {
    if policies != [] {
      var init, last := policies[..|policies| - 1], policies[|policies| - 1];
      assert policies == init + [last] && last in policies;
      assert ResourceIds(policies) == ResourceIds(init) + {last.resource.resourceId};
      if last.resource == t {
        forall p | p in init ensures p.resource != t {
          var i :| 0 <= i < |init| && init[i] == p;
          assert policies[i].resource.resourceId != policies[|policies| - 1].resource.resourceId;
        }
        NamingNone(snap, owner, init, usage, t);
      } else {
        NamingOnce(snap, owner, init, usage, t);
        SnapshotIdInjective(snap.h, snap.graph.scan, last.resource, snap.graph.scan, t);
      }
    }
  }

  /** An owner adds one context to the inline policies it names, and none to any other. */
  lemma UsedByOnce(snap: Snapshot, rules: PolicyRules, owner: Record, t: Resource)
    requires RecordsValid(snap) && ValidResource(t) && IsInlineIdentity(t) && FactsOf(snap, rules, owner).Some?
    ensures InlineNames(snap, owner.resource).Some? && owner.resource.account == snap.graph.account
    ensures |UsedBy(snap, owner, FactsOf(snap, rules, owner).value, TargetId(snap, t))|
            == if && t.account == snap.graph.account
                  && t.resourceId in InlineIds(rules, owner.resource, InlineNames(snap, owner.resource).value.1)
               then 1 else 0
  {
    var facts := FactsOf(snap, rules, owner).value;
    FactsParts(snap, rules, owner);
    InlineByName(snap, rules, owner);
    ManagedAreNotInline(snap, rules, owner, t);
    NamingNone(snap, owner, facts.attached, "attachment", t);
    NamingNone(snap, owner, facts.bounding, "permissions_boundary", t);
    NamingOnce(snap, owner, facts.inline, "inline", t);
  }

  lemma ManagedOtherThan(snap: Snapshot, policies: seq<Record>, t: Resource)
    requires RecordsValid(snap) && IsInlineIdentity(t) && AllManaged(policies)
    requires forall p :: p in policies ==> p in snap.resources
    ensures forall p :: p in policies ==> ValidResource(p.resource) && p.resource != t
  {
    assert INLINE_TYPE !in MANAGED_TYPES;
  }

  lemma ManagedAreNotInline(snap: Snapshot, rules: PolicyRules, owner: Record, t: Resource)
    requires RecordsValid(snap) && IsInlineIdentity(t) && FactsOf(snap, rules, owner).Some?
    ensures forall p :: p in FactsOf(snap, rules, owner).value.attached ==> ValidResource(p.resource) && p.resource != t
    ensures forall p :: p in FactsOf(snap, rules, owner).value.bounding ==> ValidResource(p.resource) && p.resource != t
  {
    FactsParts(snap, rules, owner);
    var attached, bounding := FactsOf(snap, rules, owner).value.attached, FactsOf(snap, rules, owner).value.bounding;
    assert forall p :: p in attached ==> p in snap.resources by {
      AttachedRetained(snap, owner.resource);
    }
    assert forall p :: p in bounding ==> p in snap.resources by {
      if owner.resource.resourceType != GROUP_TYPE {
        BoundaryRetained(snap, owner);
      }
    }
    ManagedOtherThan(snap, attached, t);
    ManagedOtherThan(snap, bounding, t);
  }

  lemma AttachedRetained(snap: Snapshot, owner: Resource)
    requires RecordsValid(snap) && Attached(snap, owner).Some?
    ensures forall p :: p in Attached(snap, owner).value.policies ==> p in snap.resources
  {
    var found := SourceAbout(snap, AttachmentSource(owner.resourceType), owner).value;
    LinkedAreExpected(snap, owner, "attached_managed_policy",
                      Enumerated(found.artifact.payload, "policy_arns", "policy_count").value, found);
  }

  lemma BoundaryRetained(snap: Snapshot, owner: Record)
    requires RecordsValid(snap) && Boundary(snap, owner).Some?
    ensures forall p :: p in Boundary(snap, owner).value.policies ==> p in snap.resources
  {
    var kind := owner.resource.resourceType;
    var found := SourceAbout(snap, ProfileSource(kind), owner.resource).value;
    var boundary := Get(found.artifact.payload, "permissions_boundary_arn");
    LinkedAreExpected(snap, owner.resource, "permissions_boundary",
                      if boundary.Text? then {boundary.text} else {}, found);
  }

  /** Owner records with one identity. */
  function SameOwner(owner: Resource): Record -> bool {
    (r: Record) => r.resource == owner
  }

  lemma {:induction false} OfTypeMembers(resources: seq<Record>, kind: string)
    ensures forall r :: r in OfType(resources, kind) <==>
              r in resources && r.resource.service == "iam" && r.resource.resourceType == kind
  {
    if resources != [] {
      assert resources == resources[..|resources| - 1] + [resources[|resources| - 1]];
      OfTypeMembers(resources[..|resources| - 1], kind);
    }
  }

  lemma OwnersAreIam(snap: Snapshot)
    ensures forall o :: o in Owners(snap) ==> o in snap.resources && o.resource.service == "iam"
  {
    OfTypeMembers(snap.resources, "iam_user");
    OfTypeMembers(snap.resources, GROUP_TYPE);
    OfTypeMembers(snap.resources, "iam_role");
  }

  /** An accepted owner is known by its type and identifier. */
  lemma OwnerIdentity(snap: Snapshot, rules: PolicyRules, o: Record)
    requires RecordsValid(snap) && o in Owners(snap) && FactsOf(snap, rules, o).Some?
    ensures o.resource == Resource(snap.graph.account, "iam", o.resource.resourceType, GLOBAL, None,
              o.resource.resourceId)
  {
    OwnersAreIam(snap);
    FactsParts(snap, rules, o);
  }

  lemma InlineKeysDiffer(
    rules: PolicyRules, o: Resource, names: set<string>, w: Resource, others: set<string>, id: string)
    requires Injective(rules.inlineId)
    requires id in InlineIds(rules, o, names) && id in InlineIds(rules, w, others)
    ensures o.account == w.account && o.resourceId == w.resourceId && o.resourceType == w.resourceType
  {
    var n :| n in names && rules.inlineId(InlineKey(o.account, o.resourceId, o.resourceType, n)) == id;
    var m :| m in others && rules.inlineId(InlineKey(w.account, w.resourceId, w.resourceType, m)) == id;
    assert InlineKey(o.account, o.resourceId, o.resourceType, n)
        == InlineKey(w.account, w.resourceId, w.resourceType, m);
  }

  /** Two owners that could name one inline policy are one and the same identity. */
  lemma InlineOwnerUnique(snap: Snapshot, rules: PolicyRules, o: Record, w: Record, id: string)
    requires RecordsValid(snap) && Injective(rules.inlineId)
    requires o in Owners(snap) && w in Owners(snap)
    requires FactsOf(snap, rules, o).Some? && FactsOf(snap, rules, w).Some?
    requires InlineNames(snap, o.resource).Some?
              && id in InlineIds(rules, o.resource, InlineNames(snap, o.resource).value.1)
    requires InlineNames(snap, w.resource).Some?
    ensures id in InlineIds(rules, w.resource, InlineNames(snap, w.resource).value.1) <==> w.resource == o.resource
  {
    var names, others := InlineNames(snap, o.resource).value.1, InlineNames(snap, w.resource).value.1;
    if id in InlineIds(rules, w.resource, others) {
      OwnerIdentity(snap, rules, o);
      OwnerIdentity(snap, rules, w);
      InlineKeysDiffer(rules, o.resource, names, w.resource, others, id);
    }
  }

  lemma {:induction false} ContextsCounted(
    snap: Snapshot, facts: OwnerProof, owners: seq<Record>, id: Uuid, owner: Resource, once: nat)
    requires forall w :: w in owners ==>
               facts(w).Some? && |UsedBy(snap, w, facts(w).value, id)| == if w.resource == owner then once else 0
    requires once <= 1
    ensures |ContextsOf(snap, facts, owners, id)| == if once == 1 then Count(owners, SameOwner(owner)) else 0
  {
    if owners != [] {
      var init, last := owners[..|owners| - 1], owners[|owners| - 1];
      assert last in owners && forall w :: w in init ==> w in owners;
      ContextsCounted(snap, facts, init, id, owner, once);
    }
  }

  lemma InlineOwnerFound(snap: Snapshot, rules: PolicyRules, t: Record) returns (o: Record)
    requires RecordsValid(snap) && CoverageOf(snap, rules).Some? && t in OfType(snap.resources, INLINE_TYPE)
    ensures forall w :: w in Owners(snap) ==> FactsOf(snap, rules, w).Some?
    ensures o in Owners(snap) && InlineNames(snap, o.resource).Some?
    ensures t.resource.resourceId in InlineIds(rules, o.resource, InlineNames(snap, o.resource).value.1)
  {
    PopulationExact(snap, rules, "", t.resource.resourceId);
    UsageIsUnion(Facts(snap, rules), Owners(snap));
    assert forall w :: w in Owners(snap) ==> Facts(snap, rules)(w).Some?;
    o :| o in Owners(snap) && Names(Facts(snap, rules), o, t.resource.resourceId);
    FactsParts(snap, rules, o);
    InlineByName(snap, rules, o);
  }

  /**
   In an accepted population an inline policy of the account has one usage context for every
   retained record of its one owner; an inline policy of any other account has none.
   */
  lemma InlineUsage(snap: Snapshot, rules: PolicyRules, t: Record) returns (o: Record)
    requires RecordsValid(snap) && Injective(rules.inlineId) && CoverageOf(snap, rules).Some?
    requires t in OfType(snap.resources, INLINE_TYPE)
    ensures o in Owners(snap)
    ensures |ContextsOf(snap, Facts(snap, rules), Owners(snap), TargetId(snap, t.resource))|
            == if t.resource.account == snap.graph.account then Count(Owners(snap), SameOwner(o.resource)) else 0
  {
    o := InlineOwnerFound(snap, rules, t);
    OfTypeMembers(snap.resources, INLINE_TYPE);
    assert IsInlineIdentity(t.resource);
    var once := if t.resource.account == snap.graph.account then 1 else 0;
    var facts, id := Facts(snap, rules), TargetId(snap, t.resource);
    forall w | w in Owners(snap)
      ensures facts(w).Some? && |UsedBy(snap, w, facts(w).value, id)| == if w.resource == o.resource then once else 0
    {
      UsedByOnce(snap, rules, w, t.resource);
      InlineOwnerUnique(snap, rules, o, w, t.resource.resourceId);
    }
    ContextsCounted(snap, facts, Owners(snap), id, o.resource, once);
  }

  lemma {:induction false} DistinctCountsOnce(owners: seq<Record>, o: Record)
    requires forall i, j :: 0 <= i < j < |owners| ==> owners[i].resource != owners[j].resource
    ensures Count(owners, SameOwner(o.resource)) == if exists w :: w in owners && w.resource == o.resource then 1 else 0
  {
    if owners != [] {
      var init, last := owners[..|owners| - 1], owners[|owners| - 1];
      assert owners == init + [last];
      DistinctCountsOnce(init, o);
      if last.resource == o.resource {
        forall w | w in init ensures w.resource != o.resource {
          var i :| 0 <= i < |init| && init[i] == w;
          assert owners[i].resource != owners[|owners| - 1].resource;
        }
      }
    }
  }

  /** With distinct owners the later one-context check passes exactly for policies of the account. */
  lemma OneContextCheck(snap: Snapshot, rules: PolicyRules, t: Record)
    requires RecordsValid(snap) && Injective(rules.inlineId) && CoverageOf(snap, rules).Some?
    requires t in OfType(snap.resources, INLINE_TYPE)
    requires forall i, j :: 0 <= i < j < |Owners(snap)| ==> Owners(snap)[i].resource != Owners(snap)[j].resource
    ensures |ContextsOf(snap, Facts(snap, rules), Owners(snap), TargetId(snap, t.resource))| == 1
            <==> t.resource.account == snap.graph.account
  {
    var o := InlineUsage(snap, rules, t);
    DistinctCountsOnce(Owners(snap), o);
  }
}
