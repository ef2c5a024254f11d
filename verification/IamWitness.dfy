/**
 Two inputs on which the one-context check of inline policies fails, although the graph validator
 constructs their graph, the admission check takes their inventory and the population proof accepts
 their population.
 */
module IamWitness {
  import opened Ordering
  import opened Identities
  import opened GraphAcceptance
  import opened Sources
  import opened IamPolicy
  import opened IamMeaning
  import opened IamWorld
  import ResourceAdmission
  import IamAdmitted

  /** The contexts of a policy, as the population proof leaves them. */
  function ContextsIn(snap: Snapshot, rules: PolicyRules, policy: Record): seq<Context> {
    ContextsOf(snap, Facts(snap, rules), Owners(snap), TargetId(snap, policy.resource))
  }

  /** The snapshot passes everything before the one-context check. */
  ghost predicate PassesBefore(s: Settings, rules: PolicyRules, snap: Snapshot) {
    && snap.h == s.h && RecordsValid(snap)
    && Accepted(s, snap.graph, snap.graph)
    && ResourceAdmission.Admits(s, snap.graph, IamAdmitted.InventoryOf(snap))
    && CoverageOf(snap, rules).Some?
  }

  lemma WorldPasses(s: Settings, rules: PolicyRules, id: string, n: nat, snap: Snapshot)
    requires snap == World(s.h, id, n) && Size(n) && id == PolicyId(rules) && Collisionless(s.h) && Plain(id)
    ensures PassesBefore(s, rules, snap)
  {
    hide RecordsValid, Accepted, ResourceAdmission.Admits, CoverageOf, Collisionless;
    WorldValid(snap, s.h, id, n);
    IamAdmitted.ChainAccepted(s, id, n, snap.graph);
    IamAdmitted.WorldAdmitted(s, snap, id, n);
    PopulationAccepted(snap, s.h, rules, id, n);
  }

  lemma CountsBoth(o: Record)
    requires o in OwnersWith(8)
    ensures Count(OwnersWith(8), SameOwner(o.resource)) == 2
  {
    assert o == User();
    assert [User(), User()][..1] == [User()] && [User()][..0] == [];
  }

  /** Without exactly one context the policy has no proof. */
  lemma NoAnswer(snap: Snapshot, rules: PolicyRules, policy: Record)
    requires RecordsValid(snap) && policy in snap.resources && policy.resource.resourceType == INLINE_TYPE
    requires |ContextsIn(snap, rules, policy)| != 1
    ensures PolicyAnswer(snap, rules, policy.resource).None?
  {
    hide CoverageOf;
    RecordAtIs(snap, snap.resources, TargetId(snap, policy.resource));
    var usages := UsagesOf(snap, rules);
    assert |usages(TargetId(snap, policy.resource))| != 1;
    var record := RecordAt(snap, snap.resources, TargetId(snap, policy.resource));
    if record.Some? {
      SnapshotIdInjective(snap.h, snap.graph.scan, record.value.resource, snap.graph.scan, policy.resource);
    }
  }

  /** An owner listed twice: everything passes, and its inline policy has two contexts. */
  lemma OwnerTwice(s: Settings, rules: PolicyRules) returns (snap: Snapshot, policy: Record)
    requires Collisionless(s.h) && Injective(rules.inlineId) && Plain(PolicyId(rules))
    ensures PassesBefore(s, rules, snap)
    ensures policy in snap.resources && policy.resource.resourceType == INLINE_TYPE
    ensures policy.resource.account == snap.graph.account && |ContextsIn(snap, rules, policy)| == 2
    ensures PolicyAnswer(snap, rules, policy.resource).None?
  {
    hide Accepted, ResourceAdmission.Admits, CoverageOf, RecordsValid, Collisionless, OfType;
    var id := PolicyId(rules);
    snap, policy := World(s.h, id, 8), PolicyOf(ACCOUNT, id);
    WorldPasses(s, rules, id, 8, snap);
    Population(snap, s.h, id, 8);
    var o := InlineUsage(snap, rules, policy);
    CountsBoth(o);
    NoAnswer(snap, rules, policy);
  }

  /** A policy of another account under a local identifier: everything passes, and it has no context. */
  lemma ForeignTwin(s: Settings, rules: PolicyRules) returns (snap: Snapshot, policy: Record)
    requires Collisionless(s.h) && Injective(rules.inlineId) && Plain(PolicyId(rules))
    ensures PassesBefore(s, rules, snap)
    ensures policy in snap.resources && policy.resource.resourceType == INLINE_TYPE
    ensures policy.resource.account != snap.graph.account && ContextsIn(snap, rules, policy) == []
    ensures PolicyAnswer(snap, rules, policy.resource).None?
  {
    hide Accepted, ResourceAdmission.Admits, CoverageOf, RecordsValid, Collisionless, OfType;
    var id := PolicyId(rules);
    snap, policy := World(s.h, id, 10), PolicyOf(FOREIGN, id);
    WorldPasses(s, rules, id, 10, snap);
    Population(snap, s.h, id, 10);
    var o := InlineUsage(snap, rules, policy);
    NoAnswer(snap, rules, policy);
  }
}
