/** The evidence reader: indexes filled once, caches filled on demand, answers as if neither existed. */
module Readers {
  import opened Wrappers
  import opened Scans
  import opened Identities
  import opened Evidence
  import opened Sources
  import G = Governance
  import I = IamPolicy

  // ----- Indexes -----

  function DeclaredAt(sources: map<SourceKey, seq<Contract>>, key: SourceKey): seq<Contract> {
    if key in sources then sources[key] else []
  }

  method IndexContracts(contracts: seq<Contract>) returns (sources: map<SourceKey, seq<Contract>>)
    ensures forall key :: DeclaredAt(sources, key) == Declared(contracts, key)
  {
    sources := map[];
    for i := 0 to |contracts|
      invariant forall key :: DeclaredAt(sources, key) == Declared(contracts[..i], key)
    {
      assert contracts[..i + 1][..i] == contracts[..i];
      sources := sources[KeyOf(contracts[i]) := DeclaredAt(sources, KeyOf(contracts[i])) + [contracts[i]]];
    }
    assert contracts[..|contracts|] == contracts;
  }

  function At<K, V>(index: map<K, V>, key: K): Option<V> {
    if key in index then Some(index[key]) else None
  }

  method IndexOutcomes(outcomes: seq<Outcome>) returns (index: map<Uuid, Outcome>)
    ensures forall id :: At(index, id) == OutcomeOf(outcomes, id)
  {
    index := map[];
    for i := 0 to |outcomes|
      invariant forall id :: At(index, id) == OutcomeOf(outcomes[..i], id)
    {
      assert outcomes[..i + 1][..i] == outcomes[..i];
      index := index[outcomes[i].outcomeId := outcomes[i]];
    }
    assert outcomes[..|outcomes|] == outcomes;
  }

  method ArtifactsByReference(artifacts: seq<Artifact>) returns (index: map<string, Artifact>)
    ensures forall reference :: At(index, reference) == ArtifactOf(artifacts, reference)
  {
    index := map[];
    for i := 0 to |artifacts|
      invariant forall reference :: At(index, reference) == ArtifactOf(artifacts[..i], reference)
    {
      assert artifacts[..i + 1][..i] == artifacts[..i];
      index := index[artifacts[i].reference := artifacts[i]];
    }
    assert artifacts[..|artifacts|] == artifacts;
  }

  function MembersAt(families: map<(string, string), seq<Record>>, family: G.Family): seq<Record> {
    var key := (family.service, family.resourceType);
    if key in families then families[key] else []
  }

  method IndexFamilies(resources: seq<Record>) returns (families: map<(string, string), seq<Record>>)
    ensures forall f :: MembersAt(families, f) == G.Members(resources, f)
  {
    families := map[];
    for i := 0 to |resources|
      invariant forall f :: MembersAt(families, f) == G.Members(resources[..i], f)
    {
      assert resources[..i + 1][..i] == resources[..i];
      var r := resources[i].resource;
      var family := G.Family(r.service, r.resourceType);
      families := families[(r.service, r.resourceType) := MembersAt(families, family) + [resources[i]]];
    }
    assert resources[..|resources|] == resources;
  }

  // ----- Citations on the heap -----

  /** The mutable citation and edge tables a proof writes into. */
  class Ledger {
    var citations: map<Uuid, Citation>
    var edges: set<Uuid>

    constructor (citations: map<Uuid, Citation>, edges: set<Uuid>)
      ensures this.citations == citations && this.edges == edges
    {
      this.citations, this.edges := citations, edges;
    }

    method Add(more: map<Uuid, Citation>, others: set<Uuid>)
      modifies this
      ensures citations == old(citations) + more && edges == old(edges) + others
    {
      citations, edges := citations + more, edges + others;
    }
  }

  function ContextsAt(usages: map<Uuid, seq<I.Context>>, id: Uuid): seq<I.Context> {
    if id in usages then usages[id] else []
  }

  /** The table is the start table with the contexts of these policies appended. */
  ghost predicate Appended(
    snap: Snapshot, usages: map<Uuid, seq<I.Context>>, now: map<Uuid, seq<I.Context>>, owner: Record,
    policies: seq<Record>, usage: string)
  {
    forall id :: ContextsAt(now, id) == ContextsAt(usages, id) + I.Naming(snap, owner, policies, usage, id)
  }

  lemma AppendOne(
    snap: Snapshot, usages: map<Uuid, seq<I.Context>>, now: map<Uuid, seq<I.Context>>, owner: Record,
    policies: seq<Record>, usage: string, policy: Record)
    requires Appended(snap, usages, now, owner, policies, usage)
    ensures var id := TargetId(snap, policy.resource);
            Appended(snap, usages, now[id := ContextsAt(now, id) + [I.Context(TargetId(snap, owner.resource), usage)]],
                     owner, policies + [policy], usage)
  {
    assert (policies + [policy])[..|policies|] == policies;
    var at := TargetId(snap, policy.resource);
    var context := I.Context(TargetId(snap, owner.resource), usage);
    var next := now[at := ContextsAt(now, at) + [context]];
    forall id
      ensures ContextsAt(next, id) == ContextsAt(usages, id) + I.Naming(snap, owner, policies + [policy], usage, id)
    {
      var before := I.Naming(snap, owner, policies, usage, id);
      assert ContextsAt(now, id) == ContextsAt(usages, id) + before;
      assert I.Naming(snap, owner, policies + [policy], usage, id) == before + if at == id then [context] else [];
      assert ContextsAt(usages, id) + before + [context] == ContextsAt(usages, id) + (before + [context]);
    }
  }

  method AddUsages(
    snap: Snapshot, usages: map<Uuid, seq<I.Context>>, owner: Record, policies: seq<Record>, usage: string)
    returns (now: map<Uuid, seq<I.Context>>)
    ensures Appended(snap, usages, now, owner, policies, usage)
  {
    now := usages;
    for i := 0 to |policies|
      invariant Appended(snap, usages, now, owner, policies[..i], usage)
    {
      AppendOne(snap, usages, now, owner, policies[..i], usage, policies[i]);
      assert policies[..i + 1] == policies[..i] + [policies[i]];
      var id := TargetId(snap, policies[i].resource);
      now := now[id := ContextsAt(now, id) + [I.Context(TargetId(snap, owner.resource), usage)]];
    }
    assert policies[..|policies|] == policies;
  }

  /** The table tabulates the usage contexts of these owners. */
  ghost predicate Tabulated(
    snap: Snapshot, facts: I.OwnerProof, owners: seq<Record>, usages: map<Uuid, seq<I.Context>>)
  {
    forall id :: ContextsAt(usages, id) == I.ContextsOf(snap, facts, owners, id)
  }

  lemma TabulateOne(
    snap: Snapshot, facts: I.OwnerProof, owners: seq<Record>, usages: map<Uuid, seq<I.Context>>,
    now: map<Uuid, seq<I.Context>>, owner: Record)
    requires Tabulated(snap, facts, owners, usages) && facts(owner).Some?
    requires forall id :: ContextsAt(now, id) == ContextsAt(usages, id) + I.UsedBy(snap, owner, facts(owner).value, id)
    ensures Tabulated(snap, facts, owners + [owner], now)
  {
    assert (owners + [owner])[..|owners|] == owners;
    forall id ensures ContextsAt(now, id) == I.ContextsOf(snap, facts, owners + [owner], id) {
      assert ContextsAt(usages, id) == I.ContextsOf(snap, facts, owners, id);
    }
  }

  /** Every owner in turn, writing into one ledger and one table of usage contexts. */
  method GatherOwners(snap: Snapshot, facts: I.OwnerProof, owners: seq<Record>, ledger: Ledger)
    returns (usage: Option<I.Usage>, usages: map<Uuid, seq<I.Context>>)
    modifies ledger
    ensures usage == I.UsageOf(facts, owners)
    ensures usage.Some? ==> Tabulated(snap, facts, owners, usages)
    ensures usage.Some? ==> ledger.citations == old(ledger.citations) + usage.value.citations
    ensures usage.Some? ==> ledger.edges == old(ledger.edges) + usage.value.edges
  {
    usages := map[];
    var total := I.Usage(map[], {}, {}, {});
    for i := 0 to |owners|
      invariant I.UsageOf(facts, owners[..i]) == Some(total)
      invariant Tabulated(snap, facts, owners[..i], usages)
      invariant ledger.citations == old(ledger.citations) + total.citations
      invariant ledger.edges == old(ledger.edges) + total.edges
    {
      hide Tabulated, I.UsedBy, I.AddFacts;
      assert owners[..i + 1] == owners[..i] + [owners[i]] && owners[..i + 1][..i] == owners[..i];
      var found := facts(owners[i]);
      if found.None? {
        UsageStaysNone(facts, owners, i);
        return None, usages;
      }
      var now := AddOwner(snap, usages, owners[i], found.value);
      TabulateOne(snap, facts, owners[..i], usages, now, owners[i]);
      usages := now;
      ledger.Add(found.value.citations, found.value.edges);
      total := I.AddFacts(total, found.value);
    }
    assert owners[..|owners|] == owners;
    usage := Some(total);
  }

  method AddOwner(snap: Snapshot, usages: map<Uuid, seq<I.Context>>, owner: Record, facts: I.OwnerFacts)
    returns (now: map<Uuid, seq<I.Context>>)
    ensures forall id :: ContextsAt(now, id) == ContextsAt(usages, id) + I.UsedBy(snap, owner, facts, id)
  {
    var attached := AddUsages(snap, usages, owner, facts.attached, "attachment");
    var bounding := AddUsages(snap, attached, owner, facts.bounding, "permissions_boundary");
    now := AddUsages(snap, bounding, owner, facts.inline, "inline");
    forall id ensures ContextsAt(now, id) == ContextsAt(usages, id) + I.UsedBy(snap, owner, facts, id) {
      Associate(ContextsAt(usages, id), I.Naming(snap, owner, facts.attached, "attachment", id),
                I.Naming(snap, owner, facts.bounding, "permissions_boundary", id),
                I.Naming(snap, owner, facts.inline, "inline", id));
    }
  }

  lemma Associate<T>(a: seq<T>, b: seq<T>, c: seq<T>, d: seq<T>)
    ensures a + b + c + d == a + (b + c + d)
  {
  }

  /** The whole population proof, in a ledger of its own. */
  method ProveAfresh(snap: Snapshot, rules: I.PolicyRules)
    returns (ledger: Ledger, coverage: Option<I.Coverage>, usages: map<Uuid, seq<I.Context>>)
    ensures fresh(ledger) && coverage == I.CoverageOf(snap, rules)
    ensures coverage.Some? ==> coverage.value == I.Coverage(ledger.citations, ledger.edges)
    ensures coverage.Some? ==> Tabulated(snap, I.Facts(snap, rules), I.Owners(snap), usages)
  {
    var listed := I.ListedCitations(snap, I.Listings());
    ledger := new Ledger(if listed.Some? then listed.value else map[], {});
    var usage: Option<I.Usage>;
    usage, usages := GatherOwners(snap, I.Facts(snap, rules), I.Owners(snap), ledger);
    if listed.None? || usage.None? || !I.PopulationClosed(snap, usage.value) {
      return ledger, None, usages;
    }
    assert ledger.edges == usage.value.edges && ledger.citations == listed.value + usage.value.citations;
    coverage := Some(I.Coverage(ledger.citations, ledger.edges));
  }

  lemma {:induction false} UsageStaysNone(facts: I.OwnerProof, owners: seq<Record>, i: nat)
    requires i < |owners| && facts(owners[i]).None?
    ensures I.UsageOf(facts, owners).None?
    decreases |owners|
  {
    if i < |owners| - 1 {
      UsageStaysNone(facts, owners[..|owners| - 1], i);
    }
  }

  // ----- The reader -----

  datatype Request =
    | GovernanceRequest(contract: G.ExecutionContract, target: Resource, profile: G.Profile)
    | PolicyRequest(target: Resource)

  datatype Reply =
    | GovernanceReply(answer: G.Answer)
    | PolicyReply(proof: Option<I.PolicyProof>)

  /** What a reader without any cache would reply. */
  function CacheFree(snap: Snapshot, rules: G.Rules, policyRules: I.PolicyRules, request: Request): Reply {
    match request
    case GovernanceRequest(contract, target, profile) =>
      GovernanceReply(G.GovernanceAnswer(snap, rules, contract, target, profile))
    case PolicyRequest(target) => PolicyReply(I.PolicyAnswer(snap, policyRules, target))
  }

  type PopulationKey = (G.ExecutionContract, Digest)

  class AssessmentReader {
    const snap: Snapshot
    const rules: G.Rules
    const policyRules: I.PolicyRules
    const sources: map<SourceKey, seq<Contract>>
    const outcomes: map<Uuid, Outcome>
    const artifacts: map<string, Artifact>
    var families: Option<map<(string, string), seq<Record>>>
    var populations: map<PopulationKey, Option<G.Coverage>>
    var ledger: Ledger?
    var usages: map<Uuid, seq<I.Context>>

    /** The indexes hold what scanning the snapshot would find. */
    ghost predicate Indexed() {
      && (forall key :: DeclaredAt(sources, key) == Declared(snap.graph.contracts, key))
      && (forall id :: At(outcomes, id) == OutcomeOf(snap.graph.outcomes, id))
      && (forall reference :: At(artifacts, reference) == ArtifactOf(snap.graph.artifacts, reference))
    }

    /** A cached population, or a cached failure, is what any target would compute now. */
    ghost predicate PopulationsTrue()
      reads this
    {
      forall key, policy, target ::
        key in populations && rules.digest(policy) == key.1 ==>
          populations[key] == G.CoverageOf(snap, key.0.families, policy.governedTypes, target)
    }

    ghost predicate LedgerTrue()
      reads this, ledger
    {
      ledger != null ==>
        && I.CoverageOf(snap, policyRules) == Some(I.Coverage(ledger.citations, ledger.edges))
        && Tabulated(snap, I.Facts(snap, policyRules), I.Owners(snap), usages)
    }

    ghost predicate FamiliesTrue()
      reads this
    {
      families.Some? ==> forall f :: MembersAt(families.value, f) == G.Members(snap.resources, f)
    }

    ghost predicate Valid()
      reads this, ledger
    {
      Indexed() && FamiliesTrue() && PopulationsTrue() && LedgerTrue()
    }

    constructor (snap: Snapshot, rules: G.Rules, policyRules: I.PolicyRules)
      ensures Valid()
      ensures this.snap == snap && this.rules == rules && this.policyRules == policyRules
      ensures families == None && populations == map[] && ledger == null
    {
      this.snap, this.rules, this.policyRules := snap, rules, policyRules;
      var declared := IndexContracts(snap.graph.contracts);
      var reported := IndexOutcomes(snap.graph.outcomes);
      var kept := ArtifactsByReference(snap.graph.artifacts);
      sources, outcomes, artifacts := declared, reported, kept;
      families, populations, ledger, usages := None, map[], null, map[];
    }

    /** The indexed lookup finds what a scan of the graph finds. */
    method ResolveSource(required: RequiredSource, target: Resource) returns (r: Option<Resolved>)
      requires Indexed()
      ensures r == Resolve(snap, required, target)
    {
      var key := (required.collector, required.evidenceKind, required.sourceApi);
      var found := Matching(snap, DeclaredAt(sources, key), required, target);
      assert DeclaredAt(sources, key) == Declared(snap.graph.contracts, key);
      if |found| != 1 || (required.admitted && !found[0].identityAuthoritative) {
        return None;
      }
      var outcome := At(outcomes, found[0].outcomeId);
      assert outcome == OutcomeOf(snap.graph.outcomes, found[0].outcomeId);
      if outcome.None? {
        return None;
      }
      var artifact := At(artifacts, outcome.value.reference);
      assert artifact == ArtifactOf(snap.graph.artifacts, outcome.value.reference);
      if || artifact.None?
         || !CompleteEvidence(outcome.value, artifact.value.payload, required.completeness, required.absenceIsComplete)
      {
        return None;
      }
      return Some(Resolved(outcome.value, artifact.value,
                           Citation(outcome.value.outcomeId, artifact.value.artifactId, artifact.value.sha)));
    }

    /** The resources of one family, from an index built at the first request. */
    method FamilyMembers(family: G.Family) returns (members: seq<Record>)
      requires FamiliesTrue()
      modifies this`families
      ensures FamiliesTrue() && members == G.Members(snap.resources, family)
    {
      if families.None? {
        var index := IndexFamilies(snap.resources);
        families := Some(index);
      }
      members := MembersAt(families.value, family);
    }

    method ProvePopulation(family: G.Family, target: Resource) returns (r: Option<G.Population>)
      requires Indexed() && FamiliesTrue()
      modifies this`families
      ensures FamiliesTrue() && r == G.PopulationOf(snap, family, target)
    {
      var required := G.DiscoveryOf(family.resourceType);
      var found := ResolveSource(required, target);
      if found.None? || !G.ProperDiscovery(required, found.value) {
        return None;
      }
      var members := FamilyMembers(family);
      if !G.Closed(snap, family, members, found.value.artifact.payload) {
        return None;
      }
      return Some(G.Population(set m | m in members :: TargetId(snap, m.resource), found.value.citation));
    }

    method ProvePopulations(governedFamilies: seq<G.Family>, governed: set<string>, target: Resource)
      returns (r: Option<G.Coverage>)
      requires Indexed() && FamiliesTrue()
      modifies this`families
      ensures FamiliesTrue() && r == G.CoverageOf(snap, governedFamilies, governed, target)
    {
      ghost var proof := G.Populations(snap, target);
      var coverage := G.Coverage(map[], map[]);
      for i := 0 to |governedFamilies|
        invariant FamiliesTrue()
        invariant G.CoverageBy(proof, governedFamilies[..i], governed) == Some(coverage)
      {
        assert governedFamilies[..i + 1][..i] == governedFamilies[..i];
        if governedFamilies[i].resourceType in governed {
          var population := ProvePopulation(governedFamilies[i], target);
          if population.None? {
            CoverageStaysNone(proof, governedFamilies, governed, i + 1);
            return None;
          }
          coverage := G.AddPopulation(coverage, governedFamilies[i], population.value);
        }
      }
      assert governedFamilies[..|governedFamilies|] == governedFamilies;
      r := Some(coverage);
    }

    /** Populations by contract and policy digest; a failure is cached like a success. */
    method GovernedPopulations(contract: G.ExecutionContract, target: Resource, profile: G.Profile)
      returns (r: Option<G.Coverage>)
      requires Valid() && Injective(rules.digest) && G.ValidProfile(rules, profile)
      modifies this`families, this`populations
      ensures Valid()
      ensures r == G.CoverageOf(snap, contract.families, profile.policy.governedTypes, target)
    {
      var key := (contract, profile.checksum);
      if key !in populations {
        var coverage := ProvePopulations(contract.families, profile.policy.governedTypes, target);
        populations := populations[key := coverage];
        forall policy, other | rules.digest(policy) == profile.checksum
          ensures coverage == G.CoverageOf(snap, contract.families, policy.governedTypes, other)
        {
          G.CoverageIgnoresTarget(snap, contract.families, policy.governedTypes, target, other);
        }
      }
      r := populations[key];
    }

    method GovernanceProof(contract: G.ExecutionContract, target: Resource, profile: G.Profile) returns (a: G.Answer)
      requires Valid() && Injective(rules.digest)
      modifies this`families, this`populations
      ensures Valid() && a == G.GovernanceAnswer(snap, rules, contract, target, profile)
    {
      if !G.ValidProfile(rules, profile) {
        return G.InvalidPolicy;
      }
      var coverage := G.Coverage(map[], map[]);
      if G.NeedsCoverage(target, profile) {
        var found := GovernedPopulations(contract, target, profile);
        if found.None? {
          return G.Incomplete;
        }
        coverage := found.value;
      }
      a := G.AnswerFrom(snap, rules, contract, target, profile, coverage);
    }

    /** The policy population, proved once; a failure is not cached and is proved again. */
    method ProveCoverage() returns (ok: bool)
      requires Valid()
      modifies this`ledger, this`usages
      ensures Valid()
      ensures ok <==> I.CoverageOf(snap, policyRules).Some?
      ensures ok ==> ledger != null
      ensures old(ledger) != null ==> ledger == old(ledger) && usages == old(usages)
    {
      if ledger != null {
        return true;
      }
      var table, coverage, contexts := ProveAfresh(snap, policyRules);
      if coverage.None? {
        return false;
      }
      ledger, usages := table, contexts;
      ok := true;
    }

    /** Each target's proof is written into a copy: the cached ledger is never touched again. */
    method IamPolicyProof(target: Resource) returns (r: Option<I.PolicyProof>)
      requires Valid()
      modifies this`ledger, this`usages
      ensures Valid()
      ensures r == I.PolicyAnswer(snap, policyRules, target)
      ensures old(ledger) != null ==>
                ledger == old(ledger) && ledger.citations == old(ledger.citations) && ledger.edges == old(ledger.edges)
    {
      var ok := ProveCoverage();
      if !ok {
        return None;
      }
      var proof := new Ledger(ledger.citations, ledger.edges);
      var known := usages;
      var contexts := (id: Uuid) => ContextsAt(known, id);
      var added := I.Addition(snap, policyRules, contexts, target);
      AdditionCongruent(snap, policyRules, contexts, I.UsagesOf(snap, policyRules), target);
      if added.None? {
        return None;
      }
      proof.Add(added.value.citations, added.value.edges);
      r := Some(I.PolicyProof(proof.citations, proof.edges, added.value.fact));
    }

    method Reply(request: Request) returns (reply: Reply)
      requires Valid() && Injective(rules.digest)
      modifies this`families, this`populations, this`ledger, this`usages
      ensures Valid()
      ensures reply == CacheFree(snap, rules, policyRules, request)
    {
      match request {
        case GovernanceRequest(contract, target, profile) =>
          var answer := GovernanceProof(contract, target, profile);
          reply := GovernanceReply(answer);
        case PolicyRequest(target) =>
          var proof := IamPolicyProof(target);
          reply := PolicyReply(proof);
      }
    }

    /** Any sequence of requests is answered as if nothing had ever been cached. */
    method Serve(requests: seq<Request>) returns (replies: seq<Reply>)
      requires Valid() && Injective(rules.digest)
      modifies this`families, this`populations, this`ledger, this`usages
      ensures Valid()
      ensures |replies| == |requests|
      ensures forall k :: 0 <= k < |requests| ==> replies[k] == CacheFree(snap, rules, policyRules, requests[k])
    {
      replies := [];
      for i := 0 to |requests|
        invariant Valid()
        invariant |replies| == i
        invariant forall k :: 0 <= k < i ==> replies[k] == CacheFree(snap, rules, policyRules, requests[k])
      {
        var reply := Reply(requests[i]);
        replies := replies + [reply];
      }
    }
  }

  lemma {:induction false} CoverageStaysNone(
    proof: G.PopulationProof, families: seq<G.Family>, governed: set<string>, i: nat)
    requires i <= |families| && G.CoverageBy(proof, families[..i], governed).None?
    ensures G.CoverageBy(proof, families, governed).None?
    decreases |families|
  {
    if i < |families| {
      assert families[..|families| - 1][..i] == families[..i];
      CoverageStaysNone(proof, families[..|families| - 1], governed, i);
    } else {
      assert families[..i] == families;
    }
  }

  /** A table and the function it tabulates give a target the same facts. */
  lemma AdditionCongruent(
    snap: Snapshot, rules: I.PolicyRules, contexts: Uuid -> seq<I.Context>, usages: Uuid -> seq<I.Context>,
    target: Resource)
    requires forall id :: contexts(id) == usages(id)
    ensures I.Addition(snap, rules, contexts, target) == I.Addition(snap, rules, usages, target)
  {
    var record := RecordAt(snap, snap.resources, TargetId(snap, target));
    if record.Some? {
      FactsCongruent(snap, rules, contexts, usages, record.value);
    }
  }

  lemma FactsCongruent(
    snap: Snapshot, rules: I.PolicyRules, contexts: Uuid -> seq<I.Context>, usages: Uuid -> seq<I.Context>,
    record: Record)
    requires forall id :: contexts(id) == usages(id)
    ensures I.DocumentFacts(snap, rules, contexts, record) == I.DocumentFacts(snap, rules, usages, record)
  {
    if record.resource.resourceType == I.INLINE_TYPE {
      InlineCongruent(snap, contexts, usages, record);
    } else if record.resource.resourceType == I.VERSION_TYPE {
      VersionCongruent(snap, rules, contexts, usages, record);
    }
  }

  lemma InlineCongruent(
    snap: Snapshot, contexts: Uuid -> seq<I.Context>, usages: Uuid -> seq<I.Context>, record: Record)
    requires forall id :: contexts(id) == usages(id)
    ensures I.InlineFacts(snap, contexts, record) == I.InlineFacts(snap, usages, record)
  {
    assert contexts(TargetId(snap, record.resource)) == usages(TargetId(snap, record.resource));
  }

  lemma VersionCongruent(
    snap: Snapshot, rules: I.PolicyRules, contexts: Uuid -> seq<I.Context>, usages: Uuid -> seq<I.Context>,
    record: Record)
    requires forall id :: contexts(id) == usages(id)
    ensures I.VersionFacts(snap, rules, contexts, record) == I.VersionFacts(snap, rules, usages, record)
  {
  }
}
