/** The required-tag proof, computed afresh: what a caching reader must always answer. */
module Governance {
  import opened Wrappers
  import opened Ordering
  import opened Identities
  import opened JsonValues
  import opened Evidence
  import opened Sources
  import opened Scans
  import opened TagVerdict
  import opened TagChain
  import ScanGraph

  datatype Family = Family(service: string, resourceType: string)

  datatype ExecutionContract = ExecutionContract(controlId: string, families: seq<Family>)

  datatype Policy = Policy(requiredTags: seq<string>, governedTypes: set<string>, otherContent: Json)

  datatype Profile = Profile(policy: Policy, checksum: Digest)

  /** The profile digest, and the text encoding of a tag. */
  datatype Rules = Rules(digest: Policy -> Digest, encoding: Encoding)

  // ----- The enumeration source of each governed family -----

  function Enumeration(
    collector: string, kind: string, api: string, subject: SubjectKind, fields: set<string>,
    absence: bool): RequiredSource
  {
    RequiredSource(collector, kind, api, subject, "1.0.0", fields, false, absence)
  }

  const GOVERNED_TYPES: set<string> := {
    "ec2_instance", "ebs_volume", "vpc", "subnet", "security_group", "vpc_flow_log", "s3_bucket",
    "iam_user", "iam_role", "iam_customer_managed_policy", "cloudtrail_trail"
  }

  function DiscoveryOf(resourceType: string): RequiredSource {
    match resourceType
    case "ec2_instance" =>
      Enumeration("ec2.instances", "ec2.instances.discovery", "ec2:DescribeInstances", REGIONAL_ACCOUNT,
                  {"complete"}, false)
    case "ebs_volume" =>
      Enumeration("ec2.volumes", "ec2.volumes.discovery", "ec2:DescribeVolumes", REGIONAL_ACCOUNT, {"complete"}, false)
    case "vpc" =>
      Enumeration("ec2.vpcs", "ec2.vpcs.discovery", "ec2:DescribeVpcs", REGIONAL_ACCOUNT,
                  {"complete", "admission_complete"}, false)
    case "subnet" =>
      Enumeration("ec2.subnets", "ec2.subnets.discovery", "ec2:DescribeSubnets", REGIONAL_ACCOUNT,
                  {"complete", "admission_complete"}, false)
    case "security_group" =>
      Enumeration("ec2.security-groups", "ec2.security-groups.discovery", "ec2:DescribeSecurityGroups",
                  REGIONAL_ACCOUNT, {"complete", "admission_complete"}, false)
    case "vpc_flow_log" =>
      Enumeration("ec2.flow-logs", "ec2.flow-logs.discovery", "ec2:DescribeFlowLogs", REGIONAL_ACCOUNT,
                  {"complete", "admission_complete"}, false)
    case "s3_bucket" =>
      Enumeration("s3.buckets", "s3.buckets.discovery", "s3:ListAllMyBuckets", GLOBAL_ACCOUNT, {"complete"}, true)
    case "iam_user" =>
      Enumeration("iam.users", "iam.users.discovery", "iam:ListUsers", GLOBAL_ACCOUNT, {"complete"}, false)
    case "iam_role" =>
      Enumeration("iam.roles", "iam.roles.discovery", "iam:ListRoles", GLOBAL_ACCOUNT, {"complete"}, false)
    case "iam_customer_managed_policy" =>
      Enumeration("iam.policies", "iam.customer-managed-policies.discovery", "iam:ListPolicies", GLOBAL_ACCOUNT,
                  {"complete"}, false)
    case _ =>
      Enumeration("cloudtrail.trails", "cloudtrail.trails.discovery", "cloudtrail:ListTrails", GLOBAL_ACCOUNT,
                  {"complete", "admission_complete"}, false)
  }

  // ----- Populations -----

  function Members(resources: seq<Record>, family: Family): seq<Record> {
    if resources == [] then []
    else
      var last := resources[|resources| - 1];
      Members(resources[..|resources| - 1], family)
      + if (last.resource.service, last.resource.resourceType) == (family.service, family.resourceType)
        then [last] else []
  }

  function IdsOf(members: seq<Record>): seq<string> {
    Map((r: Record) => r.resource.resourceId, members)
  }

  predicate Distinct(names: seq<string>) {
    forall i, j :: 0 <= i < j < |names| ==> names[i] != names[j]
  }

  /** A JSON list of strings that sorts to the same list as `names`. */
  predicate ListsSame(j: Json, names: seq<string>) {
    && j.List? && (forall n :: n in j.items ==> n.Text?)
    && Sort(Map((n: Json) => if n.Text? then n.text else "", j.items), TextLe) == Sort(names, TextLe)
  }

  /** The account-wide enumeration is closed over exactly the retained resources of the family. */
  predicate Closed(snap: Snapshot, family: Family, members: seq<Record>, payload: Json) {
    && Distinct(IdsOf(members))
    && Get(payload, "discarded_item_count") == Number(0)
    && (if family.service == "cloudtrail" then
          && Get(payload, "collection_account_id") == Text(snap.graph.account)
          && Get(payload, "invocation_region") == Text(snap.requestedRegion)
        else
          && Get(payload, "account_id") == Text(snap.graph.account)
          && MembersInScope(snap, family, members, payload))
    && ListsSame(Get(payload, IdField(family)), IdsOf(members))
    && Get(payload, if family.service == "cloudtrail" then "trail_count" else "resource_count") == Number(|members|)
    && (payload.Object? && "unadmitted_resources" in payload.fields ==>
        payload.fields["unadmitted_resources"] == List([]))
  }

  function IdField(family: Family): string {
    if family.service == "cloudtrail" then "trail_arns"
    else if family.service == "s3" then "bucket_names"
    else "resource_ids"
  }

  predicate MembersInScope(snap: Snapshot, family: Family, members: seq<Record>, payload: Json) {
    if family.service == "ec2" then
      && Get(payload, "region") == Text(snap.requestedRegion)
      && forall r :: r in members ==> r.resource.scope == REGIONAL && r.resource.region == Some(snap.requestedRegion)
    else if family.service == "iam" then
      && Get(payload, "scope") == Text("global")
      && forall r :: r in members ==>
           r.resource.account == snap.graph.account && r.resource.scope == GLOBAL && r.resource.region.None?
    else
      forall r :: r in members ==> r.resource.account == snap.graph.account && r.resource.scope == REGIONAL
  }

  /** A discovery source as governance reads it: its own schema, discovered and PRESENT. */
  predicate ProperDiscovery(required: RequiredSource, found: Resolved) {
    && found.artifact.schema == required.evidenceKind && found.artifact.schemaVersion == "1.0.0"
    && found.outcome.phase == ScanGraph.DISCOVERY && found.outcome.state == PRESENT
  }

  datatype Population = Population(members: set<Uuid>, citation: Citation)

  function PopulationFrom(snap: Snapshot, family: Family, found: Option<Resolved>): Option<Population> {
    var members := Members(snap.resources, family);
    if || found.None? || !ProperDiscovery(DiscoveryOf(family.resourceType), found.value)
       || !Closed(snap, family, members, found.value.artifact.payload) then None
    else Some(Population(set r | r in members :: TargetId(snap, r.resource), found.value.citation))
  }

  function PopulationOf(snap: Snapshot, family: Family, target: Resource): Option<Population> {
    PopulationFrom(snap, family, Resolve(snap, DiscoveryOf(family.resourceType), target))
  }

  datatype Coverage = Coverage(populations: map<string, set<Uuid>>, citations: map<Uuid, Citation>)

  type PopulationProof = Family -> Option<Population>

  function Populations(snap: Snapshot, target: Resource): PopulationProof {
    (f: Family) => PopulationOf(snap, f, target)
  }

  function AddPopulation(coverage: Coverage, family: Family, population: Population): Coverage {
    Coverage(coverage.populations[family.resourceType := population.members],
             coverage.citations[population.citation.outcomeId := population.citation])
  }

  /** Every governed family of the contract, or nothing: one gap hides behind no other family. */
  function CoverageBy(proof: PopulationProof, families: seq<Family>, governed: set<string>): Option<Coverage> {
    if families == [] then Some(Coverage(map[], map[]))
    else
      var last := families[|families| - 1];
      var before := CoverageBy(proof, families[..|families| - 1], governed);
      if before.None? || last.resourceType !in governed then before
      else if proof(last).None? then None
      else Some(AddPopulation(before.value, last, proof(last).value))
  }

  function CoverageOf(
    snap: Snapshot, families: seq<Family>, governed: set<string>, target: Resource): Option<Coverage>
  {
    CoverageBy(Populations(snap, target), families, governed)
  }

  lemma {:induction false} CoverageCongruent(
    f: PopulationProof, g: PopulationProof, families: seq<Family>, governed: set<string>)
    requires forall x :: f(x) == g(x)
    ensures CoverageBy(f, families, governed) == CoverageBy(g, families, governed)
  {
    if families != [] {
      CoverageCongruent(f, g, families[..|families| - 1], governed);
    }
  }

  /** Population proofs are facts of the snapshot and the policy, not of the target that asked. */
  lemma CoverageIgnoresTarget(
    snap: Snapshot, families: seq<Family>, governed: set<string>, target: Resource, other: Resource)
    ensures CoverageOf(snap, families, governed, target) == CoverageOf(snap, families, governed, other)
  {
    forall f ensures Populations(snap, target)(f) == Populations(snap, other)(f) {
      PopulationIgnoresTarget(snap, f, target, other);
    }
    CoverageCongruent(Populations(snap, target), Populations(snap, other), families, governed);
  }

  /** Every family is enumerated by an account-wide source. */
  lemma DiscoveryIsAccountWide(resourceType: string)
    ensures DiscoveryOf(resourceType).subject != TARGET
  {
  }

  lemma PopulationIgnoresTarget(snap: Snapshot, family: Family, target: Resource, other: Resource)
    ensures PopulationOf(snap, family, target) == PopulationOf(snap, family, other)
  {
    DiscoveryIsAccountWide(family.resourceType);
    ResolveIgnoresTarget(snap, DiscoveryOf(family.resourceType), target, other);
  }

  // ----- Answers -----

  datatype Answer =
    | InvalidPolicy
    | Incomplete
    | Proof(sources: map<Uuid, Citation>, applicable: bool, emptyPopulation: bool, tags: seq<Entry>, checksum: Digest)

  predicate ValidProfile(rules: Rules, profile: Profile) {
    && profile.policy.requiredTags != []
    && (forall tag :: tag in profile.policy.requiredTags ==> NotBlank(tag))
    && profile.policy.governedTypes != {} && profile.policy.governedTypes <= GOVERNED_TYPES
    && profile.checksum == rules.digest(profile.policy)
  }

  predicate NeedsCoverage(target: Resource, profile: Profile) {
    target.resourceType == "aws_account" || target.resourceType in profile.policy.governedTypes
  }

  predicate IsAccountTarget(snap: Snapshot, target: Resource) {
    && target.service == "iam" && target.account == snap.graph.account
    && target.resourceId == snap.graph.account && target.scope == GLOBAL && target.region.None?
  }

  function FamilyOf(families: seq<Family>, target: Resource): Option<Family> {
    if families == [] then None
    else if families[0] == Family(target.service, target.resourceType) then Some(families[0])
    else FamilyOf(families[1..], target)
  }

  /** The answer, given what the population proofs said. */
  function AnswerFrom(
    snap: Snapshot, rules: Rules, contract: ExecutionContract, target: Resource, profile: Profile,
    coverage: Coverage): Answer
  {
    var governed := profile.policy.governedTypes;
    if target.resourceType == "aws_account" then
      if IsAccountTarget(snap, target)
         && forall f :: f in contract.families && f.resourceType in governed ==>
              f.resourceType in coverage.populations && coverage.populations[f.resourceType] == {}
      then Proof(coverage.citations, false, true, [], profile.checksum) else Incomplete
    else
      var family := FamilyOf(contract.families, target);
      var record := RecordAt(snap, snap.resources, TargetId(snap, target));
      if family.None? || record.None? then Incomplete
      else if target.resourceType !in governed then Proof(coverage.citations, false, false, [], profile.checksum)
      else if || family.value.resourceType !in coverage.populations
              || TargetId(snap, record.value.resource) !in coverage.populations[family.value.resourceType]
      then Incomplete
      else
        var facts := ResourceTags(snap, rules.encoding, family.value.service, family.value.resourceType, record.value);
        if facts.None? then Incomplete
        else Proof(coverage.citations + facts.value.citations, true, false, facts.value.tags, profile.checksum)
  }

  /** The answer with no cache at all. */
  function GovernanceAnswer(
    snap: Snapshot, rules: Rules, contract: ExecutionContract, target: Resource, profile: Profile): Answer
  {
    if !ValidProfile(rules, profile) then InvalidPolicy
    else if !NeedsCoverage(target, profile) then
      AnswerFrom(snap, rules, contract, target, profile, Coverage(map[], map[]))
    else
      var coverage := CoverageOf(snap, contract.families, profile.policy.governedTypes, target);
      if coverage.None? then Incomplete else AnswerFrom(snap, rules, contract, target, profile, coverage.value)
  }

  lemma {:induction false} CoverageCloses(
    proof: PopulationProof, families: seq<Family>, governed: set<string>, f: Family)
    requires CoverageBy(proof, families, governed).Some?
    requires f in families && f.resourceType in governed
    ensures proof(f).Some?
    decreases |families|
  {
    var init, last := families[..|families| - 1], families[|families| - 1];
    assert families == init + [last];
    if f in init {
      CoverageCloses(proof, init, governed, f);
    }
  }

  /**
   A decisive answer about governed resources rests on the closed enumeration of every governed
   family of the control, not only the target's own: a failed family is never hidden by another.
   */
  lemma DecisiveMeansClosed(
    snap: Snapshot, rules: Rules, contract: ExecutionContract, target: Resource, profile: Profile, f: Family)
    requires GovernanceAnswer(snap, rules, contract, target, profile).Proof? && NeedsCoverage(target, profile)
    requires f in contract.families && f.resourceType in profile.policy.governedTypes
    ensures var found := Resolve(snap, DiscoveryOf(f.resourceType), target);
            found.Some? && Closed(snap, f, Members(snap.resources, f), found.value.artifact.payload)
  {
    CoverageCloses(Populations(snap, target), contract.families, profile.policy.governedTypes, f);
    assert Populations(snap, target)(f).Some?;
  }

  // ----- The verdict -----

  /** The verdict the engine and the persistence side draw from an answer; None is a gap. */
  function VerdictOn(rules: Rules, profile: Profile, answer: Answer): Option<Verdict> {
    if answer.Proof?
    then Evaluate(rules.encoding, answer.applicable, answer.tags, profile.policy.requiredTags) else None
  }

  /** The policy speaks about the target. */
  predicate Governed(target: Resource, profile: Profile) {
    target.resourceType != "aws_account" && target.resourceType in profile.policy.governedTypes
  }

  predicate HasRequiredTags(e: Encoding, tags: Tags, profile: Profile) {
    forall key :: key in profile.policy.requiredTags ==> !("aws:" <= key) && key in tags && !e.blank(tags[key])
  }

  lemma ProofFollows(
    snap: Snapshot, rules: Rules, contract: ExecutionContract, target: Resource, profile: Profile)
    returns (coverage: Coverage)
    requires GovernanceAnswer(snap, rules, contract, target, profile).Proof?
    ensures GovernanceAnswer(snap, rules, contract, target, profile)
            == AnswerFrom(snap, rules, contract, target, profile, coverage)
  {
    coverage := if NeedsCoverage(target, profile)
                then CoverageOf(snap, contract.families, profile.policy.governedTypes, target).value
                else Coverage(map[], map[]);
  }

  lemma {:induction false} FamilyIs(families: seq<Family>, target: Resource)
    ensures FamilyOf(families, target).Some? ==>
              FamilyOf(families, target).value == Family(target.service, target.resourceType)
  {
    if families != [] {
      FamilyIs(families[1..], target);
    }
  }

  /** A proof about a governed resource carries the resource's own tags, from a source it cites. */
  lemma ProofCarriesTags(
    snap: Snapshot, rules: Rules, contract: ExecutionContract, target: Resource, profile: Profile)
    returns (record: Record)
    requires GovernanceAnswer(snap, rules, contract, target, profile).Proof? && Governed(target, profile)
    ensures RecordAt(snap, snap.resources, TargetId(snap, target)) == Some(record)
    ensures var answer := GovernanceAnswer(snap, rules, contract, target, profile);
            && answer.applicable && EncodeTags(rules.encoding, record.tags) == Some(answer.tags)
            && TagsCited(snap, target.service, target.resourceType, record, answer.sources)
  {
    var coverage := ProofFollows(snap, rules, contract, target, profile);
    record := RecordAt(snap, snap.resources, TargetId(snap, target)).value;
    FamilyIs(contract.families, target);
    ChainCarriesTags(snap, rules.encoding, target.service, target.resourceType, record);
    var facts := ResourceTags(snap, rules.encoding, target.service, target.resourceType, record).value;
    CitedInSum(snap, target.service, target.resourceType, record, coverage.citations, facts.citations);
  }

  lemma CitedInSum(
    snap: Snapshot, service: string, kind: string, record: Record,
    others: map<Uuid, Citation>, citations: map<Uuid, Citation>)
    requires TagsCited(snap, service, kind, record, citations)
    ensures TagsCited(snap, service, kind, record, others + citations)
  {
    var found: Resolved, list: Json :|
      && Lists(snap, service, kind, record, found, list) && ReadTags(list) == Some(record.tags)
      && found.citation.outcomeId in citations && citations[found.citation.outcomeId] == found.citation;
  }

  /**
   The required-tag control from end to end: a governed resource with a proof passes exactly when
   its retained tags carry a usable value for every required key, and fails otherwise; any other
   target with a proof is not applicable.
   */
  lemma VerdictOfAnswer(
    snap: Snapshot, rules: Rules, contract: ExecutionContract, target: Resource, profile: Profile)
    requires Lossless(rules.encoding) && GovernanceAnswer(snap, rules, contract, target, profile).Proof?
    ensures var record := RecordAt(snap, snap.resources, TargetId(snap, target));
            VerdictOn(rules, profile, GovernanceAnswer(snap, rules, contract, target, profile))
            == if !Governed(target, profile) then Some(NOT_APPLICABLE)
               else if record.Some? && HasRequiredTags(rules.encoding, record.value.tags, profile) then Some(PASS)
               else Some(FAIL)
  {
    if Governed(target, profile) {
      var record := ProofCarriesTags(snap, rules, contract, target, profile);
      VerdictIsOnTheTags(rules.encoding, record.tags, profile.policy.requiredTags);
    } else {
      var coverage := ProofFollows(snap, rules, contract, target, profile);
    }
  }
}
