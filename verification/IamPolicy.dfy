/** The IAM policy population of a snapshot: who uses which policy, proved from same-scan evidence. */
module IamPolicy {
  import opened Wrappers
  import opened Ordering
  import opened Identities
  import opened JsonValues
  import opened Evidence
  import opened GraphAcceptance
  import opened Sources

  const MANAGED_TYPES: set<string> := {"iam_customer_managed_policy", "iam_aws_managed_policy"}
  const INLINE_TYPE := "iam_inline_policy"
  const VERSION_TYPE := "iam_managed_policy_version"
  const GROUP_TYPE := "iam_group"

  /** What identifies an inline policy; its resource identifier is the canonical JSON of this. */
  datatype InlineKey = InlineKey(account: string, ownerId: string, ownerType: string, policyName: string)

  /** Canonical JSON renderings and digests, and the bounded policy syntax. */
  datatype PolicyRules = PolicyRules(
    inlineId: InlineKey -> string,
    versionId: (string, string) -> string,
    digest: Json -> string,
    syntaxOk: Json -> bool)

  datatype Context = Context(owner: Uuid, usage: string)

  /** One proved source or edge family: what it cites, and the resources it leads to. */
  datatype Part = Part(citations: map<Uuid, Citation>, edges: set<Uuid>, policies: seq<Record>)

  // ----- Sources -----

  function TargetSource(collector: string, kind: string, api: string): RequiredSource {
    RequiredSource("iam." + collector, "iam." + kind, "iam:" + api, TARGET, "1.0.0", {"complete"}, false, false)
  }

  function AdmittedSource(collector: string, kind: string, api: string): RequiredSource {
    RequiredSource("iam." + collector, "iam." + kind, "iam:" + api, TARGET, "1.0.0", {}, true, false)
  }

  function DiscoverySource(collector: string, kind: string, api: string): RequiredSource {
    RequiredSource("iam." + collector, "iam." + kind, "iam:" + api, GLOBAL_ACCOUNT, "1.0.0", {"complete"}, false, false)
  }

  /** A resolved source whose payload names its own subject. */
  function SourceAbout(snap: Snapshot, required: RequiredSource, target: Resource): Option<Resolved> {
    var found := Resolve(snap, required, target);
    if found.None? then None
    else
      var payload := found.value.artifact.payload;
      if required.subject == TARGET then
        if && Get(payload, "resource_id") == Text(target.resourceId)
           && Get(payload, "resource_type") == Text(target.resourceType)
           && Get(payload, "account_id") == Text(target.account) then found else None
      else if Get(payload, "account_id") == Text(snap.graph.account) then found else None
  }

  function Cited(found: Resolved): map<Uuid, Citation> {
    map[found.citation.outcomeId := found.citation]
  }

  /** An enumeration: distinct non-empty identifiers, as many as it says. */
  function Enumerated(payload: Json, field: string, count: string): Option<set<string>> {
    var values := Get(payload, field);
    if && values.List? && (forall v :: v in values.items ==> v.Text? && v.text != "")
       && (forall i, j :: 0 <= i < j < |values.items| ==> values.items[i] != values.items[j])
       && Get(payload, count) == Number(|values.items|)
    then Some(set v | v in values.items && v.Text? :: v.text) else None
  }

  // ----- Edges -----

  function TargetName(r: Relationship): string {
    match r.edge.target
    case Stable(t) => t.resourceId
    case Unresolved(t) => t.resourceId
  }

  function Leaving(
    snap: Snapshot, relationships: seq<Relationship>, owner: Uuid, kind: RelationshipType): seq<Relationship>
  {
    if relationships == [] then []
    else
      var last := relationships[|relationships| - 1];
      Leaving(snap, relationships[..|relationships| - 1], owner, kind)
      + if TargetId(snap, last.edge.source) == owner && last.edge.kind == kind then [last] else []
  }

  function Entering(snap: Snapshot, relationships: seq<Relationship>, group: Uuid): seq<Relationship> {
    if relationships == [] then []
    else
      var last := relationships[|relationships| - 1];
      Entering(snap, relationships[..|relationships| - 1], group)
      + if last.edge.kind == "member_of_group" && last.resolution == RESOLVED && last.edge.target.Stable?
           && TargetId(snap, last.edge.target.resource) == group then [last] else []
  }

  /** The edge rests on this outcome alone. */
  predicate RestsOn(snap: Snapshot, r: Relationship, outcomeId: Uuid) {
    var found := Scan(snap.graph.outcomes, r.provenance);
    |found| == 1 && found[0].outcomeId == outcomeId
  }

  /** The retained resource at the end of a resolved edge that rests on the outcome. */
  function Endpoint(snap: Snapshot, r: Relationship, outcomeId: Uuid): Option<Record> {
    if r.resolution != RESOLVED || r.edge.target.Unresolved? || !RestsOn(snap, r, outcomeId) then None
    else RecordAt(snap, snap.resources, TargetId(snap, r.edge.target.resource))
  }

  function Endpoints(snap: Snapshot, edges: seq<Relationship>, outcomeId: Uuid): Option<seq<Record>> {
    if edges == [] then Some([])
    else
      var before := Endpoints(snap, edges[..|edges| - 1], outcomeId);
      var last := Endpoint(snap, edges[|edges| - 1], outcomeId);
      if before.None? || last.None? then None else Some(before.value + [last.value])
  }

  function NamesOf(edges: seq<Relationship>): set<string> {
    set r | r in edges :: TargetName(r)
  }

  function EdgeIds(snap: Snapshot, edges: seq<Relationship>): set<Uuid> {
    set r | r in edges :: ObservationId(snap.h, r.edge)
  }

  /** The owner's edges of one kind lead to exactly the expected identifiers, one edge each. */
  function Linked(
    snap: Snapshot, owner: Resource, kind: RelationshipType, expected: set<string>, found: Resolved): Option<Part>
  {
    var edges := Leaving(snap, snap.graph.relationships, TargetId(snap, owner), kind);
    if |edges| != |expected| || NamesOf(edges) != expected then None
    else
      var endpoints := Endpoints(snap, edges, found.outcome.outcomeId);
      if endpoints.None? then None
      else Some(Part(Cited(found), EdgeIds(snap, edges), endpoints.value))
  }

  // ----- One owner -----

  function Singular(ownerType: string): string {
    if ownerType == "iam_user" then "user" else if ownerType == GROUP_TYPE then "group" else "role"
  }

  function Suffix(ownerType: string): string {
    if ownerType == "iam_user" then "User" else if ownerType == GROUP_TYPE then "Group" else "Role"
  }

  function Collector(ownerType: string): string {
    Singular(ownerType) + "s"
  }

  function IdentitySource(kind: string): RequiredSource {
    AdmittedSource(Collector(kind), Singular(kind), "List" + Suffix(kind) + "s")
  }

  function AttachmentSource(kind: string): RequiredSource {
    TargetSource(Collector(kind), Singular(kind) + ".attached-managed-policies",
                 "ListAttached" + Suffix(kind) + "Policies")
  }

  function ProfileSource(kind: string): RequiredSource {
    TargetSource(Collector(kind), Singular(kind) + ".profile", "Get" + Suffix(kind))
  }

  function InlineSource(kind: string): RequiredSource {
    TargetSource(Collector(kind), Singular(kind) + ".inline-policies", "List" + Suffix(kind) + "Policies")
  }

  function Identity(snap: Snapshot, owner: Resource): Option<Part> {
    var found := SourceAbout(snap, IdentitySource(owner.resourceType), owner);
    if found.None? then None else Some(Part(Cited(found.value), {}, []))
  }

  /** Group members, edge for edge. */
  function Members(snap: Snapshot, owner: Resource): Option<Part> {
    var found := SourceAbout(snap, TargetSource("groups", "group.members", "GetGroup"), owner);
    if found.None? then None
    else
      var ids := Enumerated(found.value.artifact.payload, "member_user_ids", "member_count");
      var edges := Entering(snap, snap.graph.relationships, TargetId(snap, owner));
      if || ids.None? || |edges| != |ids.value| || (set r | r in edges :: r.edge.source.resourceId) != ids.value
         || exists r :: r in edges && !RestsOn(snap, r, found.value.outcome.outcomeId) then None
      else Some(Part(Cited(found.value), EdgeIds(snap, edges), []))
  }

  function Attached(snap: Snapshot, owner: Resource): Option<Part> {
    var found := SourceAbout(snap, AttachmentSource(owner.resourceType), owner);
    if found.None? then None
    else
      var arns := Enumerated(found.value.artifact.payload, "policy_arns", "policy_count");
      if arns.None? then None else Linked(snap, owner, "attached_managed_policy", arns.value, found.value)
  }

  function Boundary(snap: Snapshot, owner: Record): Option<Part> {
    var kind := owner.resource.resourceType;
    var found := SourceAbout(snap, ProfileSource(kind), owner.resource);
    if found.None? then None
    else
      var payload := found.value.artifact.payload;
      var boundary := Get(payload, "permissions_boundary_arn");
      if && payload.Object? && "permissions_boundary_arn" in payload.fields
         && (boundary.Null? || (boundary.Text? && boundary.text != ""))
         && Get(owner.configuration, "permissions_boundary_arn") == boundary
      then Linked(snap, owner.resource, "permissions_boundary",
                  if boundary.Text? then {boundary.text} else {}, found.value)
      else None
  }

  function InlineNames(snap: Snapshot, owner: Resource): Option<(Resolved, set<string>)> {
    var found := SourceAbout(snap, InlineSource(owner.resourceType), owner);
    if found.None? then None
    else
      var names := Enumerated(found.value.artifact.payload, "policy_names", "policy_count");
      if names.None? then None else Some((found.value, names.value))
  }

  function InlineIds(rules: PolicyRules, owner: Resource, names: set<string>): set<string> {
    set n | n in names :: rules.inlineId(InlineKey(owner.account, owner.resourceId, owner.resourceType, n))
  }

  predicate IsInlineOf(owner: Record, names: set<string>, policy: Record) {
    && policy.resource.resourceType == INLINE_TYPE && policy.resource.account == owner.resource.account
    && Get(policy.configuration, "owner_resource_type") == Text(owner.resource.resourceType)
    && Get(policy.configuration, "owner_resource_id") == Text(owner.resource.resourceId)
    && Get(policy.configuration, "owner_name") == (if owner.name.Some? then Text(owner.name.value) else Null)
    && Get(policy.configuration, "policy_name").Text? && Get(policy.configuration, "policy_name").text in names
  }

  function Inline(snap: Snapshot, rules: PolicyRules, owner: Record): Option<Part> {
    var listed := InlineNames(snap, owner.resource);
    if listed.None? then None
    else
      var part := Linked(snap, owner.resource, "attached_inline_policy",
                         InlineIds(rules, owner.resource, listed.value.1), listed.value.0);
      if part.None? || exists p :: p in part.value.policies && !IsInlineOf(owner, listed.value.1, p) then None else part
  }

  datatype OwnerFacts = OwnerFacts(
    citations: map<Uuid, Citation>, edges: set<Uuid>, attached: seq<Record>, bounding: seq<Record>, inline: seq<Record>)

  predicate AllManaged(policies: seq<Record>) {
    forall p :: p in policies ==> p.resource.resourceType in MANAGED_TYPES
  }

  /** Everything one owner contributes, or a gap. */
  function FactsOf(snap: Snapshot, rules: PolicyRules, owner: Record): Option<OwnerFacts> {
    var isGroup := owner.resource.resourceType == GROUP_TYPE;
    var identity, attached, inline := Identity(snap, owner.resource), Attached(snap, owner.resource),
        Inline(snap, rules, owner);
    var extra := if isGroup then Members(snap, owner.resource) else Boundary(snap, owner);
    if || owner.resource.account != snap.graph.account || owner.resource.scope != GLOBAL
       || identity.None? || attached.None? || inline.None? || extra.None?
       || !AllManaged(attached.value.policies) || !AllManaged(extra.value.policies) then None
    else Some(OwnerFacts(
      identity.value.citations + extra.value.citations + attached.value.citations + inline.value.citations,
      extra.value.edges + attached.value.edges + inline.value.edges,
      attached.value.policies, extra.value.policies, inline.value.policies))
  }

  function Naming(snap: Snapshot, owner: Record, policies: seq<Record>, usage: string, id: Uuid): seq<Context> {
    if policies == [] then []
    else
      Naming(snap, owner, policies[..|policies| - 1], usage, id)
      + if TargetId(snap, policies[|policies| - 1].resource) == id
        then [Context(TargetId(snap, owner.resource), usage)] else []
  }

  /** The usage contexts one owner adds to a policy. */
  function UsedBy(snap: Snapshot, owner: Record, facts: OwnerFacts, id: Uuid): seq<Context> {
    Naming(snap, owner, facts.attached, "attachment", id)
    + Naming(snap, owner, facts.bounding, "permissions_boundary", id)
    + Naming(snap, owner, facts.inline, "inline", id)
  }

  // ----- The whole population -----

  function OfType(resources: seq<Record>, kind: string): seq<Record> {
    if resources == [] then []
    else
      var last := resources[|resources| - 1];
      OfType(resources[..|resources| - 1], kind)
      + if last.resource.service == "iam" && last.resource.resourceType == kind then [last] else []
  }

  function ResourceIds(records: seq<Record>): set<string> {
    set r | r in records :: r.resource.resourceId
  }

  function Owners(snap: Snapshot): seq<Record> {
    OfType(snap.resources, "iam_user") + OfType(snap.resources, GROUP_TYPE) + OfType(snap.resources, "iam_role")
  }

  function Managed(snap: Snapshot): seq<Record> {
    OfType(snap.resources, "iam_customer_managed_policy") + OfType(snap.resources, "iam_aws_managed_policy")
  }

  /** One account-wide listing names exactly the retained resources of its type. */
  function ListingOf(snap: Snapshot, required: RequiredSource, kind: string): Option<(Resolved, set<string>)> {
    var found := SourceAbout(
      snap, required, Resource(snap.graph.account, "iam", "aws_account", GLOBAL, None, snap.graph.account));
    if found.None? then None
    else
      var ids := Enumerated(found.value.artifact.payload, "resource_ids", "resource_count");
      if ids.None? || ids.value != ResourceIds(OfType(snap.resources, kind)) then None
      else Some((found.value, ids.value))
  }

  function Listings(): seq<(RequiredSource, string)> {
    [(DiscoverySource("users", "users.discovery", "ListUsers"), "iam_user"),
     (DiscoverySource("groups", "groups.discovery", "ListGroups"), GROUP_TYPE),
     (DiscoverySource("roles", "roles.discovery", "ListRoles"), "iam_role"),
     (DiscoverySource("policies", "customer-managed-policies.discovery", "ListPolicies"),
      "iam_customer_managed_policy")]
  }

  function ListedCitations(snap: Snapshot, listings: seq<(RequiredSource, string)>): Option<map<Uuid, Citation>> {
    if listings == [] then Some(map[])
    else
      var last := listings[|listings| - 1];
      var before := ListedCitations(snap, listings[..|listings| - 1]);
      var listing := ListingOf(snap, last.0, last.1);
      if before.None? || listing.None? then None else Some(before.value + Cited(listing.value.0))
  }

  predicate PolicyArn(snap: Snapshot, policy: Record) {
    var r := policy.resource;
    var parts := Split(r.resourceId, ':', 5);
    && |parts| == 6 && parts[0] == "arn" && parts[2] == "iam" && parts[3] == "" && parts[4] == r.account
    && "policy/" <= parts[5] && r.scope == GLOBAL
    && r.account == if r.resourceType == "iam_aws_managed_policy" then "aws" else snap.graph.account
  }

  /** What the owners say, taken together. */
  datatype Usage = Usage(
    citations: map<Uuid, Citation>,
    edges: set<Uuid>,
    managed: set<string>,
    inline: set<string>)

  type OwnerProof = Record -> Option<OwnerFacts>

  function Facts(snap: Snapshot, rules: PolicyRules): OwnerProof {
    (owner: Record) => FactsOf(snap, rules, owner)
  }

  /** Accumulate owner by owner; None as soon as one owner has a gap. */
  function UsageOf(facts: OwnerProof, owners: seq<Record>): Option<Usage> {
    if owners == [] then Some(Usage(map[], {}, {}, {}))
    else
      var before := UsageOf(facts, owners[..|owners| - 1]);
      var last := facts(owners[|owners| - 1]);
      if before.None? || last.None? then None else Some(AddFacts(before.value, last.value))
  }

  function AddFacts(usage: Usage, facts: OwnerFacts): Usage {
    Usage(usage.citations + facts.citations, usage.edges + facts.edges,
          usage.managed + ResourceIds(facts.attached) + ResourceIds(facts.bounding),
          usage.inline + ResourceIds(facts.inline))
  }

  /** The usage contexts of one policy, owner by owner. */
  function ContextsOf(snap: Snapshot, facts: OwnerProof, owners: seq<Record>, id: Uuid): seq<Context> {
    if owners == [] then []
    else
      var last := owners[|owners| - 1];
      ContextsOf(snap, facts, owners[..|owners| - 1], id)
      + if facts(last).None? then [] else UsedBy(snap, last, facts(last).value, id)
  }

  /** The population closes: every policy is listed or used, and nothing used is missing. */
  predicate PopulationClosed(snap: Snapshot, usage: Usage) {
    && ResourceIds(OfType(snap.resources, "iam_customer_managed_policy")) + usage.managed == ResourceIds(Managed(snap))
    && usage.inline == ResourceIds(OfType(snap.resources, INLINE_TYPE))
    && (forall p :: p in Managed(snap) ==> PolicyArn(snap, p))
  }

  datatype Coverage = Coverage(citations: map<Uuid, Citation>, edges: set<Uuid>)

  /** The proof of the whole finite population, or a gap. */
  function CoverageOf(snap: Snapshot, rules: PolicyRules): Option<Coverage> {
    var listed := ListedCitations(snap, Listings());
    var usage := UsageOf(Facts(snap, rules), Owners(snap));
    if listed.None? || usage.None? || !PopulationClosed(snap, usage.value) then None
    else Some(Coverage(listed.value + usage.value.citations, usage.value.edges))
  }

  // ----- One target's proof -----

  datatype TargetFacts = TargetFacts(
    citations: map<Uuid, Citation>, edges: set<Uuid>, contexts: seq<Context>, document: Json, sha: Json)

  datatype PolicyFact = PolicyFact(digest: string, contexts: multiset<Context>)

  datatype PolicyProof = PolicyProof(citations: map<Uuid, Citation>, edges: set<Uuid>, fact: Option<PolicyFact>)

  function Named(records: seq<Record>, resourceId: string): seq<Record> {
    if records == [] then []
    else
      var last := records[|records| - 1];
      Named(records[..|records| - 1], resourceId) + if last.resource.resourceId == resourceId then [last] else []
  }

  predicate MetadataAgrees(rules: PolicyRules, target: Record, parent: Record, metadata: Json) {
    var arn, version := Get(target.configuration, "policy_arn"), Get(target.configuration, "version_id");
    && arn.Text? && version.Text?
    && Get(metadata, "metadata_complete") == Bool(true) && Get(parent.configuration, "metadata_complete") == Bool(true)
    && Get(metadata, "policy_arn") == arn
    && Get(metadata, "default_version_id") == version && Get(parent.configuration, "default_version_id") == version
    && Get(target.configuration, "is_default_version") == Bool(true)
    && target.resource.account == parent.resource.account
    && target.resource.resourceId == rules.versionId(arn.text, version.text)
  }

  /** A managed policy's default version, through the one policy that selects it. */
  function VersionFacts(
    snap: Snapshot, rules: PolicyRules, usages: Uuid -> seq<Context>, target: Record): Option<TargetFacts>
  {
    var arn, version := Get(target.configuration, "policy_arn"), Get(target.configuration, "version_id");
    if !arn.Text? || !version.Text? || version.text == "" || |Named(Managed(snap), arn.text)| != 1 then None
    else
      var parent := Named(Managed(snap), arn.text)[0];
      var metadata := SourceAbout(
        snap, TargetSource("policies", "managed-policy.metadata", "GetPolicy"), parent.resource);
      var document := SourceAbout(
        snap, TargetSource("policies", "managed-policy-version.document", "GetPolicyVersion"), target.resource);
      if || metadata.None? || document.None?
         || !MetadataAgrees(rules, target, parent, metadata.value.artifact.payload) then None
      else
        var part := Linked(snap, parent.resource, "selects_default_version", {target.resource.resourceId},
            metadata.value);
        var payload := document.value.artifact.payload;
        if part.None? || Get(payload, "policy_arn") != arn || Get(payload, "version_id") != version then None
        else Some(TargetFacts(Cited(metadata.value) + Cited(document.value), part.value.edges,
                              usages(TargetId(snap, parent.resource)), Get(payload, "document"),
                              Get(payload, "document_sha256")))
  }

  /** An inline policy, in its one usage context. */
  function InlineFacts(snap: Snapshot, usages: Uuid -> seq<Context>, target: Record): Option<TargetFacts> {
    var contexts := usages(TargetId(snap, target.resource));
    var ownerType := Get(target.configuration, "owner_resource_type");
    if |contexts| != 1 || !IsOneOf(ownerType, {"iam_user", GROUP_TYPE, "iam_role"}) then None
    else
      var document := SourceAbout(snap, TargetSource(Collector(ownerType.text), "inline-policy.document",
                                                     "Get" + Suffix(ownerType.text) + "Policy"), target.resource);
      if || document.None?
         || Get(document.value.artifact.payload, "policy_name") != Get(target.configuration, "policy_name") then None
      else
        var payload := document.value.artifact.payload;
        Some(TargetFacts(Cited(document.value), {}, contexts, Get(payload, "document"),
            Get(payload, "document_sha256")))
  }

  /** The document is well formed and is the one the resource observation retained. */
  predicate DocumentBound(rules: PolicyRules, target: Record, facts: TargetFacts) {
    && rules.syntaxOk(facts.document)
    && Get(target.configuration, "document_complete") == Bool(true)
    && facts.sha == Text(rules.digest(facts.document))
    && Get(target.configuration, "document_sha256") == Text(rules.digest(facts.document))
    && Get(target.configuration, "document") == facts.document
  }

  predicate NoPolicies(snap: Snapshot) {
    Managed(snap) == [] && OfType(snap.resources, VERSION_TYPE) == [] && OfType(snap.resources, INLINE_TYPE) == []
  }

  /** What the retained resource of a target proves, given the population's usage contexts. */
  function DocumentFacts(
    snap: Snapshot, rules: PolicyRules, usages: Uuid -> seq<Context>, record: Record): Option<TargetFacts>
  {
    if record.resource.resourceType == VERSION_TYPE then VersionFacts(snap, rules, usages, record)
    else if record.resource.resourceType == INLINE_TYPE then InlineFacts(snap, usages, record)
    else None
  }

  /** What the target adds to a proved population. */
  function Addition(
    snap: Snapshot, rules: PolicyRules, usages: Uuid -> seq<Context>, target: Resource): Option<PolicyProof>
  {
    if target.resourceType == "aws_account" then
      if NoPolicies(snap) then Some(PolicyProof(map[], {}, None)) else None
    else
      var record := RecordAt(snap, snap.resources, TargetId(snap, target));
      if record.None? || record.value.resource.scope != GLOBAL then None
      else
        var facts := DocumentFacts(snap, rules, usages, record.value);
        if facts.None? || !DocumentBound(rules, record.value, facts.value) then None
        else Some(PolicyProof(
          facts.value.citations, facts.value.edges,
          Some(PolicyFact(rules.digest(facts.value.document), multiset(facts.value.contexts)))))
  }

  function UsagesOf(snap: Snapshot, rules: PolicyRules): Uuid -> seq<Context> {
    (id: Uuid) => ContextsOf(snap, Facts(snap, rules), Owners(snap), id)
  }

  /** The population's citations and edges, and the target's on top. */
  function Combine(coverage: Coverage, added: Option<PolicyProof>): Option<PolicyProof> {
    if added.None? then None
    else Some(PolicyProof(coverage.citations + added.value.citations, coverage.edges + added.value.edges,
        added.value.fact))
  }

  /** The answer with no cache at all. */
  function PolicyAnswer(snap: Snapshot, rules: PolicyRules, target: Resource): Option<PolicyProof> {
    var coverage := CoverageOf(snap, rules);
    if coverage.None? then None else Combine(coverage.value, Addition(snap, rules, UsagesOf(snap, rules), target))
  }
}
