/**
 Deterministic identifiers: UUIDv5 of components joined by the unit separator. A name-based UUID,
 a JSON rendering and a UUID's text are taken to be injective; what is proved is that the joined
 seeds are unambiguous.
 */
module Identities {
  import opened Wrappers

  type Uuid = nat

  const SEPARATOR: char := '\U{1F}'

  predicate Plain(s: string) {
    SEPARATOR !in s
  }

  function Join(parts: seq<string>): string {
    if parts == [] then ""
    else if |parts| == 1 then parts[0]
    else parts[0] + [SEPARATOR] + Join(parts[1..])
  }

  lemma {:induction false} FirstPart(a: string, s: string, b: string, t: string)
    requires Plain(a) && Plain(b) && a + [SEPARATOR] + s == b + [SEPARATOR] + t
    ensures a == b && s == t
  {
    var u := a + [SEPARATOR] + s;
    assert u[0] == if a == [] then SEPARATOR else a[0];
    assert u[0] == if b == [] then SEPARATOR else b[0];
    if a == [] {
      assert u[1..] == s == t;
    } else {
      assert a[1..] + [SEPARATOR] + s == u[1..] == b[1..] + [SEPARATOR] + t;
      FirstPart(a[1..], s, b[1..], t);
      assert a == [a[0]] + a[1..] && b == [b[0]] + b[1..];
    }
  }

  lemma JoinPlain(p: seq<string>)
    requires p != [] && forall s :: s in p ==> Plain(s)
    ensures Plain(Join(p)) <==> |p| == 1
  {
    if |p| > 1 {
      assert Join(p)[|p[0]|] == SEPARATOR;
    }
  }

  /** Joining separator-free components loses nothing, not even how many there were. */
  lemma {:induction false} JoinInjective(p: seq<string>, q: seq<string>)
    requires p != [] && q != [] && Join(p) == Join(q)
    requires forall s :: s in p || s in q ==> Plain(s)
    ensures p == q
  {
    JoinPlain(p);
    JoinPlain(q);
    if |p| == 1 {
      assert p == [p[0]] && q == [q[0]];
    } else {
      FirstPart(p[0], Join(p[1..]), q[0], Join(q[1..]));
      JoinInjective(p[1..], q[1..]);
      assert p == [p[0]] + p[1..] && q == [q[0]] + q[1..];
    }
  }

  // ----- Resources -----

  datatype ResourceScope = GLOBAL | REGIONAL

  function ScopeText(s: ResourceScope): string {
    if s == GLOBAL then "global" else "regional"
  }

  datatype Resource = Resource(
    account: string,
    service: string,
    resourceType: string,
    scope: ResourceScope,
    region: Option<string>,
    resourceId: string)

  predicate IsAccount(s: string) {
    |s| == 12 && forall i :: 0 <= i < |s| ==> '0' <= s[i] <= '9'
  }

  /** Component validators: the owner pattern and the ban on separators. */
  predicate PlainResource(r: Resource) {
    && (r.account == "aws" || IsAccount(r.account))
    && Plain(r.service) && Plain(r.resourceType) && Plain(r.resourceId)
    && (r.region.Some? ==> Plain(r.region.value))
  }

  predicate ValidResource(r: Resource) {
    && PlainResource(r)
    && (r.scope == REGIONAL ==> r.region.Some? && r.region.value != "")
    && (r.scope == GLOBAL ==> r.region.None?)
  }

  const REGIONAL_TYPES: set<(string, string)> := {
    ("access-analyzer", "access_analyzer_finding"), ("cloudtrail", "cloudtrail_trail"), ("ec2", "ebs_volume"),
    ("ec2", "ec2_instance"), ("ec2", "security_group"), ("ec2", "subnet"), ("ec2", "vpc"), ("ec2", "vpc_flow_log"),
    ("kms", "kms_key"), ("s3", "s3_bucket")
  }

  const GLOBAL_TYPES: set<(string, string)> := {
    ("iam", "iam_access_key"), ("iam", "iam_aws_managed_policy"), ("iam", "iam_customer_managed_policy"),
    ("iam", "iam_group"), ("iam", "iam_inline_policy"), ("iam", "iam_managed_policy_version"),
    ("iam", "iam_mfa_device"), ("iam", "iam_role"), ("iam", "iam_user")
  }

  /** The scope each known resource type must have. */
  predicate ScopeCanonical(r: Resource) {
    && ((r.service, r.resourceType) in REGIONAL_TYPES ==> r.scope == REGIONAL)
    && ((r.service, r.resourceType) in GLOBAL_TYPES ==> r.scope == GLOBAL)
  }

  /** `region or "global"`: both no Region and an empty one read as "global". */
  function RegionText(region: Option<string>): string {
    if region.None? || region.value == "" then "global" else region.value
  }

  function ResourceSeed(r: Resource): string {
    Join(["aws", r.account, r.service, r.resourceType, ScopeText(r.scope), RegionText(r.region), r.resourceId])
  }

  function SnapshotSeed(scan: string, r: Resource): string {
    Join([scan, r.account, r.service, r.resourceType, ScopeText(r.scope), RegionText(r.region), r.resourceId])
  }

  lemma AccountPlain(s: string)
    requires s == "aws" || IsAccount(s)
    ensures Plain(s)
  {
    forall i | 0 <= i < |s| ensures s[i] != SEPARATOR {
      assert IsAccount(s) ==> '0' <= s[i];
    }
  }

  lemma ScopesDiffer()
    ensures ScopeText(GLOBAL) != ScopeText(REGIONAL)
    ensures Plain("global") && Plain("regional") && Plain("aws")
  {
    assert "global"[0] == 'g' && "regional"[0] == 'r';
  }

  lemma SeedsPlain(r: Resource)
    requires PlainResource(r)
    ensures Plain(r.account) && Plain(ScopeText(r.scope)) && Plain(RegionText(r.region))
  {
    AccountPlain(r.account);
    ScopesDiffer();
  }

  /** Two seeds agree exactly when the resources do, up to the defaulted Region. */
  lemma SnapshotSeedsAgree(s: string, a: Resource, t: string, b: Resource)
    requires Plain(s) && Plain(t) && PlainResource(a) && PlainResource(b)
    ensures SnapshotSeed(s, a) == SnapshotSeed(t, b) <==>
              s == t && a.(region := None) == b.(region := None) && RegionText(a.region) == RegionText(b.region)
  {
    SeedsPlain(a);
    SeedsPlain(b);
    ScopesDiffer();
    var p := [s, a.account, a.service, a.resourceType, ScopeText(a.scope), RegionText(a.region), a.resourceId];
    var q := [t, b.account, b.service, b.resourceType, ScopeText(b.scope), RegionText(b.region), b.resourceId];
    if Join(p) == Join(q) {
      JoinInjective(p, q);
      assert p[0] == q[0] && p[1] == q[1] && p[2] == q[2] && p[3] == q[3];
      assert p[4] == q[4] && p[5] == q[5] && p[6] == q[6];
    }
  }

  /** Validation repairs the default: the scope says whether there is a Region to default. */
  lemma SnapshotSeedInjective(s: string, a: Resource, t: string, b: Resource)
    requires Plain(s) && Plain(t) && ValidResource(a) && ValidResource(b)
    ensures SnapshotSeed(s, a) == SnapshotSeed(t, b) <==> s == t && a == b
  {
    SnapshotSeedsAgree(s, a, t, b);
  }

  lemma ResourceSeedInjective(a: Resource, b: Resource)
    requires ValidResource(a) && ValidResource(b)
    ensures ResourceSeed(a) == ResourceSeed(b) <==> a == b
  {
    ScopesDiffer();
    SnapshotSeedInjective("aws", a, "aws", b);
  }

  /** Without the scope rule the default is ambiguous: these two differ and share every seed. */
  lemma RegionDefaultCollides(scan: string)
    ensures var a := Resource("aws", "iam", "iam_user", REGIONAL, Some(""), "x");
            var b := Resource("aws", "iam", "iam_user", REGIONAL, Some("global"), "x");
            && PlainResource(a) && PlainResource(b) && !ValidResource(a) && ValidResource(b)
            && a != b && ResourceSeed(a) == ResourceSeed(b) && SnapshotSeed(scan, a) == SnapshotSeed(scan, b)
  {
  }

  // ----- Hashing -----

  /** What AWS returned about a target whose stable identity is not yet known. */
  datatype PartialTarget = PartialTarget(
    account: Option<string>,
    service: string,
    resourceType: string,
    resourceId: string,
    scope: Option<ResourceScope>,
    region: Option<string>)

  /** The name-based hashes, one for each namespace, and the text of a UUID. */
  datatype Hashes = Hashes(
    text: Uuid -> string,
    resource: string -> Uuid,
    snapshot: string -> Uuid,
    reference: PartialTarget -> Uuid,
    relationship: string -> Uuid,
    observation: string -> Uuid)

  ghost predicate Injective<S(!new), T>(f: S -> T) {
    forall x, y :: f(x) == f(y) ==> x == y
  }

  ghost predicate Collisionless(h: Hashes) {
    && Injective(h.text) && Injective(h.resource) && Injective(h.snapshot)
    && Injective(h.reference) && Injective(h.relationship) && Injective(h.observation)
    && (forall u :: Plain(h.text(u)))
  }

  function StableId(h: Hashes, r: Resource): Uuid {
    h.resource(ResourceSeed(r))
  }

  function SnapshotId(h: Hashes, scan: Uuid, r: Resource): Uuid {
    h.snapshot(SnapshotSeed(h.text(scan), r))
  }

  /** One scan's observation of a resource is identified by exactly the scan and the resource. */
  lemma SnapshotIdInjective(h: Hashes, scan: Uuid, a: Resource, other: Uuid, b: Resource)
    requires Collisionless(h) && ValidResource(a) && ValidResource(b)
    ensures SnapshotId(h, scan, a) == SnapshotId(h, other, b) <==> scan == other && a == b
  {
    SnapshotSeedInjective(h.text(scan), a, h.text(other), b);
  }

  // ----- Relationships -----

  /** The controlled vocabulary is an enumeration of strings. */
  type RelationshipType = string

  datatype Target = Stable(resource: Resource) | Unresolved(partial: PartialTarget)

  datatype Edge = Edge(scan: Uuid, source: Resource, kind: RelationshipType, target: Target)

  predicate ValidEdge(e: Edge) {
    && ValidResource(e.source) && Plain(e.kind)
    && (e.target.Stable? ==> ValidResource(e.target.resource))
  }

  function TargetText(h: Hashes, t: Target): string {
    match t
    case Stable(r) => "stable:" + h.text(StableId(h, r))
    case Unresolved(p) => "unresolved:" + h.text(h.reference(p))
  }

  function RelationshipSeed(h: Hashes, e: Edge): string {
    Join([h.text(StableId(h, e.source)), e.kind, TargetText(h, e.target)])
  }

  function ObservationId(h: Hashes, e: Edge): Uuid {
    h.observation(Join([h.text(e.scan), h.text(h.relationship(RelationshipSeed(h, e)))]))
  }

  lemma TargetsNotConfused(h: Hashes, a: Target, b: Target)
    requires Collisionless(h)
    requires a.Stable? ==> ValidResource(a.resource)
    requires b.Stable? ==> ValidResource(b.resource)
    ensures TargetText(h, a) == TargetText(h, b) <==> a == b
    ensures Plain(TargetText(h, a))
  {
    if TargetText(h, a) == TargetText(h, b) {
      assert TargetText(h, a)[0] == if a.Stable? then 's' else 'u';
      assert TargetText(h, b)[0] == if b.Stable? then 's' else 'u';
      var skip := if a.Stable? then 7 else 11;
      assert TargetText(h, a)[skip..] == h.text(if a.Stable? then StableId(h, a.resource) else h.reference(a.partial));
      assert TargetText(h, b)[skip..] == h.text(if b.Stable? then StableId(h, b.resource) else h.reference(b.partial));
      if a.Stable? {
        ResourceSeedInjective(a.resource, b.resource);
      }
    }
  }

  lemma RelationshipSeedInjective(h: Hashes, a: Edge, b: Edge)
    requires Collisionless(h) && ValidEdge(a) && ValidEdge(b)
    ensures RelationshipSeed(h, a) == RelationshipSeed(h, b) <==>
              a.source == b.source && a.kind == b.kind && a.target == b.target
  {
    TargetsNotConfused(h, a.target, b.target);
    TargetsNotConfused(h, b.target, a.target);
    ResourceSeedInjective(a.source, b.source);
    var p := [h.text(StableId(h, a.source)), a.kind, TargetText(h, a.target)];
    var q := [h.text(StableId(h, b.source)), b.kind, TargetText(h, b.target)];
    if Join(p) == Join(q) {
      JoinInjective(p, q);
      assert p[0] == q[0] && p[1] == q[1] && p[2] == q[2];
    }
  }

  /** One observation identifier, one directional edge of one scan. */
  lemma ObservationIdentifiesEdge(h: Hashes, a: Edge, b: Edge)
    requires Collisionless(h) && ValidEdge(a) && ValidEdge(b)
    ensures ObservationId(h, a) == ObservationId(h, b) <==> a == b
  {
    var p := [h.text(a.scan), h.text(h.relationship(RelationshipSeed(h, a)))];
    var q := [h.text(b.scan), h.text(h.relationship(RelationshipSeed(h, b)))];
    if Join(p) == Join(q) {
      JoinInjective(p, q);
      assert p[0] == q[0] && p[1] == q[1];
      RelationshipSeedInjective(h, a, b);
    }
  }
}
