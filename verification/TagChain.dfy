/**
 The tags of one governed resource: its own identity and tag sources, checked field by field
 against the retained observation, and written out as a proof carries them.
 */
module TagChain {
  import opened Wrappers
  import opened Ordering
  import opened Identities
  import opened JsonValues
  import opened Evidence
  import opened Sources
  import opened TagVerdict

  // ----- The sources of each governed type -----

  function IdentitySource(collector: string, kind: string, api: string): RequiredSource {
    RequiredSource(collector, kind, api, TARGET, "1.0.0", {}, true, false)
  }

  function TagSource(collector: string, kind: string, api: string, absence: bool): RequiredSource {
    RequiredSource(collector, kind, api, TARGET, "1.0.0", {"complete"}, false, absence)
  }

  function IdentityOf(resourceType: string): RequiredSource {
    match resourceType
    case "ec2_instance" => IdentitySource("ec2.instances", "ec2.instance", "ec2:DescribeInstances")
    case "ebs_volume" => IdentitySource("ec2.volumes", "ec2.volume", "ec2:DescribeVolumes")
    case "vpc" => IdentitySource("ec2.vpcs", "ec2.vpc", "ec2:DescribeVpcs")
    case "subnet" => IdentitySource("ec2.subnets", "ec2.subnet", "ec2:DescribeSubnets")
    case "security_group" =>
      IdentitySource("ec2.security-groups", "ec2.security-group", "ec2:DescribeSecurityGroups")
    case "vpc_flow_log" => IdentitySource("ec2.flow-logs", "ec2.vpc-flow-log", "ec2:DescribeFlowLogs")
    case "s3_bucket" => IdentitySource("s3.bucket-location", "s3.bucket-location", "s3:GetBucketLocation")
    case "iam_user" => IdentitySource("iam.users", "iam.user", "iam:ListUsers")
    case "iam_role" => IdentitySource("iam.roles", "iam.role", "iam:ListRoles")
    case "iam_customer_managed_policy" =>
      IdentitySource("iam.policies", "iam.customer-managed-policy", "iam:ListPolicies")
    case _ => IdentitySource("cloudtrail.trails", "cloudtrail.trail.identity", "cloudtrail:ListTrails")
  }

  /** EC2 observations embed their tags, so only the other services have a tag source of their own. */
  function TagSourceOf(resourceType: string): RequiredSource {
    match resourceType
    case "s3_bucket" => TagSource("s3.bucket-tags", "s3.bucket-tags", "s3:GetBucketTagging", true)
    case "iam_user" => TagSource("iam.users", "iam.user.tags", "iam:ListUserTags", false)
    case "iam_role" => TagSource("iam.roles", "iam.role.tags", "iam:ListRoleTags", false)
    case "iam_customer_managed_policy" =>
      TagSource("iam.policies", "iam.customer-managed-policy.tags", "iam:ListPolicyTags", false)
    case _ => TagSource("cloudtrail.trail-tags", "cloudtrail.trail.tags", "cloudtrail:ListTags", false)
  }

  /** A source as governance reads it: of its own schema, and collected about the resource. */
  function Enriched(snap: Snapshot, required: RequiredSource, r: Resource): Option<Resolved> {
    var found := Resolve(snap, required, r);
    if && found.Some? && found.value.artifact.schema == required.evidenceKind
       && found.value.artifact.schemaVersion == "1.0.0" && found.value.outcome.phase == ENRICHMENT
    then found else None
  }

  // ----- Tags as JSON -----

  function TextOrNull(s: Option<string>): Json {
    if s.Some? then Text(s.value) else Null
  }

  function TagItem(key: string, value: string): Json {
    Object(map["key" := Text(key), "value" := Text(value)])
  }

  /** The tags as an observation lists them, by ascending key. */
  function TagItems(tags: Tags, keys: seq<string>): seq<Json>
    requires forall k :: k in keys ==> k in tags
  {
    if keys == [] then [] else [TagItem(keys[0], tags[keys[0]])] + TagItems(tags, keys[1..])
  }

  function ListTags(tags: Tags): Json {
    KeysListed(tags);
    List(TagItems(tags, SortedText(tags.Keys)))
  }

  predicate IsTagItem(j: Json) {
    && j.Object? && j.fields.Keys == {"key", "value"}
    && j.fields["key"].Text? && j.fields["value"].Text?
  }

  function TextAt(j: Json, field: string): string {
    if Get(j, field).Text? then Get(j, field).text else ""
  }

  function KeysIn(items: seq<Json>): seq<string> {
    Map((j: Json) => TextAt(j, "key"), items)
  }

  function Gather(items: seq<Json>): Tags {
    if items == [] then map[]
    else
      var last := items[|items| - 1];
      Gather(items[..|items| - 1])[TextAt(last, "key") := TextAt(last, "value")]
  }

  /** A list of exact key and value pairs, by strictly ascending key. */
  function ReadTags(j: Json): Option<Tags> {
    if && j.List? && (forall item :: item in j.items ==> IsTagItem(item))
       && KeysIn(j.items) == SortedText(set k | k in KeysIn(j.items))
    then Some(Gather(j.items)) else None
  }

  // ----- The field checks of each service -----

  predicate Ec2Identity(record: Record, payload: Json) {
    payload == Object(map[
      "account_id" := Text(record.resource.account), "region" := TextOrNull(record.resource.region),
      "resource_type" := Text(record.resource.resourceType), "resource_id" := Text(record.resource.resourceId),
      "arn" := TextOrNull(record.arn), "tags" := ListTags(record.tags), "configuration" := record.configuration])
  }

  predicate IamSubject(record: Record, payload: Json) {
    && Get(payload, "account_id") == Text(record.resource.account)
    && Get(payload, "resource_type") == Text(record.resource.resourceType)
    && Get(payload, "resource_id") == Text(record.resource.resourceId)
  }

  predicate BucketSubject(record: Record, payload: Json) {
    && Get(payload, "account_id") == Text(record.resource.account)
    && Get(payload, "bucket_name") == Text(record.resource.resourceId)
    && Get(payload, "bucket_arn") == TextOrNull(record.arn)
    && Get(payload, "bucket_region") == TextOrNull(record.resource.region)
  }

  /** The identifier is the ARN of a trail of this owner, Region and name. */
  predicate TrailArn(record: Record) {
    var r := record.resource;
    var parts := Split(r.resourceId, ':', 5);
    && |parts| == 6 && parts[0] == "arn" && parts[1] in {"aws", "aws-cn", "aws-us-gov"} && parts[2] == "cloudtrail"
    && Some(parts[3]) == r.region && parts[4] == r.account && IsAccount(parts[4])
    && parts[5] == "trail/" + (if record.name.Some? then record.name.value else "None")
    && record.arn == Some(r.resourceId) && r.scope == REGIONAL
  }

  predicate TrailIdentity(snap: Snapshot, record: Record, payload: Json) {
    && TrailArn(record)
    && Get(payload, "complete") == Bool(true)
    && Get(payload, "collection_account_id") == Text(snap.graph.account)
    && Get(payload, "owner_account_id") == Text(record.resource.account)
    && Get(payload, "partition") == Text(Split(record.resource.resourceId, ':', 5)[1])
    && Get(payload, "trail_arn") == TextOrNull(record.arn)
    && Get(payload, "name") == TextOrNull(record.name)
    && Get(payload, "home_region") == TextOrNull(record.resource.region)
  }

  predicate IdentityFits(snap: Snapshot, service: string, record: Record, payload: Json) {
    if service == "ec2" then Ec2Identity(record, payload)
    else if service == "iam" then
      && IamSubject(record, payload)
      && Get(payload, "arn") == TextOrNull(record.arn) && Get(payload, "name") == TextOrNull(record.name)
    else if service == "s3" then BucketSubject(record, payload) && Get(payload, "complete") == Bool(true)
    else TrailIdentity(snap, record, payload)
  }

  /** The tag list of a tag source, once the source is known to be about the record. */
  function TagField(service: string, record: Record, payload: Json): Option<Json> {
    if service == "iam" then
      if Get(payload, "discarded_item_count") == Number(0) && IamSubject(record, payload)
      then Some(Get(payload, "tags")) else None
    else if service == "s3" then
      if BucketSubject(record, payload) then Some(Get(payload, "value")) else None
    else
      if && Get(payload, "trail_arn") == TextOrNull(record.arn)
         && Get(payload, "home_region") == TextOrNull(record.resource.region)
      then Some(Get(payload, "value")) else None
  }

  // ----- The chain -----

  /** The tags as a proof carries them, and the sources they rest on. */
  datatype TagFacts = TagFacts(tags: seq<Entry>, citations: map<Uuid, Citation>)

  /** The source that lists the tags, beside the identity, and its list. */
  function TagList(
    snap: Snapshot, service: string, kind: string, record: Record, identity: Resolved): Option<(Resolved, Json)>
  {
    if service == "ec2" then Some((identity, Get(identity.artifact.payload, "tags")))
    else
      var found := Enriched(snap, TagSourceOf(kind), record.resource);
      if found.None? then None
      else
        var list := TagField(service, record, found.value.artifact.payload);
        if list.None? then None else Some((found.value, list.value))
  }

  function Cite(found: Resolved): map<Uuid, Citation> {
    map[found.citation.outcomeId := found.citation]
  }

  function Encoded(e: Encoding, record: Record, list: Json): Option<seq<Entry>> {
    if ReadTags(list) == Some(record.tags) then EncodeTags(e, record.tags) else None
  }

  function ResourceTags(
    snap: Snapshot, e: Encoding, service: string, kind: string, record: Record): Option<TagFacts>
  {
    var identity := Enriched(snap, IdentityOf(kind), record.resource);
    if identity.None? || !IdentityFits(snap, service, record, identity.value.artifact.payload) then None
    else
      var listed := TagList(snap, service, kind, record, identity.value);
      if listed.None? then None
      else
        var entries := Encoded(e, record, listed.value.1);
        if entries.None? then None
        else Some(TagFacts(entries.value, Cite(identity.value) + Cite(listed.value.0)))
  }

  // ----- What the chain says -----

  /** A cited source of the resource lists exactly these tags. */
  ghost predicate TagsCited(
    snap: Snapshot, service: string, kind: string, record: Record, citations: map<Uuid, Citation>)
  {
    exists found: Resolved, list: Json ::
      && Lists(snap, service, kind, record, found, list) && ReadTags(list) == Some(record.tags)
      && found.citation.outcomeId in citations && citations[found.citation.outcomeId] == found.citation
  }

  ghost predicate Lists(
    snap: Snapshot, service: string, kind: string, record: Record, found: Resolved, list: Json)
  {
    if service == "ec2" then
      && Resolve(snap, IdentityOf(kind), record.resource) == Some(found)
      && Get(found.artifact.payload, "tags") == list
    else
      && Resolve(snap, TagSourceOf(kind), record.resource) == Some(found)
      && TagField(service, record, found.artifact.payload) == Some(list)
  }

  /** A proved chain carries the retained tags, as a cited source of the resource lists them. */
  lemma ChainCarriesTags(snap: Snapshot, e: Encoding, service: string, kind: string, record: Record)
    requires ResourceTags(snap, e, service, kind, record).Some?
    ensures EncodeTags(e, record.tags) == Some(ResourceTags(snap, e, service, kind, record).value.tags)
    ensures TagsCited(snap, service, kind, record, ResourceTags(snap, e, service, kind, record).value.citations)
  {
    hide IdentityFits, EncodeTags, ReadTags, Resolve, IdentityOf, TagSourceOf, TagField;
    var identity := Enriched(snap, IdentityOf(kind), record.resource).value;
    var listed := TagList(snap, service, kind, record, identity).value;
    assert Lists(snap, service, kind, record, listed.0, listed.1);
  }

  // ----- Reading back a written list -----

  lemma {:induction false} ItemsRead(tags: Tags, keys: seq<string>)
    requires forall k :: k in keys ==> k in tags
    ensures forall j :: j in TagItems(tags, keys) ==> IsTagItem(j)
    ensures KeysIn(TagItems(tags, keys)) == keys
  {
    if keys != [] {
      var items := TagItems(tags, keys);
      ItemsRead(tags, keys[1..]);
      assert items[0] == TagItem(keys[0], tags[keys[0]]) && items[1..] == TagItems(tags, keys[1..]);
      forall i | 0 <= i < |items| ensures KeysIn(items)[i] == keys[i] {
        assert i > 0 ==> KeysIn(items)[i] == KeysIn(items[1..])[i - 1];
      }
    }
  }

  lemma {:induction false} GatherRead(tags: Tags, items: seq<Json>)
    requires forall j :: j in items ==> TextAt(j, "key") in tags && tags[TextAt(j, "key")] == TextAt(j, "value")
    ensures Gather(items) == Restrict(tags, KeysIn(items))
  {
    if items != [] {
      var init, last := items[..|items| - 1], items[|items| - 1];
      GatherRead(tags, init);
      assert KeysIn(items) == KeysIn(init) + [TextAt(last, "key")];
      assert last in items;
    }
  }

  lemma {:induction false} ItemsAgree(tags: Tags, keys: seq<string>)
    requires forall k :: k in keys ==> k in tags
    ensures forall j :: j in TagItems(tags, keys) ==>
              IsTagItem(j) && TextAt(j, "key") in tags && tags[TextAt(j, "key")] == TextAt(j, "value")
  {
    if keys != [] {
      ItemsAgree(tags, keys[1..]);
    }
  }

  /** A list written from tags reads back as those tags, so a fitting EC2 identity never fails here. */
  lemma ListedTagsRead(tags: Tags)
    ensures ReadTags(ListTags(tags)) == Some(tags)
  {
    hide TagItems, KeysIn, Gather, IsTagItem, SortedText, TextAt;
    KeysListed(tags);
    var keys := SortedText(tags.Keys);
    ItemsRead(tags, keys);
    ItemsAgree(tags, keys);
    GatherRead(tags, TagItems(tags, keys));
    assert (set k | k in keys) == tags.Keys;
    assert Restrict(tags, keys) == tags;
  }
}
