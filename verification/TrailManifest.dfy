/**
 The CloudTrail manifests: one global discovery, exactly five sources for each admitted trail, and
 one destination edge for each destination a PRESENT configuration names.
 */
module TrailManifest {
  import opened Wrappers
  import opened Ordering
  import opened Identities
  import opened JsonValues
  import opened Evidence
  import opened KmsManifest
  import ScanGraph

  const DISCOVERY_KIND := "cloudtrail.trails.discovery"
  const IDENTITY_KIND := "cloudtrail.trail.identity"
  const CONFIGURATION_KIND := "cloudtrail.trail.configuration"
  const STATUS_KIND := "cloudtrail.trail.status"
  const SELECTORS_KIND := "cloudtrail.trail.event-selectors"
  const TAGS_KIND := "cloudtrail.trail.tags"
  const TRAIL_KINDS: set<string> := {IDENTITY_KIND, CONFIGURATION_KIND, STATUS_KIND, SELECTORS_KIND, TAGS_KIND}

  const TRAIL_COLLECTORS: set<string> := {
    "cloudtrail.trails", "cloudtrail.trail-configuration", "cloudtrail.trail-status",
    "cloudtrail.trail-event-selectors", "cloudtrail.trail-tags"
  }

  const DELIVERS_TO_BUCKET: RelationshipType := "delivers_to_bucket"

  predicate IsTrailOutcome(o: Outcome) {
    o.collector in TRAIL_COLLECTORS
  }

  /** The scan collected CloudTrail evidence, so its trail edges are checked. */
  predicate HasTrailEvidence(outcomes: seq<Outcome>) {
    exists o :: o in outcomes && IsTrailOutcome(o)
  }

  predicate FromTrail(r: Relationship) {
    r.edge.source.service == "cloudtrail" && r.edge.source.resourceType == "cloudtrail_trail"
  }

  // ----- Names -----

  predicate IsAlnum(c: char) {
    'a' <= c <= 'z' || 'A' <= c <= 'Z' || '0' <= c <= '9'
  }

  /** `aws` and any number of `-` groups. */
  predicate IsPartition(s: string) {
    && "aws" <= s && (|s| > 3 ==> s[3] == '-')
    && forall i :: 3 <= i < |s| ==>
         || IsLowerAlnum([s[i]])
         || (s[i] == '-' && i + 1 < |s| && s[i + 1] != '-')
  }

  /** 3 to 128 characters; a separator stands only before a letter or a digit, and never first. */
  predicate IsTrailName(s: string) {
    && 3 <= |s| <= 128 && IsAlnum(s[0]) && IsAlnum(s[|s| - 1])
    && (forall i :: 0 < i < |s| - 1 ==> IsAlnum(s[i]) || (s[i] in {'.', '_', '-'} && IsAlnum(s[i + 1])))
    && !IsAddress(s)
  }

  predicate IsAddress(s: string) {
    var groups := Split(s, '.', 3);
    |groups| == 4 && forall g :: g in groups ==> IsDigits(g)
  }

  datatype ArnParts = ArnParts(partition: string, region: string, owner: string, name: string)

  /** `arn:partition:service:region:owner:prefix...` */
  function ParseArn(arn: string, service: string, prefix: string): Option<ArnParts> {
    var parts := Split(arn, ':', 5);
    if && |parts| == 6 && parts[0] == "arn" && IsPartition(parts[1]) && parts[2] == service
       && IsRegion(parts[3]) && IsAccount(parts[4]) && prefix <= parts[5]
    then Some(ArnParts(parts[1], parts[3], parts[4], parts[5][|prefix|..])) else None
  }

  function ParseTrail(arn: string): Option<ArnParts> {
    var parsed := ParseArn(arn, "cloudtrail", "trail/");
    if parsed.Some? && IsTrailName(parsed.value.name) then parsed else None
  }

  function ParseKey(arn: string): Option<ArnParts> {
    var parsed := ParseArn(arn, "kms", "key/");
    if parsed.Some? && SafeText(Text(parsed.value.name)) then parsed else None
  }

  // ----- Shapes of JSON -----

  predicate HasKeys(j: Json, keys: set<string>) {
    j.Object? && j.fields.Keys == keys
  }

  /** Python's equality of a JSON number, or of a Boolean standing for 0 or 1. */
  predicate CountIs(j: Json, n: nat) {
    j == Number(n) || (n == 0 && j == Bool(false)) || (n == 1 && j == Bool(true))
  }

  function TextsIn(j: Json): set<string> {
    set v | v in Items(j) && v.Text? :: v.text
  }

  /** A list of distinct safe texts in ascending order. */
  predicate SafeNames(j: Json) {
    j.List? && (forall v :: v in j.items ==> SafeText(v)) && j.items == Texts(SortedText(TextsIn(j)))
  }

  /** Distinct documents in the order of their canonical text. */
  predicate CanonicalList(json: Json -> string, items: seq<Json>) {
    var documents := Map(json, items);
    documents == SortedText(set d | d in documents)
  }

  predicate NullOr(j: Json, ok: Json -> bool) {
    j.Null? || ok(j)
  }

  // ----- Values of the four enrichment sources -----

  const CONFIGURATION_FIELDS: set<string> := {
    "name", "s3_bucket_name", "s3_key_prefix", "include_global_service_events", "is_multi_region_trail",
    "log_file_validation_enabled", "cloudwatch_logs_log_group_arn", "cloudwatch_logs_role_arn", "kms_key_id",
    "is_organization_trail"
  }

  const CONFIGURATION_TEXTS: set<string> :=
    {"s3_bucket_name", "s3_key_prefix", "cloudwatch_logs_log_group_arn", "cloudwatch_logs_role_arn", "kms_key_id"}

  const CONFIGURATION_FLAGS: set<string> := {
    "include_global_service_events", "is_multi_region_trail", "log_file_validation_enabled", "is_organization_trail"
  }

  predicate ConfigurationValue(v: Json, trail: ArnParts) {
    && HasKeys(v, CONFIGURATION_FIELDS)
    && (forall f :: f in CONFIGURATION_TEXTS ==> Get(v, f).Null? || Get(v, f).Text?)
    && (forall f :: f in CONFIGURATION_FLAGS ==> Get(v, f).Null? || Get(v, f).Bool?)
    && Get(v, "name") == Text(trail.name)
    && NullOr(Get(v, "s3_bucket_name"), SafeText)
    && (Get(v, "cloudwatch_logs_log_group_arn").Null? <==> Get(v, "cloudwatch_logs_role_arn").Null?)
    && NullOr(Get(v, "cloudwatch_logs_log_group_arn"), SafeText)
    && NullOr(Get(v, "cloudwatch_logs_role_arn"), SafeText)
    && (Get(v, "kms_key_id").Text? ==>
          && ParseKey(Get(v, "kms_key_id").text).Some?
          && ParseKey(Get(v, "kms_key_id").text).value.partition == trail.partition)
  }

  predicate StatusValue(v: Json) {
    && HasKeys(v, {"is_logging", "status"})
    && Get(v, "is_logging").Bool? && Get(v, "status").Object?
    && "ResponseMetadata" !in Get(v, "status").fields
    && Get(Get(v, "status"), "IsLogging") == Get(v, "is_logging")
  }

  const SELECTOR_FIELDS: set<string> :=
    {"include_management_events", "read_write_type", "exclude_management_event_sources", "data_resources"}

  function SelectorDefault(field: string): Json {
    if field == "include_management_events" then Bool(true)
    else if field == "read_write_type" then Text("All")
    else List([])
  }

  predicate DataResource(v: Json) {
    && HasKeys(v, {"type", "values"}) && SafeText(Get(v, "type"))
    && SafeNames(Get(v, "values")) && Get(v, "values").items != []
  }

  predicate BasicSelector(json: Json -> string, v: Json) {
    var presence, exclusions := Get(v, "raw_presence"), Get(v, "exclude_management_event_sources");
    && HasKeys(v, SELECTOR_FIELDS + {"raw_presence"})
    && HasKeys(presence, SELECTOR_FIELDS) && (forall f :: f in SELECTOR_FIELDS ==> Get(presence, f).Bool?)
    && Get(v, "include_management_events").Bool?
    && IsOneOf(Get(v, "read_write_type"), {"All", "ReadOnly", "WriteOnly"})
    && SafeNames(exclusions) && TextsIn(exclusions) <= {"kms.amazonaws.com", "rdsdata.amazonaws.com"}
    && Get(v, "data_resources").List?
    && (forall f :: f in SELECTOR_FIELDS ==> Get(presence, f) == Bool(false) ==> Get(v, f) == SelectorDefault(f))
    && (forall item :: item in Get(v, "data_resources").items ==> DataResource(item))
    && CanonicalList(json, Get(v, "data_resources").items)
  }

  const OPERATORS: set<string> :=
    {"equals", "starts_with", "ends_with", "not_equals", "not_starts_with", "not_ends_with"}

  predicate FieldSelector(v: Json) {
    && HasKeys(v, OPERATORS + {"field"}) && SafeText(Get(v, "field"))
    && (forall o :: o in OPERATORS ==> SafeNames(Get(v, o)))
    && exists o :: o in OPERATORS && Items(Get(v, o)) != []
  }

  predicate AdvancedSelector(json: Json -> string, v: Json) {
    && HasKeys(v, {"name", "field_selectors"}) && NullOr(Get(v, "name"), SafeText)
    && Get(v, "field_selectors").List? && Get(v, "field_selectors").items != []
    && (forall item :: item in Get(v, "field_selectors").items ==> FieldSelector(item))
    && CanonicalList(json, Get(v, "field_selectors").items)
  }

  predicate SelectorsValue(json: Json -> string, v: Json) {
    var basic, advanced := Get(v, "basic_selectors"), Get(v, "advanced_selectors");
    && HasKeys(v, {"selector_form", "basic_selectors", "advanced_selectors"})
    && IsOneOf(Get(v, "selector_form"), {"BASIC", "ADVANCED"}) && basic.List? && advanced.List?
    && (Get(v, "selector_form") == Text("BASIC") <==> basic.items != [])
    && (basic.items != [] <==> advanced.items == [])
    && (forall item :: item in basic.items ==> BasicSelector(json, item))
    && (forall item :: item in advanced.items ==> AdvancedSelector(json, item))
    && CanonicalList(json, basic.items) && CanonicalList(json, advanced.items)
  }

  function KeyTexts(v: Json): seq<string> {
    Map((item: Json) => if Get(item, "key").Text? then Get(item, "key").text else "", Items(v))
  }

  predicate TagsValue(v: Json) {
    && v.List?
    && (forall item :: item in v.items ==>
          HasKeys(item, {"key", "value"}) && SafeText(Get(item, "key")) && Get(item, "value").Text?)
    && KeyTexts(v) == SortedText(set k | k in KeyTexts(v))
  }

  predicate EnrichmentValue(json: Json -> string, kind: string, v: Json, trail: ArnParts) {
    if kind == CONFIGURATION_KIND then ConfigurationValue(v, trail)
    else if kind == STATUS_KIND then StatusValue(v)
    else if kind == SELECTORS_KIND then SelectorsValue(json, v)
    else TagsValue(v)
  }

  // ----- One source -----

  datatype SourceShape = SourceShape(collector: string, api: string, phase: Phase, single: bool, authoritative: bool)

  function ShapeOf(kind: string): Option<SourceShape> {
    if kind == DISCOVERY_KIND then
      Some(SourceShape("cloudtrail.trails", "cloudtrail:ListTrails", ScanGraph.DISCOVERY, false, false))
    else if kind == IDENTITY_KIND then
      Some(SourceShape("cloudtrail.trails", "cloudtrail:ListTrails", ENRICHMENT, true, true))
    else if kind == CONFIGURATION_KIND then
      Some(SourceShape("cloudtrail.trail-configuration", "cloudtrail:GetTrail", ENRICHMENT, true, false))
    else if kind == STATUS_KIND then
      Some(SourceShape("cloudtrail.trail-status", "cloudtrail:GetTrailStatus", ENRICHMENT, true, false))
    else if kind == SELECTORS_KIND then
      Some(SourceShape("cloudtrail.trail-event-selectors", "cloudtrail:GetEventSelectors", ENRICHMENT, true, false))
    else if kind == TAGS_KIND then
      Some(SourceShape("cloudtrail.trail-tags", "cloudtrail:ListTags", ENRICHMENT, true, false))
    else None
  }

  predicate AllowedState(o: Outcome) {
    && o.state != EXPECTED_ABSENCE
    && (o.evidenceKind == DISCOVERY_KIND ==> o.state != ScanGraph.RESOURCE_DISAPPEARED)
  }

  /** The declaration and the outcome have exactly the identity their evidence kind prescribes. */
  predicate SourceIdentity(k: Contract, o: Outcome, account: string) {
    && ShapeOf(o.evidenceKind).Some?
    && var shape := ShapeOf(o.evidenceKind).value;
    && k.key == o.evidenceKind && k.version == "1.0.0" && k.evidenceKind == o.evidenceKind
    && k.collector == shape.collector && k.collectorVersion == "1.0.0" && k.sourceApi == shape.api
    && k.phase == shape.phase && k.single == shape.single && k.identityAuthoritative == shape.authoritative
    && !k.allowsSupplementalRegion
    && o.collector == shape.collector && o.collectorVersion == "1.0.0" && o.sourceApi == shape.api
    && o.phase == shape.phase && o.account == account && AllowedState(o)
  }

  predicate Readable(c: Context, o: Outcome) {
    Bound(c, o, o.evidenceKind) && Payload(c, o).Object?
  }

  predicate Completion(c: Context, o: Outcome) {
    && Field(c, o, "complete") == Bool(o.state == PRESENT)
    && Field(c, o, "failure_category") == if o.failure.Some? then Text(o.failure.value) else Null
  }

  // ----- The discovery source -----

  const DISCOVERY_FIELDS: set<string> := {
    "collection_account_id", "invocation_region", "trail_arns", "trail_count", "discarded_item_count",
    "admission_complete", "unadmitted_resources", "complete", "failure_category"
  }

  function Discoveries(outcomes: seq<Outcome>): seq<Outcome> {
    if outcomes == [] then []
    else
      var last := outcomes[|outcomes| - 1];
      Discoveries(outcomes[..|outcomes| - 1])
      + if IsTrailOutcome(last) && last.evidenceKind == DISCOVERY_KIND then [last] else []
  }

  predicate DiscoveryPayload(c: Context, d: Outcome) {
    var arns := Field(c, d, "trail_arns");
    && HasKeys(Payload(c, d), DISCOVERY_FIELDS)
    && Field(c, d, "collection_account_id") == Text(d.account)
    && Field(c, d, "invocation_region").Text? && IsRegion(Field(c, d, "invocation_region").text)
    && SafeNames(arns) && CountIs(Field(c, d, "trail_count"), |arns.items|)
    && Field(c, d, "discarded_item_count").Number? && Field(c, d, "discarded_item_count").number >= 0
    && Field(c, d, "admission_complete").Bool? && Field(c, d, "unadmitted_resources").List?
    && Completion(c, d)
    && (d.state == PRESENT ==> Field(c, d, "discarded_item_count") == Number(0))
    && forall arn :: arn in Discovered(c, d) ==> ParseTrail(arn).Some?
  }

  function Discovered(c: Context, d: Outcome): set<string> {
    TextsIn(Field(c, d, "trail_arns"))
  }

  /** What the discovery must say about a trail it saw and did not admit. */
  function UnadmittedItem(arn: string, trail: ArnParts): Json {
    Object(map["account_id" := Text(trail.owner), "service" := Text("cloudtrail"),
               "resource_type" := Text("cloudtrail_trail"), "scope" := Text("regional"),
               "region" := Text(trail.region), "resource_id" := Text(arn)])
  }

  /** An item is the exact identity of a discovered trail of another account. */
  predicate UnadmittedFits(c: Context, d: Outcome, item: Json) {
    && Get(item, "resource_id").Text?
    && var arn := Get(item, "resource_id").text;
    && arn in Discovered(c, d) && ParseTrail(arn).Some?
    && item == UnadmittedItem(arn, ParseTrail(arn).value) && ParseTrail(arn).value.owner != d.account
  }

  function ItemText(item: Json, field: string): string {
    if Get(item, field).Text? then Get(item, field).text else ""
  }

  /** The order of the items; the fields they share do not matter. */
  predicate ItemBefore(a: Json, b: Json) {
    var x, y := ItemText(a, "account_id"), ItemText(b, "account_id");
    var u, v := ItemText(a, "region"), ItemText(b, "region");
    && TextLe(x, y)
    && (x == y ==> TextLe(u, v) && (u == v ==> TextLe(ItemText(a, "resource_id"), ItemText(b, "resource_id"))))
  }

  predicate AdmissionFits(c: Context, d: Outcome) {
    var items := Items(Field(c, d, "unadmitted_resources"));
    && (forall item :: item in items ==> UnadmittedFits(c, d, item))
    && (forall i, j :: 0 <= i < j < |items| ==> items[i] != items[j] && ItemBefore(items[i], items[j]))
    && Field(c, d, "admission_complete") == Bool(items == [])
  }

  function Unadmitted(c: Context, d: Outcome): set<string> {
    set item | item in Items(Field(c, d, "unadmitted_resources")) :: ItemText(item, "resource_id")
  }

  function Admitted(c: Context, d: Outcome): set<string> {
    Discovered(c, d) - Unadmitted(c, d)
  }

  predicate DiscoveryFits(c: Context, declared: map<Uuid, Contract>, d: Outcome) {
    && d.outcomeId in declared && SourceIdentity(declared[d.outcomeId], d, d.account)
    && d.subject.AccountSubject? && d.subject.scope == GLOBAL
    && Readable(c, d) && DiscoveryPayload(c, d) && AdmissionFits(c, d)
  }

  // ----- The sources of each trail -----

  predicate IsTrailSource(o: Outcome) {
    IsTrailOutcome(o) && o.evidenceKind != DISCOVERY_KIND
  }

  function SubjectId(o: Outcome): string {
    if o.subject.ResourceSubject? then o.subject.resource.resourceId else ""
  }

  /** The trail and the kind of a source. */
  function SourceName(o: Outcome): (string, string) {
    (SubjectId(o), o.evidenceKind)
  }

  function TrailResource(arn: string, trail: ArnParts): Resource {
    Resource(trail.owner, "cloudtrail", "cloudtrail_trail", REGIONAL, Some(trail.region), arn)
  }

  /** A source of an admitted trail, with the identity its kind prescribes. */
  predicate SourceFits(c: Context, declared: map<Uuid, Contract>, d: Outcome, o: Outcome) {
    && o.outcomeId in declared && SourceIdentity(declared[o.outcomeId], o, d.account)
    && o.subject.ResourceSubject? && SubjectId(o) in Admitted(c, d)
    && ParseTrail(SubjectId(o)).Some?
    && o.subject.resource == TrailResource(SubjectId(o), ParseTrail(SubjectId(o)).value)
    && Readable(c, o)
  }

  predicate IdentityPayload(c: Context, d: Outcome, o: Outcome, trail: ArnParts) {
    && o.state == PRESENT
    && HasKeys(Payload(c, o), {"collection_account_id", "owner_account_id", "partition", "trail_arn", "name",
                               "home_region", "complete", "failure_category"})
    && Field(c, o, "collection_account_id") == Text(d.account) && Field(c, o, "owner_account_id") == Text(trail.owner)
    && Field(c, o, "partition") == Text(trail.partition) && Field(c, o, "trail_arn") == Text(SubjectId(o))
    && Field(c, o, "name") == Text(trail.name) && Field(c, o, "home_region") == Text(trail.region)
    && Completion(c, o)
  }

  predicate EnrichmentPayload(c: Context, o: Outcome, trail: ArnParts) {
    && HasKeys(Payload(c, o), {"trail_arn", "home_region", "value", "complete", "failure_category"})
    && Field(c, o, "trail_arn") == Text(SubjectId(o)) && Field(c, o, "home_region") == Text(trail.region)
    && Completion(c, o)
    && if o.state == PRESENT then EnrichmentValue(c.json, o.evidenceKind, Field(c, o, "value"), trail)
       else Field(c, o, "value").Null?
  }

  /** A trail of another account is never its own authority, and belongs to an organization. */
  predicate ExternalFits(c: Context, declared: map<Uuid, Contract>, o: Outcome) {
    && (o.outcomeId in declared ==> !declared[o.outcomeId].identityAuthoritative)
    && (o.evidenceKind == CONFIGURATION_KIND && o.state == PRESENT ==>
          Get(Field(c, o, "value"), "is_organization_trail") == Bool(true))
  }

  predicate PayloadFits(c: Context, declared: map<Uuid, Contract>, d: Outcome, o: Outcome) {
    && ParseTrail(SubjectId(o)).Some?
    && var trail := ParseTrail(SubjectId(o)).value;
    if o.evidenceKind == IDENTITY_KIND then IdentityPayload(c, d, o, trail)
    else EnrichmentPayload(c, o, trail) && (trail.owner != d.account ==> ExternalFits(c, declared, o))
  }

  // ----- The source manifest -----

  ghost predicate SourcesFit(c: Context, declared: map<Uuid, Contract>, d: Outcome, outcomes: seq<Outcome>) {
    forall o :: o in outcomes && IsTrailSource(o) ==> SourceFits(c, declared, d, o) && PayloadFits(c, declared, d, o)
  }

  ghost predicate SourcesDiffer(outcomes: seq<Outcome>) {
    forall o, p ::
      (o in outcomes && p in outcomes && IsTrailSource(o) && IsTrailSource(p) && SourceName(o) == SourceName(p))
      ==> o == p
  }

  ghost predicate HasSource(outcomes: seq<Outcome>, name: (string, string)) {
    exists o :: o in outcomes && IsTrailSource(o) && SourceName(o) == name
  }

  ghost predicate NoneMissing(c: Context, d: Outcome, outcomes: seq<Outcome>) {
    forall arn, kind :: arn in Admitted(c, d) && kind in TRAIL_KINDS ==> HasSource(outcomes, (arn, kind))
  }

  /** One discovery; every source belongs to an admitted trail; every admitted trail has all five. */
  ghost predicate TrailSources(c: Context, declared: map<Uuid, Contract>, outcomes: seq<Outcome>) {
    && |Discoveries(outcomes)| == 1
    && var d := Discoveries(outcomes)[0];
    && DiscoveryFits(c, declared, d)
    && SourcesFit(c, declared, d, outcomes) && SourcesDiffer(outcomes) && NoneMissing(c, d, outcomes)
  }

  // ----- Destinations -----

  predicate IsConfiguration(o: Outcome) {
    IsTrailSource(o) && o.evidenceKind == CONFIGURATION_KIND && o.state == PRESENT
  }

  function TextOf(j: Json): Option<string> {
    if j.Text? then Some(j.text) else None
  }

  /** Where a configuration sends its trail, by relationship type. */
  function Destination(c: Context, o: Outcome, kind: RelationshipType): Option<string> {
    var value := Field(c, o, "value");
    if kind == DELIVERS_TO_BUCKET then TextOf(Get(value, "s3_bucket_name"))
    else if kind == ENCRYPTED_WITH then TextOf(Get(value, "kms_key_id"))
    else None
  }

  predicate BucketTarget(r: Relationship, bucket: string) {
    match r.edge.target
    case Stable(t) =>
      && t.service == "s3" && t.resourceType == "s3_bucket" && t.resourceId == bucket && t.scope == REGIONAL
      && r.resolution == RESOLVED
    case Unresolved(t) =>
      && t == PartialTarget(None, "s3", "s3_bucket", bucket, Some(REGIONAL), None)
      && r.resolution == TARGET_IDENTITY_INCOMPLETE
  }

  const S3_COLLECTORS: set<string> := {
    "kms.keys", "s3.account-public-access-block", "s3.bucket-acl", "s3.bucket-encryption", "s3.bucket-location",
    "s3.bucket-ownership-controls", "s3.bucket-policy", "s3.bucket-policy-status",
    "s3.bucket-public-access-block", "s3.bucket-tags", "s3.bucket-versioning", "s3.buckets"
  }

  predicate HasS3Evidence(outcomes: seq<Outcome>) {
    exists o :: o in outcomes && o.collector in S3_COLLECTORS
  }

  predicate ProvesKey(o: Outcome, key: Resource) {
    o.collector == "kms.keys" && o.state == PRESENT && o.subject == ResourceSubject(key)
  }

  function OfKind(outcomes: seq<Outcome>, kind: string): seq<Outcome> {
    if outcomes == [] then []
    else
      var last := outcomes[|outcomes| - 1];
      OfKind(outcomes[..|outcomes| - 1], kind) + if last.evidenceKind == kind then [last] else []
  }

  /** `complete` is the verdict of the S3 bucket-location evidence, when there is a valid one. */
  function Uncollected(outcomes: seq<Outcome>, complete: bool): Resolution {
    if !HasS3Evidence(outcomes)
       || ( && complete
            && forall o :: o in outcomes && o.collector in S3_COLLECTORS ==> o.state in {PRESENT, EXPECTED_ABSENCE})
    then TARGET_NOT_COLLECTED else TARGET_EVIDENCE_INCOMPLETE
  }

  /** The resolution a key must be reported with; None where its evidence is refused. */
  function KeyResolution(
    c: Context, outcomes: seq<Outcome>, locations: Option<bool>, arn: string, key: Resource): Option<Resolution>
  {
    var described := OfKind(outcomes, KeyKind(c, if key.region.Some? then key.region.value else "", arn));
    if HasS3Evidence(outcomes) && locations.None? then None
    else if exists o :: o in outcomes && ProvesKey(o, key) then Some(RESOLVED)
    else if |described| > 1 || exists o :: o in described && o.collector != "kms.keys" then None
    else if |described| == 1 then
      if described[0].state == PRESENT then None
      else
        Some(if described[0].failure == Some("ACCESS_DENIED") then TARGET_ACCESS_DENIED
             else TARGET_EVIDENCE_INCOMPLETE)
    else Some(Uncollected(outcomes, locations.Some? && locations.value))
  }

  predicate KeyTarget(c: Context, outcomes: seq<Outcome>, locations: Option<bool>, r: Relationship, arn: string) {
    && ParseKey(arn).Some?
    && var parts := ParseKey(arn).value;
    && var key := Resource(parts.owner, "kms", "kms_key", REGIONAL, Some(parts.region), arn);
    && r.edge.target == Stable(key)
    && KeyResolution(c, outcomes, locations, arn, key) == Some(r.resolution)
  }

  /** The edge is what the configuration says about its own trail. */
  predicate Stands(
    c: Context, outcomes: seq<Outcome>, locations: Option<bool>, o: Outcome, destination: string, r: Relationship)
  {
    && o.subject == ResourceSubject(r.edge.source) && r.provenance == ProvenanceOf(o)
    && r.edge.scan == c.scan && r.account == c.account
    && if r.edge.kind == DELIVERS_TO_BUCKET then BucketTarget(r, destination)
       else KeyTarget(c, outcomes, locations, r, destination)
  }

  function EndName(r: Relationship): (string, string) {
    (r.edge.source.resourceId, r.edge.kind)
  }

  /** Some PRESENT configuration of the trail names a destination of this kind. */
  ghost predicate Expects(c: Context, outcomes: seq<Outcome>, name: (string, string), o: Outcome, destination: string) {
    o in outcomes && IsConfiguration(o) && SubjectId(o) == name.0 && Destination(c, o, name.1) == Some(destination)
  }

  ghost predicate EdgesStand(
    c: Context, outcomes: seq<Outcome>, locations: Option<bool>, relationships: seq<Relationship>)
  {
    forall r :: r in relationships && FromTrail(r) ==>
      exists o, t :: Expects(c, outcomes, EndName(r), o, t) && Stands(c, outcomes, locations, o, t, r)
  }

  ghost predicate EdgesDiffer(relationships: seq<Relationship>) {
    forall r, q ::
      (r in relationships && q in relationships && FromTrail(r) && FromTrail(q) && EndName(r) == EndName(q))
      ==> r == q
  }

  ghost predicate HasEdge(relationships: seq<Relationship>, name: (string, string)) {
    exists r :: r in relationships && FromTrail(r) && EndName(r) == name
  }

  /** The trail edges are the destinations of the PRESENT configurations, one edge each. */
  ghost predicate TrailEdges(
    c: Context, outcomes: seq<Outcome>, locations: Option<bool>, relationships: seq<Relationship>)
  {
    && EdgesStand(c, outcomes, locations, relationships) && EdgesDiffer(relationships)
    && forall name, o, t :: Expects(c, outcomes, name, o, t) ==> HasEdge(relationships, name)
  }

  // ----- The source loop -----

  ghost predicate AllFit(c: Context, declared: map<Uuid, Contract>, d: Outcome, outcomes: seq<Outcome>) {
    forall o :: o in outcomes && IsTrailSource(o) ==> SourceFits(c, declared, d, o)
  }

  /** The table holds each source under its trail and kind. */
  ghost predicate Filed(outcomes: seq<Outcome>, sources: map<(string, string), Outcome>) {
    && (forall o :: o in outcomes && IsTrailSource(o) ==> SourceName(o) in sources && sources[SourceName(o)] == o)
    && (forall k :: k in sources ==>
          sources[k] in outcomes && IsTrailSource(sources[k]) && SourceName(sources[k]) == k)
  }

  lemma FiledDiffer(outcomes: seq<Outcome>, sources: map<(string, string), Outcome>)
    requires Filed(outcomes, sources)
    ensures SourcesDiffer(outcomes)
    ensures forall name :: HasSource(outcomes, name) <==> name in sources
  {
  }

  lemma FiledAppend(outcomes: seq<Outcome>, sources: map<(string, string), Outcome>, o: Outcome)
    requires Filed(outcomes, sources)
    ensures !IsTrailSource(o) ==> Filed(outcomes + [o], sources)
    ensures IsTrailSource(o) && SourceName(o) !in sources ==> Filed(outcomes + [o], sources[SourceName(o) := o])
    ensures IsTrailSource(o) && SourceName(o) in sources && o !in outcomes ==> !SourcesDiffer(outcomes + [o])
  {
    assert o in outcomes + [o];
    if IsTrailSource(o) && SourceName(o) in sources && o !in outcomes {
      var p := sources[SourceName(o)];
      assert p in outcomes + [o] && p != o;
    }
  }

  method FileSources(c: Context, declared: map<Uuid, Contract>, d: Outcome, outcomes: seq<Outcome>)
    returns (ok: bool, sources: map<(string, string), Outcome>)
    requires forall i, j :: 0 <= i < j < |outcomes| ==> outcomes[i] != outcomes[j]
    ensures ok <==> AllFit(c, declared, d, outcomes) && SourcesDiffer(outcomes)
    ensures ok ==> Filed(outcomes, sources)
  {
    sources := map[];
    for i := 0 to |outcomes|
      invariant AllFit(c, declared, d, outcomes[..i]) && Filed(outcomes[..i], sources)
    {
      var o := outcomes[i];
      assert o in outcomes && o !in outcomes[..i] && outcomes[..i + 1] == outcomes[..i] + [o];
      FiledAppend(outcomes[..i], sources, o);
      if IsTrailSource(o) {
        if !SourceFits(c, declared, d, o) {
          return false, sources;
        }
        if SourceName(o) in sources {
          DifferInPrefix(outcomes, i + 1);
          return false, sources;
        }
        sources := sources[SourceName(o) := o];
      }
    }
    assert outcomes[..|outcomes|] == outcomes;
    FiledDiffer(outcomes, sources);
    ok := true;
  }

  lemma DifferInPrefix(outcomes: seq<Outcome>, i: nat)
    requires i <= |outcomes|
    ensures SourcesDiffer(outcomes) ==> SourcesDiffer(outcomes[..i])
  {
  }

  function EverySource(c: Context, d: Outcome): set<(string, string)> {
    set arn, kind | arn in Admitted(c, d) && kind in TRAIL_KINDS :: (arn, kind)
  }

  lemma KnownKind(kind: string)
    requires ShapeOf(kind).Some? && kind != DISCOVERY_KIND
    ensures kind in TRAIL_KINDS
  {
  }

  lemma FittingKind(c: Context, declared: map<Uuid, Contract>, d: Outcome, o: Outcome)
    requires IsTrailSource(o) && SourceFits(c, declared, d, o)
    ensures SourceName(o) in EverySource(c, d)
  {
    hide ShapeOf, Admitted, Readable, ParseTrail, AllowedState, TRAIL_KINDS;
    KnownKind(o.evidenceKind);
  }

  lemma FiledIsEverySource(
    c: Context, declared: map<Uuid, Contract>, d: Outcome, outcomes: seq<Outcome>,
    sources: map<(string, string), Outcome>)
    requires AllFit(c, declared, d, outcomes) && Filed(outcomes, sources)
    ensures sources.Keys == EverySource(c, d) <==> NoneMissing(c, d, outcomes)
  {
    hide SourceFits, Filed;
    FiledDiffer(outcomes, sources);
    forall k | k in sources ensures k in EverySource(c, d) {
      assert HasSource(outcomes, k);
      var o :| o in outcomes && IsTrailSource(o) && SourceName(o) == k;
      FittingKind(c, declared, d, o);
    }
    if NoneMissing(c, d, outcomes) {
      forall k | k in EverySource(c, d) ensures k in sources.Keys {
        assert HasSource(outcomes, (k.0, k.1));
      }
    }
    if sources.Keys == EverySource(c, d) {
      forall arn, kind | arn in Admitted(c, d) && kind in TRAIL_KINDS ensures HasSource(outcomes, (arn, kind)) {
        assert (arn, kind) in sources.Keys;
      }
    }
  }

  /** The discovery, its sources one by one, and then what is missing. */
  method CheckTrailSources(c: Context, declared: map<Uuid, Contract>, outcomes: seq<Outcome>) returns (ok: bool)
    requires forall i, j :: 0 <= i < j < |outcomes| ==> outcomes[i] != outcomes[j]
    ensures ok <==> TrailSources(c, declared, outcomes)
  {
    hide DiscoveryFits, SourceFits, PayloadFits, SourcesDiffer, HasSource, Admitted;
    var found := Discoveries(outcomes);
    if |found| != 1 || !DiscoveryFits(c, declared, found[0]) {
      return false;
    }
    var d := found[0];
    var sources;
    ok, sources := FileSources(c, declared, d, outcomes);
    if !ok {
      return;
    }
    FiledIsEverySource(c, declared, d, outcomes, sources);
    if sources.Keys != EverySource(c, d) {
      return false;
    }
    ok := forall k :: k in sources ==> PayloadFits(c, declared, d, sources[k]);
    assert ok <==> SourcesFit(c, declared, d, outcomes);
  }

  // ----- The destination loop -----

  function AddDestination(
    c: Context, o: Outcome, kind: RelationshipType, expected: map<(string, string), (Outcome, string)>)
    : map<(string, string), (Outcome, string)>
  {
    if Destination(c, o, kind).None? then expected
    else expected[(SubjectId(o), kind) := (o, Destination(c, o, kind).value)]
  }

  ghost predicate Tabulates(
    c: Context, outcomes: seq<Outcome>, expected: map<(string, string), (Outcome, string)>)
  {
    forall name, o, t :: Expects(c, outcomes, name, o, t) <==> name in expected && expected[name] == (o, t)
  }

  lemma TabulatesAppend(
    c: Context, outcomes: seq<Outcome>, expected: map<(string, string), (Outcome, string)>, o: Outcome)
    requires Tabulates(c, outcomes, expected) && SourcesDiffer(outcomes + [o]) && o !in outcomes
    ensures !IsConfiguration(o) ==> Tabulates(c, outcomes + [o], expected)
    ensures IsConfiguration(o) ==>
              Tabulates(c, outcomes + [o],
                        AddDestination(c, o, ENCRYPTED_WITH, AddDestination(c, o, DELIVERS_TO_BUCKET, expected)))
  {
    forall name, p, t ensures Expects(c, outcomes + [o], name, p, t) <==>
        Expects(c, outcomes, name, p, t)
        || (p == o && IsConfiguration(o) && SubjectId(o) == name.0 && Destination(c, o, name.1) == Some(t))
    {
    }
    if IsConfiguration(o) {
      forall name, p, t | Expects(c, outcomes, name, p, t) ensures name.0 != SubjectId(o) {
        assert p in outcomes + [o] && o in outcomes + [o] && SourceName(p) == (name.0, CONFIGURATION_KIND);
      }
      forall name | name in expected ensures name.0 != SubjectId(o) {
        assert Expects(c, outcomes, name, expected[name].0, expected[name].1);
      }
    }
  }

  method ExpectDestinations(c: Context, outcomes: seq<Outcome>)
    returns (expected: map<(string, string), (Outcome, string)>)
    requires forall i, j :: 0 <= i < j < |outcomes| ==> outcomes[i] != outcomes[j]
    requires SourcesDiffer(outcomes)
    ensures Tabulates(c, outcomes, expected)
  {
    expected := map[];
    for i := 0 to |outcomes|
      invariant Tabulates(c, outcomes[..i], expected)
    {
      var o := outcomes[i];
      assert o !in outcomes[..i] && outcomes[..i + 1] == outcomes[..i] + [o];
      DifferInPrefix(outcomes, i + 1);
      TabulatesAppend(c, outcomes[..i], expected, o);
      if IsConfiguration(o) {
        expected := AddDestination(c, o, DELIVERS_TO_BUCKET, expected);
        expected := AddDestination(c, o, ENCRYPTED_WITH, expected);
      }
    }
    assert outcomes[..|outcomes|] == outcomes;
  }

  /** The names of the trail edges met so far. */
  ghost predicate Seen(relationships: seq<Relationship>, seen: set<(string, string)>) {
    forall name :: name in seen <==> HasEdge(relationships, name)
  }

  lemma SeenAppend(relationships: seq<Relationship>, seen: set<(string, string)>, r: Relationship)
    requires Seen(relationships, seen) && EdgesDiffer(relationships)
    ensures !FromTrail(r) ==> Seen(relationships + [r], seen) && EdgesDiffer(relationships + [r])
    ensures FromTrail(r) && EndName(r) !in seen ==>
              Seen(relationships + [r], seen + {EndName(r)}) && EdgesDiffer(relationships + [r])
    ensures FromTrail(r) && EndName(r) in seen && r !in relationships ==> !EdgesDiffer(relationships + [r])
  {
    assert r in relationships + [r] && forall q :: q in relationships ==> q in relationships + [r];
    forall name ensures HasEdge(relationships + [r], name) <==>
        HasEdge(relationships, name) || (FromTrail(r) && EndName(r) == name)
    {
    }
    if FromTrail(r) {
      assert EndName(r) in seen <==> HasEdge(relationships, EndName(r));
    }
  }

  lemma EdgesDifferInPrefix(relationships: seq<Relationship>, i: nat)
    requires i <= |relationships|
    ensures EdgesDiffer(relationships) ==> EdgesDiffer(relationships[..i])
  {
  }

  /** Every trail edge answers to a destination, and every destination has its edge. */
  method CheckDestinations(
    c: Context, outcomes: seq<Outcome>, locations: Option<bool>, relationships: seq<Relationship>)
    returns (ok: bool)
    requires forall i, j :: 0 <= i < j < |outcomes| ==> outcomes[i] != outcomes[j]
    requires forall i, j :: 0 <= i < j < |relationships| ==> relationships[i] != relationships[j]
    requires SourcesDiffer(outcomes)
    ensures ok <==> TrailEdges(c, outcomes, locations, relationships)
  {
    hide Stands, SourcesDiffer, EndName, Expects;
    var expected := ExpectDestinations(c, outcomes);
    var seen: set<(string, string)> := {};
    for i := 0 to |relationships|
      invariant EdgesStand(c, outcomes, locations, relationships[..i])
      invariant EdgesDiffer(relationships[..i]) && Seen(relationships[..i], seen)
    {
      var r := relationships[i];
      assert r in relationships && r !in relationships[..i];
      assert relationships[..i + 1] == relationships[..i] + [r];
      SeenAppend(relationships[..i], seen, r);
      EdgesDifferInPrefix(relationships, i + 1);
      if FromTrail(r) {
        var name := EndName(r);
        if name in seen || name !in expected
           || !Stands(c, outcomes, locations, expected[name].0, expected[name].1, r) {
          return false;
        }
        assert Expects(c, outcomes, name, expected[name].0, expected[name].1);
        seen := seen + {name};
      }
    }
    assert relationships[..|relationships|] == relationships;
    AllExpectedSeen(c, outcomes, relationships, expected, seen);
    SeenExpected(c, outcomes, locations, relationships, expected, seen);
    ok := seen == expected.Keys;
  }

  lemma AllExpectedSeen(
    c: Context, outcomes: seq<Outcome>, relationships: seq<Relationship>,
    expected: map<(string, string), (Outcome, string)>, seen: set<(string, string)>)
    requires Tabulates(c, outcomes, expected) && Seen(relationships, seen)
    ensures expected.Keys <= seen <==>
              forall name, o, t :: Expects(c, outcomes, name, o, t) ==> HasEdge(relationships, name)
  {
    hide Expects, HasEdge;
    forall name | name in expected ensures Expects(c, outcomes, name, expected[name].0, expected[name].1) {
    }
  }

  lemma SeenExpected(
    c: Context, outcomes: seq<Outcome>, locations: Option<bool>, relationships: seq<Relationship>,
    expected: map<(string, string), (Outcome, string)>, seen: set<(string, string)>)
    requires Tabulates(c, outcomes, expected) && Seen(relationships, seen)
    requires EdgesStand(c, outcomes, locations, relationships)
    ensures seen <= expected.Keys
  {
    hide Expects, Stands;
    forall name | name in seen ensures name in expected {
      var r :| r in relationships && FromTrail(r) && EndName(r) == name;
      var o, t :| Expects(c, outcomes, EndName(r), o, t) && Stands(c, outcomes, locations, o, t, r);
    }
  }
}
