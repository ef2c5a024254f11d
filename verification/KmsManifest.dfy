/**
 The S3-to-KMS edge manifest: every explicit key reference in PRESENT encryption evidence, and
 nothing else, gives an edge.
 */
module KmsManifest {
  import opened Wrappers
  import opened Ordering
  import opened Identities
  import opened JsonValues
  import opened Evidence
  import S3Encryption

  const ENCRYPTED_WITH: RelationshipType := "encrypted_with"

  /** What the checks read besides the records: digests, JSON text, and shape checks kept abstract. */
  datatype Context = Context(
    h: Hashes,
    sha256: string -> string,
    json: Json -> string,
    isKeyShape: Json -> bool,
    scan: Uuid,
    account: string,
    artifacts: map<string, Artifact>)

  // ----- Reading one record -----

  predicate IsLowerAlnum(s: string) {
    s != "" && forall i :: 0 <= i < |s| ==> 'a' <= s[i] <= 'z' || '0' <= s[i] <= '9'
  }

  predicate IsDigits(s: string) {
    s != "" && forall i :: 0 <= i < |s| ==> '0' <= s[i] <= '9'
  }

  /** At least three groups of lower-case letters and digits, the last one a number. */
  predicate IsRegion(s: string) {
    var groups := Split(s, '-', |s|);
    |groups| >= 3 && (forall g :: g in groups ==> IsLowerAlnum(g)) && IsDigits(groups[|groups| - 1])
  }

  predicate IsEncryption(o: Outcome) {
    o.collector == "s3.bucket-encryption"
  }

  predicate IsKeySource(o: Outcome) {
    o.collector == "kms.keys"
  }

  predicate Bound(c: Context, o: Outcome, schema: string) {
    && o.reference in c.artifacts
    && var a := c.artifacts[o.reference];
    && a.schema == schema && a.schemaVersion == "1.0.0"
    && a.scan == o.scan && a.account == o.account && a.collectedAt == o.collectedAt && a.sha == o.sha
  }

  function Payload(c: Context, o: Outcome): Json {
    if o.reference in c.artifacts then c.artifacts[o.reference].payload else Null
  }

  function Field(c: Context, o: Outcome, key: string): Json {
    Get(Payload(c, o), key)
  }

  function PartitionOf(bucketArn: string, bucket: string): Option<string> {
    var parts := Split(bucketArn, ':', 5);
    if |parts| == 6 && parts[0] == "arn" && parts[1] != "" && parts[2..] == ["s3", "", "", bucket]
    then Some(parts[1]) else None
  }

  predicate StartsWith(s: string, prefix: string) {
    prefix <= s
  }

  /** `alias/...` or `key/...` with something behind the slash. */
  predicate NamesKey(resource: string) {
    var parts := Split(resource, '/', 1);
    |parts| == 2 && parts[0] in {"alias", "key"} && parts[1] != ""
  }

  predicate KeyArn(reference: string, partition: string) {
    var parts := Split(reference, ':', 5);
    && |parts| == 6 && parts[..3] == ["arn", partition, "kms"] && parts[3] != ""
    && IsAccount(parts[4]) && NamesKey(parts[5])
  }

  /** The Region a reference is looked up in: the ARN's own, otherwise the bucket's. */
  function LookupRegion(reference: string, bucketRegion: string, partition: string): Option<string> {
    if !SafeText(Text(reference)) then None
    else if !StartsWith(reference, "arn:") then Some(bucketRegion)
    else if KeyArn(reference, partition) then Some(Split(reference, ':', 5)[3])
    else None
  }

  function KeyKind(c: Context, region: string, reference: string): string {
    "kms.key." + c.sha256(region + "\0" + reference)
  }

  // ----- References -----

  datatype Pair = Pair(outcome: Outcome, reference: string)

  type EdgeOf = Pair -> Option<Relationship>

  function PartitionFor(c: Context, o: Outcome): Option<string> {
    if Field(c, o, "bucket_arn").Text? && o.subject.ResourceSubject?
    then PartitionOf(Field(c, o, "bucket_arn").text, o.subject.resource.resourceId) else None
  }

  function RegionFor(c: Context, p: Pair): Option<string> {
    if p.outcome.subject.ResourceSubject? && p.outcome.subject.resource.region.Some? && PartitionFor(c, p.outcome).Some?
    then LookupRegion(p.reference, p.outcome.subject.resource.region.value, PartitionFor(c, p.outcome).value)
    else None
  }

  function KindFor(c: Context, p: Pair): string {
    if RegionFor(c, p).Some? then KeyKind(c, RegionFor(c, p).value, p.reference) else ""
  }

  function KindsOf(c: Context): Pair -> string {
    (p: Pair) => KindFor(c, p)
  }

  function BucketOf(p: Pair): string {
    if p.outcome.subject.ResourceSubject? then p.outcome.subject.resource.resourceId else ""
  }

  function PairsOf(c: Context, o: Outcome): seq<Pair> {
    if IsEncryption(o) && o.state == PRESENT
    then Map(r => Pair(o, r), SortedText(S3Encryption.References(Field(c, o, "value"))))
    else []
  }

  /** Every (bucket observation, key reference) pair, in the order both passes visit them. */
  function Pairs(c: Context, outcomes: seq<Outcome>): seq<Pair> {
    if outcomes == [] then []
    else Pairs(c, outcomes[..|outcomes| - 1]) + PairsOf(c, outcomes[|outcomes| - 1])
  }

  /** The pairs are exactly the explicit references of the PRESENT encryption observations. */
  lemma {:induction false} PairsAreReferences(c: Context, outcomes: seq<Outcome>, p: Pair)
    ensures p in Pairs(c, outcomes) <==>
              && p.outcome in outcomes && IsEncryption(p.outcome) && p.outcome.state == PRESENT
              && p.reference in S3Encryption.References(Field(c, p.outcome, "value"))
  {
    hide PairsOf;
    if outcomes != [] {
      var init, last := outcomes[..|outcomes| - 1], outcomes[|outcomes| - 1];
      assert outcomes == init + [last];
      PairsAreReferences(c, init, p);
      PairsOfMembers(c, last, p);
    }
  }

  lemma PairsOfMembers(c: Context, o: Outcome, p: Pair)
    ensures p in PairsOf(c, o) <==>
              && p.outcome == o && IsEncryption(o) && o.state == PRESENT
              && p.reference in S3Encryption.References(Field(c, o, "value"))
  {
    var names := SortedText(S3Encryption.References(Field(c, o, "value")));
    SortedTextLists(S3Encryption.References(Field(c, o, "value")));
    if p.outcome == o && IsEncryption(o) && o.state == PRESENT && p.reference in names {
      var i :| 0 <= i < |names| && names[i] == p.reference;
      assert PairsOf(c, o)[i] == p;
    }
  }

  predicate ReadableBucket(c: Context, o: Outcome) {
    && o.subject.ResourceSubject? && o.subject.resource.region.Some?
    && (o.state == PRESENT ==>
          && Bound(c, o, "s3.bucket-encryption")
          && PartitionFor(c, o).Some?
          && S3Encryption.Canonical(c.json, Field(c, o, "value"))
          && forall r :: r in S3Encryption.References(Field(c, o, "value")) ==> RegionFor(c, Pair(o, r)).Some?)
  }

  /** The buckets whose PRESENT encryption evidence carries a reference of this kind. */
  function SourceBuckets(kindOf: Pair -> string, pairs: seq<Pair>, kind: string): set<string> {
    set p | p in pairs && kindOf(p) == kind :: BucketOf(p)
  }

  /** The last encryption subject of each bucket name. */
  function BucketSubjects(outcomes: seq<Outcome>): map<string, Subject> {
    if outcomes == [] then map[]
    else
      var last := outcomes[|outcomes| - 1];
      var before := BucketSubjects(outcomes[..|outcomes| - 1]);
      if IsEncryption(last) && last.subject.ResourceSubject?
      then before[last.subject.resource.resourceId := last.subject]
      else before
  }

  // ----- DescribeKey observations -----

  const KEY_PAYLOAD: set<string> :=
    {"region", "supplied_reference", "source_bucket_names", "key", "complete", "failure_category"}

  predicate CompletionAgrees(c: Context, o: Outcome) {
    && Field(c, o, "complete") == Bool(o.state in {PRESENT, EXPECTED_ABSENCE})
    && Field(c, o, "failure_category") == if o.failure.Some? then Text(o.failure.value) else Null
  }

  /** The identity part of a DescribeKey value: a consistent key ARN. */
  predicate KeyIdentity(key: Json) {
    && Get(key, "aws_account_id").Text? && IsAccount(Get(key, "aws_account_id").text)
    && SafeText(Get(key, "region")) && SafeText(Get(key, "key_id")) && SafeText(Get(key, "arn"))
    && var parts := Split(Get(key, "arn").text, ':', 5);
    && |parts| == 6 && parts[0] == "arn" && parts[1] != ""
    && parts[2..] == ["kms", Get(key, "region").text, Get(key, "aws_account_id").text, "key/" + Get(key, "key_id").text]
  }

  predicate KeyValue(c: Context, o: Outcome) {
    var key := Field(c, o, "key");
    if o.state == PRESENT then key.Object? && c.isKeyShape(key) && KeyIdentity(key) else key.Null?
  }

  function Texts(names: seq<string>): seq<Json> {
    Map(s => Text(s), names)
  }

  predicate KeySourceOk(c: Context, o: Outcome, buckets: set<string>, subjects: map<string, Subject>) {
    && o.state in {PRESENT, UNAVAILABLE, MALFORMED, CONFLICT}
    && Bound(c, o, "kms.key")
    && Payload(c, o).Object? && Payload(c, o).fields.Keys == KEY_PAYLOAD
    && CompletionAgrees(c, o)
    && Field(c, o, "region").Text? && IsRegion(Field(c, o, "region").text)
    && SafeText(Field(c, o, "supplied_reference"))
    && buckets != {}
    && Field(c, o, "source_bucket_names") == List(Texts(SortedText(buckets)))
    && o.evidenceKind == KeyKind(c, Field(c, o, "region").text, Field(c, o, "supplied_reference").text)
    && (o.state != PRESENT ==>
          && SortedText(buckets) != [] && SortedText(buckets)[0] in subjects
          && o.subject == subjects[SortedText(buckets)[0]])
    && KeyValue(c, o)
  }

  /** A PRESENT observation of a KMS key resource. */
  predicate IsKeyProof(o: Outcome) {
    && IsKeySource(o) && o.state == PRESENT && o.subject.ResourceSubject?
    && o.subject.resource.service == "kms" && o.subject.resource.resourceType == "kms_key"
    && o.subject.resource.region.Some?
  }

  function KeyName(r: Resource): (string, string) {
    (if r.region.Some? then r.region.value else "", r.resourceId)
  }

  function KeyOf(c: Context): Outcome -> Json {
    (o: Outcome) => Field(c, o, "key")
  }

  /** Two proofs of one canonical key carry the same value. */
  ghost predicate KeysAgree(value: Outcome -> Json, outcomes: seq<Outcome>) {
    forall o, p :: o in outcomes && p in outcomes && IsKeyProof(o) && IsKeyProof(p) ==>
      KeyName(o.subject.resource) == KeyName(p.subject.resource) ==> value(o) == value(p)
  }

  /** The DescribeKey observations of one evidence kind, in order. */
  function Describing(outcomes: seq<Outcome>, kind: string): seq<Outcome> {
    if outcomes == [] then []
    else
      var last := outcomes[|outcomes| - 1];
      Describing(outcomes[..|outcomes| - 1], kind)
      + if IsKeySource(last) && last.evidenceKind == kind then [last] else []
  }

  /** The proved keys of one Region and resource identifier, by snapshot. */
  function Candidates(c: Context, outcomes: seq<Outcome>, name: (string, string)): map<Uuid, Resource> {
    if outcomes == [] then map[]
    else
      var last := outcomes[|outcomes| - 1];
      var before := Candidates(c, outcomes[..|outcomes| - 1], name);
      if IsKeyProof(last) && KeyName(last.subject.resource) == name
      then before[SnapshotId(c.h, c.scan, last.subject.resource) := last.subject.resource]
      else before
  }

  // ----- Edges -----

  predicate MatchesKey(c: Context, reference: string, region: string, partition: string, key: Json) {
    && Get(key, "arn").Text? && Get(key, "key_id").Text? && Get(key, "aws_account_id").Text?
    && reference != "" && region != "" && c.account != "" && partition != ""
    && SafeText(Text(reference)) && SafeText(Text(region)) && SafeText(Text(partition))
    && SafeText(Get(key, "arn")) && SafeText(Get(key, "key_id"))
    && IsAccount(c.account) && IsAccount(Get(key, "aws_account_id").text)
    && Split(Get(key, "arn").text, ':', 5)
       == ["arn", partition, "kms", region, Get(key, "aws_account_id").text, "key/" + Get(key, "key_id").text]
    && if StartsWith(reference, "arn:") then
         && KeyArn(reference, partition)
         && Split(reference, ':', 5)[3] == region
         && Split(reference, ':', 5)[4] == Get(key, "aws_account_id").text
         && (Split(Split(reference, ':', 5)[5], '/', 1)[0] == "alias" || reference == Get(key, "arn").text)
       else
         && Get(key, "aws_account_id").text == c.account
         && if StartsWith(reference, "alias/") then |reference| > |"alias/"| else reference == Get(key, "key_id").text
  }

  /** The one DescribeKey observation of a pair speaks about that pair. */
  predicate Describes(c: Context, d: Outcome, p: Pair, region: string) {
    && d.sourceApi == "kms:DescribeKey" && d.collectorVersion == "1.0.0"
    && Bound(c, d, "kms.key")
    && Field(c, d, "region") == Text(region)
    && Field(c, d, "supplied_reference") == Text(p.reference)
    && Text(BucketOf(p)) in Items(Field(c, d, "source_bucket_names"))
  }

  function Only(candidates: map<Uuid, Resource>): (r: Resource)
    requires |candidates| == 1
    ensures r in candidates.Values
  {
    OnlyOne(candidates);
    var u :| u in candidates;
    candidates[u]
  }

  lemma OnlyOne(candidates: map<Uuid, Resource>)
    requires |candidates| == 1
    ensures exists u: Uuid :: u in candidates
    ensures forall u, v :: u in candidates && v in candidates ==> u == v
  {
    assert |candidates.Keys| == 1;
    var u :| u in candidates.Keys;
    assert candidates.Keys == {u} by {
      assert |candidates.Keys - {u}| == 0;
    }
  }

  /** The key a PRESENT observation proved, once its identity agrees with the reference. */
  function ProvedTarget(c: Context, d: Outcome, p: Pair, region: string): Option<Target> {
    var key := Field(c, d, "key");
    if && d.subject.ResourceSubject?
       && d.subject.resource.service == "kms" && d.subject.resource.resourceType == "kms_key"
       && d.subject.resource.region == Some(region)
       && Text(d.subject.resource.resourceId) == Get(key, "arn")
       && Text(d.subject.resource.account) == Get(key, "aws_account_id")
       && PartitionFor(c, p.outcome).Some?
       && MatchesKey(c, p.reference, region, PartitionFor(c, p.outcome).value, key)
    then Some(Stable(d.subject.resource)) else None
  }

  function UnprovedTarget(region: string, reference: string): Target {
    Unresolved(PartialTarget(None, "kms", "kms_key", reference, Some(REGIONAL), Some(region)))
  }

  function TargetOver(
    c: Context, d: Outcome, candidates: map<Uuid, Resource>, p: Pair, region: string): Option<Target>
  {
    if d.state == PRESENT then ProvedTarget(c, d, p, region)
    else if |candidates| > 1 then None
    else if |candidates| == 1 then Some(Stable(Only(candidates)))
    else Some(UnprovedTarget(region, p.reference))
  }

  predicate IsBucket(r: Resource) {
    r.service == "s3" && r.resourceType == "s3_bucket"
  }

  predicate IsS3Kms(r: Relationship) {
    && r.edge.kind == ENCRYPTED_WITH && IsBucket(r.edge.source)
    && (match r.edge.target
        case Stable(t) => t.service == "kms" && t.resourceType == "kms_key"
        case Unresolved(t) => t.service == "kms" && t.resourceType == "kms_key")
  }

  function EdgeTo(c: Context, p: Pair, target: Target): Relationship
    requires p.outcome.subject.ResourceSubject?
  {
    Relationship(
      c.account,
      Edge(c.scan, p.outcome.subject.resource, ENCRYPTED_WITH, target),
      if target.Stable? then RESOLVED else TARGET_IDENTITY_INCOMPLETE,
      ProvenanceOf(p.outcome))
  }

  /** The direction table lets only a bucket or a trail be encrypted with a key. */
  predicate MayBeEncrypted(r: Resource) {
    (r.service, r.resourceType) in {("s3", "s3_bucket"), ("cloudtrail", "cloudtrail_trail")}
  }

  /** The pair has a proper source and a Region to look its reference up in. */
  predicate Locatable(c: Context, p: Pair) {
    p.outcome.subject.ResourceSubject? && MayBeEncrypted(p.outcome.subject.resource) && RegionFor(c, p).Some?
  }

  /** The edge of a pair, given the DescribeKey observations and proved keys its reference finds. */
  function EdgeOver(c: Context, p: Pair, described: seq<Outcome>, candidates: map<Uuid, Resource>): Option<Relationship>
    requires Locatable(c, p)
  {
    if |described| != 1 || !Describes(c, described[0], p, RegionFor(c, p).value) then None
    else
      var target := TargetOver(c, described[0], candidates, p, RegionFor(c, p).value);
      if target.None? then None else Some(EdgeTo(c, p, target.value))
  }

  function NameFor(c: Context, p: Pair): (string, string)
    requires Locatable(c, p)
  {
    (RegionFor(c, p).value, p.reference)
  }

  /** The edge one pair stands for; None where the manifest is refused because of it. */
  function EdgeFor(c: Context, outcomes: seq<Outcome>, p: Pair): Option<Relationship> {
    if Locatable(c, p)
    then EdgeOver(c, p, Describing(outcomes, KindFor(c, p)), Candidates(c, outcomes, NameFor(c, p)))
    else None
  }

  // ----- The manifest -----

  /** The manifest is checked only when the scan discovered buckets. */
  predicate Applies(outcomes: seq<Outcome>) {
    exists o :: o in outcomes && o.collector == "s3.buckets" && o.evidenceKind == "s3.buckets.discovery"
  }

  /** The value each state may retain. */
  predicate AllowedValue(c: Context, o: Outcome) {
    var value := Field(c, o, "value");
    && Bound(c, o, "s3.bucket-encryption")
    && (o.state == PRESENT ==> S3Encryption.Canonical(c.json, value))
    && (o.state == MALFORMED ==> value.Null? || S3Encryption.Canonical(c.json, value))
    && (o.state !in {PRESENT, MALFORMED} ==> value.Null?)
  }

  ghost predicate BucketsReadable(c: Context, outcomes: seq<Outcome>) {
    forall o :: o in outcomes && IsEncryption(o) ==> ReadableBucket(c, o)
  }

  ghost predicate ValuesAllowed(c: Context, outcomes: seq<Outcome>) {
    forall o :: o in outcomes && IsEncryption(o) ==> AllowedValue(c, o)
  }

  /** The DescribeKey evidence names exactly the buckets that refer to its key, and so on. */
  function KeySourceCheck(c: Context, outcomes: seq<Outcome>): Outcome -> bool {
    (o: Outcome) => KeySourceOk(c, o, SourceBuckets(KindsOf(c), Pairs(c, outcomes), o.evidenceKind),
        BucketSubjects(outcomes))
  }

  ghost predicate KeySourcesOk(check: Outcome -> bool, outcomes: seq<Outcome>) {
    forall o :: o in outcomes && IsKeySource(o) ==> check(o)
  }

  function IdsOf(c: Context): Relationship -> Uuid {
    (r: Relationship) => ObservationId(c.h, r.edge)
  }

  function EdgesOf(c: Context, outcomes: seq<Outcome>): EdgeOf {
    (p: Pair) => EdgeFor(c, outcomes, p)
  }

  /** Every pair stands for an edge, and pairs that meet in one observation stand for the same one. */
  ghost predicate PairsFit(edge: EdgeOf, id: Relationship -> Uuid, pairs: seq<Pair>) {
    && (forall p :: p in pairs ==> edge(p).Some?)
    && (forall p, q :: p in pairs && q in pairs && id(edge(p).value) == id(edge(q).value) ==> edge(p) == edge(q))
  }

  function Observing(id: Relationship -> Uuid, k: Uuid): Relationship -> bool {
    (r: Relationship) => IsS3Kms(r) && id(r) == k
  }

  function Standing(edge: EdgeOf, id: Relationship -> Uuid, k: Uuid): Pair -> bool {
    (p: Pair) => edge(p).Some? && id(edge(p).value) == k
  }

  /** No edge was submitted more often than there are references for it. */
  ghost predicate NoSurplus(edge: EdgeOf, id: Relationship -> Uuid, pairs: seq<Pair>, raw: seq<Relationship>) {
    forall k :: (exists r :: r in raw && IsS3Kms(r) && id(r) == k) ==>
      Count(raw, Observing(id, k)) <= Count(pairs, Standing(edge, id, k))
  }

  /** The stored S3-to-KMS edges are the image of the pairs: none missing, none extra. */
  ghost predicate EdgesAreImage(edge: EdgeOf, pairs: seq<Pair>, relationships: seq<Relationship>) {
    && (forall r :: r in relationships && IsS3Kms(r) ==> exists p :: p in pairs && edge(p) == Some(r))
    && (forall p :: p in pairs && edge(p).Some? ==> edge(p).value in relationships && IsS3Kms(edge(p).value))
  }

  ghost predicate Holds(
    c: Context, outcomes: seq<Outcome>, relationships: seq<Relationship>, raw: seq<Relationship>)
  {
    Applies(outcomes) ==>
      && BucketsReadable(c, outcomes)
      && KeySourcesOk(KeySourceCheck(c, outcomes), outcomes) && KeysAgree(KeyOf(c), outcomes)
      && ValuesAllowed(c, outcomes)
      && PairsFit(EdgesOf(c, outcomes), IdsOf(c), Pairs(c, outcomes))
      && NoSurplus(EdgesOf(c, outcomes), IdsOf(c), Pairs(c, outcomes), raw)
      && EdgesAreImage(EdgesOf(c, outcomes), Pairs(c, outcomes), relationships)
  }
}
