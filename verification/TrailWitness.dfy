/**
 A scan of one trail with all its sources: the validator constructs its graph, and refuses the same
 submission with the trail's only edge repeated.
 */
module TrailWitness {
  import opened Wrappers
  import opened Ordering
  import opened Identities
  import opened JsonValues
  import opened Evidence
  import opened Records
  import opened KmsManifest
  import opened TrailManifest
  import opened GraphAcceptance
  import opened GraphMeaning
  import opened Numbered

  const ACCOUNT := "111111111111"

  // ----- Text in pieces -----

  function Colon(a: string, b: string): string {
    a + [':'] + b
  }

  function Dash(a: string, b: string): string {
    a + ['-'] + b
  }

  function HomeRegion(): string {
    Dash("eu", Dash("west", "1"))
  }

  function TrailArn(): string {
    Colon("arn", Colon("aws", Colon("cloudtrail", Colon(HomeRegion(), Colon(ACCOUNT, "trail/main")))))
  }

  function Parts(): ArnParts {
    ArnParts("aws", HomeRegion(), ACCOUNT, "main")
  }

  lemma {:induction false} IndexIs(s: string, sep: char, i: nat)
    requires i < |s| && s[i] == sep && forall j :: 0 <= j < i ==> s[j] != sep
    ensures sep in s && IndexOf(s, sep) == i
  {
    if i > 0 {
      assert s[1..][i - 1] == sep;
      IndexIs(s[1..], sep, i - 1);
    }
  }

  lemma SplitsFirst(a: string, sep: char, b: string, max: nat)
    requires sep !in a && max > 0
    ensures Split(a + [sep] + b, sep, max) == [a] + Split(b, sep, max - 1)
  {
    var s := a + [sep] + b;
    assert s[|a|] == sep;
    IndexIs(s, sep, |a|);
    assert s[..|a|] == a && s[|a| + 1..] == b;
  }

  lemma SplitsColon(a: string, rest: string, max: nat)
    requires ':' !in a && max > 0
    ensures Split(Colon(a, rest), ':', max) == [a] + Split(rest, ':', max - 1)
  {
    SplitsFirst(a, ':', rest, max);
  }

  function SixOf(a: string, b: string, c: string, d: string, e: string, f: string): seq<string> {
    [a] + ([b] + ([c] + ([d] + ([e] + [f]))))
  }

  lemma SixParts(a: string, b: string, c: string, d: string, e: string, f: string)
    requires ':' !in a && ':' !in b && ':' !in c && ':' !in d && ':' !in e
    ensures Split(Colon(a, Colon(b, Colon(c, Colon(d, Colon(e, f))))), ':', 5) == SixOf(a, b, c, d, e, f)
  {
    assert Split(f, ':', 0) == [f];
    hide Colon, Split;
    SplitsColon(e, f, 1);
    SplitsColon(d, Colon(e, f), 2);
    SplitsColon(c, Colon(d, Colon(e, f)), 3);
    SplitsColon(b, Colon(c, Colon(d, Colon(e, f))), 4);
    SplitsColon(a, Colon(b, Colon(c, Colon(d, Colon(e, f)))), 5);
  }

  lemma SixIndexed(a: string, b: string, c: string, d: string, e: string, f: string)
    ensures var parts := SixOf(a, b, c, d, e, f);
            && |parts| == 6 && parts[0] == a && parts[1] == b && parts[2] == c
            && parts[3] == d && parts[4] == e && parts[5] == f
  {
  }

  lemma SplitsAtDash(a: string, rest: string, max: nat)
    requires '-' !in a && max > 0
    ensures Split(Dash(a, rest), '-', max) == [a] + Split(rest, '-', max - 1)
  {
    SplitsFirst(a, '-', rest, max);
  }

  lemma SplitsDashes(a: string, b: string, c: string, max: nat)
    requires '-' !in a && '-' !in b && '-' !in c && max > 1
    ensures Split(Dash(a, Dash(b, c)), '-', max) == [a, b, c]
  {
    assert Split(c, '-', max - 2) == [c];
    hide Split, Dash;
    var rest := Dash(b, c);
    assert Split(rest, '-', max - 1) == [b, c] by {
      SplitsAtDash(b, c, max - 1);
    }
    SplitsAtDash(a, rest, max);
  }

  lemma RegionSplits()
    ensures IsRegion(HomeRegion()) && ':' !in HomeRegion()
  {
    hide Split;
    SplitsDashes("eu", "west", "1", |HomeRegion()|);
  }

  lemma ArnSplits()
    ensures Split(TrailArn(), ':', 5) == SixOf("arn", "aws", "cloudtrail", HomeRegion(), ACCOUNT, "trail/main")
  {
    hide Split, Colon, HomeRegion, ACCOUNT, SixOf;
    RegionSplits();
    AccountPlainly();
    SixParts("arn", "aws", "cloudtrail", HomeRegion(), ACCOUNT, "trail/main");
  }

  lemma AccountPlainly()
    ensures ':' !in ACCOUNT && Clean(ACCOUNT)
  {
  }

  lemma NoDots(s: string)
    requires '.' !in s
    ensures !IsAddress(s)
  {
    hide IsDigits;
    assert Split(s, '.', 3) == [s];
  }

  lemma NameFits()
    ensures IsTrailName("main")
  {
    hide IsAddress;
    NoDots("main");
  }

  lemma OwnerFits()
    ensures IsAccount(ACCOUNT) && IsPartition("aws")
  {
    hide Split;
    assert |ACCOUNT| == 12 && "aws" <= "aws";
  }

  lemma ArnParses()
    ensures ParseTrail(TrailArn()) == Some(Parts())
  {
    hide IsRegion, IsTrailName, IsAccount, IsPartition, Split, TrailArn, HomeRegion, SixOf;
    SixIndexed("arn", "aws", "cloudtrail", HomeRegion(), ACCOUNT, "trail/main");
    RegionSplits();
    ArnSplits();
    NameFits();
    OwnerFits();
    assert "trail/main" == "trail/" + "main";
    assert ParseArn(TrailArn(), "cloudtrail", "trail/") == Some(Parts());
  }

  predicate Clean(s: string) {
    '\0' !in s && SEPARATOR !in s && '\r' !in s && '\n' !in s
  }

  lemma CleanColon(a: string, b: string)
    requires Clean(a) && Clean(b)
    ensures Clean(Colon(a, b))
  {
  }

  lemma LongerThan(a: string, b: string)
    ensures |Colon(a, b)| > |a|
  {
  }

  lemma ArnIsSafe()
    ensures SafeText(Text(TrailArn())) && Plain(TrailArn())
  {
    hide Colon, HomeRegion, ACCOUNT;
    AccountPlainly();
    assert Clean(HomeRegion()) by {
      RegionClean();
    }
    CleanColon(ACCOUNT, "trail/main");
    CleanColon(HomeRegion(), Colon(ACCOUNT, "trail/main"));
    CleanColon("cloudtrail", Colon(HomeRegion(), Colon(ACCOUNT, "trail/main")));
    CleanColon("aws", Colon("cloudtrail", Colon(HomeRegion(), Colon(ACCOUNT, "trail/main"))));
    CleanColon("arn", Colon("aws", Colon("cloudtrail", Colon(HomeRegion(), Colon(ACCOUNT, "trail/main")))));
    assert TrailArn() != "" by {
      LongerThan("arn", Colon("aws", Colon("cloudtrail", Colon(HomeRegion(), Colon(ACCOUNT, "trail/main")))));
    }
  }

  lemma RegionClean()
    ensures Clean(HomeRegion())
  {
  }

  // ----- One trail and its six sources -----

  function TrailOf(): Resource {
    TrailResource(TrailArn(), Parts())
  }

  function KindAt(k: nat): string {
    if k == 0 then DISCOVERY_KIND
    else if k == 1 then IDENTITY_KIND
    else if k == 2 then CONFIGURATION_KIND
    else if k == 3 then STATUS_KIND
    else if k == 4 then SELECTORS_KIND
    else TAGS_KIND
  }

  lemma KindsKnown(k: nat)
    ensures ShapeOf(KindAt(k)).Some?
  {
  }

  function ShapeAt(k: nat): SourceShape {
    KindsKnown(k);
    ShapeOf(KindAt(k)).value
  }

  function SubjectAt(k: nat): Subject {
    if k == 0 then AccountSubject(ACCOUNT, GLOBAL, None) else ResourceSubject(TrailOf())
  }

  /** Only what the trail's edge needs was readable. */
  function StateAt(k: nat): SourceState {
    if k < 3 then PRESENT else UNAVAILABLE
  }

  function FailureAt(k: nat): Option<string> {
    if k < 3 then None else Some("ACCESS_DENIED")
  }

  function FailureJson(k: nat): Json {
    if k < 3 then Null else Text("ACCESS_DENIED")
  }

  function ConfigurationJson(): Json {
    Object(map[
      "name" := Text("main"), "s3_bucket_name" := Text("logs"), "s3_key_prefix" := Null,
      "include_global_service_events" := Bool(true), "is_multi_region_trail" := Bool(true),
      "log_file_validation_enabled" := Bool(true), "cloudwatch_logs_log_group_arn" := Null,
      "cloudwatch_logs_role_arn" := Null, "kms_key_id" := Null, "is_organization_trail" := Bool(false)])
  }

  function DiscoveryJson(): Json {
    Object(map[
      "collection_account_id" := Text(ACCOUNT), "invocation_region" := Text(HomeRegion()),
      "trail_arns" := List([Text(TrailArn())]), "trail_count" := Number(1), "discarded_item_count" := Number(0),
      "admission_complete" := Bool(true), "unadmitted_resources" := List([]),
      "complete" := Bool(true), "failure_category" := Null])
  }

  function IdentityJson(): Json {
    Object(map[
      "collection_account_id" := Text(ACCOUNT), "owner_account_id" := Text(ACCOUNT), "partition" := Text("aws"),
      "trail_arn" := Text(TrailArn()), "name" := Text("main"), "home_region" := Text(HomeRegion()),
      "complete" := Bool(true), "failure_category" := Null])
  }

  function EnrichmentJson(k: nat): Json {
    Object(map[
      "trail_arn" := Text(TrailArn()), "home_region" := Text(HomeRegion()),
      "value" := if k == 2 then ConfigurationJson() else Null,
      "complete" := Bool(k == 2), "failure_category" := FailureJson(k)])
  }

  function PayloadAt(k: nat): Json {
    if k == 0 then DiscoveryJson() else if k == 1 then IdentityJson() else EnrichmentJson(k)
  }

  function Sha(): string {
    seq(64, _ => 'a')
  }

  function ContractAt(k: nat): Contract {
    Contract(k, 0, ACCOUNT, KindAt(k), "1.0.0", ShapeAt(k).phase, SubjectAt(k), KindAt(k), ShapeAt(k).collector,
             "1.0.0", ShapeAt(k).api, ShapeAt(k).single, COLLECTION_ACCOUNT, ShapeAt(k).authoritative, false)
  }

  function OutcomeAt(k: nat): Outcome {
    Outcome(k, 0, ACCOUNT, ShapeAt(k).phase, SubjectAt(k), KindAt(k), StateAt(k), FailureAt(k), ShapeAt(k).collector,
            "1.0.0", ShapeAt(k).api, 0, ReferenceAt(k), Sha())
  }

  function ArtifactAt(k: nat): Artifact {
    Artifact(k, 0, ACCOUNT, ReferenceAt(k), Sha(), KindAt(k), "1.0.0", 0, PayloadAt(k))
  }

  /** The trail delivers to a bucket whose owner and Region are not known. */
  function TrailEdge(): Relationship {
    Relationship(
      ACCOUNT,
      Edge(0, TrailOf(), DELIVERS_TO_BUCKET,
           Unresolved(PartialTarget(None, "s3", "s3_bucket", "logs", Some(REGIONAL), None))),
      TARGET_IDENTITY_INCOMPLETE, ProvenanceOf(OutcomeAt(2)))
  }

  function TrailGraph(): Graph {
    Graph(0, ACCOUNT, 0, seq(6, (k: nat) => ContractAt(k)), seq(6, (k: nat) => ArtifactAt(k)),
          seq(6, (k: nat) => OutcomeAt(k)), [TrailEdge()])
  }

  lemma TrailInLines(g: Graph)
    requires g == TrailGraph()
    ensures InLines(g)
  {
    hide KindAt, ShapeAt, SubjectAt, StateAt, PayloadAt, ReferenceAt, Sha;
    forall k | 0 <= k < |g.contracts| ensures InLine(g, k) {
      assert g.contracts[k] == ContractAt(k) && g.outcomes[k] == OutcomeAt(k) && g.artifacts[k] == ArtifactAt(k);
    }
  }

  lemma TrailProvenanced(g: Graph)
    requires g == TrailGraph()
    ensures Provenanced(g)
  {
    hide InLines, Provenanced, KindAt, ShapeAt;
    TrailInLines(g);
    forall r | r in g.relationships ensures EdgeOfGraph(g, r) && exists k: nat :: CitesNumber(g, r, k) {
      assert r == TrailEdge() && g.outcomes[2] == OutcomeAt(2);
      assert CitesNumber(g, r, 2);
    }
    NumberedIsProvenanced(g);
  }

  // ----- Reading the sources -----

  lemma {:induction false} ReferencesFind(artifacts: seq<Artifact>)
    requires forall k :: 0 <= k < |artifacts| ==> artifacts[k].reference == ReferenceAt(k)
    ensures forall k :: 0 <= k < |artifacts| ==>
              ReferenceAt(k) in ByReference(artifacts) && ByReference(artifacts)[ReferenceAt(k)] == artifacts[k]
  {
    if artifacts != [] {
      var last := |artifacts| - 1;
      ReferencesFind(artifacts[..last]);
      forall k | 0 <= k < |artifacts|
        ensures ReferenceAt(k) in ByReference(artifacts) && ByReference(artifacts)[ReferenceAt(k)] == artifacts[k]
      {
        ReferenceDiffers(k, last);
      }
    }
  }

  lemma SourceRead(s: Settings, g: Graph, k: nat)
    requires g == TrailGraph() && k < 6
    ensures Payload(ContextOf(s, g), OutcomeAt(k)) == PayloadAt(k)
    ensures Bound(ContextOf(s, g), OutcomeAt(k), KindAt(k))
  {
    hide KindAt, ShapeAt, SubjectAt, StateAt, PayloadAt, ReferenceAt, Sha;
    assert forall j :: 0 <= j < |g.artifacts| ==> g.artifacts[j] == ArtifactAt(j);
    ReferencesFind(g.artifacts);
  }

  lemma SourceDeclared(g: Graph, k: nat)
    requires g == TrailGraph() && k < 6
    ensures k in ById(ContractId(), g.contracts) && ById(ContractId(), g.contracts)[k] == ContractAt(k)
    ensures SourceIdentity(ContractAt(k), OutcomeAt(k), ACCOUNT)
  {
    assert SourceIdentity(ContractAt(k), OutcomeAt(k), ACCOUNT) by {
      IdentityAt(k);
    }
    hide KindAt, ShapeAt, SubjectAt, SourceIdentity;
    assert forall j :: 0 <= j < |g.contracts| ==> g.contracts[j] == ContractAt(j);
    ByIdFinds(ContractId(), g.contracts);
    assert g.contracts[k] in g.contracts;
  }

  lemma IdentityAt(k: nat)
    ensures SourceIdentity(ContractAt(k), OutcomeAt(k), ACCOUNT)
  {
    hide KindAt, ShapeOf, SubjectAt;
    KindsKnown(k);
  }

  // ----- The manifest holds -----

  lemma OneText(name: string)
    requires SafeText(Text(name))
    ensures SafeNames(List([Text(name)])) && TextsIn(List([Text(name)])) == {name}
  {
    var j := List([Text(name)]);
    assert Text(name) in j.items;
    assert TextsIn(j) == {name};
    SortedOne(name);
  }

  lemma SortedOne(name: string)
    ensures SortedText({name}) == [name]
  {
    LeastTextExists({name});
    assert {name} - {name} == {};
    assert SortedText({}) == [];
  }

  lemma DiscoveryReads(j: Json)
    requires j == DiscoveryJson()
    ensures HasKeys(j, DISCOVERY_FIELDS)
    ensures Get(j, "collection_account_id") == Text(ACCOUNT) && Get(j, "invocation_region") == Text(HomeRegion())
    ensures Get(j, "trail_arns") == List([Text(TrailArn())]) && Get(j, "trail_count") == Number(1)
    ensures Get(j, "discarded_item_count") == Number(0) && Get(j, "admission_complete") == Bool(true)
    ensures Get(j, "unadmitted_resources") == List([])
    ensures Get(j, "complete") == Bool(true) && Get(j, "failure_category") == Null
  {
  }

  lemma TrailsListed(s: Settings, g: Graph)
    requires g == TrailGraph()
    ensures Discovered(ContextOf(s, g), OutcomeAt(0)) == {TrailArn()}
    ensures Unadmitted(ContextOf(s, g), OutcomeAt(0)) == {}
    ensures Admitted(ContextOf(s, g), OutcomeAt(0)) == {TrailArn()}
    ensures SafeNames(Field(ContextOf(s, g), OutcomeAt(0), "trail_arns"))
  {
    hide TrailArn, DiscoveryJson, SafeNames, TextsIn;
    SourceRead(s, g, 0);
    DiscoveryReads(DiscoveryJson());
    ArnIsSafe();
    OneText(TrailArn());
  }

  lemma DiscoveryOk(s: Settings, g: Graph, c: Context)
    requires g == TrailGraph() && c == ContextOf(s, g)
    ensures DiscoveryPayload(c, OutcomeAt(0)) && AdmissionFits(c, OutcomeAt(0)) && Readable(c, OutcomeAt(0))
  {
    hide TrailArn, HomeRegion, DiscoveryJson, SafeNames, ParseTrail, IsRegion, HasKeys, TrailGraph, Bound;
    SourceRead(s, g, 0);
    DiscoveryReads(DiscoveryJson());
    TrailsListed(s, g);
    ArnParses();
    RegionSplits();
    assert Field(c, OutcomeAt(0), "unadmitted_resources").items == [];
  }

  lemma IdentityReads(j: Json)
    requires j == IdentityJson()
    ensures HasKeys(j, {"collection_account_id", "owner_account_id", "partition", "trail_arn", "name",
                        "home_region", "complete", "failure_category"})
    ensures Get(j, "collection_account_id") == Text(ACCOUNT) && Get(j, "owner_account_id") == Text(ACCOUNT)
    ensures Get(j, "partition") == Text("aws") && Get(j, "trail_arn") == Text(TrailArn())
    ensures Get(j, "name") == Text("main") && Get(j, "home_region") == Text(HomeRegion())
    ensures Get(j, "complete") == Bool(true) && Get(j, "failure_category") == Null
  {
  }

  lemma EnrichmentReads(k: nat, j: Json)
    requires j == EnrichmentJson(k)
    ensures HasKeys(j, {"trail_arn", "home_region", "value", "complete", "failure_category"})
    ensures Get(j, "trail_arn") == Text(TrailArn()) && Get(j, "home_region") == Text(HomeRegion())
    ensures Get(j, "value") == if k == 2 then ConfigurationJson() else Null
    ensures Get(j, "complete") == Bool(k == 2) && Get(j, "failure_category") == FailureJson(k)
  {
  }

  lemma ConfigurationReads(v: Json)
    requires v == ConfigurationJson()
    ensures HasKeys(v, CONFIGURATION_FIELDS)
    ensures Get(v, "name") == Text("main") && Get(v, "s3_bucket_name") == Text("logs")
    ensures Get(v, "s3_key_prefix").Null? && Get(v, "kms_key_id").Null?
    ensures Get(v, "cloudwatch_logs_log_group_arn").Null? && Get(v, "cloudwatch_logs_role_arn").Null?
  {
  }

  lemma FlagsRead(v: Json)
    requires v == ConfigurationJson()
    ensures Get(v, "include_global_service_events").Bool? && Get(v, "is_multi_region_trail").Bool?
    ensures Get(v, "log_file_validation_enabled").Bool? && Get(v, "is_organization_trail").Bool?
  {
  }

  lemma ConfigurationOk(v: Json)
    requires v == ConfigurationJson()
    ensures ConfigurationValue(v, Parts())
  {
    hide ConfigurationJson, HasKeys, ParseKey, HomeRegion;
    ConfigurationReads(v);
    FlagsRead(v);
    assert SafeText(Text("logs"));
    assert forall f :: f in CONFIGURATION_TEXTS ==> Get(v, f).Null? || Get(v, f).Text?;
    assert forall f :: f in CONFIGURATION_FLAGS ==> Get(v, f).Null? || Get(v, f).Bool?;
  }

  lemma SourceOk(s: Settings, g: Graph, c: Context, k: nat)
    requires g == TrailGraph() && c == ContextOf(s, g) && 0 < k < 6
    ensures SourceFits(c, ById(ContractId(), g.contracts), OutcomeAt(0), OutcomeAt(k))
  {
    hide TrailArn, HomeRegion, ParseTrail, TrailGraph, Bound, KindAt, ShapeAt, SourceIdentity, PayloadAt, Admitted;
    SourceDeclared(g, k);
    SourceRead(s, g, k);
    TrailsListed(s, g);
    ArnParses();
    assert PayloadAt(k).Object? by {
      PayloadIsObject(k);
    }
  }

  lemma PayloadIsObject(k: nat)
    ensures PayloadAt(k).Object?
  {
  }

  lemma PayloadOk(s: Settings, g: Graph, c: Context, k: nat)
    requires g == TrailGraph() && c == ContextOf(s, g) && 0 < k < 6
    ensures PayloadFits(c, ById(ContractId(), g.contracts), OutcomeAt(0), OutcomeAt(k))
  {
    hide TrailArn, HomeRegion, ParseTrail, TrailGraph, Bound, HasKeys, IdentityJson, EnrichmentJson, ConfigurationValue;
    hide ConfigurationJson, StatusValue, SelectorsValue, TagsValue;
    SourceRead(s, g, k);
    ArnParses();
    IdentityReads(IdentityJson());
    EnrichmentReads(k, EnrichmentJson(k));
    ConfigurationOk(ConfigurationJson());
    KindIsIdentity(k);
  }

  lemma KindIsIdentity(k: nat)
    ensures KindAt(k) == IDENTITY_KIND <==> k == 1
    ensures KindAt(k) == CONFIGURATION_KIND <==> k == 2
    ensures KindAt(k) == DISCOVERY_KIND <==> k == 0
  {
  }

  lemma KindsDiffer(j: nat, k: nat)
    requires j < 6 && k < 6
    ensures KindAt(j) == KindAt(k) <==> j == k
  {
  }

  lemma TrailCollector(k: nat)
    ensures IsTrailOutcome(OutcomeAt(k))
  {
  }

  /** The outcomes of the graph, one by one. */
  lemma Numbering(g: Graph, o: Outcome) returns (k: nat)
    requires g == TrailGraph() && o in g.outcomes
    ensures k < 6 && o == OutcomeAt(k)
  {
    k :| 0 <= k < |g.outcomes| && g.outcomes[k] == o;
  }

  lemma {:induction false} DiscoveriesOf(outcomes: seq<Outcome>)
    requires forall k :: 0 <= k < |outcomes| ==> outcomes[k] == OutcomeAt(k)
    ensures Discoveries(outcomes) == if outcomes == [] then [] else [OutcomeAt(0)]
  {
    hide OutcomeAt, KindAt;
    if outcomes != [] {
      var last := |outcomes| - 1;
      DiscoveriesOf(outcomes[..last]);
      TrailCollector(last);
      assert OutcomeAt(last).evidenceKind == KindAt(last) by {
        KindOfOutcome(last);
      }
      KindIsIdentity(last);
    }
  }

  lemma KindOfOutcome(k: nat)
    ensures OutcomeAt(k).evidenceKind == KindAt(k)
  {
  }

  lemma TrailSourcesHold(s: Settings, g: Graph)
    requires g == TrailGraph()
    ensures TrailSources(ContextOf(s, g), ById(ContractId(), g.contracts), g.outcomes)
  {
    hide OutcomeAt, DiscoveryFits, KindAt, SourcesDiffer, NoneMissing;
    var c, declared, d := ContextOf(s, g), ById(ContractId(), g.contracts), OutcomeAt(0);
    assert forall k :: 0 <= k < |g.outcomes| ==> g.outcomes[k] == OutcomeAt(k);
    hide TrailGraph, SourcesFit;
    DiscoveriesOf(g.outcomes);
    DiscoveryIsFit(s, g);
    EachSourceFits(s, g);
    NoSourceTwice(g);
    AllKinds(s, g);
  }

  lemma AllKinds(s: Settings, g: Graph)
    requires g == TrailGraph()
    ensures NoneMissing(ContextOf(s, g), OutcomeAt(0), g.outcomes)
  {
    hide OutcomeAt, TrailGraph, Admitted, HasSource, TrailArn;
    TrailsListed(s, g);
    forall arn, kind | arn in Admitted(ContextOf(s, g), OutcomeAt(0)) && kind in TRAIL_KINDS
      ensures HasSource(g.outcomes, (arn, kind))
    {
      EachKind(g, kind);
    }
  }

  lemma EachSourceFits(s: Settings, g: Graph)
    requires g == TrailGraph()
    ensures SourcesFit(ContextOf(s, g), ById(ContractId(), g.contracts), OutcomeAt(0), g.outcomes)
  {
    hide OutcomeAt, SourceFits, PayloadFits, KindAt, TrailGraph;
    var c, declared, d := ContextOf(s, g), ById(ContractId(), g.contracts), OutcomeAt(0);
    forall o | o in g.outcomes && IsTrailSource(o)
      ensures SourceFits(c, declared, d, o) && PayloadFits(c, declared, d, o)
    {
      var k := Numbering(g, o);
      KindOfOutcome(k);
      KindIsIdentity(k);
      SourceOk(s, g, c, k);
      PayloadOk(s, g, c, k);
    }
  }

  lemma DiscoveryIsFit(s: Settings, g: Graph)
    requires g == TrailGraph()
    ensures DiscoveryFits(ContextOf(s, g), ById(ContractId(), g.contracts), OutcomeAt(0))
  {
    hide SourceIdentity, DiscoveryPayload, AdmissionFits, Readable, TrailGraph;
    SourceDeclared(g, 0);
    DiscoveryOk(s, g, ContextOf(s, g));
  }

  lemma NoSourceTwice(g: Graph)
    requires g == TrailGraph()
    ensures SourcesDiffer(g.outcomes)
  {
    hide OutcomeAt, KindAt, TrailGraph, IsTrailSource;
    forall o, p | o in g.outcomes && p in g.outcomes && SourceName(o) == SourceName(p) ensures o == p {
      var j := Numbering(g, o);
      var k := Numbering(g, p);
      KindOfOutcome(j);
      KindOfOutcome(k);
      KindsDiffer(j, k);
    }
  }

  lemma EachKind(g: Graph, kind: string)
    requires g == TrailGraph() && kind in TRAIL_KINDS
    ensures HasSource(g.outcomes, (TrailArn(), kind))
  {
    hide ShapeAt, TrailArn;
    var k := if kind == IDENTITY_KIND then 1 else if kind == CONFIGURATION_KIND then 2
             else if kind == STATUS_KIND then 3 else if kind == SELECTORS_KIND then 4 else 5;
    assert KindAt(k) == kind;
    TrailCollector(k);
    KindIsIdentity(k);
    assert g.outcomes[k] == OutcomeAt(k) && OutcomeAt(k) in g.outcomes;
  }

  // ----- The edge -----

  lemma EdgeStands(s: Settings, g: Graph)
    requires g == TrailGraph()
    ensures Stands(ContextOf(s, g), g.outcomes, s.locations(g), OutcomeAt(2), "logs", TrailEdge())
  {
    hide TrailArn, HomeRegion, ShapeAt, Bound;
  }

  lemma EdgeExpected(s: Settings, g: Graph)
    requires g == TrailGraph()
    ensures Expects(ContextOf(s, g), g.outcomes, EndName(TrailEdge()), OutcomeAt(2), "logs")
  {
    hide TrailArn, HomeRegion, ShapeAt, Bound, ConfigurationJson, EnrichmentJson;
    SourceRead(s, g, 2);
    EnrichmentReads(2, EnrichmentJson(2));
    ConfigurationReads(ConfigurationJson());
    TrailCollector(2);
    assert g.outcomes[2] == OutcomeAt(2) && OutcomeAt(2) in g.outcomes;
  }

  /** The configuration names no other destination, and no other source names any. */
  lemma OnlyDestination(s: Settings, g: Graph, name: (string, string), o: Outcome, t: string)
    requires g == TrailGraph() && Expects(ContextOf(s, g), g.outcomes, name, o, t)
    ensures name == EndName(TrailEdge())
  {
    hide TrailArn, HomeRegion, ShapeAt, Bound, TrailGraph, ConfigurationJson, EnrichmentJson;
    var k := Numbering(g, o);
    KindIsIdentity(k);
    assert k == 2;
    SourceRead(s, g, 2);
    EnrichmentReads(2, EnrichmentJson(2));
    ConfigurationReads(ConfigurationJson());
  }

  lemma TrailEdgesHold(s: Settings, g: Graph)
    requires g == TrailGraph()
    ensures TrailEdges(ContextOf(s, g), g.outcomes, s.locations(g), g.relationships)
  {
    hide Expects, Stands, OutcomeAt, EndName;
    var c := ContextOf(s, g);
    assert g.relationships == [TrailEdge()];
    EdgeStands(s, g);
    EdgeExpected(s, g);
    forall r | r in g.relationships && FromTrail(r)
      ensures exists o, t :: Expects(c, g.outcomes, EndName(r), o, t) && Stands(c, g.outcomes, s.locations(g), o, t, r)
    {
      assert r == TrailEdge();
    }
    forall name, o, t | Expects(c, g.outcomes, name, o, t) ensures HasEdge(g.relationships, name) {
      OnlyDestination(s, g, name, o, t);
      assert TrailEdge() in g.relationships && FromTrail(TrailEdge());
    }
  }

  lemma NoBuckets(g: Graph)
    requires g == TrailGraph()
    ensures !Applies(g.outcomes) && HasTrailEvidence(g.outcomes)
  {
    hide OutcomeAt, TrailGraph;
    forall o | o in g.outcomes ensures o.evidenceKind != "s3.buckets.discovery" {
      var k := Numbering(g, o);
      KindOfOutcome(k);
      assert KindAt(k)[0] == 'c';
    }
    assert OutcomeAt(0) in g.outcomes by {
      Zeroth(g);
    }
    TrailCollector(0);
  }

  lemma Zeroth(g: Graph)
    requires g == TrailGraph()
    ensures OutcomeAt(0) in g.outcomes
  {
    assert g.outcomes[0] == OutcomeAt(0);
  }

  lemma TrailOnce(id: Relationship -> Uuid, g: Graph)
    requires g == TrailGraph()
    ensures TrailEdgesOnce(id, g.relationships)
  {
    hide TrailEdge;
    forall k ensures Count([TrailEdge()], TrailObserving(id, k)) <= 1 {
      assert [TrailEdge()][..0] == [];
    }
  }

  lemma TrailAccepted(s: Settings, g: Graph)
    requires g == TrailGraph()
    ensures Accepted(s, g, g)
  {
    hide TrailSources, TrailEdges, TrailEdgesOnce, Provenanced, Canonicalizes, InLines, HasTrailEvidence, Applies;
    TrailProvenanced(g);
    TrailInLines(g);
    NumberedIsCanonical(s, g);
    NoBuckets(g);
    TrailOnce(EdgeId(s.h), g);
    TrailSourcesHold(s, g);
    TrailEdgesHold(s, g);
  }

  /**
   The graph of one trail with all its sources is constructed, and the same submission with the
   trail's edge repeated, exactly equal, is refused whatever graph it might become.
   */
  lemma RepeatedTrailEdgeRefused(s: Settings, g: Graph, more: Graph)
    requires g == TrailGraph() && more == g.(relationships := g.relationships + [TrailEdge()])
    ensures Accepted(s, g, g)
    ensures forall other :: !Accepted(s, more, other)
  {
    hide Accepted, TrailEdge, HasTrailEvidence;
    TrailAccepted(s, g);
    NoBuckets(g);
    assert TrailEdge() in g.relationships && FromTrail(TrailEdge()) by {
      EdgeOfTrail(g);
    }
    RepeatedRelationship(s, g, g, TrailEdge());
    RepeatedIsRefused(s, g, g, TrailEdge());
  }

  lemma EdgeOfTrail(g: Graph)
    requires g == TrailGraph()
    ensures TrailEdge() in g.relationships && FromTrail(TrailEdge())
  {
  }
}
