/** The manifest check itself: three passes that fill dictionaries, then a comparison. */
module ManifestCheck {
  import opened Wrappers
  import opened Ordering
  import opened Identities
  import opened JsonValues
  import opened Evidence
  import opened KmsManifest
  import S3Encryption

  // ----- First pass: which buckets refer to which key -----

  function SetAt(sources: map<string, set<string>>, kind: string): set<string> {
    if kind in sources then sources[kind] else {}
  }

  ghost predicate Sourced(kindOf: Pair -> string, sources: map<string, set<string>>, pairs: seq<Pair>) {
    forall kind :: SetAt(sources, kind) == SourceBuckets(kindOf, pairs, kind)
  }

  lemma SourcedAppend(kindOf: Pair -> string, sources: map<string, set<string>>, pairs: seq<Pair>, p: Pair)
    requires Sourced(kindOf, sources, pairs)
    ensures Sourced(kindOf, sources[kindOf(p) := SetAt(sources, kindOf(p)) + {BucketOf(p)}], pairs + [p])
  {
    var kind := kindOf(p);
    var now := sources[kind := SetAt(sources, kind) + {BucketOf(p)}];
    forall k ensures SetAt(now, k) == SourceBuckets(kindOf, pairs + [p], k) {
      assert SetAt(sources, k) == SourceBuckets(kindOf, pairs, k);
      assert forall q :: q in pairs + [p] <==> q in pairs || q == p;
      assert SourceBuckets(kindOf, pairs + [p], k)
             == SourceBuckets(kindOf, pairs, k) + if k == kind then {BucketOf(p)} else {};
    }
  }

  /** File the bucket of each pair under the pair's kind. */
  method AddReferences(
    located: Pair -> bool, kindOf: Pair -> string, pairs: seq<Pair>,
    sources: map<string, set<string>>, ghost before: seq<Pair>)
    returns (ok: bool, now: map<string, set<string>>)
    requires Sourced(kindOf, sources, before)
    ensures ok <==> forall p :: p in pairs ==> located(p)
    ensures ok ==> Sourced(kindOf, now, before + pairs)
  {
    now := sources;
    assert before + pairs[..0] == before;
    for i := 0 to |pairs|
      invariant forall k :: 0 <= k < i ==> located(pairs[k])
      invariant Sourced(kindOf, now, before + pairs[..i])
    {
      var p := pairs[i];
      if !located(p) {
        return false, now;
      }
      SourcedAppend(kindOf, now, before + pairs[..i], p);
      assert before + pairs[..i] + [p] == before + pairs[..i + 1];
      now := now[kindOf(p) := SetAt(now, kindOf(p)) + {BucketOf(p)}];
    }
    assert pairs[..|pairs|] == pairs;
    ok := true;
  }

  lemma ReadableReferences(c: Context, o: Outcome)
    requires IsEncryption(o) && o.state == PRESENT
    ensures (forall p :: p in PairsOf(c, o) ==> RegionFor(c, p).Some?) <==>
              forall r :: r in S3Encryption.References(Field(c, o, "value")) ==> RegionFor(c, Pair(o, r)).Some?
  {
    forall p
      ensures p in PairsOf(c, o) <==> p.outcome == o && p.reference in S3Encryption.References(Field(c, o, "value"))
    {
      PairsOfMembers(c, o, p);
    }
    if forall p :: p in PairsOf(c, o) ==> RegionFor(c, p).Some? {
      forall r | r in S3Encryption.References(Field(c, o, "value")) ensures RegionFor(c, Pair(o, r)).Some? {
        assert Pair(o, r) in PairsOf(c, o);
      }
    }
  }

  /** One encryption observation: read it, and file its references. */
  method ReadBucket(c: Context, o: Outcome, sources: map<string, set<string>>, ghost before: seq<Pair>)
    returns (ok: bool, now: map<string, set<string>>)
    requires IsEncryption(o) && Sourced(KindsOf(c), sources, before)
    ensures ok <==> ReadableBucket(c, o)
    ensures ok ==> Sourced(KindsOf(c), now, before + PairsOf(c, o))
  {
    now := sources;
    if !o.subject.ResourceSubject? || o.subject.resource.region.None? {
      return false, now;
    }
    if o.state != PRESENT {
      assert before + PairsOf(c, o) == before;
      return true, now;
    }
    if || !Bound(c, o, "s3.bucket-encryption") || PartitionFor(c, o).None?
       || !S3Encryption.Canonical(c.json, Field(c, o, "value"))
    {
      return false, now;
    }
    ok, now := AddReferences((p: Pair) => RegionFor(c, p).Some?, KindsOf(c), PairsOf(c, o), sources, before);
    ReadableReferences(c, o);
  }

  lemma ReadOne(c: Context, outcomes: seq<Outcome>, i: nat)
    requires i < |outcomes| && BucketsReadable(c, outcomes[..i])
    ensures BucketsReadable(c, outcomes[..i + 1]) <==> (IsEncryption(outcomes[i]) ==> ReadableBucket(c, outcomes[i]))
    ensures BucketsReadable(c, outcomes) ==> BucketsReadable(c, outcomes[..i + 1])
    ensures Pairs(c, outcomes[..i + 1]) == Pairs(c, outcomes[..i]) + PairsOf(c, outcomes[i])
  {
    assert outcomes[..i + 1] == outcomes[..i] + [outcomes[i]] && outcomes[..i + 1][..i] == outcomes[..i];
  }

  lemma SubjectsAppend(outcomes: seq<Outcome>, i: nat)
    requires i < |outcomes|
    ensures BucketSubjects(outcomes[..i + 1])
            == if IsEncryption(outcomes[i]) && outcomes[i].subject.ResourceSubject?
               then BucketSubjects(outcomes[..i])[outcomes[i].subject.resource.resourceId := outcomes[i].subject]
               else BucketSubjects(outcomes[..i])
  {
    assert outcomes[..i + 1][..i] == outcomes[..i];
  }

  method IndexSources(c: Context, outcomes: seq<Outcome>)
    returns (ok: bool, sources: map<string, set<string>>, subjects: map<string, Subject>)
    ensures ok <==> BucketsReadable(c, outcomes)
    ensures ok ==> Sourced(KindsOf(c), sources, Pairs(c, outcomes)) && subjects == BucketSubjects(outcomes)
  {
    sources, subjects := map[], map[];
    for i := 0 to |outcomes|
      invariant BucketsReadable(c, outcomes[..i])
      invariant Sourced(KindsOf(c), sources, Pairs(c, outcomes[..i]))
      invariant subjects == BucketSubjects(outcomes[..i])
    {
      var o := outcomes[i];
      ReadOne(c, outcomes, i);
      SubjectsAppend(outcomes, i);
      if IsEncryption(o) {
        ok, sources := ReadBucket(c, o, sources, Pairs(c, outcomes[..i]));
        if !ok {
          return;
        }
        subjects := subjects[o.subject.resource.resourceId := o.subject];
      } else {
        assert PairsOf(c, o) == [];
      }
    }
    assert outcomes[..|outcomes|] == outcomes;
    ok := true;
  }

  // ----- Second pass: the DescribeKey observations -----

  function ListAt(byKind: map<string, seq<Outcome>>, kind: string): seq<Outcome> {
    if kind in byKind then byKind[kind] else []
  }

  function MapAt(candidates: map<(string, string), map<Uuid, Resource>>, name: (string, string)): map<Uuid, Resource> {
    if name in candidates then candidates[name] else map[]
  }

  ghost predicate KindsIndexed(outcomes: seq<Outcome>, byKind: map<string, seq<Outcome>>) {
    forall kind :: ListAt(byKind, kind) == Describing(outcomes, kind)
  }

  ghost predicate KeysIndexed(
    c: Context, outcomes: seq<Outcome>, candidates: map<(string, string), map<Uuid, Resource>>)
  {
    forall name :: MapAt(candidates, name) == Candidates(c, outcomes, name)
  }

  /** The values recorded so far are those of the proofs seen so far. */
  ghost predicate Recorded(value: Outcome -> Json, outcomes: seq<Outcome>, values: map<(string, string), Json>) {
    && (forall o :: o in outcomes && IsKeyProof(o) ==>
          KeyName(o.subject.resource) in values && values[KeyName(o.subject.resource)] == value(o))
    && (forall name :: name in values ==>
          exists o :: o in outcomes && IsKeyProof(o) && KeyName(o.subject.resource) == name)
  }

  lemma DisagreementFound(value: Outcome -> Json, outcomes: seq<Outcome>, i: nat, values: map<(string, string), Json>)
    requires i < |outcomes| && Recorded(value, outcomes[..i], values) && IsKeyProof(outcomes[i])
    requires KeyName(outcomes[i].subject.resource) in values
    requires values[KeyName(outcomes[i].subject.resource)] != value(outcomes[i])
    ensures !KeysAgree(value, outcomes)
  {
    var name := KeyName(outcomes[i].subject.resource);
    var o :| o in outcomes[..i] && IsKeyProof(o) && KeyName(o.subject.resource) == name;
    assert o in outcomes && outcomes[i] in outcomes;
  }

  lemma KindsIndexedAppend(outcomes: seq<Outcome>, byKind: map<string, seq<Outcome>>, o: Outcome)
    requires KindsIndexed(outcomes, byKind)
    ensures KindsIndexed(
              outcomes + [o],
              if IsKeySource(o) then byKind[o.evidenceKind := ListAt(byKind, o.evidenceKind) + [o]] else byKind)
  {
    assert (outcomes + [o])[..|outcomes|] == outcomes;
    var now := if IsKeySource(o) then byKind[o.evidenceKind := ListAt(byKind, o.evidenceKind) + [o]] else byKind;
    forall kind ensures ListAt(now, kind) == Describing(outcomes + [o], kind) {
      assert ListAt(byKind, kind) == Describing(outcomes, kind);
    }
  }

  function AddCandidate(c: Context, candidates: map<(string, string), map<Uuid, Resource>>, r: Resource)
    : map<(string, string), map<Uuid, Resource>>
  {
    candidates[KeyName(r) := MapAt(candidates, KeyName(r))[SnapshotId(c.h, c.scan, r) := r]]
  }

  lemma KeysIndexedAppend(
    c: Context, outcomes: seq<Outcome>, candidates: map<(string, string), map<Uuid, Resource>>, o: Outcome)
    requires KeysIndexed(c, outcomes, candidates)
    ensures KeysIndexed(
              c, outcomes + [o], if IsKeyProof(o) then AddCandidate(c, candidates, o.subject.resource) else candidates)
  {
    assert (outcomes + [o])[..|outcomes|] == outcomes;
    var now := if IsKeyProof(o) then AddCandidate(c, candidates, o.subject.resource) else candidates;
    forall name ensures MapAt(now, name) == Candidates(c, outcomes + [o], name) {
      assert MapAt(candidates, name) == Candidates(c, outcomes, name);
    }
  }

  lemma RecordedAppend(value: Outcome -> Json, outcomes: seq<Outcome>, values: map<(string, string), Json>, o: Outcome)
    requires Recorded(value, outcomes, values)
    requires IsKeyProof(o) && KeyName(o.subject.resource) in values ==> values[KeyName(o.subject.resource)] == value(o)
    ensures Recorded(value, outcomes + [o],
                     if IsKeyProof(o) then values[KeyName(o.subject.resource) := value(o)] else values)
  {
    assert o in outcomes + [o] && forall p :: p in outcomes ==> p in outcomes + [o];
  }

  lemma RecordedAgrees(value: Outcome -> Json, outcomes: seq<Outcome>, values: map<(string, string), Json>)
    requires Recorded(value, outcomes, values)
    ensures KeysAgree(value, outcomes)
  {
  }

  method IndexKeys(c: Context, check: Outcome -> bool, value: Outcome -> Json, outcomes: seq<Outcome>)
    returns (ok: bool, byKind: map<string, seq<Outcome>>, candidates: map<(string, string), map<Uuid, Resource>>)
    ensures ok <==> KeySourcesOk(check, outcomes) && KeysAgree(value, outcomes)
    ensures ok ==> KindsIndexed(outcomes, byKind) && KeysIndexed(c, outcomes, candidates)
  {
    byKind, candidates := map[], map[];
    var values: map<(string, string), Json> := map[];
    for i := 0 to |outcomes|
      invariant KeySourcesOk(check, outcomes[..i])
      invariant KindsIndexed(outcomes[..i], byKind) && KeysIndexed(c, outcomes[..i], candidates)
      invariant Recorded(value, outcomes[..i], values)
    {
      var o := outcomes[i];
      assert o in outcomes && outcomes[..i + 1] == outcomes[..i] + [o];
      KindsIndexedAppend(outcomes[..i], byKind, o);
      KeysIndexedAppend(c, outcomes[..i], candidates, o);
      if IsKeySource(o) {
        if !check(o) {
          return false, byKind, candidates;
        }
        byKind := byKind[o.evidenceKind := ListAt(byKind, o.evidenceKind) + [o]];
      }
      if IsKeyProof(o) && KeyName(o.subject.resource) in values && values[KeyName(o.subject.resource)] != value(o) {
        DisagreementFound(value, outcomes, i, values);
        return false, byKind, candidates;
      }
      RecordedAppend(value, outcomes[..i], values, o);
      if IsKeyProof(o) {
        values := values[KeyName(o.subject.resource) := value(o)];
        candidates := AddCandidate(c, candidates, o.subject.resource);
      }
    }
    assert outcomes[..|outcomes|] == outcomes;
    RecordedAgrees(value, outcomes, values);
    ok := true;
  }

  // ----- Third pass: the edges the references stand for -----

  /** The same edge, looked up in the dictionaries. */
  function EdgeFrom(
    c: Context, byKind: map<string, seq<Outcome>>, candidates: map<(string, string), map<Uuid, Resource>>, p: Pair)
    : Option<Relationship>
  {
    if Locatable(c, p) then EdgeOver(c, p, ListAt(byKind, KindFor(c, p)), MapAt(candidates, NameFor(c, p))) else None
  }

  lemma EdgeFromIndexes(
    c: Context, outcomes: seq<Outcome>, byKind: map<string, seq<Outcome>>,
    candidates: map<(string, string), map<Uuid, Resource>>, p: Pair)
    requires KindsIndexed(outcomes, byKind) && KeysIndexed(c, outcomes, candidates)
    ensures EdgeFrom(c, byKind, candidates, p) == EdgeFor(c, outcomes, p)
  {
    if Locatable(c, p) {
      assert ListAt(byKind, KindFor(c, p)) == Describing(outcomes, KindFor(c, p));
      assert MapAt(candidates, NameFor(c, p)) == Candidates(c, outcomes, NameFor(c, p));
    }
  }

  function CountAt(counts: map<Uuid, nat>, id: Uuid): nat {
    if id in counts then counts[id] else 0
  }

  ghost predicate EdgesExpected(
    edge: EdgeOf, id: Relationship -> Uuid, pairs: seq<Pair>, expected: map<Uuid, Relationship>)
  {
    && (forall p :: p in pairs ==>
          edge(p).Some? && id(edge(p).value) in expected && expected[id(edge(p).value)] == edge(p).value)
    && (forall k :: k in expected ==>
          id(expected[k]) == k && exists p :: p in pairs && edge(p) == Some(expected[k]))
  }

  ghost predicate PairsCounted(
    edge: EdgeOf, id: Relationship -> Uuid, pairs: seq<Pair>, counts: map<Uuid, nat>)
  {
    forall k :: CountAt(counts, k) == Count(pairs, Standing(edge, id, k))
  }

  lemma ExpectedAppend(
    edge: EdgeOf, id: Relationship -> Uuid, pairs: seq<Pair>, expected: map<Uuid, Relationship>, p: Pair)
    requires EdgesExpected(edge, id, pairs, expected) && edge(p).Some?
    ensures var e := edge(p).value;
            if id(e) in expected && expected[id(e)] != e then !PairsFit(edge, id, pairs + [p])
            else EdgesExpected(edge, id, pairs + [p], expected[id(e) := e])
  {
    var e := edge(p).value;
    assert p in pairs + [p] && forall q :: q in pairs ==> q in pairs + [p];
    if id(e) in expected && expected[id(e)] != e {
      var q :| q in pairs && edge(q) == Some(expected[id(e)]);
    } else {
      var now := expected[id(e) := e];
      forall k | k in now ensures id(now[k]) == k && exists q :: q in pairs + [p] && edge(q) == Some(now[k]) {
        if k != id(e) {
          var q :| q in pairs && edge(q) == Some(expected[k]);
          assert q in pairs + [p];
        }
      }
    }
  }

  lemma CountedAppend(
    edge: EdgeOf, id: Relationship -> Uuid, pairs: seq<Pair>, counts: map<Uuid, nat>, p: Pair)
    requires PairsCounted(edge, id, pairs, counts) && edge(p).Some?
    ensures var k := id(edge(p).value); PairsCounted(edge, id, pairs + [p], counts[k := CountAt(counts, k) + 1])
  {
    assert (pairs + [p])[..|pairs|] == pairs;
    var now := counts[id(edge(p).value) := CountAt(counts, id(edge(p).value)) + 1];
    forall k ensures CountAt(now, k) == Count(pairs + [p], Standing(edge, id, k)) {
      assert CountAt(counts, k) == Count(pairs, Standing(edge, id, k));
    }
  }

  lemma FitsSubset(edge: EdgeOf, id: Relationship -> Uuid, some: seq<Pair>, all: seq<Pair>)
    requires PairsFit(edge, id, all) && forall p :: p in some ==> p in all
    ensures PairsFit(edge, id, some)
  {
  }

  lemma MisfitStays(edge: EdgeOf, id: Relationship -> Uuid, some: seq<Pair>, all: seq<Pair>)
    requires !PairsFit(edge, id, some) && forall p :: p in some ==> p in all
    ensures !PairsFit(edge, id, all)
  {
    if PairsFit(edge, id, all) {
      FitsSubset(edge, id, some, all);
    }
  }

  /** One more pair: its edge is recorded and counted, or it cannot fit. */
  lemma EdgeStep(
    edge: EdgeOf, id: Relationship -> Uuid, before: seq<Pair>, pairs: seq<Pair>, i: nat,
    edges: map<Uuid, Relationship>, tallies: map<Uuid, nat>)
    requires i < |pairs|
    requires EdgesExpected(edge, id, before + pairs[..i], edges) && PairsCounted(edge, id, before + pairs[..i], tallies)
    ensures var e := edge(pairs[i]);
            if e.None? || (id(e.value) in edges && edges[id(e.value)] != e.value)
            then !PairsFit(edge, id, before + pairs)
            else
              && EdgesExpected(edge, id, before + pairs[..i + 1], edges[id(e.value) := e.value])
              && PairsCounted(edge, id, before + pairs[..i + 1],
                  tallies[id(e.value) := CountAt(tallies, id(e.value)) + 1])
  {
    var p := pairs[i];
    assert p in before + pairs && before + pairs[..i] + [p] == before + pairs[..i + 1];
    if edge(p).Some? {
      ExpectedAppend(edge, id, before + pairs[..i], edges, p);
      CountedAppend(edge, id, before + pairs[..i], tallies, p);
      if id(edge(p).value) in edges && edges[id(edge(p).value)] != edge(p).value {
        MisfitStays(edge, id, before + pairs[..i + 1], before + pairs);
      }
    }
  }

  method AddEdges(
    edge: EdgeOf, id: Relationship -> Uuid, pairs: seq<Pair>, ghost before: seq<Pair>,
    expected: map<Uuid, Relationship>, counts: map<Uuid, nat>)
    returns (ok: bool, edges: map<Uuid, Relationship>, tallies: map<Uuid, nat>)
    requires EdgesExpected(edge, id, before, expected) && PairsCounted(edge, id, before, counts)
    ensures ok ==> EdgesExpected(edge, id, before + pairs, edges) && PairsCounted(edge, id, before + pairs, tallies)
    ensures !ok ==> !PairsFit(edge, id, before + pairs)
  {
    edges, tallies := expected, counts;
    assert before + pairs[..0] == before;
    for i := 0 to |pairs|
      invariant EdgesExpected(edge, id, before + pairs[..i], edges)
      invariant PairsCounted(edge, id, before + pairs[..i], tallies)
    {
      EdgeStep(edge, id, before, pairs, i, edges, tallies);
      var e := edge(pairs[i]);
      if e.None? || (id(e.value) in edges && edges[id(e.value)] != e.value) {
        return false, edges, tallies;
      }
      edges := edges[id(e.value) := e.value];
      tallies := tallies[id(e.value) := CountAt(tallies, id(e.value)) + 1];
    }
    assert pairs[..|pairs|] == pairs;
    ok := true;
  }

  lemma PairsGrow(c: Context, outcomes: seq<Outcome>, i: nat)
    requires i <= |outcomes|
    ensures forall p :: p in Pairs(c, outcomes[..i]) ==> p in Pairs(c, outcomes)
  {
    forall p | p in Pairs(c, outcomes[..i]) ensures p in Pairs(c, outcomes) {
      PairsAreReferences(c, outcomes[..i], p);
      PairsAreReferences(c, outcomes, p);
    }
  }

  method ExpectedEdges(c: Context, edge: EdgeOf, outcomes: seq<Outcome>)
    returns (ok: bool, expected: map<Uuid, Relationship>, counts: map<Uuid, nat>)
    ensures ok <==> ValuesAllowed(c, outcomes) && PairsFit(edge, IdsOf(c), Pairs(c, outcomes))
    ensures ok ==> EdgesExpected(edge, IdsOf(c), Pairs(c, outcomes), expected)
    ensures ok ==> PairsCounted(edge, IdsOf(c), Pairs(c, outcomes), counts)
  {
    var id := IdsOf(c);
    expected, counts := map[], map[];
    for i := 0 to |outcomes|
      invariant ValuesAllowed(c, outcomes[..i])
      invariant EdgesExpected(edge, id, Pairs(c, outcomes[..i]), expected)
      invariant PairsCounted(edge, id, Pairs(c, outcomes[..i]), counts)
    {
      var o := outcomes[i];
      assert o in outcomes && outcomes[..i + 1] == outcomes[..i] + [o];
      assert Pairs(c, outcomes[..i + 1]) == Pairs(c, outcomes[..i]) + PairsOf(c, o) by {
        assert outcomes[..i + 1][..i] == outcomes[..i];
      }
      if IsEncryption(o) && !AllowedValue(c, o) {
        return false, expected, counts;
      }
      ok, expected, counts := AddEdges(edge, id, PairsOf(c, o), Pairs(c, outcomes[..i]), expected, counts);
      if !ok {
        PairsGrow(c, outcomes, i + 1);
        if PairsFit(edge, id, Pairs(c, outcomes)) {
          FitsSubset(edge, id, Pairs(c, outcomes[..i + 1]), Pairs(c, outcomes));
        }
        return;
      }
    }
    assert outcomes[..|outcomes|] == outcomes;
    ExpectedFits(edge, id, Pairs(c, outcomes), expected);
    ok := true;
  }

  lemma ExpectedFits(edge: EdgeOf, id: Relationship -> Uuid, pairs: seq<Pair>, expected: map<Uuid, Relationship>)
    requires EdgesExpected(edge, id, pairs, expected)
    ensures PairsFit(edge, id, pairs)
  {
  }

  // ----- Comparison -----

  method CountRaw(id: Relationship -> Uuid, raw: seq<Relationship>) returns (counts: map<Uuid, nat>)
    ensures forall k :: CountAt(counts, k) == Count(raw, Observing(id, k))
    ensures forall k :: k in counts <==> exists r :: r in raw && IsS3Kms(r) && id(r) == k
  {
    counts := map[];
    for i := 0 to |raw|
      invariant forall k :: CountAt(counts, k) == Count(raw[..i], Observing(id, k))
      invariant forall k :: k in counts <==> exists r :: r in raw[..i] && IsS3Kms(r) && id(r) == k
    {
      var r := raw[i];
      assert raw[..i + 1] == raw[..i] + [r] && raw[..i + 1][..i] == raw[..i];
      if IsS3Kms(r) {
        counts := counts[id(r) := CountAt(counts, id(r)) + 1];
      }
    }
    assert raw[..|raw|] == raw;
  }

  /** Observation identifiers occur once in a list of stored relationships. */
  ghost predicate DistinctIds(id: Relationship -> Uuid, relationships: seq<Relationship>) {
    forall r, s :: r in relationships && s in relationships && id(r) == id(s) ==> r == s
  }

  function Actual(id: Relationship -> Uuid, relationships: seq<Relationship>): map<Uuid, Relationship> {
    if relationships == [] then map[]
    else
      var last := relationships[|relationships| - 1];
      var before := Actual(id, relationships[..|relationships| - 1]);
      if IsS3Kms(last) then before[id(last) := last] else before
  }

  lemma {:induction false} ActualHolds(id: Relationship -> Uuid, relationships: seq<Relationship>)
    requires DistinctIds(id, relationships)
    ensures forall r :: r in relationships && IsS3Kms(r) ==>
              id(r) in Actual(id, relationships) && Actual(id, relationships)[id(r)] == r
    ensures forall k :: k in Actual(id, relationships) ==>
              var r := Actual(id, relationships)[k]; r in relationships && IsS3Kms(r) && id(r) == k
  {
    if relationships != [] {
      var init := relationships[..|relationships| - 1];
      assert relationships == init + [relationships[|relationships| - 1]];
      ActualHolds(id, init);
    }
  }

  lemma ComparisonIsImage(
    edge: EdgeOf, id: Relationship -> Uuid, pairs: seq<Pair>, relationships: seq<Relationship>,
    expected: map<Uuid, Relationship>)
    requires DistinctIds(id, relationships) && EdgesExpected(edge, id, pairs, expected)
    ensures Actual(id, relationships) == expected <==> EdgesAreImage(edge, pairs, relationships)
  {
    var actual := Actual(id, relationships);
    ActualHolds(id, relationships);
    if EdgesAreImage(edge, pairs, relationships) {
      forall k | k in actual ensures k in expected && expected[k] == actual[k] {
        var p :| p in pairs && edge(p) == Some(actual[k]);
      }
      forall k | k in expected ensures k in actual {
        var p :| p in pairs && edge(p) == Some(expected[k]);
      }
    }
    if actual == expected {
      forall r | r in relationships && IsS3Kms(r) ensures exists p :: p in pairs && edge(p) == Some(r) {
        assert expected[id(r)] == r;
      }
    }
  }

  method CompareManifest(
    edge: EdgeOf, id: Relationship -> Uuid, ghost pairs: seq<Pair>, expected: map<Uuid, Relationship>,
    counts: map<Uuid, nat>, relationships: seq<Relationship>, raw: seq<Relationship>)
    returns (ok: bool)
    requires DistinctIds(id, relationships)
    requires EdgesExpected(edge, id, pairs, expected) && PairsCounted(edge, id, pairs, counts)
    ensures ok <==> NoSurplus(edge, id, pairs, raw) && EdgesAreImage(edge, pairs, relationships)
  {
    var rawCounts := CountRaw(id, raw);
    assert NoSurplus(edge, id, pairs, raw) <==>
           forall k :: k in rawCounts ==> CountAt(rawCounts, k) <= CountAt(counts, k);
    if exists k :: k in rawCounts && rawCounts[k] > CountAt(counts, k) {
      var k :| k in rawCounts && rawCounts[k] > CountAt(counts, k);
      assert CountAt(rawCounts, k) > CountAt(counts, k);
      return false;
    }
    ComparisonIsImage(edge, id, pairs, relationships, expected);
    ok := Actual(id, relationships) == expected;
  }

  // ----- The whole check -----

  lemma SourcedCheck(
    c: Context, outcomes: seq<Outcome>, sources: map<string, set<string>>, subjects: map<string, Subject>)
    requires Sourced(KindsOf(c), sources, Pairs(c, outcomes)) && subjects == BucketSubjects(outcomes)
    ensures KeySourcesOk((o: Outcome) => KeySourceOk(c, o, SetAt(sources, o.evidenceKind), subjects), outcomes) <==>
              KeySourcesOk(KeySourceCheck(c, outcomes), outcomes)
  {
    forall o: Outcome
      ensures SetAt(sources, o.evidenceKind) == SourceBuckets(KindsOf(c), Pairs(c, outcomes), o.evidenceKind)
    {
    }
  }

  /** What is built from the dictionaries is what the evidence says, pair by pair. */
  lemma ManifestCongruent(
    f: EdgeOf, g: EdgeOf, id: Relationship -> Uuid, pairs: seq<Pair>, relationships: seq<Relationship>,
    raw: seq<Relationship>)
    requires forall p :: f(p) == g(p)
    ensures PairsFit(f, id, pairs) <==> PairsFit(g, id, pairs)
    ensures NoSurplus(f, id, pairs, raw) <==> NoSurplus(g, id, pairs, raw)
    ensures EdgesAreImage(f, pairs, relationships) <==> EdgesAreImage(g, pairs, relationships)
  {
    forall k ensures Count(pairs, Standing(f, id, k)) == Count(pairs, Standing(g, id, k)) {
      CountAgrees(pairs, Standing(f, id, k), Standing(g, id, k));
    }
    forall r ensures (exists p :: p in pairs && f(p) == Some(r)) <==> (exists p :: p in pairs && g(p) == Some(r)) {
      if p :| p in pairs && f(p) == Some(r) {
        assert g(p) == Some(r);
      }
      if p :| p in pairs && g(p) == Some(r) {
        assert f(p) == Some(r);
      }
    }
  }

  /** The check accepts exactly the graphs whose S3-to-KMS edges are those of the evidence. */
  method CheckManifest(
    c: Context, outcomes: seq<Outcome>, relationships: seq<Relationship>, raw: seq<Relationship>)
    returns (ok: bool)
    requires DistinctIds(IdsOf(c), relationships)
    ensures ok <==> Holds(c, outcomes, relationships, raw)
  {
    if !Applies(outcomes) {
      return true;
    }
    var sources, subjects;
    ok, sources, subjects := IndexSources(c, outcomes);
    if !ok {
      return;
    }
    SourcedCheck(c, outcomes, sources, subjects);
    var byKind, candidates;
    ok, byKind, candidates :=
      IndexKeys(c, (o: Outcome) => KeySourceOk(c, o, SetAt(sources, o.evidenceKind), subjects), KeyOf(c), outcomes);
    if !ok {
      return;
    }
    var edge := (p: Pair) => EdgeFrom(c, byKind, candidates, p);
    forall p ensures edge(p) == EdgesOf(c, outcomes)(p) {
      EdgeFromIndexes(c, outcomes, byKind, candidates, p);
    }
    ManifestCongruent(edge, EdgesOf(c, outcomes), IdsOf(c), Pairs(c, outcomes), relationships, raw);
    var expected, counts;
    ok, expected, counts := ExpectedEdges(c, edge, outcomes);
    if !ok {
      return;
    }
    ok := CompareManifest(edge, IdsOf(c), Pairs(c, outcomes), expected, counts, relationships, raw);
  }
}
