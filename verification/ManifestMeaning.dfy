/** What an accepted S3-to-KMS manifest says about the evidence. */
module ManifestMeaning {
  import opened Wrappers
  import opened Ordering
  import opened Identities
  import opened JsonValues
  import opened Evidence
  import opened KmsManifest
  import S3Encryption

  /** An explicit key reference in the PRESENT encryption evidence of a bucket. */
  ghost predicate IsReference(c: Context, outcomes: seq<Outcome>, p: Pair) {
    && p.outcome in outcomes && IsEncryption(p.outcome) && p.outcome.state == PRESENT
    && p.reference in S3Encryption.References(Field(c, p.outcome, "value"))
  }

  /** A key proved PRESENT in a Region under a given identifier. */
  ghost predicate Proves(outcomes: seq<Outcome>, o: Outcome, region: string, resourceId: string) {
    && o in outcomes && IsKeyProof(o) && o.subject.resource.region == Some(region)
    && o.subject.resource.resourceId == resourceId
  }

  // ----- None missing, none extra -----

  lemma EdgeShape(c: Context, outcomes: seq<Outcome>, p: Pair) returns (region: string, d: Outcome, target: Target)
    requires EdgeFor(c, outcomes, p).Some?
    ensures Locatable(c, p) && RegionFor(c, p) == Some(region)
    ensures Describing(outcomes, KeyKind(c, region, p.reference)) == [d] && Describes(c, d, p, region)
    ensures TargetOver(c, d, Candidates(c, outcomes, (region, p.reference)), p, region) == Some(target)
    ensures EdgeFor(c, outcomes, p) == Some(EdgeTo(c, p, target))
  {
    region := RegionFor(c, p).value;
    var described, candidates := Describing(outcomes, KindFor(c, p)), Candidates(c, outcomes, NameFor(c, p));
    assert EdgeOver(c, p, described, candidates).Some?;
    d := described[0];
    target := TargetOver(c, d, candidates, p, region).value;
  }

  /**
   Every explicit reference has its edge, from the bucket that holds it and citing the very
   observation that holds it; and every S3-to-KMS edge comes from a reference in this way.
   */
  lemma EdgesAreTheReferences(
    c: Context, outcomes: seq<Outcome>, relationships: seq<Relationship>, raw: seq<Relationship>, r: Relationship)
    requires Applies(outcomes) && Holds(c, outcomes, relationships, raw)
    ensures r in relationships && IsS3Kms(r) <==>
              exists p :: IsReference(c, outcomes, p) && EdgeFor(c, outcomes, p) == Some(r)
    ensures r in relationships && IsS3Kms(r) ==>
              exists o :: && o in outcomes && IsEncryption(o) && o.state == PRESENT
                          && o.subject == ResourceSubject(r.edge.source) && r.provenance == ProvenanceOf(o)
  {
    var edge := EdgesOf(c, outcomes);
    if r in relationships && IsS3Kms(r) {
      var p :| p in Pairs(c, outcomes) && edge(p) == Some(r);
      PairsAreReferences(c, outcomes, p);
      var region, d, target := EdgeShape(c, outcomes, p);
      assert p.outcome.subject == ResourceSubject(r.edge.source);
    }
    if p :| IsReference(c, outcomes, p) && EdgeFor(c, outcomes, p) == Some(r) {
      PairsAreReferences(c, outcomes, p);
      assert edge(p) == Some(r);
    }
  }

  /** No reference is left without an edge. */
  lemma EveryReferenceHasItsEdge(
    c: Context, outcomes: seq<Outcome>, relationships: seq<Relationship>, raw: seq<Relationship>, p: Pair)
    requires Applies(outcomes) && Holds(c, outcomes, relationships, raw) && IsReference(c, outcomes, p)
    ensures EdgeFor(c, outcomes, p).Some? && EdgeFor(c, outcomes, p).value in relationships
    ensures EdgeFor(c, outcomes, p).value.edge.source == p.outcome.subject.resource
  {
    var edge := EdgesOf(c, outcomes);
    PairsAreReferences(c, outcomes, p);
    assert edge(p).Some?;
    var region, d, target := EdgeShape(c, outcomes, p);
  }

  // ----- Resolved exactly when the key is proved -----

  lemma {:induction false} CandidatesAreProofs(c: Context, outcomes: seq<Outcome>, region: string, resourceId: string)
    ensures Candidates(c, outcomes, (region, resourceId)) != map[] <==>
              exists o :: Proves(outcomes, o, region, resourceId)
    ensures forall r :: r in Candidates(c, outcomes, (region, resourceId)).Values ==>
              exists o :: Proves(outcomes, o, region, resourceId) && o.subject.resource == r
  {
    if outcomes != [] {
      var init, last := outcomes[..|outcomes| - 1], outcomes[|outcomes| - 1];
      var before, now := Candidates(c, init, (region, resourceId)), Candidates(c, outcomes, (region, resourceId));
      assert outcomes == init + [last];
      CandidatesAreProofs(c, init, region, resourceId);
      if IsKeyProof(last) && KeyName(last.subject.resource) == (region, resourceId) {
        assert Proves(outcomes, last, region, resourceId);
        assert SnapshotId(c.h, c.scan, last.subject.resource) in now;
      } else {
        assert forall o :: Proves(outcomes, o, region, resourceId) <==> Proves(init, o, region, resourceId);
      }
      forall r | r in now.Values
        ensures exists o :: Proves(outcomes, o, region, resourceId) && o.subject.resource == r
      {
        if r in before.Values {
          var o :| Proves(init, o, region, resourceId) && o.subject.resource == r;
          assert Proves(outcomes, o, region, resourceId);
        } else {
          assert Proves(outcomes, last, region, resourceId) && last.subject.resource == r;
        }
      }
    }
  }

  lemma TargetIsProved(c: Context, outcomes: seq<Outcome>, d: Outcome, p: Pair, region: string)
    requires TargetOver(c, d, Candidates(c, outcomes, (region, p.reference)), p, region).Some?
    requires d in outcomes && IsKeySource(d)
    ensures var target := TargetOver(c, d, Candidates(c, outcomes, (region, p.reference)), p, region).value;
            && (target.Stable? <==> d.state == PRESENT || exists o :: Proves(outcomes, o, region, p.reference))
            && if target.Stable?
               then exists o :: && o in outcomes && IsKeyProof(o) && target == Stable(o.subject.resource)
                                && o.subject.resource.region == Some(region)
               else target == UnprovedTarget(region, p.reference)
  {
    var candidates := Candidates(c, outcomes, (region, p.reference));
    if d.state == PRESENT {
      assert IsKeyProof(d);
    } else {
      CandidatesAreProofs(c, outcomes, region, p.reference);
      if |candidates| == 1 {
        var o :| Proves(outcomes, o, region, p.reference) && o.subject.resource == Only(candidates);
      } else {
        assert candidates == map[];
      }
    }
  }

  lemma {:induction false} DescribingMember(outcomes: seq<Outcome>, kind: string, d: Outcome)
    requires d in Describing(outcomes, kind)
    ensures d in outcomes && IsKeySource(d)
  {
    var init := outcomes[..|outcomes| - 1];
    if d in Describing(init, kind) {
      DescribingMember(init, kind, d);
    }
  }

  /**
   An edge is RESOLVED if and only if its own DescribeKey is PRESENT, or its reference is the
   identifier of a key proved PRESENT in the lookup Region; and then it points at a proved key of
   that Region.
   */
  lemma ResolvedExactly(c: Context, outcomes: seq<Outcome>, p: Pair, region: string, d: Outcome)
    requires EdgeFor(c, outcomes, p).Some? && RegionFor(c, p) == Some(region)
    requires Describing(outcomes, KeyKind(c, region, p.reference)) == [d]
    ensures EdgeFor(c, outcomes, p).value.resolution == RESOLVED <==>
              d.state == PRESENT || exists o :: Proves(outcomes, o, region, p.reference)
    ensures var r := EdgeFor(c, outcomes, p).value;
            if r.resolution == RESOLVED
            then exists o :: && o in outcomes && IsKeyProof(o) && r.edge.target == Stable(o.subject.resource)
                             && o.subject.resource.region == Some(region)
            else r.resolution == TARGET_IDENTITY_INCOMPLETE && r.edge.target == UnprovedTarget(region, p.reference)
  {
    var region', d', target := EdgeShape(c, outcomes, p);
    assert region' == region && [d'] == [d];
    assert d == [d][0] == [d'][0] == d';
    assert d in [d];
    DescribingMember(outcomes, KeyKind(c, region, p.reference), d);
    TargetIsProved(c, outcomes, d, p, region);
  }

  /** A PRESENT DescribeKey of a `key/` ARN resolves to that very ARN. */
  lemma KeyArnIsItsTarget(c: Context, outcomes: seq<Outcome>, p: Pair, region: string, d: Outcome)
    requires EdgeFor(c, outcomes, p).Some? && RegionFor(c, p) == Some(region)
    requires Describing(outcomes, KeyKind(c, region, p.reference)) == [d] && d.state == PRESENT
    requires StartsWith(p.reference, "arn:")
    requires Split(Split(p.reference, ':', 5)[|Split(p.reference, ':', 5)| - 1], '/', 1)[0] != "alias"
    ensures EdgeFor(c, outcomes, p).value.edge.target.Stable?
    ensures EdgeFor(c, outcomes, p).value.edge.target.resource.resourceId == p.reference
  {
    var region', d', target := EdgeShape(c, outcomes, p);
    assert ProvedTarget(c, d, p, region) == Some(target);
  }

  // ----- References that coalesce -----

  /** Two references give one edge exactly when they lead from the same bucket to the same target. */
  lemma Coalescing(
    c: Context, outcomes: seq<Outcome>, relationships: seq<Relationship>, raw: seq<Relationship>, p: Pair, q: Pair)
    requires Applies(outcomes) && Holds(c, outcomes, relationships, raw)
    requires IsReference(c, outcomes, p) && IsReference(c, outcomes, q)
    ensures EdgeFor(c, outcomes, p).Some? && EdgeFor(c, outcomes, q).Some?
    ensures EdgeFor(c, outcomes, p) == EdgeFor(c, outcomes, q) <==>
              EdgeFor(c, outcomes, p).value.edge == EdgeFor(c, outcomes, q).value.edge
  {
    var edge := EdgesOf(c, outcomes);
    PairsAreReferences(c, outcomes, p);
    PairsAreReferences(c, outcomes, q);
    assert edge(p).Some? && edge(q).Some?;
    assert edge(p).value.edge == edge(q).value.edge ==> IdsOf(c)(edge(p).value) == IdsOf(c)(edge(q).value);
  }

  /** However often an edge was submitted, there are at least as many references for it. */
  lemma SubmissionsBounded(
    c: Context, outcomes: seq<Outcome>, relationships: seq<Relationship>, raw: seq<Relationship>, r: Relationship)
    requires Applies(outcomes) && Holds(c, outcomes, relationships, raw) && r in raw && IsS3Kms(r)
    ensures Count(raw, (x: Relationship) => x == r)
            <= Count(Pairs(c, outcomes), Standing(EdgesOf(c, outcomes), IdsOf(c), IdsOf(c)(r)))
  {
    var k := IdsOf(c)(r);
    CountAtMost(raw, (x: Relationship) => x == r, Observing(IdsOf(c), k));
    assert Count(raw, Observing(IdsOf(c), k)) <= Count(Pairs(c, outcomes), Standing(EdgesOf(c, outcomes), IdsOf(c), k));
  }

  lemma {:induction false} CountAtMost<T>(s: seq<T>, f: T -> bool, g: T -> bool)
    requires forall x :: x in s && f(x) ==> g(x)
    ensures Count(s, f) <= Count(s, g)
  {
    if s != [] {
      CountAtMost(s[..|s| - 1], f, g);
    }
  }

  // ----- DescribeKey observations answer the references one for one -----

  /** The text between region and reference is unambiguous: the last NUL separates them. */
  lemma {:induction false} LastNul(a: string, s: string, b: string, t: string)
    requires '\0' !in s && '\0' !in t && a + "\0" + s == b + "\0" + t
    ensures a == b && s == t
  {
    var u := a + "\0" + s;
    assert s != [] ==> u[|u| - 1] == s[|s| - 1];
    assert t != [] ==> u[|u| - 1] == t[|t| - 1];
    assert s == [] <==> u[|u| - 1] == '\0';
    if s == [] {
      assert a == u[..|u| - 1] == b;
    } else {
      assert a + "\0" + s[..|s| - 1] == u[..|u| - 1] == b + "\0" + t[..|t| - 1];
      LastNul(a, s[..|s| - 1], b, t[..|t| - 1]);
      assert s == s[..|s| - 1] + [s[|s| - 1]] && t == t[..|t| - 1] + [t[|t| - 1]];
    }
  }

  lemma KeyKindInjective(c: Context, region: string, reference: string, region': string, reference': string)
    requires Injective(c.sha256) && '\0' !in reference && '\0' !in reference'
    requires KeyKind(c, region, reference) == KeyKind(c, region', reference')
    ensures region == region' && reference == reference'
  {
    var a, b := c.sha256(region + "\0" + reference), c.sha256(region' + "\0" + reference');
    assert ("kms.key." + a)[8..] == a && ("kms.key." + b)[8..] == b;
    LastNul(region, reference, region', reference');
  }

  /** The pair is a reference looked up in this Region under this text. */
  ghost predicate LookedUp(c: Context, outcomes: seq<Outcome>, p: Pair, region: Json, reference: Json) {
    && IsReference(c, outcomes, p) && RegionFor(c, p).Some? && Text(RegionFor(c, p).value) == region
    && Text(p.reference) == reference
  }

  lemma SafeReference(c: Context, p: Pair)
    requires RegionFor(c, p).Some?
    ensures '\0' !in p.reference
  {
  }

  /**
   A DescribeKey observation belongs to a reference, and the buckets it names are exactly those
   that hold the reference it looked up, in the Region it looked it up in.
   */
  lemma DescribedBucketsExact(
    c: Context, outcomes: seq<Outcome>, relationships: seq<Relationship>, raw: seq<Relationship>, d: Outcome,
    bucket: string)
    requires Injective(c.sha256)
    requires Applies(outcomes) && Holds(c, outcomes, relationships, raw) && d in outcomes && IsKeySource(d)
    ensures Text(bucket) in Items(Field(c, d, "source_bucket_names")) <==>
              exists p :: LookedUp(c, outcomes, p, Field(c, d, "region"), Field(c, d, "supplied_reference"))
                  && BucketOf(p) == bucket
    ensures exists p :: LookedUp(c, outcomes, p, Field(c, d, "region"), Field(c, d, "supplied_reference"))
  {
    var buckets := SourceBuckets(KindsOf(c), Pairs(c, outcomes), d.evidenceKind);
    var region, reference := Field(c, d, "region"), Field(c, d, "supplied_reference");
    assert buckets != {} && region.Text? && reference.Text? && '\0' !in reference.text
           && d.evidenceKind == KeyKind(c, region.text, reference.text)
           && Field(c, d, "source_bucket_names") == List(Texts(SortedText(buckets))) by
    {
      assert KeySourceCheck(c, outcomes)(d);
    }
    NamesAreBuckets(c, d, buckets, bucket);
    BucketsOfLookup(c, outcomes, d.evidenceKind, region.text, reference.text, bucket);
    var b :| b in buckets;
    BucketsOfLookup(c, outcomes, d.evidenceKind, region.text, reference.text, b);
  }

  lemma BucketsOfLookup(
    c: Context, outcomes: seq<Outcome>, kind: string, region: string, reference: string, bucket: string)
    requires Injective(c.sha256) && '\0' !in reference && kind == KeyKind(c, region, reference)
    ensures bucket in SourceBuckets(KindsOf(c), Pairs(c, outcomes), kind) <==>
              exists p :: LookedUp(c, outcomes, p, Text(region), Text(reference)) && BucketOf(p) == bucket
  {
    forall p
      ensures p in Pairs(c, outcomes) && KindsOf(c)(p) == kind <==>
                LookedUp(c, outcomes, p, Text(region), Text(reference))
    {
      PairsAreReferences(c, outcomes, p);
      SameLookup(c, outcomes, p, kind, region, reference);
    }
    if p :| LookedUp(c, outcomes, p, Text(region), Text(reference)) && BucketOf(p) == bucket {
      assert p in Pairs(c, outcomes) && KindsOf(c)(p) == kind;
    }
  }

  lemma SameLookup(c: Context, outcomes: seq<Outcome>, p: Pair, kind: string, region: string, reference: string)
    requires Injective(c.sha256) && '\0' !in reference && kind == KeyKind(c, region, reference)
    ensures KindFor(c, p) == kind <==> RegionFor(c, p) == Some(region) && p.reference == reference
  {
    assert kind[0] == "kms.key."[0];
    if RegionFor(c, p).Some? && KindFor(c, p) == kind {
      SafeReference(c, p);
      KeyKindInjective(c, RegionFor(c, p).value, p.reference, region, reference);
    }
  }

  lemma NamesAreBuckets(c: Context, d: Outcome, buckets: set<string>, bucket: string)
    requires Field(c, d, "source_bucket_names") == List(Texts(SortedText(buckets)))
    ensures Text(bucket) in Items(Field(c, d, "source_bucket_names")) <==> bucket in buckets
  {
    SortedTextLists(buckets);
    var names := SortedText(buckets);
    if bucket in buckets {
      var i :| 0 <= i < |names| && names[i] == bucket;
      assert Items(Field(c, d, "source_bucket_names"))[i] == Text(bucket);
    }
  }
}
