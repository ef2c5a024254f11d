/** What holds of every constructed graph, and what construction does not depend on. */
module GraphMeaning {
  import opened Ordering
  import opened Identities
  import opened Evidence
  import opened Records
  import opened KmsManifest
  import opened TrailManifest
  import opened GraphAcceptance

  lemma SourcesAlign(g: Graph)
    requires StrictlyAscending(ContractId(), g.contracts) && StrictlyAscending(OutcomeId(), g.outcomes)
    requires SameSources(g) && Answered(g)
    ensures |g.contracts| == |g.outcomes|
    ensures forall i :: 0 <= i < |g.contracts| ==> MatchesOutcome(g.contracts[i], g.outcomes[i])
  {
    forall k ensures k in Map(ContractId(), g.contracts) <==> k in Map(OutcomeId(), g.outcomes) {
      if k in Map(ContractId(), g.contracts) {
        var i :| 0 <= i < |g.contracts| && ContractId()(g.contracts[i]) == k;
        var o := ReportOf(g, g.contracts[i]);
        MapMember(OutcomeId(), g.outcomes, o);
      }
      if k in Map(OutcomeId(), g.outcomes) {
        var i :| 0 <= i < |g.outcomes| && OutcomeId()(g.outcomes[i]) == k;
        var c := DeclarationOf(g, g.outcomes[i]);
        MapMember(ContractId(), g.contracts, c);
      }
    }
    Align(ContractId(), g.contracts, OutcomeId(), g.outcomes);
    forall i | 0 <= i < |g.contracts| ensures MatchesOutcome(g.contracts[i], g.outcomes[i]) {
      assert ContractId()(g.contracts[i]) == OutcomeId()(g.outcomes[i]);
      assert Reports(g, g.contracts[i], g.outcomes[i]);
    }
  }

  /** Contracts and outcomes are in bijection: stored side by side, each answers the other. */
  lemma ContractsAnswered(s: Settings, raw: Graph, g: Graph)
    requires Accepted(s, raw, g)
    ensures |g.contracts| == |g.outcomes| > 0
    ensures forall i :: 0 <= i < |g.contracts| ==> MatchesOutcome(g.contracts[i], g.outcomes[i])
  {
    assert Provenanced(g);
    SourcesAlign(g);
  }

  function Citations(outcomes: seq<Outcome>): set<(string, string)> {
    set o | o in outcomes :: (o.reference, o.sha)
  }

  function Holdings(artifacts: seq<Artifact>): set<(string, string)> {
    set a | a in artifacts :: (a.reference, a.sha)
  }

  lemma CitationsHeld(g: Graph)
    requires OutcomesSupported(g)
    ensures Citations(g.outcomes) <= Holdings(g.artifacts)
  {
    forall k | k in Citations(g.outcomes) ensures k in Holdings(g.artifacts) {
      var o :| o in g.outcomes && (o.reference, o.sha) == k;
      var a :| a in g.artifacts && Cites(o, a);
    }
  }

  lemma HoldingsCited(g: Graph)
    requires ArtifactsUsed(g)
    ensures Holdings(g.artifacts) <= Citations(g.outcomes)
  {
    forall k | k in Holdings(g.artifacts) ensures k in Citations(g.outcomes) {
      var a :| a in g.artifacts && (a.reference, a.sha) == k;
      var o :| o in g.outcomes && Cites(o, a);
    }
  }

  lemma ReferencesDiffer(artifacts: seq<Artifact>)
    requires StrictlyAscending(ArtifactId(), artifacts) && UniqueReferences(artifacts)
    ensures forall i, j :: 0 <= i < j < |artifacts| ==> artifacts[i].reference != artifacts[j].reference
  {
    forall i, j | 0 <= i < j < |artifacts| ensures artifacts[i].reference != artifacts[j].reference {
      assert ArtifactId()(artifacts[i]) < ArtifactId()(artifacts[j]);
      assert artifacts[i] in artifacts && artifacts[j] in artifacts;
    }
  }

  /** The artifacts are exactly the cited ones, each under a reference of its own. */
  lemma ArtifactsAreCited(s: Settings, raw: Graph, g: Graph)
    requires Accepted(s, raw, g)
    ensures Holdings(g.artifacts) == Citations(g.outcomes)
    ensures forall i, j :: 0 <= i < j < |g.artifacts| ==> g.artifacts[i].reference != g.artifacts[j].reference
  {
    assert Provenanced(g);
    CitationsHeld(g);
    HoldingsCited(g);
    ReferencesDiffer(g.artifacts);
  }

  // ----- One contract for each relationship -----

  lemma {:induction false} ScanFinds(outcomes: seq<Outcome>, p: Provenance)
    ensures forall o :: o in Scan(outcomes, p) <==> o in outcomes && ProvenanceOf(o) == p
  {
    if outcomes != [] {
      assert outcomes == outcomes[..|outcomes| - 1] + [outcomes[|outcomes| - 1]];
      ScanFinds(outcomes[..|outcomes| - 1], p);
    }
  }

  /** The declarations whose evidence established an edge, found by scanning. */
  method ContractsFor(g: Graph, r: Relationship) returns (found: seq<Contract>)
    ensures forall c :: c in found <==> Establishes(g, r, c)
    ensures StrictlyAscending(ContractId(), g.contracts) ==> StrictlyAscending(ContractId(), found)
  {
    var ids := set o | o in g.outcomes && ProvenanceOf(o) == r.provenance :: o.outcomeId;
    found := [];
    for i := 0 to |g.contracts|
      invariant forall c :: c in found <==> c in g.contracts[..i] && c.outcomeId in ids
      invariant StrictlyAscending(ContractId(), g.contracts) ==> StrictlyAscending(ContractId(), found)
    {
      var c := g.contracts[i];
      assert g.contracts[..i + 1] == g.contracts[..i] + [c];
      if c.outcomeId in ids {
        AppendAscends(ContractId(), g.contracts, found, i);
        found := found + [c];
      }
    }
    assert g.contracts[..|g.contracts|] == g.contracts;
    forall c | c in g.contracts ensures c.outcomeId in ids <==> Establishes(g, r, c) {
      if c.outcomeId in ids {
        var o :| o in g.outcomes && ProvenanceOf(o) == r.provenance && o.outcomeId == c.outcomeId;
        assert Reports(g, c, o);
      }
    }
  }

  lemma AppendAscends<T(!new)>(key: T -> Uuid, s: seq<T>, found: seq<T>, i: nat)
    requires i < |s| && forall x :: x in found ==> x in s[..i]
    ensures StrictlyAscending(key, s) && StrictlyAscending(key, found) ==> StrictlyAscending(key, found + [s[i]])
  {
    if StrictlyAscending(key, s) && StrictlyAscending(key, found) {
      forall j | 0 <= j < |found| ensures key(found[j]) < key(s[i]) {
        assert found[j] in s[..i];
        var k :| 0 <= k < i && s[k] == found[j];
      }
    }
  }

  /** The contracts a scan of the relationship's provenance must find. */
  ghost predicate Establishes(g: Graph, r: Relationship, c: Contract) {
    c in g.contracts && exists o :: Reports(g, c, o) && ProvenanceOf(o) == r.provenance
  }

  lemma OneDeclaration(g: Graph, r: Relationship) returns (c: Contract, o: Outcome)
    requires StrictlyAscending(ContractId(), g.contracts) && SameSources(g) && Established(g.outcomes, r)
    ensures Reports(g, c, o) && ProvenanceOf(o) == r.provenance && o.state == PRESENT
    ensures forall d :: Establishes(g, r, d) <==> d == c
  {
    o := Scan(g.outcomes, r.provenance)[0];
    ScanFinds(g.outcomes, r.provenance);
    assert o in Scan(g.outcomes, r.provenance);
    c := DeclarationOf(g, o);
    forall d | Establishes(g, r, d) ensures d == c {
      var u :| Reports(g, d, u) && ProvenanceOf(u) == r.provenance;
      assert u in Scan(g.outcomes, r.provenance);
      var k :| 0 <= k < |Scan(g.outcomes, r.provenance)| && Scan(g.outcomes, r.provenance)[k] == u;
      ListingConsistent(ContractId(), g.contracts, g.contracts);
      assert ContractId()(d) == ContractId()(c);
    }
  }

  /** In a constructed graph the scan finds one declaration, and its outcome is PRESENT. */
  lemma OneContractPerRelationship(s: Settings, raw: Graph, g: Graph, r: Relationship, found: seq<Contract>)
    requires Accepted(s, raw, g) && r in g.relationships
    requires StrictlyAscending(ContractId(), found) && forall c :: c in found <==> Establishes(g, r, c)
    ensures |found| == 1
    ensures exists o :: Reports(g, found[0], o) && ProvenanceOf(o) == r.provenance && o.state == PRESENT
  {
    hide TrailsComplete, Holds, OneObservation, Answered, Supported;
    assert Provenanced(g);
    assert SameSources(g) && Established(g.outcomes, r);
    var c, o := OneDeclaration(g, r);
    AllEqualIsOne(ContractId(), found, c);
  }

  lemma AllEqualIsOne<T(!new)>(key: T -> Uuid, s: seq<T>, x: T)
    requires StrictlyAscending(key, s) && x in s && forall y :: y in s ==> y == x
    ensures s == [x]
  {
    AscendingDetermined(key, s, [x]);
  }

  /**
   Submitted relationships conflict over an identifier exactly when two different records describe
   one directional edge of one scan.
   */
  lemma ConflictsArePerEdge(h: Hashes, relationships: seq<Relationship>)
    requires Collisionless(h) && forall r :: r in relationships ==> ValidRelationship(r)
    ensures Consistent(EdgeId(h), relationships) <==>
              forall r, t :: r in relationships && t in relationships && r.edge == t.edge ==> r == t
  {
    forall r, t | r in relationships && t in relationships
      ensures EdgeId(h)(r) == EdgeId(h)(t) <==> r.edge == t.edge
    {
      ObservationIdentifiesEdge(h, r.edge, t.edge);
    }
  }

  // ----- What construction does not depend on -----

  lemma CompleteIgnoresOrder(s: Settings, g: Graph, p: seq<Relationship>, q: seq<Relationship>)
    requires multiset(p) == multiset(q) && Complete(s, g, p)
    ensures Complete(s, g, q)
  {
    hide TrailsComplete, Provenanced;
    var c := ContextOf(s, g);
    if Applies(g.outcomes) {
      SurplusIgnoresOrder(EdgesOf(c, g.outcomes), IdsOf(c), Pairs(c, g.outcomes), p, q);
    }
    if HasTrailEvidence(g.outcomes) {
      TrailsIgnoreOrder(EdgeId(s.h), p, q);
    }
  }

  lemma TrailsIgnoreOrder(id: Relationship -> Uuid, p: seq<Relationship>, q: seq<Relationship>)
    requires multiset(p) == multiset(q) && TrailEdgesOnce(id, p)
    ensures TrailEdgesOnce(id, q)
  {
    forall k ensures Count(q, TrailObserving(id, k)) <= 1 {
      CountPermutes(p, q, TrailObserving(id, k));
    }
  }

  lemma SurplusIgnoresOrder(
    edge: EdgeOf, id: Relationship -> Uuid, pairs: seq<Pair>, p: seq<Relationship>, q: seq<Relationship>)
    requires multiset(p) == multiset(q) && NoSurplus(edge, id, pairs, p)
    ensures NoSurplus(edge, id, pairs, q)
  {
    forall k | exists r :: r in q && IsS3Kms(r) && id(r) == k
      ensures Count(q, Observing(id, k)) <= Count(pairs, Standing(edge, id, k))
    {
      var r :| r in q && IsS3Kms(r) && id(r) == k;
      assert r in multiset(p);
      CountPermutes(p, q, Observing(id, k));
    }
  }

  /** Permuting the submission, or repeating contracts, artifacts or outcomes, changes nothing. */
  lemma ConstructionIgnoresOrder(s: Settings, raw: Graph, raw': Graph, g: Graph)
    requires raw.scan == raw'.scan && raw.account == raw'.account && raw.collectedAt == raw'.collectedAt
    requires SameElements(raw.contracts, raw'.contracts) && SameElements(raw.artifacts, raw'.artifacts)
    requires SameElements(raw.outcomes, raw'.outcomes) && multiset(raw.relationships) == multiset(raw'.relationships)
    ensures Accepted(s, raw, g) <==> Accepted(s, raw', g)
  {
    hide Complete;
    forall r ensures r in raw.relationships <==> r in raw'.relationships {
      assert r in raw.relationships <==> r in multiset(raw.relationships);
      assert r in raw'.relationships <==> r in multiset(raw'.relationships);
    }
    if Accepted(s, raw, g) {
      CompleteIgnoresOrder(s, g, raw.relationships, raw'.relationships);
    }
    if Accepted(s, raw', g) {
      CompleteIgnoresOrder(s, g, raw'.relationships, raw.relationships);
    }
  }

  /**
   Repeating one relationship never changes what is stored, and is refused in exactly two cases: a
   trail's edge, where the scan holds CloudTrail evidence; and an S3-to-KMS edge of which the
   submission already holds as many copies as the evidence holds references.
   */
  lemma RepeatedRelationship(s: Settings, raw: Graph, g: Graph, r: Relationship)
    requires Accepted(s, raw, g) && r in raw.relationships
    ensures var more := raw.(relationships := raw.relationships + [r]);
            var c := ContextOf(s, g);
            Accepted(s, more, g) <==>
              && !(HasTrailEvidence(g.outcomes) && FromTrail(r))
              && (Applies(g.outcomes) && IsS3Kms(r) ==>
                    Count(raw.relationships, Observing(IdsOf(c), IdsOf(c)(r)))
                    < Count(Pairs(c, g.outcomes), Standing(EdgesOf(c, g.outcomes), IdsOf(c), IdsOf(c)(r))))
  {
    hide Count, Pairs, EdgesOf, IdsOf, Applies, HasTrailEvidence, TrailsComplete, Provenanced;
    var more := raw.(relationships := raw.relationships + [r]);
    var c := ContextOf(s, g);
    assert Canonicalizes(s, more, g) by {
      assert SameElements(raw.relationships, more.relationships);
    }
    if Applies(g.outcomes) {
      RepeatedSurplus(EdgesOf(c, g.outcomes), IdsOf(c), Pairs(c, g.outcomes), raw.relationships, r);
    }
    if HasTrailEvidence(g.outcomes) {
      TrailAppend(EdgeId(s.h), raw.relationships, r);
      if FromTrail(r) {
        CountedIfPresent(raw.relationships, TrailObserving(EdgeId(s.h), EdgeId(s.h)(r)), r);
      }
    }
  }

  lemma {:induction false} CountedIfPresent<T>(s: seq<T>, p: T -> bool, x: T)
    requires x in s && p(x)
    ensures Count(s, p) > 0
  {
    var init, last := s[..|s| - 1], s[|s| - 1];
    assert s == init + [last];
    if x != last {
      CountedIfPresent(init, p, x);
    }
  }

  /** The refusal is decided by the graph alone: no other canonical graph could be accepted. */
  lemma RepeatedIsRefused(s: Settings, raw: Graph, g: Graph, r: Relationship)
    requires Accepted(s, raw, g) && r in raw.relationships
    requires !Accepted(s, raw.(relationships := raw.relationships + [r]), g)
    ensures forall other :: !Accepted(s, raw.(relationships := raw.relationships + [r]), other)
  {
    hide Complete;
    var more := raw.(relationships := raw.relationships + [r]);
    assert SameElements(raw.relationships, more.relationships);
    forall other ensures !Accepted(s, more, other) {
      if Canonicalizes(s, more, other) {
        StoredDetermined(s, raw, g, more, other);
      }
    }
  }

  lemma RepeatedSurplus(
    edge: EdgeOf, id: Relationship -> Uuid, pairs: seq<Pair>, raw: seq<Relationship>, r: Relationship)
    requires NoSurplus(edge, id, pairs, raw) && r in raw
    ensures NoSurplus(edge, id, pairs, raw + [r]) <==>
              (IsS3Kms(r) ==> Count(raw, Observing(id, id(r))) < Count(pairs, Standing(edge, id, id(r))))
  {
    assert (raw + [r])[..|raw|] == raw;
    assert forall x :: x in raw + [r] <==> x in raw;
    forall k: Uuid
      ensures Count(raw + [r], Observing(id, k))
              == Count(raw, Observing(id, k)) + if IsS3Kms(r) && id(r) == k then 1 else 0
    {
    }
  }
}
