/**
 Graphs whose declarations, outcomes and artifacts are numbered from zero and answer each other
 number by number: the shape of every concrete graph built here.
 */
module Numbered {
  import opened Evidence
  import opened Records
  import opened KmsManifest
  import opened TrailManifest
  import opened GraphAcceptance

  function ReferenceAt(k: nat): string {
    "normalized://" + seq(k + 1, _ => 'r')
  }

  lemma ReferenceDiffers(j: nat, k: nat)
    ensures ReferenceAt(j) == ReferenceAt(k) <==> j == k
  {
    assert |ReferenceAt(j)| == |"normalized://"| + j + 1 && |ReferenceAt(k)| == |"normalized://"| + k + 1;
  }

  /** The k-th declaration, outcome and artifact belong to the graph and to each other. */
  predicate InLine(g: Graph, k: nat)
    requires k < |g.contracts| && k < |g.outcomes| && k < |g.artifacts|
  {
    && g.contracts[k].outcomeId == k && g.artifacts[k].artifactId == k && g.artifacts[k].reference == ReferenceAt(k)
    && MatchesOutcome(g.contracts[k], g.outcomes[k]) && Cites(g.outcomes[k], g.artifacts[k])
    && ContractPlaced(g, g.contracts[k]) && OutcomePlaced(g, g.outcomes[k]) && OfGraph(g, g.artifacts[k])
  }

  ghost predicate InLines(g: Graph) {
    && g.contracts != [] && |g.contracts| == |g.outcomes| == |g.artifacts|
    && forall k :: 0 <= k < |g.contracts| ==> InLine(g, k)
  }

  /** The edge cites the k-th outcome, which is PRESENT. */
  predicate CitesNumber(g: Graph, r: Relationship, k: nat) {
    k < |g.outcomes| && r.provenance == ProvenanceOf(g.outcomes[k]) && g.outcomes[k].state == PRESENT
  }

  lemma {:induction false} ScanIs(outcomes: seq<Outcome>, p: Provenance, k: nat)
    requires forall j :: 0 <= j < |outcomes| ==> (ProvenanceOf(outcomes[j]) == p <==> j == k)
    ensures Scan(outcomes, p) == if k < |outcomes| then [outcomes[k]] else []
  {
    if outcomes != [] {
      ScanIs(outcomes[..|outcomes| - 1], p, k);
    }
  }

  /** The provenance of a numbered outcome finds that outcome alone. */
  lemma ScanNumber(g: Graph, k: nat)
    requires InLines(g) && k < |g.outcomes|
    ensures Scan(g.outcomes, ProvenanceOf(g.outcomes[k])) == [g.outcomes[k]]
  {
    forall j | 0 <= j < |g.outcomes| ensures ProvenanceOf(g.outcomes[j]) == ProvenanceOf(g.outcomes[k]) <==> j == k {
      assert InLine(g, j) && InLine(g, k);
      ReferenceDiffers(j, k);
    }
    ScanIs(g.outcomes, ProvenanceOf(g.outcomes[k]), k);
  }

  lemma NumbersAgree(g: Graph)
    requires InLines(g)
    ensures SameSources(g) && Answered(g)
  {
    forall c | c in g.contracts ensures c.outcomeId in OutcomeIds(g) {
      var k :| 0 <= k < |g.contracts| && g.contracts[k] == c;
      assert InLine(g, k) && g.outcomes[k] in g.outcomes;
    }
    forall o | o in g.outcomes ensures o.outcomeId in ContractIds(g) {
      var k :| 0 <= k < |g.outcomes| && g.outcomes[k] == o;
      assert InLine(g, k) && g.contracts[k] in g.contracts;
    }
    forall c, o | Reports(g, c, o) ensures MatchesOutcome(c, o) {
      var j :| 0 <= j < |g.contracts| && g.contracts[j] == c;
      var k :| 0 <= k < |g.outcomes| && g.outcomes[k] == o;
      assert InLine(g, j) && InLine(g, k);
    }
  }

  lemma NumbersSupport(g: Graph)
    requires InLines(g)
    ensures UniqueReferences(g.artifacts) && Supported(g)
  {
    forall a, b | a in g.artifacts && b in g.artifacts && a.reference == b.reference
      ensures a.artifactId == b.artifactId
    {
      var j :| 0 <= j < |g.artifacts| && g.artifacts[j] == a;
      var k :| 0 <= k < |g.artifacts| && g.artifacts[k] == b;
      assert InLine(g, j) && InLine(g, k);
      ReferenceDiffers(j, k);
    }
    forall o | o in g.outcomes ensures exists a :: a in g.artifacts && Cites(o, a) {
      var k :| 0 <= k < |g.outcomes| && g.outcomes[k] == o;
      assert InLine(g, k) && g.artifacts[k] in g.artifacts;
    }
    forall a | a in g.artifacts ensures exists o :: o in g.outcomes && Cites(o, a) {
      var k :| 0 <= k < |g.artifacts| && g.artifacts[k] == a;
      assert InLine(g, k) && g.outcomes[k] in g.outcomes;
    }
  }

  lemma NumbersPlaced(g: Graph)
    requires InLines(g) && forall r :: r in g.relationships ==> EdgeOfGraph(g, r)
    ensures OneObservation(g)
  {
    forall c | c in g.contracts ensures ContractPlaced(g, c) {
      var k :| 0 <= k < |g.contracts| && g.contracts[k] == c;
      assert InLine(g, k);
    }
    forall o | o in g.outcomes ensures OutcomePlaced(g, o) {
      var k :| 0 <= k < |g.outcomes| && g.outcomes[k] == o;
      assert InLine(g, k);
    }
    forall a | a in g.artifacts ensures OfGraph(g, a) {
      var k :| 0 <= k < |g.artifacts| && g.artifacts[k] == a;
      assert InLine(g, k);
    }
  }

  /** A numbered graph whose edges cite PRESENT outcomes of its own has complete provenance. */
  lemma NumberedIsProvenanced(g: Graph)
    requires InLines(g)
    requires forall r :: r in g.relationships ==> EdgeOfGraph(g, r) && exists k: nat :: CitesNumber(g, r, k)
    ensures Provenanced(g)
  {
    hide SameSources, Answered, Supported, UniqueReferences, OneObservation;
    NumbersAgree(g);
    NumbersSupport(g);
    NumbersPlaced(g);
    forall r | r in g.relationships ensures Established(g.outcomes, r) {
      var k: nat :| CitesNumber(g, r, k);
      ScanNumber(g, k);
    }
  }

  /** It is its own canonical form as soon as its edges are in order. */
  lemma NumberedIsCanonical(s: Settings, g: Graph)
    requires InLines(g) && StrictlyAscending(EdgeId(s.h), g.relationships)
    ensures Canonicalizes(s, g, g)
  {
    forall i, j | 0 <= i < j < |g.contracts| ensures
        ContractId()(g.contracts[i]) < ContractId()(g.contracts[j])
        && OutcomeId()(g.outcomes[i]) < OutcomeId()(g.outcomes[j])
        && ArtifactId()(g.artifacts[i]) < ArtifactId()(g.artifacts[j])
    {
      assert InLine(g, i) && InLine(g, j);
    }
  }

  /** Without S3 and CloudTrail evidence nothing more is asked of a graph. */
  lemma NumberedIsAccepted(s: Settings, g: Graph)
    requires InLines(g) && StrictlyAscending(EdgeId(s.h), g.relationships)
    requires forall r :: r in g.relationships ==> EdgeOfGraph(g, r) && exists k: nat :: CitesNumber(g, r, k)
    requires !Applies(g.outcomes) && !HasTrailEvidence(g.outcomes)
    ensures Accepted(s, g, g)
  {
    hide Provenanced, Canonicalizes, Applies, HasTrailEvidence;
    NumberedIsProvenanced(g);
    NumberedIsCanonical(s, g);
  }
}
