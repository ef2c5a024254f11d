/** What an accepted CloudTrail manifest says about the trails of a scan and their edges. */
module TrailMeaning {
  import opened JsonValues
  import opened Evidence
  import opened Records
  import opened KmsManifest
  import opened TrailManifest
  import opened GraphAcceptance

  lemma TrailsHold(s: Settings, raw: Graph, g: Graph)
    requires Accepted(s, raw, g) && HasTrailEvidence(g.outcomes)
    ensures TrailSources(ContextOf(s, g), ById(ContractId(), g.contracts), g.outcomes)
    ensures TrailEdges(ContextOf(s, g), g.outcomes, s.locations(g), g.relationships)
  {
    hide Provenanced, Canonicalizes, Holds, TrailSources, TrailEdges;
  }

  /** A trail has a source of a kind exactly when it was admitted and the kind is one of the five. */
  lemma SourcesAreTheGrid(s: Settings, raw: Graph, g: Graph, arn: string, kind: string) returns (d: Outcome)
    requires Accepted(s, raw, g) && HasTrailEvidence(g.outcomes)
    ensures Discoveries(g.outcomes) == [d]
    ensures HasSource(g.outcomes, (arn, kind)) <==> arn in Admitted(ContextOf(s, g), d) && kind in TRAIL_KINDS
    ensures SourcesDiffer(g.outcomes)
  {
    hide Accepted, DiscoveryFits, SourceFits, PayloadFits, Admitted;
    TrailsHold(s, raw, g);
    var c, declared := ContextOf(s, g), ById(ContractId(), g.contracts);
    d := Discoveries(g.outcomes)[0];
    if HasSource(g.outcomes, (arn, kind)) {
      var o :| o in g.outcomes && IsTrailSource(o) && SourceName(o) == (arn, kind);
      FittingKind(c, declared, d, o);
    }
  }

  ghost predicate Identified(outcomes: seq<Outcome>, arn: string) {
    exists o :: && o in outcomes && SourceName(o) == (arn, IDENTITY_KIND) && o.state == PRESENT
                && ParseTrail(arn).Some? && o.subject == ResourceSubject(TrailResource(arn, ParseTrail(arn).value))
  }

  predicate OwnedElsewhere(arn: string, account: string) {
    ParseTrail(arn).Some? && ParseTrail(arn).value.owner != account
  }

  /** Every trail the discovery saw was admitted, with PRESENT identity, or belongs to another account. */
  lemma DiscoveredTrails(s: Settings, raw: Graph, g: Graph, d: Outcome, arn: string)
    requires Accepted(s, raw, g) && HasTrailEvidence(g.outcomes)
    requires Discoveries(g.outcomes) == [d] && arn in Discovered(ContextOf(s, g), d)
    ensures arn in Admitted(ContextOf(s, g), d) ==> Identified(g.outcomes, arn)
    ensures arn !in Admitted(ContextOf(s, g), d) ==> OwnedElsewhere(arn, d.account)
  {
    hide Accepted, SourceIdentity, Readable, Completion, ParseTrail;
    TrailsHold(s, raw, g);
    var c, declared := ContextOf(s, g), ById(ContractId(), g.contracts);
    assert Discoveries(g.outcomes)[0] == d;
    if arn in Admitted(c, d) {
      assert HasSource(g.outcomes, (arn, IDENTITY_KIND));
      var o :| o in g.outcomes && IsTrailSource(o) && SourceName(o) == (arn, IDENTITY_KIND);
      assert SourceFits(c, declared, d, o) && PayloadFits(c, declared, d, o);
    } else {
      var item :| item in Items(Field(c, d, "unadmitted_resources")) && ItemText(item, "resource_id") == arn;
      assert UnadmittedFits(c, d, item);
    }
  }

  // ----- Edges and destinations -----

  lemma ConfiguredTrail(s: Settings, raw: Graph, g: Graph, o: Outcome)
    requires Accepted(s, raw, g) && HasTrailEvidence(g.outcomes) && o in g.outcomes && IsConfiguration(o)
    ensures o.subject.ResourceSubject? && ParseTrail(SubjectId(o)).Some?
    ensures o.subject.resource == TrailResource(SubjectId(o), ParseTrail(SubjectId(o)).value)
  {
    hide Accepted, DiscoveryFits, PayloadFits, SourceIdentity, Readable, ParseTrail;
    TrailsHold(s, raw, g);
    assert SourceFits(ContextOf(s, g), ById(ContractId(), g.contracts), Discoveries(g.outcomes)[0], o);
  }

  ghost predicate IsEdgeNamed(g: Graph, name: (string, string), r: Relationship) {
    r in g.relationships && FromTrail(r) && EndName(r) == name
  }

  /**
   Each destination a PRESENT configuration names has one edge, that edge stands for it, and there
   is no other trail edge.
   */
  lemma TrailEdgesAreDestinations(s: Settings, raw: Graph, g: Graph, name: (string, string))
    requires Accepted(s, raw, g) && HasTrailEvidence(g.outcomes)
    ensures var c := ContextOf(s, g);
            HasEdge(g.relationships, name) <==> exists o, t :: Expects(c, g.outcomes, name, o, t)
    ensures forall r, o, t ::
              IsEdgeNamed(g, name, r) && Expects(ContextOf(s, g), g.outcomes, name, o, t) ==>
                Stands(ContextOf(s, g), g.outcomes, s.locations(g), o, t, r)
    ensures forall r, q :: IsEdgeNamed(g, name, r) && IsEdgeNamed(g, name, q) ==> r == q
  {
    hide Accepted, Stands, Destination, DiscoveryFits, SourcesFit;
    TrailsHold(s, raw, g);
    var c, locations := ContextOf(s, g), s.locations(g);
    forall r, o, t | IsEdgeNamed(g, name, r) && Expects(c, g.outcomes, name, o, t)
      ensures Stands(c, g.outcomes, locations, o, t, r)
    {
      var p, u :| Expects(c, g.outcomes, EndName(r), p, u) && Stands(c, g.outcomes, locations, p, u, r);
      assert SourceName(p) == SourceName(o);
      assert p == o && u == t;
    }
    if HasEdge(g.relationships, name) {
      var r :| r in g.relationships && FromTrail(r) && EndName(r) == name;
      var p, u :| Expects(c, g.outcomes, EndName(r), p, u) && Stands(c, g.outcomes, locations, p, u, r);
    }
  }

  /** The key edge of a configuration is determined by the evidence: an edge is stored exactly if it is that one. */
  lemma KeyEdgesExact(s: Settings, raw: Graph, g: Graph, r: Relationship)
    requires Accepted(s, raw, g) && HasTrailEvidence(g.outcomes) && r.edge.kind == ENCRYPTED_WITH
    ensures r in g.relationships && FromTrail(r) <==>
              exists o, arn ::
                && Expects(ContextOf(s, g), g.outcomes, EndName(r), o, arn)
                && Stands(ContextOf(s, g), g.outcomes, s.locations(g), o, arn, r)
  {
    hide Accepted, Destination, KeyResolution, ParseKey, ParseTrail;
    var c, locations := ContextOf(s, g), s.locations(g);
    TrailEdgesAreDestinations(s, raw, g, EndName(r));
    if r in g.relationships && FromTrail(r) {
      assert HasEdge(g.relationships, EndName(r));
      var o, arn :| Expects(c, g.outcomes, EndName(r), o, arn);
    }
    if o, arn :| Expects(c, g.outcomes, EndName(r), o, arn) && Stands(c, g.outcomes, locations, o, arn, r) {
      ConfiguredTrail(s, raw, g, o);
      var q :| q in g.relationships && FromTrail(q) && EndName(q) == EndName(r);
      assert Stands(c, g.outcomes, locations, o, arn, q);
      assert q == r;
    }
  }
}
