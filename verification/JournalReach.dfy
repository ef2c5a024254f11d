/** The reachable journals are exactly the language: nothing outside it, and all of it. */
module JournalReach {
  import opened Wrappers
  import opened Scans
  import opened Protocol
  import opened Journals
  import opened Invariants

  ghost predicate Reachable(db: Db) {
    exists steps :: db == Run(Empty(), steps)
  }

  ghost predicate ReachableJournal(w: seq<EventKind>) {
    exists db, x :: Reachable(db) && Kinds(Journal(db.events, x)) == w
  }

  /** The unique index leaves at most one acknowledgement. */
  predicate SingleAcknowledgement(w: seq<EventKind>) {
    forall i, k :: 0 <= i < k < |w| ==> w[i] != ACKNOWLEDGED || w[k] != ACKNOWLEDGED
  }

  lemma ReachStep(db: Db, s: Step)
    requires Reachable(db)
    ensures Reachable(Exec(db, s))
  {
    var steps :| db == Run(Empty(), steps);
    assert (steps + [s])[..|steps|] == steps;
    assert Exec(db, s) == Run(Empty(), steps + [s]);
  }

  lemma ReachApply(db: Db, s: Step)
    requires Reachable(db) && Accepts(db, s)
    ensures Reachable(Apply(db, s))
  {
    ReachStep(db, s);
  }

  // ----- One admitted execution -----

  function HexDigest(): Digest {
    seq(DIGEST_LENGTH, _ => 'a')
  }

  const ACCOUNT := "000000000000"
  const EXPIRY: Time := 100

  function ScopeRow(): ScanScope {
    ScanScope([], [], "p", "1", HexDigest(), "c", "1")
  }

  function ExecutionRow(): Execution {
    Execution(0, 0, HexDigest(), Actor("idp", "carol"), 0, HexDigest(), HexDigest(), 0, EXPIRY)
  }

  function ProposalRow(): Proposal {
    Proposal(0, 0, ACCOUNT, Actor("idp", "alice"), HexDigest(), 0, EXPIRY)
  }

  function ApprovalRow(): Decision {
    Decision(0, APPROVE, HexDigest(), None, Actor("idp", "bob"), 0)
  }

  /** Four accepted statements retain a finding and its occurrence. */
  lemma Found() returns (db: Db)
    ensures Reachable(db)
    ensures db.findings == map[0 := Finding(ACCOUNT, 0, Some("r"))]
    ensures db.occurrences == map[0 := Occurrence(0, 0)]
    ensures db.proposals == map[] && db.decisions == map[] && db.executions == map[]
    ensures db.events == [] && db.claims == map[] && db.audits == map[]
  {
    assert Run(Empty(), []) == Empty();
    var s1 := InsertResource(0, Resource(ACCOUNT, "r"));
    var s2 := InsertFinding(0, Finding(ACCOUNT, 0, Some("r")));
    var s3 := InsertScan(0, Scan(Some(ACCOUNT), ScopeRow(), [], 0, None, RUNNING, None, None));
    var s4 := InsertOccurrence(0, Occurrence(0, 0));
    ReachStep(Empty(), s1);
    ReachStep(Exec(Empty(), s1), s2);
    ReachStep(Exec(Exec(Empty(), s1), s2), s3);
    ReachStep(Exec(Exec(Exec(Empty(), s1), s2), s3), s4);
    db := Exec(Exec(Exec(Exec(Empty(), s1), s2), s3), s4);
  }

  lemma ApprovalAccepted(db: Db)
    requires db.findings == map[0 := Finding(ACCOUNT, 0, Some("r"))]
    requires db.occurrences == map[0 := Occurrence(0, 0)]
    ensures db.proposals == map[] ==> ProposalAdmitted(db, 0, ProposalRow())
    ensures db.proposals == map[0 := ProposalRow()] && db.decisions == map[] ==>
              DecisionAdmitted(db, 0, ApprovalRow())
  {
    assert "idp"[0] != ' ' && "alice"[0] == 'a' && "bob"[0] == 'b';
  }

  lemma ExecutionAccepted(db: Db)
    requires db.proposals == map[0 := ProposalRow()] && db.decisions == map[0 := ApprovalRow()]
    requires db.executions == map[]
    ensures ExecutionAdmitted(db, 0, ExecutionRow())
  {
    assert "idp"[0] != ' ' && "alice"[0] == 'a' && "bob"[0] == 'b' && "carol"[0] == 'c';
  }

  /** Three more propose, approve and admit an execution with an empty journal. */
  lemma Admitted() returns (db: Db)
    ensures Reachable(db)
    ensures db.executions == map[0 := ExecutionRow()] && db.events == []
    ensures db.claims == map[] && db.audits == map[]
  {
    db := Found();
    ApprovalAccepted(db);
    ReachApply(db, InsertProposal(0, ProposalRow()));
    db := Apply(db, InsertProposal(0, ProposalRow()));
    ApprovalAccepted(db);
    ReachApply(db, InsertDecision(0, ApprovalRow()));
    db := Apply(db, InsertDecision(0, ApprovalRow()));
    ExecutionAccepted(db);
    ReachApply(db, InsertExecution(0, ExecutionRow()));
    db := Apply(db, InsertExecution(0, ExecutionRow()));
  }

  // ----- Writing a word of the language, one event at a time -----

  function EventTime(k: EventKind): Time {
    if k == EXPIRED then EXPIRY else 0
  }

  function EventRow(i: nat, k: EventKind): Event {
    Event(i, 0, i, i + 1, k, None, HexDigest(), if i == 0 then None else Some(HexDigest()), EventTime(k))
  }

  function AuditRow(k: EventKind): Audit {
    Audit(REMEDIATION_EXECUTION(k), "", "", EXECUTION, 0, EventTime(k), None)
  }

  function ClaimRow(): Claim {
    Claim(HexDigest(), "role", 1, 0, 0, None, EXPIRY, None)
  }

  ghost predicate Writes(db: Db, w: seq<EventKind>) {
    && db.executions == map[0 := ExecutionRow()]
    && |db.events| == |w|
    && (forall i :: 0 <= i < |w| ==> db.events[i] == EventRow(i, w[i]))
    && (forall a :: a in db.audits ==> a < |w|)
    && db.claims == if WRITE_INTENT in w then map[0 := ClaimRow()] else map[]
  }

  /** The next event of a word is accepted once its audit row, and its claim row, are there. */
  lemma NextAccepted(db: Db, w: seq<EventKind>, k: EventKind)
    requires Linked(w + [k]) && SingleAcknowledgement(w + [k])
    requires db.executions == map[0 := ExecutionRow()]
    requires |db.events| == |w| && forall i :: 0 <= i < |w| ==> db.events[i] == EventRow(i, w[i])
    requires |w| in db.audits && db.audits[|w|] == AuditRow(k)
    requires db.claims == if WRITE_INTENT in w + [k] then map[0 := ClaimRow()] else map[]
    ensures EventAdmitted(db, EventRow(|w|, k))
  {
    var word := w + [k];
    var i := |w|;
    var n := EventRow(i, k);
    NoIntentYet(w, k);
    assert word[i] == k && forall a :: 0 <= a < i ==> word[a] == w[a] == db.events[a].kind;
    assert EventKeys(db, n) by {
      forall x | x in db.events
        ensures x.eventId < i && x.auditEventId < i && x.sequence <= i
        ensures x.kind == k ==> k !in {WRITE_INTENT, ACKNOWLEDGED}
      {
        var a :| 0 <= a < i && db.events[a] == x;
        assert x.kind == word[a];
      }
    }
    if i > 0 {
      assert MayFollow(word[i - 1], word[i]);
      assert i > 1 ==> MayFollow(word[i - 2], word[i - 1]);
      assert Succeeds(db.events[i - 1], n);
    }
    assert k == CLAIMED ==> WRITE_INTENT !in word;
    assert FenceAllows(db.claims, n);
    assert EventChecks(n);
  }

  lemma ReachAudit(db: Db, id: Id, a: Audit)
    requires Reachable(db) && id !in db.audits
    ensures Reachable(db.(audits := db.audits[id := a]))
  {
    ReachApply(db, InsertAudit(id, a));
  }

  lemma ReachLease(db: Db)
    requires Reachable(db) && db.executions == map[0 := ExecutionRow()] && db.claims == map[]
    ensures Reachable(db.(claims := map[0 := ClaimRow()]))
  {
    assert "role"[0] != ' ';
    ReachApply(db, InsertClaim(0, ClaimRow()));
  }

  /** The audit row of the next event and, before an intent, its claim row are accepted. */
  lemma Prepare(db: Db, w: seq<EventKind>, k: EventKind) returns (ready: Db)
    requires Reachable(db) && Writes(db, w) && Linked(w + [k])
    ensures Reachable(ready)
    ensures ready.executions == db.executions && ready.events == db.events
    ensures ready.audits == db.audits[|w| := AuditRow(k)]
    ensures ready.claims == if WRITE_INTENT in w + [k] then map[0 := ClaimRow()] else map[]
  {
    NoIntentYet(w, k);
    ReachAudit(db, |w|, AuditRow(k));
    ready := db.(audits := db.audits[|w| := AuditRow(k)]);
    if k == WRITE_INTENT {
      ReachLease(ready);
      ready := ready.(claims := map[0 := ClaimRow()]);
    }
  }

  lemma WriteNext(db: Db, w: seq<EventKind>, k: EventKind) returns (now: Db)
    requires Reachable(db) && Writes(db, w)
    requires Linked(w + [k]) && SingleAcknowledgement(w + [k])
    ensures Reachable(now) && Writes(now, w + [k])
  {
    hide Reachable, Linked, EventAdmitted;
    var ready := Prepare(db, w, k);
    NextAccepted(ready, w, k);
    ReachApply(ready, InsertEvent(EventRow(|w|, k)));
    now := Apply(ready, InsertEvent(EventRow(|w|, k)));
  }

  /** Neither CLAIMED nor WRITE_INTENT comes after a write intent. */
  lemma NoIntentYet(w: seq<EventKind>, k: EventKind)
    requires Linked(w + [k])
    ensures k in {CLAIMED, WRITE_INTENT} ==> WRITE_INTENT !in w
    ensures forall i :: 0 <= i < |w| ==> w[i] != EXPIRED
  {
    var word := w + [k];
    TableLanguage(word);
    var claims: nat :| Shape(word, claims);
    forall i | 0 <= i < |w|
      ensures w[i] != EXPIRED && (k in {CLAIMED, WRITE_INTENT} ==> w[i] != WRITE_INTENT)
    {
      assert w[i] == word[i] && word[|w|] == k;
    }
  }

  lemma {:induction false} WriteWord(w: seq<EventKind>) returns (db: Db)
    requires Linked(w) && SingleAcknowledgement(w)
    ensures Reachable(db) && Writes(db, w)
    decreases |w|
  {
    if w == [] {
      db := Admitted();
    } else {
      var u, k := w[..|w| - 1], w[|w| - 1];
      assert w == u + [k];
      var before := WriteWord(u);
      db := WriteNext(before, u, k);
    }
  }

  lemma {:induction false} SingleJournal(events: seq<Event>, x: Id)
    requires forall v :: v in events ==> v.executionId == x
    ensures Journal(events, x) == events
    decreases |events|
  {
    if events != [] {
      SingleJournal(events[..|events| - 1], x);
    }
  }

  /**
   A word is the journal of some execution in some reachable database if and only if it is
   REQUESTED CLAIMED* followed by one of the four endings, with at most one acknowledgement.
   */
  lemma ReachableJournals(w: seq<EventKind>)
    ensures ReachableJournal(w) <==> InLanguage(w) && SingleAcknowledgement(w)
  {
    TableLanguage(w);
    if Linked(w) && SingleAcknowledgement(w) {
      var db := WriteWord(w);
      SingleJournal(db.events, 0);
      assert Kinds(Journal(db.events, 0)) == w;
    }
    if ReachableJournal(w) {
      var db, x :| Reachable(db) && Kinds(Journal(db.events, x)) == w;
      var steps :| db == Run(Empty(), steps);
      ReachableJournalOk(steps, x);
      var j := Journal(db.events, x);
      JournalIsLinked(db.executions, j, x);
    }
  }

  /** Gap-free, chained by digest and never earlier than what went before. */
  lemma ReachableJournalOrdered(steps: seq<Step>, x: Id, i: nat, k: nat)
    requires i <= k < |Journal(Run(Empty(), steps).events, x)|
    ensures var j := Journal(Run(Empty(), steps).events, x);
            && j[k].sequence == k + 1
            && j[i].createdAt <= j[k].createdAt
            && (k == 0 <==> j[k].previous.None?)
            && (k > 0 ==> j[k].previous == Some(j[k - 1].sha))
  {
    var db := Run(Empty(), steps);
    ReachableJournalOk(steps, x);
    var j := Journal(db.events, x);
    TimesOrdered(db.executions, j, x, i, k);
    assert k > 0 ==> Succeeds(j[k - 1], j[k]);
  }
}
