/**
 Revision 0008 (admission only) against revisions 0009 and 0010 (worker and verification): what
 the downgrade preflights let through is exactly what the older schema could have produced.
 */
module Downgrade {
  import opened Wrappers
  import opened Scans
  import opened Protocol
  import opened Journals
  import opened Invariants

  // ----- The guards of revision 0008 -----

  predicate OldEventChecks(n: Event) {
    && 1 <= n.sequence <= 2
    && n.kind in {REQUESTED, EXPIRED, BLOCKED}
    && IsDigest(n.sha)
    && ( || (n.sequence == 1 && n.kind == REQUESTED && n.previous.None?)
         || ( && n.sequence == 2 && n.kind in {EXPIRED, BLOCKED}
              && (n.previous.Some? ==> IsDigest(n.previous.value))))
  }

  predicate OldEventAdmitted(db: Db, n: Event) {
    && OldEventChecks(n)
    && n.executionId in db.executions
    && (forall x :: x in db.events ==>
          && x.eventId != n.eventId && x.auditEventId != n.auditEventId
          && (x.executionId, x.sequence) != (n.executionId, n.sequence))
    && (var x := db.executions[n.executionId];
        && n.createdAt >= x.createdAt && (n.kind == EXPIRED ==> n.createdAt >= x.expiresAt))
    && (n.sequence == 2 ==>
          exists v :: v in db.events && v.executionId == n.executionId && v.sequence == 1
                      && n.previous == Some(v.sha) && n.createdAt >= v.createdAt)
    && EventAudited(db.audits, n)
  }

  /** The older notion of terminal: there is a second event. */
  predicate OldTerminal(events: seq<Event>, x: Id) {
    exists v :: v in events && v.executionId == x && v.sequence == 2
  }

  predicate OldReservationAdmitted(db: Db, id: Id, r: Reservation) {
    && ReservationChecks(r) && ReservationKeys(db.reservations, id, r)
    && r.resourceId in db.resources
    && db.resources[r.resourceId] == Resource(r.account, r.region)
    && (r.executionId.Some? ==>
          && ActsOn(db.executions, db.proposals, db.findings, r.executionId.value, r)
          && !OldTerminal(db.events, r.executionId.value))
  }

  predicate OldReleasable(events: seq<Event>, was: Reservation, now: Reservation) {
    was.executionId.Some? && now.executionId != was.executionId ==> OldTerminal(events, was.executionId.value)
  }

  /** The audit CHECK of revision 0008 knows no worker and no verification event. */
  predicate OldAuditType(t: AuditType) {
    match t
    case REMEDIATION_EXECUTION(kind) => kind in {REQUESTED, EXPIRED, BLOCKED}
    case VERIFICATION_REQUESTED => false
    case VERIFICATION_COMPLETED => false
    case _ => true
  }

  predicate OldAccepts(db: Db, s: Step) {
    match s
    case InsertAudit(id, a) => OldAuditType(a.eventType) && Accepts(db, s)
    case InsertEvent(n) => OldEventAdmitted(db, n)
    case InsertReservation(id, r) => id !in db.reservations && OldReservationAdmitted(db, id, r)
    case UpdateReservation(id, r) =>
      id in db.reservations && OldReservationAdmitted(db, id, r)
      && OldReleasable(db.events, db.reservations[id], r)
    case InsertClaim(_, _) => false
    case UpdateClaim(_, _) => false
    case InsertVerification(_) => false
    case InsertReceipt(_, _) => false
    case _ => Accepts(db, s)
  }

  function OldExec(db: Db, s: Step): Db {
    if OldAccepts(db, s) then Apply(db, s) else db
  }

  function OldRun(db: Db, steps: seq<Step>): Db
    decreases |steps|
  {
    if steps == [] then db else OldExec(OldRun(db, steps[..|steps| - 1]), steps[|steps| - 1])
  }

  // ----- The preflights -----

  predicate WorkerPreflight(claims: map<Id, Claim>, events: seq<Event>, audits: map<Id, Audit>) {
    && claims == map[]
    && (forall v :: v in events ==> v.kind in {REQUESTED, EXPIRED, BLOCKED})
    && (forall a :: a in audits && audits[a].eventType.REMEDIATION_EXECUTION? ==>
          audits[a].eventType.kind in {REQUESTED, EXPIRED, BLOCKED})
  }

  predicate VerificationPreflight(
    verifications: seq<Verification>, receipts: map<Id, Receipt>, audits: map<Id, Audit>)
  {
    && verifications == [] && receipts == map[]
    && (forall a :: a in audits ==> audits[a].eventType !in {VERIFICATION_REQUESTED, VERIFICATION_COMPLETED})
  }

  predicate Preflight(db: Db) {
    && WorkerPreflight(db.claims, db.events, db.audits)
    && VerificationPreflight(db.verifications, db.receipts, db.audits)
  }

  // ----- Agreement on states that pass -----

  lemma ShortWord(w: seq<EventKind>, claims: nat)
    requires Shape(w, claims) && forall i :: 0 <= i < |w| ==> w[i] in {REQUESTED, EXPIRED, BLOCKED}
    ensures |w| <= 2 && (w != [] ==> w[0] == REQUESTED) && (|w| == 2 ==> w[1] in {EXPIRED, BLOCKED})
  {
    assert |w| > 1 ==> w[1] != CLAIMED;
  }

  /** A journal without worker events is at most REQUESTED and one EXPIRED or BLOCKED. */
  lemma ShortJournal(executions: map<Id, Execution>, j: seq<Event>, x: Id)
    requires JournalOk(executions, j, x)
    requires forall v :: v in j ==> v.kind in {REQUESTED, EXPIRED, BLOCKED}
    ensures |j| <= 2
    ensures j != [] ==> j[0].kind == REQUESTED
    ensures |j| == 2 ==> j[1].kind in {EXPIRED, BLOCKED}
  {
    JournalIsLinked(executions, j, x);
    TableLanguage(Kinds(j));
    if j != [] {
      var claims: nat :| Shape(Kinds(j), claims);
      forall i | 0 <= i < |j| ensures Kinds(j)[i] in {REQUESTED, EXPIRED, BLOCKED} {
        assert j[i] in j && Kinds(j)[i] == j[i].kind;
      }
      ShortWord(Kinds(j), claims);
    }
  }

  /** The two notions of terminal coincide wherever the worker preflight passes. */
  lemma TerminalsCoincide(db: Db, x: Id)
    requires JournalOk(db.executions, Journal(db.events, x), x) && WorkerPreflight(db.claims, db.events, db.audits)
    ensures Terminal(db.events, x) <==> OldTerminal(db.events, x)
  {
    var j := Journal(db.events, x);
    ShortJournal(db.executions, j, x);
    forall v | v in j ensures v.sequence == 2 <==> v.kind in {EXPIRED, BLOCKED} {
      var i :| 0 <= i < |j| && j[i] == v;
    }
    assert forall v :: v in db.events && v.executionId == x ==> v in j;
    assert |j| == 2 ==> j[1] in j;
  }

  lemma OldEventStillAdmitted(db: Db, n: Event)
    requires JournalOk(db.executions, Journal(db.events, n.executionId), n.executionId)
    requires WorkerPreflight(db.claims, db.events, db.audits) && OldEventAdmitted(db, n)
    ensures EventAdmitted(db, n)
  {
    var j := Journal(db.events, n.executionId);
    ShortJournal(db.executions, j, n.executionId);
    if n.sequence == 2 {
      var v :| v in j && v.sequence == 1 && n.previous == Some(v.sha) && n.createdAt >= v.createdAt;
      assert Succeeds(v, n);
    }
    assert j != [] ==> j[0] in j && j[0].sequence == 1;
    forall v | v in j ensures v.sequence < n.sequence {
      var i :| 0 <= i < |j| && j[i] == v;
    }
    assert EventKeys(db, n);
  }

  lemma NewEventWasAdmitted(db: Db, n: Event)
    requires n.kind in {REQUESTED, EXPIRED, BLOCKED} && EventAdmitted(db, n)
    ensures OldEventAdmitted(db, n)
  {
    if n.sequence == 2 {
      var v :| v in db.events && Succeeds(v, n);
    }
  }

  /** Which events keep the preflight passing. */
  lemma PassingEvents(db: Db, n: Event)
    requires Preflight(db)
    ensures Preflight(db.(events := db.events + [n])) <==> n.kind in {REQUESTED, EXPIRED, BLOCKED}
  {
    assert n in db.events + [n];
  }

  lemma EventStepsCoincide(db: Db, n: Event)
    requires JournalsOk(db) && Preflight(db)
    ensures OldEventAdmitted(db, n) <==>
              EventAdmitted(db, n) && Preflight(db.(events := db.events + [n]))
  {
    hide EventAdmitted;
    assert JournalOk(db.executions, Journal(db.events, n.executionId), n.executionId);
    PassingEvents(db, n);
    if OldEventAdmitted(db, n) {
      OldEventStillAdmitted(db, n);
    } else if n.kind in {REQUESTED, EXPIRED, BLOCKED} && EventAdmitted(db, n) {
      NewEventWasAdmitted(db, n);
    }
  }

  lemma AuditStepsCoincide(db: Db, id: Id, a: Audit)
    requires Preflight(db) && id !in db.audits
    ensures OldAuditType(a.eventType) <==> Preflight(db.(audits := db.audits[id := a]))
  {
    var audits := db.audits[id := a];
    assert id in audits && audits[id] == a;
  }

  lemma ReservationStepsCoincide(db: Db, id: Id, r: Reservation)
    requires JournalsOk(db) && Preflight(db)
    ensures OldReservationAdmitted(db, id, r) <==> ReservationAdmitted(db, id, r)
    ensures id in db.reservations ==>
              (OldReleasable(db.events, db.reservations[id], r)
               <==> ReservationReleasable(db.events, db.reservations[id], r))
  {
    ReservationsCoincide(db, r);
    if id in db.reservations {
      ReservationsCoincide(db, db.reservations[id]);
    }
  }

  /** Statements both schemas share and that no preflight looks at. */
  predicate Shared(s: Step) {
    || s.InsertResource? || s.InsertFinding? || s.InsertScan? || s.UpdateScan? || s.DeleteScan?
    || s.InsertOccurrence? || s.InsertProposal? || s.InsertDecision? || s.InsertExecution?
  }

  lemma SharedStepsCoincide(db: Db, s: Step)
    requires Shared(s)
    ensures OldAccepts(db, s) == Accepts(db, s)
  {
    match s
    case InsertResource(_, _) =>
    case InsertFinding(_, _) =>
    case InsertScan(_, _) =>
    case UpdateScan(_, _) =>
    case DeleteScan(_) =>
    case InsertOccurrence(_, _) =>
    case InsertProposal(_, _) =>
    case InsertDecision(_, _) =>
    case InsertExecution(_, _) =>
  }

  lemma SharedStepsKeepPassing(db: Db, s: Step)
    requires Shared(s)
    ensures Preflight(Apply(db, s)) == Preflight(db)
  {
    var after := Apply(db, s);
    assert after.claims == db.claims && after.events == db.events && after.audits == db.audits
           && after.verifications == db.verifications && after.receipts == db.receipts;
  }

  /** On a passing state the older schema accepts what the newer one does and still passes. */
  lemma StepsCoincide(db: Db, s: Step)
    requires JournalsOk(db) && Preflight(db)
    ensures OldAccepts(db, s) <==> Accepts(db, s) && Preflight(Apply(db, s))
  {
    if Shared(s) {
      SharedStepsCoincide(db, s);
      SharedStepsKeepPassing(db, s);
      return;
    }
    match s
    case InsertEvent(n) => EventStepsCoincide(db, n);
    case InsertAudit(id, a) =>
      if id !in db.audits {
        AuditStepsCoincide(db, id, a);
      }
    case InsertReservation(id, r) => ReservationStepsCoincide(db, id, r);
    case UpdateReservation(id, r) => ReservationStepsCoincide(db, id, r);
    case InsertClaim(id, _) => assert id in Apply(db, s).claims;
    case UpdateClaim(id, _) => assert id in Apply(db, s).claims;
    case InsertReceipt(id, _) => assert id in Apply(db, s).receipts;
    case InsertVerification(v) => assert v in Apply(db, s).verifications;
    case _ =>
  }

  lemma ReservationsCoincide(db: Db, r: Reservation)
    requires JournalsOk(db) && WorkerPreflight(db.claims, db.events, db.audits)
    ensures r.executionId.Some? ==>
              (Terminal(db.events, r.executionId.value) <==> OldTerminal(db.events, r.executionId.value))
  {
    if r.executionId.Some? {
      assert JournalOk(db.executions, Journal(db.events, r.executionId.value), r.executionId.value);
      TerminalsCoincide(db, r.executionId.value);
    }
  }

  /** Worker and verification history is never erased, so passing now means having passed always. */
  lemma PreflightPassedBefore(db: Db, s: Step)
    requires Preflight(Exec(db, s))
    ensures Preflight(db)
  {
    hide Apply, Accepts;
    if Accepts(db, s) {
      var after := Apply(db, s);
      StepGrows(db, s);
      ClaimsStay(db, s);
      assert forall v :: v in db.events ==> v in after.events;
    }
  }

  /** No statement deletes a claim, an audit, an attempt or a receipt. */
  lemma ClaimsStay(db: Db, s: Step)
    requires Accepts(db, s)
    ensures var after := Apply(db, s);
            && (after.claims == map[] ==> db.claims == map[])
            && (after.verifications == [] ==> db.verifications == [])
            && (after.receipts == map[] ==> db.receipts == map[])
  {
    hide Apply, Accepts;
    var after := Apply(db, s);
    StepGrows(db, s);
    assert forall x :: x in db.claims ==> x in after.claims.Keys;
  }

  // ----- Which states survive the downgrade -----

  ghost predicate ReachableAt0008(db: Db) {
    exists steps :: db == OldRun(Empty(), steps)
  }

  ghost predicate ReachableAt0010(db: Db) {
    exists steps :: db == Run(Empty(), steps)
  }

  lemma {:induction false} UpgradeSimulates(steps: seq<Step>) returns (kept: seq<Step>)
    ensures OldRun(Empty(), steps) == Run(Empty(), kept) && Preflight(Run(Empty(), kept))
    decreases |steps|
  {
    if steps == [] {
      kept := [];
    } else {
      var s := steps[|steps| - 1];
      kept := UpgradeSimulates(steps[..|steps| - 1]);
      var db := Run(Empty(), kept);
      if OldAccepts(db, s) {
        ReachableJournals(kept);
        StepsCoincide(db, s);
        assert (kept + [s])[..|kept|] == kept;
        kept := kept + [s];
      }
    }
  }

  lemma ReachableJournals(steps: seq<Step>)
    ensures JournalsOk(Run(Empty(), steps))
  {
    ReachableInv(steps);
  }

  lemma {:induction false} DowngradeSimulates(steps: seq<Step>) returns (kept: seq<Step>)
    requires Preflight(Run(Empty(), steps))
    ensures OldRun(Empty(), kept) == Run(Empty(), steps)
    decreases |steps|
  {
    if steps == [] {
      kept := [];
    } else {
      var s, prefix := steps[|steps| - 1], steps[..|steps| - 1];
      var db := Run(Empty(), prefix);
      PreflightPassedBefore(db, s);
      kept := DowngradeSimulates(prefix);
      if Accepts(db, s) {
        ReachableJournals(prefix);
        StepsCoincide(db, s);
        assert (kept + [s])[..|kept|] == kept;
        kept := kept + [s];
      }
    }
  }

  /**
   The preflights are sufficient and no stricter than they must be: a database of the newer
   schema passes them if and only if the older schema can reach it by itself.
   */
  lemma PreflightIsExact(db: Db)
    ensures ReachableAt0008(db) <==> ReachableAt0010(db) && Preflight(db)
  {
    if ReachableAt0008(db) {
      var steps :| db == OldRun(Empty(), steps);
      var kept := UpgradeSimulates(steps);
    }
    if ReachableAt0010(db) && Preflight(db) {
      var steps :| db == Run(Empty(), steps);
      var kept := DowngradeSimulates(steps);
    }
  }

  /** A row with a kind and a place revision 0008 knows passes either revision's CHECKs or neither. */
  lemma RowChecksCoincide(v: Event)
    requires v.kind in {REQUESTED, EXPIRED, BLOCKED}
    ensures OldEventChecks(v) <==> EventChecks(v)
  {
  }

  /** Rows a passing database keeps satisfy the CHECKs and the terminality of both revisions. */
  lemma PassingRowsFitBoth(steps: seq<Step>, x: Id)
    requires Preflight(Run(Empty(), steps))
    ensures var db := Run(Empty(), steps);
            && (forall v :: v in Journal(db.events, x) ==> OldEventChecks(v) && EventChecks(v))
            && (Terminal(db.events, x) <==> OldTerminal(db.events, x))
  {
    var db := Run(Empty(), steps);
    ReachableChecked(steps);
    forall v | v in Journal(db.events, x) ensures OldEventChecks(v) && EventChecks(v) {
      RowChecksCoincide(v);
    }
    ReachableJournalOk(steps, x);
    TerminalsCoincide(db, x);
  }

  /** And every journal revision 0008 can write satisfies the CHECKs of both. */
  lemma OldRowsFitBoth(steps: seq<Step>, x: Id)
    ensures var db := OldRun(Empty(), steps);
            && (forall v :: v in Journal(db.events, x) ==> OldEventChecks(v) && EventChecks(v))
            && (Terminal(db.events, x) <==> OldTerminal(db.events, x))
  {
    var kept := UpgradeSimulates(steps);
    PassingRowsFitBoth(kept, x);
  }
}
