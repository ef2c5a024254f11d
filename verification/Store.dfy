/**
 The database itself: tables updated in place, one method a statement. Every method keeps the
 invariant, whoever calls it and in whatever order, and says what an accepted statement means for
 its caller. `Replay` shows that a fresh store offered any statements ends in the state `Run`
 gives, so the theorems about runs are theorems about stores.
 */
module Store {
  import opened Wrappers
  import opened Scans
  import opened Protocol
  import opened Journals
  import opened Invariants
  import opened RunSafety

  // ----- What acceptance means -----

  /** The event continues its journal: next number, chained digest, no earlier time. */
  ghost predicate Continues(j: seq<Event>, n: Event) {
    && n.sequence == |j| + 1
    && if j == [] then n.kind == REQUESTED && n.previous.None?
       else n.previous == Some(j[|j| - 1].sha) && j[|j| - 1].createdAt <= n.createdAt
  }

  lemma EventMeans(db: Db, n: Event)
    requires Inv(db) && EventAdmitted(db, n)
    ensures Continues(Journal(db.events, n.executionId), n)
    ensures Journal(db.events + [n], n.executionId) == Journal(db.events, n.executionId) + [n]
    ensures n.kind in {WRITE_INTENT, ACKNOWLEDGED} ==> !HasEvent(db.events, n.executionId, n.kind)
  {
    hide InWindow, FenceAllows, EventAudited;
    NextInSequence(db, n);
    JournalAppend(db.events, n, n.executionId);
  }

  /** Between two versions of a claim row: counters within budget, and no rotation under an intent. */
  ghost predicate ClaimAdvances(events: seq<Event>, id: Id, was: Claim, now: Claim) {
    && was.readAttempts <= now.readAttempts <= 3 && was.readbackAttempts <= now.readbackAttempts <= 3
    && (if now.token == was.token then SameLease(was, now) else now.generation == was.generation + 1)
    && (HasEvent(events, id, WRITE_INTENT) ==> SameLease(was, now))
  }

  lemma ClaimMeans(db: Db, id: Id, c: Claim)
    requires Inv(db) && Accepts(db, UpdateClaim(id, c))
    ensures ClaimAdvances(db.events, id, db.claims[id], c)
  {
    assert JournalOk(db.executions, Journal(db.events, id), id);
    ClaimStep(db, UpdateClaim(id, c), id);
  }

  lemma ReservationMeans(db: Db, id: Id, r: Reservation, x: Id)
    requires Inv(db) && Accepts(db, UpdateReservation(id, r))
    requires db.reservations[id].executionId == Some(x) && HasEvent(db.events, x, QUARANTINED)
    ensures r.executionId == Some(x)
  {
    QuarantineNotTerminal(db, x);
  }

  /** Three different humans, one standing approval, the first and only execution of its proposal. */
  ghost predicate ThirdHuman(db: Db, x: Execution) {
    && x.proposalId in db.proposals && x.approvalId in db.decisions
    && var p, d := db.proposals[x.proposalId], db.decisions[x.approvalId];
    && d.kind == APPROVE && d.proposalId == x.proposalId && d.proposalSha == p.sha
    && p.actor != d.actor && p.actor != x.actor && d.actor != x.actor
    && p.createdAt <= d.createdAt <= x.createdAt < x.expiresAt <= p.expiresAt
    && !Revoked(db.decisions, x.proposalId)
    && forall o :: o in db.executions ==> db.executions[o].proposalId != x.proposalId
  }

  lemma ExecutionMeans(db: Db, id: Id, x: Execution)
    requires Inv(db) && ExecutionAdmitted(db, id, x)
    ensures ThirdHuman(db, x)
  {
    assert DecisionOk(db.proposals, db.decisions[x.approvalId]);
  }

  /** From a revocation on, no execution of the proposal can be admitted. */
  lemma RevocationMeans(db: Db, id: Id, d: Decision)
    requires DecisionAdmitted(db, id, d) && d.kind == REVOKE
    ensures forall e: Id, x: Execution :: x.proposalId == d.proposalId ==>
              !ExecutionAdmitted(Apply(db, InsertDecision(id, d)), e, x)
  {
    var decisions := db.decisions[id := d];
    assert id in decisions && decisions[id] == d;
    assert Revoked(decisions, d.proposalId);
  }

  lemma VerificationMeans(db: Db, v: Verification)
    requires Inv(db) && VerificationAdmitted(db, v)
    ensures v.attempt == |AttemptsOf(db.verifications, v.executionId)| + 1 <= 3
    ensures AttemptsOf(db.verifications + [v], v.executionId) == AttemptsOf(db.verifications, v.executionId) + [v]
    ensures forall w :: w in AttemptsOf(db.verifications, v.executionId) ==>
              w.verificationId in db.receipts && w.scanId != v.scanId
  {
    hide Inv, VerificationAdmitted, VerificationChecks, AttemptsOf;
    AdmittedAttempt(db, v);
    AttemptAppended(db.verifications, v);
    AttemptsOfMembers(db.verifications, v.executionId);
  }

  lemma AdmittedAttempt(db: Db, v: Verification)
    requires VerificationAdmitted(db, v)
    ensures v.attempt == |AttemptsOf(db.verifications, v.executionId)| + 1 <= 3
    ensures forall w :: w in db.verifications ==>
              w.scanId != v.scanId && (w.executionId == v.executionId ==> w.verificationId in db.receipts)
  {
    hide AttemptsOf;
  }

  lemma AttemptAppended(verifications: seq<Verification>, v: Verification)
    ensures AttemptsOf(verifications + [v], v.executionId) == AttemptsOf(verifications, v.executionId) + [v]
  {
    assert (verifications + [v])[..|verifications|] == verifications;
  }

  /** The last attempt of its execution, whose scan is over. */
  ghost predicate Concludes(db: Db, v: Verification, r: Receipt) {
    var attempts := AttemptsOf(db.verifications, v.executionId);
    && attempts != [] && attempts[|attempts| - 1] == v
    && v.scanId in db.scans && db.scans[v.scanId].status != RUNNING
    && db.scans[v.scanId].completedAt == Some(r.createdAt) && v.createdAt <= r.createdAt
  }

  lemma ReceiptMeans(db: Db, id: Id, r: Receipt) returns (v: Verification)
    requires Inv(db) && ReceiptAdmitted(db, id, r)
    ensures v in db.verifications && v.verificationId == id && Concludes(db, v, r)
  {
    v :| && v in db.verifications && v.verificationId == id && v.scanId in db.scans
         && db.scans[v.scanId].status != RUNNING && db.scans[v.scanId].completedAt == Some(r.createdAt)
         && r.createdAt >= v.createdAt;
    var attempts := AttemptsOf(db.verifications, v.executionId);
    AttemptsOfMembers(db.verifications, v.executionId);
    assert AttemptsInOrder(attempts, db.receipts.Keys);
    var i :| 0 <= i < |attempts| && attempts[i] == v;
  }

  class RemediationStore {
    var resources: map<Id, Resource>
    var findings: map<Id, Finding>
    var scans: map<Id, Scan>
    var occurrences: map<Id, Occurrence>
    var audits: map<Id, Audit>
    var proposals: map<Id, Proposal>
    var decisions: map<Id, Decision>
    var executions: map<Id, Execution>
    var events: seq<Event>
    var claims: map<Id, Claim>
    var reservations: map<Id, Reservation>
    var verifications: seq<Verification>
    var receipts: map<Id, Receipt>

    function Snapshot(): Db
      reads this
    {
      Db(resources, findings, scans, occurrences, audits, proposals, decisions, executions, events,
         claims, reservations, verifications, receipts)
    }

    ghost predicate Valid()
      reads this
    {
      Inv(Snapshot())
    }

    constructor ()
      ensures Valid() && Snapshot() == Empty()
    {
      resources, findings, scans, occurrences, audits := map[], map[], map[], map[], map[];
      proposals, decisions, executions, events, claims := map[], map[], map[], [], map[];
      reservations, verifications, receipts := map[], [], map[];
      new;
      ReachableInv([]);
    }

    method InsertResource(id: Id, resource: Resource) returns (accepted: bool)
      requires Valid()
      modifies this
      ensures Valid()
      ensures accepted == Accepts(old(Snapshot()), Step.InsertResource(id, resource))
      ensures Snapshot() == Exec(old(Snapshot()), Step.InsertResource(id, resource))
    {
      hide Inv;
      ghost var before := Snapshot();
      accepted :=
        id !in resources;
      if accepted {
        resources := resources[id := resource];
      }
      StepKeepsInv(before, Step.InsertResource(id, resource));
    }

    method InsertFinding(id: Id, finding: Finding) returns (accepted: bool)
      requires Valid()
      modifies this
      ensures Valid()
      ensures accepted == Accepts(old(Snapshot()), Step.InsertFinding(id, finding))
      ensures Snapshot() == Exec(old(Snapshot()), Step.InsertFinding(id, finding))
    {
      hide Inv;
      ghost var before := Snapshot();
      accepted :=
        id !in findings && finding.resourceId in resources;
      if accepted {
        findings := findings[id := finding];
      }
      StepKeepsInv(before, Step.InsertFinding(id, finding));
    }

    method InsertScan(id: Id, scan: Scan) returns (accepted: bool)
      requires Valid()
      modifies this
      ensures Valid()
      ensures accepted == Accepts(old(Snapshot()), Step.InsertScan(id, scan))
      ensures Snapshot() == Exec(old(Snapshot()), Step.InsertScan(id, scan))
    {
      hide Inv;
      ghost var before := Snapshot();
      accepted :=
        id !in scans && ScanInsertable(scan);
      if accepted {
        scans := scans[id := scan];
      }
      StepKeepsInv(before, Step.InsertScan(id, scan));
    }

    method UpdateScan(id: Id, scan: Scan) returns (accepted: bool)
      requires Valid()
      modifies this
      ensures Valid()
      ensures accepted == Accepts(old(Snapshot()), Step.UpdateScan(id, scan))
      ensures Snapshot() == Exec(old(Snapshot()), Step.UpdateScan(id, scan))
    {
      hide Inv;
      ghost var before := Snapshot();
      accepted :=
        id in scans && ScanUpdatable(scans[id], scan);
      if accepted {
        scans := scans[id := scan];
      }
      StepKeepsInv(before, Step.UpdateScan(id, scan));
    }

    method DeleteScan(id: Id) returns (accepted: bool)
      requires Valid()
      modifies this
      ensures Valid()
      ensures accepted == Accepts(old(Snapshot()), Step.DeleteScan(id))
      ensures Snapshot() == Exec(old(Snapshot()), Step.DeleteScan(id))
    {
      hide Inv;
      ghost var before := Snapshot();
      accepted :=
        id in scans && scans[id].status == RUNNING && ScanUnreferenced(Snapshot(), id);
      if accepted {
        scans := scans - {id};
      }
      StepKeepsInv(before, Step.DeleteScan(id));
    }

    method InsertOccurrence(id: Id, occurrence: Occurrence) returns (accepted: bool)
      requires Valid()
      modifies this
      ensures Valid()
      ensures accepted == Accepts(old(Snapshot()), Step.InsertOccurrence(id, occurrence))
      ensures Snapshot() == Exec(old(Snapshot()), Step.InsertOccurrence(id, occurrence))
    {
      hide Inv;
      ghost var before := Snapshot();
      accepted :=
        id !in occurrences && occurrence.findingId in findings && occurrence.scanId in scans
        && scans[occurrence.scanId].status == RUNNING;
      if accepted {
        occurrences := occurrences[id := occurrence];
      }
      StepKeepsInv(before, Step.InsertOccurrence(id, occurrence));
    }

    method InsertAudit(id: Id, audit: Audit) returns (accepted: bool)
      requires Valid()
      modifies this
      ensures Valid()
      ensures accepted == Accepts(old(Snapshot()), Step.InsertAudit(id, audit))
      ensures Snapshot() == Exec(old(Snapshot()), Step.InsertAudit(id, audit))
    {
      hide Inv;
      ghost var before := Snapshot();
      accepted :=
        id !in audits;
      if accepted {
        audits := audits[id := audit];
      }
      StepKeepsInv(before, Step.InsertAudit(id, audit));
    }

    method InsertProposal(id: Id, proposal: Proposal) returns (accepted: bool)
      requires Valid()
      modifies this
      ensures Valid()
      ensures accepted == Accepts(old(Snapshot()), Step.InsertProposal(id, proposal))
      ensures Snapshot() == Exec(old(Snapshot()), Step.InsertProposal(id, proposal))
    {
      hide Inv;
      ghost var before := Snapshot();
      accepted :=
        ProposalAdmitted(Snapshot(), id, proposal);
      if accepted {
        proposals := proposals[id := proposal];
      }
      StepKeepsInv(before, Step.InsertProposal(id, proposal));
    }

    method InsertDecision(id: Id, decision: Decision) returns (accepted: bool)
      requires Valid()
      modifies this
      ensures Valid()
      ensures accepted == Accepts(old(Snapshot()), Step.InsertDecision(id, decision))
      ensures Snapshot() == Exec(old(Snapshot()), Step.InsertDecision(id, decision))
      ensures accepted && decision.kind == REVOKE ==>
                forall e: Id, x: Execution :: x.proposalId == decision.proposalId ==>
                  !ExecutionAdmitted(Snapshot(), e, x)
    {
      hide Inv;
      ghost var before := Snapshot();
      if DecisionAdmitted(before, id, decision) && decision.kind == REVOKE {
        RevocationMeans(before, id, decision);
      }
      accepted :=
        DecisionAdmitted(Snapshot(), id, decision);
      if accepted {
        decisions := decisions[id := decision];
      }
      StepKeepsInv(before, Step.InsertDecision(id, decision));
    }

    method InsertExecution(id: Id, execution: Execution) returns (accepted: bool)
      requires Valid()
      modifies this
      ensures Valid()
      ensures accepted == Accepts(old(Snapshot()), Step.InsertExecution(id, execution))
      ensures Snapshot() == Exec(old(Snapshot()), Step.InsertExecution(id, execution))
      ensures accepted ==> ThirdHuman(old(Snapshot()), execution)
    {
      hide Inv;
      ghost var before := Snapshot();
      if ExecutionAdmitted(before, id, execution) {
        ExecutionMeans(before, id, execution);
      }
      accepted :=
        ExecutionAdmitted(Snapshot(), id, execution);
      if accepted {
        executions := executions[id := execution];
      }
      StepKeepsInv(before, Step.InsertExecution(id, execution));
    }

    method InsertEvent(event: Event) returns (accepted: bool)
      requires Valid()
      modifies this
      ensures Valid()
      ensures accepted == Accepts(old(Snapshot()), Step.InsertEvent(event))
      ensures Snapshot() == Exec(old(Snapshot()), Step.InsertEvent(event))
      ensures accepted ==> Continues(Journal(old(events), event.executionId), event)
      ensures accepted ==> Journal(events, event.executionId) == Journal(old(events), event.executionId) + [event]
      ensures accepted && event.kind in {WRITE_INTENT, ACKNOWLEDGED} ==>
                !HasEvent(old(events), event.executionId, event.kind)
    {
      hide Inv;
      ghost var before := Snapshot();
      if EventAdmitted(before, event) {
        EventMeans(before, event);
      }
      accepted :=
        EventAdmitted(Snapshot(), event);
      if accepted {
        events := events + [event];
      }
      StepKeepsInv(before, Step.InsertEvent(event));
    }

    method InsertClaim(id: Id, claim: Claim) returns (accepted: bool)
      requires Valid()
      modifies this
      ensures Valid()
      ensures accepted == Accepts(old(Snapshot()), Step.InsertClaim(id, claim))
      ensures Snapshot() == Exec(old(Snapshot()), Step.InsertClaim(id, claim))
    {
      hide Inv;
      ghost var before := Snapshot();
      accepted :=
        id !in claims && ClaimChecks(claim) && ClaimInScope(Snapshot(), id, claim);
      if accepted {
        claims := claims[id := claim];
      }
      StepKeepsInv(before, Step.InsertClaim(id, claim));
    }

    method UpdateClaim(id: Id, claim: Claim) returns (accepted: bool)
      requires Valid()
      modifies this
      ensures Valid()
      ensures accepted == Accepts(old(Snapshot()), Step.UpdateClaim(id, claim))
      ensures Snapshot() == Exec(old(Snapshot()), Step.UpdateClaim(id, claim))
      ensures accepted ==>
                id in old(claims) && id in claims && ClaimAdvances(old(events), id, old(claims)[id], claims[id])
    {
      hide Inv, ClaimInScope, FencePreserved, ClaimAdvances;
      ghost var before := Snapshot();
      if Accepts(before, Step.UpdateClaim(id, claim)) {
        ClaimMeans(before, id, claim);
      }
      accepted :=
        id in claims && ClaimChecks(claim) && ClaimInScope(Snapshot(), id, claim)
        && FencePreserved(events, id, claims[id], claim);
      if accepted {
        claims := claims[id := claim];
      }
      StepKeepsInv(before, Step.UpdateClaim(id, claim));
    }

    method InsertReservation(id: Id, reservation: Reservation) returns (accepted: bool)
      requires Valid()
      modifies this
      ensures Valid()
      ensures accepted == Accepts(old(Snapshot()), Step.InsertReservation(id, reservation))
      ensures Snapshot() == Exec(old(Snapshot()), Step.InsertReservation(id, reservation))
    {
      hide Inv;
      ghost var before := Snapshot();
      accepted :=
        id !in reservations && ReservationAdmitted(Snapshot(), id, reservation);
      if accepted {
        reservations := reservations[id := reservation];
      }
      StepKeepsInv(before, Step.InsertReservation(id, reservation));
    }

    method UpdateReservation(id: Id, reservation: Reservation) returns (accepted: bool)
      requires Valid()
      modifies this
      ensures Valid()
      ensures accepted == Accepts(old(Snapshot()), Step.UpdateReservation(id, reservation))
      ensures Snapshot() == Exec(old(Snapshot()), Step.UpdateReservation(id, reservation))
      ensures accepted ==> id in old(reservations) && id in reservations
      ensures forall x :: accepted && id in old(reservations) && id in reservations
                && old(reservations)[id].executionId == Some(x) && HasEvent(old(events), x, QUARANTINED)
                ==> reservations[id].executionId == Some(x)
    {
      hide Inv, ReservationAdmitted, ReservationReleasable, HasEvent;
      ghost var before := Snapshot();
      forall x | Accepts(before, Step.UpdateReservation(id, reservation))
                 && reservations[id].executionId == Some(x) && HasEvent(events, x, QUARANTINED)
        ensures reservation.executionId == Some(x)
      {
        ReservationMeans(before, id, reservation, x);
      }
      accepted :=
        id in reservations && ReservationAdmitted(Snapshot(), id, reservation)
        && ReservationReleasable(events, reservations[id], reservation);
      if accepted {
        reservations := reservations[id := reservation];
      }
      StepKeepsInv(before, Step.UpdateReservation(id, reservation));
    }

    method InsertVerification(verification: Verification) returns (accepted: bool)
      requires Valid()
      modifies this
      ensures Valid()
      ensures accepted == Accepts(old(Snapshot()), Step.InsertVerification(verification))
      ensures Snapshot() == Exec(old(Snapshot()), Step.InsertVerification(verification))
      ensures accepted ==> verification.attempt == |AttemptsOf(old(verifications), verification.executionId)| + 1 <= 3
      ensures accepted ==> AttemptsOf(verifications, verification.executionId)
                           == AttemptsOf(old(verifications), verification.executionId) + [verification]
      ensures accepted ==>
                forall w :: w in AttemptsOf(old(verifications), verification.executionId) ==>
                  w.verificationId in receipts && w.scanId != verification.scanId
    {
      hide Inv, VerificationAdmitted;
      ghost var before := Snapshot();
      if VerificationAdmitted(before, verification) {
        VerificationMeans(before, verification);
      }
      accepted :=
        VerificationAdmitted(Snapshot(), verification);
      if accepted {
        verifications := verifications + [verification];
      }
      StepKeepsInv(before, Step.InsertVerification(verification));
    }

    method InsertReceipt(id: Id, receipt: Receipt) returns (accepted: bool)
      requires Valid()
      modifies this
      ensures Valid()
      ensures accepted == Accepts(old(Snapshot()), Step.InsertReceipt(id, receipt))
      ensures Snapshot() == Exec(old(Snapshot()), Step.InsertReceipt(id, receipt))
      ensures accepted ==>
                exists v :: v in verifications && v.verificationId == id && Concludes(old(Snapshot()), v, receipt)
    {
      hide Inv;
      ghost var before := Snapshot();
      if ReceiptAdmitted(before, id, receipt) {
        ghost var _ := ReceiptMeans(before, id, receipt);
      }
      accepted :=
        ReceiptAdmitted(Snapshot(), id, receipt);
      if accepted {
        receipts := receipts[id := receipt];
      }
      StepKeepsInv(before, Step.InsertReceipt(id, receipt));
    }

    method Perform(s: Step) returns (accepted: bool)
      requires Valid()
      modifies this
      ensures Valid()
      ensures accepted == Accepts(old(Snapshot()), s)
      ensures Snapshot() == Exec(old(Snapshot()), s)
    {
      match s
      case InsertResource(id, resource) => accepted := InsertResource(id, resource);
      case InsertFinding(id, finding) => accepted := InsertFinding(id, finding);
      case InsertScan(id, scan) => accepted := InsertScan(id, scan);
      case UpdateScan(id, scan) => accepted := UpdateScan(id, scan);
      case DeleteScan(id) => accepted := DeleteScan(id);
      case InsertOccurrence(id, occurrence) => accepted := InsertOccurrence(id, occurrence);
      case InsertAudit(id, audit) => accepted := InsertAudit(id, audit);
      case InsertProposal(id, proposal) => accepted := InsertProposal(id, proposal);
      case InsertDecision(id, decision) => accepted := InsertDecision(id, decision);
      case InsertExecution(id, execution) => accepted := InsertExecution(id, execution);
      case InsertEvent(event) => accepted := InsertEvent(event);
      case InsertClaim(id, claim) => accepted := InsertClaim(id, claim);
      case UpdateClaim(id, claim) => accepted := UpdateClaim(id, claim);
      case InsertReservation(id, reservation) => accepted := InsertReservation(id, reservation);
      case UpdateReservation(id, reservation) => accepted := UpdateReservation(id, reservation);
      case InsertVerification(verification) => accepted := InsertVerification(verification);
      case InsertReceipt(id, receipt) => accepted := InsertReceipt(id, receipt);
    }

    /** Offer every statement in turn; refused ones leave no trace. */
    method Replay(steps: seq<Step>)
      requires Valid()
      modifies this
      ensures Valid()
      ensures Snapshot() == Run(old(Snapshot()), steps)
    {
      var i := 0;
      assert steps[..0] == [];
      while i < |steps|
        invariant Valid() && 0 <= i <= |steps|
        invariant Snapshot() == Run(old(Snapshot()), steps[..i])
      {
        var _ := Perform(steps[i]);
        i := i + 1;
        assert steps[..i][..i - 1] == steps[..i - 1];
      }
      assert steps[..i] == steps;
    }
  }
}
