/** What every accepted statement keeps, and hence what holds in every reachable database. */
module Invariants {
  import opened Wrappers
  import opened Scans
  import opened Protocol
  import opened Journals

  // ----- The invariant, table by table -----

  /** Append-only rows: what was there stays there, unchanged. */
  ghost predicate Grows<K, V>(was: map<K, V>, now: map<K, V>) {
    forall k :: k in was ==> k in now && now[k] == was[k]
  }

  ghost predicate ProposalOk(findings: map<Id, Finding>, occurrences: map<Id, Occurrence>, p: Proposal) {
    && p.expiresAt > p.createdAt
    && p.occurrenceId in occurrences && occurrences[p.occurrenceId].findingId == p.findingId
    && p.findingId in findings && findings[p.findingId].account == p.account
  }

  /** Nobody approves or rejects a proposal of their own, and approval precedes expiry. */
  ghost predicate DecisionOk(proposals: map<Id, Proposal>, d: Decision) {
    && d.proposalId in proposals
    && var p := proposals[d.proposalId];
    && d.proposalSha == p.sha && p.createdAt <= d.createdAt
    && (d.kind != REVOKE ==> d.actor != p.actor)
    && (d.kind == APPROVE ==> d.createdAt < p.expiresAt)
  }

  /** A third human executes an approved proposal, inside both windows. */
  ghost predicate ExecutionOk(proposals: map<Id, Proposal>, decisions: map<Id, Decision>, x: Execution) {
    && x.proposalId in proposals && x.approvalId in decisions
    && var p, d := proposals[x.proposalId], decisions[x.approvalId];
    && d.proposalId == x.proposalId && d.kind == APPROVE
    && x.actor != p.actor && x.actor != d.actor
    && d.createdAt <= x.createdAt < x.expiresAt <= p.expiresAt
    && x.expiresAt <= x.createdAt + FIVE_MINUTES
  }

  ghost predicate ProposalsOk(
    findings: map<Id, Finding>, occurrences: map<Id, Occurrence>, proposals: map<Id, Proposal>)
  {
    forall p :: p in proposals ==> ProposalOk(findings, occurrences, proposals[p])
  }

  ghost predicate DecisionsOk(proposals: map<Id, Proposal>, decisions: map<Id, Decision>) {
    forall d :: d in decisions ==> DecisionOk(proposals, decisions[d])
  }

  /** Every execution was admitted, and no proposal is executed twice. */
  ghost predicate ExecutionsOk(
    proposals: map<Id, Proposal>, decisions: map<Id, Decision>, executions: map<Id, Execution>)
  {
    && (forall x :: x in executions ==> ExecutionOk(proposals, decisions, executions[x]))
    && (forall x, y :: x in executions && y in executions ==>
          executions[x].proposalId == executions[y].proposalId ==> x == y)
  }

  ghost predicate AuthorityOk(db: Db) {
    && ProposalsOk(db.findings, db.occurrences, db.proposals)
    && DecisionsOk(db.proposals, db.decisions)
    && ExecutionsOk(db.proposals, db.decisions, db.executions)
  }

  ghost predicate ClaimsOk(db: Db) {
    forall id :: id in db.claims ==> ClaimChecks(db.claims[id]) && ClaimInScope(db, id, db.claims[id])
  }

  /** Every journaled intent was written under the lease its claim row still shows. */
  ghost predicate IntentsLeased(db: Db) {
    forall v :: v in db.events && v.kind == WRITE_INTENT ==>
      v.executionId in db.claims && v.createdAt < db.claims[v.executionId].leaseUntil
  }

  ghost predicate ReservationsOk(
    findings: map<Id, Finding>, proposals: map<Id, Proposal>, executions: map<Id, Execution>,
    reservations: map<Id, Reservation>)
  {
    forall id :: id in reservations ==>
      var r := reservations[id];
      && ReservationChecks(r) && ReservationKeys(reservations, id, r)
      && (r.executionId.Some? ==> ActsOn(executions, proposals, findings, r.executionId.value, r))
  }

  ghost predicate ScansOk(scans: map<Id, Scan>, occurrences: map<Id, Occurrence>) {
    && (forall s :: s in scans ==> ScanChecks(scans[s]))
    && (forall o :: o in occurrences ==> occurrences[o].scanId in scans)
  }

  ghost predicate VerificationsOk(db: Db) {
    && (forall v :: v in db.verifications ==>
          && VerificationChecks(v) && v.scanId in db.scans && v.executionId in db.executions
          && exists e :: e in db.events && IsAcknowledgement(e, v))
    && (forall i, j :: 0 <= i < j < |db.verifications| ==>
          && db.verifications[i].verificationId != db.verifications[j].verificationId
          && db.verifications[i].scanId != db.verifications[j].scanId)
  }

  /** Attempts number 1, 2, ... and only the last may still be without a receipt. */
  ghost predicate AttemptsOk(db: Db) {
    forall x :: AttemptsInOrder(AttemptsOf(db.verifications, x), db.receipts.Keys)
  }

  ghost predicate AttemptsInOrder(a: seq<Verification>, received: set<Id>) {
    forall i :: 0 <= i < |a| ==>
      a[i].attempt == i + 1 && (i < |a| - 1 ==> a[i].verificationId in received)
  }

  ghost predicate ReceiptOk(
    scans: map<Id, Scan>, verifications: seq<Verification>, id: Id, r: Receipt, v: Verification)
  {
    && v in verifications && v.verificationId == id && v.scanId in scans
    && scans[v.scanId].status != RUNNING
    && scans[v.scanId].completedAt == Some(r.createdAt)
    && v.createdAt <= r.createdAt
  }

  ghost predicate ReceiptsOk(scans: map<Id, Scan>, verifications: seq<Verification>, receipts: map<Id, Receipt>) {
    forall id :: id in receipts ==> exists v :: ReceiptOk(scans, verifications, id, receipts[id], v)
  }

  /** Every journaled row passes the row CHECKs. */
  ghost predicate EventsChecked(events: seq<Event>) {
    forall v :: v in events ==> EventChecks(v)
  }

  ghost predicate Inv(db: Db) {
    && AuthorityOk(db)
    && JournalsOk(db)
    && EventsChecked(db.events)
    && ClaimsOk(db)
    && IntentsLeased(db)
    && ReservationsOk(db.findings, db.proposals, db.executions, db.reservations)
    && ScansOk(db.scans, db.occurrences)
    && VerificationsOk(db)
    && AttemptsOk(db)
    && ReceiptsOk(db.scans, db.verifications, db.receipts)
  }

  // ----- Preservation -----

  /** Each statement writes one table. */
  lemma Effect(db: Db, s: Step, after: Db)
    requires after == Apply(db, s)
    ensures after.resources == if s.InsertResource? then db.resources[s.id := s.resource] else db.resources
    ensures after.findings == if s.InsertFinding? then db.findings[s.id := s.finding] else db.findings
    ensures after.scans == if s.InsertScan? || s.UpdateScan? then db.scans[s.id := s.scan]
                           else if s.DeleteScan? then db.scans - {s.id} else db.scans
    ensures after.occurrences == if s.InsertOccurrence? then db.occurrences[s.id := s.occurrence] else db.occurrences
    ensures after.audits == if s.InsertAudit? then db.audits[s.id := s.audit] else db.audits
    ensures after.proposals == if s.InsertProposal? then db.proposals[s.id := s.proposal] else db.proposals
    ensures after.decisions == if s.InsertDecision? then db.decisions[s.id := s.decision] else db.decisions
    ensures after.executions == if s.InsertExecution? then db.executions[s.id := s.execution] else db.executions
    ensures after.events == if s.InsertEvent? then db.events + [s.event] else db.events
    ensures after.claims == if s.InsertClaim? || s.UpdateClaim? then db.claims[s.id := s.claim] else db.claims
    ensures after.reservations
            == if s.InsertReservation? || s.UpdateReservation? then db.reservations[s.id := s.reservation]
               else db.reservations
    ensures after.verifications
            == if s.InsertVerification? then db.verifications + [s.verification] else db.verifications
    ensures after.receipts == if s.InsertReceipt? then db.receipts[s.id := s.receipt] else db.receipts
  {
  }

  /** What each accepted statement was held to. */
  lemma Guards(db: Db, s: Step)
    requires Accepts(db, s)
    ensures s.InsertFinding? ==> s.id !in db.findings
    ensures s.InsertScan? ==> s.id !in db.scans && ScanInsertable(s.scan)
    ensures s.UpdateScan? ==> s.id in db.scans && ScanUpdatable(db.scans[s.id], s.scan)
    ensures s.DeleteScan? ==> s.id in db.scans && db.scans[s.id].status == RUNNING && ScanUnreferenced(db, s.id)
    ensures s.InsertOccurrence? ==>
              s.id !in db.occurrences && s.occurrence.findingId in db.findings && s.occurrence.scanId in db.scans
    ensures s.InsertAudit? ==> s.id !in db.audits
    ensures s.InsertProposal? ==> ProposalAdmitted(db, s.id, s.proposal)
    ensures s.InsertDecision? ==> DecisionAdmitted(db, s.id, s.decision)
    ensures s.InsertExecution? ==> ExecutionAdmitted(db, s.id, s.execution)
    ensures s.InsertEvent? ==> EventAdmitted(db, s.event)
    ensures s.InsertClaim? ==> s.id !in db.claims && ClaimChecks(s.claim) && ClaimInScope(db, s.id, s.claim)
    ensures s.UpdateClaim? ==>
              && s.id in db.claims && ClaimChecks(s.claim) && ClaimInScope(db, s.id, s.claim)
              && FencePreserved(db.events, s.id, db.claims[s.id], s.claim)
    ensures s.InsertReservation? ==> s.id !in db.reservations && ReservationAdmitted(db, s.id, s.reservation)
    ensures s.UpdateReservation? ==>
              && s.id in db.reservations && ReservationAdmitted(db, s.id, s.reservation)
              && ReservationReleasable(db.events, db.reservations[s.id], s.reservation)
    ensures s.InsertVerification? ==> VerificationAdmitted(db, s.verification)
    ensures s.InsertReceipt? ==> ReceiptAdmitted(db, s.id, s.receipt)
  {
    hide ScanInsertable, ScanUpdatable, ScanUnreferenced, ProposalAdmitted, DecisionAdmitted, ExecutionAdmitted;
    hide EventAdmitted, ClaimChecks, ClaimInScope, FencePreserved, ReservationAdmitted, ReservationReleasable;
    hide VerificationAdmitted, ReceiptAdmitted;
  }

  /** Authority rows are inserted under new keys. */
  lemma Fresh(db: Db, s: Step)
    requires Accepts(db, s)
    ensures s.InsertProposal? ==> s.id !in db.proposals
    ensures s.InsertDecision? ==> s.id !in db.decisions
    ensures s.InsertExecution? ==> s.id !in db.executions
    ensures s.InsertReceipt? ==> s.id !in db.receipts
  {
    hide Accepts;
    Guards(db, s);
  }

  /** Authority rows are only ever added, so what they refer to stays put. */
  lemma StepGrows(db: Db, s: Step)
    requires Accepts(db, s)
    ensures var after := Apply(db, s);
            && Grows(db.findings, after.findings) && Grows(db.occurrences, after.occurrences)
            && Grows(db.proposals, after.proposals) && Grows(db.decisions, after.decisions)
            && Grows(db.executions, after.executions) && Grows(db.audits, after.audits)
            && Grows(db.receipts, after.receipts)
            && db.events <= after.events && db.verifications <= after.verifications
            && db.claims.Keys <= after.claims.Keys && db.reservations.Keys <= after.reservations.Keys
  {
    hide Apply, Accepts, ProposalAdmitted, DecisionAdmitted, ExecutionAdmitted, EventAdmitted, VerificationAdmitted;
    hide ReceiptAdmitted, ClaimInScope, FencePreserved, ReservationAdmitted, ReservationReleasable;
    Effect(db, s, Apply(db, s));
    Guards(db, s);
    Fresh(db, s);
  }

  lemma KeepsProposals(db: Db, s: Step)
    requires ProposalsOk(db.findings, db.occurrences, db.proposals) && Accepts(db, s)
    ensures var after := Apply(db, s); ProposalsOk(after.findings, after.occurrences, after.proposals)
  {
    hide Apply, Accepts;
    StepGrows(db, s);
    var after := Apply(db, s);
    Effect(db, s, after);
    Guards(db, s);
    forall p | p in after.proposals
      ensures ProposalOk(after.findings, after.occurrences, after.proposals[p])
    {
      assert ProposalOk(db.findings, db.occurrences, after.proposals[p]);
    }
  }

  lemma KeepsDecisions(db: Db, s: Step)
    requires DecisionsOk(db.proposals, db.decisions) && Accepts(db, s)
    ensures var after := Apply(db, s); DecisionsOk(after.proposals, after.decisions)
  {
    hide Apply, Accepts;
    StepGrows(db, s);
    var after := Apply(db, s);
    Effect(db, s, after);
    Guards(db, s);
    forall d | d in after.decisions ensures DecisionOk(after.proposals, after.decisions[d]) {
      assert DecisionOk(db.proposals, after.decisions[d]);
    }
  }

  lemma KeepsExecutions(db: Db, s: Step)
    requires ExecutionsOk(db.proposals, db.decisions, db.executions) && Accepts(db, s)
    ensures var after := Apply(db, s); ExecutionsOk(after.proposals, after.decisions, after.executions)
  {
    hide Apply, Accepts, ExecutionOk;
    var after := Apply(db, s);
    StepGrows(db, s);
    Effect(db, s, after);
    Guards(db, s);
    OldApprovalsStand(db.proposals, after.proposals, db.decisions, after.decisions, db.executions);
    if s.InsertExecution? {
      AdmittedIsOk(db, s.id, s.execution);
    }
  }

  lemma AdmittedIsOk(db: Db, id: Id, x: Execution)
    requires ExecutionAdmitted(db, id, x)
    ensures ExecutionOk(db.proposals, db.decisions, x)
  {
  }

  lemma OldApprovalsStand(
    proposals: map<Id, Proposal>, laterProposals: map<Id, Proposal>,
    decisions: map<Id, Decision>, laterDecisions: map<Id, Decision>, executions: map<Id, Execution>)
    requires Grows(proposals, laterProposals) && Grows(decisions, laterDecisions)
    requires ExecutionsOk(proposals, decisions, executions)
    ensures ExecutionsOk(laterProposals, laterDecisions, executions)
  {
    forall x | x in executions ensures ExecutionOk(laterProposals, laterDecisions, executions[x]) {
      assert ExecutionOk(proposals, decisions, executions[x]);
    }
  }

  lemma KeepsJournals(db: Db, s: Step)
    requires JournalsOk(db) && Accepts(db, s)
    ensures JournalsOk(Apply(db, s))
  {
    hide Apply, Accepts, EventAdmitted, ExecutionAdmitted;
    var after := Apply(db, s);
    Effect(db, s, after);
    Guards(db, s);
    if s.InsertEvent? {
      EventKeepsJournals(db, s.event);
    } else if s.InsertExecution? {
      NewExecutionKeepsJournals(db, s.id, s.execution);
    }
    assert after.executions == db.executions && after.events == db.events ==> JournalsOk(after);
  }

  lemma NewExecutionKeepsJournals(db: Db, id: Id, x: Execution)
    requires JournalsOk(db) && ExecutionAdmitted(db, id, x)
    ensures JournalsOk(db.(executions := db.executions[id := x]))
  {
    hide ExecutionAdmitted, InWindow, Succeeds;
    assert id !in db.executions by {
      FreshExecution(db, id, x);
    }
    var executions := db.executions[id := x];
    forall y ensures JournalOk(executions, Journal(db.events, y), y) {
      assert JournalOk(db.executions, Journal(db.events, y), y);
    }
  }

  lemma FreshExecution(db: Db, id: Id, x: Execution)
    requires ExecutionAdmitted(db, id, x)
    ensures id !in db.executions
  {
  }

  lemma KeepsChecked(db: Db, s: Step)
    requires EventsChecked(db.events) && Accepts(db, s)
    ensures EventsChecked(Apply(db, s).events)
  {
    hide Apply, Accepts;
    Effect(db, s, Apply(db, s));
    Guards(db, s);
  }

  lemma KeepsClaims(db: Db, s: Step)
    requires ClaimsOk(db) && Accepts(db, s)
    ensures ClaimsOk(Apply(db, s))
  {
    hide Apply, Accepts, ProposalAdmitted, DecisionAdmitted, ExecutionAdmitted, EventAdmitted, VerificationAdmitted;
    hide ReceiptAdmitted, ReservationAdmitted, FencePreserved;
    StepGrows(db, s);
    var after := Apply(db, s);
    Effect(db, s, after);
    Guards(db, s);
    forall id | id in after.claims
      ensures ClaimChecks(after.claims[id]) && ClaimInScope(after, id, after.claims[id])
    {
      var c := after.claims[id];
      assert ClaimInScope(db, id, c);
      if c.writeIntent.Some? {
        var v :| v in db.events && v.eventId == c.writeIntent.value
                 && v.executionId == id && v.kind == WRITE_INTENT;
        assert v in after.events;
      }
    }
  }

  /** After an intent the journal never ends in CLAIMED again, so no takeover can be claimed. */
  lemma NoTakeoverAfterIntent(executions: map<Id, Execution>, events: seq<Event>, id: Id, leaseUntil: Time)
    requires JournalOk(executions, Journal(events, id), id) && HasEvent(events, id, WRITE_INTENT)
    ensures !TakeoverJournaled(events, id, leaseUntil)
  {
    hide JournalOk;
    var j := Journal(events, id);
    var intent :| intent in j && intent.kind == WRITE_INTENT;
    var i :| 0 <= i < |j| && j[i] == intent;
    NotEndingInClaim(executions, j, id, i);
    LastIsLatest(executions, j, id);
    assert j[|j| - 1] in j;
  }

  lemma NotEndingInClaim(executions: map<Id, Execution>, j: seq<Event>, id: Id, i: nat)
    requires JournalOk(executions, j, id) && i < |j| && j[i].kind == WRITE_INTENT
    ensures j[|j| - 1].kind != CLAIMED
  {
    hide JournalOk, Linked;
    JournalIsLinked(executions, j, id);
    LastIsNotClaimed(Kinds(j), i);
  }

  lemma LastIsLatest(executions: map<Id, Execution>, j: seq<Event>, id: Id)
    requires JournalOk(executions, j, id) && j != []
    ensures forall v :: v in j && v.sequence >= j[|j| - 1].sequence ==> v == j[|j| - 1]
  {
  }

  lemma LastIsNotClaimed(w: seq<EventKind>, i: nat)
    requires Linked(w) && i < |w| && w[i] == WRITE_INTENT
    ensures w[|w| - 1] != CLAIMED
  {
    TableLanguage(w);
    var claims: nat :| Shape(w, claims);
  }

  lemma LeaseKept(db: Db, id: Id, c: Claim)
    requires JournalsOk(db) && id in db.claims && FencePreserved(db.events, id, db.claims[id], c)
    ensures HasEvent(db.events, id, WRITE_INTENT) ==> c.leaseUntil == db.claims[id].leaseUntil
  {
    if HasEvent(db.events, id, WRITE_INTENT) {
      NoTakeoverAfterIntent(db.executions, db.events, id, db.claims[id].leaseUntil);
    }
  }

  lemma KeepsIntents(db: Db, s: Step)
    requires JournalsOk(db) && IntentsLeased(db) && Accepts(db, s)
    ensures IntentsLeased(Apply(db, s))
  {
    hide Apply, Accepts, JournalsOk, FencePreserved;
    Effect(db, s, Apply(db, s));
    Guards(db, s);
    if s.UpdateClaim? {
      LeaseKept(db, s.id, s.claim);
    }
  }

  lemma KeepsReservations(db: Db, s: Step)
    requires ReservationsOk(db.findings, db.proposals, db.executions, db.reservations) && Accepts(db, s)
    ensures var after := Apply(db, s);
            ReservationsOk(after.findings, after.proposals, after.executions, after.reservations)
  {
    hide Apply, Accepts, ReservationKeys;
    StepGrows(db, s);
    var after := Apply(db, s);
    Effect(db, s, after);
    Guards(db, s);
    forall id | id in after.reservations
      ensures var r := after.reservations[id];
              && ReservationChecks(r) && ReservationKeys(after.reservations, id, r)
              && (r.executionId.Some? ==>
                    ActsOn(after.executions, after.proposals, after.findings, r.executionId.value, r))
    {
      var r := after.reservations[id];
      assert ReservationChecks(r);
      assert r.executionId.Some? ==> ActsOn(db.executions, db.proposals, db.findings, r.executionId.value, r);
      KeepsReservationKeys(db, s, id);
    }
  }

  lemma KeepsReservationKeys(db: Db, s: Step, id: Id)
    requires ReservationsOk(db.findings, db.proposals, db.executions, db.reservations) && Accepts(db, s)
    requires id in Apply(db, s).reservations
    ensures var reservations := Apply(db, s).reservations; ReservationKeys(reservations, id, reservations[id])
  {
    hide Apply, Accepts;
    Effect(db, s, Apply(db, s));
    Guards(db, s);
    if id in db.reservations {
      assert ReservationKeys(db.reservations, id, db.reservations[id]);
    }
  }

  lemma KeepsScans(db: Db, s: Step)
    requires ScansOk(db.scans, db.occurrences) && Accepts(db, s)
    ensures var after := Apply(db, s); ScansOk(after.scans, after.occurrences)
  {
    hide Apply, Accepts;
    Effect(db, s, Apply(db, s));
    Guards(db, s);
  }

  lemma KeepsVerifications(db: Db, s: Step)
    requires VerificationsOk(db) && Accepts(db, s)
    ensures VerificationsOk(Apply(db, s))
  {
    hide Apply, Accepts, VerificationAdmitted, ProposalAdmitted, DecisionAdmitted, ExecutionAdmitted, EventAdmitted;
    hide ReceiptAdmitted, ReservationAdmitted, ClaimInScope, FencePreserved, VerificationChecks, IsAcknowledgement;
    var after := Apply(db, s);
    StepGrows(db, s);
    Effect(db, s, after);
    Guards(db, s);
    if s.InsertVerification? {
      AcknowledgedIsOk(db, s.verification);
    }
    forall v | v in after.verifications
      ensures VerificationChecks(v) && v.scanId in after.scans && v.executionId in after.executions
      ensures exists e :: e in after.events && IsAcknowledgement(e, v)
    {
      if s.DeleteScan? {
        ScanInUse(db, s, v);
      }
      var e :| e in db.events && IsAcknowledgement(e, v);
      assert e in after.events;
    }
  }

  lemma AcknowledgedIsOk(db: Db, v: Verification)
    requires VerificationAdmitted(db, v)
    ensures VerificationChecks(v) && v.scanId in db.scans && v.executionId in db.executions
    ensures exists e :: e in db.events && IsAcknowledgement(e, v)
    ensures forall w :: w in db.verifications ==> w.verificationId != v.verificationId && w.scanId != v.scanId
  {
  }

  /** A scan a verification refers to is not deleted. */
  lemma ScanInUse(db: Db, s: Step, v: Verification)
    requires Accepts(db, s) && s.DeleteScan? && v in db.verifications
    ensures v.scanId != s.id
  {
    hide Accepts;
    Guards(db, s);
  }

  lemma {:induction false} AttemptsOfMembers(verifications: seq<Verification>, x: Id)
    ensures forall v :: v in AttemptsOf(verifications, x) <==> v in verifications && v.executionId == x
  {
    if verifications != [] {
      var init := verifications[..|verifications| - 1];
      assert verifications == init + [verifications[|verifications| - 1]];
      AttemptsOfMembers(init, x);
    }
  }

  lemma KeepsAttempts(db: Db, s: Step)
    requires AttemptsOk(db) && Accepts(db, s)
    ensures AttemptsOk(Apply(db, s))
  {
    hide Apply, Accepts, VerificationAdmitted, ReceiptAdmitted;
    var after := Apply(db, s);
    StepGrows(db, s);
    Effect(db, s, after);
    Guards(db, s);
    forall x ensures AttemptsInOrder(AttemptsOf(after.verifications, x), after.receipts.Keys) {
      assert AttemptsInOrder(AttemptsOf(db.verifications, x), db.receipts.Keys);
      if s.InsertVerification? {
        NextAttemptInOrder(db, s.verification, x);
      }
    }
  }

  lemma NextAttemptInOrder(db: Db, n: Verification, x: Id)
    requires AttemptsOk(db) && VerificationAdmitted(db, n)
    ensures AttemptsInOrder(AttemptsOf(db.verifications + [n], x), db.receipts.Keys)
  {
    assert (db.verifications + [n])[..|db.verifications|] == db.verifications;
    AttemptsOfMembers(db.verifications, x);
    assert AttemptsInOrder(AttemptsOf(db.verifications, x), db.receipts.Keys);
  }

  /** A terminal scan is rewritten by no accepted statement. */
  lemma TerminalScanFrozen(db: Db, s: Step, scan: Id)
    requires Accepts(db, s) && scan in db.scans && db.scans[scan].status != RUNNING
    ensures scan in Apply(db, s).scans && Apply(db, s).scans[scan] == db.scans[scan]
  {
    hide Apply, Accepts;
    Effect(db, s, Apply(db, s));
    Guards(db, s);
  }

  lemma KeepsReceipts(db: Db, s: Step)
    requires ReceiptsOk(db.scans, db.verifications, db.receipts) && Accepts(db, s)
    ensures var after := Apply(db, s); ReceiptsOk(after.scans, after.verifications, after.receipts)
  {
    hide Apply, Accepts;
    StepGrows(db, s);
    var after := Apply(db, s);
    Effect(db, s, after);
    Guards(db, s);
    forall id | id in after.receipts
      ensures exists v :: ReceiptOk(after.scans, after.verifications, id, after.receipts[id], v)
    {
      var r := after.receipts[id];
      if id in db.receipts {
        var v :| ReceiptOk(db.scans, db.verifications, id, r, v);
        TerminalScanFrozen(db, s, v.scanId);
        assert ReceiptOk(after.scans, after.verifications, id, r, v);
      } else {
        assert s.InsertReceipt? && s.receipt == r;
        var v :| v in db.verifications && v.verificationId == id && v.scanId in db.scans
                 && db.scans[v.scanId].status != RUNNING
                 && db.scans[v.scanId].completedAt == Some(r.createdAt) && r.createdAt >= v.createdAt;
        assert ReceiptOk(after.scans, after.verifications, id, r, v);
      }
    }
  }

  lemma StepKeepsInv(db: Db, s: Step)
    requires Inv(db)
    ensures Inv(Exec(db, s))
  {
    hide Apply, Accepts;
    if Accepts(db, s) {
      KeepsProposals(db, s);
      KeepsDecisions(db, s);
      KeepsExecutions(db, s);
      KeepsJournals(db, s);
      KeepsChecked(db, s);
      KeepsClaims(db, s);
      KeepsIntents(db, s);
      KeepsReservations(db, s);
      KeepsScans(db, s);
      KeepsVerifications(db, s);
      KeepsAttempts(db, s);
      KeepsReceipts(db, s);
    }
  }

  lemma {:induction false} RunKeepsInv(db: Db, steps: seq<Step>)
    requires Inv(db)
    ensures Inv(Run(db, steps))
    decreases |steps|
  {
    if steps != [] {
      RunKeepsInv(db, steps[..|steps| - 1]);
      StepKeepsInv(Run(db, steps[..|steps| - 1]), steps[|steps| - 1]);
    }
  }

  /** Every state that any clients can bring about from the empty tables satisfies the invariant. */
  lemma ReachableInv(steps: seq<Step>)
    ensures Inv(Run(Empty(), steps))
  {
    RunKeepsInv(Empty(), steps);
  }

  // One part of the invariant at a time, for proofs that need no more.

  lemma ReachableJournalOk(steps: seq<Step>, x: Id)
    ensures var db := Run(Empty(), steps); JournalOk(db.executions, Journal(db.events, x), x)
  {
    ReachableInv(steps);
  }

  lemma ReachableChecked(steps: seq<Step>)
    ensures EventsChecked(Run(Empty(), steps).events)
  {
    ReachableInv(steps);
  }

  lemma ReachableVerifications(steps: seq<Step>)
    ensures VerificationsOk(Run(Empty(), steps))
  {
    ReachableInv(steps);
  }

  lemma ReachableAttempts(steps: seq<Step>, x: Id)
    ensures var db := Run(Empty(), steps); AttemptsInOrder(AttemptsOf(db.verifications, x), db.receipts.Keys)
  {
    ReachableInv(steps);
  }

  lemma ReachableReceipts(steps: seq<Step>)
    ensures var db := Run(Empty(), steps); ReceiptsOk(db.scans, db.verifications, db.receipts)
  {
    ReachableInv(steps);
  }

  lemma {:induction false} RunAppend(db: Db, before: seq<Step>, after: seq<Step>)
    ensures Run(db, before + after) == Run(Run(db, before), after)
    decreases |after|
  {
    var all := before + after;
    if after == [] {
      assert all == before;
    } else {
      assert all[..|all| - 1] == before + after[..|after| - 1];
      RunAppend(db, before, after[..|after| - 1]);
    }
  }
}
