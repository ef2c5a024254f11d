/**
 The remediation tables and the guards that admit each INSERT or UPDATE.

 One accepted statement is one atomic `Step`; a refused statement leaves the tables alone.
 Arbitrary interleaved clients are arbitrary sequences of steps, so the states a database can
 reach are exactly `Run(Empty(), steps)`.
 */
module Protocol {
  import opened Wrappers
  import opened Scans

  const FIVE_MINUTES: Time := 300_000_000
  const ENABLE_EBS_ENCRYPTION := "aws.ec2.enable-ebs-encryption-by-default"

  // ----- Rows -----

  datatype Actor = Actor(issuer: string, subject: string)

  predicate ActorChecks(a: Actor) {
    NotBlank(a.issuer) && NotBlank(a.subject)
  }

  datatype Resource = Resource(account: string, region: string)

  datatype Finding = Finding(account: string, resourceId: Id, region: Option<string>)

  datatype Occurrence = Occurrence(findingId: Id, scanId: Id)

  datatype Proposal = Proposal(
    findingId: Id,
    occurrenceId: Id,
    account: string,
    actor: Actor,
    sha: Digest,
    createdAt: Time,
    expiresAt: Time)

  datatype DecisionKind = APPROVE | REJECT | REVOKE

  datatype Decision = Decision(
    proposalId: Id,
    kind: DecisionKind,
    proposalSha: Digest,
    approvalId: Option<Id>,
    actor: Actor,
    createdAt: Time)

  datatype Execution = Execution(
    proposalId: Id,
    approvalId: Id,
    actorIdentity: Digest,
    actor: Actor,
    idempotencyKey: Id,
    requestSha: Digest,
    sha: Digest,
    createdAt: Time,
    expiresAt: Time)

  datatype EventKind =
    | REQUESTED | EXPIRED | BLOCKED
    | CLAIMED | WRITE_INTENT | NO_WRITE
    | ACKNOWLEDGED | QUARANTINED | OBSERVED | OBSERVATION_FAILED

  /** `phase` is the JSON field content->'phase'. */
  datatype Event = Event(
    eventId: Id,
    executionId: Id,
    auditEventId: Id,
    sequence: int,
    kind: EventKind,
    phase: Option<string>,
    sha: Digest,
    previous: Option<Digest>,
    createdAt: Time)

  datatype Claim = Claim(
    token: Digest,
    role: string,
    generation: int,
    readAttempts: int,
    readbackAttempts: int,
    readbackStartedAt: Option<Time>,
    leaseUntil: Time,
    writeIntent: Option<Id>)

  datatype Reservation = Reservation(
    resourceId: Id,
    account: string,
    region: string,
    action: string,
    executionId: Option<Id>)

  datatype Verification = Verification(
    verificationId: Id,
    executionId: Id,
    ackEventId: Id,
    scanId: Id,
    auditEventId: Id,
    attempt: int,
    actorIdentity: Digest,
    actor: Actor,
    idempotencyKey: Id,
    requestSha: Digest,
    contentSha: Digest,
    createdAt: Time)

  datatype VerificationOutcome = VERIFIED | NOT_VERIFIED | INCONCLUSIVE

  datatype Receipt = Receipt(
    auditEventId: Id, outcome: VerificationOutcome, contentSha: Digest, createdAt: Time)

  datatype AuditType =
    | SCAN_STARTED
    | REMEDIATION_EXECUTION(kind: EventKind)
    | VERIFICATION_REQUESTED
    | VERIFICATION_COMPLETED
    | OTHER_AUDIT

  datatype AuditTarget = SCAN | EXECUTION | VERIFICATION | OTHER_TARGET

  /** `marker` is the JSON field metadata->'verification_id'. */
  datatype Audit = Audit(
    eventType: AuditType,
    actorType: string,
    actorId: string,
    targetType: AuditTarget,
    targetId: Id,
    timestamp: Time,
    marker: Option<Id>)

  /** Tables keyed by primary key; the two journals read in insertion order are sequences. */
  datatype Db = Db(
    resources: map<Id, Resource>,
    findings: map<Id, Finding>,
    scans: map<Id, Scan>,
    occurrences: map<Id, Occurrence>,
    audits: map<Id, Audit>,
    proposals: map<Id, Proposal>,
    decisions: map<Id, Decision>,
    executions: map<Id, Execution>,
    events: seq<Event>,
    claims: map<Id, Claim>,
    reservations: map<Id, Reservation>,
    verifications: seq<Verification>,
    receipts: map<Id, Receipt>)

  function Empty(): Db {
    Db(map[], map[], map[], map[], map[], map[], map[], map[], [], map[], map[], [], map[])
  }

  // ----- Statements -----

  datatype Step =
    | InsertResource(id: Id, resource: Resource)
    | InsertFinding(id: Id, finding: Finding)
    | InsertScan(id: Id, scan: Scan)
    | UpdateScan(id: Id, scan: Scan)
    | DeleteScan(id: Id)
    | InsertOccurrence(id: Id, occurrence: Occurrence)
    | InsertAudit(id: Id, audit: Audit)
    | InsertProposal(id: Id, proposal: Proposal)
    | InsertDecision(id: Id, decision: Decision)
    | InsertExecution(id: Id, execution: Execution)
    | InsertEvent(event: Event)
    | InsertClaim(id: Id, claim: Claim)
    | UpdateClaim(id: Id, claim: Claim)
    | InsertReservation(id: Id, reservation: Reservation)
    | UpdateReservation(id: Id, reservation: Reservation)
    | InsertVerification(verification: Verification)
    | InsertReceipt(id: Id, receipt: Receipt)

  // ----- Authority: proposals and decisions (revision 0007) -----

  predicate ProposalAdmitted(db: Db, id: Id, p: Proposal) {
    && id !in db.proposals
    && IsDigest(p.sha) && p.expiresAt > p.createdAt && |p.account| == 12 && ActorChecks(p.actor)
    && p.occurrenceId in db.occurrences
    && db.occurrences[p.occurrenceId].findingId == p.findingId
    && p.findingId in db.findings
    && db.findings[p.findingId].account == p.account
  }

  predicate DecisionAdmitted(db: Db, id: Id, d: Decision) {
    && id !in db.decisions
    && IsDigest(d.proposalSha) && ActorChecks(d.actor)
    && (d.kind == REVOKE <==> d.approvalId.Some?)
    // The two partial unique indexes: one initial decision and one revocation a proposal.
    && (forall o :: o in db.decisions && db.decisions[o].proposalId == d.proposalId ==>
          (db.decisions[o].kind == REVOKE) != (d.kind == REVOKE))
    && d.proposalId in db.proposals
    && (var p := db.proposals[d.proposalId];
        && p.sha == d.proposalSha
        && d.createdAt >= p.createdAt
        && (d.kind == REVOKE || p.actor != d.actor)
        && (d.kind == APPROVE ==> d.createdAt < p.expiresAt))
    && (d.kind == REVOKE ==>
          && d.approvalId.value in db.decisions
          && var a := db.decisions[d.approvalId.value];
          && a.proposalId == d.proposalId && a.kind == APPROVE && d.createdAt >= a.createdAt)
  }

  // ----- Admission (revision 0008) -----

  predicate Revoked(decisions: map<Id, Decision>, proposalId: Id) {
    exists o :: o in decisions && decisions[o].proposalId == proposalId && decisions[o].kind == REVOKE
  }

  predicate ExecutionAdmitted(db: Db, id: Id, x: Execution) {
    && id !in db.executions
    && (forall o :: o in db.executions ==>
          && db.executions[o].proposalId != x.proposalId
          && (db.executions[o].actorIdentity, db.executions[o].idempotencyKey)
             != (x.actorIdentity, x.idempotencyKey))
    && IsDigest(x.sha) && IsDigest(x.requestSha) && IsDigest(x.actorIdentity)
    && ActorChecks(x.actor) && x.expiresAt > x.createdAt
    && x.proposalId in db.proposals
    && x.approvalId in db.decisions
    && (var p, d := db.proposals[x.proposalId], db.decisions[x.approvalId];
        && d.proposalId == x.proposalId && d.kind == APPROVE
        && p.actor != x.actor && d.actor != x.actor
        && x.createdAt >= d.createdAt && x.createdAt < p.expiresAt
        && x.expiresAt <= p.expiresAt)
    && x.expiresAt <= x.createdAt + FIVE_MINUTES
    && !Revoked(db.decisions, x.proposalId)
  }

  // ----- Worker journal, claims and reservations (revision 0009) -----

  /** The transition table: `next` may be journaled directly after `prev`. */
  predicate MayFollow(prev: EventKind, next: EventKind) {
    match next
    case REQUESTED => false
    case EXPIRED => prev == REQUESTED
    case BLOCKED => prev == REQUESTED
    case CLAIMED => prev in {REQUESTED, CLAIMED}
    case WRITE_INTENT => prev == CLAIMED
    case NO_WRITE => prev in {REQUESTED, CLAIMED}
    case ACKNOWLEDGED => prev in {WRITE_INTENT, QUARANTINED, OBSERVED, OBSERVATION_FAILED}
    case QUARANTINED => prev in {WRITE_INTENT, QUARANTINED, OBSERVED, OBSERVATION_FAILED}
    case OBSERVED => prev in {ACKNOWLEDGED, QUARANTINED, OBSERVED, OBSERVATION_FAILED}
    case OBSERVATION_FAILED => prev in {ACKNOWLEDGED, QUARANTINED, OBSERVED, OBSERVATION_FAILED}
  }

  /**
   The row's CHECK constraints. A NULL previous digest makes `length(...) = 64` unknown, and a
   CHECK refuses only what is false, so the constraint alone lets it through.
   */
  predicate EventChecks(n: Event) {
    && n.sequence >= 1
    && IsDigest(n.sha)
    && ( || (n.sequence == 1 && n.kind == REQUESTED && n.previous.None?)
         || ( && n.sequence >= 2 && n.kind != REQUESTED
              && (n.previous.Some? ==> IsDigest(n.previous.value))
              && (n.kind in {EXPIRED, BLOCKED} ==> n.sequence == 2)))
  }

  /** Primary key, foreign key and unique indexes of the journal. */
  predicate EventKeys(db: Db, n: Event) {
    && n.executionId in db.executions
    && n.auditEventId in db.audits
    && (forall x :: x in db.events ==>
          && x.eventId != n.eventId
          && x.auditEventId != n.auditEventId
          && (x.executionId == n.executionId ==>
                && x.sequence != n.sequence
                && (x.kind == n.kind ==> n.kind !in {WRITE_INTENT, ACKNOWLEDGED})))
  }

  /** The execution's window for this kind of event. */
  predicate InWindow(x: Execution, n: Event) {
    && n.createdAt >= x.createdAt
    && (n.kind == EXPIRED ==> n.createdAt >= x.expiresAt)
    && (n.kind in {CLAIMED, WRITE_INTENT} ==> n.createdAt < x.expiresAt)
  }

  predicate Succeeds(v: Event, n: Event) {
    && v.executionId == n.executionId
    && v.sequence == n.sequence - 1
    && n.previous == Some(v.sha)
    && n.createdAt >= v.createdAt
    && MayFollow(v.kind, n.kind)
  }

  /** A takeover waits for the lease; an intent needs an unstamped live lease. */
  predicate FenceAllows(claims: map<Id, Claim>, n: Event) {
    && (n.kind == CLAIMED && n.executionId in claims ==>
          var c := claims[n.executionId]; c.writeIntent.None? && n.createdAt >= c.leaseUntil)
    && (n.kind == WRITE_INTENT ==>
          && n.executionId in claims
          && var c := claims[n.executionId]; c.writeIntent.None? && n.createdAt < c.leaseUntil)
  }

  predicate EventAudited(audits: map<Id, Audit>, n: Event) {
    && n.auditEventId in audits
    && var a := audits[n.auditEventId];
    && a.targetType == EXECUTION && a.targetId == n.executionId
    && a.timestamp == n.createdAt && a.eventType == REMEDIATION_EXECUTION(n.kind)
  }

  predicate EventAdmitted(db: Db, n: Event) {
    && EventChecks(n)
    && EventKeys(db, n)
    && InWindow(db.executions[n.executionId], n)
    && (forall x :: x in db.events && x.executionId == n.executionId ==> x.sequence < n.sequence)
    && (n.sequence > 1 ==> exists v :: v in db.events && Succeeds(v, n))
    && FenceAllows(db.claims, n)
    && EventAudited(db.audits, n)
  }

  predicate HasEvent(events: seq<Event>, x: Id, kind: EventKind) {
    exists v :: v in events && v.executionId == x && v.kind == kind
  }

  /** When a reservation may be given up. */
  predicate Terminal(events: seq<Event>, x: Id) {
    || HasEvent(events, x, EXPIRED) || HasEvent(events, x, BLOCKED) || HasEvent(events, x, NO_WRITE)
    || (HasEvent(events, x, ACKNOWLEDGED) && !HasEvent(events, x, QUARANTINED))
  }

  predicate ClaimChecks(c: Claim) {
    && IsDigest(c.token) && c.generation >= 1
    && 0 <= c.readAttempts <= 3 && 0 <= c.readbackAttempts <= 3
    && (c.readbackAttempts == 0 <==> c.readbackStartedAt.None?)
    && NotBlank(c.role)
  }

  predicate ClaimInScope(db: Db, id: Id, c: Claim) {
    && id in db.executions
    && db.executions[id].createdAt < c.leaseUntil <= db.executions[id].expiresAt
    && (c.writeIntent.Some? ==>
          exists v :: v in db.events && v.eventId == c.writeIntent.value
                      && v.executionId == id && v.kind == WRITE_INTENT)
  }

  /** The latest journaled event is a CLAIMED at or after the old lease. */
  predicate TakeoverJournaled(events: seq<Event>, id: Id, leaseUntil: Time) {
    exists v :: && v in events && v.executionId == id && v.kind == CLAIMED && v.createdAt >= leaseUntil
                && (forall x :: x in events && x.executionId == id ==> x.sequence <= v.sequence)
  }

  predicate FencePreserved(events: seq<Event>, id: Id, was: Claim, now: Claim) {
    && now.role == was.role
    && was.readAttempts <= now.readAttempts <= was.readAttempts + 1
    && was.readbackAttempts <= now.readbackAttempts <= was.readbackAttempts + 1
    && (was.readbackStartedAt.Some? ==> now.readbackStartedAt == was.readbackStartedAt)
    && (was.writeIntent.Some? ==>
          && now.writeIntent == was.writeIntent && now.token == was.token
          && now.generation == was.generation && now.leaseUntil == was.leaseUntil)
    && (was.writeIntent.None? ==>
          if now.token == was.token
          then now.generation == was.generation && now.leaseUntil == was.leaseUntil
          else now.generation == was.generation + 1 && TakeoverJournaled(events, id, was.leaseUntil))
  }

  predicate ReservationChecks(r: Reservation) {
    |r.account| == 12 && NotBlank(r.region) && |r.region| <= 64 && r.action == ENABLE_EBS_ENCRYPTION
  }

  /** Unique scope and unique holder; NULL holders never collide. */
  predicate ReservationKeys(reservations: map<Id, Reservation>, id: Id, r: Reservation) {
    forall o :: o in reservations && o != id ==>
      && (reservations[o].account, reservations[o].region, reservations[o].action)
         != (r.account, r.region, r.action)
      && (r.executionId.Some? ==> reservations[o].executionId != r.executionId)
  }

  /** Execution x acts on exactly this resource, account and Region. */
  predicate ActsOn(
    executions: map<Id, Execution>, proposals: map<Id, Proposal>, findings: map<Id, Finding>,
    x: Id, r: Reservation)
  {
    && x in executions
    && executions[x].proposalId in proposals
    && var p := proposals[executions[x].proposalId];
    && p.findingId in findings
    && findings[p.findingId].resourceId == r.resourceId
    && p.account == r.account
    && findings[p.findingId].region == Some(r.region)
  }

  predicate ReservationAdmitted(db: Db, id: Id, r: Reservation) {
    && ReservationChecks(r) && ReservationKeys(db.reservations, id, r)
    && r.resourceId in db.resources
    && db.resources[r.resourceId] == Resource(r.account, r.region)
    && (r.executionId.Some? ==>
          && ActsOn(db.executions, db.proposals, db.findings, r.executionId.value, r)
          && !Terminal(db.events, r.executionId.value))
  }

  predicate ReservationReleasable(events: seq<Event>, was: Reservation, now: Reservation) {
    was.executionId.Some? && now.executionId != was.executionId ==> Terminal(events, was.executionId.value)
  }

  // ----- Verification attempts (revision 0010) -----

  function AttemptsOf(verifications: seq<Verification>, x: Id): seq<Verification> {
    if verifications == [] then []
    else
      var last := verifications[|verifications| - 1];
      AttemptsOf(verifications[..|verifications| - 1], x) + if last.executionId == x then [last] else []
  }

  predicate VerificationChecks(v: Verification) {
    && 1 <= v.attempt <= 3
    && IsDigest(v.contentSha) && IsDigest(v.requestSha) && IsDigest(v.actorIdentity)
    && ActorChecks(v.actor)
  }

  predicate VerificationKeys(db: Db, n: Verification) {
    && n.executionId in db.executions && n.scanId in db.scans && n.auditEventId in db.audits
    && (forall v :: v in db.verifications ==>
          && v.verificationId != n.verificationId && v.scanId != n.scanId
          && v.auditEventId != n.auditEventId
          && (v.executionId, v.attempt) != (n.executionId, n.attempt)
          && (v.actorIdentity, v.idempotencyKey) != (n.actorIdentity, n.idempotencyKey))
  }

  /** The acknowledgement being verified. */
  predicate IsAcknowledgement(v: Event, n: Verification) {
    && v.executionId == n.executionId && v.eventId == n.ackEventId
    && v.kind == ACKNOWLEDGED && v.phase == Some("ACKNOWLEDGED")
    && n.createdAt >= v.createdAt
  }

  /** The new scan repeats the scope of the scan that raised the finding. */
  predicate RepeatsBaseline(db: Db, n: Verification) {
    && n.executionId in db.executions && n.scanId in db.scans
    && var x, s := db.executions[n.executionId], db.scans[n.scanId];
    && x.proposalId in db.proposals
    && var p := db.proposals[x.proposalId];
    && p.occurrenceId in db.occurrences
    && db.occurrences[p.occurrenceId].scanId in db.scans
    && s.startedAt == n.createdAt && s.status == RUNNING
    && s.scope == db.scans[db.occurrences[p.occurrenceId].scanId].scope
  }

  predicate VerificationAudited(db: Db, n: Verification) {
    && n.auditEventId in db.audits
    && (var a := db.audits[n.auditEventId];
        && a.targetType == VERIFICATION && a.targetId == n.verificationId && a.timestamp == n.createdAt
        && a.actorType == "human" && a.actorId == n.actorIdentity && a.eventType == VERIFICATION_REQUESTED)
    && (exists o :: && o in db.audits
                    && var a := db.audits[o];
                    && a.targetType == SCAN && a.targetId == n.scanId && a.eventType == SCAN_STARTED
                    && a.marker == Some(n.verificationId) && a.timestamp == n.createdAt)
  }

  predicate VerificationAdmitted(db: Db, n: Verification) {
    && VerificationChecks(n) && VerificationKeys(db, n)
    && (exists v :: v in db.events && IsAcknowledgement(v, n))
    && RepeatsBaseline(db, n)
    && VerificationAudited(db, n)
    && n.attempt == |AttemptsOf(db.verifications, n.executionId)| + 1
    && (forall v :: v in db.verifications && v.executionId == n.executionId ==>
          v.verificationId in db.receipts)
  }

  predicate ReceiptAdmitted(db: Db, id: Id, r: Receipt) {
    && id !in db.receipts && IsDigest(r.contentSha)
    && (forall o :: o in db.receipts ==> db.receipts[o].auditEventId != r.auditEventId)
    && (exists v :: && v in db.verifications && v.verificationId == id
                    && v.scanId in db.scans
                    && var s := db.scans[v.scanId];
                    && s.status != RUNNING && s.resultChecksum.Some?
                    && s.completedAt == Some(r.createdAt) && r.createdAt >= v.createdAt)
    && r.auditEventId in db.audits
    && var a := db.audits[r.auditEventId];
    && a.targetType == VERIFICATION && a.targetId == id && a.timestamp == r.createdAt
    && a.actorType == "system" && a.actorId == "scan-executor" && a.eventType == VERIFICATION_COMPLETED
  }

  // ----- Steps and runs -----

  /** No retained row refers to the scan (foreign keys are RESTRICT). */
  predicate ScanUnreferenced(db: Db, id: Id) {
    && (forall o :: o in db.occurrences ==> db.occurrences[o].scanId != id)
    && (forall v :: v in db.verifications ==> v.scanId != id)
  }

  predicate Accepts(db: Db, s: Step) {
    match s
    case InsertResource(id, _) => id !in db.resources
    case InsertFinding(id, f) => id !in db.findings && f.resourceId in db.resources
    case InsertScan(id, scan) => id !in db.scans && ScanInsertable(scan)
    case UpdateScan(id, scan) => id in db.scans && ScanUpdatable(db.scans[id], scan)
    case DeleteScan(id) => id in db.scans && db.scans[id].status == RUNNING && ScanUnreferenced(db, id)
    case InsertOccurrence(id, o) =>
      id !in db.occurrences && o.findingId in db.findings && o.scanId in db.scans
      && db.scans[o.scanId].status == RUNNING
    case InsertAudit(id, _) => id !in db.audits
    case InsertProposal(id, p) => ProposalAdmitted(db, id, p)
    case InsertDecision(id, d) => DecisionAdmitted(db, id, d)
    case InsertExecution(id, x) => ExecutionAdmitted(db, id, x)
    case InsertEvent(n) => EventAdmitted(db, n)
    case InsertClaim(id, c) => id !in db.claims && ClaimChecks(c) && ClaimInScope(db, id, c)
    case UpdateClaim(id, c) =>
      id in db.claims && ClaimChecks(c) && ClaimInScope(db, id, c)
      && FencePreserved(db.events, id, db.claims[id], c)
    case InsertReservation(id, r) => id !in db.reservations && ReservationAdmitted(db, id, r)
    case UpdateReservation(id, r) =>
      id in db.reservations && ReservationAdmitted(db, id, r)
      && ReservationReleasable(db.events, db.reservations[id], r)
    case InsertVerification(v) => VerificationAdmitted(db, v)
    case InsertReceipt(id, r) => ReceiptAdmitted(db, id, r)
  }

  function Apply(db: Db, s: Step): Db {
    match s
    case InsertResource(id, r) => db.(resources := db.resources[id := r])
    case InsertFinding(id, f) => db.(findings := db.findings[id := f])
    case InsertScan(id, scan) => db.(scans := db.scans[id := scan])
    case UpdateScan(id, scan) => db.(scans := db.scans[id := scan])
    case DeleteScan(id) => db.(scans := db.scans - {id})
    case InsertOccurrence(id, o) => db.(occurrences := db.occurrences[id := o])
    case InsertAudit(id, a) => db.(audits := db.audits[id := a])
    case InsertProposal(id, p) => db.(proposals := db.proposals[id := p])
    case InsertDecision(id, d) => db.(decisions := db.decisions[id := d])
    case InsertExecution(id, x) => db.(executions := db.executions[id := x])
    case InsertEvent(n) => db.(events := db.events + [n])
    case InsertClaim(id, c) => db.(claims := db.claims[id := c])
    case UpdateClaim(id, c) => db.(claims := db.claims[id := c])
    case InsertReservation(id, r) => db.(reservations := db.reservations[id := r])
    case UpdateReservation(id, r) => db.(reservations := db.reservations[id := r])
    case InsertVerification(v) => db.(verifications := db.verifications + [v])
    case InsertReceipt(id, r) => db.(receipts := db.receipts[id := r])
  }

  /** A refused statement aborts and leaves every table as it was. */
  function Exec(db: Db, s: Step): Db {
    if Accepts(db, s) then Apply(db, s) else db
  }

  function Run(db: Db, steps: seq<Step>): Db
    decreases |steps|
  {
    if steps == [] then db else Exec(Run(db, steps[..|steps| - 1]), steps[|steps| - 1])
  }
}
