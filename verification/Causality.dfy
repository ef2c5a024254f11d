/** Where a verification receipt comes from, and what its attempts look like. */
module Causality {
  import opened Wrappers
  import opened Scans
  import opened Protocol
  import opened Journals
  import opened Invariants
  import opened RunSafety

  /**
   The chain behind a receipt: proposal, approval, admission, claim, the one write intent,
   acknowledgement, verification, receipt. Times never go back along it, three different humans
   propose, approve and execute, and the intent falls inside the lease and every expiry.
   */
  ghost predicate Causes(db: Db, id: Id, v: Verification, ack: Event, intent: Event, claimed: Event) {
    && id in db.receipts && v in db.verifications && v.verificationId == id
    && v.executionId in db.executions && v.executionId in db.claims
    && ack in db.events && ack.executionId == v.executionId && ack.eventId == v.ackEventId
    && ack.kind == ACKNOWLEDGED
    && intent in db.events && intent.executionId == v.executionId && intent.kind == WRITE_INTENT
    && (forall w :: w in db.events && w.executionId == v.executionId && w.kind == WRITE_INTENT ==> w == intent)
    && claimed in db.events && claimed.executionId == v.executionId && claimed.kind == CLAIMED
    && claimed.sequence == intent.sequence - 1
    && var x := db.executions[v.executionId];
    && x.proposalId in db.proposals && x.approvalId in db.decisions
    && var p, d := db.proposals[x.proposalId], db.decisions[x.approvalId];
    && d.kind == APPROVE && d.proposalId == x.proposalId && d.proposalSha == p.sha
    && p.createdAt <= d.createdAt <= x.createdAt <= claimed.createdAt <= intent.createdAt
    && intent.createdAt <= ack.createdAt <= v.createdAt <= db.receipts[id].createdAt
    && intent.createdAt < db.claims[v.executionId].leaseUntil <= x.expiresAt <= p.expiresAt
    && x.expiresAt <= x.createdAt + FIVE_MINUTES
    && p.actor != d.actor && p.actor != x.actor && d.actor != x.actor
    && v.scanId in db.scans && db.scans[v.scanId].status != RUNNING
    && db.scans[v.scanId].completedAt == Some(db.receipts[id].createdAt)
  }

  /** The journal's part of the chain: an effect is preceded by its intent and that by a claim. */
  lemma EffectTracesBack(db: Db, ack: Event) returns (intent: Event, claimed: Event)
    requires JournalsOk(db) && ack in db.events && ack.kind == ACKNOWLEDGED
    ensures intent in db.events && intent.executionId == ack.executionId && intent.kind == WRITE_INTENT
    ensures claimed in db.events && claimed.executionId == ack.executionId && claimed.kind == CLAIMED
    ensures claimed.sequence == intent.sequence - 1
    ensures ack.executionId in db.executions
    ensures db.executions[ack.executionId].createdAt <= claimed.createdAt
    ensures claimed.createdAt <= intent.createdAt <= ack.createdAt
  {
    var x := ack.executionId;
    var j := Journal(db.events, x);
    assert JournalOk(db.executions, j, x);
    JournalIsLinked(db.executions, j, x);
    assert ack in j;
    var i :| 0 <= i < |j| && j[i] == ack;
    EffectNeedsIntent(Kinds(j), i);
    var k :| 1 < k < i && Kinds(j)[k] == WRITE_INTENT && Kinds(j)[k - 1] == CLAIMED;
    intent, claimed := j[k], j[k - 1];
    assert Succeeds(claimed, intent) && intent in j && claimed in j;
    assert InWindow(db.executions[x], claimed);
    TimesOrdered(db.executions, j, x, k, i);
  }

  /** An execution sits inside the windows of its proposal, approved by a human who is neither end. */
  lemma WindowsNest(db: Db, id: Id)
    requires AuthorityOk(db) && id in db.executions
    ensures var x := db.executions[id];
            && x.proposalId in db.proposals && x.approvalId in db.decisions
            && var p, d := db.proposals[x.proposalId], db.decisions[x.approvalId];
            && d.kind == APPROVE && d.proposalId == x.proposalId && d.proposalSha == p.sha
            && p.createdAt <= d.createdAt <= x.createdAt && x.expiresAt <= p.expiresAt
            && x.expiresAt <= x.createdAt + FIVE_MINUTES
            && p.actor != d.actor && p.actor != x.actor && d.actor != x.actor
  {
    var x := db.executions[id];
    assert ExecutionOk(db.proposals, db.decisions, x);
    assert DecisionOk(db.proposals, db.decisions[x.approvalId]);
  }

  lemma LeaseCoversIntent(db: Db, intent: Event)
    requires ClaimsOk(db) && IntentsLeased(db) && intent in db.events && intent.kind == WRITE_INTENT
    ensures intent.executionId in db.claims && intent.executionId in db.executions
    ensures intent.createdAt < db.claims[intent.executionId].leaseUntil
    ensures db.claims[intent.executionId].leaseUntil <= db.executions[intent.executionId].expiresAt
  {
  }

  /** In every reachable database, each receipt rests on a complete chain. */
  lemma ReceiptCausality(steps: seq<Step>, id: Id)
    requires id in Run(Empty(), steps).receipts
    ensures exists v, ack, intent, claimed :: Causes(Run(Empty(), steps), id, v, ack, intent, claimed)
  {
    hide Run, JournalsOk, AuthorityOk, ClaimsOk, IntentsLeased, AttemptsOk;
    var db := Run(Empty(), steps);
    ReachableInv(steps);
    var r := db.receipts[id];
    var v :| ReceiptOk(db.scans, db.verifications, id, r, v);
    var ack :| ack in db.events && IsAcknowledgement(ack, v);
    var intent, claimed := EffectTracesBack(db, ack);
    forall w | w in db.events && w.executionId == v.executionId && w.kind == WRITE_INTENT ensures w == intent {
      OneIntent(db, v.executionId, w, intent);
    }
    WindowsNest(db, v.executionId);
    LeaseCoversIntent(db, intent);
    assert Causes(db, id, v, ack, intent, claimed);
  }

  /** Step k admitted execution x: its approval stood, and nobody had revoked it. */
  ghost predicate AdmittedAt(steps: seq<Step>, x: Id, row: Execution, k: nat) {
    && k < |steps|
    && steps[k] == InsertExecution(x, row)
    && var db := Run(Empty(), steps[..k]);
    && x !in db.executions
    && row.approvalId in db.decisions
    && db.decisions[row.approvalId].kind == APPROVE
    && db.decisions[row.approvalId].proposalId == row.proposalId
    && !Revoked(db.decisions, row.proposalId)
  }

  lemma AdmittedNow(db: Db, s: Step, x: Id)
    requires Accepts(db, s)
    ensures x in Apply(db, s).executions && x !in db.executions ==>
              s.InsertExecution? && s.id == x && Apply(db, s).executions[x] == s.execution
              && ExecutionAdmitted(db, x, s.execution)
  {
    match s
    case InsertExecution(_, _) =>
    case _ => assert Apply(db, s).executions == db.executions;
  }

  lemma RowStays(db: Db, s: Step, x: Id)
    requires x in db.executions
    ensures x in Exec(db, s).executions && Exec(db, s).executions[x] == db.executions[x]
  {
    if Accepts(db, s) {
      StepGrows(db, s);
    }
  }

  /** Every execution was admitted at some step, before any revocation of its proposal. */
  lemma {:induction false} AdmittedUnrevoked(steps: seq<Step>, x: Id)
    requires x in Run(Empty(), steps).executions
    ensures exists k: nat :: AdmittedAt(steps, x, Run(Empty(), steps).executions[x], k)
    decreases |steps|
  {
    var last := |steps| - 1;
    var prefix := steps[..last];
    var row := Run(Empty(), steps).executions[x];
    if x in Run(Empty(), prefix).executions {
      AdmittedUnrevoked(prefix, x);
      RowStays(Run(Empty(), prefix), steps[last], x);
      var k: nat :| AdmittedAt(prefix, x, row, k);
      assert prefix[..k] == steps[..k];
      assert AdmittedAt(steps, x, row, k);
    } else {
      AdmittedNow(Run(Empty(), prefix), steps[last], x);
      assert AdmittedAt(steps, x, row, last);
    }
  }

  // ----- Verification attempts -----

  /** Attempts are exactly 1..k with k at most three; all but the last have their receipt. */
  lemma AttemptsBounded(steps: seq<Step>, x: Id)
    ensures var db := Run(Empty(), steps);
            var a := AttemptsOf(db.verifications, x);
            && |a| <= 3
            && (forall i :: 0 <= i < |a| ==> a[i].attempt == i + 1 && a[i].executionId == x)
            && (forall i :: 0 <= i < |a| - 1 ==> a[i].verificationId in db.receipts)
  {
    var db := Run(Empty(), steps);
    var a := AttemptsOf(db.verifications, x);
    ReachableAttempts(steps, x);
    AttemptsOfMembers(db.verifications, x);
    if a != [] {
      var last := a[|a| - 1];
      assert VerificationChecks(last) by {
        ReachableVerifications(steps);
        assert last in a;
      }
    }
  }

  /** No two attempts, of one execution or of two, share a scan. */
  lemma AttemptsOwnTheirScans(steps: seq<Step>, v: Verification, w: Verification)
    requires v in Run(Empty(), steps).verifications && w in Run(Empty(), steps).verifications
    requires v.scanId == w.scanId
    ensures v == w
  {
    hide VerificationsOk, Run;
    ReachableVerifications(steps);
    ScansOwned(Run(Empty(), steps), v, w);
  }

  lemma ScansOwned(db: Db, v: Verification, w: Verification)
    requires VerificationsOk(db) && v in db.verifications && w in db.verifications && v.scanId == w.scanId
    ensures v == w
  {
    var i :| 0 <= i < |db.verifications| && db.verifications[i] == v;
    var j :| 0 <= j < |db.verifications| && db.verifications[j] == w;
  }

  lemma {:induction false} TerminalScanForever(db: Db, steps: seq<Step>, scan: Id)
    requires scan in db.scans && db.scans[scan].status != RUNNING
    ensures scan in Run(db, steps).scans && Run(db, steps).scans[scan] == db.scans[scan]
    decreases |steps|
  {
    if steps != [] {
      var prefix := steps[..|steps| - 1];
      TerminalScanForever(db, prefix, scan);
      if Accepts(Run(db, prefix), steps[|steps| - 1]) {
        TerminalScanFrozen(Run(db, prefix), steps[|steps| - 1], scan);
      }
    }
  }

  lemma ReceiptScanTerminal(db: Db, v: Verification)
    requires VerificationsOk(db) && ReceiptsOk(db.scans, db.verifications, db.receipts)
    requires v in db.verifications && v.verificationId in db.receipts
    ensures v.scanId in db.scans && db.scans[v.scanId].status != RUNNING
    ensures db.scans[v.scanId].completedAt == Some(db.receipts[v.verificationId].createdAt)
  {
    var id := v.verificationId;
    var w :| ReceiptOk(db.scans, db.verifications, id, db.receipts[id], w);
    assert v == w;
  }

  /** Once a receipt is written, its verification's scan row never changes again. */
  lemma ReceiptScanFrozen(before: seq<Step>, after: seq<Step>, v: Verification)
    requires var db := Run(Empty(), before); v in db.verifications && v.verificationId in db.receipts
    ensures var db, now := Run(Empty(), before), Run(Run(Empty(), before), after);
            && v.scanId in db.scans && v.scanId in now.scans
            && now.scans[v.scanId] == db.scans[v.scanId]
            && db.scans[v.scanId].status != RUNNING
            && db.scans[v.scanId].completedAt == Some(db.receipts[v.verificationId].createdAt)
  {
    ReachableReceipts(before);
    ReachableVerifications(before);
    ReceiptScanTerminal(Run(Empty(), before), v);
    TerminalScanForever(Run(Empty(), before), after, v.scanId);
  }
}
