/** Safety over whole runs: fencing, frozen claims, attempt budgets and reservations. */
module RunSafety {
  import opened Wrappers
  import opened Scans
  import opened Protocol
  import opened Journals
  import opened Invariants

  // ----- What a claim row can become -----

  ghost predicate SameLease(was: Claim, now: Claim) {
    now.token == was.token && now.generation == was.generation && now.leaseUntil == was.leaseUntil
  }

  ghost predicate ClaimProgress(was: Claim, now: Claim) {
    && now.role == was.role
    && was.generation <= now.generation
    && (now.generation == was.generation ==> SameLease(was, now))
    && was.readAttempts <= now.readAttempts
    && was.readbackAttempts <= now.readbackAttempts
    && (was.readbackStartedAt.Some? ==> now.readbackStartedAt == was.readbackStartedAt)
    && (was.writeIntent.Some? ==> now.writeIntent == was.writeIntent && SameLease(was, now))
  }

  ghost predicate ClaimsProgress(was: Db, now: Db) {
    forall x :: x in was.claims ==>
      && x in now.claims && ClaimProgress(was.claims[x], now.claims[x])
      && (HasEvent(was.events, x, WRITE_INTENT) ==> SameLease(was.claims[x], now.claims[x]))
  }

  lemma ClaimStep(db: Db, s: Step, x: Id)
    requires JournalOk(db.executions, Journal(db.events, x), x) && Accepts(db, s) && x in db.claims
    ensures x in Apply(db, s).claims && ClaimProgress(db.claims[x], Apply(db, s).claims[x])
    ensures HasEvent(db.events, x, WRITE_INTENT) ==> SameLease(db.claims[x], Apply(db, s).claims[x])
  {
    hide Apply, Accepts, JournalOk, ClaimInScope, EventAdmitted, VerificationAdmitted, ReceiptAdmitted;
    Effect(db, s, Apply(db, s));
    Guards(db, s);
    if s.UpdateClaim? && s.id == x && HasEvent(db.events, x, WRITE_INTENT) {
      NoTakeoverAfterIntent(db.executions, db.events, x, db.claims[x].leaseUntil);
    }
  }

  lemma StepProgress(db: Db, s: Step)
    requires JournalsOk(db)
    ensures db.events <= Exec(db, s).events && ClaimsProgress(db, Exec(db, s))
  {
    hide Apply, Accepts, JournalOk;
    if Accepts(db, s) {
      StepGrows(db, s);
      forall x | x in db.claims
        ensures x in Exec(db, s).claims && ClaimProgress(db.claims[x], Exec(db, s).claims[x])
        ensures HasEvent(db.events, x, WRITE_INTENT) ==> SameLease(db.claims[x], Exec(db, s).claims[x])
      {
        ClaimStep(db, s, x);
      }
    }
  }

  lemma ProgressReflexive(db: Db)
    ensures ClaimsProgress(db, db)
  {
  }

  lemma ProgressTransitive(a: Db, b: Db, c: Db)
    requires a.events <= b.events <= c.events && ClaimsProgress(a, b) && ClaimsProgress(b, c)
    ensures a.events <= c.events && ClaimsProgress(a, c)
  {
    forall x | HasEvent(a.events, x, WRITE_INTENT) ensures HasEvent(b.events, x, WRITE_INTENT) {
      var v :| v in a.events && v.executionId == x && v.kind == WRITE_INTENT;
      assert v in b.events;
    }
  }

  lemma {:induction false} RunProgress(db: Db, steps: seq<Step>)
    requires Inv(db)
    ensures db.events <= Run(db, steps).events && ClaimsProgress(db, Run(db, steps))
    decreases |steps|
  {
    hide ClaimsProgress, Apply, Accepts;
    if steps == [] {
      ProgressReflexive(db);
    } else {
      var prefix := steps[..|steps| - 1];
      var mid, now := Run(db, prefix), Run(db, steps);
      RunProgress(db, prefix);
      assert mid.events <= now.events && ClaimsProgress(mid, now) by {
        RunKeepsInv(db, prefix);
        StepProgress(mid, steps[|steps| - 1]);
      }
      ProgressTransitive(db, mid, now);
    }
  }

  // ----- Fencing -----

  /**
   After a takeover CLAIMED is journaled against a claim row of generation g, a write intent is
   accepted only once that row has rotated past g: the old lease can no longer write.
   */
  lemma TakeoverFences(before: seq<Step>, claimed: Event, between: seq<Step>, intent: Event)
    requires var db := Run(Empty(), before);
             && claimed.kind == CLAIMED && claimed.executionId in db.claims
             && Accepts(db, InsertEvent(claimed))
             && intent.kind == WRITE_INTENT && intent.executionId == claimed.executionId
             && Accepts(Run(Exec(db, InsertEvent(claimed)), between), InsertEvent(intent))
    ensures var db := Run(Empty(), before);
            var now := Run(Exec(db, InsertEvent(claimed)), between);
            && claimed.executionId in now.claims
            && now.claims[claimed.executionId].generation > db.claims[claimed.executionId].generation
  {
    hide Inv, Run, InWindow, EventKeys, EventAudited;
    var db := Run(Empty(), before);
    var took := Exec(db, InsertEvent(claimed));
    var now := Run(took, between);
    assert JournalsOk(now) && took.events <= now.events && ClaimsProgress(took, now) by {
      ReachableInv(before);
      StepKeepsInv(db, InsertEvent(claimed));
      RunProgress(took, between);
      RunKeepsInv(took, between);
    }
    assert claimed in took.events;
    NotBeforeHistory(now, claimed, intent);
    LeaseHasRotated(db, now, claimed, intent);
  }

  /** One lease cannot both be over at the takeover and live at a later intent. */
  lemma LeaseHasRotated(was: Db, now: Db, claimed: Event, intent: Event)
    requires claimed.kind == CLAIMED && FenceAllows(was.claims, claimed) && claimed.executionId in was.claims
    requires ClaimsProgress(was.(events := was.events + [claimed]), now)
    requires intent.kind == WRITE_INTENT && intent.executionId == claimed.executionId
    requires FenceAllows(now.claims, intent) && claimed.createdAt <= intent.createdAt
    ensures now.claims[claimed.executionId].generation > was.claims[claimed.executionId].generation
  {
    assert ClaimProgress(was.claims[claimed.executionId], now.claims[claimed.executionId]);
  }

  /** Times in one journal never go back: a new event is no earlier than any before it. */
  lemma NotBeforeHistory(db: Db, v: Event, n: Event)
    requires JournalsOk(db) && EventAdmitted(db, n)
    requires v in db.events && v.executionId == n.executionId
    ensures v.createdAt <= n.createdAt
  {
    hide EventAdmitted;
    var j := Journal(db.events, n.executionId);
    NextInSequence(db, n);
    assert v in j;
    var i :| 0 <= i < |j| && j[i] == v;
    TimesOrdered(db.executions, j, n.executionId, i, |j| - 1);
  }

  /** From the write intent on, token, generation and lease are frozen, stamped or not. */
  lemma IntentFreezesClaim(before: seq<Step>, after: seq<Step>, x: Id)
    requires HasEvent(Run(Empty(), before).events, x, WRITE_INTENT)
    ensures var db, now := Run(Empty(), before), Run(Run(Empty(), before), after);
            && x in db.claims && x in now.claims
            && now.claims[x].token == db.claims[x].token
            && now.claims[x].generation == db.claims[x].generation
            && now.claims[x].leaseUntil == db.claims[x].leaseUntil
  {
    ReachableInv(before);
    RunProgress(Run(Empty(), before), after);
  }

  /** A claim row never starts its life already stamped with an intent. */
  lemma ClaimStartsUnstamped(before: seq<Step>, id: Id, c: Claim)
    requires Accepts(Run(Empty(), before), InsertClaim(id, c))
    ensures c.writeIntent.None?
  {
    ReachableInv(before);
    var db := Run(Empty(), before);
    assert IntentsLeased(db) && ClaimInScope(db, id, c);
  }

  /** A stamp is the one write intent of the execution, and is never replaced. */
  lemma StampIsTheIntent(before: seq<Step>, after: seq<Step>, x: Id)
    requires var db := Run(Empty(), before); x in db.claims && db.claims[x].writeIntent.Some?
    ensures var db, now := Run(Empty(), before), Run(Run(Empty(), before), after);
            && x in now.claims && now.claims[x].writeIntent == db.claims[x].writeIntent
            && forall v :: v in now.events && v.executionId == x && v.kind == WRITE_INTENT ==>
                 v.eventId == db.claims[x].writeIntent.value
  {
    hide Run, JournalsOk, AuthorityOk, ReservationsOk, ScansOk, VerificationsOk, AttemptsOk, ReceiptsOk;
    var db, now := Run(Empty(), before), Run(Run(Empty(), before), after);
    ReachableInv(before);
    RunProgress(db, after);
    RunKeepsInv(db, after);
    var stamp :| stamp in db.events && stamp.eventId == db.claims[x].writeIntent.value
                 && stamp.executionId == x && stamp.kind == WRITE_INTENT;
    assert stamp in now.events;
    forall v | v in now.events && v.executionId == x && v.kind == WRITE_INTENT ensures v == stamp {
      OneIntent(now, x, v, stamp);
    }
  }

  lemma OneIntent(db: Db, x: Id, v: Event, w: Event)
    requires JournalsOk(db)
    requires v in db.events && v.executionId == x && v.kind == WRITE_INTENT
    requires w in db.events && w.executionId == x && w.kind == WRITE_INTENT
    ensures v == w
  {
    var j := Journal(db.events, x);
    assert JournalOk(db.executions, j, x);
    JournalIsLinked(db.executions, j, x);
    assert v in j && w in j;
    var i :| 0 <= i < |j| && j[i] == v;
    var k :| 0 <= k < |j| && j[k] == w;
    SingleIntent(Kinds(j), i, k);
  }

  // ----- Attempt budgets -----

  datatype Budget = READ | READBACK

  function Attempts(db: Db, x: Id, b: Budget): int {
    if x !in db.claims then 0
    else if b == READ then db.claims[x].readAttempts else db.claims[x].readbackAttempts
  }

  /** How many attempts a run has recorded for x, adding up every rise of the counter. */
  function Recorded(steps: seq<Step>, x: Id, b: Budget): int
    decreases |steps|
  {
    if steps == [] then 0
    else
      var prefix := steps[..|steps| - 1];
      var rise := Attempts(Run(Empty(), steps), x, b) - Attempts(Run(Empty(), prefix), x, b);
      Recorded(prefix, x, b) + if rise > 0 then rise else 0
  }

  lemma WithinBudget(db: Db, x: Id, b: Budget)
    requires Inv(db)
    ensures 0 <= Attempts(db, x, b) <= 3
  {
  }

  /** Takeovers do not refill a budget: reads and readbacks each total at most three a run. */
  lemma {:induction false} BudgetsBoundTheRun(steps: seq<Step>, x: Id, b: Budget)
    ensures 0 <= Recorded(steps, x, b) == Attempts(Run(Empty(), steps), x, b) <= 3
    decreases |steps|
  {
    hide Inv, Accepts, Apply;
    ReachableInv(steps);
    WithinBudget(Run(Empty(), steps), x, b);
    if steps != [] {
      var prefix := steps[..|steps| - 1];
      BudgetsBoundTheRun(prefix, x, b);
      ReachableInv(prefix);
      StepProgress(Run(Empty(), prefix), steps[|steps| - 1]);
    }
  }

  /** The readback window is opened once: its start never moves and is never cleared. */
  lemma ReadbackStartFixed(before: seq<Step>, after: seq<Step>, x: Id)
    requires var db := Run(Empty(), before); x in db.claims && db.claims[x].readbackAttempts > 0
    ensures var db, now := Run(Empty(), before), Run(Run(Empty(), before), after);
            && x in now.claims && db.claims[x].readbackStartedAt.Some?
            && now.claims[x].readbackStartedAt == db.claims[x].readbackStartedAt
  {
    ReachableInv(before);
    RunProgress(Run(Empty(), before), after);
  }

  // ----- Reservations -----

  datatype Scope = Scope(account: string, region: string, action: string)

  function ScopeOf(r: Reservation): Scope {
    Scope(r.account, r.region, r.action)
  }

  /** Execution x holds the reservation of a target scope. */
  ghost predicate Holds(db: Db, scope: Scope, x: Id) {
    exists id :: id in db.reservations && ScopeOf(db.reservations[id]) == scope
                 && db.reservations[id].executionId == Some(x)
  }

  /** Two executions never hold one scope, and one execution never holds two. */
  lemma OneHolder(before: seq<Step>, s1: Scope, s2: Scope, x: Id, y: Id)
    requires Holds(Run(Empty(), before), s1, x) && Holds(Run(Empty(), before), s2, y)
    ensures s1 == s2 <==> x == y
  {
    ReachableInv(before);
    var db := Run(Empty(), before);
    var a :| a in db.reservations && ScopeOf(db.reservations[a]) == s1 && db.reservations[a].executionId == Some(x);
    var b :| b in db.reservations && ScopeOf(db.reservations[b]) == s2 && db.reservations[b].executionId == Some(y);
    assert ReservationKeys(db.reservations, a, db.reservations[a]);
    assert ReservationKeys(db.reservations, b, db.reservations[b]);
  }

  /** While its execution is not terminal, no statement takes a scope from it. */
  lemma StepKeepsHold(db: Db, s: Step, scope: Scope, x: Id)
    requires ReservationsOk(db.findings, db.proposals, db.executions, db.reservations)
    requires Holds(db, scope, x) && !Terminal(db.events, x)
    ensures Holds(Exec(db, s), scope, x)
  {
    hide Apply, Accepts;
    var id :| && id in db.reservations && ScopeOf(db.reservations[id]) == scope
              && db.reservations[id].executionId == Some(x);
    assert ActsOn(db.executions, db.proposals, db.findings, x, db.reservations[id]);
    var now := Exec(db, s).reservations;
    if Accepts(db, s) {
      Effect(db, s, Apply(db, s));
      Guards(db, s);
      assert id in now && ScopeOf(now[id]) == scope && now[id].executionId == Some(x);
    }
  }

  /** A scope leaves an execution only at a moment when that execution is terminal. */
  lemma ReleasedOnlyWhenTerminal(before: seq<Step>, s: Step, scope: Scope, x: Id)
    requires Holds(Run(Empty(), before), scope, x)
    requires !Holds(Run(Empty(), before + [s]), scope, x)
    ensures Terminal(Run(Empty(), before).events, x)
  {
    ReachableInv(before);
    RunAppend(Empty(), before, [s]);
    assert [s][..0] == [];
    if !Terminal(Run(Empty(), before).events, x) {
      StepKeepsHold(Run(Empty(), before), s, scope, x);
    }
  }

  /** Quarantine is never terminal, whatever was acknowledged. */
  lemma QuarantineNotTerminal(db: Db, x: Id)
    requires JournalsOk(db) && HasEvent(db.events, x, QUARANTINED)
    ensures !Terminal(db.events, x)
  {
    var j := Journal(db.events, x);
    assert JournalOk(db.executions, j, x);
    JournalIsLinked(db.executions, j, x);
    var q :| q in j && q.kind == QUARANTINED;
    var i :| 0 <= i < |j| && j[i] == q;
    forall v | v in j ensures v.kind !in {EXPIRED, BLOCKED, NO_WRITE} {
      var k :| 0 <= k < |j| && j[k] == v;
      IntentExcludesEndings(Kinds(j), i, k);
    }
    assert forall v :: v in db.events && v.executionId == x ==> v in j;
  }

  /** A quarantined execution is never terminal again. */
  lemma QuarantineStays(before: seq<Step>, after: seq<Step>, x: Id)
    requires HasEvent(Run(Empty(), before).events, x, QUARANTINED)
    ensures !Terminal(Run(Run(Empty(), before), after).events, x)
  {
    var db, now := Run(Empty(), before), Run(Run(Empty(), before), after);
    assert db.events <= now.events && JournalsOk(now) by {
      ReachableInv(before);
      RunProgress(db, after);
      RunKeepsInv(db, after);
    }
    var q :| q in db.events && q.executionId == x && q.kind == QUARANTINED;
    assert q in now.events;
    QuarantineNotTerminal(now, x);
  }

  lemma ReservationsStayOk(before: seq<Step>, after: seq<Step>)
    ensures var db := Run(Run(Empty(), before), after);
            ReservationsOk(db.findings, db.proposals, db.executions, db.reservations)
  {
    ReachableInv(before);
    RunKeepsInv(Run(Empty(), before), after);
  }

  /** A reservation held while its execution is quarantined is held by it in every later state. */
  lemma {:induction false} QuarantineHoldsForever(before: seq<Step>, after: seq<Step>, scope: Scope, x: Id)
    requires HasEvent(Run(Empty(), before).events, x, QUARANTINED)
    requires Holds(Run(Empty(), before), scope, x)
    ensures Holds(Run(Run(Empty(), before), after), scope, x)
    decreases |after|
  {
    if after != [] {
      var prefix := after[..|after| - 1];
      QuarantineHoldsForever(before, prefix, scope, x);
      QuarantineStays(before, prefix, x);
      ReservationsStayOk(before, prefix);
      StepKeepsHold(Run(Run(Empty(), before), prefix), after[|after| - 1], scope, x);
    }
  }

  /** Terminality by acknowledgement is not monotone: a later quarantine takes it away for good. */
  lemma QuarantineUndoesTerminal(before: seq<Step>, q: Event, after: seq<Step>)
    requires q.kind == QUARANTINED && Accepts(Run(Empty(), before), InsertEvent(q))
    ensures !Terminal(Run(Exec(Run(Empty(), before), InsertEvent(q)), after).events, q.executionId)
  {
    var s := InsertEvent(q);
    assert (before + [s])[..|before|] == before;
    assert Run(Empty(), before + [s]) == Exec(Run(Empty(), before), s);
    assert q in Run(Empty(), before + [s]).events;
    QuarantineStays(before + [s], after, q.executionId);
  }
}
