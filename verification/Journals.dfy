/**
 The journal of one execution, and the language of event kinds its transition table generates.
 */
module Journals {
  import opened Scans
  import opened Protocol

  /** The events of execution x in the order they were accepted. */
  function Journal(events: seq<Event>, x: Id): (j: seq<Event>)
    ensures forall v :: v in j <==> v in events && v.executionId == x
  {
    if events == [] then []
    else
      var last := events[|events| - 1];
      assert events == events[..|events| - 1] + [last];
      Journal(events[..|events| - 1], x) + if last.executionId == x then [last] else []
  }

  lemma JournalAppend(events: seq<Event>, n: Event, x: Id)
    ensures Journal(events + [n], x) == Journal(events, x) + if n.executionId == x then [n] else []
  {
    assert (events + [n])[..|events|] == events;
  }

  function Kinds(j: seq<Event>): (w: seq<EventKind>)
    ensures |w| == |j| && forall i :: 0 <= i < |j| ==> w[i] == j[i].kind
  {
    seq(|j|, i requires 0 <= i < |j| => j[i].kind)
  }

  // ----- The language of the transition table -----

  /** A word the transition table lets through, one event after another. */
  predicate Linked(w: seq<EventKind>) {
    && (w != [] ==> w[0] == REQUESTED)
    && forall i :: 0 < i < |w| ==> MayFollow(w[i - 1], w[i])
  }

  /** After the intent: acknowledge, quarantine and observe, never two verdicts back to back. */
  predicate Tail(w: seq<EventKind>, from: nat) {
    forall i :: from <= i < |w| ==>
      && w[i] in {ACKNOWLEDGED, QUARANTINED, OBSERVED, OBSERVATION_FAILED}
      && (i == from ==> w[i] in {ACKNOWLEDGED, QUARANTINED})
      && (i > from && w[i] in {ACKNOWLEDGED, QUARANTINED} ==> w[i - 1] != ACKNOWLEDGED)
  }

  /** REQUESTED, then `claims` CLAIMED, then at most one kind of ending. */
  predicate Shape(w: seq<EventKind>, claims: nat) {
    && claims < |w|
    && w[0] == REQUESTED
    && (forall i :: 1 <= i <= claims ==> w[i] == CLAIMED)
    && var end := claims + 1;
    || |w| == end
    || (|w| == end + 1 && w[end] in {EXPIRED, BLOCKED} && claims == 0)
    || (|w| == end + 1 && w[end] == NO_WRITE)
    || (claims > 0 && w[end] == WRITE_INTENT && Tail(w, end + 1))
  }

  ghost predicate InLanguage(w: seq<EventKind>) {
    w == [] || exists claims: nat :: Shape(w, claims)
  }

  /** The transition table generates exactly the regular language above. */
  lemma {:induction false} TableLanguage(w: seq<EventKind>)
    ensures Linked(w) <==> InLanguage(w)
  {
    if w != [] {
      var u, k := w[..|w| - 1], w[|w| - 1];
      if Linked(w) && u != [] {
        TableLanguage(u);
        var claims: nat :| Shape(u, claims);
        LongerShape(u, k, claims);
        assert w == u + [k];
      } else if Linked(w) {
        assert Shape(w, 0);
      }
      if claims: nat :| Shape(w, claims) {
        ShapeIsLinked(w, claims);
      }
    }
  }

  /** A step the table allows lengthens a word of the language by one letter. */
  lemma LongerShape(u: seq<EventKind>, k: EventKind, claims: nat)
    requires Shape(u, claims) && MayFollow(u[|u| - 1], k)
    ensures Shape(u + [k], if k == CLAIMED then claims + 1 else claims)
  {
  }

  lemma ShapeIsLinked(w: seq<EventKind>, claims: nat)
    requires Shape(w, claims)
    ensures Linked(w)
  {
  }

  /** One write intent a word: no uniqueness index is needed for this. */
  lemma SingleIntent(w: seq<EventKind>, i: nat, j: nat)
    requires Linked(w)
    requires i < |w| && j < |w| && w[i] == w[j] == WRITE_INTENT
    ensures i == j
  {
    TableLanguage(w);
    var claims: nat :| Shape(w, claims);
    assert i == claims + 1 && j == claims + 1;
  }

  /** The table alone admits two acknowledgements; only the unique index forbids the second. */
  lemma TableAdmitsTwoAcknowledgements()
    ensures var w := [REQUESTED, CLAIMED, WRITE_INTENT, ACKNOWLEDGED, OBSERVED, ACKNOWLEDGED];
            Linked(w) && w[3] == w[5] == ACKNOWLEDGED
  {
  }

  /** A write intent excludes for good the three endings that never wrote. */
  lemma IntentExcludesEndings(w: seq<EventKind>, i: nat, j: nat)
    requires Linked(w)
    requires i < |w| && w[i] in {WRITE_INTENT, ACKNOWLEDGED, QUARANTINED, OBSERVED, OBSERVATION_FAILED}
    requires j < |w|
    ensures w[j] !in {EXPIRED, BLOCKED, NO_WRITE}
  {
    TableLanguage(w);
    var claims: nat :| Shape(w, claims);
  }

  /** A verdict or an observation comes after a write intent, and that after a claim. */
  lemma EffectNeedsIntent(w: seq<EventKind>, i: nat)
    requires Linked(w)
    requires i < |w| && w[i] in {ACKNOWLEDGED, QUARANTINED, OBSERVED, OBSERVATION_FAILED}
    ensures exists k :: 1 < k < i && w[k] == WRITE_INTENT && w[k - 1] == CLAIMED
  {
    TableLanguage(w);
    var claims: nat :| Shape(w, claims);
    assert w[claims + 1] == WRITE_INTENT && w[claims + 1 - 1] == CLAIMED;
  }

  // ----- Well-formed journals -----

  ghost predicate JournalOk(executions: map<Id, Execution>, j: seq<Event>, x: Id) {
    && (forall i :: 0 <= i < |j| ==> j[i].executionId == x && j[i].sequence == i + 1)
    && (forall i :: 0 < i < |j| ==> Succeeds(j[i - 1], j[i]))
    && (j != [] ==> x in executions && j[0].kind == REQUESTED && j[0].previous.None?)
    && (forall i :: 0 <= i < |j| ==> x in executions && InWindow(executions[x], j[i]))
    && (forall i, k :: 0 <= i < k < |j| ==> j[i].kind != ACKNOWLEDGED || j[k].kind != ACKNOWLEDGED)
  }

  lemma JournalIsLinked(executions: map<Id, Execution>, j: seq<Event>, x: Id)
    requires JournalOk(executions, j, x)
    ensures Linked(Kinds(j))
  {
    forall i | 0 < i < |j| ensures MayFollow(Kinds(j)[i - 1], Kinds(j)[i]) {
      assert Succeeds(j[i - 1], j[i]);
    }
  }

  lemma {:induction false} TimesOrdered(executions: map<Id, Execution>, j: seq<Event>, x: Id, i: nat, k: nat)
    requires JournalOk(executions, j, x)
    requires i <= k < |j|
    ensures j[i].createdAt <= j[k].createdAt
    decreases k - i
  {
    if i < k {
      assert Succeeds(j[k - 1], j[k]);
      TimesOrdered(executions, j, x, i, k - 1);
    }
  }

  ghost predicate JournalsOk(db: Db) {
    forall x :: JournalOk(db.executions, Journal(db.events, x), x)
  }

  /** An accepted event carries the next sequence number of its journal. */
  lemma NextInSequence(db: Db, n: Event)
    requires JournalsOk(db) && EventAdmitted(db, n)
    ensures var j := Journal(db.events, n.executionId);
            && n.sequence == |j| + 1
            && (j != [] ==> Succeeds(j[|j| - 1], n))
  {
    hide JournalOk, InWindow, FenceAllows, EventAudited;
    var j := Journal(db.events, n.executionId);
    assert JournalOk(db.executions, j, n.executionId);
    assert forall v :: v in j ==> v in db.events && v.sequence < n.sequence;
    if j != [] {
      Numbered(db.executions, j, n.executionId);
    }
    if n.sequence > 1 {
      var v :| v in db.events && Succeeds(v, n);
      PredecessorIsLast(db.executions, j, v, n);
    }
  }

  lemma Numbered(executions: map<Id, Execution>, j: seq<Event>, x: Id)
    requires JournalOk(executions, j, x) && j != []
    ensures j[0] in j && j[0].sequence == 1
  {
  }

  lemma PredecessorIsLast(executions: map<Id, Execution>, j: seq<Event>, v: Event, n: Event)
    requires JournalOk(executions, j, n.executionId)
    requires v in j && Succeeds(v, n) && forall w :: w in j ==> w.sequence < n.sequence
    ensures n.sequence == |j| + 1 && Succeeds(j[|j| - 1], n)
  {
    assert j[|j| - 1] in j && j[|j| - 1].sequence == |j|;
  }

  /** An accepted event keeps the journal it extends well formed. */
  lemma EventExtendsJournal(db: Db, n: Event)
    requires JournalsOk(db) && EventAdmitted(db, n)
    ensures JournalOk(db.executions, Journal(db.events, n.executionId) + [n], n.executionId)
  {
    hide JournalOk, InWindow, FenceAllows, EventAudited;
    NextInSequence(db, n);
    var j := Journal(db.events, n.executionId);
    assert forall v :: v in j ==> v.kind != ACKNOWLEDGED || n.kind != ACKNOWLEDGED;
    ExtendedJournal(db.executions, j, n);
  }

  lemma ExtendedJournal(executions: map<Id, Execution>, j: seq<Event>, n: Event)
    requires JournalOk(executions, j, n.executionId)
    requires n.sequence == |j| + 1 && n.executionId in executions && InWindow(executions[n.executionId], n)
    requires if j == [] then n.kind == REQUESTED && n.previous.None? else Succeeds(j[|j| - 1], n)
    requires forall v :: v in j ==> v.kind != ACKNOWLEDGED || n.kind != ACKNOWLEDGED
    ensures JournalOk(executions, j + [n], n.executionId)
  {
    hide Succeeds, InWindow;
    assert forall i :: 0 <= i < |j| ==> j[i] in j;
  }

  lemma EventKeepsJournals(db: Db, n: Event)
    requires JournalsOk(db) && EventAdmitted(db, n)
    ensures JournalsOk(db.(events := db.events + [n]))
  {
    EventExtendsJournal(db, n);
    forall y ensures JournalOk(db.executions, Journal(db.events + [n], y), y) {
      JournalAppend(db.events, n, y);
      if y != n.executionId {
        assert Journal(db.events, y) + [] == Journal(db.events, y);
      }
    }
  }
}
