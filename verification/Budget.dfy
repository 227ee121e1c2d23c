/**
 The execution budget of a case with one live row. Lease expiries (in place) and retries (in a new row) draw on one
 counter, so along a case's lineage attempt = 1 + retries + expiries; starts are bounded by attempts and human re-runs; and
 no two starts of a case carry the same attempt unless a human re-queued it in between.
 */
module Budget {
  import opened Wrappers
  import opened Rows
  import opened Substrate
  import opened EventLog
  import opened Protocol
  import opened Effects
  import opened Structure
  import opened Readiness
  import opened History

  /******* Counting events of a case *******/

  datatype What = Starts | Expirations | Retries | HumanReruns

  predicate Is(e: Event, k: CaseKey, what: What) {
    && e.detail.Moved? && e.detail.key == Some(k)
    && match what
       case Starts => e.verb == JobStarted
       case Expirations => e.verb == JobLeaseExpired
       case Retries => e.verb == JobRetried
       case HumanReruns => IsRerun(e)
  }

  function Tally(log: seq<Event>, k: CaseKey, what: What): nat {
    if log == [] then 0 else Tally(log[..|log| - 1], k, what) + if Is(log[|log| - 1], k, what) then 1 else 0
  }

  lemma TallyPush(log: seq<Event>, e: Event, k: CaseKey, what: What)
    ensures Tally(log + [e], k, what) == Tally(log, k, what) + if Is(e, k, what) then 1 else 0
  {
    assert (log + [e])[..|log|] == log;
  }

  // Not an event the budget of case k knows about
  predicate Uncounted(e: Event, k: CaseKey) { forall what :: !Is(e, k, what) }

  /******* Idempotency keys *******/

  ghost predicate RerunBetween(log: seq<Event>, k: CaseKey, i: int, j: int) {
    exists m :: 0 <= i < m < j <= |log| && Is(log[m], k, HumanReruns)
  }

  predicate SameStart(e: Event, f: Event, k: CaseKey) {
    Is(e, k, Starts) && Is(f, k, Starts) && e.detail.attempt == f.detail.attempt
  }

  // (study, case, attempt) identifies one start until a human re-queues the case.
  ghost predicate KeysNotReused(log: seq<Event>, k: CaseKey) {
    forall i, j :: 0 <= i < j < |log| && SameStart(log[i], log[j], k) ==> RerunBetween(log, k, i, j)
  }

  predicate PreStart(s: JobState) { s in {Proposed, Approved, Queued, Assigned} }

  /******* The budget of a case, read off its live row *******/

  ghost predicate CaseOk(log: seq<Event>, row: Job, k: CaseKey) {
    && row.attempt == 1 + Tally(log, k, Retries) + Tally(log, k, Expirations)
    && Tally(log, k, Starts) + (if PreStart(row.state) then 1 else 0) <= row.attempt + Tally(log, k, HumanReruns)
    && KeysNotReused(log, k) && StartsOk(log, row, k)
  }

  // No start was numbered higher than the row, and a row that has its own number left was re-run by a human since.
  ghost predicate StartsOk(log: seq<Event>, row: Job, k: CaseKey) {
    forall i :: 0 <= i < |log| && Is(log[i], k, Starts) ==>
      && log[i].detail.attempt <= row.attempt
      && (PreStart(row.state) && log[i].detail.attempt == row.attempt ==> RerunBetween(log, k, i, |log|))
  }

  predicate Counted(row: Job) {
    1 <= row.attempt
  }

  // The only live row of its case
  ghost predicate Sole(db: Db, a: JobId)
    requires a in db.jobs
  {
    db.jobs[a].Key().Some? && Live(db.jobs[a]) && Single(db, db.jobs[a].Key().value)
  }

  ghost predicate Budgeted(db: Db) {
    && (forall a <- db.jobs :: Sole(db, a) ==> CaseOk(db.log, db.jobs[a], db.jobs[a].Key().value))
    && (forall a <- db.jobs :: Counted(db.jobs[a]))
    && (forall e <- db.log :: e.detail.Moved? && e.detail.key.Some? ==> HasCase(db, e.detail.key.value))
  }

  lemma RerunStays(log: seq<Event>, e: Event, k: CaseKey, i: int, j: int)
    requires RerunBetween(log, k, i, j)
    ensures RerunBetween(log + [e], k, i, j) && RerunBetween(log + [e], k, i, j + 1)
  {
    var m :| 0 <= i < m < j <= |log| && Is(log[m], k, HumanReruns);
    assert (log + [e])[m] == log[m];
  }

  lemma KeysPush(log: seq<Event>, e: Event, k: CaseKey)
    requires KeysNotReused(log, k)
    requires forall i :: 0 <= i < |log| && SameStart(log[i], e, k) ==> RerunBetween(log, k, i, |log|)
    ensures KeysNotReused(log + [e], k)
  {
    var after := log + [e];
    forall i, j | 0 <= i < j < |after| && SameStart(after[i], after[j], k)
      ensures RerunBetween(after, k, i, j)
    {
      assert RerunBetween(log, k, i, j);
      RerunStays(log, e, k, i, j);
    }
  }

  // An event the budget does not count, with a row that has not gone back before its start
  lemma QuietEvent(log: seq<Event>, e: Event, row: Job, next: Job, k: CaseKey)
    requires CaseOk(log, row, k) && Uncounted(e, k)
    requires next.attempt == row.attempt && (PreStart(next.state) ==> PreStart(row.state))
    ensures CaseOk(log + [e], next, k)
  {
    QuietTallies(log, e, k);
    KeysPush(log, e, k);
    var after := log + [e];
    forall i | 0 <= i < |after| && Is(after[i], k, Starts) && PreStart(next.state) && after[i].detail.attempt == next.attempt
      ensures RerunBetween(after, k, i, |after|)
    {
      RerunStays(log, e, k, i, |log|);
    }
  }

  lemma QuietTallies(log: seq<Event>, e: Event, k: CaseKey)
    requires Uncounted(e, k)
    ensures forall what :: Tally(log + [e], k, what) == Tally(log, k, what)
  {
    forall what ensures Tally(log + [e], k, what) == Tally(log, k, what) { TallyPush(log, e, k, what); }
  }

  lemma CaseMove(log: seq<Event>, row: Job, q: Request, k: CaseKey)
    requires CaseOk(log, row, k) && row.Key() == Some(k) && JobVerb(row.state, q.to).Some? && q.to != RetrySpawned
    ensures CaseOk(log + [MoveEvent(row, q)], MovedRow(row, q), k)
  {
    hide MoveEvent, MovedRow, Uncounted, StartsOk, KeysNotReused, Tally, JobVerb;
    if Uncounted(MoveEvent(row, q), k) {
      UncountedMove(row, q, k);
      QuietEvent(log, MoveEvent(row, q), row, MovedRow(row, q), k);
    } else {
      CountedTallies(log, row, q, k);
      CountedKeys(log, row, q, k);
      CountedMove(log, row, q, k);
    }
  }

  lemma CountedKeys(log: seq<Event>, row: Job, q: Request, k: CaseKey)
    requires CaseOk(log, row, k) && row.Key() == Some(k) && JobVerb(row.state, q.to).Some?
    ensures KeysNotReused(log + [MoveEvent(row, q)], k)
  {
    KeysPush(log, MoveEvent(row, q), k);
  }

  // Starts, expiries and human re-runs are counted, so no other move brings a row back before its start.
  lemma UncountedMove(row: Job, q: Request, k: CaseKey)
    requires row.Key() == Some(k) && JobVerb(row.state, q.to).Some? && Uncounted(MoveEvent(row, q), k)
    ensures MovedRow(row, q).attempt == row.attempt && (PreStart(MovedRow(row, q).state) ==> PreStart(row.state))
  {
    var e := MoveEvent(row, q);
    assert !Is(e, k, Starts) && !Is(e, k, Expirations) && !Is(e, k, HumanReruns);
  }

  lemma CountedTallies(log: seq<Event>, row: Job, q: Request, k: CaseKey)
    requires row.attempt == 1 + Tally(log, k, Retries) + Tally(log, k, Expirations)
    requires Tally(log, k, Starts) + (if PreStart(row.state) then 1 else 0) <= row.attempt + Tally(log, k, HumanReruns)
    requires row.Key() == Some(k) && JobVerb(row.state, q.to).Some? && q.to != RetrySpawned
    ensures var after, next := log + [MoveEvent(row, q)], MovedRow(row, q);
      && next.attempt == 1 + Tally(after, k, Retries) + Tally(after, k, Expirations)
      && (!Uncounted(MoveEvent(row, q), k) ==>
            Tally(after, k, Starts) + (if PreStart(next.state) then 1 else 0) <= next.attempt + Tally(after, k, HumanReruns))
  {
    var e := MoveEvent(row, q);
    TallyPush(log, e, k, Starts);
    TallyPush(log, e, k, Expirations);
    TallyPush(log, e, k, Retries);
    TallyPush(log, e, k, HumanReruns);
  }

  lemma CountedMove(log: seq<Event>, row: Job, q: Request, k: CaseKey)
    requires CaseOk(log, row, k) && row.Key() == Some(k) && JobVerb(row.state, q.to).Some? && q.to != RetrySpawned
    requires !Uncounted(MoveEvent(row, q), k)
    ensures StartsOk(log + [MoveEvent(row, q)], MovedRow(row, q), k)
  {
    var e, next := MoveEvent(row, q), MovedRow(row, q);
    var after := log + [e];
    forall i | 0 <= i < |after| && Is(after[i], k, Starts) && PreStart(next.state) && after[i].detail.attempt == next.attempt
      ensures RerunBetween(after, k, i, |after|)
    {
      // only a human re-run brings the row back with its attempt unchanged
      assert Is(e, k, HumanReruns) && after[|log|] == e;
    }
  }

  /******* Actions *******/

  lemma BudgetMove(db: Db, q: Request)
    requires Budgeted(db) && Gentle(db, q) && q.to != RetrySpawned
    ensures Budgeted(Move(db, q))
  {
    if MoveRefusal(db, q).None? {
      var b := Move(db, q);
      GentleExtends(db, q);
      forall a <- b.jobs | Sole(b, a) ensures CaseOk(b.log, b.jobs[a], b.jobs[a].Key().value) {
        ExtendedSingle(db, b, {}, b.jobs[a].Key().value);
        assert SameRole(db.jobs[a], b.jobs[a]) && Sole(db, a);
        BudgetMoveCase(db, q, a);
      }
      BudgetMoveCases(db, q);
      BudgetMoveWithin(db, q);
      hide Extended, Sole, Counted, CaseOk, HasCase;
    }
  }

  lemma BudgetMoveWithin(db: Db, q: Request)
    requires (forall a <- db.jobs :: Counted(db.jobs[a])) && MoveRefusal(db, q).None?
    ensures forall a <- Move(db, q).jobs :: Counted(Move(db, q).jobs[a])
  {
    MoveShape(db, q);
    assert Counted(db.jobs[q.job]) && Counted(MovedRow(db.jobs[q.job], q));
    hide Move, MovedRow;
    forall a <- Move(db, q).jobs ensures Counted(Move(db, q).jobs[a]) { assert a != q.job ==> Counted(db.jobs[a]); }
  }

  // Another row of the case would be superseded and could not move.
  lemma ElsewhereMoves(db: Db, q: Request, a: JobId, k: CaseKey)
    requires MoveRefusal(db, q).None? && a in db.jobs && a != q.job && LiveOf(db.jobs[a], k) && Single(db, k)
    ensures Uncounted(MoveEvent(db.jobs[q.job], q), k)
  {
    assert Live(db.jobs[q.job]);
    assert !LiveOf(db.jobs[q.job], k);
    assert db.jobs[q.job].Key() != Some(k);
  }

  lemma BudgetMoveCase(db: Db, q: Request, a: JobId)
    requires q.to != RetrySpawned && MoveRefusal(db, q).None?
    requires a in db.jobs && Sole(db, a) && CaseOk(db.log, db.jobs[a], db.jobs[a].Key().value)
    ensures CaseOk(Move(db, q).log, Move(db, q).jobs[a], db.jobs[a].Key().value)
  {
    hide CaseOk, MovedRow, MoveEvent, Live, Single, Uncounted;
    var k := db.jobs[a].Key().value;
    if a == q.job {
      CaseMove(db.log, db.jobs[a], q, k);
    } else {
      ElsewhereMoves(db, q, a, k);
      QuietEvent(db.log, MoveEvent(db.jobs[q.job], q), db.jobs[a], db.jobs[a], k);
    }
  }

  lemma BudgetMoveCases(db: Db, q: Request)
    requires Budgeted(db) && MoveRefusal(db, q).None?
    ensures forall e <- Move(db, q).log :: e.detail.Moved? && e.detail.key.Some? ==> HasCase(Move(db, q), e.detail.key.value)
  {
    var b := Move(db, q);
    forall e <- b.log | e.detail.Moved? && e.detail.key.Some? ensures HasCase(b, e.detail.key.value) {
      if e in db.log {
        var j :| j in db.jobs && db.jobs[j].Key() == e.detail.key;
        assert b.jobs[j].Key() == e.detail.key;
      } else {
        assert b.jobs[q.job].Key() == e.detail.key;
      }
    }
  }

  // An event about no case at all
  predicate Caseless(e: Event) { e.detail.Moved? ==> e.detail.key.None? }

  // Steps that leave the ANALYSIS rows as they are and write only caseless events
  ghost predicate Beside(a: Db, b: Db) {
    && a.log <= b.log && (forall i :: |a.log| <= i < |b.log| ==> Caseless(b.log[i]))
    && a.jobs.Keys <= b.jobs.Keys
    && (forall j <- a.jobs :: b.jobs[j].Key() == a.jobs[j].Key() && b.jobs[j].attempt == a.jobs[j].attempt
                              && b.jobs[j].maxAttempts == a.jobs[j].maxAttempts
                              && (a.jobs[j].Key().Some? ==> b.jobs[j].state == a.jobs[j].state))
    && (forall j <- b.jobs :: j in a.jobs || (b.jobs[j].Key().None? && Counted(b.jobs[j])))
  }

  lemma {:induction false} QuietEvents(log: seq<Event>, more: seq<Event>, row: Job, next: Job, k: CaseKey)
    requires CaseOk(log, row, k) && (forall i :: 0 <= i < |more| ==> Uncounted(more[i], k))
    requires next.attempt == row.attempt && (PreStart(next.state) ==> PreStart(row.state))
    ensures CaseOk(log + more, next, k)
  {
    if more == [] {
      assert log + more == log;
    } else {
      var init, e := more[..|more| - 1], more[|more| - 1];
      QuietEvents(log, init, row, next, k);
      QuietEvent(log + init, e, next, next, k);
      assert log + more == log + init + [e];
    }
  }

  lemma BesideSingle(a: Db, b: Db, k: CaseKey)
    requires Beside(a, b) && Single(b, k)
    ensures Single(a, k)
  {
    forall x <- a.jobs, y <- a.jobs | LiveOf(a.jobs[x], k) && LiveOf(a.jobs[y], k) ensures x == y {
      assert LiveOf(b.jobs[x], k) && LiveOf(b.jobs[y], k);
    }
  }

  lemma BesideKeeps(a: Db, b: Db)
    requires Budgeted(a) && Beside(a, b)
    ensures Budgeted(b)
  {
    var more := b.log[|a.log|..];
    assert b.log == a.log + more;
    forall j <- b.jobs | Sole(b, j) ensures CaseOk(b.log, b.jobs[j], b.jobs[j].Key().value) {
      BesideSingle(a, b, b.jobs[j].Key().value);
      assert Sole(a, j);
      QuietEvents(a.log, more, a.jobs[j], b.jobs[j], b.jobs[j].Key().value);
    }
    forall e <- b.log | e.detail.Moved? && e.detail.key.Some? ensures HasCase(b, e.detail.key.value) {
      var j :| j in a.jobs && a.jobs[j].Key() == e.detail.key;
      assert b.jobs[j].Key() == e.detail.key;
    }
  }

  lemma {:induction false} UnknownCase(log: seq<Event>, k: CaseKey, what: What)
    requires forall e <- log :: e.detail.Moved? ==> e.detail.key != Some(k)
    ensures Tally(log, k, what) == 0
  {
    if log != [] {
      UnknownCase(log[..|log| - 1], k, what);
    }
  }

  lemma NewCaseOk(log: seq<Event>, row: Job, k: CaseKey)
    requires row.attempt == 1 && forall e <- log :: e.detail.Moved? ==> e.detail.key != Some(k)
    ensures CaseOk(log, row, k)
  {
    forall what ensures Tally(log, k, what) == 0 { UnknownCase(log, k, what); }
    assert forall i :: 0 <= i < |log| ==> log[i] in log;
  }

  lemma CaseSingle(db: Db, a: Act, k: CaseKey)
    requires a.AddCase? && a.aid !in db.jobs && a.cid !in db.jobs && a.aid != a.cid && Single(AfterCase(db, a), k)
    ensures Single(db, k)
  {
    var b := AfterCase(db, a);
    forall x <- db.jobs, y <- db.jobs | LiveOf(db.jobs[x], k) && LiveOf(db.jobs[y], k) ensures x == y {
      assert LiveOf(b.jobs[x], k) && LiveOf(b.jobs[y], k);
    }
  }

  // A case that has a row has a live one.
  lemma SoleIsFirst(db: Db, a: Act)
    requires Struct(db) && a.AddCase? && a.aid !in db.jobs && a.cid !in db.jobs && a.aid != a.cid && Sole(AfterCase(db, a), a.aid)
    ensures !HasCase(db, CaseKey(a.sid, a.caseId))
  {
    var b, k := AfterCase(db, a), CaseKey(a.sid, a.caseId);
    assert b.jobs[a.aid].Key() == Some(k);
    if HasCase(db, k) {
      var j :| j in db.jobs && db.jobs[j].Key() == Some(k);
      assert RowOk(db, j);
      var l :| l in db.jobs && db.jobs[l].Key() == Some(k) && Live(db.jobs[l]);
      assert b.jobs[l] == db.jobs[l] && LiveOf(b.jobs[l], k) && LiveOf(b.jobs[a.aid], k);
    }
  }

  lemma BudgetCase(s: Sys, a: Act)
    requires Struct(s.db) && Budgeted(s.db) && a.AddCase? && Enabled(s, a)
    ensures Budgeted(AfterCase(s.db, a))
  {
    var db, b := s.db, AfterCase(s.db, a);
    CaseLog(db, a);
    CaseRows(db, a);
    hide CaseOk, AfterCase, Enabled, Struct;
    forall j <- b.jobs | Sole(b, j) ensures CaseOk(b.log, b.jobs[j], b.jobs[j].Key().value) {
      if j == a.aid {
        FirstOk(db, a);
      } else {
        OtherOk(db, a, j);
      }
    }
  }

  lemma CaseRows(db: Db, a: Act)
    requires a.AddCase? && a.aid !in db.jobs && a.cid !in db.jobs && a.aid != a.cid && forall j <- db.jobs :: Counted(db.jobs[j])
    ensures forall j <- AfterCase(db, a).jobs ::
      Counted(AfterCase(db, a).jobs[j]) && (j in db.jobs || j == a.aid || AfterCase(db, a).jobs[j].Key().None?)
  {}

  lemma CaseLog(db: Db, a: Act)
    requires a.AddCase? && a.aid !in db.jobs && a.cid !in db.jobs
    requires forall e <- db.log :: e.detail.Moved? && e.detail.key.Some? ==> HasCase(db, e.detail.key.value)
    ensures forall e <- AfterCase(db, a).log :: e.detail.Moved? ==> e in db.log
    ensures forall e <- AfterCase(db, a).log :: e.detail.Moved? && e.detail.key.Some? ==>
      HasCase(AfterCase(db, a), e.detail.key.value)
  {
    var b := AfterCase(db, a);
    forall e <- b.log | e.detail.Moved? && e.detail.key.Some? ensures e in db.log && HasCase(b, e.detail.key.value) {
      var j :| j in db.jobs && db.jobs[j].Key() == e.detail.key;
      assert b.jobs[j].Key() == e.detail.key;
    }
  }

  lemma FirstOk(db: Db, a: Act)
    requires Struct(db) && Budgeted(db) && a.AddCase? && a.aid !in db.jobs && a.cid !in db.jobs && a.aid != a.cid
    requires Sole(AfterCase(db, a), a.aid)
    ensures CaseOk(AfterCase(db, a).log, AfterCase(db, a).jobs[a.aid], AfterCase(db, a).jobs[a.aid].Key().value)
  {
    hide CaseOk, Struct, Single, HasCase;
    SoleIsFirst(db, a);
    CaseLog(db, a);
    var row := AfterCase(db, a).jobs[a.aid];
    assert row.Key() == Some(CaseKey(a.sid, a.caseId)) && row.attempt == 1;
    NewCaseOk(AfterCase(db, a).log, row, CaseKey(a.sid, a.caseId));
  }

  lemma OtherOk(db: Db, a: Act, j: JobId)
    requires Budgeted(db) && a.AddCase? && a.aid !in db.jobs && a.cid !in db.jobs && a.aid != a.cid
    requires j in db.jobs && Sole(AfterCase(db, a), j)
    ensures CaseOk(AfterCase(db, a).log, AfterCase(db, a).jobs[j], AfterCase(db, a).jobs[j].Key().value)
  {
    var b := AfterCase(db, a);
    var more := b.log[|db.log|..];
    assert b.log == db.log + more && b.jobs[j] == db.jobs[j];
    CaseSingle(db, a, db.jobs[j].Key().value);
    hide CaseOk, Single, HasCase;
    assert Sole(db, j);
    QuietEvents(db.log, more, db.jobs[j], b.jobs[j], b.jobs[j].Key().value);
  }

  /******* A retry *******/

  // The retry takes over the budget of the row it supersedes.
  lemma CaseRetry(log: seq<Event>, row: Job, q: Request, next: Job, k: CaseKey)
    requires CaseOk(log, row, k) && row.Key() == Some(k) && row.state == Triage && q.to == RetrySpawned
    requires next.attempt == row.attempt + 1
    ensures CaseOk(log + [MoveEvent(row, q)], next, k)
  {
    var e := MoveEvent(row, q);
    TallyPush(log, e, k, Starts);
    TallyPush(log, e, k, Expirations);
    TallyPush(log, e, k, Retries);
    TallyPush(log, e, k, HumanReruns);
    KeysPush(log, e, k);
  }

  lemma UncountedEvents(a: Db, b: Db, p: JobId, pre: seq<Event>, q: Request, last: seq<Event>, k: CaseKey)
    requires TriageEvents(a, b, p, pre, q, last)
    ensures forall i :: 0 <= i < |pre| ==> Uncounted(pre[i], k)
    ensures forall i :: 0 <= i < |last| ==> Uncounted(last[i], k)
  {
    forall i | 0 <= i < |pre| ensures Uncounted(pre[i], k) {
      forall what ensures !Is(pre[i], k, what) {}
    }
    forall i | 0 <= i < |last| ensures Uncounted(last[i], k) {
      forall what ensures !Is(last[i], k, what) {}
    }
  }

  lemma BudgetTriageRow(a: Db, b: Db, p: JobId, rid: JobId, j: JobId, k: CaseKey, pre: seq<Event>, q: Request, last: seq<Event>)
    requires TriageOutcome(a, b, p, rid) && TriageEvents(a, b, p, pre, q, last) && Single(a, k)
    requires forall c <- a.jobs :: LiveOf(a.jobs[c], k) ==> CaseOk(a.log, a.jobs[c], k)
    requires j in b.jobs && LiveOf(b.jobs[j], k)
    ensures CaseOk(b.log, b.jobs[j], k)
  {
    UncountedEvents(a, b, p, pre, q, last, k);
    if j == p {
      assert LiveOf(a.jobs[p], k);
      BudgetResolved(a.log, a.jobs[p], b.jobs[j], pre, q, last, k);
    } else if j !in a.jobs {
      assert LiveOf(a.jobs[p], k);
      BudgetRetried(a.log, a.jobs[p], b.jobs[j], pre, q, last, k);
    } else {
      var e := MoveEvent(a.jobs[p], q);
      assert LiveOf(a.jobs[j], k) && !LiveOf(a.jobs[p], k);
      assert a.jobs[p].Key() != Some(k);
      QuietEvents(a.log, pre, b.jobs[j], b.jobs[j], k);
      QuietEvent(a.log + pre, e, b.jobs[j], b.jobs[j], k);
      QuietEvents(a.log + pre + [e], last, b.jobs[j], b.jobs[j], k);
    }
  }

  lemma BudgetResolved(log: seq<Event>, row: Job, next: Job, pre: seq<Event>, q: Request, last: seq<Event>, k: CaseKey)
    requires CaseOk(log, row, k) && row.Key() == Some(k) && row.state == Triage && JobVerb(Triage, q.to).Some?
    requires q.to != RetrySpawned
    requires next.attempt == row.attempt && next.state == q.to
    requires (forall i :: 0 <= i < |pre| ==> Uncounted(pre[i], k)) && (forall i :: 0 <= i < |last| ==> Uncounted(last[i], k))
    ensures CaseOk(log + pre + [MoveEvent(row, q)] + last, next, k)
  {
    QuietEvents(log, pre, row, row, k);
    CaseMove(log + pre, row, q, k);
    QuietEvents(log + pre + [MoveEvent(row, q)], last, MovedRow(row, q), next, k);
  }

  lemma BudgetRetried(log: seq<Event>, row: Job, next: Job, pre: seq<Event>, q: Request, last: seq<Event>, k: CaseKey)
    requires CaseOk(log, row, k) && row.Key() == Some(k) && row.state == Triage && q.to == RetrySpawned
    requires next.attempt == row.attempt + 1
    requires (forall i :: 0 <= i < |pre| ==> Uncounted(pre[i], k)) && (forall i :: 0 <= i < |last| ==> Uncounted(last[i], k))
    ensures CaseOk(log + pre + [MoveEvent(row, q)] + last, next, k)
  {
    QuietEvents(log, pre, row, row, k);
    CaseRetry(log + pre, row, q, next, k);
    QuietEvents(log + pre + [MoveEvent(row, q)], last, next, next, k);
  }

  lemma BudgetTriageCases(a: Db, b: Db, p: JobId, rid: JobId, pre: seq<Event>, q: Request, last: seq<Event>)
    requires TriageOutcome(a, b, p, rid) && TriageEvents(a, b, p, pre, q, last)
    requires forall e <- a.log :: e.detail.Moved? && e.detail.key.Some? ==> HasCase(a, e.detail.key.value)
    ensures forall e <- b.log :: e.detail.Moved? && e.detail.key.Some? ==> HasCase(b, e.detail.key.value)
  {
    forall e <- b.log | e.detail.Moved? && e.detail.key.Some? ensures HasCase(b, e.detail.key.value) {
      var j;
      if e in a.log {
        j :| j in a.jobs && a.jobs[j].Key() == e.detail.key;
      } else {
        j := p;
        assert e in pre || e == MoveEvent(a.jobs[p], q) || e in last;
      }
      assert b.jobs[j].Key() == e.detail.key;
    }
  }

  lemma BudgetTriage(s: Sys, a: Act)
    requires Inv(s) && Budgeted(s.db) && a.RunTriage? && Enabled(s, a)
    ensures Budgeted(Step(s, a).db)
  {
    hide *;
    InvParts(s);
    var p, pre, q, last := TriageStep(s, a);
    BudgetTriageDb(s.db, Step(s, a).db, p, a.rid, pre, q, last);
  }

  lemma OutcomeSingle(a: Db, b: Db, p: JobId, rid: JobId, k: CaseKey)
    requires TriageOutcome(a, b, p, rid)
    ensures Single(a, k) <==> Single(b, k)
  {
    if Retires(a, b, p) { RetiresSingle(a, b, p, k); } else { ReplacesSingle(a, b, p, rid, k); }
  }

  lemma BudgetTriageDb(db: Db, b: Db, p: JobId, rid: JobId, pre: seq<Event>, q: Request, last: seq<Event>)
    requires Budgeted(db) && TriageOutcome(db, b, p, rid) && TriageEvents(db, b, p, pre, q, last)
    ensures Budgeted(b)
  {
    forall j <- b.jobs | Sole(b, j) ensures CaseOk(b.log, b.jobs[j], b.jobs[j].Key().value) {
      var k := b.jobs[j].Key().value;
      OutcomeSingle(db, b, p, rid, k);
      forall c <- db.jobs | LiveOf(db.jobs[c], k) ensures CaseOk(db.log, db.jobs[c], k) { assert Sole(db, c); }
      BudgetTriageRow(db, b, p, rid, j, k, pre, q, last);
    }
    BudgetTriageCases(db, b, p, rid, pre, q, last);
    forall j <- b.jobs ensures Counted(b.jobs[j]) {
      assert Counted(db.jobs[if j in db.jobs then j else p]);
    }
  }

  // A retry beside another row spoils its own case and leaves the others' budgets alone.
  lemma BudgetHalf(db: Db, b: Db, p: JobId, rid: JobId, pre: seq<Event>)
    requires Struct(db) && Budgeted(db) && Adds(db, b, p, rid) && b.log == db.log + pre
    requires forall i :: 0 <= i < |pre| ==> BirthEvent(pre[i], db.jobs[p].Key())
    ensures Budgeted(b)
  {
    forall j <- b.jobs | Sole(b, j) ensures CaseOk(b.log, b.jobs[j], b.jobs[j].Key().value) {
      var k := b.jobs[j].Key().value;
      AddsSingle(db, b, p, rid, k);
      forall i | 0 <= i < |pre| ensures Uncounted(pre[i], k) { forall what ensures !Is(pre[i], k, what) {} }
      assert j in db.jobs && Sole(db, j);
      QuietEvents(db.log, pre, db.jobs[j], b.jobs[j], k);
    }
    forall j <- b.jobs ensures Counted(b.jobs[j]) { assert Counted(db.jobs[if j in db.jobs then j else p]); }
    forall e <- b.log | e.detail.Moved? && e.detail.key.Some? ensures HasCase(b, e.detail.key.value) {
      var j;
      if e in db.log {
        j :| j in db.jobs && db.jobs[j].Key() == e.detail.key;
      } else {
        j := p;
        assert e in pre;
      }
      assert b.jobs[j].Key() == e.detail.key;
    }
  }

  /******* Every run *******/

  lemma BudgetMake(db: Db, n: NewJob)
    requires Budgeted(db) && n.id !in db.jobs && n.jtype == TRIAGE && n.attempt == 1
    ensures Budgeted(Proposes(db, n))
  {
    assert Proposes(db, n).jobs[n.id] == NewRow(n);
    assert Beside(db, Proposes(db, n));
    BesideKeeps(db, Proposes(db, n));
  }

  lemma BudgetAside(s: Sys, a: Act)
    requires Budgeted(s.db) && Enabled(s, a) && Aside(a)
    ensures Budgeted(Step(s, a).db)
  {
    hide Step, Enabled;
    AsideEffect(s, a);
    assert Beside(s.db, Step(s, a).db);
    BesideKeeps(s.db, Step(s, a).db);
  }

  // Only run_triage supersedes a job.
  lemma OnlyTriageRetires(s: Sys, a: Act)
    requires Enabled(s, a) && SingleMove(s.db, a).Some?
    ensures SingleMove(s.db, a).value.to == RetrySpawned ==> MoveRefusal(s.db, SingleMove(s.db, a).value).Some?
  {}

  lemma RefusedMove(db: Db, q: Request)
    requires MoveRefusal(db, q).Some?
    ensures Move(db, q) == db
  {}

  lemma BudgetSingle(s: Sys, a: Act)
    requires Inv(s) && Budgeted(s.db) && Enabled(s, a) && !Aside(a) && !Composite(a)
    ensures Budgeted(Step(s, a).db)
  {
    hide *;
    MoveEffect(s, a);
    if SingleMove(s.db, a).Some? {
      OnlyTriageRetires(s, a);
      SingleMovesAreGentle(s, a);
      if SingleMove(s.db, a).value.to != RetrySpawned {
        BudgetMove(s.db, SingleMove(s.db, a).value);
      } else {
        RefusedMove(s.db, SingleMove(s.db, a).value);
      }
    }
  }

  lemma BudgetComposite(s: Sys, a: Act)
    requires Inv(s) && Budgeted(s.db) && Enabled(s, a) && Composite(a) && !a.RunTriage?
    ensures Budgeted(Step(s, a).db)
  {
    hide Step;
    if a.AddCase? { CaseEffect(s, a); BudgetCase(s, a); }
    else if a.HalfTriage? { BudgetHalfStep(s, a); }
    else { BudgetOther(s, a); }
  }

  lemma BudgetHalfStep(s: Sys, a: Act)
    requires Inv(s) && Budgeted(s.db) && Enabled(s, a) && a.HalfTriage?
    ensures Budgeted(Step(s, a).db)
  {
    hide Step, Enabled, Struct, ReadyOk, TriageOk, Budgeted, Adds;
    InvParts(s);
    var p, pre := HalfStep(s, a);
    if Step(s, a).db != s.db { BudgetHalf(s.db, Step(s, a).db, p, a.rid, pre); }
  }

  lemma BudgetOther(s: Sys, a: Act)
    requires Inv(s) && Budgeted(s.db) && Enabled(s, a) && (a.AddReport? || a.MakeTriage?)
    ensures Budgeted(Step(s, a).db)
  {
    hide Step, Enabled, Struct, ReadyOk, TriageOk, Budgeted, Linked;
    InvParts(s);
    CompositeEffect(s, a);
    if a.MakeTriage? {
      MakeGuard(s, a);
      BudgetMake(s.db, TriageJob(s.db.jobs[a.j], a.j, a.tid, a.ts));
    } else {
      ReportBeside(s.db, a);
      BesideKeeps(s.db, AfterReport(s.db, a));
    }
  }

  lemma ReportBeside(db: Db, a: Act)
    requires a.AddReport? && a.sid in db.studies && a.rid !in db.jobs
    ensures Beside(db, AfterReport(db, a))
  {}

  lemma BudgetStep(s: Sys, a: Act)
    requires Inv(s) && Budgeted(s.db)
    ensures Budgeted(Step(s, a).db)
  {
    hide Ops, Exec, NextSeen, Enabled, Inv, Budgeted;
    if Enabled(s, a) {
      if Aside(a) {
        BudgetAside(s, a);
      } else if a.RunTriage? {
        BudgetTriage(s, a);
      } else if Composite(a) {
        BudgetComposite(s, a);
      } else {
        BudgetSingle(s, a);
      }
    }
  }

  lemma {:induction false} BudgetRun(acts: seq<Act>)
    ensures Budgeted(Run(INIT, acts).db)
  {
    hide Step;
    if acts != [] {
      BudgetRun(acts[..|acts| - 1]);
      InvReachable(acts[..|acts| - 1]);
      BudgetStep(Run(INIT, acts[..|acts| - 1]), acts[|acts| - 1]);
    }
  }
}
