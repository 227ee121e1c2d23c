/**
 The attempt counter of a job. Reapers alone raise it, and each decides on what it has read whether the job has attempts
 left: two that have read the same expiry can both requeue the job, and take it past max_attempts.
 */
module Attempts {
  import opened Wrappers
  import opened Rows
  import opened Substrate
  import opened EventLog
  import opened Protocol
  import opened Effects
  import opened Structure
  import opened History
  import opened Readiness
  import opened Steps
  import opened Budget
  import opened Lineage

  // A reaper requeues j, on what it has read.
  predicate Requeues(s: Sys, a: Act, j: JobId) {
    && a.Reap? && Enabled(s, a) && a.j == j && !a.exhausted
    && j in s.db.jobs && s.db.jobs[j].state == if a.started then Running else Assigned
  }

  // It does although j is out of attempts by now: another reaper has requeued j in between.
  predicate Overdraws(s: Sys, a: Act, j: JobId) { Requeues(s, a, j) && Exhausted(s.db.jobs[j]) }

  ghost predicate NeverOverdrawn(acts: seq<Act>, j: JobId) {
    forall i :: 0 <= i < |acts| ==> !Overdraws(Run(INIT, acts[..i]), acts[i], j)
  }

  predicate Limited(row: Job) { row.attempt <= row.maxAttempts || row.attempt == 1 }

  predicate Recounted(r: Job, q: Job, requeued: bool) {
    q.maxAttempts == r.maxAttempts && q.attempt == r.attempt + if requeued then 1 else 0
  }

  lemma AttemptStep(s: Sys, a: Act, j: JobId)
    requires Inv(s) && j in s.db.jobs
    ensures j in Step(s, a).db.jobs && Recounted(s.db.jobs[j], Step(s, a).db.jobs[j], Requeues(s, a, j))
  {
    hide Step, Enabled, Move, Struct, ReadyOk, TriageOk, Leaves, TriageOutcome, TriageEvents, HalfOutcome, Requeues, LeavesRows;
    NotARequeue(s, a, j);
    Disabled(s, a);
    if Enabled(s, a) {
      InvParts(s);
      if Aside(a) {
        AsideEffect(s, a);
        AsideAttempt(s.db, a, Step(s, a).db, j);
      } else if !Composite(a) {
        MoveEffect(s, a);
        MoveAttempt(s, a, j);
      } else if a.RunTriage? {
        var p, _, _, _ := TriageStep(s, a);
        OutcomeAttempt(s.db, Step(s, a).db, p, a.rid, j);
      } else if a.HalfTriage? {
        var p, _ := HalfStep(s, a);
        HalfAttempt(s.db, Step(s, a).db, p, a.rid, j);
      } else {
        CompositeEffect(s, a);
        LeavesAttempt(s.db, a, Step(s, a).db, j);
      }
    }
  }

  lemma NotARequeue(s: Sys, a: Act, j: JobId)
    ensures !a.Reap? || !Enabled(s, a) ==> !Requeues(s, a, j)
  {}

  lemma AsideAttempt(db: Db, a: Act, b: Db, j: JobId)
    requires LeavesRows(db, a, b) && j in db.jobs
    ensures j in b.jobs && Recounted(db.jobs[j], b.jobs[j], false)
  {}

  lemma LeavesAttempt(db: Db, a: Act, b: Db, j: JobId)
    requires Leaves(db, a, b) && j in db.jobs
    ensures j in b.jobs && Recounted(db.jobs[j], b.jobs[j], false)
  {}

  lemma OutcomeAttempt(db: Db, b: Db, p: JobId, rid: JobId, j: JobId)
    requires TriageOutcome(db, b, p, rid) && j in db.jobs
    ensures j in b.jobs && Recounted(db.jobs[j], b.jobs[j], false)
  {
    assert j == p || b.jobs[j] == db.jobs[j];
  }

  lemma HalfAttempt(db: Db, b: Db, p: JobId, rid: JobId, j: JobId)
    requires HalfOutcome(db, b, p, rid) && j in db.jobs
    ensures j in b.jobs && Recounted(db.jobs[j], b.jobs[j], false)
  {}

  lemma MoveAttempt(s: Sys, a: Act, j: JobId)
    requires Enabled(s, a) && !Aside(a) && !Composite(a) && j in s.db.jobs
    ensures var b := if SingleMove(s.db, a).Some? then Move(s.db, SingleMove(s.db, a).value) else s.db;
      j in b.jobs && Recounted(s.db.jobs[j], b.jobs[j], Requeues(s, a, j))
  {
    if SingleMove(s.db, a).Some? {
      var q := SingleMove(s.db, a).value;
      OnlyReapersRequeue(s, a, j);
      hide Enabled, SingleMove, Requeues;
      MovedAttempt(s.db, q, j);
    }
  }

  lemma OnlyReapersRequeue(s: Sys, a: Act, j: JobId)
    requires Enabled(s, a) && SingleMove(s.db, a).Some? && j in s.db.jobs
    ensures var q := SingleMove(s.db, a).value;
      Requeues(s, a, j) <==> MoveRefusal(s.db, q).None? && q.job == j && LeaseExpiry(s.db.jobs[j].state, q.to)
  {
    if a.Reap? {
      ReapRequeues(s, a, j);
    } else {
      NoExpiry(s.db, a, j);
    }
    hide Enabled, SingleMove, MoveRefusal;
  }

  lemma ReapRequeues(s: Sys, a: Act, j: JobId)
    requires a.Reap? && Enabled(s, a) && j in s.db.jobs
    ensures SingleMove(s.db, a).Some?
    ensures var q := SingleMove(s.db, a).value;
      Requeues(s, a, j) <==> MoveRefusal(s.db, q).None? && q.job == j && LeaseExpiry(s.db.jobs[j].state, q.to)
  {}

  lemma NoExpiry(db: Db, a: Act, j: JobId)
    requires !a.Reap? && SingleMove(db, a).Some? && j in db.jobs
    ensures var q := SingleMove(db, a).value;
      !(MoveRefusal(db, q).None? && q.job == j && LeaseExpiry(db.jobs[j].state, q.to))
  {}

  lemma MovedAttempt(db: Db, q: Request, j: JobId)
    requires j in db.jobs
    ensures Recounted(db.jobs[j], Move(db, q).jobs[j], MoveRefusal(db, q).None? && q.job == j &&
      LeaseExpiry(db.jobs[j].state, q.to))
  {}

  // A new row starts within its limit: a retry is only made with attempts left.
  lemma BornLimited(s: Sys, a: Act, j: JobId)
    requires Inv(s) && j !in s.db.jobs && j in Step(s, a).db.jobs
    ensures Limited(Step(s, a).db.jobs[j])
  {
    hide Ops, Exec, NextSeen, RowsStep;
    Disabled(s, a);
    StepSummary(s, a);
    hide Step, Enabled, Inv;
    OriginLimited(s.db, a, Step(s, a).db, j);
  }

  lemma OriginLimited(db: Db, a: Act, b: Db, j: JobId)
    requires j in b.jobs && Origin(db, a, b, j)
    ensures Limited(b.jobs[j])
  {}

  lemma LimitStep(r: Job, q: Job, requeued: bool)
    requires Recounted(r, q, requeued) && r.attempt >= 1
    ensures Limited(q) <==> Limited(r) && !(requeued && Exhausted(r))
  {}

  // A job stays within max_attempts exactly as long as no reaper requeues it when it is out of attempts.
  lemma {:induction false} WithinAttemptsIff(acts: seq<Act>, j: JobId)
    requires j in Run(INIT, acts).db.jobs
    ensures 1 <= Run(INIT, acts).db.jobs[j].attempt
    ensures Limited(Run(INIT, acts).db.jobs[j]) <==> NeverOverdrawn(acts, j)
  {
    hide Step, Enabled, Inv, Limited, Overdraws, NeverOverdrawn, Recounted, Requeues, Budgeted;
    AttemptsFromOne(acts, j);
    if acts != [] {
      var init, a := acts[..|acts| - 1], acts[|acts| - 1];
      var s := Run(INIT, init);
      InvReachable(init);
      LastDraw(init, a, j);
      assert init + [a] == acts;
      OverdrawsIs(s, a, j);
      if j in s.db.jobs {
        WithinAttemptsIff(init, j);
        AttemptStep(s, a, j);
        LimitStep(s.db.jobs[j], Step(s, a).db.jobs[j], Requeues(s, a, j));
      } else {
        BornLimited(s, a, j);
        NotThereYet(init, j);
      }
    }
  }

  lemma AttemptsFromOne(acts: seq<Act>, j: JobId)
    requires j in Run(INIT, acts).db.jobs
    ensures 1 <= Run(INIT, acts).db.jobs[j].attempt
  {
    BudgetRun(acts);
    hide Run;
    assert Counted(Run(INIT, acts).db.jobs[j]);
  }

  lemma OverdrawsIs(s: Sys, a: Act, j: JobId)
    ensures Overdraws(s, a, j) <==> j in s.db.jobs && Requeues(s, a, j) && Exhausted(s.db.jobs[j])
  {}

  lemma LastDraw(init: seq<Act>, a: Act, j: JobId)
    ensures NeverOverdrawn(init + [a], j) <==> NeverOverdrawn(init, j) && !Overdraws(Run(INIT, init), a, j)
  {
    var acts := init + [a];
    hide Run, Overdraws;
    assert acts[..|init|] == init && forall i :: 0 <= i < |init| ==> acts[..i] == init[..i] && acts[i] == init[i];
  }

  lemma NotThereYet(acts: seq<Act>, j: JobId)
    requires j !in Run(INIT, acts).db.jobs
    ensures NeverOverdrawn(acts, j)
  {
    hide Requeues, Step, Enabled;
    forall i | 0 <= i < |acts| ensures !Overdraws(Run(INIT, acts[..i]), acts[i], j) {
      var s := Run(INIT, acts[..i]);
      assert acts == acts[..i] + acts[i..];
      RunConcat(INIT, acts[..i], acts[i..]);
      InvReachable(acts[..i]);
      hide Run;
      if j in s.db.jobs { RunKeepsRows(s, acts[i..], j); }
      OverdrawsIs(s, acts[i], j);
    }
  }

  /******* A condition on the reapers *******/

  // At most one reaper is about to act on j.
  predicate OneFinding(s: Sys, j: JobId) {
    forall f <- s.pending.reap, g <- s.pending.reap :: f.j == j && g.j == j ==> f == g && s.pending.reap[f] == 1
  }

  // What a reaper has read of the attempts of j is still so.
  predicate Accurate(s: Sys, j: JobId) {
    forall f <- s.pending.reap :: f.j == j ==> j in s.db.jobs && f.exhausted == Exhausted(s.db.jobs[j])
  }

  lemma AccurateStep(s: Sys, a: Act, j: JobId)
    requires Inv(s) && OneFinding(s, j) && Accurate(s, j)
    ensures Accurate(Step(s, a), j) && !Overdraws(s, a, j)
  {
    hide Step, Enabled, Inv, Overdraws, Requeues, NextPending;
    Disabled(s, a);
    OverdrawsIs(s, a, j);
    AccurateDraw(s, a, j);
    if Enabled(s, a) {
      NextIs(s, a);
      if j in s.db.jobs { AttemptStep(s, a, j); }
      FindGuard(s, a);
      AccurateNext(s, a, Step(s, a).db, j, Requeues(s, a, j));
    }
  }

  lemma FindGuard(s: Sys, a: Act)
    requires Enabled(s, a)
    ensures a.FindExpired? ==> a.j in s.db.jobs
    ensures forall j :: Requeues(s, a, j) ==> a.Reap? && a.j == j && Find(j, a.started, a.exhausted) in s.pending.reap
  {}

  lemma AccurateDraw(s: Sys, a: Act, j: JobId)
    requires Accurate(s, j)
    ensures j in s.db.jobs && Requeues(s, a, j) ==> !Exhausted(s.db.jobs[j])
  {}

  // The one finding of j is used up by the reap that changes its attempt.
  lemma AccurateNext(s: Sys, a: Act, b: Db, j: JobId, requeued: bool)
    requires OneFinding(s, j) && Accurate(s, j) && (a.FindExpired? ==> a.j in s.db.jobs)
    requires j in s.db.jobs ==> j in b.jobs && Recounted(s.db.jobs[j], b.jobs[j], requeued)
    requires requeued ==> a.Reap? && a.j == j && Find(j, a.started, a.exhausted) in s.pending.reap
    ensures forall f <- NextPending(s, a).reap :: f.j == j ==> j in b.jobs && f.exhausted == Exhausted(b.jobs[j])
  {}

  // A job whose expiries are read by one reaper at a time, as they are if each reaper reads a job and reaps it at once, is
  // never overdrawn.
  lemma {:induction false} OneReaperSuffices(acts: seq<Act>, j: JobId)
    requires forall i :: 0 <= i <= |acts| ==> OneFinding(Run(INIT, acts[..i]), j)
    ensures NeverOverdrawn(acts, j) && Accurate(Run(INIT, acts), j)
  {
    hide Overdraws, OneFinding, Step, Inv;
    if acts != [] {
      var init, a := acts[..|acts| - 1], acts[|acts| - 1];
      forall i | 0 <= i <= |init| ensures OneFinding(Run(INIT, init[..i]), j) { assert init[..i] == acts[..i]; }
      OneReaperSuffices(init, j);
      InvReachable(init);
      assert init[..|init|] == init && acts == init + [a];
      LastDraw(init, a, j);
      AccurateStep(Run(INIT, init), a, j);
    } else {
      assert Run(INIT, []) == INIT;
    }
  }
}
