/**
 The policy bound on automatic retries, and the budget theorems as a reader of a decomposed study would state them.
 */
module RetryPolicy {
  import opened Wrappers
  import opened Rows
  import opened Substrate
  import opened Protocol
  import opened Structure
  import opened History
  import opened Readiness
  import opened Steps
  import opened Budget
  import opened Lineage
  import opened Attempts

  // decompose gives every row of a case 1 + auto_retry_max attempts.
  ghost predicate PolicyRow(db: Db, row: Job) {
    row.jtype == ANALYSIS ==> row.maxAttempts == MaxAttempts(PolicyOf(db, row.study))
  }

  ghost predicate PolicyOk(db: Db) { forall j <- db.jobs :: PolicyRow(db, db.jobs[j]) }

  lemma PolicyStep(s: Sys, a: Act)
    requires Inv(s) && PolicyOk(s.db)
    ensures PolicyOk(Step(s, a).db)
  {
    hide Ops, Exec, Summary, NextSeen;
    if Enabled(s, a) {
      StepSummary(s, a);
      hide Step, Enabled;
      PolicyRows(s.db, a, Step(s, a).db);
    }
  }

  lemma PolicyRows(db: Db, a: Act, b: Db)
    requires RowsOk(db) && PolicyOk(db) && Summary(db, a, b)
    ensures PolicyOk(b)
  {
    forall j <- b.jobs ensures PolicyRow(b, b.jobs[j]) {
      if j in db.jobs {
        assert RowStep(db.jobs[j], b.jobs[j]) && RowOk(db, j) && PolicyRow(db, db.jobs[j]);
      } else {
        assert Origin(db, a, b, j);
        if a.RunTriage? || a.HalfTriage? {
          var p := db.jobs[a.j].payload.failedJob;
          assert RowOk(db, p) && PolicyRow(db, db.jobs[p]);
        }
      }
    }
  }

  lemma {:induction false} PolicyRun(acts: seq<Act>)
    ensures PolicyOk(Run(INIT, acts).db)
  {
    hide Step, Inv;
    if acts != [] {
      PolicyRun(acts[..|acts| - 1]);
      InvReachable(acts[..|acts| - 1]);
      PolicyStep(Run(INIT, acts[..|acts| - 1]), acts[|acts| - 1]);
    }
  }

  // In a study that names auto_retry_max no retry of the case waits for a human's approval.
  ghost predicate Unattended(db: Db, k: CaseKey) {
    PolicyOf(db, k.study).autoRetryMax.Some? ==>
      forall j <- db.jobs :: db.jobs[j].Key() == Some(k) && db.jobs[j].parent.Some? ==> db.jobs[j].state != Proposed
  }

  lemma UnattendedStep(s: Sys, a: Act, k: CaseKey)
    requires Inv(s) && PolicyOk(s.db) && Unattended(s.db, k) && !Doubles(s, a, k)
    ensures Unattended(Step(s, a).db, k)
  {
    hide Ops, Exec, Summary, NextSeen;
    if Enabled(s, a) {
      StepSummary(s, a);
      HalfMakesNone(s, a, k);
      hide Step, Enabled, Doubles;
      UnattendedRows(s.db, a, Step(s, a).db, k);
    }
  }

  // What breaks off makes no row of the case.
  lemma HalfMakesNone(s: Sys, a: Act, k: CaseKey)
    requires Inv(s) && Enabled(s, a) && !Doubles(s, a, k)
    ensures a.HalfTriage? ==> forall j <- Step(s, a).db.jobs :: j in s.db.jobs || Step(s, a).db.jobs[j].Key() != Some(k)
  {
    hide Step, Enabled, Struct, ReadyOk, TriageOk, MakesRetry;
    if a.HalfTriage? {
      InvParts(s);
      var p, _ := HalfStep(s, a);
    }
  }

  lemma UnattendedRows(db: Db, a: Act, b: Db, k: CaseKey)
    requires RowsOk(db) && PolicyOk(db) && Unattended(db, k) && Summary(db, a, b)
    requires a.HalfTriage? ==> forall j <- b.jobs :: j in db.jobs || b.jobs[j].Key() != Some(k)
    ensures Unattended(b, k)
  {
    forall j <- b.jobs | b.jobs[j].Key() == Some(k) && b.jobs[j].parent.Some? && PolicyOf(b, k.study).autoRetryMax.Some?
      ensures b.jobs[j].state != Proposed
    {
      if j in db.jobs {
        assert RowStep(db.jobs[j], b.jobs[j]) && RowOk(db, j);
      } else {
        assert Origin(db, a, b, j);
        if a.RunTriage? {
          var p := db.jobs[a.j].payload.failedJob;
          assert RowOk(db, p) && PolicyRow(db, db.jobs[p]);
        }
      }
    }
  }

  lemma {:induction false} UnattendedRun(acts: seq<Act>, k: CaseKey)
    requires NeverDoubled(acts, k)
    ensures Unattended(Run(INIT, acts).db, k)
  {
    hide Step, Doubles, Inv;
    if acts != [] {
      var init := acts[..|acts| - 1];
      assert forall i :: 0 <= i < |init| ==> init[..i] == acts[..i];
      UnattendedRun(init, k);
      InvReachable(init);
      PolicyRun(init);
      UnattendedStep(Run(INIT, init), acts[|acts| - 1], k);
    }
  }

  /******* The theorems *******/

  // Conservation: one counter pays for retries and lease expiries. It passes max_attempts only if it is overdrawn.
  lemma ExecutionBudget(acts: seq<Act>, a: JobId, k: CaseKey)
    requires var db := Run(INIT, acts).db; a in db.jobs && LiveOf(db.jobs[a], k) && NeverDoubled(acts, k)
    ensures var db := Run(INIT, acts).db; var row := db.jobs[a];
      && row.attempt == 1 + Tally(db.log, k, Retries) + Tally(db.log, k, Expirations)
      && (Limited(row) <==> NeverOverdrawn(acts, a))
      && Tally(db.log, k, Starts) <= row.attempt + Tally(db.log, k, HumanReruns)
  {
    BudgetRun(acts);
    WithinAttemptsIff(acts, a);
    OneLiveIff(acts, k);
    assert Sole(Run(INIT, acts).db, a);
    hide Run;
  }

  // In a study naming auto_retry_max = n >= 0 a case that is not doubled has no retry that waits for a human's approval, and
  // if its live row is not overdrawn it starts at most n + 1 times plus human re-runs.
  lemma AutoRetryBound(acts: seq<Act>, a: JobId, k: CaseKey, n: int)
    requires var db := Run(INIT, acts).db;
      && a in db.jobs && LiveOf(db.jobs[a], k) && PolicyOf(db, k.study).autoRetryMax == Some(n) && n >= 0 && NeverDoubled(acts, k)
    ensures var db := Run(INIT, acts).db;
      && (forall j <- db.jobs :: db.jobs[j].Key() == Some(k) && db.jobs[j].parent.Some? ==> db.jobs[j].state != Proposed)
      && (NeverOverdrawn(acts, a) ==> Tally(db.log, k, Starts) <= n + 1 + Tally(db.log, k, HumanReruns))
  {
    hide NeverDoubled, NeverOverdrawn, Run;
    var db := Run(INIT, acts).db;
    PolicyRun(acts);
    InvReachable(acts);
    UnattendedRun(acts, k);
    ExecutionBudget(acts, a, k);
    assert RowOk(db, a) && PolicyRow(db, db.jobs[a]);
  }

  // Every retry decompose budgets for is approved automatically exactly when the study names auto_retry_max: without
  // it decompose reads the missing key as 2 and triage as 0, and the two retries it then allows wait for a human.
  lemma RetriesAreAutomatic(policy: Policy)
    ensures policy.autoRetryMax.Some? <==> forall attempt :: 1 <= attempt < MaxAttempts(policy) ==> AutoRetry(policy, attempt)
    ensures policy.autoRetryMax.None? ==> MaxAttempts(policy) == 3 && !AutoRetry(policy, 1) && !AutoRetry(policy, 2)
  {
    if policy.autoRetryMax.None? {
      assert 1 < MaxAttempts(policy) && !AutoRetry(policy, 1);
    }
  }

  // No two starts of a case carry the same attempt unless a human re-queued the case in between.
  lemma IdempotencyKeys(acts: seq<Act>, k: CaseKey)
    requires NeverDoubled(acts, k)
    ensures KeysNotReused(Run(INIT, acts).db.log, k)
  {
    hide NeverDoubled;
    var db := Run(INIT, acts).db;
    BudgetRun(acts);
    InvReachable(acts);
    OneLiveIff(acts, k);
    hide Run;
    if HasCase(db, k) {
      var j :| j in db.jobs && db.jobs[j].Key() == Some(k);
      assert RowOk(db, j);
      var l :| l in db.jobs && db.jobs[l].Key() == Some(k) && Live(db.jobs[l]);
      assert Sole(db, l);
    } else {
      assert forall i :: 0 <= i < |db.log| ==> db.log[i] in db.log;
    }
  }
}
