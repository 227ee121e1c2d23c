/**
 Runs from the empty database that reach the states the theorems make exceptions for: two loops racing in spawn_triage, a
 TRIAGE job run twice or cut short, a job that fails again after triage, a job taken away while it runs, two reapers with
 one expiry, a study in review that gets another job.
 */
module Witness {
  import opened Wrappers
  import opened Sets
  import opened Rows
  import opened Substrate
  import opened Protocol
  import opened Effects
  import opened EventLog
  import opened Structure
  import opened History
  import opened Readiness
  import opened Budget
  import opened Lineage
  import opened Leases
  import opened Attempts
  import opened Closure
  import opened Stranded
  import opened Control
  import opened Phases
  import opened SpawnLoop
  import opened ControlLoop
  import opened WorkerLoop
  import opened Scenario

  // One loop flips the failed job, another reads it as an orphan, and each makes a child: two unfinished TRIAGE jobs.
  lemma TwoChildren(n: int, permanent: bool) returns (s: Sys)
    ensures Reached(s) && Setting(s, n, permanent) && s.pending == INIT.pending
    ensures s.db.jobs == map[1 := Failed1(n, Triage), 2 := Check2(n), 3 := Report3(), 10 := TriageChild(n, 10),
      11 := TriageChild(n, 11)] && s.db.deps == Edges()
    ensures ActiveTriage(s.db.jobs[10]) && ActiveTriage(s.db.jobs[11])
    ensures s.db.jobs[10].payload == s.db.jobs[11].payload == TriagePayload(1)
  {
    hide Reached, Quietly, Setting;
    var s0 := FlipsAndReads(n, permanent);
    var s1 := MakesChild(s0, 1, 10, 0);
    SettingStays(s0, s1, n, permanent);
    assert multiset{1, 1} - multiset{1} == multiset{1};
    s := MakesChild(s1, 1, 11, 0);
    SettingStays(s1, s, n, permanent);
    assert multiset{1} - multiset{1} == multiset{};
    assert s.db.jobs == map[1 := Failed1(n, Triage), 2 := Check2(n),
      3 := Report3()][10 := TriageChild(n, 10)][11 := TriageChild(n, 11)];
  }

  // A human approves a TRIAGE job before the loop that made it does: the loop's own approval raises.
  lemma TickIsOverruled() returns (acts: seq<Act>)
    ensures Overruled(INIT, acts) && InState(Run(INIT, acts).db, 10, Approved)
  {
    hide Enabled;
    hide Reached, Step, Quietly, Setting, Run, Inv;
    var s0 := FlipsAndReads(0, false);
    Then(s0, MakeTriage(1, 10, 0));
    MakeStep(s0, 1, 10, 0);
    var s1 := Step(s0, MakeTriage(1, 10, 0));
    NewIsProposed(s0.db, 1, 10);
    ApprovalGuard(s1, 10);
    var q := Plain(10, Approved, Human("owner"), None, 0);
    var s2 := MoveNow(s1, HumanMove(10, Approved, "owner", 0), q);
    ApprovalStep(s2, 10, 0);
    MoveFrame(s2.db, Plain(10, Approved, Agent, None, 0));
    var before := ActsOf(s2);
    RunPush(INIT, before, ApproveTriage(10, 0));
    acts := before + [ApproveTriage(10, 0)];
    assert acts[..|acts| - 1] == before;
  }

  lemma NewIsProposed(db: Db, p: JobId, tid: JobId)
    requires p in db.jobs
    ensures var b := Proposes(db, TriageJob(db.jobs[p], p, tid, 0)); tid in b.jobs && b.jobs[tid].state == Proposed
  {}

  // The retries of job 1
  function Retry1(n: int, rid: JobId): Job { Retry(Failed1(n, Triage), 1, rid, 0) }

  lemma SameRetry(n: int, rid: JobId)
    ensures Retry(Failed1(n, RetrySpawned), 1, rid, 0) == Retry1(n, rid) && Retry1(n, rid).Key() == Some(K)
    ensures Retry1(n, rid).attempt == 2
    ensures Retry1(n, rid).state == Approved && Retry1(n, rid).jtype == ANALYSIS && Retry1(n, rid).maxAttempts == n + 1
  {}

  lemma Targeted(s: Sys, n: int, t: JobId)
    requires Setting(s, n, false) && n >= 1 && t in s.db.jobs && s.db.jobs[t].jtype == TRIAGE
    requires s.db.jobs[t].payload == TriagePayload(1)
    requires 1 in s.db.jobs && s.db.jobs[1] in {Failed1(n, Triage), Failed1(n, RetrySpawned)}
    ensures WillRetry(s.db, t, 1)
  {}

  lemma Spacious(s: Sys, n: int, permanent: bool, j: JobId)
    requires Setting(s, n, permanent) && |s.db.jobs| < 100 && j in s.db.jobs && forall d <- s.db.deps :: d.job != j
    ensures Open(s.db, W, j) && Open(s.db, V, j)
  {}

  // A worker takes a TRIAGE child and starts it.
  lemma StartsChild(s: Sys, n: int, permanent: bool, tid: JobId) returns (t: Sys)
    requires Reached(s) && Setting(s, n, permanent) && |s.db.jobs| < 100 && tid in s.db.jobs
    requires s.db.jobs[tid] == TriageChild(n, tid)
    requires forall d <- s.db.deps :: d.job != tid
    ensures Reached(t) && Setting(t, n, permanent) && OneRow(s, t, tid, Launched(TriageChild(n, tid), W, 0))
    ensures t.pending == s.pending.(run := s.pending.run + multiset{tid})
  {
    hide Reached, Quietly, Setting, Launched, TriageChild, Open;
    ChildIs(n, tid);
    Spacious(s, n, permanent, tid);
    t := Launches(s, W, tid, 0);
    SettingStays(s, t, n, permanent);
  }

  lemma FirstStarts(n: int) returns (s: Sys)
    ensures Reached(s) && Setting(s, n, false) && s.pending == INIT.pending.(run := multiset{10}) && s.db.deps == Edges()
    ensures s.db.jobs == map[1 := Failed1(n, Triage), 2 := Check2(n), 3 := Report3(),
      10 := Launched(TriageChild(n, 10), W, 0), 11 := TriageChild(n, 11)]
  {
    hide Reached, Setting, Launched, Failed1, Check2, TriageChild, ActiveTriage, Report3;
    var s0 := TwoChildren(n, false);
    s := StartsChild(s0, n, false, 10);
    assert multiset{} + multiset{10} == multiset{10};
  }

  // The first of them runs.
  lemma FirstRuns(n: int) returns (s: Sys)
    requires n >= 1
    ensures Reached(s) && Setting(s, n, false) && s.pending == INIT.pending.(ran := {10})
    ensures s.db.jobs == map[1 := Failed1(n, RetrySpawned), 2 := Check2(n), 3 := Report3(),
      10 := Launched(TriageChild(n, 10), W, 0),
      11 := TriageChild(n, 11), 20 := Retry1(n, 20)]
    ensures s.db.deps == {Dep(2, 20), Dep(3, 2)}
  {
    hide Reached, Quietly, Setting, Retry, Launched, Failed1, Check2, TriageChild, WillRetry, Report3;
    var s1 := FirstStarts(n);
    ChildIs(n, 10);
    LaunchedIs(TriageChild(n, 10));
    Failed1Is(n);
    Targeted(s1, n, 10);
    s := RunsTriage(s1, W, 10, 1, 20, 0);
    SettingStays(s1, s, n, false);
    assert multiset{10} - multiset{10} == multiset{};
  }

  lemma ChildIs(n: int, tid: JobId)
    ensures TriageChild(n, tid).jtype == TRIAGE && TriageChild(n, tid).payload == TriagePayload(1)
    ensures TriageChild(n, tid).state == Approved
  {}

  lemma LaunchedIs(row: Job)
    ensures var r := Launched(row, W, 0);
      r.jtype == row.jtype && r.payload == row.payload && r.state == Running && r.Key() == row.Key() && r.attempt == row.attempt
  {}

  lemma Failed1Is(n: int)
    ensures forall st :: Failed1(n, st).state == st && Failed1(n, Triage).(state := st) == Failed1(n, st)
  {}

  // The second runs as well, although the job has been retried.
  lemma SecondRuns(n: int) returns (s: Sys)
    requires n >= 1
    ensures Reached(s) && Setting(s, n, false) && |s.db.jobs| == 7 && s.db.deps == {Dep(2, 20), Dep(3, 2)}
    ensures 20 in s.db.jobs && 21 in s.db.jobs && s.db.jobs[20] == Retry1(n, 20) && s.db.jobs[21] == Retry1(n, 21)
  {
    hide Reached, Quietly, Setting, Retry, Launched, WillRetry, Retry1;
    var s1 := SecondStarts(n);
    s := RunsHalf(s1, W, 11, 1, 21, 0);
    SettingStays(s1, s, n, false);
    SameRetry(n, 21);
  }

  lemma SecondStarts(n: int) returns (s: Sys)
    requires n >= 1
    ensures Reached(s) && Setting(s, n, false) && 11 in s.pending.run && |s.db.jobs| == 6 && 21 !in s.db.jobs
    ensures s.db.deps == {Dep(2, 20), Dep(3, 2)}
    ensures 20 in s.db.jobs && s.db.jobs[20] == Retry1(n, 20) && WillRetry(s.db, 11, 1)
    ensures s.db.jobs[1] == Failed1(n, RetrySpawned)
  {
    hide Reached, Quietly, Setting, Retry, Launched, Failed1, Check2, TriageChild, WillRetry, Report3, Retry1;
    var s0 := FirstRuns(n);
    ChildIs(n, 11);
    s := StartsChild(s0, n, false, 11);
    LaunchedIs(TriageChild(n, 11));
    Targeted(s, n, 11);
  }

  // In a study that retries automatically, the case then has two live ANALYSIS jobs; both start with the same attempt
  // number, and no human has re-run anything.
  lemma RaceDoubles(n: int) returns (acts: seq<Act>)
    requires n >= 1
    ensures var db := Run(INIT, acts).db; !Single(db, K) && !KeysNotReused(db.log, K) && PolicyOf(db, 0).autoRetryMax == Some(n)
  {
    var s := BothStart(n);
    acts :| s == Run(INIT, acts);
    hide Run;
    assert LiveOf(s.db.jobs[20], K) && LiveOf(s.db.jobs[21], K);
  }

  lemma BothStart(n: int) returns (s: Sys)
    requires n >= 1
    ensures Reached(s) && !KeysNotReused(s.db.log, K) && Setting(s, n, false)
    ensures 20 in s.db.jobs && 21 in s.db.jobs && LiveOf(s.db.jobs[20], K) && LiveOf(s.db.jobs[21], K)
  {
    hide Reached, Quietly, Setting, Retry, Launched, KeysNotReused, Open;
    var s0 := SecondRuns(n);
    SameRetry(n, 20);
    SameRetry(n, 21);
    Spacious(s0, n, false, 20);
    var s1 := Launches(s0, W, 20, 0);
    SettingStays(s0, s1, n, false);
    Spacious(s1, n, false, 21);
    s := Launches(s1, W, 21, 0);
    SettingStays(s1, s, n, false);
    LaunchedIs(Retry1(n, 20));
    LaunchedIs(Retry1(n, 21));
    Reused(s1, s, n, Retry1(n, 20), Retry1(n, 21));
  }

  lemma Reused(s: Sys, t: Sys, n: int, r: Job, q: Job)
    requires Quietly(s, t) && |t.db.log| > |s.db.log| > 0 && Setting(t, n, false) && r.Key() == q.Key() == Some(K)
    requires r.attempt == q.attempt
    requires s.db.log[|s.db.log| - 1] == StartEvent(r, W, 20, 0) && t.db.log[|t.db.log| - 1] == StartEvent(q, W, 21, 0)
    ensures !KeysNotReused(t.db.log, K)
  {
    var i, j := |s.db.log| - 1, |t.db.log| - 1;
    assert t.db.log[i] == s.db.log[i];
    assert SameStart(t.db.log[i], t.db.log[j], K);
    assert !RerunBetween(t.db.log, K, i, j);
  }

  // One TRIAGE job is enough: its worker loses the lease, another starts it again, and both call run_triage.
  lemma LostLeaseDoubles(n: int) returns (acts: seq<Act>)
    requires n >= 1
    ensures var db := Run(INIT, acts).db;
      && !Single(db, K) && StartedBy(db.log, 10, W) && StartedBy(db.log, 10, V)
      && forall t <- db.jobs :: db.jobs[t].jtype == TRIAGE ==> t == 10
  {
    hide Reached, StartedBy;
    var s := RunTwice(n);
    acts := ActsOf(s);
    hide Run;
    SameRetry(n, 20);
    SameRetry(n, 21);
    assert LiveOf(s.db.jobs[20], K) && LiveOf(s.db.jobs[21], K);
  }

  // Two workers have started it.
  lemma StartedTwice(n: int) returns (s: Sys)
    requires n >= 1
    ensures Reached(s) && Setting(s, n, false) && s.pending == INIT.pending.(run := multiset{10, 10})
    ensures s.db.jobs.Keys == {1, 2, 3, 10}
    ensures s.db.jobs[1] == Failed1(n, Triage) && s.db.jobs[2] == Check2(n) && s.db.jobs[3] == Report3()
    ensures s.db.jobs[10].jtype == TRIAGE && s.db.jobs[10].payload == TriagePayload(1)
    ensures StartedBy(s.db.log, 10, W) && StartedBy(s.db.log, 10, V)
  {
    hide Reached, Quietly, Setting, Launched, Failed1, Check2, TriageChild, Expired, Exhausted, StartedBy, Open, StartEvent;
    var s0 := IsTriaged(n, false);
    Leased10(s0, n);
    var s1 := FindsAndReaps(s0, 10, HOUR);
    StartStays(s0, s1, 10, W);
    SettingStays(s0, s1, n, false);
    assert |s1.db.jobs.Keys| == |{1, 2, 3, 10}|;
    Spacious(s1, n, false, 10);
    s := Launches(s1, V, 10, HOUR);
    StartStays(s1, s, 10, W);
    StartShows(s, s1.db.jobs[10], V, 10, HOUR);
    SettingStays(s1, s, n, false);
    RunAgain(n, s1.db.jobs[10]);
    assert multiset{10} + multiset{10} == multiset{10, 10};
  }

  lemma RunTwice(n: int) returns (s: Sys)
    requires n >= 1
    ensures Reached(s) && s.db.jobs.Keys == {1, 2, 3, 10, 20, 21} && s.db.jobs[20] == Retry1(n, 20)
    ensures s.db.jobs[21] == Retry1(n, 21)
    ensures s.db.jobs[1].jtype == ANALYSIS && s.db.jobs[2].jtype == CHECK && s.db.jobs[3].jtype == REPORT
    ensures StartedBy(s.db.log, 10, W) && StartedBy(s.db.log, 10, V)
  {
    hide Reached, Quietly, Setting, Retry, Failed1, Check2, WillRetry, StartedBy;
    var s2 := StartedTwice(n);
    Failed1Is(n);
    Targeted(s2, n, 10);
    var s3 := RunsTriage(s2, W, 10, 1, 20, 0);
    SettingStays(s2, s3, n, false);
    Targeted(s3, n, 10);
    assert 10 in multiset{10, 10} - multiset{10};
    s := RunsHalf(s3, V, 10, 1, 21, 0);
    StartStays(s2, s3, 10, W);
    StartStays(s2, s3, 10, V);
    StartStays(s3, s, 10, W);
    StartStays(s3, s, 10, V);
    SameRetry(n, 20);
    SameRetry(n, 21);
    RunAgain(n, s2.db.jobs[10]);
  }

  lemma Leased10(s: Sys, n: int)
    requires 10 in s.db.jobs && s.db.jobs[10] == Launched(TriageChild(n, 10), W, 0)
    ensures Expired(s.db, 10, HOUR) && !Exhausted(s.db.jobs[10]) && s.db.jobs[10].state == Running
    ensures s.db.jobs[10].jtype == TRIAGE && s.db.jobs[10].payload == TriagePayload(1)
  {}

  lemma RunAgain(n: int, row: Job)
    ensures var r := Launched(row, V, HOUR); r.jtype == row.jtype && r.payload == row.payload
    ensures Failed1(n, Triage).jtype == ANALYSIS && Failed1(n, RetrySpawned).jtype == ANALYSIS && Check2(n).jtype == CHECK
  {}

  /******* A job that fails again after triage *******/

  // Triage hands p, which is out of attempts, to a human.
  lemma Escalates(s: Sys, t: JobId, p: JobId, rid: JobId, ts: int) returns (u: Sys)
    requires Reached(s) && t in s.pending.run && rid !in s.db.jobs && t in s.db.jobs && s.db.jobs[t].jtype == TRIAGE
    requires s.db.jobs[t].payload == TriagePayload(p) && p in s.db.jobs && s.db.jobs[p].state == Triage
    requires !PermanentFailure(s.db.log, p) && s.db.jobs[p].attempt >= s.db.jobs[p].maxAttempts
    ensures Reached(u) && OneRow(s, u, p, s.db.jobs[p].(state := Escalated))
    ensures u.pending == s.pending.(run := s.pending.run - multiset{t}, ran := s.pending.ran + {t})
  {
    hide Reached, Step, Inv, PermanentFailure, Linked, Struct, ReadyOk, TriageOk, Triaging, AfterTriage;
    var a := Act.RunTriage(W, t, rid, None, true, ts);
    Then(s, a);
    InvParts(s);
    MayRun(s, t, p);
    TriageMade(s, W, t, rid, None, ts);
    HandedOver(s.db, p, rid, ts);
    u := Step(s, a);
  }

  lemma HandedOver(db: Db, p: JobId, rid: JobId, ts: int)
    requires p in db.jobs && db.jobs[p].state == Triage && rid !in db.jobs
    requires !PermanentFailure(db.log, p) && db.jobs[p].attempt >= db.jobs[p].maxAttempts
    ensures var b := AfterTriage(db, p, rid, None, true, ts);
      && b.jobs == db.jobs[p := db.jobs[p].(state := Escalated)] && b.deps == db.deps && b.verdicts == db.verdicts
      && b.studies == db.studies
      && b.workers == db.workers
  {
    assert AfterTriage(db, p, rid, None, true, ts) == Resolved(db, p, Escalated, true, ts);
    assert MovedRow(db.jobs[p], MoveTo(p, Escalated, ts)) == db.jobs[p].(state := Escalated);
  }

  lemma MayRun(s: Sys, t: JobId, p: JobId)
    requires Linked(s.db) && t in s.db.jobs && s.db.jobs[t].jtype == TRIAGE && s.db.jobs[t].payload == TriagePayload(p)
    requires p in s.db.jobs
    ensures Triaging(s.db, t) && (Wanted(s.db, t) <==> s.db.jobs[p].state == Triage)
  {}

  lemma Completes(s: Sys, t: JobId, ts: int) returns (u: Sys)
    requires Reached(s) && t in s.pending.ran && t in s.db.jobs && s.db.jobs[t].jtype == TRIAGE && s.db.jobs[t].state == Running
    ensures Reached(u) && OneRow(s, u, t, s.db.jobs[t].(state := Succeeded, lease := None)) && u.pending == s.pending
  {
    hide Run, Step;
    u := MoveNow(s, TriageDone(W, t, ts), Plain(t, Succeeded, Worker(W), Some(Running), ts));
  }

  lemma HumanRequeues(s: Sys, j: JobId, ts: int) returns (u: Sys)
    requires Reached(s) && j in s.db.jobs && s.db.jobs[j].state == Escalated
    ensures Reached(u) && OneRow(s, u, j, s.db.jobs[j].(state := Queued)) && u.pending == s.pending
  {
    hide Run, Step;
    u := MoveNow(s, HumanMove(j, Queued, "owner", ts), Plain(j, Queued, Human("owner"), None, ts));
  }

  // A loop flips the failed job and makes its child.
  lemma HasOneChild(n: int, permanent: bool) returns (s: Sys)
    ensures Reached(s) && Setting(s, n, permanent) && s.pending == INIT.pending && s.db.deps == Edges()
    ensures s.db.jobs == map[1 := Failed1(n, Triage), 2 := Check2(n), 3 := Report3(), 10 := TriageChild(n, 10)]
  {
    hide Step;
    hide Reached, Quietly, Setting;
    var s0 := FailsOnce(n, permanent);
    var s1 := Flips(s0, 1, 0);
    SettingStays(s0, s1, n, permanent);
    assert s1.db.jobs == map[1 := Failed1(n, Triage), 2 := Check2(n), 3 := Report3()];
    s := MakesChild(s1, 1, 10, 0);
    SettingStays(s1, s, n, permanent);
    assert multiset{} + multiset{1} - multiset{1} == multiset{};
    assert s.db.jobs == map[1 := Failed1(n, Triage), 2 := Check2(n), 3 := Report3()][10 := TriageChild(n, 10)];
  }

  // The child is started.
  lemma IsTriaged(n: int, permanent: bool) returns (s: Sys)
    ensures Reached(s) && Setting(s, n, permanent) && s.pending == INIT.pending.(run := multiset{10}) && s.db.deps == Edges()
    ensures s.db.jobs == map[1 := Failed1(n, Triage), 2 := Check2(n), 3 := Report3(), 10 := Launched(TriageChild(n, 10), W, 0)]
    ensures StartedBy(s.db.log, 10, W)
  {
    hide Reached, Quietly, Setting, Launched, Check2, Failed1, TriageChild, StartedBy, Open, StartEvent;
    var s0 := HasOneChild(n, permanent);
    ChildIs(n, 10);
    Spacious(s0, n, permanent, 10);
    s := Launches(s0, W, 10, 0);
    StartShows(s, s0.db.jobs[10], W, 10, 0);
    SettingStays(s0, s, n, permanent);
    assert multiset{} + multiset{10} == multiset{10};
    assert s.db.jobs == map[1 := Failed1(n, Triage), 2 := Check2(n), 3 := Report3(),
      10 := TriageChild(n, 10)][10 := Launched(TriageChild(n, 10), W, 0)];
  }

  // Triage escalates.
  lemma IsEscalated() returns (s: Sys)
    ensures Reached(s) && s.pending == INIT.pending.(ran := {10}) && s.db.deps == Edges()
    ensures s.db.workers == Workers()
    ensures s.db.jobs == map[1 := Failed1(0, Escalated), 2 := Check2(0), 3 := Report3(), 10 := Launched(TriageChild(0, 10), W, 0)]
  {
    hide Reached, Quietly, Setting, Launched, Check2, TriageChild, Failed1, PermanentFailure;
    var s0 := IsTriaged(0, false);
    Failed1Is(0);
    FlippedIs(0);
    ChildIs(0, 10);
    LaunchedIs(TriageChild(0, 10));
    SettingSays(s0, 0, false);
    OutOfAttempts();
    s := Escalates(s0, 10, 1, 20, 0);
    assert multiset{10} - multiset{10} == multiset{};
    assert s.db.jobs == map[1 := Failed1(0, Escalated), 2 := Check2(0), 3 := Report3(), 10 := Launched(TriageChild(0, 10), W, 0)];
  }

  lemma FlippedIs(n: int)
    ensures Failed1(n, Failed).(state := Triage) == Failed1(n, Triage)
    ensures Failed1(n, Triage).(state := Escalated) == Failed1(n, Escalated)
  {}

  lemma OutOfAttempts()
    ensures forall st :: Failed1(0, st).attempt >= Failed1(0, st).maxAttempts
  {}

  lemma SettingSays(s: Sys, n: int, permanent: bool)
    requires Setting(s, n, permanent)
    ensures s.db.workers == Workers() && PermanentFailure(s.db.log, 1) == permanent
    ensures s.db.studies == Studies(n)
  {}

  // A human has it run again, and it fails again.
  lemma FailsAgain() returns (s: Sys)
    ensures Reached(s) && s.pending == INIT.pending.(ran := {10}) && s.db.jobs.Keys == {1, 2, 3, 10}
    ensures s.db.jobs[1].state == Failed
    ensures s.db.jobs[2] == Check2(0) && s.db.jobs[1].payload.CasePayload?
    ensures s.db.jobs[10] == Launched(TriageChild(0, 10), W, 0).(state := Succeeded, lease := None) && s.db.jobs[3] == Report3()
  {
    hide Reached, Quietly, Check2, TriageChild, PermanentFailure, Launched, Open, Report3, NoRerun, StartEvent;
    var s2 := IsRequeued();
    var s3 := Launches(s2, W, 1, 0);
    LaunchedIs(s2.db.jobs[1]);
    s := Fails(s3, W, 1, false, 0);
  }

  lemma IsRequeued() returns (s: Sys)
    ensures Reached(s) && s.pending == INIT.pending.(ran := {10}) && s.db.jobs.Keys == {1, 2, 3, 10}
    ensures s.db.jobs[1].state == Queued
    ensures s.db.jobs[2] == Check2(0) && s.db.jobs[1].payload.CasePayload? && s.db.jobs[1].jtype == ANALYSIS && Open(s.db, W, 1)
    ensures s.db.jobs[10] == Launched(TriageChild(0, 10), W, 0).(state := Succeeded, lease := None) && s.db.jobs[3] == Report3()
  {
    hide Reached, Quietly, Check2, TriageChild, PermanentFailure, Launched, Report3;
    var s0 := IsEscalated();
    ChildIs(0, 10);
    LaunchedIs(TriageChild(0, 10));
    var s1 := Completes(s0, 10, 0);
    s := HumanRequeues(s1, 1, 0);
    CaseMayRun(s.db);
    hide Open;
  }

  lemma CaseMayRun(db: Db)
    requires db.workers == Workers() && db.deps == Edges() && db.jobs.Keys == {1, 2, 3, 10}
    ensures Open(db, W, 1)
  {
    assert |db.jobs.Keys| == |{1, 2, 3, 10}|;
  }

  // A crash of the loop right after the flip then strands the job for ever.
  lemma CrashStrandsForEver() returns (acts: seq<Act>)
    ensures Stranded.Stranded(Run(INIT, acts), 1) && Run(INIT, acts).db.jobs[1].state == Triage
    ensures forall more: seq<Act> :: Stranded.Stranded(Run(INIT, acts + more), 1)
  {
    var s := FailsAgain();
    Then(s, FlipTriage(1, 0));
    Then(Step(s, FlipTriage(1, 0)), DropTriage(1, 0));
    HasChild(s);
    CrashStrands(s, 1, 0);
    var t := Step(Step(s, FlipTriage(1, 0)), DropTriage(1, 0));
    Then(t, DropRun(1, 0));
    acts :| t == Run(INIT, acts);
    hide Step, Stranded.Stranded;
    forall more: seq<Act> ensures Stranded.Stranded(Run(INIT, acts + more), 1) {
      RunConcat(INIT, acts, more);
      StrandedForEver(t, more, 1);
    }
  }

  lemma HasChild(s: Sys)
    requires s.pending == INIT.pending.(ran := {10}) && s.db.jobs.Keys == {1, 2, 3, 10} && s.db.jobs[2] == Check2(0)
    requires s.db.jobs[1].payload.CasePayload?
    requires s.db.jobs[10] == Launched(TriageChild(0, 10), W, 0).(state := Succeeded, lease := None) && s.db.jobs[3] == Report3()
    ensures HasTriageChild(s.db, 1) && OthersFinished(s.db, 1) && NoneRuns(s, 1) && 1 !in s.pending.make
  {
    assert s.db.jobs[10].jtype == TRIAGE && s.db.jobs[10].parent == Some(1);
  }

  /******* A job taken away while it runs *******/

  // Nothing but the time its lease takes is needed for a worker to lose the job it runs, and with it its life.
  lemma WorkerLosesJob(n: int) returns (acts: seq<Act>)
    ensures Runs(Run(INIT, acts).db, 1) && Enabled(Run(INIT, acts), Reap(1, true, n <= 0, HOUR))
    ensures var t := Run(INIT, acts + [Reap(1, true, n <= 0, HOUR)]);
      forall a, w :: Enabled(t, a) && Ending(t.db, a, w, 1) ==> MoveRefusal(t.db, SingleMove(t.db, a).value) == Some(StaleState)
  {
    hide Ops, Exec, NextSeen, SingleMove, MoveRefusal;
    hide Reached, Quietly, Launched;
    var s := FoundOnce(n);
    acts := ActsOf(s);
    RunPush(INIT, acts, Reap(1, true, n <= 0, HOUR));
    hide Run, Step, Ending;
    ReaperWins(s, 1, n <= 0, HOUR);
  }

  lemma ActsOf(s: Sys) returns (acts: seq<Act>)
    requires Reached(s)
    ensures s == Run(INIT, acts)
  {
    hide Run;
    acts :| s == Run(INIT, acts);
  }

  lemma FoundOnce(n: int) returns (s: Sys)
    ensures Reached(s) && Runs(s.db, 1) && Find(1, true, n <= 0) in s.pending.reap
  {
    hide Reached, Quietly;
    var s0 := SetUp(n);
    var s1 := Launches(s0, W, 1, 0);
    assert s1.db.jobs[1] == Launched(Case1(n), W, 0);
    s := Finds(s1, 1, HOUR);
  }

  // Two reapers read the same expiry. One requeues the job, which is started again; the other takes it away at once, and
  // takes it past max_attempts.
  lemma StaleReap() returns (acts: seq<Act>)
    ensures var s := Run(INIT, acts);
      && Runs(s.db, 1) && Since(s.db, 1, HOUR) && FoundRunning(s, 1) && Limited(s.db.jobs[1])
      && Overdraws(s, Reap(1, true, false, HOUR), 1) && StartedBy(s.db.log, 1, W) && StartedBy(s.db.log, 1, V)
    ensures var t := Run(INIT, acts + [Reap(1, true, false, HOUR)]);
      !Runs(t.db, 1) && 1 in t.db.jobs && t.db.jobs[1].attempt == t.db.jobs[1].maxAttempts + 1 && !Limited(t.db.jobs[1])
  {
    hide Reached, Quietly, OneRow, StartedBy;
    var s := RestartedOnce();
    acts := ActsOf(s);
    RunPush(INIT, acts, Reap(1, true, false, HOUR));
    hide Run, Step, Overdraws, FoundRunning, Limited;
    var t := Reaps(s, 1, HOUR);
    TakenPast(s, t);
    StillFound(s);
  }

  lemma TakenPast(s: Sys, t: Sys)
    requires 1 in s.db.jobs && s.db.jobs[1] == Launched(Case1(1).(attempt := 2), V, HOUR)
    requires OneRow(s, t, 1, s.db.jobs[1].(state := Queued, worker := None, lease := None, attempt := s.db.jobs[1].attempt + 1))
    ensures 1 in t.db.jobs && !Runs(t.db, 1) && t.db.jobs[1].attempt == t.db.jobs[1].maxAttempts + 1 && !Limited(t.db.jobs[1])
    ensures Limited(s.db.jobs[1]) && Runs(s.db, 1) && Since(s.db, 1, HOUR) && Exhausted(s.db.jobs[1])
  {}

  lemma StillFound(s: Sys)
    requires Runs(s.db, 1) && Find(1, true, false) in s.pending.reap && Exhausted(s.db.jobs[1])
    ensures FoundRunning(s, 1) && Overdraws(s, Reap(1, true, false, HOUR), 1)
  {}

  lemma RestartedOnce() returns (s: Sys)
    ensures Reached(s) && 1 in s.db.jobs && s.db.jobs[1] == Launched(Case1(1).(attempt := 2), V, HOUR)
    ensures Find(1, true, false) in s.pending.reap
    ensures StartedBy(s.db.log, 1, W) && StartedBy(s.db.log, 1, V)
  {
    hide Step;
    hide Reached, Quietly, StartedBy, StartEvent;
    var f := Find(1, true, false);
    var s0 := SetUp(1);
    var s1 := Launches(s0, W, 1, 0);
    assert s1.db.jobs[1] == Launched(Case1(1), W, 0);
    StartShows(s1, Case1(1), W, 1, 0);
    var s2 := Finds(s1, 1, HOUR);
    var s3 := Finds(s2, 1, HOUR);
    assert s3.pending.reap == multiset{f, f};
    var s4 := Reaps(s3, 1, HOUR);
    StartStays(s3, s4, 1, W);
    assert |s4.db.jobs.Keys| == |{1, 2, 3}|;
    s := Launches(s4, V, 1, HOUR);
    StartStays(s4, s, 1, W);
    StartShows(s, s4.db.jobs[1], V, 1, HOUR);
  }

  /******* A worker that dies in run_triage *******/

  // It has made the retry and not yet retired the job: the case has two live rows.
  lemma HalfRunDoubles(n: int) returns (acts: seq<Act>)
    requires n >= 1
    ensures var s := Run(INIT, acts); Doubles(s, HalfTriage(W, 10, 20, None, 1, 0), K)
    ensures var db := Run(INIT, acts + [HalfTriage(W, 10, 20, None, 1, 0)]).db;
      !Single(db, K) && 1 in db.jobs && db.jobs[1].state == Triage && 20 in db.jobs && db.jobs[20].parent == Some(1)
  {
    hide Run, Step, Doubles;
    hide Reached, Quietly, Setting, Launched, Check2, TriageChild, WillRetry;
    var s := IsTriaged(n, false);
    ChildIs(n, 10);
    LaunchedIs(TriageChild(n, 10));
    Targeted(s, n, 10);
    acts := ActsOf(s);
    RunPush(INIT, acts, HalfTriage(W, 10, 20, None, 1, 0));
    CutShort(s, n);
  }

  lemma CutShort(s: Sys, n: int)
    requires Reached(s) && WillRetry(s.db, 10, 1) && 10 in s.pending.run && s.db.jobs.Keys == {1, 2, 3, 10}
    requires s.db.jobs[1] == Failed1(n, Triage)
    ensures Doubles(s, HalfTriage(W, 10, 20, None, 1, 0), K)
    ensures var db := Step(s, HalfTriage(W, 10, 20, None, 1, 0)).db;
      !Single(db, K) && 1 in db.jobs && db.jobs[1].state == Triage && 20 in db.jobs && db.jobs[20].parent == Some(1)
  {
    var a := HalfTriage(W, 10, 20, None, 1, 0);
    hide Reached, Inv, Step, Single, AfterHalf, WillRetry, Linked;
    Then(s, a);
    Targets(s, 10, 1);
    CutDoubles(s, n);
    HalfEffect(s, a);
    SingleStep(s, a, K);
    CutLeaves(s.db, n);
  }

  lemma CutDoubles(s: Sys, n: int)
    requires WillRetry(s.db, 10, 1) && 10 in s.pending.run && s.db.jobs.Keys == {1, 2, 3, 10}
    requires s.db.jobs[1] == Failed1(n, Triage)
    requires Triaging(s.db, 10) && s.db.jobs[10].payload.failedJob == 1
    ensures Doubles(s, HalfTriage(W, 10, 20, None, 1, 0), K)
  {
    hide PermanentFailure;
  }

  lemma CutLeaves(db: Db, n: int)
    requires WillRetry(db, 10, 1) && db.jobs.Keys == {1, 2, 3, 10} && db.jobs[1] == Failed1(n, Triage)
    ensures var b := AfterHalf(db, 1, 20, None, 1, 0);
      1 in b.jobs && b.jobs[1].state == Triage && 20 in b.jobs && b.jobs[20].parent == Some(1)
  {
    hide PermanentFailure, Respawned;
  }

  /******* A study in review that gets another job *******/

  // A move of one job that is none of triage's
  lemma MovesOne(s: Sys, a: Act, q: Request, to: JobState) returns (t: Sys)
    requires Reached(s) && Enabled(s, a) && SingleMove(s.db, a) == Some(q) && MoveRefusal(s.db, q).None?
    requires q == Plain(q.job, to, q.actor, q.expected, q.ts)
    requires !Aside(a) && !Composite(a) && !Remembers(a) && !s.db.jobs[q.job].Leased() && to in {Accepted, Cancelled}
    ensures Reached(t) && OneRow(s, t, q.job, s.db.jobs[q.job].(state := to)) && t.pending == s.pending
  {
    hide Reached, Step, Enabled, SingleMove, MoveRefusal;
    t := MoveNow(s, a, q);
    StepFrame(s, a);
  }

  // Triage writes the job off.
  lemma WritesOff(s: Sys, t: JobId, p: JobId, rid: JobId, ts: int) returns (u: Sys)
    requires Reached(s) && t in s.pending.run && rid !in s.db.jobs && t in s.db.jobs && s.db.jobs[t].jtype == TRIAGE
    requires s.db.jobs[t].payload == TriagePayload(p) && p in s.db.jobs && s.db.jobs[p].state == Triage
    requires PermanentFailure(s.db.log, p)
    ensures Reached(u) && OneRow(s, u, p, s.db.jobs[p].(state := Infeasible))
    ensures u.pending == s.pending.(run := s.pending.run - multiset{t}, ran := s.pending.ran + {t})
  {
    hide Reached, Step, Inv, PermanentFailure, Linked, Struct, ReadyOk, TriageOk, Triaging, AfterTriage;
    var a := Act.RunTriage(W, t, rid, None, true, ts);
    Then(s, a);
    InvParts(s);
    MayRun(s, t, p);
    TriageMade(s, W, t, rid, None, ts);
    WrittenOff(s.db, p, rid, ts);
    u := Step(s, a);
  }

  lemma WrittenOff(db: Db, p: JobId, rid: JobId, ts: int)
    requires p in db.jobs && db.jobs[p].state == Triage && rid !in db.jobs && PermanentFailure(db.log, p)
    ensures var b := AfterTriage(db, p, rid, None, true, ts);
      && b.jobs == db.jobs[p := db.jobs[p].(state := Infeasible)] && b.deps == db.deps && b.verdicts == db.verdicts
      && b.studies == db.studies
      && b.workers == db.workers
  {
    assert AfterTriage(db, p, rid, None, true, ts) == Resolved(db, p, Infeasible, true, ts);
    assert MovedRow(db.jobs[p], MoveTo(p, Infeasible, ts)) == db.jobs[p].(state := Infeasible);
  }

  // Two loops are about to make a child of the job, which has failed for good; one does, and triage runs.
  lemma IsWrittenOff() returns (s: Sys)
    ensures Reached(s) && s.db.studies == Studies(0) && s.db.workers == Workers() && s.db.deps == Edges()
    ensures s.pending == INIT.pending.(make := multiset{1}, ran := {10})
    ensures s.db.jobs == map[1 := Failed1(0, Infeasible), 2 := Check2(0), 3 := Report3(),
      10 := Launched(TriageChild(0, 10), W, 0)]
  {
    hide Reached, Setting, Launched, Check2, Failed1, TriageChild, PermanentFailure, Report3, Studies, Workers;
    var s1 := OneIsMade();
    ChildIs(0, 10);
    Failed1Is(0);
    LaunchedIs(TriageChild(0, 10));
    var s2 := StartsChild(s1, 0, true, 10);
    SettingSays(s2, 0, true);
    assert 10 in multiset{} + multiset{10} && multiset{} + multiset{10} - multiset{10} == multiset{};
    InfeasibleIs();
    s := WritesOff(s2, 10, 1, 20, 0);
    assert s.db.jobs == map[1 := Failed1(0, Infeasible), 2 := Check2(0), 3 := Report3(),
      10 := Launched(TriageChild(0, 10), W, 0)];
  }

  lemma InfeasibleIs()
    ensures Failed1(0, Triage).(state := Infeasible) == Failed1(0, Infeasible)
  {}

  lemma OneIsMade() returns (s: Sys)
    ensures Reached(s) && Setting(s, 0, true) && s.pending == INIT.pending.(make := multiset{1}) && s.db.deps == Edges()
    ensures s.db.jobs == map[1 := Failed1(0, Triage), 2 := Check2(0), 3 := Report3(), 10 := TriageChild(0, 10)]
  {
    hide Reached, Quietly, Setting;
    var s0 := FlipsAndReads(0, true);
    s := MakesChild(s0, 1, 10, 0);
    SettingStays(s0, s, 0, true);
    assert multiset{1, 1} - multiset{1} == multiset{1};
    assert s.db.jobs == map[1 := Failed1(0, Triage), 2 := Check2(0), 3 := Report3()][10 := TriageChild(0, 10)];
  }

  // The TRIAGE job is through.
  lemma IsThrough() returns (s: Sys)
    ensures Reached(s) && s.db.studies == Studies(0) && s.db.workers == Workers() && s.db.deps == Edges()
    ensures s.pending.make == multiset{1}
    ensures s.db.jobs.Keys == {1, 2, 3, 10} && s.db.jobs[1] == Failed1(0, Infeasible) && s.db.jobs[2] == Check2(0)
    ensures s.db.jobs[3] == Report3()
    ensures s.db.jobs[10].jtype == TRIAGE && s.db.jobs[10].state == Accepted
  {
    hide Run;
    hide Reached, Launched, TriageChild, Failed1, Check2;
    var s0 := IsWrittenOff();
    ChildIs(0, 10);
    LaunchedIs(TriageChild(0, 10));
    var s1 := Completes(s0, 10, 0);
    s := Supports(s1, 10);
  }

  lemma Reports(s: Sys, w: WorkerId, j: JobId, ts: int) returns (t: Sys)
    requires Reached(s) && j in s.db.jobs && s.db.jobs[j].jtype == REPORT && s.db.jobs[j].state == Running
    ensures Reached(t) && OneRow(s, t, j, s.db.jobs[j].(state := Succeeded, lease := None)) && t.pending == s.pending
  {
    hide Run, Step;
    hide Reached;
    t := MoveNow(s, ReportDone(w, j, ts), Plain(j, Succeeded, Worker(w), Some(Running), ts));
  }

  // The CHECK behind the infeasible job is cancelled, and the REPORT is made.
  lemma IsWoundUp() returns (s: Sys)
    ensures Reached(s) && s.db.studies == Studies(0) && 1 in s.pending.make
    ensures s.db.jobs.Keys == {1, 2, 3, 10} && s.db.jobs[1].state == Infeasible && s.db.jobs[2].state == Cancelled
    ensures s.db.jobs[3].state == Accepted && s.db.jobs[10].state == Accepted
  {
    hide Reached, Open, Quietly, Check2;
    var s3 := IsCancelled();
    ReportMayRun(s3.db);
    var s4 := Launches(s3, V, 3, 0);
    var s5 := Reports(s4, V, 3, 0);
    s := Supports(s5, 3);
  }

  lemma IsCancelled() returns (s: Sys)
    ensures Reached(s) && s.db.studies == Studies(0) && s.db.workers == Workers() && s.db.deps == Edges()
    ensures s.pending.make == multiset{1}
    ensures s.db.jobs.Keys == {1, 2, 3, 10} && s.db.jobs[1].state == Infeasible && s.db.jobs[2].state == Cancelled
    ensures s.db.jobs[3] == Report3() && s.db.jobs[10].state == Accepted
  {
    hide Reached, DeadBranch, Check2;
    var s0 := IsThrough();
    BranchIsDead(s0.db);
    s := Cancels(s0, 2);
  }

  // The control loop cancels a job whose branch is dead, and accepts a supporting one.
  lemma Cancels(s: Sys, j: JobId) returns (t: Sys)
    requires Reached(s) && DeadBranch(s.db, j) && s.db.jobs[j].state == Approved
    ensures Reached(t) && OneRow(s, t, j, s.db.jobs[j].(state := Cancelled)) && t.pending == s.pending
  {
    hide Reached, Enabled, SingleMove, MoveRefusal;
    CancelGuard(s, j);
    t := MovesOne(s, CancelDead(j, 0), Plain(j, Cancelled, SCHEDULER, Some(Approved), 0), Cancelled);
  }

  lemma CancelGuard(s: Sys, j: JobId)
    requires DeadBranch(s.db, j) && s.db.jobs[j].state == Approved
    ensures var a, q := CancelDead(j, 0), Plain(j, Cancelled, SCHEDULER, Some(Approved), 0);
      Enabled(s, a) && SingleMove(s.db, a) == Some(q) && MoveRefusal(s.db, q).None?
  {}

  lemma Supports(s: Sys, j: JobId) returns (t: Sys)
    requires Reached(s) && j in s.db.jobs && s.db.jobs[j].state == Succeeded && s.db.jobs[j].jtype in {TRIAGE, REPORT}
    ensures Reached(t) && OneRow(s, t, j, s.db.jobs[j].(state := Accepted)) && t.pending == s.pending
  {
    hide Reached, Enabled, SingleMove, MoveRefusal;
    SupportGuard(s, j);
    t := MovesOne(s, AcceptSupport(j, 0), Plain(j, Accepted, Agent, Some(Succeeded), 0), Accepted);
  }

  lemma SupportGuard(s: Sys, j: JobId)
    requires j in s.db.jobs && s.db.jobs[j].state == Succeeded && s.db.jobs[j].jtype in {TRIAGE, REPORT}
    ensures var a, q := AcceptSupport(j, 0), Plain(j, Accepted, Agent, Some(Succeeded), 0);
      Enabled(s, a) && SingleMove(s.db, a) == Some(q) && MoveRefusal(s.db, q).None?
  {}

  lemma ReportMayRun(db: Db)
    requires db.workers == Workers() && db.deps == Edges() && db.jobs.Keys == {1, 2, 3, 10}
    requires db.jobs[2].state == Cancelled && db.jobs[3].jtype == REPORT
    ensures Open(db, V, 3)
  {
    assert |db.jobs.Keys| == |{1, 2, 3, 10}|;
  }

  lemma BranchIsDead(db: Db)
    requires Dep(2, 1) in db.deps && 1 in db.jobs && db.jobs[1].state == Infeasible && 2 in db.jobs && db.jobs[2] == Check2(0)
    ensures DeadBranch(db, 2) && db.jobs[2].state == Approved
  {}

  // The study goes to review, and the second loop makes its TRIAGE job.
  lemma LateJob() returns (acts: seq<Act>)
    ensures InReviewOrClosed(Run(INIT, acts).db, 0) && AllTerminal(Run(INIT, acts).db, 0)
    ensures Late(Run(INIT, acts), MakeTriage(1, 11, 0), 0)
    ensures !SameJobs(Run(INIT, acts).db, Run(INIT, acts + [MakeTriage(1, 11, 0)]).db, 0)
  {
    var s := IsReviewed();
    acts := ActsOf(s);
    var more := [MakeTriage(1, 11, 0)];
    assert Run(Run(INIT, acts), more[..0]) == s;
    hide Run, Step;
    ClosureIsFinal(acts, more, 0);
    assert Late(Run(Run(INIT, acts), more[..0]), more[0], 0);
  }

  lemma IsReviewed() returns (s: Sys)
    ensures Reached(s) && InReviewOrClosed(s.db, 0) && AllTerminal(s.db, 0) && Late(s, MakeTriage(1, 11, 0), 0)
  {
    hide Reached, Enabled, StudyRefusal, Ops;
    var s0 := IsRunning();
    s := EndsStudy(s0);
    IsLate(s);
  }

  // The study runs, and all its jobs are terminal.
  lemma IsRunning() returns (s: Sys)
    ensures Reached(s) && s.db.studies == map[0 := Study(InProgress, PolicyWith(0))] && AllTerminal(s.db, 0)
    ensures 1 in s.pending.make && s.db.jobs.Keys == {1, 2, 3, 10} && s.db.jobs[1].study == 0
  {
    hide Reached, Enabled, StudyRefusal, Ops;
    var s0 := IsWoundUp();
    AllDone(s0);
    s := StartsStudy(s0);
  }

  lemma StartsStudy(s: Sys) returns (t: Sys)
    requires Reached(s) && s.db.studies == Studies(0) && 1 in s.db.jobs && s.db.jobs[1].state == Infeasible
    requires s.db.jobs[1].study == 0
    ensures Reached(t) && t.db.jobs == s.db.jobs && t.db.studies == map[0 := Study(InProgress, PolicyWith(0))]
    ensures t.pending.make == s.pending.make
  {
    hide Reached, Enabled, Ops, StudyRefusal, NextPending;
    WasStarted(s);
    StartGuard(s);
    t := MovesStudy(s, SyncStart(0, 0), StudyRequest(0, InProgress, SCHEDULER, Some(PlanApproved), 0));
  }

  lemma StartGuard(s: Sys)
    requires s.db.studies == Studies(0) && 1 in s.judged && 1 in s.db.jobs && s.db.jobs[1].state == Infeasible
    requires s.db.jobs[1].study == 0
    ensures var a, q := SyncStart(0, 0), StudyRequest(0, InProgress, SCHEDULER, Some(PlanApproved), 0);
      Enabled(s, a) && Aside(a) && Ops(s, a) == [DoMoveStudy(q)] && StudyRefusal(s.db, q).None? &&
        NextPending(s, a).make == s.pending.make
  {}

  lemma EndGuard(s: Sys)
    requires s.db.studies == map[0 := Study(InProgress, PolicyWith(0))] && 0 in s.pending.review
    ensures var a, q := SyncReview(0, 0), StudyRequest(0, InReview, SCHEDULER, Some(InProgress), 0);
      Enabled(s, a) && Aside(a) && Ops(s, a) == [DoMoveStudy(q)] && StudyRefusal(s.db, q).None? &&
        NextPending(s, a).make == s.pending.make
  {}

  lemma EndsStudy(s: Sys) returns (t: Sys)
    requires Reached(s) && s.db.studies == map[0 := Study(InProgress, PolicyWith(0))] && AllTerminal(s.db, 0)
    ensures Reached(t) && t.db.jobs == s.db.jobs && t.db.studies == map[0 := Study(InReview, PolicyWith(0))]
    ensures t.pending.make == s.pending.make
  {
    hide Reached, Enabled, Ops, StudyRefusal, NextPending;
    var m := ReadsDone(s);
    EndGuard(m);
    t := MovesStudy(m, SyncReview(0, 0), StudyRequest(0, InReview, SCHEDULER, Some(InProgress), 0));
  }

  // The loop that finds the study through only remembers it.
  lemma ReadsDone(s: Sys) returns (t: Sys)
    requires Reached(s) && s.db.studies == map[0 := Study(InProgress, PolicyWith(0))] && AllTerminal(s.db, 0)
    ensures Reached(t) && t.db == s.db && t.pending.make == s.pending.make && 0 in t.pending.review
  {
    hide Ops, Exec, NextSeen, Enabled, Inv;
    hide Reached;
    Then(s, ReadDone(0, 0));
    ReadNotes(s, 0, 0);
    t := Step(s, ReadDone(0, 0));
    hide Step;
  }

  // A loop finds all jobs of the study terminal, another makes its TRIAGE job, and the first sends the study to review.
  lemma ReviewedTooSoon() returns (acts: seq<Act>)
    ensures var db := Run(INIT, acts).db;
      InReviewOrClosed(db, 0) && 11 in db.jobs && db.jobs[11].study == 0 && db.jobs[11].state == Approved
  {
    hide Run, Step;
    hide Reached, Quietly;
    var s0 := IsRunning();
    var s1 := ReadsDone(s0);
    var s2 := MakesChild(s1, 1, 11, 0);
    assert 0 in s2.pending.review;
    var s3 := MovesStudy(s2, SyncReview(0, 0), StudyRequest(0, InReview, SCHEDULER, Some(InProgress), 0));
    acts := ActsOf(s3);
  }

  lemma AllDone(s: Sys)
    requires Reached(s) && s.db.studies.Keys == {0} && s.db.jobs.Keys == {1, 2, 3, 10}
    requires forall j <- s.db.jobs :: Terminal(s.db.jobs[j].state)
    ensures AllTerminal(s.db, 0) && s.db.jobs[1].study == 0
  {
    hide Reached, Step, Inv;
    Then(s, DropRun(1, 0));
    RowsStudy(s);
  }

  lemma IsLate(s: Sys)
    requires 1 in s.pending.make && s.db.jobs.Keys == {1, 2, 3, 10} && s.db.jobs[1].study == 0
    ensures Late(s, MakeTriage(1, 11, 0), 0)
  {}

  lemma WasStarted(s: Sys)
    requires Reached(s) && 1 in s.db.jobs && s.db.jobs[1].state == Infeasible
    ensures 1 in s.judged
  {
    hide Reached, Step;
    Then(s, DropRun(1, 0));
  }

  lemma RowsStudy(s: Sys)
    requires Inv(s) && s.db.studies.Keys == {0}
    ensures forall j <- s.db.jobs :: s.db.jobs[j].study == 0
  {
    forall j <- s.db.jobs ensures s.db.jobs[j].study == 0 { assert RowOk(s.db, j); }
  }
}
