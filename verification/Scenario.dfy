/**
 Pieces of runs: a study with one case and a worker, its job launched, failed, flipped, triaged, reaped, step by step from
 the empty database.
 */
module Scenario {
  import opened Wrappers
  import opened Sets
  import opened Rows
  import opened Substrate
  import opened Protocol
  import opened Effects
  import opened EventLog
  import opened Structure
  import opened History
  import opened Readiness
  import opened Budget
  import opened Lineage
  import opened Leases
  import opened Attempts
  import opened Closure
  import opened Stranded
  import opened Control
  import opened Phases
  import opened SpawnLoop
  import opened WorkerLoop

  // Two workers
  const W: WorkerId := 7
  const V: WorkerId := 8
  const K := CaseKey(0, "c")
  const HOUR := 3600 * MICROS

  function PolicyWith(n: int): Policy { Policy(Some(n), true, Pass, {Warn, Fail}, false, 50) }

  ghost predicate Reached(s: Sys) { exists acts :: s == Run(INIT, acts) }

  lemma FromNothing()
    ensures Reached(INIT)
  {
    hide Step;
    assert INIT == Run(INIT, []);
  }

  lemma Then(s: Sys, a: Act)
    requires Reached(s)
    ensures Reached(Step(s, a)) && Inv(s)
  {
    hide Run, Step;
    var acts :| s == Run(INIT, acts);
    InvReachable(acts);
    RunPush(INIT, acts, a);
    assert Step(s, a) == Run(INIT, acts + [a]);
  }

  // The log has grown, by no failure and no human re-run.
  ghost predicate Quietly(s: Sys, t: Sys) {
    s.db.log <= t.db.log && forall i :: |s.db.log| <= i < |t.db.log| ==> !IsRerun(t.db.log[i]) && t.db.log[i].verb != JobFailed
  }

  lemma QuietThen(s: Sys, t: Sys, u: Sys)
    requires Quietly(s, t) && Quietly(t, u)
    ensures Quietly(s, u)
  {
    forall i | |s.db.log| <= i < |u.db.log| ensures !IsRerun(u.db.log[i]) && u.db.log[i].verb != JobFailed {
      assert i < |t.db.log| ==> u.db.log[i] == t.db.log[i];
    }
  }

  lemma QuietFailure(s: Sys, t: Sys, p: JobId)
    requires Quietly(s, t)
    ensures PermanentFailure(t.db.log, p) == PermanentFailure(s.db.log, p)
    ensures NoRerun(s.db.log) ==> NoRerun(t.db.log)
  {
    var more := t.db.log[|s.db.log|..];
    assert t.db.log == s.db.log + more;
    forall i | 0 <= i < |more| ensures more[i].verb != JobFailed { assert more[i] == t.db.log[|s.db.log| + i]; }
    FailureStays(s.db.log, more, p);
  }

  predicate NoRerun(log: seq<Event>) { forall i :: 0 <= i < |log| ==> !IsRerun(log[i]) }

  // One row changes; the log grows by one event, and what processes remember as given.
  ghost predicate OneRow(s: Sys, t: Sys, j: JobId, row: Job) {
    && t.db.jobs == s.db.jobs[j := row] && t.db.deps == s.db.deps && t.db.verdicts == s.db.verdicts
    && t.db.studies == s.db.studies
    && t.db.workers == s.db.workers
  }

  ghost predicate Logged(s: Sys, t: Sys, e: Event) { t.db.log == s.db.log + [e] }

  lemma MoveNow(s: Sys, a: Act, q: Request) returns (t: Sys)
    requires Reached(s) && Enabled(s, a) && !Aside(a) && !Composite(a) && SingleMove(s.db, a) == Some(q)
    requires MoveRefusal(s.db, q).None?
    ensures t == Step(s, a) && Reached(t) && OneRow(s, t, q.job, MovedRow(s.db.jobs[q.job], q))
    ensures Logged(s, t, MoveEvent(s.db.jobs[q.job], q))
    ensures t.pending == NextPending(s, a)
  {
    hide Reached, Ops, Exec, NextSeen, Enabled, Inv, SingleMove, MoveRefusal;
    t := Step(s, a);
    Then(s, a);
    MoveEffect(s, a);
  }

  /******* Pieces of runs *******/

  // The worker has room, and what j depends on lets it run.
  predicate Open(db: Db, w: WorkerId, j: JobId) {
    && w in db.workers && db.workers[w].status == Online && db.workers[w].capacity > |db.jobs| && j in db.jobs
    && forall d <- db.deps :: d.job == j && d.on in db.jobs ==>
      DepSatisfied(db.jobs[d.on], db.jobs[j].jtype, PolicyOf(db, db.jobs[j].study))
  }

  lemma Looks(s: Sys, w: WorkerId, j: JobId, ts: int) returns (t: Sys)
    requires Reached(s) && Open(s.db, w, j) && j in s.db.jobs && s.db.jobs[j].state == Queued
    ensures t == Step(s, Look(w, ts)) && Reached(t) && t.db == s.db && t.pending == s.pending && w in t.seen && j in t.seen[w]
  {
    hide *;
    HasRoom(s.db, w, j);
    IsReady(s.db, w, j);
    LookStep(s, w, ts);
    Then(s, Look(w, ts));
    t := Step(s, Look(w, ts));
  }

  lemma HasRoom(db: Db, w: WorkerId, j: JobId)
    requires Open(db, w, j)
    ensures FreeWorker(db, w)
  {
    SubsetCard(Busy(db, w), db.jobs.Keys);
    assert |db.jobs.Keys| == |db.jobs|;
  }

  lemma IsReady(db: Db, w: WorkerId, j: JobId)
    requires Open(db, w, j) && j in db.jobs && db.jobs[j].state == Queued
    ensures j in Runnable(db)
  {
    assert Ready(db, j);
  }

  lemma LookStep(s: Sys, w: WorkerId, ts: int)
    requires FreeWorker(s.db, w)
    ensures Step(s, Look(w, ts)) == Sys(s.db, s.seen[w := Runnable(s.db)], s.judged + Runnable(s.db), s.pending)
  {}

  function Launched(row: Job, w: WorkerId, ts: int): Job {
    row.(state := Running, worker := Some(w), lease := LeaseUntil(row, ts))
  }

  function Token(p: Pending, j: JobId, jtype: JobType): Pending { if jtype == TRIAGE then p.(run := p.run + multiset{j}) else p }

  function StartEvent(row: Job, w: WorkerId, j: JobId, ts: int): Event {
    Event(ts, Worker(w), JobStarted, JobSubject(j), Moved(Assigned, Running, false, row.Key(), row.attempt))
  }

  lemma Queues(s: Sys, j: JobId, ts: int) returns (t: Sys)
    requires Reached(s) && j in s.db.jobs && s.db.jobs[j].state in {Approved, Queued}
    ensures Reached(t) && OneRow(s, t, j, s.db.jobs[j].(state := Queued)) && Quietly(s, t) && t.pending == s.pending
  {
    hide Run, Step;
    if s.db.jobs[j].state == Queued {
      t := s;
      assert s.db.jobs[j := s.db.jobs[j].(state := Queued)] == s.db.jobs;
    } else {
      t := MoveNow(s, Enqueue(j, ts), Plain(j, Queued, SCHEDULER, Some(Approved), ts));
    }
  }

  lemma Claims(s: Sys, w: WorkerId, j: JobId, ts: int) returns (t: Sys)
    requires Reached(s) && Open(s.db, w, j) && j in s.db.jobs && s.db.jobs[j].state == Queued
    ensures Reached(t)
    ensures OneRow(s, t, j, s.db.jobs[j].(state := Assigned, worker := Some(w), lease := LeaseUntil(s.db.jobs[j], ts)))
    ensures Quietly(s, t) && t.pending == s.pending
  {
    hide Step, Reached, Runnable, Enabled, SingleMove, MoveRefusal, MovedRow, NextPending;
    var m := Looks(s, w, j, ts);
    ClaimGuard(m, w, j, ts);
    t := MoveNow(m, Claim(w, j, ts), Request(j, Assigned, Worker(w), Some(Queued), Some(w),
      LeaseUntil(s.db.jobs[j], ts), None, None, false, ts));
  }

  lemma ClaimGuard(s: Sys, w: WorkerId, j: JobId, ts: int)
    requires w in s.db.workers && w in s.seen && j in s.seen[w] && j in s.db.jobs && s.db.jobs[j].state == Queued
    ensures var a, q := Claim(w, j, ts),
      Request(j, Assigned, Worker(w), Some(Queued), Some(w), LeaseUntil(s.db.jobs[j], ts), None, None, false, ts);
      && Enabled(s, a) && SingleMove(s.db, a) == Some(q) && MoveRefusal(s.db, q).None? && NextPending(s, a) == s.pending
      && MovedRow(s.db.jobs[j], q) == s.db.jobs[j].(state := Assigned, worker := Some(w), lease := LeaseUntil(s.db.jobs[j], ts))
  {}

  lemma Starts(s: Sys, w: WorkerId, j: JobId, ts: int) returns (t: Sys)
    requires Reached(s) && j in s.db.jobs && s.db.jobs[j].state == Assigned
    ensures Reached(t) && OneRow(s, t, j, s.db.jobs[j].(state := Running, lease := LeaseUntil(s.db.jobs[j], ts)))
    ensures Quietly(s, t) && t.pending == Token(s.pending, j, s.db.jobs[j].jtype)
    ensures Logged(s, t, StartEvent(s.db.jobs[j], w, j, ts))
  {
    hide Run, Step;
    t := MoveNow(s, Start(w, j, ts), Plain(j, Running, Worker(w), Some(Assigned), ts).(lease := LeaseUntil(s.db.jobs[j], ts)));
  }

  // A job that may run is queued, claimed and started.
  lemma Launches(s: Sys, w: WorkerId, j: JobId, ts: int) returns (t: Sys)
    requires Reached(s) && Open(s.db, w, j) && j in s.db.jobs && s.db.jobs[j].state in {Approved, Queued}
    ensures Reached(t) && OneRow(s, t, j, Launched(s.db.jobs[j], w, ts)) && Quietly(s, t)
    ensures t.pending == Token(s.pending, j, s.db.jobs[j].jtype)
    ensures |t.db.log| > |s.db.log| && t.db.log[|t.db.log| - 1] == StartEvent(s.db.jobs[j], w, j, ts)
  {
    hide Reached, Quietly;
    var t1 := Queues(s, j, ts);
    assert |t1.db.jobs| == |s.db.jobs| by { assert t1.db.jobs.Keys == s.db.jobs.Keys; }
    var t2 := Claims(t1, w, j, ts);
    t := Starts(t2, w, j, ts);
    QuietThen(s, t1, t2);
    QuietThen(s, t2, t);
    Longer(s, t2);
  }

  lemma Longer(s: Sys, t: Sys)
    requires Quietly(s, t)
    ensures |s.db.log| <= |t.db.log|
  {}

  // A control loop makes a TRIAGE child of p and approves it.
  lemma MakesChild(s: Sys, p: JobId, tid: JobId, ts: int) returns (t: Sys)
    requires Reached(s) && p in s.pending.make && p in s.db.jobs && tid !in s.db.jobs
    ensures Reached(t) && OneRow(s, t, tid, Approved_(TriageJob(s.db.jobs[p], p, tid, ts))) && Quietly(s, t)
    ensures t.pending == s.pending.(make := s.pending.make - multiset{p})
  {
    hide Inv, MoveRefusal;
    hide Reached, Step, Run, WithJob, TriageJob;
    Then(s, MakeTriage(p, tid, ts));
    var m := Step(s, MakeTriage(p, tid, ts));
    Then(m, ApproveTriage(tid, ts));
    RunTwo(s, MakeTriage(p, tid, ts), ApproveTriage(tid, ts));
    ChildSteps(s, p, tid, ts);
    t := Run(s, ChildActs(p, tid, ts));
    ChildLog(s.db, TriageJob(s.db.jobs[p], p, tid, ts));
    IsTriage(s.db.jobs[p], p, tid, ts);
  }

  lemma ChildLog(db: Db, n: NewJob)
    ensures var b := WithJob(db, n);
      && b.jobs == db.jobs[n.id := Approved_(n)] && b.deps == db.deps && b.verdicts == db.verdicts
      && b.studies == db.studies && b.workers == db.workers
      && db.log <= b.log && forall i :: |db.log| <= i < |b.log| ==> !IsRerun(b.log[i]) && b.log[i].verb != JobFailed
  {}

  lemma Fails(s: Sys, w: WorkerId, j: JobId, permanent: bool, ts: int) returns (t: Sys)
    requires Reached(s) && j in s.db.jobs && s.db.jobs[j].state == Running && s.db.jobs[j].jtype == ANALYSIS
    ensures Reached(t) && OneRow(s, t, j, s.db.jobs[j].(state := Failed, lease := None)) && t.pending == s.pending
    ensures PermanentFailure(t.db.log, j) == permanent && (NoRerun(s.db.log) ==> NoRerun(t.db.log))
  {
    hide Step;
    hide Reached;
    var q := Plain(j, Failed, Worker(w), Some(Running), ts).(permanent := permanent);
    FailureGuard(s, w, j, permanent, ts);
    hide Enabled, SingleMove, MoveRefusal, MovedRow, NextPending;
    t := MoveNow(s, AnalysisDone(w, j, false, permanent, None, ts), q);
    FailurePush(s.db.log, MoveEvent(s.db.jobs[j], q), j);
  }

  lemma FailureGuard(s: Sys, w: WorkerId, j: JobId, permanent: bool, ts: int)
    requires j in s.db.jobs && s.db.jobs[j].state == Running && s.db.jobs[j].jtype == ANALYSIS
    ensures var a, q := AnalysisDone(w, j, false, permanent, None, ts),
      Plain(j, Failed, Worker(w), Some(Running), ts).(permanent := permanent);
      && Enabled(s, a) && SingleMove(s.db, a) == Some(q) && MoveRefusal(s.db, q).None? && NextPending(s, a) == s.pending
      && MovedRow(s.db.jobs[j], q) == s.db.jobs[j].(state := Failed, lease := None)
  {}

  lemma Flips(s: Sys, j: JobId, ts: int) returns (t: Sys)
    requires Reached(s) && j in s.db.jobs && s.db.jobs[j].state == Failed
    ensures t == Step(s, FlipTriage(j, ts)) && Reached(t) && OneRow(s, t, j, s.db.jobs[j].(state := Triage)) && Quietly(s, t)
    ensures t.pending == s.pending.(make := s.pending.make + multiset{j})
  {
    hide Run, Step;
    t := MoveNow(s, FlipTriage(j, ts), Plain(j, Triage, Agent, Some(Failed), ts));
  }

  lemma Reads(s: Sys, j: JobId, ts: int) returns (t: Sys)
    requires Reached(s) && j in OrphanJobs(s.db)
    ensures t == Step(s, ReadOrphan(j, ts)) && Reached(t) && t.db == s.db
    ensures t.pending == s.pending.(make := s.pending.make + multiset{j})
  {
    hide Reached, Step, Inv;
    Then(s, ReadOrphan(j, ts));
    ReadStep(s, j, ts);
    t := Step(s, ReadOrphan(j, ts));
  }

  lemma Finds(s: Sys, j: JobId, ts: int) returns (t: Sys)
    requires Reached(s) && Expired(s.db, j, ts)
    ensures Reached(t) && t.db == s.db && t.pending == s.pending.(reap := s.pending.reap + multiset{FindOf(s.db.jobs[j], j)})
  {
    hide Reached, Apply, NextSeen, Inv;
    Then(s, FindExpired(j, ts));
    t := Step(s, FindExpired(j, ts));
  }

  // A reaper requeues j on what it has read.
  lemma Reaps(s: Sys, j: JobId, ts: int) returns (t: Sys)
    requires Reached(s) && Find(j, true, false) in s.pending.reap && j in s.db.jobs && s.db.jobs[j].state == Running
    ensures Reached(t) && t.pending == s.pending.(reap := s.pending.reap - multiset{Find(j, true, false)}) && Quietly(s, t)
    ensures OneRow(s, t, j, s.db.jobs[j].(state := Queued, worker := None, lease := None, attempt := s.db.jobs[j].attempt + 1))
    ensures t == Step(s, Reap(j, true, false, ts))
  {
    hide Step;
    hide Reached;
    ReapGuard(s, j, ts);
    hide Enabled, SingleMove, MoveRefusal;
    t := MoveNow(s, Reap(j, true, false, ts), Plain(j, Queued, REAPER, Some(Running), ts));
  }

  lemma ReapGuard(s: Sys, j: JobId, ts: int)
    requires Find(j, true, false) in s.pending.reap && j in s.db.jobs && s.db.jobs[j].state == Running
    ensures var a, q := Reap(j, true, false, ts), Plain(j, Queued, REAPER, Some(Running), ts);
      && Enabled(s, a) && SingleMove(s.db, a) == Some(q) && MoveRefusal(s.db, q).None? && !Aside(a) && !Composite(a)
      && NextPending(s, a) == s.pending.(reap := s.pending.reap - multiset{Find(j, true, false)})
  {}

  lemma FindsAndReaps(s: Sys, j: JobId, ts: int) returns (t: Sys)
    requires Reached(s) && Expired(s.db, j, ts) && s.db.jobs[j].state == Running && !Exhausted(s.db.jobs[j])
    ensures Reached(t) && t.pending == s.pending && Quietly(s, t)
    ensures OneRow(s, t, j, s.db.jobs[j].(state := Queued, worker := None, lease := None, attempt := s.db.jobs[j].attempt + 1))
  {
    hide Step;
    hide Reached;
    var m := Finds(s, j, ts);
    t := Reaps(m, j, ts);
    assert s.pending.reap + multiset{Find(j, true, false)} - multiset{Find(j, true, false)} == s.pending.reap;
  }

  // The retry of p, approved as soon as it is made
  function Retry(row: Job, p: JobId, rid: JobId, ts: int): Job {
    NewRow(RetryJob(row, NO_POLICY, p, rid, None, ts)).(state := Approved)
  }

  // Triage makes a retry of p, and approves it.
  predicate WillRetry(db: Db, t: JobId, p: JobId) {
    && t in db.jobs && db.jobs[t].jtype == TRIAGE && db.jobs[t].payload == TriagePayload(p) && p in db.jobs
    && !PermanentFailure(db.log, p) && db.jobs[p].attempt < db.jobs[p].maxAttempts
    && AutoRetry(PolicyOf(db, db.jobs[p].study), db.jobs[p].attempt) && !PolicyOf(db, db.jobs[p].study).warmStart
  }

  lemma Respawns(db: Db, t: JobId, p: JobId, rid: JobId, ts: int)
    requires WillRetry(db, t, p) && rid !in db.jobs
    ensures var b := Respawned(db, p, rid, None, ts);
      && b.jobs == db.jobs[rid := Retry(db.jobs[p], p, rid, ts)] && b.deps == Requeued(db, p, rid) && b.verdicts == db.verdicts
      && b.studies == db.studies && b.workers == db.workers && db.log <= b.log
      && forall i :: |db.log| <= i < |b.log| ==> !IsRerun(b.log[i]) && b.log[i].verb != JobFailed
  {}

  lemma RunsTriage(s: Sys, w: WorkerId, t: JobId, p: JobId, rid: JobId, ts: int) returns (u: Sys)
    requires Reached(s) && t in s.pending.run && WillRetry(s.db, t, p) && s.db.jobs[p].state == Triage && rid !in s.db.jobs
    ensures Reached(u) && Quietly(s, u) && u.pending == s.pending.(run := s.pending.run - multiset{t}, ran := s.pending.ran + {t})
    ensures u.db.jobs == s.db.jobs[rid := Retry(s.db.jobs[p], p, rid, ts)][p := s.db.jobs[p].(state := RetrySpawned)]
    ensures u.db.deps == Requeued(s.db, p, rid) && u.db.verdicts == s.db.verdicts && u.db.studies == s.db.studies
    ensures u.db.workers == s.db.workers
  {
    hide AfterHalf;
    hide Reached, Step, Inv, Linked, Triaging, AfterTriage, Retry, PermanentFailure, AutoRetry, Requeued, WillRetry;
    var a := Act.RunTriage(w, t, rid, None, true, ts);
    Targets(s, t, p);
    Then(s, a);
    TriageMade(s, w, t, rid, None, ts);
    Superseded(s.db, t, p, rid, ts);
    u := Step(s, a);
  }

  lemma Targets(s: Sys, t: JobId, p: JobId)
    requires Reached(s) && WillRetry(s.db, t, p)
    ensures Linked(s.db) && Triaging(s.db, t) && s.db.jobs[t].payload.failedJob == p && p in s.db.jobs
    ensures Wanted(s.db, t) <==> s.db.jobs[p].state == Triage
  {
    hide Reached, Step, Inv;
    Then(s, DropRun(t, 0));
    InvParts(s);
  }

  lemma Superseded(db: Db, t: JobId, p: JobId, rid: JobId, ts: int)
    requires WillRetry(db, t, p) && db.jobs[p].state == Triage && rid !in db.jobs
    ensures var b := AfterTriage(db, p, rid, None, true, ts);
      && b.jobs == db.jobs[rid := Retry(db.jobs[p], p, rid, ts)][p := db.jobs[p].(state := RetrySpawned)]
      && b.deps == Requeued(db, p, rid)
      && b.verdicts == db.verdicts && b.studies == db.studies && b.workers == db.workers && db.log <= b.log
      && forall i :: |db.log| <= i < |b.log| ==> !IsRerun(b.log[i]) && b.log[i].verb != JobFailed
  {
    Respawns(db, t, p, rid, ts);
    var mid := Respawned(db, p, rid, None, ts);
    assert mid.jobs[p] == db.jobs[p];
    assert AfterTriage(db, p, rid, None, true, ts) == Resolved(mid, p, RetrySpawned, true, ts);
    hide Respawned, Requeued, Retry, PermanentFailure, AutoRetry, AfterTriage, TriageDecision;
    assert MovedRow(db.jobs[p], MoveTo(p, RetrySpawned, ts)) == db.jobs[p].(state := RetrySpawned);
  }

  lemma RunsHalf(s: Sys, w: WorkerId, t: JobId, p: JobId, rid: JobId, ts: int) returns (u: Sys)
    requires Reached(s) && t in s.pending.run && WillRetry(s.db, t, p) && s.db.jobs[p].state == RetrySpawned && rid !in s.db.jobs
    ensures Reached(u) && Quietly(s, u) && u.pending == s.pending.(run := s.pending.run - multiset{t})
    ensures u.db.jobs == s.db.jobs[rid := Retry(s.db.jobs[p], p, rid, ts)]
    ensures u.db.deps == Requeued(s.db, p, rid) && u.db.verdicts == s.db.verdicts && u.db.studies == s.db.studies
    ensures u.db.workers == s.db.workers
  {
    hide AfterTriage;
    hide Reached, Step, Inv, Linked, Triaging, Respawned, Requeued, Retry, PermanentFailure, AutoRetry, WillRetry, AfterHalf;
    var a := HalfTriage(w, t, rid, None, ALL, ts);
    Targets(s, t, p);
    Then(s, a);
    TriageMade(s, w, t, rid, None, ts);
    AllIsRespawned(s.db, t, p, rid, ts);
    Respawns(s.db, t, p, rid, ts);
    u := Step(s, a);
  }

  lemma AllIsRespawned(db: Db, t: JobId, p: JobId, rid: JobId, ts: int)
    requires WillRetry(db, t, p) && rid !in db.jobs
    ensures AfterHalf(db, p, rid, None, ALL, ts) == Respawned(db, p, rid, None, ts)
  {
    hide Respawned, PermanentFailure;
  }

  /******* Who started what *******/

  predicate StartedBy(log: seq<Event>, j: JobId, w: WorkerId) {
    exists i :: 0 <= i < |log| && log[i].verb == JobStarted && log[i].subject == JobSubject(j) && log[i].actor == Worker(w)
  }

  lemma StartShows(s: Sys, row: Job, w: WorkerId, j: JobId, ts: int)
    requires |s.db.log| > 0 && s.db.log[|s.db.log| - 1] == StartEvent(row, w, j, ts)
    ensures StartedBy(s.db.log, j, w)
  {
    assert s.db.log[|s.db.log| - 1].verb == JobStarted;
  }

  lemma StartStays(s: Sys, t: Sys, j: JobId, w: WorkerId)
    requires Quietly(s, t) && StartedBy(s.db.log, j, w)
    ensures StartedBy(t.db.log, j, w)
  {
    var i :| 0 <= i < |s.db.log| && s.db.log[i].verb == JobStarted && s.db.log[i].subject == JobSubject(j) &&
      s.db.log[i].actor == Worker(w);
    assert t.db.log[i] == s.db.log[i];
  }

  /******* The study *******/

  function Case1(n: int): Job {
    Job(0, ANALYSIS, Approved, 50, Resource(240, {"ocp"}, None), CasePayload("c", map[], None), None, None, 1, n + 1,
      None, None, None, 0)
  }

  function Check2(n: int): Job {
    Job(0, CHECK, Approved, 50, Resource(30, {}, None), PlainPayload, None, None, 1, n + 1, None, None, None, 0)
  }

  function Report3(): Job {
    Job(0, REPORT, Approved, 50, Resource(60, {}, None), PlainPayload, None, None, 1, 3, None, None, None, 0)
  }

  function Workers(): map<WorkerId, WorkerRow> {
    map[W := WorkerRow({"ocp"}, None, 100, Online, 0), V := WorkerRow({"ocp"}, None, 100, Online, 0)]
  }

  function Studies(n: int): map<StudyId, Study> { map[0 := Study(PlanApproved, PolicyWith(n))] }

  // A study with auto_retry_max = n and one case, its plan approved, and two workers
  ghost predicate OneCase(s: Sys, n: int) {
    && s.db.jobs == map[1 := Case1(n), 2 := Check2(n), 3 := Report3()] && s.db.deps == {Dep(2, 1), Dep(3, 2)}
    && s.db.verdicts == map[]
    && s.db.studies == Studies(n) && s.db.workers == Workers() && s.pending == INIT.pending && NoRerun(s.db.log)
  }

  // Nothing has happened but to the study and its jobs.
  ghost predicate Filing(s: Sys) {
    Reached(s) && s.pending == INIT.pending && NoRerun(s.db.log) && s.db.verdicts == map[] && s.db.workers == map[]
  }

  // The study is filed and decomposed, its plan and its jobs are approved, and two workers register.
  lemma SetUp(n: int) returns (s: Sys)
    ensures Reached(s) && OneCase(s, n)
  {
    hide Reached;
    var s2 := AddsCase(n);
    var s3 := AddsReport(s2, n);
    var s4 := ApprovesPlan(s3, n);
    var s5 := ApprovesJob(s4, 1);
    var s6 := ApprovesJob(s5, 2);
    var s7 := ApprovesJob(s6, 3);
    assert s7.db.jobs == map[1 := Case1(n), 2 := Check2(n), 3 := Report3()];
    var s8 := Registers(s7, W);
    s := Registers(s8, V);
  }

  lemma Submits(n: int) returns (s: Sys)
    ensures Filing(s) && s.db.jobs == map[] && s.db.deps == {} && s.db.studies == map[0 := Study(Draft, PolicyWith(n))]
  {
    var a := NewStudy(0, Human("owner"), PolicyWith(n), None, 0);
    FromNothing();
    Then(INIT, a);
    s := Step(INIT, a);
    Exec1(INIT.db, DoCreateStudy(0, Human("owner"), PolicyWith(n), None, 0));
    assert s.db == Db(map[], {}, map[], map[0 := Study(Draft, PolicyWith(n))], map[],
      [Event(0, Human("owner"), StudySubmitted, StudySubject(0), NoDetail)]);
  }

  lemma AddsCase(n: int) returns (t: Sys)
    ensures Filing(t) && t.db.studies == map[0 := Study(Draft, PolicyWith(n))] && t.db.deps == {Dep(2, 1)}
    ensures t.db.jobs == map[1 := Case1(n).(state := Proposed), 2 := Check2(n).(state := Proposed)]
  {
    hide Ops, Exec, NextSeen, Inv;
    hide Reached;
    var s := Submits(n);
    var a := AddCase(0, "c", map[], "ocp", 1, 2, 0);
    assert Enabled(s, a);
    CaseEffect(s, a);
    Then(s, a);
    StepFrame(s, a);
    t := Step(s, a);
  }

  lemma AddsReport(s: Sys, n: int) returns (t: Sys)
    requires Filing(s) && s.db.studies == map[0 := Study(Draft, PolicyWith(n))] && s.db.deps == {Dep(2, 1)}
    requires s.db.jobs == map[1 := Case1(n).(state := Proposed), 2 := Check2(n).(state := Proposed)]
    ensures Filing(t) && t.db.studies == map[0 := Study(PlanProposed, PolicyWith(n))] && t.db.deps == {Dep(2, 1), Dep(3, 2)}
    ensures t.db.jobs == map[1 := Case1(n).(state := Proposed), 2 := Check2(n).(state := Proposed),
      3 := Report3().(state := Proposed)]
  {
    hide Ops, Exec, NextSeen, Inv;
    hide Reached;
    var a := AddReport(0, [2], 3, 0);
    ReportGuard(s, n);
    Then(s, a);
    ReportEffect(s, a);
    StepFrame(s, a);
    t := Step(s, a);
    hide Step, Enabled;
    Filed(s.db, n);
  }

  lemma ReportGuard(s: Sys, n: int)
    requires s.db.studies == map[0 := Study(Draft, PolicyWith(n))]
    requires s.db.jobs == map[1 := Case1(n).(state := Proposed), 2 := Check2(n).(state := Proposed)]
    ensures Enabled(s, AddReport(0, [2], 3, 0))
  {}

  lemma Filed(db: Db, n: int)
    requires db.studies == map[0 := Study(Draft, PolicyWith(n))] && db.deps == {Dep(2, 1)} && NoRerun(db.log)
    requires db.jobs == map[1 := Case1(n).(state := Proposed), 2 := Check2(n).(state := Proposed)]
    ensures var b := AfterReport(db, AddReport(0, [2], 3, 0));
      && b.studies == map[0 := Study(PlanProposed, PolicyWith(n))] && b.deps == {Dep(2, 1), Dep(3, 2)} && NoRerun(b.log)
      && b.jobs == map[1 := Case1(n).(state := Proposed), 2 := Check2(n).(state := Proposed), 3 := Report3().(state := Proposed)]
  {}

  lemma MovesStudy(s: Sys, a: Act, q: StudyRequest) returns (t: Sys)
    requires Reached(s) && Enabled(s, a) && Aside(a) && Ops(s, a) == [DoMoveStudy(q)] && StudyRefusal(s.db, q).None?
    ensures t == Step(s, a) && Reached(t) && t.db.jobs == s.db.jobs && t.db.deps == s.db.deps && t.db.verdicts == s.db.verdicts
    ensures t.db.workers == s.db.workers && t.db.studies == s.db.studies[q.study := s.db.studies[q.study].(status := q.to)]
    ensures t.pending == NextPending(s, a) && (NoRerun(s.db.log) ==> NoRerun(t.db.log))
  {
    hide Exec, NextSeen, Inv, SingleMove, Move;
    hide Reached;
    Then(s, a);
    Exec1(s.db, DoMoveStudy(q));
    t := Step(s, a);
    hide Ops, Enabled;
  }

  lemma ApprovesPlan(s: Sys, n: int) returns (t: Sys)
    requires Filing(s) && s.db.studies == map[0 := Study(PlanProposed, PolicyWith(n))]
    ensures Filing(t) && t.db.studies == Studies(n) && t.db.jobs == s.db.jobs && t.db.deps == s.db.deps
  {
    hide Reached;
    t := MovesStudy(s, HumanStudy(0, PlanApproved, "owner", 0), StudyRequest(0, PlanApproved, Human("owner"), None, 0));
  }

  lemma ApprovesJob(s: Sys, j: JobId) returns (t: Sys)
    requires Filing(s) && j in s.db.jobs && s.db.jobs[j].state == Proposed
    ensures Filing(t) && OneRow(s, t, j, s.db.jobs[j].(state := Approved))
  {
    hide Step;
    hide Reached;
    ApprovalGuard(s, j);
    hide Enabled, SingleMove, MoveRefusal, MovedRow;
    t := MoveNow(s, HumanMove(j, Approved, "owner", 0), Plain(j, Approved, Human("owner"), None, 0));
  }

  lemma ApprovalGuard(s: Sys, j: JobId)
    requires j in s.db.jobs && s.db.jobs[j].state == Proposed
    ensures var a, q := HumanMove(j, Approved, "owner", 0), Plain(j, Approved, Human("owner"), None, 0);
      && Enabled(s, a) && SingleMove(s.db, a) == Some(q) && MoveRefusal(s.db, q).None? && NextPending(s, a) == s.pending
      && MovedRow(s.db.jobs[j], q) == s.db.jobs[j].(state := Approved) && !IsRerun(MoveEvent(s.db.jobs[j], q))
  {}

  lemma Registers(s: Sys, w: WorkerId) returns (t: Sys)
    requires Reached(s)
    ensures Reached(t) && t.db.jobs == s.db.jobs && t.db.deps == s.db.deps && t.db.verdicts == s.db.verdicts
    ensures t.db.studies == s.db.studies
    ensures t.db.workers == s.db.workers[w := WorkerRow({"ocp"}, None, 100, Online, 0)] && t.pending == s.pending
    ensures NoRerun(s.db.log) ==> NoRerun(t.db.log)
  {
    var a := Act.Register(w, {"ocp"}, None, 100, 0);
    Then(s, a);
    OneRegister(s, w, {"ocp"}, None, 100, 0);
    t := Step(s, a);
    hide Step, Reached;
  }

  // The ANALYSIS job of the case after its first run has failed
  function Failed1(n: int, state: JobState): Job { Case1(n).(state := state, worker := Some(W)) }

  // What does not change any more: the study, the workers, what the log says about job 1
  ghost predicate Setting(s: Sys, n: int, permanent: bool) {
    && s.db.studies == Studies(n) && s.db.workers == Workers()
    && s.db.verdicts == map[] && NoRerun(s.db.log) && PermanentFailure(s.db.log, 1) == permanent
  }

  lemma SettingStays(s: Sys, t: Sys, n: int, permanent: bool)
    requires Setting(s, n, permanent) && Quietly(s, t)
    requires t.db.studies == s.db.studies && t.db.workers == s.db.workers && t.db.verdicts == s.db.verdicts
    ensures Setting(t, n, permanent)
  {
    QuietFailure(s, t, 1);
    hide Quietly, PermanentFailure;
  }

  // The edges of the study; jobs without one may run as long as the workers have room.
  function Edges(): set<Dep> { {Dep(2, 1), Dep(3, 2)} }

  lemma FailsOnce(n: int, permanent: bool) returns (s: Sys)
    ensures Reached(s) && Setting(s, n, permanent) && s.pending == INIT.pending
    ensures s.db.jobs == map[1 := Failed1(n, Failed), 2 := Check2(n), 3 := Report3()] && s.db.deps == Edges()
  {
    hide Reached, Quietly, PermanentFailure;
    var s0 := SetUp(n);
    var s1 := Launches(s0, W, 1, 0);
    QuietFailure(s0, s1, 1);
    s := Fails(s1, W, 1, permanent, 0);
    assert s.db.jobs[1] == Failed1(n, Failed);
  }

  function TriageChild(n: int, tid: JobId): Job { Approved_(TriageJob(Failed1(n, Triage), 1, tid, 0)) }

  lemma FlipsAndReads(n: int, permanent: bool) returns (s: Sys)
    ensures Reached(s) && Setting(s, n, permanent) && s.pending == INIT.pending.(make := multiset{1, 1})
    ensures s.db.jobs == map[1 := Failed1(n, Triage), 2 := Check2(n), 3 := Report3()] && s.db.deps == Edges()
  {
    hide Step;
    hide Reached, Quietly, Setting;
    var s0 := FailsOnce(n, permanent);
    var s1 := Flips(s0, 1, 0);
    SettingStays(s0, s1, n, permanent);
    assert s1.db.jobs == map[1 := Failed1(n, Triage), 2 := Check2(n), 3 := Report3()];
    s := Reads(s1, 1, 0);
    Unheard(s1, s, n, permanent);
    assert multiset{} + multiset{1} + multiset{1} == multiset{1, 1};
  }

  lemma Unheard(s: Sys, t: Sys, n: int, permanent: bool)
    requires Setting(s, n, permanent) && t.db == s.db
    ensures Setting(t, n, permanent)
  {}
}
