/**
 run_triage over the store: decide what becomes of the failed job, create and link its retry, move it, log the decision.
 If the job is not in triage any more the move is refused and the call raises, but the retry is there.
 */
module TriageRun {
  import opened Wrappers
  import opened Rows
  import opened Sets
  import opened Substrate
  import opened Protocol
  import opened Effects
  import opened Structure
  import opened Readiness
  import opened Storage
  import Columns

  // _last_failure_payload(...).get("permanent"): the newest job.failed event of the job
  method LastFailureIsPermanent(log: seq<Event>, j: JobId) returns (permanent: bool)
    ensures permanent == PermanentFailure(log, j)
  {
    var n := |log|;
    assert log[..n] == log;
    while n > 0
      invariant 0 <= n <= |log| && PermanentFailure(log, j) == PermanentFailure(log[..n], j)
    {
      var e := log[n - 1];
      assert log[..n][..n - 1] == log[..n - 1];
      if e.subject == JobSubject(j) && e.verb == JobFailed { return e.detail.Moved? && e.detail.permanent; }
      n := n - 1;
    }
    return false;
  }

  lemma {:induction false} LastFailure(log: seq<Event>, j: JobId, n: nat)
    requires n < |log| && log[n].subject == JobSubject(j) && log[n].verb == JobFailed
    requires forall i :: n < i < |log| ==> !(log[i].subject == JobSubject(j) && log[i].verb == JobFailed)
    ensures PermanentFailure(log, j) == (log[n].detail.Moved? && log[n].detail.permanent)
  {
    if n < |log| - 1 {
      LastFailure(log[..|log| - 1], j, n);
    }
  }

  // A job that never failed has not failed for good.
  lemma {:induction false} NoFailure(log: seq<Event>, j: JobId)
    requires forall i :: 0 <= i < |log| ==> !(log[i].subject == JobSubject(j) && log[i].verb == JobFailed)
    ensures !PermanentFailure(log, j)
  {
    if log != [] {
      NoFailure(log[..|log| - 1], j);
    }
  }

  predicate Converged(row: Job, study: StudyId) {
    row.study == study && row.jtype == ANALYSIS && row.state in {Succeeded, Accepted} && row.runRef.Some?
  }

  // The column state_updated_at: the time of the job's last transition, or of its creation
  function UpdatedAt(log: seq<Event>, j: JobId, row: Job): int {
    if log == [] then row.createdAt
    else if log[|log| - 1].Moves(j) then log[|log| - 1].ts
    else UpdatedAt(log[..|log| - 1], j, row)
  }

  lemma {:induction false} LastUpdate(log: seq<Event>, j: JobId, row: Job, n: nat)
    requires n < |log| && log[n].detail.Moved? && log[n].subject == JobSubject(j)
    requires forall i :: n < i < |log| ==> !(log[i].detail.Moved? && log[i].subject == JobSubject(j))
    ensures UpdatedAt(log, j, row) == log[n].ts
  {
    if n < |log| - 1 {
      LastUpdate(log[..|log| - 1], j, row, n);
    }
  }

  lemma {:induction false} NeverUpdated(log: seq<Event>, j: JobId, row: Job)
    requires forall i :: 0 <= i < |log| ==> !(log[i].detail.Moved? && log[i].subject == JobSubject(j))
    ensures UpdatedAt(log, j, row) == row.createdAt
  {
    if log != [] {
      NeverUpdated(log[..|log| - 1], j, row);
    }
  }

  predicate Latest(jobs: map<JobId, Job>, log: seq<Event>, study: StudyId, j: JobId) {
    && j in jobs && Converged(jobs[j], study)
    && forall k <- jobs :: Converged(jobs[k], study) ==> UpdatedAt(log, k, jobs[k]) <= UpdatedAt(log, j, jobs[j])
  }

  // _nearest_converged_run: the run of the converged sibling that was updated last
  method NearestConvergedRun(store: Store, study: StudyId) returns (run: Option<RunRef>)
    ensures WarmRun(store.jobs, store.log, study, run)
  {
    var found := set j | j in store.jobs && Converged(store.jobs[j], study);
    if found == {} {
      forall j <- store.jobs ensures !Converged(store.jobs[j], study) { assert j !in found; }
      return None;
    }
    var j := Choose(found);
    var todo := found - {j};
    while todo != {}
      invariant todo <= found && j in found
      invariant forall k <- found :: k in todo || UpdatedAt(store.log, k, store.jobs[k]) <= UpdatedAt(store.log, j, store.jobs[j])
    {
      var k := Choose(todo);
      todo := todo - {k};
      if UpdatedAt(store.log, k, store.jobs[k]) > UpdatedAt(store.log, j, store.jobs[j]) { j := k; }
    }
    assert Latest(store.jobs, store.log, study, j) by {
      forall k <- store.jobs | Converged(store.jobs[k], study)
        ensures UpdatedAt(store.log, k, store.jobs[k]) <= UpdatedAt(store.log, j, store.jobs[j]) { assert k in found; }
    }
    return store.jobs[j].runRef;
  }

  // The run to warm up from: that of the ANALYSIS of the study that was updated last, of those that succeeded or were accepted
  // and have a run; None if there is none
  ghost predicate WarmRun(jobs: map<JobId, Job>, log: seq<Event>, study: StudyId, run: Option<RunRef>) {
    if run.Some? then
      exists j <- jobs ::
        && jobs[j].study == study && jobs[j].jtype == ANALYSIS && jobs[j].state in {Succeeded, Accepted} && jobs[j].runRef == run
        && forall k <- jobs ::
          && jobs[k].study == study && jobs[k].jtype == ANALYSIS
          && jobs[k].state in {Succeeded, Accepted} && jobs[k].runRef.Some?
          ==>
            UpdatedAt(log, k, jobs[k]) <= UpdatedAt(log, j, jobs[j])
    else
      forall j <- jobs ::
        !(jobs[j].study == study && jobs[j].jtype == ANALYSIS && jobs[j].state in {Succeeded, Accepted} && jobs[j].runRef.Some?)
  }

  // The row of p's retry. It may run at once while the attempt of p is within auto_retry_max, and a human approves it
  // otherwise; a case warms up if its study says so, and else as p did.
  ghost predicate IsRetry(jobs: map<JobId, Job>, log: seq<Event>, policy: Policy, p: JobId, row: Job, now: int)
    requires p in jobs
  {
    var parent := jobs[p];
    && row.study == parent.study && row.jtype == parent.jtype && row.parent == Some(p) && row.createdAt == now
    && row.priority == parent.priority && row.resource == parent.resource
    && row.attempt == parent.attempt + 1 && row.maxAttempts == parent.maxAttempts
    && row.worker == None && row.lease == None && row.runRef == None && row.verdict == None
    && (row.state == Approved || row.state == Proposed)
    && (row.state == Approved <==> parent.attempt <= if policy.autoRetryMax.Some? then policy.autoRetryMax.value else 0)
    && (policy.warmStart && parent.payload.CasePayload? ==>
          && row.payload.CasePayload? && WarmRun(jobs, log, parent.study, row.payload.warmStart)
          && row.payload.caseId == parent.payload.caseId && row.payload.overrides == parent.payload.overrides)
    && (!(policy.warmStart && parent.payload.CasePayload?) ==> row.payload == parent.payload)
  }

  method SpawnRetry(store: Store, p: JobId, now: int) returns (rid: JobId, warm: Option<RunRef>)
    requires Linked(store.Db()) && store.Fresh() && p in store.jobs
    modifies store`jobs, store`deps, store`log, store`nextId
    ensures store.Fresh() && rid == old(store.nextId) && store.Db() == Respawned(old(store.Db()), p, rid, warm, now)
    ensures old(store.jobs)[p].study in store.studies && rid in store.jobs
    ensures var policy := store.studies[old(store.jobs)[p].study].policy;
      && (if policy.warmStart then WarmRun(old(store.jobs), old(store.log), old(store.jobs)[p].study, warm) else warm == None)
      && IsRetry(old(store.jobs), old(store.log), policy, p, store.jobs[rid], now)
    ensures Columns.Rehung(old(store.deps), store.deps, p, rid)
  {
    hide Linked, RetryJob, CreateJob, Repoint, Move, Respawned, IsRetry, WarmRun, Columns.Rehung;
    ghost var db := store.Db();
    HasStudy(db, p);
    var row, policy := store.jobs[p], PolicyOf(store.Db(), store.jobs[p].study);
    var auto := AutoRetry(policy, row.attempt);
    warm := None;
    if policy.warmStart {
      warm := NearestConvergedRun(store, row.study);
    }
    RetryCalls(db, p, store.nextId, warm, now);
    RetryDraft(row, policy, p, store.nextId, warm, now);
    var refusal;
    rid, refusal := store.NewJob(RetryJob(row, policy, p, store.nextId, warm, now));
    store.Redirect(p, rid);
    if auto {
      MoveFrame(store.Db(), Plain(rid, Approved, Agent, None, now));
      refusal := store.Transition(Plain(rid, Approved, Agent, None, now));
    }
    RetryIsRetry(db, p, rid, warm, now);
  }

  lemma HasStudy(db: Db, p: JobId)
    requires Linked(db) && p in db.jobs
    ensures db.jobs[p].study in db.studies && PolicyOf(db, db.jobs[p].study) == db.studies[db.jobs[p].study].policy
  {}

  lemma RetryIsRetry(db: Db, p: JobId, rid: JobId, warm: Option<RunRef>, now: int)
    requires p in db.jobs && rid !in db.jobs && db.jobs[p].study in db.studies
    requires db.studies[db.jobs[p].study].policy.warmStart ==> WarmRun(db.jobs, db.log, db.jobs[p].study, warm)
    ensures var b := Respawned(db, p, rid, warm, now);
      rid in b.jobs && b.studies == db.studies && Columns.Rehung(db.deps, b.deps, p, rid)
      && IsRetry(db.jobs, db.log, db.studies[db.jobs[p].study].policy, p, b.jobs[rid], now)
  {
    hide WarmRun;
  }

  lemma RetryDraft(row: Job, policy: Policy, p: JobId, rid: JobId, warm: Option<RunRef>, ts: int)
    ensures RetryJob(row, policy, p, rid, warm, ts).(id := rid) == RetryJob(row, policy, p, rid, warm, ts)
  {}

  // What the retry, when there is one, leaves: p as it was, and its transition out of triage still to come
  lemma Decides(db: Db, p: JobId, rid: JobId, warm: Option<RunRef>, to: JobState, ts: int)
    requires p in db.jobs && rid !in db.jobs && to == TriageDecision(db, p)
    ensures var mid := if to == RetrySpawned then Respawned(db, p, rid, warm, ts) else db;
      && p in mid.jobs && mid.jobs[p] == db.jobs[p] && mid.jobs.Keys == db.jobs.Keys + (if to == RetrySpawned then {rid} else {})
      && MoveRefusal(mid, MoveTo(p, to, ts)) == (if db.jobs[p].state == Triage then None else Some(StaleState))
      && (db.jobs[p].state == Triage ==>
        LogDecision(Move(mid, MoveTo(p, to, ts)), p, ts) == AfterTriage(db, p, rid, warm, true, ts))
      && (db.jobs[p].state != Triage ==> Move(mid, MoveTo(p, to, ts)) == AfterHalf(db, p, rid, warm, ALL, ts))
  {
    hide Respawned, PermanentFailure, Resolved, MoveRefusal, Move, LogDecision;
    RespawnKeepsRow(db, p, rid, warm, ts);
    RespawnKeys(db, p, rid, warm, ts);
    var mid := if to == RetrySpawned then Respawned(db, p, rid, warm, ts) else db;
    DecidedRefusal(db, mid, p, to, ts);
    MoveFrame(mid, MoveTo(p, to, ts));
    HalfIsAll(db, p, rid, warm, ts);
    hide AfterHalf;
    if db.jobs[p].state == Triage {
      DecisionIs(db, p);
      LastCalls(mid, p, to, ts);
    }
    hide TriageDecision;
  }

  // What the decision on p is and what it leaves: a permanent failure is infeasible, another without attempts left escalated,
  // and the rest is retried, with the edges that led to p; p itself is moved unless it is no longer in triage.
  ghost predicate Ruled(a: Db, b: Db, p: JobId, rid: JobId, outcome: JobState, raised: bool, now: int) {
    && p in a.jobs && p in b.jobs && a.jobs[p].study in a.studies && rid !in a.jobs
    && outcome in {Infeasible, Escalated, RetrySpawned}
    && (outcome == Infeasible <==> PermanentFailure(a.log, p))
    && (outcome == Escalated <==> !PermanentFailure(a.log, p) && a.jobs[p].attempt >= a.jobs[p].maxAttempts)
    && b.jobs.Keys == a.jobs.Keys + (if outcome == RetrySpawned then {rid} else {})
    && (raised <==> a.jobs[p].state != Triage)
    && b.jobs[p] == (if raised then a.jobs[p] else a.jobs[p].(state := outcome))
    && (forall j <- a.jobs :: j != p ==> b.jobs[j] == a.jobs[j])
    && (!raised ==> |b.log| > 0 && b.log[|b.log| - 1] == Event(now, Agent, DecisionLogged, JobSubject(p), NoDetail))
    && if outcome == RetrySpawned
       then IsRetry(a.jobs, a.log, a.studies[a.jobs[p].study].policy, p, b.jobs[rid], now)
            && Columns.Rehung(a.deps, b.deps, p, rid)
       else b.deps == a.deps
  }

  lemma RuledIs(db: Db, mid: Db, p: JobId, rid: JobId, to: JobState, ts: int)
    requires p in db.jobs && db.jobs[p].study in db.studies && rid !in db.jobs && to == TriageDecision(db, p)
    requires p in mid.jobs && mid.jobs[p] == db.jobs[p]
    requires mid.jobs.Keys == db.jobs.Keys + (if to == RetrySpawned then {rid} else {})
    requires forall j <- db.jobs :: mid.jobs[j] == db.jobs[j]
    requires if to == RetrySpawned
      then IsRetry(db.jobs, db.log, db.studies[db.jobs[p].study].policy, p, mid.jobs[rid], ts)
           && Columns.Rehung(db.deps, mid.deps, p, rid)
      else mid.deps == db.deps
    ensures var b, raised := Move(mid, MoveTo(p, to, ts)), db.jobs[p].state != Triage;
      Ruled(db, if raised then b else LogDecision(b, p, ts), p, rid, to, raised, ts)
  {
    hide IsRetry, Columns.Rehung, PermanentFailure, TriageDecision;
    DecisionIs(db, p);
  }

  // The retry changes no row there is.
  lemma RetryKeepsRows(db: Db, p: JobId, rid: JobId, warm: Option<RunRef>, to: JobState, ts: int)
    requires p in db.jobs && rid !in db.jobs && to == TriageDecision(db, p)
    ensures to in {RetrySpawned, Infeasible, Escalated}
    ensures var mid := if to == RetrySpawned then Respawned(db, p, rid, warm, ts) else db;
      forall j <- db.jobs :: j in mid.jobs && mid.jobs[j] == db.jobs[j]
  {
    hide Respawned, TriageDecision;
    RespawnKeepsRow(db, p, rid, warm, ts);
    DecisionIs(db, p);
  }

  lemma DecisionIs(db: Db, p: JobId)
    requires p in db.jobs
    ensures TriageDecision(db, p) in {RetrySpawned, Infeasible, Escalated}
    ensures TriageDecision(db, p) == if PermanentFailure(db.log, p) then Infeasible
      else if db.jobs[p].attempt >= db.jobs[p].maxAttempts then Escalated
      else RetrySpawned
  {}

  lemma DecidedRefusal(db: Db, mid: Db, p: JobId, to: JobState, ts: int)
    requires p in db.jobs && p in mid.jobs && mid.jobs[p] == db.jobs[p] && to == TriageDecision(db, p)
    ensures MoveRefusal(mid, MoveTo(p, to, ts)) == (if db.jobs[p].state == Triage then None else Some(StaleState))
  {
    DecisionIs(db, p);
    hide TriageDecision;
  }

  lemma HalfIsAll(db: Db, p: JobId, rid: JobId, warm: Option<RunRef>, ts: int)
    requires p in db.jobs && rid !in db.jobs
    ensures AfterHalf(db, p, rid, warm, ALL, ts) ==
      if TriageDecision(db, p) == RetrySpawned then Respawned(db, p, rid, warm, ts) else db
  {
    hide TriageDecision, Respawned;
  }

  lemma RespawnKeys(db: Db, p: JobId, rid: JobId, warm: Option<RunRef>, ts: int)
    requires p in db.jobs
    ensures Respawned(db, p, rid, warm, ts).jobs.Keys == db.jobs.Keys + {rid}
  {}

  lemma LastCalls(mid: Db, p: JobId, to: JobState, ts: int)
    requires p in mid.jobs && mid.jobs[p].state == Triage && to in {RetrySpawned, Infeasible, Escalated}
    ensures LogDecision(Move(mid, MoveTo(p, to, ts)), p, ts) == Resolved(mid, p, to, true, ts)
  {
    hide Exec, Apply;
    ResolvedIsExec(mid, p, to, true, ts);
    assert [DoMove(MoveTo(p, to, ts))] + [DoLogDecision(p, ts)] == [DoMove(MoveTo(p, to, ts)), DoLogDecision(p, ts)];
    Exec2(mid, DoMove(MoveTo(p, to, ts)), DoLogDecision(p, ts));
    hide Move, LogDecision, Resolved;
  }

  // It asks for a failed parent in 'triage', but finds out only after it has made the retry.
  method RunTriageJob(store: Store, t: JobId, now: int)
    returns (raised: bool, outcome: JobState, rid: JobId, warm: Option<RunRef>)
    requires Linked(store.Db()) && store.Fresh() && Triaging(store.Db(), t)
    modifies store`jobs, store`deps, store`log, store`nextId
    ensures store.Fresh() && rid == old(store.nextId) && rid !in old(store.jobs)
    ensures var p := old(store.jobs)[t].payload.failedJob;
      && outcome == TriageDecision(old(store.Db()), p) && (raised <==> old(store.jobs)[p].state != Triage)
      && store.Db() == if raised then AfterHalf(old(store.Db()), p, rid, warm, ALL, now)
        else AfterTriage(old(store.Db()), p, rid, warm, true, now)
    ensures Ruled(old(store.Db()), store.Db(), old(store.jobs)[t].payload.failedJob, rid, outcome, raised, now)
  {
    hide Linked, Move, Respawned, MoveRefusal, LogDecision, AfterTriage, AfterHalf, PermanentFailure, AutoRetry, Requeued;
    hide IsRetry, WarmRun, Columns.Rehung, TriageDecision, Ruled;
    ghost var db := store.Db();
    var p := store.jobs[t].payload.failedJob;
    HasStudy(db, p);
    DecisionIs(db, p);
    var permanent := LastFailureIsPermanent(store.log, p);
    rid, warm := store.nextId, None;
    if permanent {
      outcome := Infeasible;
    } else if store.jobs[p].attempt >= store.jobs[p].maxAttempts {
      outcome := Escalated;
    } else {
      outcome := RetrySpawned;
      rid, warm := SpawnRetry(store, p, now);
    }
    Decides(db, p, rid, warm, outcome, now);
    RetryKeepsRows(db, p, rid, warm, outcome, now);
    RuledIs(db, store.Db(), p, rid, outcome, now);
    MoveFrame(store.Db(), MoveTo(p, outcome, now));
    var refusal := store.Transition(Plain(p, outcome, Agent, Some(Triage), now));
    raised := refusal.Some?;
    if raised { return; }
    store.Decide(p, now);
  }
}
