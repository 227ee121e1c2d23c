/**
 The write surface and the phases of a control tick in the words of the tables: which rows a query selects and what its
 update makes of their columns. No predicate here uses the functions the model computes with; the lemmas below, and the
 methods and lemmas elsewhere that promise these relations, tie the two together.
 */
module Columns {
  import opened Wrappers
  import opened Rows
  import opened Substrate

  type Jobs = map<JobId, Job>

  /******* The tables of the two state machines *******/

  const JOB_TRANSITIONS: set<(JobState, JobState, Verb)> := {
    (Proposed, Approved, JobApproved),
    (Approved, Queued, JobEnqueued),
    (Queued, Assigned, JobClaimed),
    (Assigned, Running, JobStarted),
    (Running, Succeeded, JobSucceeded),
    (Running, Failed, JobFailed),
    (Assigned, Failed, JobFailed),
    (Succeeded, Accepted, JobAccepted),
    (Succeeded, Review, JobReviewRequested),
    (Review, Accepted, JobAccepted),
    (Review, Rejected, JobRejected),
    (Failed, Triage, JobTriageStarted),
    (Triage, RetrySpawned, JobRetried),
    (Triage, Infeasible, JobInfeasible),
    (Triage, Escalated, JobEscalated),
    (Assigned, Queued, JobLeaseExpired),
    (Running, Queued, JobLeaseExpired),
    (Escalated, Queued, JobEnqueued),
    (Escalated, Cancelled, JobCancelled),
    (Escalated, Infeasible, JobInfeasible),
    (Proposed, Cancelled, JobCancelled),
    (Approved, Cancelled, JobCancelled),
    (Queued, Cancelled, JobCancelled),
    (Assigned, Cancelled, JobCancelled)}

  const JOB_HUMAN_REQUIRED: set<(JobState, JobState)> := {
    (Review, Accepted), (Review, Rejected), (Escalated, Queued), (Escalated, Cancelled), (Escalated, Infeasible)}

  const JOB_HUMAN_OR_MACHINE: set<(JobState, JobState)> := {
    (Proposed, Approved), (Succeeded, Accepted), (Proposed, Cancelled), (Approved, Cancelled), (Queued, Cancelled),
    (Assigned, Cancelled)}

  const STUDY_TRANSITIONS: set<(StudyStatus, StudyStatus, Verb)> := {
    (Draft, PlanProposed, StudyPlanProposed),
    (PlanProposed, PlanApproved, StudyApproved),
    (PlanApproved, InProgress, StudyStarted),
    (InProgress, InReview, StudyReviewReady),
    (InReview, Closed, StudyClosed),
    (Draft, Aborted, StudyAborted),
    (PlanProposed, Aborted, StudyAborted),
    (PlanApproved, Aborted, StudyAborted),
    (InProgress, Aborted, StudyAborted),
    (InReview, Aborted, StudyAborted)}

  const STUDY_HUMAN_REQUIRED: set<(StudyStatus, StudyStatus)> := {
    (PlanProposed, PlanApproved), (InReview, Closed), (Draft, Aborted), (PlanProposed, Aborted), (PlanApproved, Aborted),
    (InProgress, Aborted), (InReview, Aborted)}

  lemma JobTable(from: JobState, to: JobState, verb: Verb)
    ensures JobVerb(from, to) == Some(verb) <==> (from, to, verb) in JOB_TRANSITIONS
  {
    if JobVerb(from, to) == Some(verb) { InTable(from, to, verb); } else { NotInTable(from, to, verb); }
    hide JobVerb, JOB_TRANSITIONS;
  }

  lemma InTable(from: JobState, to: JobState, verb: Verb)
    requires JobVerb(from, to) == Some(verb)
    ensures (from, to, verb) in JOB_TRANSITIONS
  {}

  lemma NotInTable(from: JobState, to: JobState, verb: Verb)
    requires JobVerb(from, to) != Some(verb)
    ensures (from, to, verb) !in JOB_TRANSITIONS
  {}

  lemma JobActors(actor: Actor, from: JobState, to: JobState)
    ensures ActorMay(actor, from, to) <==>
      (from, to) in JOB_HUMAN_OR_MACHINE || (actor.Human? <==> (from, to) in JOB_HUMAN_REQUIRED)
  {}

  lemma StudyTable(from: StudyStatus, to: StudyStatus, verb: Verb)
    ensures StudyVerb(from, to) == Some(verb) <==> (from, to, verb) in STUDY_TRANSITIONS
  {}

  lemma StudyActors(actor: Actor, from: StudyStatus, to: StudyStatus)
    requires StudyVerb(from, to).Some?
    ensures StudyActorMay(actor, from, to) <==> (actor.Human? <==> (from, to) in STUDY_HUMAN_REQUIRED)
  {}

  // The terminal states are those no move leads out of.
  lemma TerminalIff(from: JobState)
    ensures Terminal(from) <==> forall to, verb :: (from, to, verb) !in JOB_TRANSITIONS
  {}

  /******* transition *******/

  // Why the call raises: the first of the source's checks that fails
  ghost predicate Refused(jobs: Jobs, workers: map<WorkerId, WorkerRow>, q: Request, refusal: Option<Refusal>) {
    && (refusal == Some(MalformedActor) <==> q.actor.Malformed?)
    && (refusal == Some(JobNotFound) <==> !q.actor.Malformed? && q.job !in jobs)
    && (!q.actor.Malformed? && q.job in jobs ==>
          var from := jobs[q.job].state;
          var stale := q.expected.Some? && q.expected.value != from;
          var illegal := forall verb :: (from, q.to, verb) !in JOB_TRANSITIONS;
          var barred := (from, q.to) !in JOB_HUMAN_OR_MACHINE && !(q.actor.Human? <==> (from, q.to) in JOB_HUMAN_REQUIRED);
          var incomplete := from == Queued && q.to == Assigned && (q.worker.None? || q.lease.None?);
          var unknown := from == Queued && q.to == Assigned && q.worker.Some? && q.worker.value !in workers;
          refusal ==
            if stale then Some(StaleState)
            else if illegal then Some(IllegalTransition)
            else if barred then Some(ActorNotAllowed)
            else if incomplete then Some(ClaimIncomplete)
            else if unknown then Some(Integrity)
            else None)
  }

  // What an accepted call makes of the row: a claim sets worker and lease, a lost lease takes both and counts an attempt, a
  // start may renew the lease, any other way out of a leased state ends it; references are set if they are given.
  ghost predicate RowMoved(row: Job, next: Job, q: Request) {
    var claim := row.state == Queued && q.to == Assigned;
    var expiry := row.state in {Assigned, Running} && q.to == Queued;
    && next.state == q.to
    && next.worker == (if claim then q.worker else if expiry then None else row.worker)
    && next.attempt == (if expiry then row.attempt + 1 else row.attempt)
    && (claim ==> next.lease == q.lease)
    && (q.to == Running ==> next.lease == if q.lease.Some? then q.lease else row.lease)
    && (row.state in {Assigned, Running} && q.to != Running ==> next.lease == None)
    && (row.state !in {Assigned, Running} && !claim ==> next.lease == row.lease)
    && next.runRef == (if q.runRef.Some? then q.runRef else row.runRef)
    && next.verdict == (if q.verdict.Some? then q.verdict else row.verdict)
    && next.study == row.study && next.jtype == row.jtype && next.priority == row.priority && next.resource == row.resource
    && next.payload == row.payload && next.maxAttempts == row.maxAttempts && next.parent == row.parent
    && next.createdAt == row.createdAt
  }

  // The row and its event, and nothing else
  ghost predicate Moves(a: Db, b: Db, q: Request) {
    && q.job in a.jobs && b.jobs.Keys == a.jobs.Keys && RowMoved(a.jobs[q.job], b.jobs[q.job], q)
    && (forall j <- a.jobs :: j != q.job ==> b.jobs[j] == a.jobs[j])
    && b.deps == a.deps && b.verdicts == a.verdicts && b.studies == a.studies && b.workers == a.workers
    && |b.log| == |a.log| + 1 && b.log[..|a.log|] == a.log
    && var e := b.log[|a.log|];
      && (a.jobs[q.job].state, q.to, e.verb) in JOB_TRANSITIONS
      && e.ts == q.ts && e.actor == q.actor && e.subject == JobSubject(q.job)
      && e.detail.Moved? && e.detail.from == a.jobs[q.job].state && e.detail.to == q.to && e.detail.permanent == q.permanent
  }

  lemma MoveColumns(db: Db, q: Request)
    ensures Refused(db.jobs, db.workers, q, MoveRefusal(db, q))
    ensures if MoveRefusal(db, q).Some? then Move(db, q) == db else Moves(db, Move(db, q), q)
  {
    if q.job in db.jobs {
      RefusedFor(db.jobs[q.job].state, q);
      if MoveRefusal(db, q).None? { MovedColumns(db.jobs[q.job], q); }
    }
    hide JOB_TRANSITIONS, JOB_HUMAN_OR_MACHINE, JOB_HUMAN_REQUIRED, JobVerb, ActorMay, RowMoved, MovedRow;
  }

  lemma RefusedFor(from: JobState, q: Request)
    ensures JobVerb(from, q.to).None? <==> forall verb :: (from, q.to, verb) !in JOB_TRANSITIONS
    ensures JobVerb(from, q.to).Some? ==> (from, q.to, JobVerb(from, q.to).value) in JOB_TRANSITIONS
    ensures ActorMay(q.actor, from, q.to) <==>
      (from, q.to) in JOB_HUMAN_OR_MACHINE || (q.actor.Human? <==> (from, q.to) in JOB_HUMAN_REQUIRED)
    ensures JobVerb(from, q.to).Some? && q.to == Assigned ==> from == Queued
  {
    forall verb ensures JobVerb(from, q.to) == Some(verb) <==> (from, q.to, verb) in JOB_TRANSITIONS {
      JobTable(from, q.to, verb);
    }
    JobActors(q.actor, from, q.to);
    hide JOB_TRANSITIONS, JOB_HUMAN_OR_MACHINE, JOB_HUMAN_REQUIRED, ActorMay;
  }

  lemma MovedColumns(row: Job, q: Request)
    requires JobVerb(row.state, q.to).Some?
    ensures RowMoved(row, MovedRow(row, q), q)
  {}

  /******* study_transition, create_study *******/

  ghost predicate StudyRefused(studies: map<StudyId, Study>, q: StudyRequest, refusal: Option<Refusal>) {
    && (refusal == Some(MalformedActor) <==> q.actor.Malformed?)
    && (refusal == Some(StudyNotFound) <==> !q.actor.Malformed? && q.study !in studies)
    && (!q.actor.Malformed? && q.study in studies ==>
          var from := studies[q.study].status;
          refusal ==
            if q.expected.Some? && q.expected.value != from then Some(StaleState)
            else if forall verb :: (from, q.to, verb) !in STUDY_TRANSITIONS then Some(IllegalTransition)
            else if !(q.actor.Human? <==> (from, q.to) in STUDY_HUMAN_REQUIRED) then Some(ActorNotAllowed)
            else None)
  }

  ghost predicate StudyMoves(a: Db, b: Db, q: StudyRequest) {
    && q.study in a.studies && b.studies.Keys == a.studies.Keys
    && b.studies[q.study].status == q.to && b.studies[q.study].policy == a.studies[q.study].policy
    && (forall t <- a.studies :: t != q.study ==> b.studies[t] == a.studies[t])
    && b.jobs == a.jobs && b.deps == a.deps && b.verdicts == a.verdicts && b.workers == a.workers
    && |b.log| == |a.log| + 1 && b.log[..|a.log|] == a.log
    && var e := b.log[|a.log|];
      && (a.studies[q.study].status, q.to, e.verb) in STUDY_TRANSITIONS
      && e.ts == q.ts && e.actor == q.actor && e.subject == StudySubject(q.study)
  }

  lemma StudyColumns(db: Db, q: StudyRequest)
    ensures StudyRefused(db.studies, q, StudyRefusal(db, q))
    ensures if StudyRefusal(db, q).Some? then MoveStudy(db, q) == db else StudyMoves(db, MoveStudy(db, q), q)
  {
    if q.study in db.studies {
      var from := db.studies[q.study].status;
      forall verb ensures StudyVerb(from, q.to) == Some(verb) <==> (from, q.to, verb) in STUDY_TRANSITIONS {
        StudyTable(from, q.to, verb);
      }
      if StudyVerb(from, q.to).Some? { StudyActors(q.actor, from, q.to); }
    }
    hide STUDY_TRANSITIONS, STUDY_HUMAN_REQUIRED, StudyVerb, StudyActorMay;
  }

  // A draft with its event, written by the actor or else the owner
  ghost predicate StudyMade(a: Db, b: Db, id: StudyId, owner: Actor, policy: Policy, actor: Option<Actor>, ts: int) {
    && id in b.studies && b.studies[id].status == Draft && b.studies[id].policy == policy
    && b.studies.Keys == a.studies.Keys + {id} && (forall t <- a.studies :: t != id ==> b.studies[t] == a.studies[t])
    && b.jobs == a.jobs && b.deps == a.deps && b.verdicts == a.verdicts && b.workers == a.workers
    && |b.log| == |a.log| + 1 && b.log[..|a.log|] == a.log
    && var e := b.log[|a.log|];
      && e.verb == StudySubmitted && e.ts == ts && e.subject == StudySubject(id)
      && e.actor == if actor.Some? then actor.value else owner
  }

  lemma NewStudyColumns(db: Db, id: StudyId, owner: Actor, policy: Policy, actor: Option<Actor>, ts: int)
    requires id !in db.studies
    ensures var b := CreateStudy(db, id, owner, policy, actor, ts);
      if owner.Malformed? then b == db else StudyMade(db, b, id, owner, policy, actor, ts)
  {}

  /******* create_job *******/

  // A proposed row with the columns the call names, its edges and its event
  ghost predicate JobMade(a: Db, b: Db, n: NewJob) {
    && n.id in b.jobs && b.jobs.Keys == a.jobs.Keys + {n.id} && (forall j <- a.jobs :: j != n.id ==> b.jobs[j] == a.jobs[j])
    && var row := b.jobs[n.id];
      && row.state == Proposed && row.study == n.study && row.jtype == n.jtype && row.priority == n.priority
      && row.resource == n.resource && row.payload == n.payload && row.attempt == n.attempt
      && row.maxAttempts == n.maxAttempts && row.parent == n.parent && row.createdAt == n.ts
      && row.worker == None && row.lease == None && row.runRef == None && row.verdict == None
      && (forall d :: d in b.deps <==> d in a.deps || (d.job == n.id && d.on in n.deps))
      && b.verdicts == a.verdicts && b.studies == a.studies && b.workers == a.workers
      && |b.log| == |a.log| + 1 && b.log[..|a.log|] == a.log
      && var e := b.log[|a.log|]; e.verb == JobProposed && e.ts == n.ts && e.actor == n.actor && e.subject == JobSubject(n.id)
  }

  // A malformed actor, a missing study, parent or dependency, or a dependency named twice
  ghost predicate JobRefused(a: Db, n: NewJob, refusal: Option<Refusal>) {
    refusal ==
      if n.actor.Malformed? then Some(MalformedActor)
      else if n.study !in a.studies || (n.parent.Some? && n.parent.value !in a.jobs) || (exists d <- n.deps :: d !in a.jobs)
        || exists i, k :: 0 <= i < k < |n.deps| && n.deps[i] == n.deps[k]
      then Some(Integrity)
      else None
  }

  lemma NewJobColumns(db: Db, n: NewJob)
    requires n.id !in db.jobs
    ensures JobRefused(db, n, CreateRefusal(db, n))
    ensures if CreateRefusal(db, n).Some? then CreateJob(db, n) == db else JobMade(db, CreateJob(db, n), n)
  {}

  /******* record_verdict, register_worker *******/

  ghost predicate VerdictMade(a: Db, b: Db, id: VerdictId, v: Verdict, actor: Actor, ts: int) {
    && id in b.verdicts && b.verdicts[id] == v && b.verdicts.Keys == a.verdicts.Keys + {id}
    && (forall u <- a.verdicts :: u != id ==> b.verdicts[u] == a.verdicts[u])
    && b.jobs == a.jobs && b.deps == a.deps && b.studies == a.studies && b.workers == a.workers
    && |b.log| == |a.log| + 1 && b.log[..|a.log|] == a.log
    && var e := b.log[|a.log|]; e.verb == VerdictRecorded && e.ts == ts && e.actor == actor && e.subject == VerdictSubject(id)
  }

  lemma VerdictColumns(db: Db, id: VerdictId, v: Verdict, actor: Actor, ts: int)
    requires id !in db.verdicts
    ensures var b := RecordVerdict(db, id, v, actor, ts);
      if actor.Malformed? || v.job !in db.jobs then b == db else VerdictMade(db, b, id, v, actor, ts)
  {}

  ghost predicate WorkerMade(a: Db, b: Db, w: WorkerId, solvers: set<string>, memMb: Option<int>, capacity: int, ts: int) {
    && w in b.workers && b.workers.Keys == a.workers.Keys + {w}
    && var row := b.workers[w];
      && row.solvers == solvers && row.memMb == memMb && row.capacity == capacity && row.status == Online
      && row.lastHeartbeat == ts
      && (forall v <- a.workers :: v != w ==> b.workers[v] == a.workers[v])
      && b.jobs == a.jobs && b.deps == a.deps && b.verdicts == a.verdicts && b.studies == a.studies
      && |b.log| == |a.log| + 1 && b.log[..|a.log|] == a.log
      && var e := b.log[|a.log|];
        e.verb == WorkerRegistered && e.ts == ts && e.actor == Worker(w) && e.subject == WorkerSubject(w)
  }

  lemma WorkerColumns(db: Db, w: WorkerId, solvers: set<string>, memMb: Option<int>, capacity: int, ts: int)
    ensures WorkerMade(db, RegisterWorker(db, w, solvers, memMb, capacity, ts), w, solvers, memMb, capacity, ts)
  {}

  /******* The UPDATE of job_dep *******/

  // Every edge to the one job becomes an edge of the same job to the other; the rest stays.
  ghost predicate Rehung(a: set<Dep>, b: set<Dep>, from: JobId, to: JobId) {
    forall d :: d in b <==> (d in a && d.on != from) || (d.on == to && Dep(d.job, from) in a)
  }

  ghost predicate EdgesMoved(a: Db, b: Db, from: JobId, to: JobId) {
    && Rehung(a.deps, b.deps, from, to)
    && b.jobs == a.jobs && b.verdicts == a.verdicts && b.studies == a.studies && b.workers == a.workers && b.log == a.log
  }

  lemma RepointColumns(db: Db, from: JobId, to: JobId)
    requires from != to
    ensures var b := Repoint(db, from, to);
      if to !in db.jobs || exists d <- db.deps :: d.on == from && Dep(d.job, to) in db.deps then b == db
      else EdgesMoved(db, b, from, to)
  {
    var b := Repoint(db, from, to);
    if to in db.jobs && forall d <- db.deps :: d.on == from ==> Dep(d.job, to) !in db.deps {
      forall d ensures d in b.deps <==> (d in db.deps && d.on != from) || (d.on == to && Dep(d.job, from) in db.deps) {
        if d in db.deps && d.on != from { assert d in b.deps; }
        if d.on == to && Dep(d.job, from) in db.deps { assert Dep(Dep(d.job, from).job, to) in b.deps; }
      }
    }
  }

  /******* reap_expired *******/

  // Every leased job whose lease ended before now goes back to the queue with one attempt more, or fails if that was the last.
  predicate RowsReaped(a: Jobs, b: Jobs, actions: map<JobId, JobState>, now: int) {
    && b.Keys == a.Keys
    && forall j <- a ::
      if a[j].state in {Assigned, Running} && a[j].lease.Some? && a[j].lease.value < now then
        && j in actions
        && if a[j].attempt >= a[j].maxAttempts then
             b[j] == a[j].(state := Failed, lease := None) && actions[j] == Failed
           else
             b[j] == a[j].(state := Queued, worker := None, lease := None, attempt := a[j].attempt + 1) && actions[j] == Queued
      else
        b[j] == a[j] && j !in actions
  }

  /******* enqueue_approved, auto_accept_support_jobs, cancel_dead_branches *******/

  // The selected rows change their state and nothing else, and are counted.
  predicate RowsMoved(a: Jobs, b: Jobs, work: set<JobId>, to: JobState, n: nat) {
    && b.Keys == a.Keys && n == |work|
    && forall j <- a :: b[j] == if j in work then a[j].(state := to) else a[j]
  }

  function Approved_(a: Jobs): set<JobId> { set j | j in a && a[j].state == Approved }

  function Supporting(a: Jobs): set<JobId> {
    set j | j in a && a[j].jtype in {TRIAGE, REPORT} && a[j].state == Succeeded
  }

  function DeadBranch(a: Jobs, deps: set<Dep>): set<JobId> {
    set j | j in a && a[j].state in {Proposed, Approved, Queued} && a[j].jtype != REPORT
      && exists d <- deps :: d.job == j && d.on in a && a[d.on].state in {Rejected, Infeasible, Cancelled}
  }

  /******* spawn_triage *******/

  function FailedRows(a: Jobs): set<JobId> { set j | j in a && a[j].state == Failed }

  function ChildlessRows(a: Jobs): set<JobId> {
    set j | j in a && a[j].state == Triage && forall t <- a :: a[t].jtype == TRIAGE ==> a[t].parent != Some(j)
  }

  // An approved TRIAGE job of p: ten places ahead of it, but not below zero
  predicate ChildRow(parent: Job, p: JobId, row: Job) {
    && row.study == parent.study && row.jtype == TRIAGE && row.state == Approved && row.payload == TriagePayload(p)
    && row.parent == Some(p) && row.priority == (if parent.priority >= 10 then parent.priority - 10 else 0)
    && row.resource == Resource(30, {}, None) && row.attempt == 1 && row.maxAttempts == 3
    && row.worker == None && row.lease == None && row.runRef == None && row.verdict == None
  }

  // Failed jobs enter triage; they and the jobs in triage that had no child have one new child each, and no other row is new.
  ghost predicate RowsSpawned(a: Jobs, b: Jobs) {
    && a.Keys <= b.Keys
    && (forall j <- a :: b[j] == if a[j].state == Failed then a[j].(state := Triage) else a[j])
    && (forall t <- b :: t in a || exists p <- FailedRows(a) + ChildlessRows(a) :: ChildRow(a[p], p, b[t]))
    && (forall p <- FailedRows(a) + ChildlessRows(a) :: exists t <- b :: t !in a && b[t].parent == Some(p))
    && forall t <- b, u <- b :: t !in a && u !in a && b[t].parent == b[u].parent ==> t == u
  }

  /******* apply_verdict_gates *******/

  // A CHECK that succeeded with a verdict
  predicate GradedCheck(a: Db, c: JobId) {
    && c in a.jobs && a.jobs[c].jtype == CHECK && a.jobs[c].state == Succeeded
    && a.jobs[c].verdict.Some? && a.jobs[c].verdict.value in a.verdicts
  }

  // What the verdict of c makes of its upstream: accepted at the study's automatic level, unless that is gated; else a review
  predicate GatedRow(a: Db, c: JobId, row: Job, next: Job)
    requires GradedCheck(a, c) && a.jobs[c].study in a.studies
  {
    var v, policy := a.jobs[c].verdict.value, a.studies[a.jobs[c].study].policy;
    var level := a.verdicts[v].level;
    next == row.(verdict := Some(v), state := if level == policy.autoLevel && level !in policy.gateOn then Accepted else Review)
  }

  ghost predicate RowsGated(a: Db, b: Jobs) {
    && b.Keys == a.jobs.Keys
    && forall j <- a.jobs ::
      if GradedCheck(a, j) then b[j] == a.jobs[j].(state := Accepted)
      else if a.jobs[j].state == Succeeded && exists c <- a.jobs :: GradedCheck(a, c) && Dep(c, j) in a.deps then
        exists c <- a.jobs ::
          GradedCheck(a, c) && Dep(c, j) in a.deps && a.jobs[c].study in a.studies && GatedRow(a, c, a.jobs[j], b[j])
      else b[j] == a.jobs[j]
  }

  /******* sync_study_status *******/

  // Approved studies one of whose jobs has been dispatched start; running studies all of whose jobs are terminal go to review.
  ghost predicate StudiesSynced(a: Db, b: Db, to: StudyStatus) {
    && b.jobs == a.jobs && b.studies.Keys == a.studies.Keys
    && forall t <- a.studies ::
      var due :=
        if to == InProgress then
          && a.studies[t].status == PlanApproved
          && exists j <- a.jobs :: a.jobs[j].study == t && a.jobs[j].state !in {Proposed, Approved, Queued, Cancelled}
        else
          && a.studies[t].status == InProgress
          && forall j <- a.jobs :: a.jobs[j].study == t ==>
            a.jobs[j].state in {Accepted, Rejected, RetrySpawned, Infeasible, Cancelled};
      b.studies[t].policy == a.studies[t].policy && b.studies[t].status == if due then to else a.studies[t].status
  }
}
