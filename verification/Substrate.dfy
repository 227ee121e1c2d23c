/**
 The primitive writers of the substrate as functions from one database value to the next. Each is one
 transaction: a refused call returns the database unchanged.
 */
module Substrate {
  import opened Wrappers
  import opened Rows

  datatype Refusal =
    | MalformedActor | JobNotFound | StudyNotFound | StaleState | IllegalTransition | ActorNotAllowed
    | ClaimIncomplete | Integrity

  /******* transition *******/

  datatype Request = Request(
    job: JobId, to: JobState, actor: Actor, expected: Option<JobState>, worker: Option<WorkerId>,
    lease: Option<int>, runRef: Option<RunRef>, verdict: Option<VerdictId>, permanent: bool, ts: int)

  // A call with no optional argument but expected_state
  function Plain(job: JobId, to: JobState, actor: Actor, expected: Option<JobState>, ts: int): Request {
    Request(job, to, actor, expected, None, None, None, None, false, ts)
  }

  // Why transition raises, in the order the source checks. `Integrity` is the foreign key on assigned_worker.
  function MoveRefusal(db: Db, q: Request): Option<Refusal> {
    if q.actor.Malformed? then Some(MalformedActor)
    else if q.job !in db.jobs then Some(JobNotFound)
    else
      var from := db.jobs[q.job].state;
      if q.expected.Some? && from != q.expected.value then Some(StaleState)
      else if JobVerb(from, q.to).None? then Some(IllegalTransition)
      else if !ActorMay(q.actor, from, q.to) then Some(ActorNotAllowed)
      else if q.to == Assigned && (q.worker.None? || q.lease.None?) then Some(ClaimIncomplete)
      else if q.to == Assigned && q.worker.value !in db.workers then Some(Integrity)
      else None
  }

  predicate LeaseExpiry(from: JobState, to: JobState) {
    (from == Assigned || from == Running) && to == Queued
  }

  // A claim brings its worker and lease, an expiry takes both and an attempt, a start may renew the lease, and any other move
  // out of a leased state ends it.
  function MovedRow(row: Job, q: Request): Job {
    var expired := LeaseExpiry(row.state, q.to);
    row.(state := q.to,
         worker := if q.to == Assigned then q.worker else if expired then None else row.worker,
         lease :=
           if q.to == Assigned then q.lease
           else if q.to == Running then (if q.lease.Some? then q.lease else row.lease)
           else if row.Leased() then None else row.lease,
         attempt := if expired then row.attempt + 1 else row.attempt,
         runRef := if q.runRef.Some? then q.runRef else row.runRef,
         verdict := if q.verdict.Some? then q.verdict else row.verdict)
  }

  function MoveEvent(row: Job, q: Request): Event
    requires JobVerb(row.state, q.to).Some?
  {
    Event(q.ts, q.actor, JobVerb(row.state, q.to).value, JobSubject(q.job),
          Moved(row.state, q.to, q.permanent, row.Key(), row.attempt))
  }

  function Move(db: Db, q: Request): Db {
    if MoveRefusal(db, q).Some? then db
    else db.(jobs := db.jobs[q.job := MovedRow(db.jobs[q.job], q)], log := db.log + [MoveEvent(db.jobs[q.job], q)])
  }

  // An accepted call changes its own row and adds one event.
  lemma MoveShape(db: Db, q: Request)
    requires MoveRefusal(db, q).None?
    ensures q.job in db.jobs && JobVerb(db.jobs[q.job].state, q.to).Some?
    ensures var b := Move(db, q);
      && b.jobs.Keys == db.jobs.Keys && b.jobs[q.job] == MovedRow(db.jobs[q.job], q)
      && (forall j <- db.jobs :: j != q.job ==> b.jobs[j] == db.jobs[j])
      && b.deps == db.deps && b.studies == db.studies && b.verdicts == db.verdicts && b.workers == db.workers
      && db.log <= b.log && |b.log| == |db.log| + 1
  {}

  // A refused one changes nothing, and no call changes the set of rows or another table.
  lemma MoveFrame(db: Db, q: Request)
    ensures MoveRefusal(db, q).Some? ==> Move(db, q) == db
    ensures Move(db, q).jobs.Keys == db.jobs.Keys && |Move(db, q).log| == |db.log| + if MoveRefusal(db, q).None? then 1 else 0
    ensures Move(db, q).studies == db.studies && Move(db, q).deps == db.deps && Move(db, q).verdicts == db.verdicts
    ensures Move(db, q).workers == db.workers
  {}

  /******* study_transition, create_study *******/

  datatype StudyRequest = StudyRequest(study: StudyId, to: StudyStatus, actor: Actor, expected: Option<StudyStatus>, ts: int)

  function StudyRefusal(db: Db, q: StudyRequest): Option<Refusal> {
    if q.actor.Malformed? then Some(MalformedActor)
    else if q.study !in db.studies then Some(StudyNotFound)
    else
      var from := db.studies[q.study].status;
      if q.expected.Some? && from != q.expected.value then Some(StaleState)
      else if StudyVerb(from, q.to).None? then Some(IllegalTransition)
      else if !StudyActorMay(q.actor, from, q.to) then Some(ActorNotAllowed)
      else None
  }

  function MoveStudy(db: Db, q: StudyRequest): Db {
    if StudyRefusal(db, q).Some? then db
    else
      var s := db.studies[q.study];
      db.(studies := db.studies[q.study := s.(status := q.to)],
          log := db.log + [Event(q.ts, q.actor, StudyVerb(s.status, q.to).value, StudySubject(q.study), NoDetail)])
  }

  // Only the owner is checked; the event is written by the actor, if one is given.
  function CreateStudy(db: Db, id: StudyId, owner: Actor, policy: Policy, actor: Option<Actor>, ts: int): Db {
    if owner.Malformed? || id in db.studies then db
    else db.(studies := db.studies[id := Study(Draft, policy)],
             log := db.log + [Event(ts, if actor.Some? then actor.value else owner, StudySubmitted, StudySubject(id), NoDetail)])
  }

  /******* create_job *******/

  datatype NewJob = NewJob(
    id: JobId, study: StudyId, jtype: JobType, payload: Payload, actor: Actor, priority: int, resource: Resource,
    maxAttempts: int, attempt: int, parent: Option<JobId>, deps: seq<JobId>, ts: int)

  predicate Distinct<T(==)>(s: seq<T>) {
    forall i, k :: 0 <= i < k < |s| ==> s[i] != s[k]
  }

  // Primary and foreign keys of the job and job_dep tables. A caller cannot name the new id in deps.
  function CreateRefusal(db: Db, n: NewJob): Option<Refusal> {
    if n.actor.Malformed? then Some(MalformedActor)
    else if n.id in db.jobs || n.study !in db.studies || (n.parent.Some? && n.parent.value !in db.jobs)
         || !Distinct(n.deps) || exists d <- n.deps :: d !in db.jobs
    then Some(Integrity)
    else None
  }

  function NewRow(n: NewJob): Job {
    Job(n.study, n.jtype, Proposed, n.priority, n.resource, n.payload, None, None, n.attempt, n.maxAttempts,
        n.parent, None, None, n.ts)
  }

  function NewDeps(n: NewJob): set<Dep> {
    set d | d in n.deps :: Dep(n.id, d)
  }

  function CreateJob(db: Db, n: NewJob): Db {
    if CreateRefusal(db, n).Some? then db
    else db.(jobs := db.jobs[n.id := NewRow(n)], deps := db.deps + NewDeps(n),
             log := db.log + [Event(n.ts, n.actor, JobProposed, JobSubject(n.id), NoDetail)])
  }

  /******* The other writers *******/

  function RecordVerdict(db: Db, id: VerdictId, v: Verdict, actor: Actor, ts: int): Db {
    if actor.Malformed? || id in db.verdicts || v.job !in db.jobs then db
    else db.(verdicts := db.verdicts[id := v],
             log := db.log + [Event(ts, actor, VerdictRecorded, VerdictSubject(id), NoDetail)])
  }

  function RegisterWorker(db: Db, w: WorkerId, solvers: set<string>, memMb: Option<int>, capacity: int, ts: int): Db {
    db.(workers := db.workers[w := WorkerRow(solvers, memMb, capacity, Online, ts)],
        log := db.log + [Event(ts, Worker(w), WorkerRegistered, WorkerSubject(w), NoDetail)])
  }

  predicate BusyOn(row: Job, w: WorkerId) {
    row.worker == Some(w) && row.Leased()
  }

  // heartbeat: extends every lease the worker holds; writes no event
  function Heartbeat(db: Db, w: WorkerId, ts: int): Db {
    db.(workers := if w in db.workers then db.workers[w := db.workers[w].(lastHeartbeat := ts)] else db.workers,
        jobs := map j | j in db.jobs :: Refreshed(db.jobs[j], w, ts))
  }

  function Refreshed(row: Job, w: WorkerId, ts: int): Job {
    if BusyOn(row, w) then row.(lease := Some(ts + LeaseDuration(row.resource))) else row
  }

  // The in-place UPDATE of job_dep in run_triage
  function Repoint(db: Db, old_: JobId, new_: JobId): Db {
    if new_ !in db.jobs || exists d <- db.deps :: d.on == old_ && Dep(d.job, new_) in db.deps then db
    else db.(deps := set d | d in db.deps :: if d.on == old_ then Dep(d.job, new_) else d)
  }

  function LogDecision(db: Db, job: JobId, ts: int): Db {
    db.(log := db.log + [Event(ts, Agent, DecisionLogged, JobSubject(job), NoDetail)])
  }

  /******* Interleavings *******/

  datatype Op =
    | DoMove(move: Request)
    | DoMoveStudy(study: StudyRequest)
    | DoCreateStudy(sid: StudyId, owner: Actor, policy: Policy, author: Option<Actor>, ts: int)
    | DoCreateJob(job: NewJob)
    | DoRecordVerdict(vid: VerdictId, verdict: Verdict, actor: Actor, ts: int)
    | DoRegister(w: WorkerId, solvers: set<string>, memMb: Option<int>, capacity: int, ts: int)
    | DoHeartbeat(w: WorkerId, ts: int)
    | DoRepoint(old_: JobId, new_: JobId)
    | DoLogDecision(about: JobId, ts: int)

  function Apply(db: Db, op: Op): Db {
    match op
    case DoMove(q) => Move(db, q)
    case DoMoveStudy(q) => MoveStudy(db, q)
    case DoCreateStudy(sid, owner, policy, author, ts) => CreateStudy(db, sid, owner, policy, author, ts)
    case DoCreateJob(n) => CreateJob(db, n)
    case DoRecordVerdict(vid, v, actor, ts) => RecordVerdict(db, vid, v, actor, ts)
    case DoRegister(w, solvers, memMb, capacity, ts) => RegisterWorker(db, w, solvers, memMb, capacity, ts)
    case DoHeartbeat(w, ts) => Heartbeat(db, w, ts)
    case DoRepoint(o, n) => Repoint(db, o, n)
    case DoLogDecision(j, ts) => LogDecision(db, j, ts)
  }

  // The database after a sequence of transactions, whoever issued them
  function Exec(db: Db, ops: seq<Op>): Db {
    if ops == [] then db else Apply(Exec(db, ops[..|ops| - 1]), ops[|ops| - 1])
  }

  lemma {:induction false} ExecConcat(db: Db, a: seq<Op>, b: seq<Op>)
    ensures Exec(db, a + b) == Exec(Exec(db, a), b)
  {
    if b == [] {
      assert a + b == a;
    } else {
      assert (a + b)[..|a + b| - 1] == a + b[..|b| - 1];
      ExecConcat(db, a, b[..|b| - 1]);
    }
  }
}
