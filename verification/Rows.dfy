/**
 The tables of the substrate as values: one datatype per row type, the event log as a sequence, and the
 constant tables of the two state machines (`JOB_TRANSITIONS`, `STUDY_TRANSITIONS`, actor rules).
 */
module Rows {
  import opened Wrappers

  // Identifiers are ULIDs in the source; here they are the integers those strings encode.
  type JobId = int
  type StudyId = int
  type VerdictId = int
  type WorkerId = int
  type RunRef = int

  /******* Rows *******/

  datatype JobType = ANALYSIS | CHECK | TRIAGE | REPORT | WATCH

  datatype JobState =
    | Proposed | Approved | Queued | Assigned | Running
    | Succeeded | Failed | Review | Accepted | Rejected
    | Triage | RetrySpawned | Infeasible | Escalated | Cancelled

  datatype Level = Pass | Warn | Fail | Error

  // A case of a study: the executor's idempotency key without the attempt number.
  datatype CaseKey = CaseKey(study: StudyId, caseId: string)

  datatype Payload =
    | CasePayload(caseId: string, overrides: map<string, int>, warmStart: Option<RunRef>)
    | TriagePayload(failedJob: JobId)
    | PlainPayload

  // `est_runtime_s`, `requires` and `mem_mb` of resource_json.
  datatype Resource = Resource(estRuntime: int, solvers: set<string>, memMb: Option<int>)

  datatype Job = Job(
    study: StudyId, jtype: JobType, state: JobState, priority: int, resource: Resource, payload: Payload,
    worker: Option<WorkerId>, lease: Option<int>, attempt: int, maxAttempts: int, parent: Option<JobId>,
    runRef: Option<RunRef>, verdict: Option<VerdictId>, createdAt: int)
  {
    // The case an ANALYSIS row runs; no other row has one.
    function Key(): Option<CaseKey> {
      if jtype == ANALYSIS && payload.CasePayload? then Some(CaseKey(study, payload.caseId)) else None
    }

    predicate Leased() { state == Assigned || state == Running }
  }

  datatype Dep = Dep(job: JobId, on: JobId)

  datatype Verdict = Verdict(job: JobId, runRef: Option<RunRef>, level: Level)

  datatype StudyStatus = Draft | PlanProposed | PlanApproved | InProgress | InReview | Closed | Aborted

  // The policy keys the core reads. `autoRetryMax` keeps the difference between a missing key and 0;
  // `autoAccept` is the truth value of the auto_accept clause, `autoLevel` its level (default pass).
  datatype Policy = Policy(
    autoRetryMax: Option<int>, autoAccept: bool, autoLevel: Level, gateOn: set<Level>, warmStart: bool, priority: int)

  datatype Study = Study(status: StudyStatus, policy: Policy)

  datatype WorkerStatus = Online | Draining | Offline

  datatype WorkerRow = WorkerRow(
    solvers: set<string>, memMb: Option<int>, capacity: int, status: WorkerStatus, lastHeartbeat: int)

  /******* Events *******/

  datatype Actor = Human(name: string) | Agent | Worker(id: WorkerId) | System(name: string) | Malformed

  datatype Verb =
    | JobProposed | JobApproved | JobEnqueued | JobClaimed | JobStarted | JobSucceeded | JobFailed
    | JobLeaseExpired | JobRetried | JobCancelled | JobReviewRequested | JobAccepted | JobRejected
    | JobEscalated | JobInfeasible | JobTriageStarted
    | StudySubmitted | StudyPlanProposed | StudyApproved | StudyStarted | StudyReviewReady
    | StudyAborted | StudyClosed
    | VerdictRecorded | WorkerRegistered | DecisionLogged

  datatype Subject = JobSubject(job: JobId) | StudySubject(study: StudyId) | WorkerSubject(worker: WorkerId)
                   | VerdictSubject(verdict: VerdictId)

  // `Moved` is the payload of a transition event. `key` and `attempt` are history: the columns of the
  // job row at the time the event was written. No operation reads them.
  datatype Detail =
    | Moved(from: JobState, to: JobState, permanent: bool, key: Option<CaseKey>, attempt: int)
    | NoDetail

  datatype Event = Event(ts: int, actor: Actor, verb: Verb, subject: Subject, detail: Detail)
  {
    // A transition event of job j.
    predicate Moves(j: JobId) { detail.Moved? && subject == JobSubject(j) }
  }

  datatype Db = Db(
    jobs: map<JobId, Job>, deps: set<Dep>, verdicts: map<VerdictId, Verdict>, studies: map<StudyId, Study>,
    workers: map<WorkerId, WorkerRow>, log: seq<Event>)

  const EMPTY := Db(map[], {}, map[], map[], map[], [])

  /******* The job state machine *******/

  predicate Terminal(s: JobState) {
    s in {Accepted, Rejected, RetrySpawned, Infeasible, Cancelled}
  }

  predicate PreRunning(s: JobState) {
    s in {Proposed, Approved, Queued, Assigned}
  }

  // JOB_TRANSITIONS, read by the state a move leads to: the verb of a legal move, None for any other pair
  function JobVerb(from: JobState, to: JobState): Option<Verb> {
    match to
    case Proposed => None
    case Approved => if from == Proposed then Some(JobApproved) else None
    case Queued =>
      if from == Approved || from == Escalated then Some(JobEnqueued)
      else if from == Assigned || from == Running then Some(JobLeaseExpired)
      else None
    case Assigned => if from == Queued then Some(JobClaimed) else None
    case Running => if from == Assigned then Some(JobStarted) else None
    case Succeeded => if from == Running then Some(JobSucceeded) else None
    case Failed => if from == Running || from == Assigned then Some(JobFailed) else None
    case Accepted => if from == Succeeded || from == Review then Some(JobAccepted) else None
    case Review => if from == Succeeded then Some(JobReviewRequested) else None
    case Rejected => if from == Review then Some(JobRejected) else None
    case Triage => if from == Failed then Some(JobTriageStarted) else None
    case RetrySpawned => if from == Triage then Some(JobRetried) else None
    case Infeasible => if from == Triage || from == Escalated then Some(JobInfeasible) else None
    case Escalated => if from == Triage then Some(JobEscalated) else None
    case Cancelled => if PreRunning(from) || from == Escalated then Some(JobCancelled) else None
  }

  predicate HumanOnly(from: JobState, to: JobState) {
    (from == Review && to in {Accepted, Rejected}) || (from == Escalated && to in {Queued, Cancelled, Infeasible})
  }

  predicate HumanOrMachine(from: JobState, to: JobState) {
    (from == Proposed && to == Approved) || (from == Succeeded && to == Accepted) || (PreRunning(from) && to == Cancelled)
  }

  // _check_job_actor, for an actor that parsed
  predicate ActorMay(actor: Actor, from: JobState, to: JobState) {
    HumanOrMachine(from, to) || (HumanOnly(from, to) == actor.Human?)
  }

  /******* The study state machine *******/

  function StudyVerb(from: StudyStatus, to: StudyStatus): Option<Verb> {
    match to
    case Draft => None
    case PlanProposed => if from == Draft then Some(StudyPlanProposed) else None
    case PlanApproved => if from == PlanProposed then Some(StudyApproved) else None
    case InProgress => if from == PlanApproved then Some(StudyStarted) else None
    case InReview => if from == InProgress then Some(StudyReviewReady) else None
    case Closed => if from == InReview then Some(StudyClosed) else None
    case Aborted => if from == Closed || from == Aborted then None else Some(StudyAborted)
  }

  predicate StudyActorMay(actor: Actor, from: StudyStatus, to: StudyStatus) {
    ((from == PlanProposed && to == PlanApproved) || (from == InReview && to == Closed) || to == Aborted) == actor.Human?
  }

  /******* Leases *******/

  const MIN_LEASE_S := 600
  const LEASE_FACTOR := 2
  const MICROS := 1_000_000

  // lease_duration_s, in the microseconds the timestamps are kept in
  function LeaseDuration(r: Resource): (d: int)
    ensures d >= 600_000_000 && d >= 2_000_000 * r.estRuntime
    ensures d in {600_000_000, 2_000_000 * r.estRuntime}
  {
    (if LEASE_FACTOR * r.estRuntime > MIN_LEASE_S then LEASE_FACTOR * r.estRuntime else MIN_LEASE_S) * MICROS
  }
}
