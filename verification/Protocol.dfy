/**
 The control plane as a transition system. An action is one step of one process: a worker, a control loop, the
 reaper, triage, a human, or the decomposition of a study. It is enabled by what the code has read and it issues
 a list of primitive transactions, so every theorem about interleaved transactions holds of every run of actions.
 The processes' local memory that matters is explicit: the runnable snapshot each worker's claim loop works from, and what
 each process has read or begun and has not acted on yet.
 */
module Protocol {
  import opened Wrappers
  import opened Rows
  import opened Substrate

  // `seen[w]`: what is left of the snapshot w's claim loop is working through.
  // `judged`: every job some runnable_jobs() call has ever returned.
  datatype Sys = Sys(db: Db, seen: map<WorkerId, set<JobId>>, judged: set<JobId>, pending: Pending)

  // What processes are in the middle of. `make`: the jobs some control loop has flipped to triage, or read as orphans, and
  // is about to create a TRIAGE child for, once for every loop that is. `approve`: the TRIAGE jobs their creator is about
  // to approve. `run`: the TRIAGE jobs some worker has started and is about to call run_triage for, once for every worker
  // that is; a lost lease does not stop it. `ran`: those for which run_triage has returned. `reap`: the expired jobs reapers
  // have read and are about to reap. `review`: the studies control loops have found to be through and are about to review.
  datatype Pending = Pending(
    make: multiset<JobId>, approve: set<JobId>, run: multiset<JobId>, ran: set<JobId>, reap: multiset<Find>,
      review: multiset<StudyId>)

  // What a reaper reads of an expired job: whether it was running, and whether it was out of attempts
  datatype Find = Find(j: JobId, started: bool, exhausted: bool)

  const NOTHING := Pending(multiset{}, {}, multiset{}, {}, multiset{}, multiset{})
  const INIT := Sys(EMPTY, map[], {}, NOTHING)

  /******* What the processes read *******/

  const SCHEDULER := System("scheduler")
  const REAPER := System("reaper")
  const NO_POLICY := Policy(None, false, Pass, {Warn, Fail}, false, 50)

  function PolicyOf(db: Db, s: StudyId): Policy {
    if s in db.studies then db.studies[s].policy else NO_POLICY
  }

  // REPORT_DEP_TERMINAL or exhausted failed
  predicate ReportDepSatisfied(up: Job) {
    Terminal(up.state) || (up.state == Failed && up.attempt >= up.maxAttempts)
  }

  // _dep_satisfied
  predicate DepSatisfied(up: Job, jtype: JobType, policy: Policy) {
    if jtype == REPORT then ReportDepSatisfied(up)
    else up.state == Accepted || (up.state == Succeeded && policy.autoAccept)
  }

  // One row of runnable_jobs
  predicate Ready(db: Db, j: JobId) {
    && j in db.jobs && db.jobs[j].state == Queued
    && forall d <- db.deps :: d.job == j && d.on in db.jobs ==>
         DepSatisfied(db.jobs[d.on], db.jobs[j].jtype, PolicyOf(db, db.jobs[j].study))
  }

  function Runnable(db: Db): set<JobId> {
    set j | j in db.jobs && Ready(db, j)
  }

  function Busy(db: Db, w: WorkerId): set<JobId> {
    set j | j in db.jobs && BusyOn(db.jobs[j], w)
  }

  predicate FreeWorker(db: Db, w: WorkerId) {
    w in db.workers && db.workers[w].status == Online && db.workers[w].capacity - |Busy(db, w)| > 0
  }

  predicate Dead(s: JobState) { s in {Rejected, Infeasible, Cancelled} }

  predicate PreQueue(s: JobState) { s in {Proposed, Approved, Queued} }

  // The row cancel_dead_branches selects
  predicate DeadBranch(db: Db, j: JobId) {
    && j in db.jobs && PreQueue(db.jobs[j].state) && db.jobs[j].jtype != REPORT
    && exists d <- db.deps :: d.job == j && d.on in db.jobs && Dead(db.jobs[d.on].state)
  }

  predicate HasTriageChild(db: Db, j: JobId) {
    exists t <- db.jobs :: db.jobs[t].jtype == TRIAGE && db.jobs[t].parent == Some(j)
  }

  predicate Graded(db: Db, c: JobId) {
    && c in db.jobs && db.jobs[c].jtype == CHECK && db.jobs[c].state == Succeeded
    && db.jobs[c].verdict.Some? && db.jobs[c].verdict.value in db.verdicts
  }

  // A CHECK that finished with a verdict, whether or not it has been accepted since
  predicate Checked(db: Db, c: JobId) {
    && c in db.jobs && db.jobs[c].jtype == CHECK && db.jobs[c].state in {Succeeded, Accepted}
    && db.jobs[c].verdict.Some? && db.jobs[c].verdict.value in db.verdicts
  }

  // No upstream of c waits for its verdict any more.
  predicate UpstreamMoved(db: Db, c: JobId) {
    forall d <- db.deps :: d.job == c && d.on in db.jobs ==> db.jobs[d.on].state != Succeeded
  }

  predicate SupportDone(db: Db, j: JobId) {
    j in db.jobs && db.jobs[j].jtype in {TRIAGE, REPORT} && db.jobs[j].state == Succeeded
  }

  predicate Expired(db: Db, j: JobId, ts: int) {
    j in db.jobs && db.jobs[j].Leased() && db.jobs[j].lease.Some? && db.jobs[j].lease.value < ts
  }

  predicate Exhausted(row: Job) { row.attempt >= row.maxAttempts }

  function FindOf(row: Job, j: JobId): Find { Find(j, row.state == Running, Exhausted(row)) }

  predicate Dispatched(db: Db, s: StudyId) {
    exists j <- db.jobs :: db.jobs[j].study == s && db.jobs[j].state !in {Proposed, Approved, Queued, Cancelled}
  }

  predicate AllTerminal(db: Db, s: StudyId) {
    forall j <- db.jobs :: db.jobs[j].study == s ==> Terminal(db.jobs[j].state)
  }

  // What fetchone() on the upstream query may return
  predicate IsUpstream(db: Db, c: JobId, up: Option<JobId>) {
    match up
    case Some(u) => u in db.jobs && Dep(c, u) in db.deps
    case None => forall d <- db.deps :: d.job != c
  }

  // _last_failure_payload(...).get("permanent")
  predicate PermanentFailure(log: seq<Event>, j: JobId) {
    if log == [] then false
    else
      var e := log[|log| - 1];
      if e.subject == JobSubject(j) && e.verb == JobFailed then e.detail.Moved? && e.detail.permanent
      else PermanentFailure(log[..|log| - 1], j)
  }

  // The recommendation of run_triage: RetrySpawned, Infeasible or Escalated
  function TriageDecision(db: Db, p: JobId): JobState
    requires p in db.jobs
  {
    if PermanentFailure(db.log, p) then Infeasible
    else if db.jobs[p].attempt >= db.jobs[p].maxAttempts then Escalated
    else RetrySpawned
  }

  // Whether the retry after this attempt is approved without a human; a study that does not say has none approved.
  predicate AutoRetry(policy: Policy, attempt: int) {
    attempt <= if policy.autoRetryMax.Some? then policy.autoRetryMax.value else 0
  }

  // decompose_study: first run plus policy-bounded retries, with another default than triage's
  function MaxAttempts(policy: Policy): int {
    (if policy.autoRetryMax.Some? then policy.autoRetryMax.value else 2) + 1
  }

  /******* Actions *******/

  datatype Act =
    // humans and the submission of a study
    | NewStudy(sid: StudyId, owner: Actor, policy: Policy, author: Option<Actor>, ts: int)
    | AddCase(sid: StudyId, caseId: string, overrides: map<string, int>, solver: string, aid: JobId, cid: JobId, ts: int)
    | AddReport(sid: StudyId, checks: seq<JobId>, rid: JobId, ts: int)
    | HumanStudy(sid: StudyId, to_: StudyStatus, name: string, ts: int)
    | HumanMove(j: JobId, to: JobState, name: string, ts: int)
    // control loops
    | FindExpired(j: JobId, ts: int)
    | Reap(j: JobId, started: bool, exhausted: bool, ts: int)
    | Enqueue(j: JobId, ts: int)
    | FlipTriage(j: JobId, ts: int)
    | ReadOrphan(j: JobId, ts: int)
    | MakeTriage(j: JobId, tid: JobId, ts: int)
    | ApproveTriage(tid: JobId, ts: int)
    | DropTriage(j: JobId, ts: int)
    | DropApproval(tid: JobId, ts: int)
    | GateUpstream(j: JobId, u: JobId, ts: int)
    | GateCheck(j: JobId, ts: int)
    | AcceptSupport(j: JobId, ts: int)
    | CancelDead(j: JobId, ts: int)
    | SyncStart(sid: StudyId, ts: int)
    | ReadDone(sid: StudyId, ts: int)
    | SyncReview(sid: StudyId, ts: int)
    // workers
    | Register(w: WorkerId, solvers: set<string>, memMb: Option<int>, capacity: int, ts: int)
    | Beat(w: WorkerId, ts: int)
    | Look(w: WorkerId, ts: int)
    | Claim(w: WorkerId, j: JobId, ts: int)
    | GiveUp(w: WorkerId, ts: int)
    | Start(w: WorkerId, j: JobId, ts: int)
    | AnalysisDone(w: WorkerId, j: JobId, ok: bool, permanent: bool, runRef: Option<RunRef>, ts: int)
    | Crash(w: WorkerId, j: JobId, ts: int)
    | GiveVerdict(w: WorkerId, j: JobId, up: Option<JobId>, vid: VerdictId, level: Level, ts: int)
    | CheckDone(w: WorkerId, j: JobId, vid: VerdictId, ts: int)
    | RunTriage(w: WorkerId, j: JobId, rid: JobId, warm: Option<RunRef>, logged: bool, ts: int)
    | HalfTriage(w: WorkerId, j: JobId, rid: JobId, warm: Option<RunRef>, cut: nat, ts: int)
    | DropRun(j: JobId, ts: int)
    | TriageDone(w: WorkerId, j: JobId, ts: int)
    | ReportDone(w: WorkerId, j: JobId, ts: int)

  // What the process must have read (or, for ids, drawn fresh) to take the step. A guard that the transaction
  // checks again itself (its expected_state) is left to the transaction.
  predicate Enabled(s: Sys, a: Act) {
    var db := s.db;
    match a
    case NewStudy(_, _, _, _, _) => true
    case AddCase(sid, caseId, overrides, _, aid, cid, _) =>
      // a case id spells its overrides out, also one that occurs twice
      && sid in db.studies && db.studies[sid].status == Draft
      && aid !in db.jobs && cid !in db.jobs && aid != cid
      && forall j <- db.jobs :: db.jobs[j].Key() == Some(CaseKey(sid, caseId)) ==> db.jobs[j].payload.overrides == overrides
    case AddReport(sid, checks, rid, _) =>
      // decompose_study is not disturbed: every CHECK it made is still as it made it
      && sid in db.studies && db.studies[sid].status == Draft && rid !in db.jobs && Distinct(checks)
      && (forall j <- db.jobs :: j in checks <==> db.jobs[j].study == sid && db.jobs[j].jtype == CHECK)
      && forall c <- checks :: c in db.jobs && db.jobs[c].state == Proposed
    case HumanStudy(_, _, _, _) => true
    case HumanMove(_, _, _, _) => true
    case FindExpired(j, ts) => Expired(db, j, ts)
    // by now the job may have been reaped, restarted or kept alive
    case Reap(j, started, exhausted, _) => Find(j, started, exhausted) in s.pending.reap
    case Enqueue(_, _) => true
    case FlipTriage(_, _) => true
    // the repair arm's query; by the time the child is created it may be stale
    case ReadOrphan(j, _) => j in db.jobs && db.jobs[j].state == Triage && !HasTriageChild(db, j)
    case MakeTriage(j, tid, _) => j in s.pending.make && j in db.jobs && tid !in db.jobs
    case ApproveTriage(tid, _) => tid in s.pending.approve
    // a loop that crashes, before or after it has created the child
    case DropTriage(j, _) => j in s.pending.make
    case DropApproval(_, _) => true
    case GateUpstream(c, u, _) => Checked(db, c) && u in db.jobs && Dep(c, u) in db.deps
    case GateCheck(c, _) => Graded(db, c) && UpstreamMoved(db, c)
    case AcceptSupport(j, _) => SupportDone(db, j)
    case CancelDead(j, _) => DeadBranch(db, j)
    case SyncStart(sid, _) => exists j <- s.judged :: j in db.jobs && db.jobs[j].study == sid
    case ReadDone(sid, _) => sid in db.studies && db.studies[sid].status != Draft && AllTerminal(db, sid)
    case SyncReview(sid, _) => sid in s.pending.review
    case Register(_, _, _, _, _) => true
    case Beat(_, _) => true
    case Look(w, _) => FreeWorker(db, w)
    case Claim(w, j, _) => w in s.seen && j in s.seen[w] && j in db.jobs
    case GiveUp(_, _) => true
    case Start(_, j, _) => j in db.jobs
    case AnalysisDone(_, j, _, _, _, _) => j in db.jobs && db.jobs[j].jtype == ANALYSIS
    case Crash(_, _, _) => true
    case GiveVerdict(_, c, up, _, _, _) =>
      c in s.judged && c in db.jobs && db.jobs[c].jtype == CHECK && IsUpstream(db, c, up)
    case CheckDone(_, c, vid, _) =>
      c in db.jobs && db.jobs[c].jtype == CHECK && vid in db.verdicts && db.verdicts[vid].job == c
    // run_triage comes to retire the parent if the parent is in 'triage'; its worker may die before the decision is logged
    case RunTriage(_, t, rid, _, _, _) =>
      t in s.pending.run && Triaging(db, t) && db.jobs[db.jobs[t].payload.failedJob].state == Triage && rid !in db.jobs
    // it breaks off before it retires the parent, which is not in 'triage', or because its worker dies
    case HalfTriage(_, t, rid, _, _, _) => t in s.pending.run && Triaging(db, t) && rid !in db.jobs
    // a worker that dies before it calls run_triage
    case DropRun(_, _) => true
    case TriageDone(_, t, _) => t in s.pending.ran && t in db.jobs && db.jobs[t].jtype == TRIAGE
    case ReportDone(_, j, _) => j in db.jobs && db.jobs[j].jtype == REPORT
  }

  // What run_triage reads of the TRIAGE job t is there.
  predicate Triaging(db: Db, t: JobId) {
    && t in db.jobs && db.jobs[t].jtype == TRIAGE
    && db.jobs[t].payload.TriagePayload? && db.jobs[t].payload.failedJob in db.jobs
  }

  function LeaseUntil(row: Job, ts: int): Option<int> { Some(ts + LeaseDuration(row.resource)) }

  // reap_expired's call of transition(), on what it has read
  function ReapCall(f: Find, ts: int): Request {
    Plain(f.j, if f.exhausted then Failed else Queued, REAPER, Some(if f.started then Running else Assigned), ts)
  }

  // The actions that are one call of transition()
  function SingleMove(db: Db, a: Act): Option<Request> {
    match a
    case HumanMove(j, to, name, ts) => Some(Plain(j, to, Human(name), None, ts))
    case Reap(j, started, exhausted, ts) => Some(ReapCall(Find(j, started, exhausted), ts))
    case Enqueue(j, ts) => Some(Plain(j, Queued, SCHEDULER, Some(Approved), ts))
    case FlipTriage(j, ts) => Some(Plain(j, Triage, Agent, Some(Failed), ts))
    case ApproveTriage(tid, ts) => Some(Plain(tid, Approved, Agent, None, ts))
    case GateUpstream(c, u, ts) => if Checked(db, c) then Some(GateUp(db, c, u, ts)) else None
    case GateCheck(c, ts) => Some(GateSelf(c, ts))
    case AcceptSupport(j, ts) => Some(Plain(j, Accepted, Agent, Some(Succeeded), ts))
    case CancelDead(j, ts) =>
      if j !in db.jobs then None else Some(Plain(j, Cancelled, SCHEDULER, Some(db.jobs[j].state), ts))
    case Claim(w, j, ts) =>
      if j !in db.jobs then None
      else Some(Request(j, Assigned, Worker(w), Some(Queued), Some(w), LeaseUntil(db.jobs[j], ts), None, None, false, ts))
    case Start(w, j, ts) =>
      if j !in db.jobs then None
      else Some(Plain(j, Running, Worker(w), Some(Assigned), ts).(lease := LeaseUntil(db.jobs[j], ts)))
    case AnalysisDone(w, j, ok, permanent, runRef, ts) =>
      Some(Plain(j, if ok then Succeeded else Failed, Worker(w), Some(Running), ts).(runRef := runRef,
        permanent := !ok && permanent))
    case Crash(w, j, ts) => Some(Plain(j, Failed, Worker(w), Some(Running), ts))
    case CheckDone(w, c, vid, ts) =>
      if vid !in db.verdicts then None
      else Some(Plain(c, Succeeded, Worker(w), Some(Running), ts).(runRef := db.verdicts[vid].runRef, verdict := Some(vid)))
    case TriageDone(w, j, ts) => Some(Plain(j, Succeeded, Worker(w), Some(Running), ts))
    case ReportDone(w, j, ts) => Some(Plain(j, Succeeded, Worker(w), Some(Running), ts))
    case _ => None
  }

  function CaseJob(db: Db, sid: StudyId, caseId: string, overrides: map<string, int>, solver: string, aid: JobId,
    ts: int): NewJob {
    var p := PolicyOf(db, sid);
    NewJob(aid, sid, ANALYSIS, CasePayload(caseId, overrides, None), Agent, p.priority, Resource(240, {solver}, None),
           MaxAttempts(p), 1, None, [], ts)
  }

  function CheckJob(db: Db, sid: StudyId, aid: JobId, cid: JobId, ts: int): NewJob {
    var p := PolicyOf(db, sid);
    NewJob(cid, sid, CHECK, PlainPayload, Agent, p.priority, Resource(30, {}, None), MaxAttempts(p), 1, None, [aid], ts)
  }

  function ReportJob(db: Db, sid: StudyId, checks: seq<JobId>, rid: JobId, ts: int): NewJob {
    NewJob(rid, sid, REPORT, PlainPayload, Agent, PolicyOf(db, sid).priority, Resource(60, {}, None), 3, 1, None, checks, ts)
  }

  // _create_triage_job
  function TriageJob(row: Job, j: JobId, tid: JobId, ts: int): NewJob {
    NewJob(tid, row.study, TRIAGE, TriagePayload(j), Agent, if row.priority > 10 then row.priority - 10 else 0,
           Resource(30, {}, None), 3, 1, Some(j), [], ts)
  }

  function RetryJob(row: Job, policy: Policy, p: JobId, rid: JobId, warm: Option<RunRef>, ts: int): NewJob {
    NewJob(rid, row.study, row.jtype,
           if policy.warmStart && row.payload.CasePayload? then row.payload.(warmStart := warm) else row.payload,
           Agent, row.priority, row.resource, row.maxAttempts, row.attempt + 1, Some(p), [], ts)
  }

  function Approval(j: JobId, ts: int): Op { DoMove(Plain(j, Approved, Agent, None, ts)) }

  // Where a verdict sends the upstream ANALYSIS
  function GateTarget(policy: Policy, level: Level): JobState {
    if level == policy.autoLevel && level !in policy.gateOn then Accepted else Review
  }

  // The gate's move of the upstream, on the verdict c carries
  function GateUp(db: Db, c: JobId, u: JobId, ts: int): Request
    requires Checked(db, c)
  {
    var v := db.jobs[c].verdict.value;
    Plain(u, GateTarget(PolicyOf(db, db.jobs[c].study), db.verdicts[v].level), Agent, Some(Succeeded), ts).(verdict := Some(v))
  }

  function GateSelf(c: JobId, ts: int): Request { Plain(c, Accepted, Agent, Some(Succeeded), ts) }

  // What run_triage does before it retires p: the retry, when there is one
  function RetryOps(db: Db, p: JobId, rid: JobId, warm: Option<RunRef>, ts: int): seq<Op>
    requires p in db.jobs
  {
    var row, policy := db.jobs[p], PolicyOf(db, db.jobs[p].study);
    if TriageDecision(db, p) == RetrySpawned then
      [DoCreateJob(RetryJob(row, policy, p, rid, warm, ts)), DoRepoint(p, rid)]
      + if AutoRetry(policy, row.attempt) then [Approval(rid, ts)] else []
    else []
  }

  // run_triage, all of it, or all but the log entry
  function TriageOps(db: Db, p: JobId, rid: JobId, warm: Option<RunRef>, logged: bool, ts: int): seq<Op>
    requires p in db.jobs
  {
    RetryOps(db, p, rid, warm, ts) + [DoMove(Plain(p, TriageDecision(db, p), Agent, Some(Triage), ts))]
    + if logged then [DoLogDecision(p, ts)] else []
  }

  // They are three at most.
  const ALL: nat := 3

  function FirstOf<T>(s: seq<T>, n: nat): seq<T> { if n <= |s| then s[..n] else s }

  function Ops(s: Sys, a: Act): seq<Op>
    requires Enabled(s, a)
  {
    var db := s.db;
    if SingleMove(db, a).Some? then [DoMove(SingleMove(db, a).value)]
    else
      match a
      case NewStudy(sid, owner, policy, author, ts) => [DoCreateStudy(sid, owner, policy, author, ts)]
      case AddCase(sid, caseId, overrides, solver, aid, cid, ts) =>
        [DoCreateJob(CaseJob(db, sid, caseId, overrides, solver, aid, ts)), DoCreateJob(CheckJob(db, sid, aid, cid, ts))]
      case AddReport(sid, checks, rid, ts) =>
        [DoCreateJob(ReportJob(db, sid, checks, rid, ts)), DoMoveStudy(StudyRequest(sid, PlanProposed, Agent, Some(Draft), ts))]
      case HumanStudy(sid, to, name, ts) => [DoMoveStudy(StudyRequest(sid, to, Human(name), None, ts))]
      case MakeTriage(j, tid, ts) => [DoCreateJob(TriageJob(db.jobs[j], j, tid, ts))]
      case SyncStart(sid, ts) => [DoMoveStudy(StudyRequest(sid, InProgress, SCHEDULER, Some(PlanApproved), ts))]
      case SyncReview(sid, ts) => [DoMoveStudy(StudyRequest(sid, InReview, SCHEDULER, Some(InProgress), ts))]
      case Register(w, solvers, memMb, capacity, ts) => [DoRegister(w, solvers, memMb, capacity, ts)]
      case Beat(w, ts) => [DoHeartbeat(w, ts)]
      case GiveVerdict(w, c, up, vid, level, ts) =>
        [DoRecordVerdict(vid, Verdict(c, if up.Some? then db.jobs[up.value].runRef else None, level), Worker(w), ts)]
      case RunTriage(_, t, rid, warm, logged, ts) => TriageOps(db, db.jobs[t].payload.failedJob, rid, warm, logged, ts)
      case HalfTriage(_, t, rid, warm, cut, ts) => FirstOf(RetryOps(db, db.jobs[t].payload.failedJob, rid, warm, ts), cut)
      case _ => []
  }

  function NextSeen(s: Sys, a: Act): map<WorkerId, set<JobId>>
    requires Enabled(s, a)
  {
    match a
    case Look(w, _) => s.seen[w := Runnable(s.db)]
    // a won claim ends the loop, a lost one (StaleState) drops the job
    case Claim(w, j, _) => s.seen[w := if s.db.jobs[j].state == Queued then {} else s.seen[w] - {j}]
    case GiveUp(w, _) => s.seen[w := {}]
    case _ => s.seen
  }

  function NextJudged(s: Sys, a: Act): set<JobId> {
    if a.Look? then s.judged + Runnable(s.db) else s.judged
  }

  function NextPending(s: Sys, a: Act): Pending {
    var p := s.pending;
    match a
    // only the loop whose CAS succeeds goes on to create the child
    case FlipTriage(j, _) => if j in s.db.jobs && s.db.jobs[j].state == Failed then p.(make := p.make + multiset{j}) else p
    case ReadOrphan(j, _) => p.(make := p.make + multiset{j})
    case MakeTriage(j, tid, _) => p.(make := p.make - multiset{j}, approve := p.approve + {tid})
    case DropTriage(j, _) => p.(make := p.make - multiset{j})
    case ApproveTriage(tid, _) => p.(approve := p.approve - {tid})
    case DropApproval(tid, _) => p.(approve := p.approve - {tid})
    case Start(_, t, _) =>
      if t in s.db.jobs && s.db.jobs[t].jtype == TRIAGE && s.db.jobs[t].state == Assigned
        then p.(run := p.run + multiset{t}) else p
    case RunTriage(_, t, _, _, logged, _) => p.(run := p.run - multiset{t}, ran := if logged then p.ran + {t} else p.ran)
    case HalfTriage(_, t, _, _, _, _) => p.(run := p.run - multiset{t})
    case DropRun(t, _) => p.(run := p.run - multiset{t})
    case FindExpired(j, _) => if j in s.db.jobs then p.(reap := p.reap + multiset{FindOf(s.db.jobs[j], j)}) else p
    case Reap(j, started, exhausted, _) => p.(reap := p.reap - multiset{Find(j, started, exhausted)})
    case ReadDone(sid, _) => p.(review := p.review + multiset{sid})
    case SyncReview(sid, _) => p.(review := p.review - multiset{sid})
    case _ => p
  }

  function Step(s: Sys, a: Act): Sys {
    if Enabled(s, a) then Sys(Exec(s.db, Ops(s, a)), NextSeen(s, a), NextJudged(s, a), NextPending(s, a)) else s
  }

  function Run(s: Sys, acts: seq<Act>): Sys {
    if acts == [] then s else Step(Run(s, acts[..|acts| - 1]), acts[|acts| - 1])
  }

  /******* Unfolding *******/

  lemma Exec1(db: Db, a: Op)
    ensures Exec(db, [a]) == Apply(db, a)
  {
    assert [a][..0] == [];
  }

  lemma Exec2(db: Db, a: Op, b: Op)
    ensures Exec(db, [a, b]) == Apply(Apply(db, a), b)
  {
    assert [a, b][..1] == [a];
    Exec1(db, a);
  }

  lemma Exec3(db: Db, a: Op, b: Op, c: Op)
    ensures Exec(db, [a, b, c]) == Apply(Apply(Apply(db, a), b), c)
  {
    assert [a, b, c][..2] == [a, b];
    Exec2(db, a, b);
  }

  lemma Disabled(s: Sys, a: Act)
    ensures !Enabled(s, a) ==> Step(s, a) == s
  {
    hide Ops, Exec, NextSeen, Enabled;
  }

  lemma RunPush(s: Sys, acts: seq<Act>, a: Act)
    ensures Run(s, acts + [a]) == Step(Run(s, acts), a)
  {
    hide Step;
    assert (acts + [a])[..|acts|] == acts;
  }

  lemma RunOne(s: Sys, a: Act)
    ensures Run(s, [a]) == Step(s, a)
  {
    hide Step;
    RunPush(s, [], a);
    assert [] + [a] == [a];
  }

  lemma {:induction false} RunConcat(s: Sys, a: seq<Act>, b: seq<Act>)
    ensures Run(s, a + b) == Run(Run(s, a), b)
  {
    hide Step;
    if b == [] {
      assert a + b == a;
    } else {
      assert (a + b)[..|a + b| - 1] == a + b[..|b| - 1];
      RunConcat(s, a, b[..|b| - 1]);
    }
  }

  // Every run of actions is a run of primitive transactions.
  lemma {:induction false} RunIsExec(s: Sys, acts: seq<Act>) returns (ops: seq<Op>)
    ensures Run(s, acts).db == Exec(s.db, ops)
  {
    hide Ops, Apply, NextSeen, Enabled;
    if acts == [] {
      ops := [];
    } else {
      var mid, a := Run(s, acts[..|acts| - 1]), acts[|acts| - 1];
      ops := RunIsExec(s, acts[..|acts| - 1]);
      if Enabled(mid, a) {
        ExecConcat(s.db, ops, Ops(mid, a));
        ops := ops + Ops(mid, a);
      }
    }
  }
}
