/**
 What a control tick leaves behind. Each phase of control_tick selects its work once and does all of it; the
 relations below say what each phase does to the tables when nobody interferes. Two theorems about them: a tick
 changes something exactly when there is work, and in the shape decompose gives the graph the third tick never
 has any. A third theorem bounds every interleaving of control steps, whoever takes them.
 */
module Control {
  import opened Wrappers
  import opened Rows
  import opened Substrate
  import opened Protocol
  import opened Effects
  import opened Structure
  import opened Readiness
  import opened EventLog
  import Columns

  /******* The work each phase finds *******/

  function ExpiredJobs(db: Db, now: int): set<JobId> { set j | j in db.jobs && Expired(db, j, now) }

  function ApprovedJobs(db: Db): set<JobId> { set j | j in db.jobs && db.jobs[j].state == Approved }

  function FailedJobs(db: Db): set<JobId> { set j | j in db.jobs && db.jobs[j].state == Failed }

  function OrphanJobs(db: Db): set<JobId> { set j | j in db.jobs && db.jobs[j].state == Triage && !HasTriageChild(db, j) }

  function GradedChecks(db: Db): set<JobId> { set j | j in db.jobs && Graded(db, j) }

  function DoneSupport(db: Db): set<JobId> { set j | j in db.jobs && SupportDone(db, j) }

  function DeadBranches(db: Db): set<JobId> { set j | j in db.jobs && DeadBranch(db, j) }

  function StartableStudies(db: Db): set<StudyId> {
    set t | t in db.studies && db.studies[t].status == PlanApproved && Dispatched(db, t)
  }

  function ReviewableStudies(db: Db): set<StudyId> {
    set t | t in db.studies && db.studies[t].status == InProgress && AllTerminal(db, t)
  }

  predicate Idle(db: Db, now: int) {
    && ExpiredJobs(db, now) == {} && ApprovedJobs(db) == {} && FailedJobs(db) == {} && OrphanJobs(db) == {}
    && GradedChecks(db) == {} && DoneSupport(db) == {} && DeadBranches(db) == {}
    && StartableStudies(db) == {} && ReviewableStudies(db) == {}
  }

  /******* What each phase does *******/

  // No work, no change; work leaves a trace in the log.
  predicate Worked<T>(a: Db, b: Db, work: set<T>) {
    a.log <= b.log && if work == {} then b == a else |b.log| > |a.log|
  }

  predicate OnlyRows(a: Db, b: Db) {
    b.deps == a.deps && b.verdicts == a.verdicts && b.studies == a.studies && b.workers == a.workers
  }

  // The rows in `work` make one move, the others stay.
  ghost predicate Does(a: Db, b: Db, work: set<JobId>, c: Chore) {
    && OnlyRows(a, b) && b.jobs.Keys == a.jobs.Keys
    && forall j <- a.jobs :: b.jobs[j] == if j in work then Moving(a.jobs[j], Target(c, a.jobs[j])) else a.jobs[j]
  }

  // The phases that move one job at a time
  datatype Chore = Reaping | Enqueueing | Accepting | Cancelling

  function Target(c: Chore, row: Job): JobState {
    match c
    case Reaping => if row.attempt >= row.maxAttempts then Failed else Queued
    case Enqueueing => Queued
    case Accepting => Accepted
    case Cancelling => Cancelled
  }

  // The row after a move that passes no lease and no references
  function Moving(row: Job, to: JobState): Job { MovedRow(row, Plain(0, to, SCHEDULER, None, 0)) }

  ghost predicate ReapPhase(a: Db, b: Db, now: int) {
    Worked(a, b, ExpiredJobs(a, now)) && Does(a, b, ExpiredJobs(a, now), Reaping)
  }

  ghost predicate EnqueuePhase(a: Db, b: Db) {
    Worked(a, b, ApprovedJobs(a)) && Does(a, b, ApprovedJobs(a), Enqueueing)
  }

  // Failed jobs enter triage; every job that is in triage without a TRIAGE child gets one new child.
  ghost predicate SpawnPhase(a: Db, b: Db) {
    && Worked(a, b, FailedJobs(a) + OrphanJobs(a)) && OnlyRows(a, b) && a.jobs.Keys <= b.jobs.Keys
    && (forall j <- a.jobs :: b.jobs[j] == if j in FailedJobs(a) then Moving(a.jobs[j], Triage) else a.jobs[j])
    && (forall t <- b.jobs :: t in a.jobs || ChildOf(a, b.jobs[t]))
    && (forall p <- FailedJobs(a) + OrphanJobs(a) ::
          exists t <- b.jobs :: t !in a.jobs && b.jobs[t].jtype == TRIAGE && b.jobs[t].parent == Some(p))
    && OneChildEach(a, b)
  }

  predicate OneChildEach(a: Db, b: Db) {
    forall t <- b.jobs, u <- b.jobs :: t !in a.jobs && u !in a.jobs && b.jobs[t].parent == b.jobs[u].parent ==> t == u
  }

  // triage jumps the queue
  function Sooner(priority: int): int { if priority > 10 then priority - 10 else 0 }

  predicate ChildOf(a: Db, row: Job) {
    && row.jtype == TRIAGE && row.state == Approved && row.parent.Some? && row.parent.value in FailedJobs(a) + OrphanJobs(a)
    && row.study == a.jobs[row.parent.value].study && row.payload == TriagePayload(row.parent.value)
    && row.priority == Sooner(a.jobs[row.parent.value].priority)
    && row.resource == Resource(30, {}, None) && row.attempt == 1 && row.maxAttempts == 3
    && row.worker == None && row.lease == None && row.runRef == None && row.verdict == None
  }

  // Graded CHECKs are accepted; upstreams that wait for their verdict go where it sends them, and carry it.
  ghost predicate GatePhase(a: Db, b: Db) {
    && Worked(a, b, GradedChecks(a)) && OnlyRows(a, b) && b.jobs.Keys == a.jobs.Keys
    && forall j <- a.jobs ::
         if Graded(a, j) then b.jobs[j] == Moving(a.jobs[j], Accepted)
         else if a.jobs[j].state == Succeeded && GatedBy(a, j, GradedChecks(a)) then Sent(a, b.jobs[j], j, GradedChecks(a))
         else b.jobs[j] == a.jobs[j]
  }

  ghost predicate GatedBy(db: Db, u: JobId, checks: set<JobId>) { exists c <- checks :: Dep(c, u) in db.deps }

  // Where the verdict of one of the CHECKs sends its upstream
  ghost predicate Sent(a: Db, row: Job, u: JobId, checks: set<JobId>)
    requires u in a.jobs
  {
    exists c <- checks :: Graded(a, c) && Dep(c, u) in a.deps && row == MovedRow(a.jobs[u], GateUp(a, c, u, 0))
  }

  ghost predicate SupportPhase(a: Db, b: Db) {
    Worked(a, b, DoneSupport(a)) && Does(a, b, DoneSupport(a), Accepting)
  }

  ghost predicate CancelPhase(a: Db, b: Db) {
    Worked(a, b, DeadBranches(a)) && Does(a, b, DeadBranches(a), Cancelling)
  }

  ghost predicate StudyPhase(a: Db, b: Db, work: set<StudyId>, to: StudyStatus) {
    && Worked(a, b, work) && b.jobs == a.jobs && b.deps == a.deps && b.verdicts == a.verdicts && b.workers == a.workers
    && b.studies.Keys == a.studies.Keys
    && forall t <- a.studies :: b.studies[t] == if t in work then a.studies[t].(status := to) else a.studies[t]
  }

  /******* The phases, column by column *******/

  lemma ReapColumns(a: Db, b: Db, actions: map<JobId, JobState>, now: int)
    requires Does(a, b, ExpiredJobs(a, now), Reaping) && actions.Keys == ExpiredJobs(a, now)
    requires forall j <- actions :: actions[j] == Target(Reaping, a.jobs[j])
    ensures Columns.RowsReaped(a.jobs, b.jobs, actions, now)
  {}

  lemma EnqueueColumns(a: Db, b: Db)
    requires Does(a, b, ApprovedJobs(a), Enqueueing)
    ensures Columns.RowsMoved(a.jobs, b.jobs, Columns.Approved_(a.jobs), Queued, |ApprovedJobs(a)|)
  {
    forall j ensures j in ApprovedJobs(a) <==> j in Columns.Approved_(a.jobs) {}
    assert ApprovedJobs(a) == Columns.Approved_(a.jobs);
  }

  lemma SupportColumns(a: Db, b: Db)
    requires Does(a, b, DoneSupport(a), Accepting)
    ensures Columns.RowsMoved(a.jobs, b.jobs, Columns.Supporting(a.jobs), Accepted, |DoneSupport(a)|)
  {
    forall j ensures j in DoneSupport(a) <==> j in Columns.Supporting(a.jobs) {}
    assert DoneSupport(a) == Columns.Supporting(a.jobs);
  }

  lemma CancelColumns(a: Db, b: Db)
    requires Does(a, b, DeadBranches(a), Cancelling)
    ensures Columns.RowsMoved(a.jobs, b.jobs, Columns.DeadBranch(a.jobs, a.deps), Cancelled, |DeadBranches(a)|)
  {
    forall j ensures j in DeadBranches(a) <==> j in Columns.DeadBranch(a.jobs, a.deps) {}
    assert DeadBranches(a) == Columns.DeadBranch(a.jobs, a.deps);
  }

  lemma SpawnColumns(a: Db, b: Db)
    requires SpawnPhase(a, b)
    ensures Columns.RowsSpawned(a.jobs, b.jobs)
    ensures Columns.FailedRows(a.jobs) == FailedJobs(a) && Columns.ChildlessRows(a.jobs) == OrphanJobs(a)
  {
    hide OrphanJobs, FailedJobs, Columns.ChildlessRows, Columns.FailedRows, Columns.ChildRow, ChildOf, Moving;
    SpawnWork(a);
    forall t <- b.jobs | t !in a.jobs
      ensures exists p <- FailedJobs(a) + OrphanJobs(a) :: Columns.ChildRow(a.jobs[p], p, b.jobs[t])
    {
      ChildColumns(a, b.jobs[t]);
    }
    forall j <- a.jobs ensures b.jobs[j] == if a.jobs[j].state == Failed then a.jobs[j].(state := Triage) else a.jobs[j] {
      FlippedRow(a, j);
    }
  }

  lemma SpawnWork(a: Db)
    ensures Columns.FailedRows(a.jobs) == FailedJobs(a) && Columns.ChildlessRows(a.jobs) == OrphanJobs(a)
    ensures FailedJobs(a) + OrphanJobs(a) <= a.jobs.Keys
  {
    forall j ensures j in OrphanJobs(a) <==> j in Columns.ChildlessRows(a.jobs) {}
    assert Columns.ChildlessRows(a.jobs) == OrphanJobs(a);
  }

  lemma ChildColumns(a: Db, row: Job)
    requires ChildOf(a, row)
    ensures row.parent.Some? && row.parent.value in FailedJobs(a) + OrphanJobs(a)
    ensures Columns.ChildRow(a.jobs[row.parent.value], row.parent.value, row)
  {}

  lemma FlippedRow(a: Db, j: JobId)
    requires j in a.jobs
    ensures j in FailedJobs(a) <==> a.jobs[j].state == Failed
    ensures a.jobs[j].state == Failed ==> Moving(a.jobs[j], Triage) == a.jobs[j].(state := Triage)
  {}

  lemma GateColumns(a: Db, b: Db)
    requires GatePhase(a, b) && forall j <- a.jobs :: a.jobs[j].study in a.studies
    ensures Columns.RowsGated(a, b.jobs)
  {
    hide Graded, GatedBy, Sent, GradedChecks, Columns.GradedCheck, Columns.GatedRow, Moving;
    forall j <- a.jobs
      ensures Graded(a, j) <==> Columns.GradedCheck(a, j)
      ensures GatedBy(a, j, GradedChecks(a)) <==> exists c <- a.jobs :: Columns.GradedCheck(a, c) && Dep(c, j) in a.deps
    {
      GatedIff(a, j);
    }
    forall j <- a.jobs ensures Graded(a, j) ==> Moving(a.jobs[j], Accepted) == a.jobs[j].(state := Accepted) {
      if Graded(a, j) { AcceptedRow(a, j); }
    }
    forall j <- a.jobs | a.jobs[j].state == Succeeded && Sent(a, b.jobs[j], j, GradedChecks(a))
      ensures exists c <- a.jobs ::
        Columns.GradedCheck(a, c) && Dep(c, j) in a.deps && a.jobs[c].study in a.studies
        && Columns.GatedRow(a, c, a.jobs[j], b.jobs[j])
    {
      SentColumns(a, b.jobs[j], j);
    }
  }

  lemma GatedIff(a: Db, j: JobId)
    ensures Graded(a, j) <==> Columns.GradedCheck(a, j)
    ensures GatedBy(a, j, GradedChecks(a)) <==> exists c <- a.jobs :: Columns.GradedCheck(a, c) && Dep(c, j) in a.deps
  {
    if GatedBy(a, j, GradedChecks(a)) {
      var c :| c in GradedChecks(a) && Dep(c, j) in a.deps;
      assert Columns.GradedCheck(a, c);
    }
    if exists c <- a.jobs :: Columns.GradedCheck(a, c) && Dep(c, j) in a.deps {
      var c :| c in a.jobs && Columns.GradedCheck(a, c) && Dep(c, j) in a.deps;
      assert c in GradedChecks(a);
    }
  }

  lemma AcceptedRow(a: Db, j: JobId)
    requires Graded(a, j)
    ensures Moving(a.jobs[j], Accepted) == a.jobs[j].(state := Accepted)
  {}

  lemma SentColumns(a: Db, row: Job, j: JobId)
    requires j in a.jobs && a.jobs[j].state == Succeeded && Sent(a, row, j, GradedChecks(a))
    requires forall i <- a.jobs :: a.jobs[i].study in a.studies
    ensures exists c <- a.jobs ::
      Columns.GradedCheck(a, c) && Dep(c, j) in a.deps && a.jobs[c].study in a.studies && Columns.GatedRow(a, c, a.jobs[j], row)
  {
    var c :| c in GradedChecks(a) && Graded(a, c) && Dep(c, j) in a.deps && row == MovedRow(a.jobs[j], GateUp(a, c, j, 0));
    assert Columns.GatedRow(a, c, a.jobs[j], row);
  }

  lemma StudyColumns(a: Db, b: Db, to: StudyStatus)
    requires to in {InProgress, InReview}
    requires StudyPhase(a, b, if to == InProgress then StartableStudies(a) else ReviewableStudies(a), to)
    ensures Columns.StudiesSynced(a, b, to)
  {}

  // The databases between the phases of one tick
  datatype Tick = Tick(start: Db, reaped: Db, enqueued: Db, spawned: Db, gated: Db, supported: Db, cancelled: Db,
    started: Db, end: Db)

  ghost predicate Ticked(k: Tick, now: int) {
    && ReapPhase(k.start, k.reaped, now)
    && EnqueuePhase(k.reaped, k.enqueued)
    && SpawnPhase(k.enqueued, k.spawned)
    && GatePhase(k.spawned, k.gated)
    && SupportPhase(k.gated, k.supported)
    && CancelPhase(k.supported, k.cancelled)
    && StudyPhase(k.cancelled, k.started, StartableStudies(k.cancelled), InProgress)
    && StudyPhase(k.started, k.end, ReviewableStudies(k.started), InReview)
  }

  // A tick changes nothing exactly when no phase has work.
  lemma TickIsIdle(k: Tick, now: int)
    requires Ticked(k, now)
    ensures k.end == k.start <==> Idle(k.start, now)
    ensures k.end == k.start <==> |k.end.log| == |k.start.log|
  {}

  /******* What a tick leaves *******/

  // decompose's shape: what a job other than a REPORT depends on depends on nothing
  ghost predicate Shape(db: Db) {
    && (forall d <- db.deps :: d.job in db.jobs && d.on in db.jobs)
    && forall d <- db.deps, e <- db.deps :: db.jobs[d.job].jtype != REPORT ==> e.job != d.on
  }

  ghost predicate EdgeFree(db: Db, j: JobId) { forall d <- db.deps :: d.job != j }

  ghost predicate OnlyNewTriage(db: Db) {
    forall j <- ApprovedJobs(db) :: db.jobs[j].jtype == TRIAGE && EdgeFree(db, j)
  }

  // Only the TRIAGE jobs a tick has just made are left for the next one.
  ghost predicate AlmostIdle(db: Db, now: int) {
    && ExpiredJobs(db, now) == {} && FailedJobs(db) == {} && OrphanJobs(db) == {}
    && GradedChecks(db) == {} && DoneSupport(db) == {} && DeadBranches(db) == {}
    && StartableStudies(db) == {} && ReviewableStudies(db) == {} && OnlyNewTriage(db)
  }

  lemma ReapLeaves(a: Db, b: Db, now: int)
    requires ReapPhase(a, b, now) && Shape(a)
    ensures ExpiredJobs(b, now) == {} && Shape(b)
  {
    forall j <- b.jobs ensures !Expired(b, j, now) {
      assert b.jobs[j] == if Expired(a, j, now) then Moving(a.jobs[j], Target(Reaping, a.jobs[j])) else a.jobs[j];
    }
  }

  lemma EnqueueLeaves(a: Db, b: Db, now: int)
    requires EnqueuePhase(a, b) && ExpiredJobs(a, now) == {} && Shape(a)
    ensures ExpiredJobs(b, now) == {} && ApprovedJobs(b) == {} && Shape(b)
  {
    forall j <- b.jobs ensures !Expired(b, j, now) && b.jobs[j].state != Approved {
      assert j !in ExpiredJobs(a, now);
    }
  }

  lemma SpawnRows(a: Db, b: Db, now: int)
    requires SpawnPhase(a, b) && ExpiredJobs(a, now) == {} && ApprovedJobs(a) == {}
    ensures forall j <- b.jobs :: !Expired(b, j, now) && b.jobs[j].state != Failed && (b.jobs[j].state == Approved ==>
      j !in a.jobs && b.jobs[j].jtype == TRIAGE)
  {
    forall j <- b.jobs
      ensures !Expired(b, j, now) && b.jobs[j].state != Failed
      ensures b.jobs[j].state == Approved ==> j !in a.jobs && b.jobs[j].jtype == TRIAGE
    {
      if j in a.jobs {
        assert j !in ExpiredJobs(a, now) && j !in ApprovedJobs(a);
      }
    }
  }

  lemma SpawnAdopts(a: Db, b: Db)
    requires SpawnPhase(a, b)
    ensures OrphanJobs(b) == {}
  {
    forall j <- b.jobs | b.jobs[j].state == Triage ensures HasTriageChild(b, j) {
      if j !in FailedJobs(a) + OrphanJobs(a) {
        var t :| t in a.jobs && a.jobs[t].jtype == TRIAGE && a.jobs[t].parent == Some(j);
        assert b.jobs[t].jtype == TRIAGE && b.jobs[t].parent == Some(j);
      }
    }
  }

  lemma SpawnLeaves(a: Db, b: Db, now: int)
    requires SpawnPhase(a, b) && ExpiredJobs(a, now) == {} && ApprovedJobs(a) == {} && Shape(a)
    ensures ExpiredJobs(b, now) == {} && FailedJobs(b) == {} && OrphanJobs(b) == {} && OnlyNewTriage(b) && Shape(b)
  {
    SpawnRows(a, b, now);
    SpawnAdopts(a, b);
    hide OrphanJobs, Expired;
    assert forall d <- b.deps :: d.job in a.jobs && d.on in a.jobs;
    assert forall j <- a.jobs :: b.jobs[j].jtype == a.jobs[j].jtype;
  }

  ghost predicate Clean(db: Db, now: int) {
    ExpiredJobs(db, now) == {} && FailedJobs(db) == {} && OrphanJobs(db) == {} && OnlyNewTriage(db) && Shape(db)
  }

  // The later phases leave the earlier ones nothing.
  ghost predicate Tame(a: Db, b: Db) {
    && OnlyRows(a, b) && b.jobs.Keys == a.jobs.Keys
    && forall j <- a.jobs ::
         && b.jobs[j].jtype == a.jobs[j].jtype && b.jobs[j].parent == a.jobs[j].parent && b.jobs[j].study == a.jobs[j].study
         && (b.jobs[j] == a.jobs[j] || b.jobs[j].state in {Accepted, Review, Cancelled})
  }

  lemma TameIsClean(a: Db, b: Db, now: int)
    requires Tame(a, b) && Clean(a, now)
    ensures Clean(b, now)
  {
    forall j <- b.jobs ensures !Expired(b, j, now) && b.jobs[j].state != Failed {
      assert j !in ExpiredJobs(a, now) && j !in FailedJobs(a);
    }
    forall j <- b.jobs | b.jobs[j].state == Triage ensures HasTriageChild(b, j) {
      assert j !in OrphanJobs(a);
      var t :| t in a.jobs && a.jobs[t].jtype == TRIAGE && a.jobs[t].parent == Some(j);
      assert b.jobs[t].jtype == TRIAGE && b.jobs[t].parent == Some(j);
    }
    forall j <- ApprovedJobs(b) ensures b.jobs[j].jtype == TRIAGE && EdgeFree(b, j) {
      assert j in ApprovedJobs(a);
    }
  }

  lemma GateLeaves(a: Db, b: Db)
    requires GatePhase(a, b)
    ensures Tame(a, b) && GradedChecks(b) == {}
  {
    forall j <- b.jobs
      ensures !Graded(b, j) && (b.jobs[j] == a.jobs[j] || b.jobs[j].state in {Accepted, Review})
      ensures SameColumns(a.jobs[j], b.jobs[j])
    {
      if !Graded(a, j) && b.jobs[j] != a.jobs[j] { SentRow(a, b.jobs[j], j, GradedChecks(a)); }
    }
  }

  lemma SentRow(a: Db, row: Job, u: JobId, checks: set<JobId>)
    requires u in a.jobs && Sent(a, row, u, checks)
    ensures row.state in {Accepted, Review} && SameColumns(a.jobs[u], row)
  {}

  lemma SupportLeaves(a: Db, b: Db)
    requires SupportPhase(a, b) && GradedChecks(a) == {}
    ensures Tame(a, b) && GradedChecks(b) == {} && DoneSupport(b) == {}
  {
    forall j <- b.jobs ensures !Graded(b, j) && !SupportDone(b, j) {
      assert j !in GradedChecks(a);
      assert j in DoneSupport(a) || b.jobs[j] == a.jobs[j];
    }
  }

  lemma CancelIsTame(a: Db, b: Db)
    requires CancelPhase(a, b) && GradedChecks(a) == {} && DoneSupport(a) == {}
    ensures Tame(a, b) && GradedChecks(b) == {} && DoneSupport(b) == {}
  {
    forall j <- b.jobs ensures b.jobs[j] == a.jobs[j] || b.jobs[j] == Moving(a.jobs[j], Cancelled) {}
    CancelledOnly(a, b);
    hide CancelPhase, DeadBranches;
    forall j <- b.jobs ensures !Graded(b, j) && !SupportDone(b, j) {
      assert j !in GradedChecks(a) && j !in DoneSupport(a);
    }
  }

  lemma CancelledOnly(a: Db, b: Db)
    requires CancelPhase(a, b)
    ensures Tame(a, b)
  {
    hide DeadBranches;
  }

  lemma CancelLeaves(a: Db, b: Db)
    requires CancelPhase(a, b) && Shape(a)
    ensures DeadBranches(b) == {}
  {
    forall j <- b.jobs, d <- b.deps | d.job == j && PreQueue(b.jobs[j].state) && b.jobs[j].jtype != REPORT && d.on in b.jobs
      ensures !Dead(b.jobs[d.on].state)
    {
      Spared(a, b, d);
    }
  }

  // What d.job depends on depends on nothing, so it is not this phase that killed it.
  lemma Spared(a: Db, b: Db, d: Dep)
    requires CancelPhase(a, b) && Shape(a) && d in a.deps && PreQueue(b.jobs[d.job].state) && b.jobs[d.job].jtype != REPORT
    ensures !Dead(b.jobs[d.on].state)
  {
    assert d.on !in DeadBranches(a);
    assert d.job !in DeadBranches(a);
    assert b.jobs[d.job] == a.jobs[d.job] && b.jobs[d.on] == a.jobs[d.on];
  }

  lemma StudiesLeave(a: Db, b: Db, c: Db)
    requires StudyPhase(a, b, StartableStudies(a), InProgress) && StudyPhase(b, c, ReviewableStudies(b), InReview)
    ensures c.jobs == a.jobs && c.deps == a.deps && c.verdicts == a.verdicts
    ensures StartableStudies(c) == {} && ReviewableStudies(c) == {}
  {
    forall t <- c.studies ensures t !in StartableStudies(c) && t !in ReviewableStudies(c) {
      assert Dispatched(a, t) == Dispatched(c, t);
      assert AllTerminal(b, t) == AllTerminal(c, t);
    }
  }

  lemma FirstTick(k: Tick, now: int)
    requires Ticked(k, now) && Shape(k.start)
    ensures AlmostIdle(k.end, now) && Shape(k.end)
  {
    hide ReapPhase, EnqueuePhase, SpawnPhase, GatePhase, SupportPhase, CancelPhase, StudyPhase, Tame;
    ReapLeaves(k.start, k.reaped, now);
    EnqueueLeaves(k.reaped, k.enqueued, now);
    SpawnLeaves(k.enqueued, k.spawned, now);
    LastPhases(k, now);
  }

  lemma LastPhases(k: Tick, now: int)
    requires Ticked(k, now) && Clean(k.spawned, now)
    ensures AlmostIdle(k.end, now) && Shape(k.end)
  {
    hide ReapPhase, EnqueuePhase, SpawnPhase, GatePhase, SupportPhase, CancelPhase, StudyPhase, Tame, Clean;
    hide GradedChecks, DoneSupport;
    GateLeaves(k.spawned, k.gated);
    TameIsClean(k.spawned, k.gated, now);
    SupportLeaves(k.gated, k.supported);
    TameIsClean(k.gated, k.supported, now);
    CleanShape(k.supported, now);
    CancelIsTame(k.supported, k.cancelled);
    CancelLeaves(k.supported, k.cancelled);
    TameIsClean(k.supported, k.cancelled, now);
    StudiesLeave(k.cancelled, k.started, k.end);
    SameRowsIdle(k.cancelled, k.end, now);
  }

  lemma CleanShape(db: Db, now: int)
    requires Clean(db, now)
    ensures Shape(db)
  {}

  lemma SameRowsIdle(a: Db, b: Db, now: int)
    requires a.jobs == b.jobs && a.deps == b.deps && a.verdicts == b.verdicts && Clean(a, now)
    requires GradedChecks(a) == {} && DoneSupport(a) == {} && DeadBranches(a) == {}
    requires StartableStudies(b) == {} && ReviewableStudies(b) == {}
    ensures AlmostIdle(b, now) && Shape(b)
  {
    forall j <- b.jobs ensures !Graded(b, j) && !SupportDone(b, j) && !DeadBranch(b, j) && !Expired(b, j, now) {
      assert j !in GradedChecks(a) && j !in DoneSupport(a) && j !in DeadBranches(a) && j !in ExpiredJobs(a, now);
      assert Graded(a, j) == Graded(b, j) && SupportDone(a, j) == SupportDone(b, j) && DeadBranch(a, j) == DeadBranch(b, j);
    }
    assert forall j <- b.jobs :: HasTriageChild(b, j) == HasTriageChild(a, j);
    assert OrphanJobs(b) == OrphanJobs(a) && FailedJobs(b) == FailedJobs(a) && ApprovedJobs(b) == ApprovedJobs(a);
  }

  // The second tick only queues the TRIAGE jobs of the first.
  lemma EnqueueFinishes(a: Db, b: Db, now: int)
    requires AlmostIdle(a, now) && EnqueuePhase(a, b)
    ensures Idle(b, now)
  {
    forall j <- b.jobs
      ensures !Expired(b, j, now) && b.jobs[j].state !in {Approved, Failed} && !Graded(b, j) && !SupportDone(b, j)
    {
      assert j !in ExpiredJobs(a, now) && j !in FailedJobs(a) && j !in GradedChecks(a) && j !in DoneSupport(a);
    }
    EnqueueMakesNoOrphans(a, b);
    EnqueueKillsNothing(a, b);
    forall t
      ensures Dispatched(b, t) == Dispatched(a, t) && AllTerminal(b, t) == AllTerminal(a, t)
    {
      EnqueueMovesNoStudy(a, b, t);
    }
    assert StartableStudies(b) == StartableStudies(a) && ReviewableStudies(b) == ReviewableStudies(a);
  }

  lemma EnqueueMakesNoOrphans(a: Db, b: Db)
    requires OrphanJobs(a) == {} && EnqueuePhase(a, b)
    ensures OrphanJobs(b) == {}
  {
    forall j <- b.jobs | b.jobs[j].state == Triage ensures HasTriageChild(b, j) {
      assert j !in OrphanJobs(a);
      var t :| t in a.jobs && a.jobs[t].jtype == TRIAGE && a.jobs[t].parent == Some(j);
      assert b.jobs[t].jtype == TRIAGE && b.jobs[t].parent == Some(j);
    }
  }

  lemma EnqueueKillsNothing(a: Db, b: Db)
    requires DeadBranches(a) == {} && EnqueuePhase(a, b)
    ensures DeadBranches(b) == {}
  {
    forall j <- b.jobs, d <- b.deps | d.job == j && PreQueue(b.jobs[j].state) && b.jobs[j].jtype != REPORT && d.on in b.jobs
      ensures !Dead(b.jobs[d.on].state)
    {
      assert PreQueue(a.jobs[j].state) && j !in DeadBranches(a);
    }
  }

  lemma EnqueueMovesNoStudy(a: Db, b: Db, t: StudyId)
    requires EnqueuePhase(a, b)
    ensures Dispatched(b, t) == Dispatched(a, t) && AllTerminal(b, t) == AllTerminal(a, t)
  {
    forall j <- a.jobs
      ensures j in b.jobs && b.jobs[j].study == a.jobs[j].study && Terminal(b.jobs[j].state) == Terminal(a.jobs[j].state)
      ensures (b.jobs[j].state in {Proposed, Approved, Queued, Cancelled}) ==
        (a.jobs[j].state in {Proposed, Approved, Queued, Cancelled})
    {
      assert b.jobs[j] == a.jobs[j] || (a.jobs[j].state == Approved && b.jobs[j] == Moving(a.jobs[j], Queued));
    }
  }

  lemma SecondTick(k: Tick, now: int)
    requires Ticked(k, now) && AlmostIdle(k.start, now)
    ensures Idle(k.end, now)
  {
    hide EnqueuePhase, Idle;
    assert k.reaped == k.start;
    EnqueueFinishes(k.reaped, k.enqueued, now);
    IdlePhases(k, now);
  }

  lemma IdlePhases(k: Tick, now: int)
    requires Ticked(k, now) && Idle(k.enqueued, now)
    ensures k.end == k.enqueued
  {}

  // With the clock standing still and nobody else at work, the third tick changes neither rows nor log.
  lemma ThirdTickIsIdle(first: Tick, second: Tick, third: Tick, now: int)
    requires Ticked(first, now) && Ticked(second, now) && Ticked(third, now)
    requires first.end == second.start && second.end == third.start && Shape(first.start)
    ensures third.end == third.start
  {
    hide *;
    FirstTick(first, now);
    SecondTick(second, now);
    TickIsIdle(third, now);
  }

  // Every state a run reaches has decompose's shape.
  lemma ReachableShape(acts: seq<Act>)
    ensures Shape(Run(INIT, acts).db)
  {
    hide Run;
    InvReachable(acts);
    StructShape(Run(INIT, acts).db);
  }

  lemma StructShape(db: Db)
    requires EdgesOk(db)
    ensures Shape(db)
  {
    forall d <- db.deps, e <- db.deps
      ensures d.job in db.jobs && d.on in db.jobs
      ensures db.jobs[d.job].jtype != REPORT ==> e.job != d.on
    {
      assert EdgeOk(db, d) && EdgeOk(db, e);
    }
  }
}
