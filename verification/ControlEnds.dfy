/**
 Control steps come to an end: however many control loops and reapers interleave, whatever their clocks say and wherever
 they crash, every control step that changes the database uses up some of a measure only workers and humans can refill,
 but for the repair arm: each orphan a loop reads is good for four more.
 */
module ControlEnds {
  import opened Wrappers
  import opened Rows
  import opened Sets
  import opened Substrate
  import opened Protocol
  import opened Effects
  import opened Structure
  import opened History
  import opened Readiness

  predicate ControlAct(a: Act) {
    a.FindExpired? || a.Reap? || a.Enqueue? || a.FlipTriage? || a.ReadOrphan? || a.MakeTriage? || a.ApproveTriage? ||
      a.DropTriage? || a.DropApproval?
    || a.GateUpstream? || a.GateCheck? || a.AcceptSupport? || a.CancelDead? || a.SyncStart? || a.ReadDone?
    || a.SyncReview?
  }

  /******* The measure *******/

  // How many control steps a job may still be good for
  function Weight(s: JobState): nat {
    match s
    case Assigned => 6
    case Running => 6
    case Failed => 5
    case Approved => 2
    case Proposed => 1
    case Queued => 1
    case Succeeded => 1
    case _ => 0
  }

  function AtLeast(jobs: map<JobId, Job>, k: nat): set<JobId> { set j | j in jobs && Weight(jobs[j].state) >= k }

  function JobWork(jobs: map<JobId, Job>): nat {
    |AtLeast(jobs, 1)| + |AtLeast(jobs, 2)| + |AtLeast(jobs, 3)| + |AtLeast(jobs, 4)| + |AtLeast(jobs, 5)| + |AtLeast(jobs, 6)|
  }

  function StudiesIn(studies: map<StudyId, Study>, s: set<StudyStatus>): set<StudyId> {
    set t | t in studies && studies[t].status in s
  }

  function StudyWork(studies: map<StudyId, Study>): nat {
    |StudiesIn(studies, {PlanApproved, InProgress})| + |StudiesIn(studies, {PlanApproved})|
  }

  // A child still to be created is good for two steps, one still to be approved for one.
  const MAKE := 4
  const APPROVE := 2

  function Work(s: Sys): nat {
    JobWork(s.db.jobs) + StudyWork(s.db.studies) + MAKE * |s.pending.make| + APPROVE * |s.pending.approve|
  }

  function WeightAt(jobs: map<JobId, Job>, j: JobId): nat { if j in jobs then Weight(jobs[j].state) else 0 }

  function One(b: bool): nat { if b then 1 else 0 }

  lemma LevelChange(jobs: map<JobId, Job>, j: JobId, row: Job, k: nat)
    requires k > 0
    ensures |AtLeast(jobs[j := row], k)| == |AtLeast(jobs, k)| - One(WeightAt(jobs, j) >= k) + One(Weight(row.state) >= k)
  {
    var a, b := AtLeast(jobs, k), AtLeast(jobs[j := row], k);
    assert j in a <==> WeightAt(jobs, j) >= k;
    assert b == if Weight(row.state) >= k then a + {j} else a - {j};
  }

  lemma RowChange(jobs: map<JobId, Job>, j: JobId, row: Job)
    ensures JobWork(jobs[j := row]) == JobWork(jobs) - WeightAt(jobs, j) + Weight(row.state)
  {
    LevelChange(jobs, j, row, 1);
    LevelChange(jobs, j, row, 2);
    LevelChange(jobs, j, row, 3);
    LevelChange(jobs, j, row, 4);
    LevelChange(jobs, j, row, 5);
    LevelChange(jobs, j, row, 6);
    assert WeightAt(jobs, j) <= 6 && Weight(row.state) <= 6;
    hide AtLeast, Weight, WeightAt;
  }

  /******* Each control step *******/

  // The moves control steps make
  predicate ControlMove(from: JobState, to: JobState) {
    match from
    case Assigned => to in {Queued, Failed}
    case Running => to in {Queued, Failed}
    case Proposed => to in {Approved, Cancelled}
    case Approved => to in {Queued, Cancelled}
    case Queued => to == Cancelled
    case Succeeded => to in {Accepted, Review}
    case Failed => to == Triage
    case _ => false
  }

  lemma SingleControlMove(s: Sys, a: Act)
    requires Enabled(s, a) && ControlAct(a) && SingleMove(s.db, a).Some? && MoveRefusal(s.db, SingleMove(s.db, a).value).None?
    ensures var q := SingleMove(s.db, a).value; ControlMove(s.db.jobs[q.job].state, q.to)
    ensures var q := SingleMove(s.db, a).value;
      (q.to == Approved ==> a.ApproveTriage? && a.tid in s.pending.approve) && (q.to == Triage <==> a.FlipTriage?)
  {}

  lemma MoveWork(db: Db, q: Request)
    requires MoveRefusal(db, q).None? ==> ControlMove(db.jobs[q.job].state, q.to)
    ensures MoveRefusal(db, q).Some? ==> Move(db, q) == db
    ensures MoveRefusal(db, q).None? ==>
      JobWork(Move(db, q).jobs) <= JobWork(db.jobs) + (if q.to == Approved then 1 else -1) - (if q.to == Triage then 4 else 0)
    ensures Move(db, q).studies == db.studies
  {
    if MoveRefusal(db, q).None? {
      RowChange(db.jobs, q.job, MovedRow(db.jobs[q.job], q));
      assert Move(db, q).jobs == db.jobs[q.job := MovedRow(db.jobs[q.job], q)];
      MovedState(db.jobs[q.job], q);
      hide Move, MovedRow, JobWork;
    }
  }

  lemma MovedState(row: Job, q: Request)
    ensures MovedRow(row, q).state == q.to
  {}

  // What the loops remember after a step
  lemma PendingChange(s: Sys, a: Act)
    requires Enabled(s, a) && ControlAct(a)
    ensures var p, p' := s.pending, Step(s, a).pending;
      && |p'.make| <= |p.make| + (if a.ReadOrphan? || a.FlipTriage? then 1 else 0) - (if a.MakeTriage? then 1 else 0)
      && |p'.approve| <= |p.approve| + (if a.MakeTriage? then 1 else 0) - (if a.ApproveTriage? then 1 else 0)
      && (a.FlipTriage? && !(a.j in s.db.jobs && s.db.jobs[a.j].state == Failed) ==> p' == p)
  {
    hide Exec, NextSeen, Ops;
    if a.MakeTriage? {
      assert |s.pending.make - multiset{a.j}| == |s.pending.make| - 1;
    }
  }

  // By how much a step may add to the work, and that a change takes one off
  ghost predicate Works(s: Sys, a: Act, t: Sys) {
    Work(t) + One(t.db != s.db) <= Work(s) + if a.ReadOrphan? then MAKE else 0
  }

  lemma SingleWorks(s: Sys, a: Act)
    requires ControlAct(a) && Enabled(s, a) && !Aside(a) && !Composite(a)
    ensures Works(s, a, Step(s, a))
  {
    hide Step, Enabled, SingleMove, JobWork, StudyWork, Move, MoveRefusal;
    MoveEffect(s, a);
    PendingChange(s, a);
    if SingleMove(s.db, a).Some? {
      var q := SingleMove(s.db, a).value;
      if MoveRefusal(s.db, q).None? { SingleControlMove(s, a); }
      MoveWork(s.db, q);
      if MoveRefusal(s.db, q).Some? && a.FlipTriage? { RefusedFlip(s, a); }
    } else if a.FlipTriage? {
      RefusedFlip(s, a);
    }
  }

  lemma RefusedFlip(s: Sys, a: Act)
    requires a.FlipTriage? && Enabled(s, a)
    ensures SingleMove(s.db, a).Some?
    ensures MoveRefusal(s.db, SingleMove(s.db, a).value).Some? ==> Step(s, a).pending == s.pending
  {
    hide Ops, Exec, NextSeen, Enabled;
  }

  lemma MakeWorks(s: Sys, a: Act)
    requires Linked(s.db) && a.MakeTriage? && Enabled(s, a)
    ensures Works(s, a, Step(s, a))
  {
    MakeEffect(s, a);
    MakeGuard(s, a);
    PendingChange(s, a);
    var n := TriageJob(s.db.jobs[a.j], a.j, a.tid, a.ts);
    RowChange(s.db.jobs, a.tid, NewRow(n));
    hide Step, Enabled, JobWork, StudyWork, TriageJob, Linked;
  }

  lemma StudyMoveWorks(db: Db, q: StudyRequest)
    requires (q.expected == Some(PlanApproved) && q.to == InProgress) || (q.expected == Some(InProgress) && q.to == InReview)
    ensures MoveStudy(db, q).jobs == db.jobs
    ensures MoveStudy(db, q) == db || StudyWork(MoveStudy(db, q).studies) < StudyWork(db.studies)
  {
    if StudyRefusal(db, q).None? {
      var a, b := db.studies, MoveStudy(db, q).studies;
      assert StudiesIn(b, {PlanApproved, InProgress}) <= StudiesIn(a, {PlanApproved, InProgress});
      assert StudiesIn(b, {PlanApproved}) <= StudiesIn(a, {PlanApproved});
      SubsetCard(StudiesIn(b, {PlanApproved, InProgress}), StudiesIn(a, {PlanApproved, InProgress}));
      SubsetCard(StudiesIn(b, {PlanApproved}), StudiesIn(a, {PlanApproved}));
      assert q.study in (if q.to == InProgress then StudiesIn(a, {PlanApproved}) else StudiesIn(a, {PlanApproved, InProgress}));
    }
  }

  lemma AsideWorks(s: Sys, a: Act)
    requires ControlAct(a) && Aside(a) && Enabled(s, a)
    ensures Works(s, a, Step(s, a))
  {
    hide Enabled, Ops, JobWork, StudyWork, NextPending, NextSeen;
    PendingChange(s, a);
    SyncOp(s, a);
    var ops := Ops(s, a);
    if a.SyncStart? || a.SyncReview? {
      Exec1(s.db, ops[0]);
      StudyMoveWorks(s.db, ops[0].study);
    } else {
      assert Exec(s.db, []) == s.db;
    }
  }

  lemma SyncOp(s: Sys, a: Act)
    requires ControlAct(a) && Aside(a) && Enabled(s, a)
    ensures a.SyncStart? ==> Ops(s, a) == [DoMoveStudy(StudyRequest(a.sid, InProgress, SCHEDULER, Some(PlanApproved), a.ts))]
    ensures a.SyncReview? ==> Ops(s, a) == [DoMoveStudy(StudyRequest(a.sid, InReview, SCHEDULER, Some(InProgress), a.ts))]
    ensures !a.SyncStart? && !a.SyncReview? ==> Ops(s, a) == []
  {
    hide Enabled;
  }

  // Every control step that changes the database does some of the remaining work; only reading an orphan adds to it.
  lemma ControlStepWorks(s: Sys, a: Act)
    requires Inv(s) && ControlAct(a)
    ensures Works(s, a, Step(s, a))
  {
    hide Ops, Exec, NextSeen, Inv;
    if !Enabled(s, a) {
      assert Step(s, a) == s;
    } else {
      hide Step, Enabled, Works, Struct, ReadyOk, TriageOk;
      InvParts(s);
      if Aside(a) {
        AsideWorks(s, a);
      } else if a.MakeTriage? {
        MakeWorks(s, a);
      } else {
        SingleWorks(s, a);
      }
    }
  }

  /******* Runs of control steps *******/

  // How many steps changed the database, and how many orphans the repair arms read
  function Changes(s: Sys, acts: seq<Act>): nat {
    if acts == [] then 0
    else
      var m, a := Run(s, acts[..|acts| - 1]), acts[|acts| - 1];
      Changes(s, acts[..|acts| - 1]) + One(Step(m, a).db != m.db)
  }

  function Reads(acts: seq<Act>): nat {
    if acts == [] then 0 else Reads(acts[..|acts| - 1]) + One(acts[|acts| - 1].ReadOrphan?)
  }

  // Hence with workers and humans away, control loops change the database at most Work times, and four times more for
  // each orphan one of them reads.
  lemma {:induction false} ControlRunsEnd(s: Sys, acts: seq<Act>)
    requires Inv(s) && forall a <- acts :: ControlAct(a)
    ensures Changes(s, acts) + Work(Run(s, acts)) <= Work(s) + MAKE * Reads(acts)
  {
    hide Inv;
    hide Step, Work;
    if acts != [] {
      var init := acts[..|acts| - 1];
      ControlRunsEnd(s, init);
      InvRun(s, init);
      ControlStepWorks(Run(s, init), acts[|acts| - 1]);
    }
  }
}
