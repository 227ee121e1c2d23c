/**
 What each action does to the tables, in closed form: what the sequence of primitive transactions of Protocol.Ops
 computes whenever the rows are linked.
 */
module Effects {
  import opened Wrappers
  import opened Rows
  import opened Substrate
  import opened Protocol

  // The foreign keys, and the payload each job type carries
  ghost predicate Linked(db: Db) {
    && (forall d <- db.deps :: d.job in db.jobs && d.on in db.jobs && db.jobs[d.job].study == db.jobs[d.on].study)
    && (forall j <- db.jobs :: LinkedRow(db, db.jobs[j]))
  }

  ghost predicate LinkedRow(db: Db, row: Job) {
    && row.study in db.studies && row.jtype != WATCH
    && (row.parent.Some? ==> row.parent.value in db.jobs)
    && (row.jtype == ANALYSIS <==> row.payload.CasePayload?)
    && (row.jtype == TRIAGE <==> row.payload.TriagePayload?)
    && (row.payload.TriagePayload? ==>
          row.payload.failedJob in db.jobs && db.jobs[row.payload.failedJob].study == row.study)
  }

  function Approved_(n: NewJob): Job { NewRow(n).(state := Approved) }

  function CreationEvent(n: NewJob): Event { Event(n.ts, n.actor, JobProposed, JobSubject(n.id), NoDetail) }

  function ApprovalEvent(n: NewJob): Event {
    Event(n.ts, Agent, JobApproved, JobSubject(n.id), Moved(Proposed, Approved, false, NewRow(n).Key(), n.attempt))
  }

  /******* Creating a job and approving it *******/

  function WithJob(db: Db, n: NewJob): Db {
    db.(jobs := db.jobs[n.id := Approved_(n)], log := db.log + [CreationEvent(n), ApprovalEvent(n)])
  }

  lemma CreateApproved(db: Db, n: NewJob)
    requires CreateRefusal(db, n).None? && n.deps == []
    ensures Apply(Apply(db, DoCreateJob(n)), Approval(n.id, n.ts)) == WithJob(db, n)
  {
    var mid := Apply(db, DoCreateJob(n));
    assert mid.deps == db.deps;
    assert mid.jobs[n.id] == NewRow(n);
    assert MoveRefusal(mid, Plain(n.id, Approved, Agent, None, n.ts)).None?;
    assert MovedRow(NewRow(n), Plain(n.id, Approved, Agent, None, n.ts)) == Approved_(n);
    assert MoveEvent(NewRow(n), Plain(n.id, Approved, Agent, None, n.ts)) == ApprovalEvent(n);
    assert mid.jobs[n.id := Approved_(n)] == db.jobs[n.id := Approved_(n)];
    assert db.log + [CreationEvent(n)] + [ApprovalEvent(n)] == db.log + [CreationEvent(n), ApprovalEvent(n)];
  }

  /******* run_triage *******/

  function Requeued(db: Db, p: JobId, rid: JobId): set<Dep> {
    set d | d in db.deps :: if d.on == p then Dep(d.job, rid) else d
  }

  function MoveTo(p: JobId, to: JobState, ts: int): Request { Plain(p, to, Agent, Some(Triage), ts) }

  function DecisionEvent(p: JobId, ts: int): Event { Event(ts, Agent, DecisionLogged, JobSubject(p), NoDetail) }

  // The retry row is there and the edges of p lead to it, but p is still in triage.
  function Respawned(db: Db, p: JobId, rid: JobId, warm: Option<RunRef>, ts: int): Db
    requires p in db.jobs
  {
    var policy := PolicyOf(db, db.jobs[p].study);
    var n := RetryJob(db.jobs[p], policy, p, rid, warm, ts);
    (if AutoRetry(policy, db.jobs[p].attempt) then WithJob(db, n)
     else db.(jobs := db.jobs[rid := NewRow(n)], log := db.log + [CreationEvent(n)])).(deps := Requeued(db, p, rid))
  }

  // p leaves triage for `to`, and the decision is logged if the worker lives to do so.
  function Resolved(db: Db, p: JobId, to: JobState, logged: bool, ts: int): Db
    requires p in db.jobs && JobVerb(db.jobs[p].state, to).Some?
  {
    db.(jobs := db.jobs[p := MovedRow(db.jobs[p], MoveTo(p, to, ts))],
        log := db.log + [MoveEvent(db.jobs[p], MoveTo(p, to, ts))] + if logged then [DecisionEvent(p, ts)] else [])
  }

  lemma ResolvedIsExec(db: Db, p: JobId, to: JobState, logged: bool, ts: int)
    requires p in db.jobs && db.jobs[p].state == Triage && to in {RetrySpawned, Infeasible, Escalated}
    ensures Exec(db, [DoMove(MoveTo(p, to, ts))] + if logged then [DoLogDecision(p, ts)] else []) ==
      Resolved(db, p, to, logged, ts)
  {
    var e := MoveEvent(db.jobs[p], MoveTo(p, to, ts));
    assert MoveRefusal(db, MoveTo(p, to, ts)).None?;
    if logged {
      assert [DoMove(MoveTo(p, to, ts))] + [DoLogDecision(p, ts)] == [DoMove(MoveTo(p, to, ts)), DoLogDecision(p, ts)];
      Exec2(db, DoMove(MoveTo(p, to, ts)), DoLogDecision(p, ts));
    } else {
      assert [DoMove(MoveTo(p, to, ts))] + [] == [DoMove(MoveTo(p, to, ts))];
      Exec1(db, DoMove(MoveTo(p, to, ts)));
      assert db.log + [e] + [] == db.log + [e];
    }
    hide Exec, MoveRefusal, MovedRow, MoveEvent;
  }

  lemma RetryCreated(db: Db, p: JobId, rid: JobId, warm: Option<RunRef>, ts: int)
    requires Linked(db) && p in db.jobs && rid !in db.jobs
    ensures var n := RetryJob(db.jobs[p], PolicyOf(db, db.jobs[p].study), p, rid, warm, ts);
      && CreateRefusal(db, n).None? && CreateJob(db, n) == Proposes(db, n)
      && Repoint(CreateJob(db, n), p, rid) == Proposes(db, n).(deps := Requeued(db, p, rid))
  {
    var n := RetryJob(db.jobs[p], PolicyOf(db, db.jobs[p].study), p, rid, warm, ts);
    assert CreateRefusal(db, n).None?;
    ProposesIsCreate(db, n);
  }

  // The three calls that make and link a retry
  lemma RetryCalls(db: Db, p: JobId, rid: JobId, warm: Option<RunRef>, ts: int)
    requires Linked(db) && p in db.jobs && rid !in db.jobs
    ensures
      var policy := PolicyOf(db, db.jobs[p].study);
      var linked := Repoint(CreateJob(db, RetryJob(db.jobs[p], policy, p, rid, warm, ts)), p, rid);
      Respawned(db, p, rid, warm, ts) ==
        if AutoRetry(policy, db.jobs[p].attempt) then Move(linked, Plain(rid, Approved, Agent, None, ts)) else linked
  {
    var n := RetryJob(db.jobs[p], PolicyOf(db, db.jobs[p].study), p, rid, warm, ts);
    RetryCreated(db, p, rid, warm, ts);
    hide Linked, LinkedRow, CreateRefusal, RetryJob, Requeued, Repoint;
    CreateApproved(db, n);
    hide CreateJob;
    var q := Plain(rid, Approved, Agent, None, ts);
    assert Move(Proposes(db, n).(deps := Requeued(db, p, rid)), q) == Move(Proposes(db, n), q).(deps := Requeued(db, p, rid));
  }

  lemma RespawnedIsExec(db: Db, p: JobId, rid: JobId, warm: Option<RunRef>, ts: int)
    requires Linked(db) && p in db.jobs && rid !in db.jobs && TriageDecision(db, p) == RetrySpawned
    ensures Exec(db, RetryOps(db, p, rid, warm, ts)) == Respawned(db, p, rid, warm, ts)
  {
    hide Linked, Respawned, Repoint, RetryJob, CreateJob, Move, TriageDecision;
    var policy := PolicyOf(db, db.jobs[p].study);
    var n := RetryJob(db.jobs[p], policy, p, rid, warm, ts);
    RetryCalls(db, p, rid, warm, ts);
    if AutoRetry(policy, db.jobs[p].attempt) {
      Exec3(db, DoCreateJob(n), DoRepoint(p, rid), Approval(rid, ts));
      assert [DoCreateJob(n), DoRepoint(p, rid)] + [Approval(rid, ts)] == [DoCreateJob(n), DoRepoint(p, rid), Approval(rid, ts)];
    } else {
      Exec2(db, DoCreateJob(n), DoRepoint(p, rid));
      assert [DoCreateJob(n), DoRepoint(p, rid)] + [] == [DoCreateJob(n), DoRepoint(p, rid)];
    }
  }

  function AfterTriage(db: Db, p: JobId, rid: JobId, warm: Option<RunRef>, logged: bool, ts: int): Db
    requires p in db.jobs && db.jobs[p].state == Triage && rid !in db.jobs
  {
    var to := TriageDecision(db, p);
    Resolved(if to == RetrySpawned then Respawned(db, p, rid, warm, ts) else db, p, to, logged, ts)
  }

  lemma RetryIsExec(db: Db, p: JobId, rid: JobId, warm: Option<RunRef>, ts: int)
    requires Linked(db) && p in db.jobs && rid !in db.jobs
    ensures Exec(db, RetryOps(db, p, rid, warm, ts)) ==
      if TriageDecision(db, p) == RetrySpawned then Respawned(db, p, rid, warm, ts) else db
  {
    if TriageDecision(db, p) == RetrySpawned { RespawnedIsExec(db, p, rid, warm, ts); }
  }

  lemma TriageEffect(s: Sys, a: Act)
    requires Linked(s.db) && a.RunTriage? && Enabled(s, a)
    ensures Step(s, a).db == AfterTriage(s.db, s.db.jobs[a.j].payload.failedJob, a.rid, a.warm, a.logged, a.ts)
  {
    hide Exec, NextSeen, Resolved;
    var db, p := s.db, s.db.jobs[a.j].payload.failedJob;
    var to := TriageDecision(db, p);
    RetryIsExec(db, p, a.rid, a.warm, a.ts);
    var head, tail := RetryOps(db, p, a.rid, a.warm, a.ts), [DoMove(MoveTo(p, to, a.ts))] + if a.logged
      then [DoLogDecision(p, a.ts)] else [];
    assert TriageOps(db, p, a.rid, a.warm, a.logged, a.ts) == head + tail;
    ExecConcat(db, head, tail);
    hide RetryOps, Linked;
    RespawnKeepsRow(db, p, a.rid, a.warm, a.ts);
    ResolvedIsExec(if to == RetrySpawned then Respawned(db, p, a.rid, a.warm, a.ts) else db, p, to, a.logged, a.ts);
  }

  lemma RespawnKeepsRow(db: Db, p: JobId, rid: JobId, warm: Option<RunRef>, ts: int)
    requires p in db.jobs && rid !in db.jobs
    ensures forall j <- db.jobs ::
      j in Respawned(db, p, rid, warm, ts).jobs && Respawned(db, p, rid, warm, ts).jobs[j] == db.jobs[j]
  {}

  // What is left behind when run_triage breaks off after `cut` transactions
  function AfterHalf(db: Db, p: JobId, rid: JobId, warm: Option<RunRef>, cut: nat, ts: int): Db
    requires p in db.jobs && rid !in db.jobs
  {
    var n := RetryJob(db.jobs[p], PolicyOf(db, db.jobs[p].study), p, rid, warm, ts);
    if cut == 0 || TriageDecision(db, p) != RetrySpawned then db
    else if cut == 1 then Proposes(db, n)
    else if cut == 2 then Proposes(db, n).(deps := Requeued(db, p, rid))
    else Respawned(db, p, rid, warm, ts)
  }

  lemma HalfEffect(s: Sys, a: Act)
    requires Linked(s.db) && a.HalfTriage? && Enabled(s, a)
    ensures Step(s, a).db == AfterHalf(s.db, s.db.jobs[a.j].payload.failedJob, a.rid, a.warm, a.cut, a.ts)
  {
    HalfIsExec(s.db, s.db.jobs[a.j].payload.failedJob, a.rid, a.warm, a.cut, a.ts);
  }

  lemma HalfIsExec(db: Db, p: JobId, rid: JobId, warm: Option<RunRef>, cut: nat, ts: int)
    requires Linked(db) && p in db.jobs && rid !in db.jobs
    ensures Exec(db, FirstOf(RetryOps(db, p, rid, warm, ts), cut)) == AfterHalf(db, p, rid, warm, cut, ts)
  {
    hide Linked, RetryJob, CreateJob, Repoint, Proposes, Respawned, Requeued, PermanentFailure, AutoRetry, Apply;
    if TriageDecision(db, p) == RetrySpawned && 0 < cut <= 2 {
      CutIsExec(db, p, rid, warm, cut, ts);
    } else {
      RetryIsExec(db, p, rid, warm, ts);
      var ops := RetryOps(db, p, rid, warm, ts);
      assert cut >= |ops| ==> FirstOf(ops, cut) == ops;
    }
  }

  lemma CutIsExec(db: Db, p: JobId, rid: JobId, warm: Option<RunRef>, cut: nat, ts: int)
    requires Linked(db) && p in db.jobs && rid !in db.jobs && TriageDecision(db, p) == RetrySpawned && 0 < cut <= 2
    ensures Exec(db, FirstOf(RetryOps(db, p, rid, warm, ts), cut)) == AfterHalf(db, p, rid, warm, cut, ts)
  {
    hide Linked, RetryJob, CreateJob, Repoint, Proposes, Respawned, Requeued, PermanentFailure, AutoRetry;
    var n := RetryJob(db.jobs[p], PolicyOf(db, db.jobs[p].study), p, rid, warm, ts);
    RetryCreated(db, p, rid, warm, ts);
    assert FirstOf(RetryOps(db, p, rid, warm, ts), cut) == if cut == 1 then [DoCreateJob(n)]
      else [DoCreateJob(n), DoRepoint(p, rid)];
    Exec1(db, DoCreateJob(n));
    Exec2(db, DoCreateJob(n), DoRepoint(p, rid));
  }

  /******* The other composite actions *******/

  // A job that is created and not yet approved
  function Proposes(db: Db, n: NewJob): Db {
    db.(jobs := db.jobs[n.id := NewRow(n)], log := db.log + [CreationEvent(n)])
  }

  lemma ProposesIsCreate(db: Db, n: NewJob)
    requires CreateRefusal(db, n).None? && n.deps == []
    ensures CreateJob(db, n) == Proposes(db, n)
  {
    assert NewDeps(n) == {} && db.deps + NewDeps(n) == db.deps;
  }

  lemma MakeEffect(s: Sys, a: Act)
    requires Linked(s.db) && a.MakeTriage? && Enabled(s, a)
    ensures Step(s, a).db == Proposes(s.db, TriageJob(s.db.jobs[a.j], a.j, a.tid, a.ts))
  {
    var n := TriageJob(s.db.jobs[a.j], a.j, a.tid, a.ts);
    Exec1(s.db, DoCreateJob(n));
    assert LinkedRow(s.db, s.db.jobs[a.j]);
    ProposesIsCreate(s.db, n);
  }

  function AfterCase(db: Db, a: Act): Db
    requires a.AddCase?
  {
    var n, m := CaseJob(db, a.sid, a.caseId, a.overrides, a.solver, a.aid, a.ts), CheckJob(db, a.sid, a.aid, a.cid, a.ts);
    db.(jobs := db.jobs[a.aid := NewRow(n)][a.cid := NewRow(m)], deps := db.deps + {Dep(a.cid, a.aid)},
        log := db.log + [CreationEvent(n), CreationEvent(m)])
  }

  lemma CaseCalls(db: Db, a: Act)
    requires a.AddCase? && a.sid in db.studies && a.aid !in db.jobs && a.cid !in db.jobs && a.aid != a.cid
    ensures CreateJob(CreateJob(db, CaseJob(db, a.sid, a.caseId, a.overrides, a.solver, a.aid, a.ts)),
      CheckJob(db, a.sid, a.aid, a.cid, a.ts))
         == AfterCase(db, a)
  {
    var n, m := CaseJob(db, a.sid, a.caseId, a.overrides, a.solver, a.aid, a.ts), CheckJob(db, a.sid, a.aid, a.cid, a.ts);
    var d1 := CreateJob(db, n);
    assert d1.deps == db.deps;
    assert NewDeps(m) == {Dep(a.cid, a.aid)};
    assert CreateRefusal(d1, m).None?;
  }

  lemma CaseEffect(s: Sys, a: Act)
    requires a.AddCase? && Enabled(s, a)
    ensures Step(s, a).db == AfterCase(s.db, a)
  {
    var n, m := CaseJob(s.db, a.sid, a.caseId, a.overrides, a.solver, a.aid, a.ts), CheckJob(s.db, a.sid, a.aid, a.cid, a.ts);
    Exec2(s.db, DoCreateJob(n), DoCreateJob(m));
    hide CaseJob, CheckJob, CreateJob, AfterCase;
    CaseCalls(s.db, a);
  }

  function AfterReport(db: Db, a: Act): Db
    requires a.AddReport? && a.sid in db.studies
  {
    var n := ReportJob(db, a.sid, a.checks, a.rid, a.ts);
    db.(jobs := db.jobs[a.rid := NewRow(n)], deps := db.deps + NewDeps(n),
        studies := db.studies[a.sid := db.studies[a.sid].(status := PlanProposed)],
        log := db.log + [CreationEvent(n), Event(a.ts, Agent, StudyPlanProposed, StudySubject(a.sid), NoDetail)])
  }

  lemma ReportEffect(s: Sys, a: Act)
    requires a.AddReport? && Enabled(s, a)
    ensures Step(s, a).db == AfterReport(s.db, a)
  {
    hide Exec, NextSeen, Move;
    var n := ReportJob(s.db, a.sid, a.checks, a.rid, a.ts);
    Exec2(s.db, DoCreateJob(n), DoMoveStudy(StudyRequest(a.sid, PlanProposed, Agent, Some(Draft), a.ts)));
    assert CreateRefusal(s.db, n).None?;
  }

  // An action that is neither a composite nor a move of one job leaves every row but a lease alone.
  predicate Aside(a: Act) {
    a.NewStudy? || a.HumanStudy? || a.SyncStart? || a.SyncReview? || a.Register? || a.Beat? || a.Look? || a.GiveUp? ||
      a.GiveVerdict?
    || a.ReadOrphan? || a.DropTriage? || a.DropApproval? || a.DropRun? || a.FindExpired? || a.ReadDone?
  }

  predicate Composite(a: Act) {
    a.AddCase? || a.AddReport? || a.MakeTriage? || a.RunTriage? || a.HalfTriage?
  }

  // A composite action other than run_triage: what it relied on and what it left
  ghost predicate Leaves(db: Db, a: Act, b: Db) {
    match a
    case AddCase(sid, _, _, _, aid, cid, _) =>
      sid in db.studies && db.studies[sid].status == Draft && aid !in db.jobs && cid !in db.jobs && aid != cid &&
        b == AfterCase(db, a)
    case AddReport(sid, _, rid, _) =>
      sid in db.studies && db.studies[sid].status == Draft && rid !in db.jobs && b == AfterReport(db, a)
    case MakeTriage(j, tid, ts) => j in db.jobs && tid !in db.jobs && b == Proposes(db, TriageJob(db.jobs[j], j, tid, ts))
    case _ => false
  }

  lemma CompositeEffect(s: Sys, a: Act)
    requires Linked(s.db) && Enabled(s, a) && Composite(a) && !a.RunTriage? && !a.HalfTriage?
    ensures Leaves(s.db, a, Step(s, a).db)
  {
    hide Step;
    match a
    case AddCase(_, _, _, _, _, _, _) => CaseEffect(s, a);
    case AddReport(_, _, _, _) => ReportEffect(s, a);
    case MakeTriage(_, _, _) => MakeEffect(s, a);
  }

  lemma MoveEffect(s: Sys, a: Act)
    requires Enabled(s, a) && !Aside(a) && !Composite(a)
    ensures SingleMove(s.db, a).Some?  ==> Step(s, a).db == Move(s.db, SingleMove(s.db, a).value)
    ensures SingleMove(s.db, a).None? ==> Step(s, a).db == s.db
  {
    hide NextSeen, Enabled, SingleMove, Move;
    if SingleMove(s.db, a).Some? {
      Exec1(s.db, DoMove(SingleMove(s.db, a).value));
    }
  }

  predicate AsideOp(op: Op) {
    op.DoCreateStudy? || op.DoMoveStudy? || op.DoRegister? || op.DoHeartbeat? || op.DoRecordVerdict?
  }

  ghost predicate Beats(a: Act, r: Job, q: Job) { a.Beat? && q == Refreshed(r, a.w, a.ts) }

  ghost predicate LeavesRows(db: Db, a: Act, after: Db) {
    && after.jobs.Keys == db.jobs.Keys && after.deps == db.deps
    && (forall j <- db.jobs :: after.jobs[j] == db.jobs[j] || Beats(a, db.jobs[j], after.jobs[j]))
    && (forall t <- db.studies :: t in after.studies && after.studies[t].policy == db.studies[t].policy)
    && (forall v <- db.verdicts :: v in after.verdicts && after.verdicts[v] == db.verdicts[v])
    && (!a.GiveVerdict? ==> after.verdicts == db.verdicts)
    && db.log <= after.log
    && forall i :: |db.log| <= i < |after.log| ==>
         after.log[i].detail == NoDetail && !after.log[i].subject.JobSubject? && after.log[i].verb != JobAccepted
  }

  lemma AsideOpEffect(db: Db, a: Act, op: Op)
    requires AsideOp(op) && (op.DoRecordVerdict? ==> a.GiveVerdict?) && (op.DoHeartbeat? ==> a == Beat(op.w, op.ts))
    ensures LeavesRows(db, a, Apply(db, op))
  {
    hide LeavesRows, Beats;
    match op
    case DoHeartbeat(w, ts) => HeartbeatLeaves(db, w, ts);
    case DoRecordVerdict(vid, v, actor, ts) => VerdictLeaves(db, a, vid, v, actor, ts);
    case DoCreateStudy(sid, owner, policy, author, ts) => StudyLeaves(db, a, sid, owner, policy, author, ts);
    case DoMoveStudy(q) => StudyMoveLeaves(db, a, q);
    case DoRegister(w, solvers, memMb, capacity, ts) => RegisterLeaves(db, a, w, solvers, memMb, capacity, ts);
    case _ =>
  }

  lemma HeartbeatLeaves(db: Db, w: WorkerId, ts: int)
    ensures LeavesRows(db, Beat(w, ts), Heartbeat(db, w, ts))
  {}

  lemma VerdictLeaves(db: Db, a: Act, vid: VerdictId, v: Verdict, actor: Actor, ts: int)
    requires a.GiveVerdict?
    ensures LeavesRows(db, a, RecordVerdict(db, vid, v, actor, ts))
  {}

  lemma StudyLeaves(db: Db, a: Act, sid: StudyId, owner: Actor, policy: Policy, author: Option<Actor>, ts: int)
    ensures LeavesRows(db, a, CreateStudy(db, sid, owner, policy, author, ts))
  {}

  lemma StudyMoveLeaves(db: Db, a: Act, q: StudyRequest)
    ensures LeavesRows(db, a, MoveStudy(db, q))
  {}

  lemma RegisterLeaves(db: Db, a: Act, w: WorkerId, solvers: set<string>, memMb: Option<int>, capacity: int, ts: int)
    ensures LeavesRows(db, a, RegisterWorker(db, w, solvers, memMb, capacity, ts))
  {}

  lemma AsideOps(s: Sys, a: Act)
    requires Enabled(s, a) && Aside(a)
    ensures var ops := Ops(s, a);
      ops == [] || (ops == [ops[0]] && AsideOp(ops[0]) && (ops[0].DoRecordVerdict? ==> a.GiveVerdict?)
                    && (ops[0].DoHeartbeat? ==> a == Beat(ops[0].w, ops[0].ts)))
  {}

  lemma AsideEffect(s: Sys, a: Act)
    requires Enabled(s, a) && Aside(a)
    ensures LeavesRows(s.db, a, Step(s, a).db)
  {
    hide Ops, Enabled, NextSeen, NextPending, AsideOp, Apply, LeavesRows;
    AsideOps(s, a);
    var ops := Ops(s, a);
    if ops == [] {
      NothingLeft(s.db, a);
    } else {
      Exec1(s.db, ops[0]);
      AsideOpEffect(s.db, a, ops[0]);
    }
  }

  lemma NothingLeft(db: Db, a: Act)
    ensures LeavesRows(db, a, db)
  {}
}
