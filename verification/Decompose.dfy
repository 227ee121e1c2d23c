/**
 decompose_study over the store: the case matrix becomes one ANALYSIS and one CHECK per case and a REPORT over all the
 CHECKs, all proposed, and the study goes from draft to proposed. A repeated value on an axis gives two cases with one id.
 */
module Decompose {
  import opened Wrappers
  import opened Rows
  import opened Substrate
  import opened Protocol
  import opened Effects
  import opened Structure
  import opened Readiness
  import opened Storage
  import opened Phases
  import CaseMatrix

  type Cases = seq<CaseMatrix.Case>

  predicate DistinctIds(cases: Cases) {
    forall a, b :: 0 <= a < b < |cases| ==> cases[a].caseId != cases[b].caseId
  }

  // Cases with one id have the same overrides.
  ghost predicate Spelled(cases: Cases) {
    forall a, b :: 0 <= a < |cases| && 0 <= b < |cases| && cases[a].caseId == cases[b].caseId ==>
      cases[a].overrides == cases[b].overrides
  }

  // The pair of jobs made for a case
  predicate CasePair(db: Db, sid: StudyId, solver: string, c: CaseMatrix.Case, aid: JobId, cid: JobId) {
    && aid in db.jobs && cid in db.jobs && Dep(cid, aid) in db.deps
    && db.jobs[aid].study == sid && db.jobs[aid].jtype == ANALYSIS && db.jobs[aid].state == Proposed
    && db.jobs[aid].payload == CasePayload(c.caseId, c.overrides, None) && db.jobs[aid].parent == None
    && db.jobs[cid].study == sid && db.jobs[cid].jtype == CHECK && db.jobs[cid].state == Proposed && db.jobs[cid].parent == None
    && db.jobs[aid].attempt == db.jobs[cid].attempt == 1 && sid in db.studies
    && var p := db.studies[sid].policy;
    && db.jobs[aid].maxAttempts == db.jobs[cid].maxAttempts == (if p.autoRetryMax.Some? then p.autoRetryMax.value + 1 else 3)
    && db.jobs[aid].priority == db.jobs[cid].priority == p.priority
    && db.jobs[aid].resource == Resource(240, {solver}, None) && db.jobs[cid].resource == Resource(30, {}, None)
  }

  predicate Pair(e: (JobId, JobId), d: Dep) { d == Dep(e.1, e.0) }

  // The first n cases have their jobs, and the study has no others.
  ghost predicate Drafted(db: Db, sid: StudyId, solver: string, cases: Cases, made: seq<(JobId, JobId)>) {
    && sid in db.studies && db.studies[sid].status == Draft && |made| <= |cases|
    && Pairs(db, sid, solver, cases, made) && OnlyMade(db, sid, made) && OnlyEdges(db, sid, made)
    && Disjoint(made)
  }

  // No two cases share a job.
  predicate Disjoint(made: seq<(JobId, JobId)>) {
    forall a, b :: 0 <= a < b < |made| ==> made[a].0 != made[b].0 && made[a].1 != made[b].1
  }

  ghost predicate Pairs(db: Db, sid: StudyId, solver: string, cases: Cases, made: seq<(JobId, JobId)>) {
    |made| <= |cases| && forall n :: 0 <= n < |made| ==> CasePair(db, sid, solver, cases[n], made[n].0, made[n].1)
  }

  ghost predicate OnlyMade(db: Db, sid: StudyId, made: seq<(JobId, JobId)>) {
    forall j <- db.jobs :: db.jobs[j].study == sid ==> Made(made, j)
  }

  predicate CaseEdge(made: seq<(JobId, JobId)>, d: Dep) { exists n :: 0 <= n < |made| && Pair(made[n], d) }

  ghost predicate OnlyEdges(db: Db, sid: StudyId, made: seq<(JobId, JobId)>) {
    forall d <- db.deps :: d.job in db.jobs && db.jobs[d.job].study == sid ==> CaseEdge(made, d)
  }

  predicate Made(made: seq<(JobId, JobId)>, j: JobId) { exists n :: 0 <= n < |made| && (made[n].0 == j || made[n].1 == j) }

  function CaseAct(sid: StudyId, c: CaseMatrix.Case, solver: string, aid: JobId, cid: JobId, now: int): Act {
    AddCase(sid, c.caseId, c.overrides, solver, aid, cid, now)
  }

  lemma CaseEnabled(s: Sys, sid: StudyId, solver: string, cases: Cases, made: seq<(JobId, JobId)>, aid: JobId,
    cid: JobId, now: int)
    requires Drafted(s.db, sid, solver, cases, made) && |made| < |cases| && Spelled(cases)
    requires aid !in s.db.jobs && cid !in s.db.jobs && aid != cid
    ensures Enabled(s, CaseAct(sid, cases[|made|], solver, aid, cid, now))
  {
    var c := cases[|made|];
    forall j <- s.db.jobs | s.db.jobs[j].Key() == Some(CaseKey(sid, c.caseId))
      ensures s.db.jobs[j].payload.overrides == c.overrides
    {
      if s.db.jobs[j].study == sid {
        assert Made(made, j);
        var n :| 0 <= n < |made| && (made[n].0 == j || made[n].1 == j);
        assert CasePair(s.db, sid, solver, cases[n], made[n].0, made[n].1);
      }
    }
  }

  /******* Keys *******/

  // The foreign keys of the job_dep table, which every transaction keeps
  ghost predicate Referenced(db: Db) { forall d <- db.deps :: d.job in db.jobs && d.on in db.jobs }

  lemma ReferencedOp(db: Db, op: Op)
    requires Referenced(db)
    ensures Referenced(Apply(db, op))
  {}

  lemma {:induction false} ReferencedExec(db: Db, ops: seq<Op>)
    requires Referenced(db)
    ensures Referenced(Exec(db, ops))
  {
    if ops != [] {
      ReferencedExec(db, ops[..|ops| - 1]);
      ReferencedOp(Exec(db, ops[..|ops| - 1]), ops[|ops| - 1]);
    }
  }

  lemma ReferencedRun(s: Sys, acts: seq<Act>)
    requires Referenced(s.db)
    ensures Referenced(Run(s, acts).db)
  {
    hide Run, Exec;
    var ops := RunIsExec(s, acts);
    ReferencedExec(s.db, ops);
  }

  // The two create_job calls of a case are the AddCase step.
  lemma CaseRan(s0: Sys, s: Sys, acts: seq<Act>, a: Act)
    requires Ran(s0, s, acts) && a.AddCase? && Enabled(s, a)
    ensures Ran(s0, Sys(AfterCase(s.db, a), s.seen, s.judged, s.pending), acts + [a])
  {
    hide Inv, Enabled, AfterCase, Step, Run;
    StepFrame(s, a);
    CaseEffect(s, a);
    OneMore(s0, s, acts, a);
  }

  lemma MadeGrows(made: seq<(JobId, JobId)>, e: (JobId, JobId))
    ensures forall j :: Made(made + [e], j) <==> Made(made, j) || e.0 == j || e.1 == j
    ensures forall d :: CaseEdge(made + [e], d) <==> CaseEdge(made, d) || Pair(e, d)
  {
    var next := made + [e];
    assert next[|made|] == e;
    forall j | Made(made, j) ensures Made(next, j) {
      var n :| 0 <= n < |made| && (made[n].0 == j || made[n].1 == j);
      assert next[n] == made[n];
    }
    forall d | CaseEdge(made, d) ensures CaseEdge(next, d) {
      var n :| 0 <= n < |made| && Pair(made[n], d);
      assert next[n] == made[n];
    }
  }

  lemma CasePairsGrow(db: Db, sid: StudyId, solver: string, cases: Cases, made: seq<(JobId, JobId)>, a: Act, e: (JobId, JobId))
    requires Pairs(db, sid, solver, cases, made) && |made| < |cases| && e.0 !in db.jobs && e.1 !in db.jobs && e.0 != e.1
    requires sid in db.studies
    requires a.AddCase? && a.sid == sid && a.caseId == cases[|made|].caseId && a.overrides == cases[|made|].overrides
    requires a.solver == solver
    requires (a.aid, a.cid) == e
    ensures Pairs(AfterCase(db, a), sid, solver, cases, made + [e])
  {
    var b, next := AfterCase(db, a), made + [e];
    forall n | 0 <= n < |next| ensures CasePair(b, sid, solver, cases[n], next[n].0, next[n].1) {
      if n < |made| { assert CasePair(db, sid, solver, cases[n], made[n].0, made[n].1); }
    }
  }

  lemma CaseOnlyGrows(db: Db, sid: StudyId, made: seq<(JobId, JobId)>, a: Act, e: (JobId, JobId))
    requires OnlyMade(db, sid, made) && OnlyEdges(db, sid, made) && a.AddCase? && a.sid == sid && (a.aid, a.cid) == e
    requires e.0 !in db.jobs && e.1 !in db.jobs && e.0 != e.1 && forall d <- db.deps :: d.job in db.jobs
    ensures OnlyMade(AfterCase(db, a), sid, made + [e]) && OnlyEdges(AfterCase(db, a), sid, made + [e])
  {
    MadeGrows(made, e);
    hide Made, CaseEdge;
  }

  lemma CaseDrafted(db: Db, sid: StudyId, solver: string, cases: Cases, made: seq<(JobId, JobId)>, a: Act, aid: JobId, cid: JobId)
    requires Drafted(db, sid, solver, cases, made) && |made| < |cases| && aid !in db.jobs && cid !in db.jobs && aid != cid
    requires a.AddCase? && a.sid == sid && a.caseId == cases[|made|].caseId && a.overrides == cases[|made|].overrides
    requires a.solver == solver
    requires a.aid == aid && a.cid == cid
    requires Referenced(db)
    ensures Drafted(AfterCase(db, a), sid, solver, cases, made + [(aid, cid)])
  {
    CasePairsGrow(db, sid, solver, cases, made, a, (aid, cid));
    CaseOnlyGrows(db, sid, made, a, (aid, cid));
    forall x | 0 <= x < |made| ensures made[x].0 in db.jobs && made[x].1 in db.jobs {
      assert CasePair(db, sid, solver, cases[x], made[x].0, made[x].1);
    }
    hide Pairs, CasePair, OnlyMade, OnlyEdges;
  }

  lemma DepsHaveJobs(s: Sys)
    requires Inv(s)
    ensures Referenced(s.db)
  {
    StructIsLinked(s.db);
  }

  function ChecksOf(made: seq<(JobId, JobId)>): (r: seq<JobId>)
    ensures |r| == |made| && forall n :: 0 <= n < |r| ==> r[n] == made[n].1
  {
    seq(|made|, n requires 0 <= n < |made| => made[n].1)
  }

  lemma ReportEnabled(s: Sys, sid: StudyId, solver: string, cases: Cases, made: seq<(JobId, JobId)>, rid: JobId, now: int)
    requires Drafted(s.db, sid, solver, cases, made) && rid !in s.db.jobs
    ensures Enabled(s, AddReport(sid, ChecksOf(made), rid, now))
  {
    var checks := ChecksOf(made);
    forall j <- s.db.jobs ensures j in checks <==> s.db.jobs[j].study == sid && s.db.jobs[j].jtype == CHECK {
      if s.db.jobs[j].study == sid && s.db.jobs[j].jtype == CHECK {
        assert Made(made, j);
        var n :| 0 <= n < |made| && (made[n].0 == j || made[n].1 == j);
        assert CasePair(s.db, sid, solver, cases[n], made[n].0, made[n].1);
        assert checks[n] == j;
      }
      if j in checks {
        var n :| 0 <= n < |checks| && checks[n] == j;
        assert CasePair(s.db, sid, solver, cases[n], made[n].0, made[n].1);
      }
    }
    forall c <- checks ensures c in s.db.jobs && s.db.jobs[c].state == Proposed {
      var n :| 0 <= n < |checks| && checks[n] == c;
      assert CasePair(s.db, sid, solver, cases[n], made[n].0, made[n].1);
    }
    assert Distinct(checks);
  }

  lemma ReportCalls(db: Db, a: Act)
    requires a.AddReport? && Enabled(Sys(db, map[], {}, NOTHING), a)
    ensures a.sid in db.studies
    ensures MoveStudy(CreateJob(db, ReportJob(db, a.sid, a.checks, a.rid, a.ts)),
      StudyRequest(a.sid, PlanProposed, Agent, Some(Draft), a.ts))
         == AfterReport(db, a)
  {
    hide Exec, NextSeen, Move;
    var s := Sys(db, map[], {}, NOTHING);
    ReportEffect(s, a);
    Exec2(db, DoCreateJob(ReportJob(db, a.sid, a.checks, a.rid, a.ts)),
      DoMoveStudy(StudyRequest(a.sid, PlanProposed, Agent, Some(Draft), a.ts)));
    hide AfterReport, ReportJob, CreateJob, MoveStudy;
  }

  lemma ReportRan(s0: Sys, s: Sys, acts: seq<Act>, a: Act)
    requires Ran(s0, s, acts) && a.AddReport? && Enabled(s, a) && a.sid in s.db.studies
    ensures Ran(s0, Sys(AfterReport(s.db, a), s.seen, s.judged, s.pending), acts + [a])
  {
    hide Ran;
    hide Inv, Enabled, AfterReport, Step, Run;
    StepFrame(s, a);
    ReportEffect(s, a);
    OneMore(s0, s, acts, a);
  }

  // The plan: a pair of jobs per case, one REPORT over all CHECKs, and no other job or edge
  ghost predicate Planned(db: Db, sid: StudyId, solver: string, cases: Cases, made: seq<(JobId, JobId)>, rid: JobId) {
    && sid in db.studies && db.studies[sid].status == PlanProposed && |made| == |cases|
    && Disjoint(made) && Pairs(db, sid, solver, cases, made)
    && rid in db.jobs && db.jobs[rid].study == sid && db.jobs[rid].jtype == REPORT && db.jobs[rid].state == Proposed
    && db.jobs[rid].attempt == 1 && db.jobs[rid].maxAttempts == 3 && db.jobs[rid].priority == db.studies[sid].policy.priority
    && db.jobs[rid].resource == Resource(60, {}, None) && db.jobs[rid].parent == None
    && (forall j <- db.jobs :: db.jobs[j].study == sid ==> j == rid || Made(made, j))
    && (forall n :: 0 <= n < |made| ==> Dep(rid, made[n].1) in db.deps)
    && forall d <- db.deps :: d.job in db.jobs && db.jobs[d.job].study == sid ==> CaseEdge(made, d) || ReportEdge(made, rid, d)
  }

  predicate ReportEdge(made: seq<(JobId, JobId)>, rid: JobId, d: Dep) {
    d.job == rid && exists n :: 0 <= n < |made| && made[n].1 == d.on
  }

  lemma ReportPairs(db: Db, sid: StudyId, solver: string, cases: Cases, made: seq<(JobId, JobId)>, rid: JobId, now: int)
    requires sid in db.studies && Pairs(db, sid, solver, cases, made) && rid !in db.jobs
    ensures Pairs(AfterReport(db, AddReport(sid, ChecksOf(made), rid, now)), sid, solver, cases, made)
  {
    var b := AfterReport(db, AddReport(sid, ChecksOf(made), rid, now));
    forall n | 0 <= n < |made| ensures CasePair(b, sid, solver, cases[n], made[n].0, made[n].1) {
      assert CasePair(db, sid, solver, cases[n], made[n].0, made[n].1);
    }
  }

  lemma ReportEdges(db: Db, sid: StudyId, made: seq<(JobId, JobId)>, rid: JobId, now: int)
    requires sid in db.studies && OnlyEdges(db, sid, made) && rid !in db.jobs && forall d <- db.deps :: d.job in db.jobs
    ensures var b := AfterReport(db, AddReport(sid, ChecksOf(made), rid, now));
      && (forall n :: 0 <= n < |made| ==> Dep(rid, made[n].1) in b.deps)
      && forall d <- b.deps :: d.job in b.jobs && b.jobs[d.job].study == sid ==> CaseEdge(made, d) || ReportEdge(made, rid, d)
  {
    var checks := ChecksOf(made);
    var b := AfterReport(db, AddReport(sid, checks, rid, now));
    forall n | 0 <= n < |made| ensures Dep(rid, made[n].1) in b.deps { assert checks[n] in checks; }
    forall d <- b.deps | d.job in b.jobs && b.jobs[d.job].study == sid ensures CaseEdge(made, d) || ReportEdge(made, rid, d) {
      if d !in db.deps {
        var n :| 0 <= n < |checks| && checks[n] == d.on;
        assert made[n].1 == d.on;
      }
    }
  }

  lemma ReportPlans(db: Db, sid: StudyId, solver: string, cases: Cases, made: seq<(JobId, JobId)>, rid: JobId, now: int)
    requires Drafted(db, sid, solver, cases, made) && |made| == |cases| && rid !in db.jobs && Referenced(db)
    ensures Planned(AfterReport(db, AddReport(sid, ChecksOf(made), rid, now)), sid, solver, cases, made, rid)
  {
    ReportPairs(db, sid, solver, cases, made, rid, now);
    ReportEdges(db, sid, made, rid, now);
    hide Pairs, CaseEdge, ReportEdge, Made;
  }

  // One turn of the loop over the cases
  method AddOne(store: Store, sid: StudyId, cases: Cases, solver: string, now: int, ghost made: seq<(JobId, JobId)>, i: nat)
    returns (aid: JobId, cid: JobId)
    requires Referenced(store.Db()) && store.Fresh() && Drafted(store.Db(), sid, solver, cases, made) && i == |made| < |cases|
    modifies store`jobs, store`deps, store`log, store`nextId
    ensures store.Fresh() && Drafted(store.Db(), sid, solver, cases, made + [(aid, cid)])
    ensures aid !in old(store.jobs) && cid !in old(store.jobs) && aid != cid
    ensures store.Db() == AfterCase(old(store.Db()), CaseAct(sid, cases[i], solver, aid, cid, now))
  {
    hide Drafted, CreateJob, AfterCase;
    ghost var db := store.Db();
    var c := cases[i];
    aid, cid := store.nextId, store.nextId + 1;
    FreshIds(db, aid, cid);
    IsDraft(db, sid, solver, cases, made);
    CaseCalls(db, CaseAct(sid, c, solver, aid, cid, now));
    CaseDrafted(db, sid, solver, cases, made, CaseAct(sid, c, solver, aid, cid, now), aid, cid);
    var check := CheckJob(store.Db(), sid, aid, cid, now);
    var refusal;
    NotRefused(db, CaseJob(db, sid, c.caseId, c.overrides, solver, aid, now));
    aid, refusal := store.NewJob(CaseJob(store.Db(), sid, c.caseId, c.overrides, solver, aid, now));
    cid, refusal := store.NewJob(check);
  }

  lemma IsDraft(db: Db, sid: StudyId, solver: string, cases: Cases, made: seq<(JobId, JobId)>)
    requires Drafted(db, sid, solver, cases, made)
    ensures sid in db.studies && db.studies[sid].status == Draft
  {}

  lemma FreshIds(db: Db, aid: JobId, cid: JobId)
    requires (forall j <- db.jobs :: j < aid) && cid == aid + 1
    ensures aid !in db.jobs && cid !in db.jobs && aid != cid
  {}

  lemma NotRefused(db: Db, n: NewJob)
    ensures !n.actor.Malformed? && CreateRefusal(db, n).None? ==> n.id in CreateJob(db, n).jobs
  {}

  /******* Other processes meanwhile *******/

  // What the tables say about one study: its row, its jobs and what they depend on
  datatype Part = Part(study: Option<Study>, jobs: map<JobId, Job>, deps: set<Dep>)

  function PartOf(db: Db, sid: StudyId): Part {
    Part(if sid in db.studies then Some(db.studies[sid]) else None,
         map j | j in db.jobs && db.jobs[j].study == sid :: db.jobs[j],
         set d | d in db.deps && d.job in db.jobs && db.jobs[d.job].study == sid)
  }

  lemma PartParts(a: Db, b: Db, sid: StudyId)
    requires PartOf(a, sid) == PartOf(b, sid)
    ensures (sid in a.studies <==> sid in b.studies) && (sid in a.studies ==> a.studies[sid] == b.studies[sid])
    ensures forall j :: j in a.jobs && a.jobs[j].study == sid ==> j in b.jobs && b.jobs[j] == a.jobs[j]
    ensures forall j :: j in b.jobs && b.jobs[j].study == sid ==> j in a.jobs && b.jobs[j] == a.jobs[j]
    ensures forall d :: d in a.deps && d.job in a.jobs && a.jobs[d.job].study == sid ==> d in b.deps
    ensures forall d :: d in b.deps && d.job in b.jobs && b.jobs[d.job].study == sid ==> d in a.deps
  {
    var p, q := PartOf(a, sid), PartOf(b, sid);
    forall j | j in a.jobs && a.jobs[j].study == sid
      ensures j in b.jobs && b.jobs[j] == a.jobs[j]
    {
      assert j in p.jobs && j in q.jobs;
    }
    forall j | j in b.jobs && b.jobs[j].study == sid
      ensures j in a.jobs && b.jobs[j] == a.jobs[j]
    {
      assert j in q.jobs && j in p.jobs;
    }
    forall d | d in a.deps && d.job in a.jobs && a.jobs[d.job].study == sid
      ensures d in b.deps
    {
      assert d in p.deps && d in q.deps;
    }
    forall d | d in b.deps && d.job in b.jobs && b.jobs[d.job].study == sid
      ensures d in a.deps
    {
      assert d in q.deps && d in p.deps;
    }
  }

  // The draft is all the study has, whatever the rest of the tables looks like.
  lemma DraftStays(a: Db, b: Db, sid: StudyId, solver: string, cases: Cases, made: seq<(JobId, JobId)>)
    requires Drafted(a, sid, solver, cases, made) && PartOf(a, sid) == PartOf(b, sid)
    ensures Drafted(b, sid, solver, cases, made)
  {
    PartParts(a, b, sid);
    hide PartOf;
    forall n | 0 <= n < |made| ensures CasePair(b, sid, solver, cases[n], made[n].0, made[n].1) {
      assert CasePair(a, sid, solver, cases[n], made[n].0, made[n].1);
    }
    forall j <- b.jobs | b.jobs[j].study == sid ensures Made(made, j) { assert j in a.jobs; }
    forall d <- b.deps | d.job in b.jobs && b.jobs[d.job].study == sid ensures CaseEdge(made, d) {
      assert d in a.deps && d.job in a.jobs && a.jobs[d.job].study == sid;
    }
  }

  // Steps of other processes that leave the study alone
  method Meanwhile(store: Store, others: seq<Act>, sid: StudyId) returns (ghost moved: seq<Act>)
    requires store.Fresh() && Referenced(store.Db())
    modifies store
    ensures store.Sys() == Run(old(store.Sys()), moved) && store.Fresh()
    ensures Referenced(store.Db()) && PartOf(store.Db(), sid) == PartOf(old(store.Db()), sid)
  {
    hide Run, Inv, Step, PartOf, Referenced;
    moved := [];
    ghost var s0 := store.Sys();
    NoSteps(s0);
    for i := 0 to |others|
      invariant store.Sys() == Run(s0, moved) && store.Fresh() && Referenced(store.Db())
      invariant PartOf(store.Db(), sid) == PartOf(s0.db, sid)
    {
      ghost var s := store.Sys();
      if PartOf(Step(store.Sys(), others[i]).db, sid) == PartOf(store.Db(), sid) {
        RunPush(s0, moved, others[i]);
        RunOne(s, others[i]);
        ReferencedRun(s, [others[i]]);
        store.Interfere([others[i]]);
        moved := moved + [others[i]];
      }
    }
  }

  lemma CaseTurn(
    s0: Sys, s: Sys, acts: seq<Act>, sid: StudyId, solver: string, cases: Cases, made: seq<(JobId, JobId)>,
    aid: JobId, cid: JobId, now: int)
    requires Ran(s0, s, acts) && Spelled(cases) && Drafted(s.db, sid, solver, cases, made) && |made| < |cases|
    requires aid !in s.db.jobs && cid !in s.db.jobs && aid != cid
    ensures var a := CaseAct(sid, cases[|made|], solver, aid, cid, now);
      Ran(s0, Sys(AfterCase(s.db, a), s.seen, s.judged, s.pending), acts + [a])
  {
    hide Ran, AfterCase, Enabled, Drafted, Spelled;
    CaseEnabled(s, sid, solver, cases, made, aid, cid, now);
    CaseRan(s0, s, acts, CaseAct(sid, cases[|made|], solver, aid, cid, now));
  }

  lemma MatrixSpells(keys: seq<string>, axes: seq<seq<int>>, cases: Cases)
    requires |keys| == |axes| && CaseMatrix.IsMatrix(keys, axes, cases)
    ensures Spelled(cases)
  {
    forall a, b | 0 <= a < |cases| && 0 <= b < |cases| && cases[a].caseId == cases[b].caseId
      ensures cases[a].overrides == cases[b].overrides
    {
      CaseMatrix.IdsSpell(keys, axes, cases, a, b);
    }
  }

  // `others(n)` is what the other processes do before the n-th case, of what leaves the study alone.
  method DecomposeStudy(store: Store, sid: StudyId, keys: seq<string>, axes: seq<seq<int>>, solver: string, now: int,
    others: nat -> seq<Act>)
    returns (cases: Cases, made: seq<(JobId, JobId)>, rid: JobId, ghost acts: seq<Act>)
    requires Inv(store.Sys()) && store.Fresh() && sid in store.studies && store.studies[sid].status == Draft
    requires forall j <- store.jobs :: store.jobs[j].study != sid
    requires |keys| == |axes| && CaseMatrix.DistinctKeys(keys)
    modifies store
    ensures store.Fresh() && Ran(old(store.Sys()), store.Sys(), acts)
    ensures CaseMatrix.IsMatrix(keys, axes, cases) && |made| == |cases| && Planned(store.Db(), sid, solver, cases, made, rid)
    ensures cases != [] ==> (DistinctIds(cases) <==> forall k :: 0 <= k < |axes| ==> CaseMatrix.NoRepeats(axes[k]))
  {
    hide Step, Run, Inv, Drafted, Planned, Ran, PartOf, Referenced, AfterCase, Spelled, CaseMatrix.IsMatrix, CaseMatrix.NoRepeats;
    hide CaseMatrix.DistinctKeys;
    ghost var s0 := store.Sys();
    cases := CaseMatrix.MakeMatrix(keys, axes);
    if cases != [] { CaseMatrix.CaseIdsDifferIff(keys, axes, cases); }
    MatrixSpells(keys, axes, cases);
    made, acts := [], [];
    DepsHaveJobs(s0);
    NothingDrafted(s0.db, sid, solver, cases);
    NoActs(s0);
    for i := 0 to |cases|
      invariant Ran(s0, store.Sys(), acts) && store.Fresh() && Referenced(store.Db())
      invariant |made| == i && Drafted(store.Db(), sid, solver, cases, made)
    {
      ghost var before := store.Sys();
      ghost var moved := Meanwhile(store, others(i), sid);
      OthersMove(s0, before, acts, moved);
      DraftStays(before.db, store.Db(), sid, solver, cases, made);
      ghost var s := store.Sys();
      var aid, cid := AddOne(store, sid, cases, solver, now, made, i);
      CaseTurn(s0, s, acts + moved, sid, solver, cases, made, aid, cid, now);
      CaseReferenced(s.db, CaseAct(sid, cases[i], solver, aid, cid, now));
      made := made + [(aid, cid)];
      acts := acts + moved + [CaseAct(sid, cases[i], solver, aid, cid, now)];
    }
    ghost var before := store.Sys();
    ghost var moved := Meanwhile(store, others(|cases|), sid);
    OthersMove(s0, before, acts, moved);
    DraftStays(before.db, store.Db(), sid, solver, cases, made);
    rid, acts := Finish(store, sid, solver, cases, made, now, s0, acts + moved);
  }

  lemma CaseReferenced(db: Db, a: Act)
    requires Referenced(db) && a.AddCase?
    ensures Referenced(AfterCase(db, a))
  {}

  // The REPORT over all CHECKs, and the study proposed
  method Finish(
    store: Store, sid: StudyId, solver: string, cases: Cases, made: seq<(JobId, JobId)>, now: int, ghost s0: Sys,
      ghost past: seq<Act>)
    returns (rid: JobId, ghost acts: seq<Act>)
    requires Ran(s0, store.Sys(), past) && store.Fresh() && Referenced(store.Db())
    requires Drafted(store.Db(), sid, solver, cases, made) && |made| == |cases|
    modifies store`jobs, store`deps, store`log, store`nextId, store`studies
    ensures Ran(s0, store.Sys(), acts) && store.Fresh() && Planned(store.Db(), sid, solver, cases, made, rid)
  {
    hide Run, Inv, Drafted, CreateJob, Planned, Enabled, MoveStudy, AfterReport, Ran;
    ghost var s := store.Sys();
    rid := store.nextId;
    ghost var a := AddReport(sid, ChecksOf(made), rid, now);
    FreshIds(s.db, rid, rid + 1);
    ReportEnabled(s, sid, solver, cases, made, rid, now);
    ReportEnabled(Sys(s.db, map[], {}, NOTHING), sid, solver, cases, made, rid, now);
    ReportCalls(s.db, a);
    ReportPlans(s.db, sid, solver, cases, made, rid, now);
    var refusal;
    rid, refusal := store.NewJob(ReportJob(store.Db(), sid, ChecksOf(made), rid, now));
    StudiesKept(store.Db(), StudyRequest(sid, PlanProposed, Agent, Some(Draft), now));
    refusal := store.StudyTransition(StudyRequest(sid, PlanProposed, Agent, Some(Draft), now));
    ReportRan(s0, s, past, a);
    acts := past + [a];
  }

  lemma NoActs(s: Sys)
    requires Inv(s)
    ensures Ran(s, s, [])
  {
    hide Step, Inv;
  }

  lemma StudiesKept(db: Db, q: StudyRequest)
    ensures MoveStudy(db, q).studies.Keys == db.studies.Keys
  {}

  lemma NothingDrafted(db: Db, sid: StudyId, solver: string, cases: Cases)
    requires sid in db.studies && db.studies[sid].status == Draft && forall j <- db.jobs :: db.jobs[j].study != sid
    ensures Drafted(db, sid, solver, cases, [])
  {}
}
