/**
 What any one action may do to the rows: an old row keeps its columns and makes at most one legal move, policies
 never change, and every new row has a known origin.
 */
module Steps {
  import opened Wrappers
  import opened Rows
  import opened Substrate
  import opened EventLog
  import opened Protocol
  import opened Effects
  import opened Structure
  import opened History
  import opened Readiness

  predicate RowStep(r: Job, q: Job) {
    && SameColumns(r, q) && (q.state == r.state || JobVerb(r.state, q.state).Some?)
    && (q.runRef == r.runRef || (r.state == Running && q.state != Running))
    && (q.verdict == r.verdict || (r.state == Running && q.state == Succeeded) || (r.state == Succeeded && q.state != Succeeded))
    && (q.worker == r.worker || q.worker == None || (r.state == Queued && q.state == Assigned))
  }

  // Where a row that was not there before comes from
  ghost predicate Origin(db: Db, a: Act, b: Db, j: JobId)
    requires j in b.jobs
  {
    var row := b.jobs[j];
    match a
    case AddCase(sid, caseId, overrides, solver, aid, cid, ts) =>
      && sid in db.studies && db.studies[sid].status == Draft
      && (row == NewRow(CaseJob(db, sid, caseId, overrides, solver, aid, ts)) || row == NewRow(CheckJob(db, sid, aid, cid, ts)))
    case AddReport(sid, checks, rid, ts) =>
      sid in db.studies && db.studies[sid].status == Draft && row == NewRow(ReportJob(db, sid, checks, rid, ts))
    case MakeTriage(p, tid, ts) => p in db.jobs && row == NewRow(TriageJob(db.jobs[p], p, tid, ts))
    case RunTriage(_, t, rid, _, _, _) =>
      j == rid && Triaging(db, t) && db.jobs[db.jobs[t].payload.failedJob].state == Triage &&
        RetryOf(db, db.jobs[t].payload.failedJob, row)
    case HalfTriage(_, t, rid, _, cut, _) =>
      j == rid && cut > 0 && Triaging(db, t) && db.jobs[db.jobs[t].payload.failedJob].state in {Triage, RetrySpawned}
      && SuccessorOf(db, db.jobs[t].payload.failedJob, row)
    case _ => false
  }

  // d used to lead to p, which was in triage, and leads to its retry d.on now.
  predicate Repointed(a: Db, b: Db, d: Dep, p: JobId) {
    && p in a.jobs && Dep(d.job, p) in a.deps && a.jobs[p].state == Triage && a.jobs[p].attempt < a.jobs[p].maxAttempts
    && d.on in b.jobs && SuccessorRow(a.jobs[p], p, b.jobs[d.on])
  }

  ghost predicate OldEdge(a: Db, b: Db, d: Dep) {
    d in a.deps || d.job !in a.jobs || exists p :: Repointed(a, b, d, p)
  }

  // A job in triage that still has attempts left
  predicate Retried(db: Db, p: JobId) {
    p in db.jobs && db.jobs[p].state == Triage && db.jobs[p].attempt < db.jobs[p].maxAttempts
  }

  ghost predicate RowsStep(a: Db, b: Db) {
    && a.jobs.Keys <= b.jobs.Keys
    && (forall j <- a.jobs :: RowStep(a.jobs[j], b.jobs[j]))
    && (forall t <- a.studies :: t in b.studies && b.studies[t].policy == a.studies[t].policy)
    && (forall v <- a.verdicts :: v in b.verdicts && b.verdicts[v] == a.verdicts[v])
    && (forall d <- b.deps :: OldEdge(a, b, d))
    && (forall d <- a.deps :: d in b.deps || Retried(a, d.on))
  }

  // runRef and verdict are only written on the moves the workers and the gates make.
  predicate Tidy(q: Request) {
    && (q.runRef.Some? ==> q.expected == Some(Running) && q.to != Running)
    && (q.verdict.Some? ==>
          (q.expected == Some(Running) && q.to == Succeeded) || (q.expected == Some(Succeeded) && q.to != Succeeded))
  }

  lemma SingleMovesAreTidy(db: Db, a: Act)
    requires SingleMove(db, a).Some?
    ensures Tidy(SingleMove(db, a).value)
  {}

  ghost predicate Summary(db: Db, a: Act, b: Db) {
    RowsStep(db, b) && forall j <- b.jobs :: j in db.jobs || Origin(db, a, b, j)
  }

  lemma MoveRows(db: Db, q: Request)
    requires Tidy(q)
    ensures RowsStep(db, Move(db, q))
  {
    if MoveRefusal(db, q).None? {
      MoveShape(db, q);
      MovedRowStep(db, q);
      hide Move, MovedRow, MoveRefusal, Tidy, RowStep;
      forall j <- db.jobs ensures RowStep(db.jobs[j], Move(db, q).jobs[j]) {
        RowStays(db.jobs[j]);
      }
    } else {
      forall j <- db.jobs ensures RowStep(db.jobs[j], db.jobs[j]) { RowStays(db.jobs[j]); }
    }
  }

  lemma RowStays(row: Job)
    ensures RowStep(row, row)
  {}

  lemma MovedRowStep(db: Db, q: Request)
    requires Tidy(q) && MoveRefusal(db, q).None?
    ensures q.job in db.jobs && RowStep(db.jobs[q.job], MovedRow(db.jobs[q.job], q))
  {}

  lemma OutcomeEdges(db: Db, b: Db, p: JobId, rid: JobId)
    requires TriageOutcome(db, b, p, rid) || Adds(db, b, p, rid)
    ensures forall d <- b.deps :: OldEdge(db, b, d)
    ensures forall d <- db.deps :: d in b.deps || Retried(db, d.on)
  {
    if b.deps != db.deps {
      forall d <- db.deps ensures d in b.deps || d.on == p {
        assert (if d.on == p then Dep(d.job, rid) else d) in b.deps;
      }
      forall d <- b.deps ensures OldEdge(db, b, d) {
        if d !in db.deps {
          var e :| e in db.deps && d == if e.on == p then Dep(e.job, rid) else e;
          assert Repointed(db, b, d, p);
        }
      }
    }
  }

  lemma OutcomeSummary(db: Db, a: Act, b: Db, p: JobId)
    requires a.RunTriage? && TriageOutcome(db, b, p, a.rid) && Triaging(db, a.j) && p == db.jobs[a.j].payload.failedJob
    ensures Summary(db, a, b)
  {
    hide OldEdge, JobVerb, RowStep, Retried, TriageOutcome, Replaces, RetryOf;
    OutcomeEdges(db, b, p, a.rid);
    OutcomeRows(db, b, p, a.rid);
    OutcomeBirth(db, b, p, a.rid);
    OutcomeKeeps(db, b, p, a.rid);
  }

  lemma OutcomeBirth(db: Db, b: Db, p: JobId, rid: JobId)
    requires TriageOutcome(db, b, p, rid)
    ensures forall j <- b.jobs :: j in db.jobs || (j == rid && RetryOf(db, p, b.jobs[j]))
    ensures p in db.jobs && db.jobs[p].state == Triage
  {}

  lemma OutcomeKeeps(db: Db, b: Db, p: JobId, rid: JobId)
    requires TriageOutcome(db, b, p, rid)
    ensures db.jobs.Keys <= b.jobs.Keys && b.studies == db.studies && b.verdicts == db.verdicts
  {}

  lemma OutcomeRows(db: Db, b: Db, p: JobId, rid: JobId)
    requires TriageOutcome(db, b, p, rid)
    ensures forall j <- db.jobs :: j in b.jobs && RowStep(db.jobs[j], b.jobs[j])
  {
    assert RowStep(db.jobs[p], b.jobs[p]);
    hide JobVerb, RowStep;
    forall j <- db.jobs ensures RowStep(db.jobs[j], b.jobs[j]) {
      if j != p { RowStays(db.jobs[j]); }
    }
  }

  lemma HalfSummary(db: Db, a: Act, b: Db, p: JobId)
    requires a.HalfTriage? && HalfOutcome(db, b, p, a.rid) && (b != db ==> a.cut > 0) && Triaging(db, a.j)
    requires p == db.jobs[a.j].payload.failedJob
    ensures Summary(db, a, b)
  {
    hide RowStep, SuccessorOf;
    forall j <- db.jobs ensures RowStep(db.jobs[j], db.jobs[j]) { RowStays(db.jobs[j]); }
    if b != db { OutcomeEdges(db, b, p, a.rid); }
    hide OldEdge, Retried;
  }

  lemma TriageSummary(s: Sys, a: Act)
    requires Inv(s) && (a.RunTriage? || a.HalfTriage?) && Enabled(s, a)
    ensures Summary(s.db, a, Step(s, a).db)
  {
    hide Summary, Inv;
    hide Step, Enabled, Struct, ReadyOk, TriageOk;
    InvParts(s);
    if a.RunTriage? {
      var p, pre, q, last := TriageStep(s, a);
      hide TriageOutcome, TriageEvents;
      OutcomeSummary(s.db, a, Step(s, a).db, p);
    } else {
      var p, pre := HalfStep(s, a);
      hide HalfOutcome;
      HalfSummary(s.db, a, Step(s, a).db, p);
    }
  }

  lemma DecomposeSummary(s: Sys, a: Act)
    requires (a.AddCase? || a.AddReport?) && Enabled(s, a)
    ensures Summary(s.db, a, Step(s, a).db)
  {
    hide Step;
    if a.AddCase? {
      CaseEffect(s, a);
      CaseSummary(s.db, a);
    } else {
      ReportEffect(s, a);
      ReportSummary(s.db, a);
    }
    hide Enabled, Summary, AfterCase, AfterReport;
  }

  lemma CaseSummary(db: Db, a: Act)
    requires a.AddCase? && a.sid in db.studies && db.studies[a.sid].status == Draft && a.aid !in db.jobs
    requires a.cid !in db.jobs && a.aid != a.cid
    ensures Summary(db, a, AfterCase(db, a))
  {
    assert AfterCase(db, a).jobs[a.cid] == NewRow(CheckJob(db, a.sid, a.aid, a.cid, a.ts));
  }

  lemma ReportSummary(db: Db, a: Act)
    requires a.AddReport? && a.sid in db.studies && db.studies[a.sid].status == Draft && a.rid !in db.jobs
    ensures Summary(db, a, AfterReport(db, a))
  {}

  lemma MakeSummary(s: Sys, a: Act)
    requires Linked(s.db) && a.MakeTriage? && Enabled(s, a)
    ensures Summary(s.db, a, Step(s, a).db)
  {
    hide Step, Enabled, RowStep, Linked;
    MakeEffect(s, a);
    MakeGuard(s, a);
    forall j <- s.db.jobs ensures RowStep(s.db.jobs[j], s.db.jobs[j]) { RowStays(s.db.jobs[j]); }
  }

  lemma OtherSummary(s: Sys, a: Act)
    requires Enabled(s, a) && !Composite(a)
    ensures Summary(s.db, a, Step(s, a).db)
  {
    hide Origin, Move;
    hide Step, Enabled, SingleMove;
    if Aside(a) {
      AsideEffect(s, a);
      AsideSummary(s.db, a, Step(s, a).db);
    } else {
      MoveEffect(s, a);
      if SingleMove(s.db, a).Some? {
        SingleMovesAreTidy(s.db, a);
        MoveRows(s.db, SingleMove(s.db, a).value);
        MoveSummary(s.db, a, SingleMove(s.db, a).value);
      } else {
        forall j <- s.db.jobs ensures RowStep(s.db.jobs[j], s.db.jobs[j]) { RowStays(s.db.jobs[j]); }
      }
    }
  }

  lemma AsideSummary(db: Db, a: Act, b: Db)
    requires LeavesRows(db, a, b)
    ensures Summary(db, a, b)
  {}

  lemma MoveSummary(db: Db, a: Act, q: Request)
    requires RowsStep(db, Move(db, q))
    ensures Summary(db, a, Move(db, q))
  {
    if MoveRefusal(db, q).None? { MoveShape(db, q); }
  }

  lemma StepSummary(s: Sys, a: Act)
    requires Inv(s) && Enabled(s, a)
    ensures Summary(s.db, a, Step(s, a).db)
  {
    hide Step, Summary, Enabled;
    if !Composite(a) {
      OtherSummary(s, a);
    } else if a.RunTriage? || a.HalfTriage? {
      TriageSummary(s, a);
    } else if a.AddCase? || a.AddReport? {
      DecomposeSummary(s, a);
    } else {
      StructIsLinked(s.db);
      MakeSummary(s, a);
    }
  }
}
