/**
 No silent deadlock. In a study that auto-accepts, with CHECK, TRIAGE and REPORT jobs that succeed once claimed and
 humans who act only on what is handed to them, a state in which no control loop is at work or finds any, nothing is
 leased and nothing is runnable is waiting for a human: every job that is not terminal is one of those Waits names.
 ANALYSIS jobs may fail and lose leases as they like, and control loops may race and crash.
 */
module Quiescence {
  import opened Wrappers
  import opened Rows
  import opened Substrate
  import opened Protocol
  import opened Effects
  import opened Structure
  import opened History
  import opened Readiness
  import opened Steps
  import Stranded
  import opened Evidence
  import opened Control
  import opened Lineage

  /******* The setting *******/

  predicate InStudy(db: Db, j: JobId, sid: StudyId) { j in db.jobs && db.jobs[j].study == sid }

  predicate Fails(db: Db, j: JobId, sid: StudyId) { InStudy(db, j, sid) ==> db.jobs[j].jtype == ANALYSIS }

  // Only ANALYSIS jobs crash or lose their lease, so run_triage runs in a running job, and none breaks off; humans approve,
  // review and resolve, and cancel nothing that was approved (as aborting the study would). A control loop dies between the
  // flip of a job and the creation of its TRIAGE child only with jobs that never had a child: any other job would be lost
  // (Stranded).
  predicate Calm(db: Db, a: Act, sid: StudyId) {
    match a
    case Reap(j, _, _, _) => Fails(db, j, sid)
    case Crash(_, j, _) => Fails(db, j, sid)
    case HalfTriage(_, j, _, _, _, _) => !InStudy(db, j, sid)
    case RunTriage(_, j, _, _, logged, _) => InStudy(db, j, sid) ==> logged && db.jobs[j].state == Running
    case DropTriage(j, _) => InStudy(db, j, sid) ==> !HasTriageChild(db, j)
    case HumanMove(j, _, _, _) => InStudy(db, j, sid) ==> db.jobs[j].state in {Proposed, Review, Escalated}
    case _ => true
  }

  ghost predicate CalmRun(acts: seq<Act>, sid: StudyId) {
    forall i :: 0 <= i < |acts| ==> Calm(Run(INIT, acts[..i]).db, acts[i], sid)
  }

  /******* The invariant *******/

  predicate Smooth(s: JobState) { s in {Proposed, Approved, Queued, Assigned, Running, Succeeded, Accepted, Cancelled} }

  predicate Judged(s: JobState) { s in {Review, Accepted, Rejected} }

  predicate IsFor(row: Job, p: JobId) { row.jtype == TRIAGE && row.payload == TriagePayload(p) }

  // t is still to run triage for p.
  predicate OnTheWay(s: Sys, t: JobId, p: JobId) {
    && t in s.db.jobs && IsFor(s.db.jobs[t], p) && t !in s.pending.ran
    && s.db.jobs[t].state in {Approved, Queued, Assigned, Running}
  }

  ghost predicate UnderTriage(s: Sys, p: JobId) { exists t :: OnTheWay(s, t, p) }

  // A TRIAGE job for p that a human has to approve, or has cancelled
  predicate HeldUp(db: Db, p: JobId) { exists t <- db.jobs :: IsFor(db.jobs[t], p) && db.jobs[t].state in {Proposed, Cancelled} }

  // A loop is about to make a TRIAGE job for the failed job p, or one is on its way or held up, or the repair arm will
  // find that there is none.
  ghost predicate InHand(s: Sys, p: JobId) {
    p in s.pending.make || UnderTriage(s, p) || HeldUp(s.db, p) || !HasTriageChild(s.db, p)
  }

  ghost predicate UpstreamJudged(db: Db, c: JobId) {
    forall d <- db.deps :: d.job == c ==> d.on in db.jobs && Judged(db.jobs[d.on].state)
  }

  ghost predicate Orderly(s: Sys, j: JobId)
    requires j in s.db.jobs
  {
    var row := s.db.jobs[j];
    && (row.jtype != ANALYSIS ==> Smooth(row.state))
    && (row.jtype == CHECK && row.state == Succeeded ==> row.verdict.Some?)
    && (row.jtype == CHECK && row.state == Accepted ==> UpstreamJudged(s.db, j))
    && (row.jtype == TRIAGE && j in s.pending.ran ==> row.state in {Running, Succeeded, Accepted})
    && (row.state == Triage ==> InHand(s, j))
  }

  ghost predicate OrderlyStudy(s: Sys, sid: StudyId) {
    forall j <- s.db.jobs :: s.db.jobs[j].study == sid ==> Orderly(s, j)
  }

  /******* What a step must show *******/

  // A row of the study that moves
  ghost predicate CalmRow(s: Sys, t: Sys, j: JobId)
    requires j in s.db.jobs && j in t.db.jobs
  {
    var r, q := s.db.jobs[j], t.db.jobs[j];
    && (r.jtype != ANALYSIS && q.state != r.state ==> Smooth(q.state))
    && (r.jtype == CHECK && q.state == Succeeded && r.state != Succeeded ==> q.verdict.Some?)
    && (r.jtype == CHECK && q.state == Accepted && r.state != Accepted ==> UpstreamJudged(t.db, j))
    && (q.state == Triage && r.state != Triage ==> j in t.pending.make)
    // what a TRIAGE job may do: it goes on until it has run, and once it has it only ends
    && (r.jtype == TRIAGE && r.state in {Approved, Queued, Assigned, Running} && j !in s.pending.ran ==>
          q.state in {Approved, Queued, Assigned, Running})
    && (r.jtype == TRIAGE && r.state in {Proposed, Cancelled} ==> q.state in {Proposed, Cancelled, Approved})
    && (r.jtype == TRIAGE && r.state in {Running, Succeeded, Accepted} ==> q.state in {Running, Succeeded, Accepted})
  }

  // The loops' memory: a job is only taken off it when its TRIAGE job is there or it never had one.
  ghost predicate CalmMemory(s: Sys, t: Sys, sid: StudyId) {
    && (forall p <- s.pending.make ::
      p in t.pending.make || HeldUp(t.db, p) || (InStudy(s.db, p, sid) ==> !HasTriageChild(t.db, p)))
    && (forall j <- t.pending.ran ::
      j in s.pending.ran || (j in s.db.jobs && (s.db.jobs[j].study == sid ==> JustRan(s.db, t.db, j))))
  }

  predicate JustRan(db: Db, b: Db, j: JobId) {
    && j in db.jobs && db.jobs[j].jtype == TRIAGE && db.jobs[j].state == Running
    && db.jobs[j].payload.TriagePayload? && db.jobs[j].payload.failedJob in b.jobs
    && b.jobs[db.jobs[j].payload.failedJob].state != Triage
  }

  ghost predicate CalmRows(s: Sys, t: Sys, sid: StudyId) {
    && (forall j <- s.db.jobs :: j in t.db.jobs && (s.db.jobs[j].study == sid ==> CalmRow(s, t, j)))
    && (forall j <- t.db.jobs :: j in s.db.jobs || NewRowOk(t.db, j, sid))
  }

  // A new row has not started, and a new child of a job of the study in triage is proposed for it.
  predicate NewRowOk(b: Db, j: JobId, sid: StudyId)
    requires j in b.jobs
  {
    var row := b.jobs[j];
    && row.state in {Proposed, Approved}
    && (row.jtype == TRIAGE && row.parent.Some? && row.parent.value in b.jobs && InStudy(b, row.parent.value, sid)
          && b.jobs[row.parent.value].state == Triage ==>
          HeldUp(b, row.parent.value))
  }

  lemma JudgedStays(db: Db, b: Db, c: JobId)
    requires RowsStep(db, b) && c in db.jobs && UpstreamJudged(db, c)
    ensures UpstreamJudged(b, c)
  {
    forall d <- b.deps | d.job == c ensures d.on in b.jobs && Judged(b.jobs[d.on].state) {
      assert OldEdge(db, b, d);
      JudgedRow(db.jobs[d.on], b.jobs[d.on]);
    }
    hide RowStep, Judged;
  }

  lemma JudgedRow(r: Job, q: Job)
    requires RowStep(r, q) && Judged(r.state)
    ensures Judged(q.state)
  {}

  lemma SameForm(db: Db, b: Db)
    requires RowsStep(db, b)
    ensures forall t <- db.jobs :: t in b.jobs && SameForms(db.jobs[t], b.jobs[t])
  {
    forall t <- db.jobs ensures SameForms(db.jobs[t], b.jobs[t]) { assert RowStep(db.jobs[t], b.jobs[t]); }
  }

  predicate SameForms(r: Job, q: Job) {
    q.jtype == r.jtype && q.parent == r.parent && q.payload == r.payload && q.study == r.study
  }

  // The study of a TRIAGE job is its target's.
  lemma ForItsStudy(db: Db, t: JobId, p: JobId)
    requires RowsOk(db) && t in db.jobs && IsFor(db.jobs[t], p)
    ensures p in db.jobs && db.jobs[t].study == db.jobs[p].study
  {
    assert RowOk(db, t);
  }

  lemma TriageStays(s: Sys, t: Sys, sid: StudyId, p: JobId)
    requires RowsOk(s.db) && RowsStep(s.db, t.db) && CalmRows(s, t, sid) && CalmMemory(s, t, sid) && OrderlyStudy(s, sid)
    requires InStudy(s.db, p, sid) && s.db.jobs[p].state == Triage && p in t.db.jobs && t.db.jobs[p].state == Triage
    ensures InHand(t, p)
  {
    SameForm(s.db, t.db);
    hide RowsStep;
    assert Orderly(s, p);
    if p in s.pending.make {
    } else if UnderTriage(s, p) {
      var u :| OnTheWay(s, u, p);
      ForItsStudy(s.db, u, p);
      assert CalmRow(s, t, u);
      assert OnTheWay(t, u, p);
    } else if HeldUp(s.db, p) {
      HeldUpStays(s, t, sid, p);
    } else if HasTriageChild(t.db, p) {
      var u :| u in t.db.jobs && t.db.jobs[u].jtype == TRIAGE && t.db.jobs[u].parent == Some(p);
      assert u !in s.db.jobs && NewRowOk(t.db, u, sid);
    }
  }

  lemma HeldUpStays(s: Sys, t: Sys, sid: StudyId, p: JobId)
    requires RowsOk(s.db) && CalmRows(s, t, sid) && CalmMemory(s, t, sid) && OrderlyStudy(s, sid) && HeldUp(s.db, p)
    requires InStudy(s.db, p, sid)
    requires forall u <- s.db.jobs :: u in t.db.jobs && SameForms(s.db.jobs[u], t.db.jobs[u])
    requires p in t.db.jobs && t.db.jobs[p].state == Triage
    ensures InHand(t, p)
  {
    var u :| u in s.db.jobs && IsFor(s.db.jobs[u], p) && s.db.jobs[u].state in {Proposed, Cancelled};
    ForItsStudy(s.db, u, p);
    assert CalmRow(s, t, u) && Orderly(s, u);
    hide RowsOk, CalmRows, OrderlyStudy;
    assert u !in s.pending.ran && u !in t.pending.ran;
    if t.db.jobs[u].state == Approved { assert OnTheWay(t, u, p); }
  }

  lemma OrderlyKeeps(s: Sys, t: Sys, sid: StudyId)
    requires RowsOk(s.db) && RowsStep(s.db, t.db) && OrderlyStudy(s, sid) && CalmRows(s, t, sid) && CalmMemory(s, t, sid)
    requires forall u <- s.pending.ran :: u in s.db.jobs
    ensures OrderlyStudy(t, sid)
  {
    hide Orderly, RowsStep, CalmMemory;
    forall j <- t.db.jobs | t.db.jobs[j].study == sid ensures Orderly(t, j) {
      if j in s.db.jobs {
        OrderlyRow(s, t, sid, j);
      } else {
        NewOrderly(s, t, sid, j);
      }
    }
  }

  lemma NewOrderly(s: Sys, t: Sys, sid: StudyId, j: JobId)
    requires CalmMemory(s, t, sid) && j in t.db.jobs && j !in s.db.jobs && NewRowOk(t.db, j, sid)
    requires forall u <- s.pending.ran :: u in s.db.jobs
    ensures Orderly(t, j)
  {}

  lemma OrderlyRow(s: Sys, t: Sys, sid: StudyId, j: JobId)
    requires RowsOk(s.db) && RowsStep(s.db, t.db) && OrderlyStudy(s, sid) && CalmRows(s, t, sid) && CalmMemory(s, t, sid)
    requires j in s.db.jobs && j in t.db.jobs && t.db.jobs[j].study == sid
    ensures Orderly(t, j)
  {
    assert RowStep(s.db.jobs[j], t.db.jobs[j]);
    assert Orderly(s, j) && CalmRow(s, t, j);
    if s.db.jobs[j].jtype == CHECK && s.db.jobs[j].state == Accepted { JudgedStays(s.db, t.db, j); }
    if s.db.jobs[j].state == Triage && t.db.jobs[j].state == Triage { TriageStays(s, t, sid, j); }
    hide RowsStep, CalmRows, InHand;
  }

  /******* Every action *******/

  ghost predicate MoveIsCalm(s: Sys, q: Request, sid: StudyId) {
    InStudy(s.db, q.job, sid) && MoveRefusal(s.db, q).None? ==>
      var row := s.db.jobs[q.job];
      && row.state != Triage && (row.jtype != ANALYSIS ==> Smooth(q.to))
      && (row.jtype == CHECK && q.to == Succeeded ==> q.verdict.Some?)
      && (row.jtype == CHECK && q.to == Accepted ==> UpstreamJudged(s.db, q.job))
      && (row.jtype == TRIAGE ==> TriageGoesOn(row.state, q.to, q.job in s.pending.ran))
  }

  // What a TRIAGE job does in a calm run
  predicate TriageGoesOn(from: JobState, to: JobState, ran: bool) {
    && (from in {Approved, Queued, Assigned, Running} && !ran ==> to in {Approved, Queued, Assigned, Running})
    && (from in {Proposed, Cancelled} ==> to in {Proposed, Cancelled, Approved})
    && (from in {Running, Succeeded, Accepted} ==> to in {Running, Succeeded, Accepted})
  }

  lemma RestCalm(s: Sys, t: Sys, j: JobId)
    requires j in s.db.jobs && j in t.db.jobs && t.db.jobs[j].state == s.db.jobs[j].state
    ensures CalmRow(s, t, j)
  {}

  lemma MovedCalmly(s: Sys, t: Sys, q: Request, sid: StudyId)
    requires MoveIsCalm(s, q, sid) && t.db == Move(s.db, q) && RowsStep(s.db, t.db) && InStudy(s.db, q.job, sid)
    requires MoveRefusal(s.db, q).None?
    requires q.to == Triage ==> q.job in t.pending.make
    ensures q.job in t.db.jobs && CalmRow(s, t, q.job)
  {
    var j := q.job;
    MoveShape(s.db, q);
    assert t.db.jobs[j].state == q.to && (q.verdict.Some? ==> t.db.jobs[j].verdict == q.verdict);
    hide Move, MovedRow, MoveRefusal;
    if s.db.jobs[j].jtype == CHECK && q.to == Accepted { JudgedStays(s.db, t.db, j); }
    hide RowsStep, UpstreamJudged;
  }

  lemma MoveCalmRows(s: Sys, t: Sys, q: Request, sid: StudyId)
    requires MoveIsCalm(s, q, sid) && t.db == Move(s.db, q) && RowsStep(s.db, t.db)
    requires q.to == Triage && MoveRefusal(s.db, q).None? ==> q.job in t.pending.make
    ensures CalmRows(s, t, sid)
  {
    if MoveRefusal(s.db, q).None? {
      MoveShape(s.db, q);
      hide Move, RowsStep, MoveIsCalm;
      forall j <- s.db.jobs | s.db.jobs[j].study == sid ensures j in t.db.jobs && CalmRow(s, t, j) {
        if j == q.job { MovedCalmly(s, t, q, sid); } else { RestCalm(s, t, j); }
      }
    } else {
      assert t.db == s.db;
      forall j <- s.db.jobs ensures CalmRow(s, t, j) { RestCalm(s, t, j); }
    }
  }

  lemma SingleTarget(db: Db, a: Act, sid: StudyId)
    requires SingleMove(db, a).Some? && Calm(db, a, sid)
    requires var q := SingleMove(db, a).value; InStudy(db, q.job, sid) && MoveRefusal(db, q).None?
    ensures var q := SingleMove(db, a).value; Targeted(a, q, db.jobs[q.job]) && Finishing(a, q, db.jobs[q.job])
  {
    hide *;
    TargetedMove(db, a, sid);
    FinishingMove(db, a, sid);
  }

  // Who moves a row of a calm study where, but for its completions
  predicate Targeted(a: Act, q: Request, row: Job) {
    && (q.to == Triage ==> a.FlipTriage?) && row.state != Triage
    && (q.to == Accepted ==> a.AcceptSupport? || a.GateCheck? || a.GateUpstream? || row.state == Review)
    && (q.to == Rejected ==> row.state == Review) && (q.to == Infeasible ==> row.state == Escalated)
    && (q.to == Queued && row.state in {Assigned, Running} ==> a.Reap?)
    && (q.to == Cancelled ==> a.CancelDead? || row.state in {Proposed, Escalated}) && (q.to == Review ==> a.GateUpstream?)
    && (a.CancelDead? || a.TriageDone? || a.GateCheck? ==> q.job == a.j) && (a.GateUpstream? ==> q.job == a.u)
    && q.to !in {Escalated, RetrySpawned}
  }

  // Who completes it and who fails it
  predicate Finishing(a: Act, q: Request, row: Job) {
    && (a.Reap? || a.Crash? ==> row.jtype == ANALYSIS) && (a.CheckDone? ==> q.verdict.Some?)
    && (q.to == Failed ==> a.Reap? || a.Crash? || a.AnalysisDone?)
    && (q.to == Succeeded ==> a.AnalysisDone? || a.CheckDone? || a.TriageDone? || a.ReportDone?)
  }

  lemma TargetedMove(db: Db, a: Act, sid: StudyId)
    requires SingleMove(db, a).Some? && Calm(db, a, sid)
    requires var q := SingleMove(db, a).value; InStudy(db, q.job, sid) && MoveRefusal(db, q).None?
    ensures var q := SingleMove(db, a).value; Targeted(a, q, db.jobs[q.job])
  {}

  lemma FinishingMove(db: Db, a: Act, sid: StudyId)
    requires SingleMove(db, a).Some? && Calm(db, a, sid)
    requires var q := SingleMove(db, a).value; InStudy(db, q.job, sid) && MoveRefusal(db, q).None?
    ensures var q := SingleMove(db, a).value; Finishing(a, q, db.jobs[q.job])
  {}

  lemma SingleEnabled(s: Sys, a: Act)
    requires Enabled(s, a) && SingleMove(s.db, a).Some? && SingleMove(s.db, a).value.job in s.db.jobs
    ensures var row := s.db.jobs[SingleMove(s.db, a).value.job];
      && (a.AnalysisDone? ==> row.jtype == ANALYSIS) && (a.CheckDone? ==> row.jtype == CHECK)
      && (a.ReportDone? ==> row.jtype == REPORT)
      && (a.TriageDone? ==> row.jtype == TRIAGE && a.j in s.pending.ran) && (a.AcceptSupport? ==> row.jtype != CHECK)
      && (a.GateCheck? ==> Graded(s.db, a.j) && UpstreamMoved(s.db, a.j)) && (a.GateUpstream? ==> Dep(a.j, a.u) in s.db.deps)
      && (a.CancelDead? ==> exists d <- s.db.deps :: d.job == a.j)
  {}

  // A job that was ever ready has upstreams that a gate either finds judged or has judged.
  lemma GateFindsJudged(s: Sys, c: JobId)
    requires Inv(s) && Graded(s.db, c) && UpstreamMoved(s.db, c)
    ensures UpstreamJudged(s.db, c)
  {
    assert StillReady(s.db, c);
  }

  lemma DeadHasEdge(s: Sys, j: JobId)
    requires Inv(s) && j in s.db.jobs && exists d <- s.db.deps :: d.job == j
    ensures s.db.jobs[j].jtype in {CHECK, REPORT}
  {
    var d :| d in s.db.deps && d.job == j;
    assert EdgeOk(s.db, d);
  }

  lemma SingleCalm(s: Sys, a: Act, sid: StudyId)
    requires Inv(s) && OrderlyStudy(s, sid) && Enabled(s, a) && Calm(s.db, a, sid) && SingleMove(s.db, a).Some?
    ensures MoveIsCalm(s, SingleMove(s.db, a).value, sid)
  {
    hide Calm, Inv, SingleMove, Enabled, MoveRefusal, UpstreamJudged, Graded, InHand, UpstreamMoved, OrderlyStudy;
    var q := SingleMove(s.db, a).value;
    if InStudy(s.db, q.job, sid) && MoveRefusal(s.db, q).None? {
      SingleTarget(s.db, a, sid);
      SingleEnabled(s, a);
      SingleFacts(s, a);
      LegalMove(s.db, q);
      OrderlyOne(s, sid, q.job);
    }
  }

  lemma OrderlyOne(s: Sys, sid: StudyId, j: JobId)
    requires OrderlyStudy(s, sid) && InStudy(s.db, j, sid)
    ensures Orderly(s, j)
  {}

  // What the job graph says about the jobs gates and cancellations move
  lemma SingleFacts(s: Sys, a: Act)
    requires Inv(s) && Enabled(s, a)
    ensures a.GateCheck? ==> UpstreamJudged(s.db, a.j) && a.j in s.db.jobs && s.db.jobs[a.j].jtype == CHECK
    ensures a.GateUpstream? ==> a.u in s.db.jobs && s.db.jobs[a.u].jtype == ANALYSIS
    ensures a.CancelDead? ==> a.j in s.db.jobs && s.db.jobs[a.j].jtype in {CHECK, REPORT}
  {
    hide Inv;
    if a.GateCheck? { GateFindsJudged(s, a.j); }
    if a.GateUpstream? { GateType(s, a); }
    if a.CancelDead? { DeadHasEdge(s, a.j); }
  }

  lemma LegalMove(db: Db, q: Request)
    requires MoveRefusal(db, q).None?
    ensures q.job in db.jobs && JobVerb(db.jobs[q.job].state, q.to).Some?
  {}

  lemma GateType(s: Sys, a: Act)
    requires Inv(s) && a.GateUpstream? && Enabled(s, a)
    ensures s.db.jobs[a.u].jtype == ANALYSIS
  {
    assert EdgeOk(s.db, Dep(a.j, a.u));
  }

  lemma SingleOrderly(s: Sys, a: Act, sid: StudyId)
    requires Inv(s) && OrderlyStudy(s, sid) && Enabled(s, a) && Calm(s.db, a, sid) && !Aside(a) && !Composite(a)
    ensures CalmRows(s, Step(s, a), sid)
  {
    hide Origin, Move, MoveRefusal;
    StepSummary(s, a);
    hide Step, Enabled, SingleMove, Calm, MoveIsCalm, Orderly;
    MoveEffect(s, a);
    if SingleMove(s.db, a).Some? {
      SingleCalm(s, a, sid);
      FlipIsRemembered(s, a);
      MoveCalmRows(s, Step(s, a), SingleMove(s.db, a).value, sid);
    } else {
      UnmovedIsCalm(s, Step(s, a), sid);
    }
  }

  lemma FlipIsRemembered(s: Sys, a: Act)
    requires Enabled(s, a) && SingleMove(s.db, a).Some?
    ensures var q := SingleMove(s.db, a).value; q.to == Triage && MoveRefusal(s.db, q).None? ==> q.job in Step(s, a).pending.make
  {
    hide Ops, Exec, NextSeen, Enabled;
  }

  lemma UnmovedIsCalm(s: Sys, t: Sys, sid: StudyId)
    requires t.db.jobs.Keys == s.db.jobs.Keys && forall j <- s.db.jobs :: t.db.jobs[j].state == s.db.jobs[j].state
    ensures CalmRows(s, t, sid)
  {
    forall j <- s.db.jobs ensures CalmRow(s, t, j) { RestCalm(s, t, j); }
  }

  lemma AsideStates(db: Db, a: Act, b: Db)
    requires LeavesRows(db, a, b)
    ensures b.jobs.Keys == db.jobs.Keys && forall j <- db.jobs :: b.jobs[j].state == db.jobs[j].state
  {}

  lemma BornCalm(s: Sys, a: Act, t: Sys, sid: StudyId)
    requires Leaves(s.db, a, t.db)
    ensures CalmRows(s, t, sid)
  {
    if a.MakeTriage? {
      assert IsFor(t.db.jobs[a.tid], a.j) && t.db.jobs[a.tid].state == Proposed;
      assert HeldUp(t.db, a.j);
    }
    assert forall j <- s.db.jobs :: t.db.jobs[j] == s.db.jobs[j];
    forall j <- s.db.jobs ensures CalmRow(s, t, j) { RestCalm(s, t, j); }
    forall j <- t.db.jobs ensures j in s.db.jobs || NewRowOk(t.db, j, sid) {}
  }

  lemma TriageCalm(s: Sys, t: Sys, p: JobId, rid: JobId, sid: StudyId)
    requires TriageOutcome(s.db, t.db, p, rid) && OrderlyStudy(s, sid)
    ensures CalmRows(s, t, sid)
  {
    forall j <- t.db.jobs ensures j in s.db.jobs || NewRowOk(t.db, j, sid) {}
    forall j <- s.db.jobs | s.db.jobs[j].study == sid ensures CalmRow(s, t, j) {
      assert Orderly(s, j);
      if j != p { RestCalm(s, t, j); }
    }
  }

  lemma HalfCalm(s: Sys, t: Sys, p: JobId, rid: JobId, sid: StudyId)
    requires HalfOutcome(s.db, t.db, p, rid) && p in s.db.jobs && s.db.jobs[p].study != sid
    ensures CalmRows(s, t, sid)
  {
    forall j <- s.db.jobs ensures CalmRow(s, t, j) { RestCalm(s, t, j); }
    forall j <- t.db.jobs ensures j in s.db.jobs || NewRowOk(t.db, j, sid) {}
  }

  lemma CompositeCalm(s: Sys, a: Act, sid: StudyId)
    requires Inv(s) && OrderlyStudy(s, sid) && Enabled(s, a) && Composite(a) && Calm(s.db, a, sid)
    ensures CalmRows(s, Step(s, a), sid)
  {
    hide Inv, Leaves, Step, Enabled, OrderlyStudy, TriageOutcome, TriageEvents, CalmRows, Struct, ReadyOk, TriageOk;
    hide HalfOutcome, MakesRetry, RowsOk, EdgesOk, Linked, BirthEvent;
    InvParts(s);
    if a.RunTriage? {
      var p, pre, q, last := TriageStep(s, a);
      TriageCalm(s, Step(s, a), p, a.rid, sid);
    } else if a.HalfTriage? {
      var p, _ := HalfStep(s, a);
      HalfStudy(s, a);
      HalfCalm(s, Step(s, a), p, a.rid, sid);
    } else {
      CompositeEffect(s, a);
      BornCalm(s, a, Step(s, a), sid);
    }
  }

  /******* The loops' memory *******/

  lemma MemoryStep(s: Sys, a: Act, sid: StudyId)
    requires Inv(s) && Enabled(s, a) && Calm(s.db, a, sid)
    ensures CalmMemory(s, Step(s, a), sid)
  {
    hide Step, Enabled, Inv, HeldUp, HasTriageChild, JustRan;
    StepFrame(s, a);
    if !Remembers(a) {
    } else if a.MakeTriage? {
      MadeForIt(s, a);
      MemoryMake(s, a);
    } else if a.RunTriage? {
      RanIt(s, a, sid);
    } else {
      MemoryOther(s, a);
    }
  }

  lemma MadeForIt(s: Sys, a: Act)
    requires Inv(s) && a.MakeTriage? && Enabled(s, a)
    ensures HeldUp(Step(s, a).db, a.j)
  {
    hide Step, Enabled;
    StructIsLinked(s.db);
    MakeEffect(s, a);
    assert IsFor(Step(s, a).db.jobs[a.tid], a.j);
  }

  lemma MemoryMake(s: Sys, a: Act)
    requires a.MakeTriage? && Enabled(s, a)
    ensures Step(s, a).pending.ran == s.pending.ran && forall p <- s.pending.make :: p in Step(s, a).pending.make || p == a.j
  {
    hide Ops, Exec, NextSeen, Enabled;
  }

  lemma RanIt(s: Sys, a: Act, sid: StudyId)
    requires Inv(s) && a.RunTriage? && Enabled(s, a) && Calm(s.db, a, sid)
    ensures CalmMemory(s, Step(s, a), sid)
  {
    hide Inv, Step, Enabled, Struct, ReadyOk, TriageOk, TriageEvents, CalmMemory, TriageOutcome, RowsOk, EdgesOk, Linked;
    InvParts(s);
    RanFrame(s, a);
    var p, pre, q, last := TriageStep(s, a);
    LeavesTriage(s.db, Step(s, a).db, p, a.rid);
    RanMemory(s, Step(s, a), a.j, sid);
  }

  lemma LeavesTriage(db: Db, b: Db, p: JobId, rid: JobId)
    requires TriageOutcome(db, b, p, rid)
    ensures p in b.jobs && b.jobs[p].state != Triage
  {}

  lemma RanMemory(s: Sys, t: Sys, j: JobId, sid: StudyId)
    requires t.pending.make == s.pending.make && t.pending.ran in {s.pending.ran, s.pending.ran + {j}} && Triaging(s.db, j)
    requires s.db.jobs[j].study == sid ==> s.db.jobs[j].state == Running
    requires var p := s.db.jobs[j].payload.failedJob; p in t.db.jobs && t.db.jobs[p].state != Triage
    ensures CalmMemory(s, t, sid)
  {}

  lemma RanFrame(s: Sys, a: Act)
    requires a.RunTriage? && Enabled(s, a)
    ensures Step(s, a).pending.make == s.pending.make
    ensures Step(s, a).pending.ran == if a.logged then s.pending.ran + {a.j} else s.pending.ran
  {
    hide Ops, Exec, NextSeen, Enabled;
  }

  lemma MemoryOther(s: Sys, a: Act)
    requires Enabled(s, a) && Remembers(a) && !a.MakeTriage? && !a.RunTriage?
    ensures Step(s, a).pending.ran == s.pending.ran
    ensures forall p <- s.pending.make :: p in Step(s, a).pending.make || (a.DropTriage? && p == a.j && Step(s, a).db == s.db)
  {
    NextIs(s, a);
    if a.DropTriage? { DropLeaves(s, a); }
    hide Step, Enabled;
  }

  lemma DropLeaves(s: Sys, a: Act)
    requires Enabled(s, a) && a.DropTriage?
    ensures Step(s, a).db == s.db
  {
    hide Apply, NextSeen, Enabled;
  }

  lemma RanInDb(s: Sys)
    requires TriageOk(s)
    ensures forall u <- s.pending.ran :: u in s.db.jobs
  {}

  lemma CalmStep(s: Sys, a: Act, sid: StudyId)
    requires Inv(s) && OrderlyStudy(s, sid) && Calm(s.db, a, sid)
    ensures OrderlyStudy(Step(s, a), sid)
  {
    hide Ops, Exec, NextSeen, Origin;
    if !Enabled(s, a) {
      assert Step(s, a) == s;
    } else {
      StepSummary(s, a);
      hide Step, Enabled, OrderlyStudy, LeavesRows, CalmRows, SingleMove, Struct, ReadyOk, TriageOk, Calm, CalmMemory;
      InvParts(s);
      MemoryStep(s, a, sid);
      if Aside(a) {
        AsideEffect(s, a);
        AsideStates(s.db, a, Step(s, a).db);
        UnmovedIsCalm(s, Step(s, a), sid);
      } else if !Composite(a) {
        SingleOrderly(s, a, sid);
      } else {
        CompositeCalm(s, a, sid);
      }
      RanInDb(s);
      OrderlyKeeps(s, Step(s, a), sid);
    }
  }

  lemma {:induction false} OrderlyRun(acts: seq<Act>, sid: StudyId)
    requires CalmRun(acts, sid)
    ensures OrderlyStudy(Run(INIT, acts), sid)
  {
    if acts != [] {
      var init := acts[..|acts| - 1];
      assert forall i :: 0 <= i < |init| ==> init[..i] == acts[..i];
      OrderlyRun(init, sid);
      InvReachable(init);
      hide Step, Inv, Calm;
      assert Calm(Run(INIT, acts[..|acts| - 1]).db, acts[|acts| - 1], sid);
      CalmStep(Run(INIT, init), acts[|acts| - 1], sid);
    }
  }

  /******* The theorem *******/

  // No control loop is in the middle of spawning for the study, and nothing of it is on a worker or ready to be.
  ghost predicate AtRest(s: Sys, sid: StudyId) {
    && (forall j <- s.db.jobs :: s.db.jobs[j].study == sid ==> !s.db.jobs[j].Leased() && !Ready(s.db, j))
    && (forall p <- s.pending.make :: !InStudy(s.db, p, sid)) && (forall t <- s.pending.approve :: !InStudy(s.db, t, sid))
  }

  predicate AwaitsHuman(s: JobState) { s in {Proposed, Review, Escalated} }

  // A CHECK that is queued behind an ANALYSIS a human has to look at, or whose TRIAGE job a human has to look at
  ghost predicate HeldBack(db: Db, c: JobId) {
    && c in db.jobs && db.jobs[c].jtype == CHECK && db.jobs[c].state == Queued
    && exists u <- db.jobs ::
      Dep(c, u) in db.deps && db.jobs[u].jtype == ANALYSIS && (AwaitsHuman(db.jobs[u].state) || TriageHeldUp(db, u))
  }

  // A failed job whose TRIAGE job was never approved, because a loop crashed before it could, or was cancelled
  ghost predicate TriageHeldUp(db: Db, p: JobId) { p in db.jobs && db.jobs[p].state == Triage && HeldUp(db, p) }

  ghost predicate Waits(db: Db, j: JobId)
    requires j in db.jobs
  {
    var row := db.jobs[j];
    || AwaitsHuman(row.state)
    || (row.jtype == ANALYSIS && row.state == Succeeded
        && exists c <- db.jobs :: Dep(c, j) in db.deps && db.jobs[c].jtype == CHECK && db.jobs[c].state in {Proposed, Cancelled})
    || HeldBack(db, j)
    || (row.jtype == REPORT && row.state == Queued
        && exists c <- db.jobs ::
          Dep(j, c) in db.deps && db.jobs[c].jtype == CHECK && (db.jobs[c].state == Proposed || HeldBack(db, c)))
    || (row.jtype == ANALYSIS && TriageHeldUp(db, j))
  }

  // The states a quiet job can be in
  lemma QuietState(s: Sys, now: int, sid: StudyId, j: JobId)
    requires QuietStudy(s, now, sid) && InStudy(s.db, j, sid)
    ensures s.db.jobs[j].state !in {Approved, Assigned, Running, Failed}
    ensures s.db.jobs[j].state == Succeeded ==> s.db.jobs[j].jtype == ANALYSIS
    ensures s.db.jobs[j].state == Queued ==> s.db.jobs[j].jtype in {CHECK, REPORT}
    ensures s.db.jobs[j].state == Triage ==> s.db.jobs[j].jtype == ANALYSIS && TriageHeldUp(s.db, j)
  {
    var db := s.db;
    QuietWork(db, now, j);
    assert RowOk(db, j) && Orderly(s, j) && OwnVerdict(db, j);
    assert !db.jobs[j].Leased() && !Ready(db, j);
    NothingUnderWay(s, now, sid, j);
    hide Idle, OrderlyStudy, RowsOk, UnderTriage, Ready, UpstreamJudged;
    if db.jobs[j].jtype in {ANALYSIS, TRIAGE} && db.jobs[j].state == Queued {
      Rootless(db, j);
    }
  }

  lemma QuietWork(db: Db, now: int, j: JobId)
    requires Idle(db, now) && j in db.jobs
    ensures db.jobs[j].state !in {Approved, Failed} && !Graded(db, j) && !SupportDone(db, j) && !DeadBranch(db, j)
    ensures db.jobs[j].state == Triage ==> HasTriageChild(db, j)
  {
    assert j !in OrphanJobs(db) && j !in ApprovedJobs(db) && j !in FailedJobs(db);
    assert j !in GradedChecks(db) && j !in DoneSupport(db) && j !in DeadBranches(db);
  }

  // Only CHECK and REPORT jobs have anything to wait for.
  lemma Rootless(db: Db, j: JobId)
    requires EdgesOk(db) && j in db.jobs && db.jobs[j].jtype in {ANALYSIS, TRIAGE} && db.jobs[j].state == Queued
    ensures Ready(db, j)
  {
    forall d <- db.deps ensures d.job != j { assert EdgeOk(db, d); }
  }

  lemma NothingUnderWay(s: Sys, now: int, sid: StudyId, p: JobId)
    requires RowsOk(s.db) && EdgesOk(s.db) && InStudy(s.db, p, sid) && Idle(s.db, now) && AtRest(s, sid)
    ensures p !in s.pending.make && !UnderTriage(s, p)
  {
    forall t ensures !OnTheWay(s, t, p) {
      if t in s.db.jobs && IsFor(s.db.jobs[t], p) {
        assert RowOk(s.db, t) && t !in ApprovedJobs(s.db);
        if s.db.jobs[t].state == Queued { Rootless(s.db, t); }
      }
    }
  }

  lemma UnmetDep(db: Db, j: JobId) returns (d: Dep)
    requires j in db.jobs && db.jobs[j].state == Queued && !Ready(db, j)
    ensures d in db.deps && d.job == j && d.on in db.jobs
    ensures !DepSatisfied(db.jobs[d.on], db.jobs[j].jtype, PolicyOf(db, db.jobs[j].study))
  {
    d :| d in db.deps && d.job == j && d.on in db.jobs &&
      !DepSatisfied(db.jobs[d.on], db.jobs[j].jtype, PolicyOf(db, db.jobs[j].study));
  }

  ghost predicate QuietStudy(s: Sys, now: int, sid: StudyId) {
    && RowsOk(s.db) && EdgesOk(s.db) && EdgePairs(s.db) && OrderlyStudy(s, sid) && (forall c <- s.db.jobs :: OwnVerdict(s.db, c))
    && Idle(s.db, now) && AtRest(s, sid) && PolicyOf(s.db, sid).autoAccept
  }

  lemma QuietEdges(s: Sys, now: int, sid: StudyId, d: Dep)
    requires QuietStudy(s, now, sid) && d in s.db.deps
    ensures EdgeOk(s.db, d)
  {}

  lemma QueuedCheckIsHeldBack(s: Sys, now: int, sid: StudyId, c: JobId)
    requires QuietStudy(s, now, sid) && InStudy(s.db, c, sid) && s.db.jobs[c].jtype == CHECK && s.db.jobs[c].state == Queued
    ensures HeldBack(s.db, c)
  {
    QuietJob(s, now, sid, c);
    hide QuietStudy;
    var d := UnmetDep(s.db, c);
    QuietEdges(s, now, sid, d);
    QuietState(s, now, sid, d.on);
    assert !Dead(s.db.jobs[d.on].state);
    assert d == Dep(c, d.on);
  }

  lemma QuietJob(s: Sys, now: int, sid: StudyId, j: JobId)
    requires QuietStudy(s, now, sid) && InStudy(s.db, j, sid)
    ensures !Ready(s.db, j) && !DeadBranch(s.db, j) && Orderly(s, j) && PolicyOf(s.db, s.db.jobs[j].study).autoAccept
  {
    QuietWork(s.db, now, j);
  }

  lemma QueuedReportWaits(s: Sys, now: int, sid: StudyId, j: JobId)
    requires QuietStudy(s, now, sid) && InStudy(s.db, j, sid) && s.db.jobs[j].jtype == REPORT && s.db.jobs[j].state == Queued
    ensures Waits(s.db, j)
  {
    QuietJob(s, now, sid, j);
    hide QuietStudy;
    var d := UnmetDep(s.db, j);
    QuietEdges(s, now, sid, d);
    QuietState(s, now, sid, d.on);
    QuietJob(s, now, sid, d.on);
    if s.db.jobs[d.on].state == Queued {
      QueuedCheckIsHeldBack(s, now, sid, d.on);
    }
    assert d == Dep(j, d.on);
    hide HeldBack, HeldUp, InHand;
  }

  lemma SucceededAnalysisWaits(s: Sys, now: int, sid: StudyId, j: JobId)
    requires QuietStudy(s, now, sid) && InStudy(s.db, j, sid) && s.db.jobs[j].jtype == ANALYSIS && s.db.jobs[j].state == Succeeded
    requires IsDependedOn(s.db, j)
    ensures Waits(s.db, j)
  {
    var d :| d in s.db.deps && d.on == j;
    var c := d.job;
    QuietEdges(s, now, sid, d);
    assert d == Dep(c, j);
    QuietState(s, now, sid, c);
    QuietJob(s, now, sid, c);
    PairsOf(s, now, sid);
    hide QuietStudy, HeldBack, HeldUp, InHand;
    if s.db.jobs[c].state == Queued { SucceededIsEnough(s.db, d); }
  }

  lemma PairsOf(s: Sys, now: int, sid: StudyId)
    requires QuietStudy(s, now, sid)
    ensures EdgesOk(s.db) && EdgePairs(s.db)
  {}

  lemma SucceededIsEnough(db: Db, d: Dep)
    requires EdgesOk(db) && EdgePairs(db) && d in db.deps && d.job in db.jobs && db.jobs[d.job].jtype == CHECK
    requires db.jobs[d.job].state == Queued && d.on in db.jobs && db.jobs[d.on].state == Succeeded
    requires PolicyOf(db, db.jobs[d.job].study).autoAccept
    ensures Ready(db, d.job)
  {
    forall e <- db.deps | e.job == d.job ensures e == d { assert EdgeOk(db, d); }
  }

  // No case of a calm study is ever doubled.
  // A CHECK waits for each live ANALYSIS of the study, also for those of a case that occurs twice.
  ghost predicate AllWaited(db: Db, sid: StudyId) {
    forall j <- db.jobs :: db.jobs[j].study == sid && db.jobs[j].jtype == ANALYSIS && Live(db.jobs[j]) ==> IsDependedOn(db, j)
  }

  lemma WaitedStep(s: Sys, a: Act, sid: StudyId)
    requires Inv(s) && AllWaited(s.db, sid) && Calm(s.db, a, sid)
    ensures AllWaited(Step(s, a).db, sid)
  {
    hide Step, Enabled, AllWaited, Struct, ReadyOk, TriageOk, TriageOutcome, TriageEvents, HalfOutcome, Extended, NewPairs, Calm;
    Disabled(s, a);
    if Enabled(s, a) {
      InvParts(s);
      InvStep(s, a);
      InvParts(Step(s, a));
      if a.RunTriage? {
        var p, _, _, _ := TriageStep(s, a);
        WaitedOutcome(s.db, Step(s, a).db, p, a.rid, sid);
      } else if a.HalfTriage? {
        var p, _ := HalfStep(s, a);
        CalmHalf(s, a, sid);
        HalfStudy(s, a);
        WaitedHalf(s.db, Step(s, a).db, p, a.rid, sid);
      } else {
        var new_ := ExtendsStep(s, a);
        NewCaseIsWaited(s, a);
        WaitedExtended(s.db, a, Step(s, a).db, new_, sid);
      }
    }
  }

  lemma CalmHalf(s: Sys, a: Act, sid: StudyId)
    requires Calm(s.db, a, sid) && a.HalfTriage?
    ensures !InStudy(s.db, a.j, sid)
  {}

  lemma NewCaseIsWaited(s: Sys, a: Act)
    requires Enabled(s, a)
    ensures a.AddCase? ==> Dep(a.cid, a.aid) in Step(s, a).db.deps
  {
    if a.AddCase? { CaseEffect(s, a); }
    hide Step;
  }

  lemma WaitedOutcome(db: Db, b: Db, p: JobId, rid: JobId, sid: StudyId)
    requires TriageOutcome(db, b, p, rid) && AllWaited(db, sid)
    ensures AllWaited(b, sid)
  {
    forall j <- b.jobs | b.jobs[j].study == sid && b.jobs[j].jtype == ANALYSIS && Live(b.jobs[j]) ensures IsDependedOn(b, j) {
      var i := if j in db.jobs then j else p;
      assert i == p || b.jobs[i] == db.jobs[i];
      assert IsDependedOn(db, i);
      var d :| d in db.deps && d.on == i;
      assert (if b.deps != db.deps && d.on == p then Dep(d.job, rid) else d) in b.deps;
    }
  }

  lemma WaitedHalf(db: Db, b: Db, p: JobId, rid: JobId, sid: StudyId)
    requires HalfOutcome(db, b, p, rid) && p in db.jobs && db.jobs[p].study != sid && AllWaited(db, sid)
    ensures AllWaited(b, sid)
  {
    forall j <- b.jobs | b.jobs[j].study == sid && b.jobs[j].jtype == ANALYSIS && Live(b.jobs[j]) ensures IsDependedOn(b, j) {
      assert IsDependedOn(db, j);
      var d :| d in db.deps && d.on == j;
      assert (if d.on == p then Dep(d.job, rid) else d) == d && d in b.deps;
    }
  }

  lemma WaitedExtended(db: Db, a: Act, b: Db, new_: set<JobId>, sid: StudyId)
    requires Extended(db, b, new_) && AllWaited(db, sid) && RowsOk(b) && (a.AddCase? ==> Dep(a.cid, a.aid) in b.deps)
    requires forall j <- new_ :: j in b.jobs && (!a.AddCase? || j != a.aid) ==> b.jobs[j].Key().None?
    ensures AllWaited(b, sid)
  {
    forall j <- b.jobs | b.jobs[j].study == sid && b.jobs[j].jtype == ANALYSIS && Live(b.jobs[j]) ensures IsDependedOn(b, j) {
      assert RowOk(b, j);
      if j in db.jobs {
        assert SameRole(db.jobs[j], b.jobs[j]);
        assert IsDependedOn(db, j);
        var d :| d in db.deps && d.on == j;
        assert d in b.deps;
      } else {
        assert Dep(a.cid, a.aid) in b.deps;
      }
    }
  }

  lemma {:induction false} WaitedRun(acts: seq<Act>, sid: StudyId)
    requires CalmRun(acts, sid)
    ensures AllWaited(Run(INIT, acts).db, sid)
  {
    if acts != [] {
      var init := acts[..|acts| - 1];
      assert forall i :: 0 <= i < |init| ==> init[..i] == acts[..i];
      WaitedRun(init, sid);
      InvReachable(init);
      hide Step, Inv, Calm, AllWaited;
      assert Calm(Run(INIT, acts[..|acts| - 1]).db, acts[|acts| - 1], sid);
      WaitedStep(Run(INIT, init), acts[|acts| - 1], sid);
    }
  }

  lemma HalfStudy(s: Sys, a: Act)
    requires Inv(s) && a.HalfTriage? && Enabled(s, a)
    ensures Triaging(s.db, a.j) && s.db.jobs[s.db.jobs[a.j].payload.failedJob].study == s.db.jobs[a.j].study
  {
    assert RowOk(s.db, a.j);
  }

  lemma AnalysisIsChecked(acts: seq<Act>, sid: StudyId, j: JobId)
    requires CalmRun(acts, sid) && InStudy(Run(INIT, acts).db, j, sid)
    requires Run(INIT, acts).db.jobs[j].jtype == ANALYSIS && Live(Run(INIT, acts).db.jobs[j])
    ensures IsDependedOn(Run(INIT, acts).db, j)
  {
    hide CalmRun, Run;
    WaitedRun(acts, sid);
  }

  // In a reachable state where no control loop is at work or finds any, nothing is assigned or running and nothing is
  // runnable, every job of the study that is not terminal waits for a human, directly or through its upstreams.
  lemma NoSilentDeadlock(acts: seq<Act>, sid: StudyId, now: int, j: JobId)
    requires CalmRun(acts, sid) && PolicyOf(Run(INIT, acts).db, sid).autoAccept
    requires Idle(Run(INIT, acts).db, now) && AtRest(Run(INIT, acts), sid)
    requires InStudy(Run(INIT, acts).db, j, sid) && !Terminal(Run(INIT, acts).db.jobs[j].state)
    ensures Waits(Run(INIT, acts).db, j)
  {
    var s := Run(INIT, acts);
    InvReachable(acts);
    EvidenceRun(acts);
    OrderlyRun(acts, sid);
    assert QuietStudy(s, now, sid);
    if s.db.jobs[j].state == Succeeded && s.db.jobs[j].jtype == ANALYSIS { AnalysisIsChecked(acts, sid, j); }
    hide Run, QuietStudy, Inv, EvidenceOk, CalmRun;
    QuietState(s, now, sid, j);
    hide Idle, AtRest, HeldBack, TriageHeldUp;
    match s.db.jobs[j].state
    case Queued =>
      if s.db.jobs[j].jtype == CHECK { QueuedCheckIsHeldBack(s, now, sid, j); } else { QueuedReportWaits(s, now, sid, j); }
    case Succeeded => SucceededAnalysisWaits(s, now, sid, j);
    case _ =>
  }

  /******* Without crashes between creation and approval *******/

  // No loop dies between the creation and the approval of a TRIAGE job of the study, and no human cancels one.
  predicate Prompt(db: Db, a: Act, sid: StudyId) {
    match a
    case DropApproval(t, _) => !InStudy(db, t, sid)
    case HumanMove(j, to, _, _) => !(InStudy(db, j, sid) && db.jobs[j].jtype == TRIAGE && to == Cancelled)
    case _ => true
  }

  ghost predicate PromptRun(acts: seq<Act>, sid: StudyId) {
    forall i :: 0 <= i < |acts| ==> Prompt(Run(INIT, acts[..i]).db, acts[i], sid)
  }

  predicate PromptRow(s: Sys, t: JobId)
    requires t in s.db.jobs
  {
    s.db.jobs[t].jtype == TRIAGE ==>
      (s.db.jobs[t].state == Proposed ==> t in s.pending.approve) && s.db.jobs[t].state != Cancelled
  }

  ghost predicate PromptOk(s: Sys, sid: StudyId) { forall t <- s.db.jobs :: s.db.jobs[t].study == sid ==> PromptRow(s, t) }

  lemma ApprovalsStay(s: Sys, a: Act, sid: StudyId, t: JobId)
    requires Enabled(s, a) && Prompt(s.db, a, sid) && InStudy(s.db, t, sid) && t in s.pending.approve
    ensures t in Step(s, a).pending.approve || (a.ApproveTriage? && a.tid == t)
  {
    hide Ops, Exec, NextSeen, Enabled;
  }

  lemma ApproveApproves(s: Sys, a: Act)
    requires Enabled(s, a) && a.ApproveTriage? && a.tid in s.db.jobs && s.db.jobs[a.tid].state == Proposed
    ensures a.tid in Step(s, a).db.jobs && Step(s, a).db.jobs[a.tid].state == Approved
  {
    hide Step, Enabled;
    MoveEffect(s, a);
  }

  // Only humans and dead branches cancel a proposed job.
  lemma WhoCancels(s: Sys, a: Act, sid: StudyId, t: JobId)
    requires Inv(s) && Enabled(s, a) && Prompt(s.db, a, sid) && InStudy(s.db, t, sid)
    requires s.db.jobs[t].jtype == TRIAGE && s.db.jobs[t].state == Proposed && t in Step(s, a).db.jobs
    ensures Step(s, a).db.jobs[t].state != Cancelled
  {
    hide Inv, Move;
    hide Step, Enabled, Struct, ReadyOk, TriageOk, Prompt, SingleMove;
    InvParts(s);
    if Aside(a) {
      AsideEffect(s, a);
      AsideStates(s.db, a, Step(s, a).db);
    } else if Composite(a) {
      Stranded.ProposedComposite(s, a, t);
    } else {
      MoveEffect(s, a);
      if SingleMove(s.db, a).Some? {
        SingleCancels(s, a, sid, t);
        MoveTo_(s.db, SingleMove(s.db, a).value, t);
      }
    }
  }

  lemma SingleCancels(s: Sys, a: Act, sid: StudyId, t: JobId)
    requires Inv(s) && Enabled(s, a) && Prompt(s.db, a, sid) && InStudy(s.db, t, sid) && s.db.jobs[t].jtype == TRIAGE
    requires SingleMove(s.db, a).Some?
    ensures SingleMove(s.db, a).value.job == t ==> SingleMove(s.db, a).value.to != Cancelled
  {
    hide *;
    SingleFacts(s, a);
    CancelRequest(s.db, a, sid, t);
  }

  lemma CancelRequest(db: Db, a: Act, sid: StudyId, t: JobId)
    requires Prompt(db, a, sid) && InStudy(db, t, sid) && db.jobs[t].jtype == TRIAGE && SingleMove(db, a).Some?
    requires a.CancelDead? ==> a.j in db.jobs && db.jobs[a.j].jtype in {CHECK, REPORT}
    ensures SingleMove(db, a).value.job == t ==> SingleMove(db, a).value.to != Cancelled
  {}

  lemma MoveTo_(db: Db, q: Request, t: JobId)
    requires t in db.jobs && (q.job == t ==> q.to != Cancelled)
    ensures Move(db, q).jobs[t].state == Cancelled ==> db.jobs[t].state == Cancelled
  {}

  lemma PromptStep(s: Sys, a: Act, sid: StudyId)
    requires Inv(s) && OrderlyStudy(s, sid) && PromptOk(s, sid) && Calm(s.db, a, sid) && Prompt(s.db, a, sid)
    ensures PromptOk(Step(s, a), sid)
  {
    hide Ops, Exec, NextSeen;
    if !Enabled(s, a) {
      assert Step(s, a) == s;
    } else {
      StepSummary(s, a);
      CalmRowsStep(s, a, sid);
      var t := Step(s, a);
      forall j <- t.db.jobs | t.db.jobs[j].study == sid && t.db.jobs[j].jtype == TRIAGE ensures PromptRow(t, j) {
        if j in s.db.jobs { PromptOld(s, a, sid, j); } else { PromptNew(s, a, sid, j); }
      }
    }
  }

  lemma CalmRowsStep(s: Sys, a: Act, sid: StudyId)
    requires Inv(s) && OrderlyStudy(s, sid) && Enabled(s, a) && Calm(s.db, a, sid)
    ensures CalmRows(s, Step(s, a), sid)
  {
    hide *;
    if Aside(a) {
      AsideEffect(s, a);
      AsideStates(s.db, a, Step(s, a).db);
      UnmovedIsCalm(s, Step(s, a), sid);
    } else if !Composite(a) {
      SingleOrderly(s, a, sid);
    } else {
      CompositeCalm(s, a, sid);
    }
  }

  lemma PromptOld(s: Sys, a: Act, sid: StudyId, j: JobId)
    requires Inv(s) && OrderlyStudy(s, sid) && PromptOk(s, sid) && Enabled(s, a) && Prompt(s.db, a, sid)
    requires RowsStep(s.db, Step(s, a).db) && CalmRows(s, Step(s, a), sid)
    requires j in s.db.jobs && j in Step(s, a).db.jobs && Step(s, a).db.jobs[j].study == sid
    requires Step(s, a).db.jobs[j].jtype == TRIAGE
    ensures PromptRow(Step(s, a), j)
  {
    hide Step, Enabled, Inv, PromptOk, RowsStep, CalmRows, OrderlyStudy;
    RowFacts(s, Step(s, a), sid, j);
    if s.db.jobs[j].state == Proposed {
      WhoCancels(s, a, sid, j);
      ApprovalsStay(s, a, sid, j);
      if a.ApproveTriage? && a.tid == j { ApproveApproves(s, a); }
    }
  }

  lemma RowFacts(s: Sys, t: Sys, sid: StudyId, j: JobId)
    requires OrderlyStudy(s, sid) && PromptOk(s, sid) && RowsStep(s.db, t.db) && CalmRows(s, t, sid) && j in s.db.jobs
    requires j in t.db.jobs
    requires t.db.jobs[j].study == sid
    ensures RowStep(s.db.jobs[j], t.db.jobs[j]) && s.db.jobs[j].study == sid && PromptRow(s, j) && CalmRow(s, t, j)
    ensures Orderly(s, j)
  {
    assert RowStep(s.db.jobs[j], t.db.jobs[j]);
  }

  lemma OnlyAnalysisFails(s: Sys, sid: StudyId)
    requires OrderlyStudy(s, sid)
    ensures forall p <- s.db.jobs :: s.db.jobs[p].study == sid && s.db.jobs[p].state in {Triage, RetrySpawned} ==>
      s.db.jobs[p].jtype == ANALYSIS
  {
    forall p <- s.db.jobs | s.db.jobs[p].study == sid
      ensures s.db.jobs[p].jtype != ANALYSIS ==> Smooth(s.db.jobs[p].state)
    {
      assert Orderly(s, p);
    }
  }

  lemma PromptNew(s: Sys, a: Act, sid: StudyId, j: JobId)
    requires Inv(s) && OrderlyStudy(s, sid) && Enabled(s, a) && Calm(s.db, a, sid)
    requires j in Step(s, a).db.jobs && j !in s.db.jobs && Origin(s.db, a, Step(s, a).db, j)
    requires Step(s, a).db.jobs[j].study == sid && Step(s, a).db.jobs[j].jtype == TRIAGE
    ensures PromptRow(Step(s, a), j)
  {
    hide Step, Enabled, Inv, OrderlyStudy;
    if a.RunTriage? || a.HalfTriage? {
      OnlyAnalysisFails(s, sid);
    } else if a.MakeTriage? {
      MakesIt(s, a, j);
    }
  }

  lemma MakesIt(s: Sys, a: Act, j: JobId)
    requires Inv(s) && a.MakeTriage? && Enabled(s, a) && j in Step(s, a).db.jobs && j !in s.db.jobs
    ensures j in Step(s, a).pending.approve && Step(s, a).db.jobs[j].state == Proposed
  {
    hide Ops, Exec, NextSeen, Enabled;
    StructIsLinked(s.db);
    MakeEffect(s, a);
  }

  lemma {:induction false} PromptOkRun(acts: seq<Act>, sid: StudyId)
    requires CalmRun(acts, sid) && PromptRun(acts, sid)
    ensures PromptOk(Run(INIT, acts), sid)
  {
    if acts != [] {
      hide Step, Inv, Calm, Prompt, OrderlyStudy, PromptOk;
      var init, n := acts[..|acts| - 1], |acts| - 1;
      assert forall i :: 0 <= i < |init| ==> init[..i] == acts[..i];
      PromptOkRun(init, sid);
      OrderlyRun(init, sid);
      InvReachable(init);
      assert Calm(Run(INIT, acts[..n]).db, acts[n], sid) && Prompt(Run(INIT, acts[..n]).db, acts[n], sid);
      PromptStep(Run(INIT, init), acts[n], sid);
    }
  }

  // A CHECK queued behind an ANALYSIS a human has to look at
  ghost predicate Behind(db: Db, c: JobId) {
    && c in db.jobs && db.jobs[c].jtype == CHECK && db.jobs[c].state == Queued
    && exists u <- db.jobs :: Dep(c, u) in db.deps && db.jobs[u].jtype == ANALYSIS && AwaitsHuman(db.jobs[u].state)
  }

  ghost predicate FourKinds(db: Db, j: JobId)
    requires j in db.jobs
  {
    var row := db.jobs[j];
    || AwaitsHuman(row.state)
    || (row.jtype == ANALYSIS && row.state == Succeeded
        && exists c <- db.jobs :: Dep(c, j) in db.deps && db.jobs[c].jtype == CHECK && db.jobs[c].state in {Proposed, Cancelled})
    || Behind(db, j)
    || (row.jtype == REPORT && row.state == Queued
        && exists c <- db.jobs ::
          Dep(j, c) in db.deps && db.jobs[c].jtype == CHECK && (db.jobs[c].state == Proposed || Behind(db, c)))
  }

  lemma NothingHeldUp(s: Sys, sid: StudyId, p: JobId)
    requires Inv(s) && PromptOk(s, sid) && AtRest(s, sid) && InStudy(s.db, p, sid)
    ensures !TriageHeldUp(s.db, p)
  {
    forall t <- s.db.jobs | IsFor(s.db.jobs[t], p) ensures s.db.jobs[t].state !in {Proposed, Cancelled} {
      ForItsStudy(s.db, t, p);
      assert PromptRow(s, t);
    }
  }

  lemma HeldBackIsBehind(s: Sys, sid: StudyId, c: JobId)
    requires Inv(s) && PromptOk(s, sid) && AtRest(s, sid) && InStudy(s.db, c, sid) && HeldBack(s.db, c)
    ensures Behind(s.db, c)
  {
    var u :| u in s.db.jobs && Dep(c, u) in s.db.deps && s.db.jobs[u].jtype == ANALYSIS &&
      (AwaitsHuman(s.db.jobs[u].state) || TriageHeldUp(s.db, u));
    assert EdgeOk(s.db, Dep(c, u));
    NothingHeldUp(s, sid, u);
  }

  // If besides no loop dies between the creation and the approval of a TRIAGE job, four kinds of job are left.
  lemma NoSilentDeadlockPrompt(acts: seq<Act>, sid: StudyId, now: int, j: JobId)
    requires CalmRun(acts, sid) && PromptRun(acts, sid) && PolicyOf(Run(INIT, acts).db, sid).autoAccept
    requires Idle(Run(INIT, acts).db, now) && AtRest(Run(INIT, acts), sid)
    requires InStudy(Run(INIT, acts).db, j, sid) && !Terminal(Run(INIT, acts).db.jobs[j].state)
    ensures FourKinds(Run(INIT, acts).db, j)
  {
    hide Run, CalmRun, PromptRun, Idle, Inv, PromptOk, AtRest, Struct, ReadyOk, TriageOk, Linked;
    var s := Run(INIT, acts);
    NoSilentDeadlock(acts, sid, now, j);
    PromptOkRun(acts, sid);
    InvReachable(acts);
    InvParts(s);
    NothingHeldUp(s, sid, j);
    if HeldBack(s.db, j) { HeldBackIsBehind(s, sid, j); }
    if s.db.jobs[j].jtype == REPORT && s.db.jobs[j].state == Queued {
      forall c <- s.db.jobs | Dep(j, c) in s.db.deps && HeldBack(s.db, c) ensures Behind(s.db, c) {
        assert EdgeOk(s.db, Dep(j, c));
        HeldBackIsBehind(s, sid, c);
      }
    }
    hide HeldBack, Behind, TriageHeldUp, Inv, PromptOk, AtRest;
  }
}
