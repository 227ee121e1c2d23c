/**
 How final study closure is. A control loop sends a study to review that it has found to have only terminal jobs, and no
 process moves any of them again; but a control loop that flipped or read a failed job before may still be about to create
 a TRIAGE job for it, and a worker that lost its TRIAGE job may still be about to make a second retry, and nothing stops
 them. Neither the study's set of jobs nor the state of any of them changes, exactly unless such a latecomer finishes.
 */
module Closure {
  import opened Wrappers
  import opened Rows
  import opened Substrate
  import opened Sets
  import opened Protocol
  import opened EventLog
  import opened Structure
  import opened Readiness
  import opened Effects
  import opened Steps
  import opened History
  import opened Lineage

  ghost predicate Sealed(db: Db, sid: StudyId) {
    sid in db.studies && db.studies[sid].status != Draft && AllTerminal(db, sid)
  }

  ghost predicate SameJobs(a: Db, b: Db, sid: StudyId) {
    && (forall j <- a.jobs :: a.jobs[j].study == sid ==>
      j in b.jobs && b.jobs[j].study == sid && b.jobs[j].state == a.jobs[j].state)
    && (forall j <- b.jobs :: b.jobs[j].study == sid ==> j in a.jobs && a.jobs[j].study == sid)
  }

  // The only way into review is the scheduler's; no way leads back to draft.
  ghost predicate StudiesStep(a: Db, act: Act, b: Db) {
    forall t <- a.studies :: t in b.studies ==>
      && (b.studies[t].status == Draft ==> a.studies[t].status == Draft)
      && (b.studies[t].status == InReview ==> a.studies[t].status == InReview || (act.SyncReview? && act.sid == t))
      && (b.studies[t].status == Closed ==> a.studies[t].status in {InReview, Closed})
  }

  ghost predicate StudiesKept(a: Db, act: Act, b: Db) {
    StudiesStep(a, act, b) && forall t <- b.studies :: t in a.studies || b.studies[t].status == Draft
  }

  lemma StepStudies(s: Sys, a: Act)
    requires Inv(s) && Enabled(s, a)
    ensures StudiesKept(s.db, a, Step(s, a).db)
  {
    hide Step, Enabled, StudiesKept, SingleMove, Leaves;
    if a.RunTriage? || a.HalfTriage? {
      TriageStudies(s, a);
    } else if Composite(a) {
      StructIsLinked(s.db);
      CompositeEffect(s, a);
      CompositeStudies(s.db, a, Step(s, a).db);
    } else if Aside(a) {
      AsideStudies(s, a);
    } else {
      MoveStudies(s, a);
    }
  }

  lemma TriageStudies(s: Sys, a: Act)
    requires Inv(s) && Enabled(s, a) && (a.RunTriage? || a.HalfTriage?)
    ensures StudiesKept(s.db, a, Step(s, a).db)
  {
    hide *;
    InvParts(s);
    if a.RunTriage? {
      var p, _, _, _ := TriageStep(s, a);
      OutcomeStudies(s.db, a, Step(s, a).db, p, a.rid);
    } else {
      var p, _ := HalfStep(s, a);
      HalfStudies(s.db, a, Step(s, a).db, p, a.rid);
    }
  }

  lemma HalfStudies(db: Db, a: Act, b: Db, p: JobId, rid: JobId)
    requires HalfOutcome(db, b, p, rid)
    ensures StudiesKept(db, a, b)
  {}

  lemma OutcomeStudies(db: Db, a: Act, b: Db, p: JobId, rid: JobId)
    requires TriageOutcome(db, b, p, rid)
    ensures StudiesKept(db, a, b)
  {}

  lemma MoveStudies(s: Sys, a: Act)
    requires Enabled(s, a) && !Aside(a) && !Composite(a)
    ensures StudiesKept(s.db, a, Step(s, a).db)
  {
    hide MoveRefusal;
    hide Step, Enabled, SingleMove;
    MoveEffect(s, a);
  }

  lemma CompositeStudies(db: Db, a: Act, b: Db)
    requires Leaves(db, a, b)
    ensures StudiesKept(db, a, b)
  {}

  lemma AsideStudies(s: Sys, a: Act)
    requires Enabled(s, a) && Aside(a)
    ensures StudiesKept(s.db, a, Step(s, a).db)
  {
    hide Apply, NextSeen, NextPending, Ops, Enabled, AsideOp, StudiesKept;
    AsideOps(s, a);
    SyncGuard(s, a);
    var ops := Ops(s, a);
    if ops == [] {
      NoStudies(s.db, a);
    } else {
      Exec1(s.db, ops[0]);
      OpStudies(s.db, a, ops[0]);
    }
  }

  lemma NoStudies(db: Db, a: Act)
    ensures StudiesKept(db, a, db)
  {}

  lemma OpStudies(db: Db, a: Act, op: Op)
    requires AsideOp(op) && (op.DoMoveStudy? ==> MachineMove(a, op.study))
    ensures StudiesKept(db, a, Apply(db, op))
  {}

  // Into review only by the scheduler
  predicate MachineMove(a: Act, q: StudyRequest) {
    q.actor.Human? || (q.to == InProgress && q.expected == Some(PlanApproved)) ||
      (a.SyncReview? && a.sid == q.study && q.to == InReview)
  }

  lemma SyncGuard(s: Sys, a: Act)
    requires Enabled(s, a) && Aside(a)
    ensures Ops(s, a) != [] && Ops(s, a)[0].DoMoveStudy? ==> MachineMove(a, Ops(s, a)[0].study)
  {
    hide Enabled;
  }

  lemma {:induction false} DraftNoMore(s: Sys, acts: seq<Act>, t: StudyId)
    requires Inv(s) && t in s.db.studies && s.db.studies[t].status != Draft
    ensures t in Run(s, acts).db.studies && Run(s, acts).db.studies[t].status != Draft
  {
    if acts != [] {
      var init, a := acts[..|acts| - 1], acts[|acts| - 1];
      DraftNoMore(s, init, t);
      InvRun(s, init);
      Disabled(Run(s, init), a);
      hide Step, Enabled, Inv;
      if Enabled(Run(s, init), a) { StepSummary(Run(s, init), a); StepStudies(Run(s, init), a); }
    }
  }

  /******* Latecomers *******/

  // A control loop creates a TRIAGE job in the study, or a worker a second retry of a job that has one.
  predicate Late(s: Sys, a: Act, sid: StudyId) {
    && Enabled(s, a)
    && ((a.MakeTriage? && s.db.jobs[a.j].study == sid)
        || (a.HalfTriage? && a.cut > 0 && s.db.jobs[Target(s.db, a)].study == sid &&
          s.db.jobs[Target(s.db, a)].state == RetrySpawned))
  }

  // The job a run_triage is for
  function Target(db: Db, a: Act): JobId
    requires (a.RunTriage? || a.HalfTriage?) && Triaging(db, a.j)
  {
    db.jobs[a.j].payload.failedJob
  }

  ghost predicate NeverLate(s: Sys, acts: seq<Act>, sid: StudyId) {
    forall i :: 0 <= i < |acts| ==> !Late(Run(s, acts[..i]), acts[i], sid)
  }

  lemma SealedStep(s: Sys, a: Act, sid: StudyId)
    requires Inv(s) && Sealed(s.db, sid) && !Late(s, a, sid)
    ensures Sealed(Step(s, a).db, sid) && SameJobs(s.db, Step(s, a).db, sid)
  {
    hide Ops, Exec, Summary, NextSeen;
    if Enabled(s, a) {
      StepSummary(s, a);
      StepStudies(s, a);
      hide Step, Enabled;
      SealedRows(s.db, a, Step(s, a).db, sid);
    }
  }

  predicate MakesFor(db: Db, a: Act, sid: StudyId) {
    || (a.MakeTriage? && a.j in db.jobs && db.jobs[a.j].study == sid)
    || (a.HalfTriage? && a.cut > 0 && Triaging(db, a.j) && db.jobs[Target(db, a)].study == sid &&
      db.jobs[Target(db, a)].state == RetrySpawned)
  }

  lemma SealedRows(db: Db, a: Act, b: Db, sid: StudyId)
    requires RowsOk(db) && Sealed(db, sid) && Summary(db, a, b) && StudiesStep(db, a, b) && !MakesFor(db, a, sid)
    ensures Sealed(b, sid) && SameJobs(db, b, sid)
  {
    forall j <- b.jobs ensures j in db.jobs || b.jobs[j].study != sid {
      if j !in db.jobs { BornElsewhere(db, a, b, sid, j); }
    }
    hide Origin, RowStep, RowsOk, Terminal;
    forall j <- db.jobs | db.jobs[j].study == sid ensures b.jobs[j].state == db.jobs[j].state {
      SealedRow(db.jobs[j], b.jobs[j]);
    }
    forall j <- db.jobs ensures db.jobs[j].study == b.jobs[j].study { StudyStays(db.jobs[j], b.jobs[j]); }
  }

  lemma StudyStays(r: Job, q: Job)
    requires RowStep(r, q)
    ensures q.study == r.study
  {}

  lemma SealedRow(r: Job, q: Job)
    requires RowStep(r, q) && Terminal(r.state)
    ensures q.state == r.state
  {}


  lemma BornElsewhere(db: Db, a: Act, b: Db, sid: StudyId, j: JobId)
    requires RowsOk(db) && Sealed(db, sid) && j in b.jobs && j !in db.jobs && Origin(db, a, b, j) && !MakesFor(db, a, sid)
    ensures b.jobs[j].study != sid
  {
    hide RowsOk;
  }

  lemma {:induction false} SealedRun(s: Sys, acts: seq<Act>, sid: StudyId)
    requires Inv(s) && Sealed(s.db, sid) && NeverLate(s, acts, sid)
    ensures Sealed(Run(s, acts).db, sid) && SameJobs(s.db, Run(s, acts).db, sid)
  {
    hide Step, Late, Inv;
    if acts != [] {
      var init := acts[..|acts| - 1];
      assert forall i :: 0 <= i < |init| ==> init[..i] == acts[..i];
      SealedRun(s, init, sid);
      InvRun(s, init);
      SealedStep(Run(s, init), acts[|acts| - 1], sid);
    }
  }

  // A latecomer's job is in the study, and stays there.
  lemma LateAdds(s: Sys, acts: seq<Act>, i: nat, sid: StudyId)
    requires Inv(s) && i < |acts| && Late(Run(s, acts[..i]), acts[i], sid)
    ensures !SameJobs(s.db, Run(s, acts).db, sid)
  {
    hide Run;
    hide Step, Enabled, Late, Inv, SameJobs;
    var m, a := Run(s, acts[..i]), acts[i];
    InvRun(s, acts[..i]);
    RunKeepsColumns(s, acts[..i]);
    LateMakes(m, a, sid);
    InvStep(m, a);
    RunKeepsColumns(Step(m, a), acts[i + 1..]);
    RunFrom(s, acts, i);
    NewJobShows(s.db, Run(s, acts).db, LateId(a), sid);
  }

  lemma RunFrom(s: Sys, acts: seq<Act>, i: nat)
    requires i < |acts|
    ensures Run(s, acts) == Run(Step(Run(s, acts[..i]), acts[i]), acts[i + 1..])
  {
    hide Run, Step;
    assert acts[..i + 1] == acts[..i] + [acts[i]] && acts == acts[..i + 1] + acts[i + 1..];
    RunPush(s, acts[..i], acts[i]);
    RunConcat(s, acts[..i + 1], acts[i + 1..]);
  }

  lemma NewJobShows(a: Db, b: Db, n: JobId, sid: StudyId)
    requires n in b.jobs && n !in a.jobs && b.jobs[n].study == sid
    ensures !SameJobs(a, b, sid)
  {}

  function LateId(a: Act): JobId
    requires a.MakeTriage? || a.HalfTriage?
  {
    if a.MakeTriage? then a.tid else a.rid
  }

  lemma LateMakes(m: Sys, a: Act, sid: StudyId)
    requires Inv(m) && Late(m, a, sid)
    ensures a.MakeTriage? || a.HalfTriage?
    ensures var n := LateId(a); n !in m.db.jobs && n in Step(m, a).db.jobs && Step(m, a).db.jobs[n].study == sid
  {
    hide Step, Enabled, Struct, ReadyOk, TriageOk, Linked;
    InvParts(m);
    if a.MakeTriage? {
      MakeEffect(m, a);
      MakeGuard(m, a);
      assert a.tid !in m.db.jobs && m.db.jobs[a.j].study == sid;
    } else {
      LateHalf(m, a, sid);
    }
  }

  lemma LateHalf(m: Sys, a: Act, sid: StudyId)
    requires Inv(m) && Late(m, a, sid) && a.HalfTriage?
    ensures a.rid !in m.db.jobs && a.rid in Step(m, a).db.jobs && Step(m, a).db.jobs[a.rid].study == sid
  {
    hide Step, Enabled, Struct, ReadyOk, TriageOk, TriageDecision;
    InvParts(m);
    var p, _ := HalfStep(m, a);
  }

  /******* The theorems *******/

  predicate InReviewOrClosed(db: Db, sid: StudyId) { sid in db.studies && db.studies[sid].status in {InReview, Closed} }

  // In review or closed, or found to be through by some control loop
  predicate Closing(s: Sys, sid: StudyId) { InReviewOrClosed(s.db, sid) || sid in s.pending.review }

  // As long as no latecomer finishes from the moment on that a loop finds all jobs of the study terminal, they are.
  ghost predicate NeverLateClosing(acts: seq<Act>, sid: StudyId) {
    forall i :: 0 <= i < |acts| ==> !(Closing(Run(INIT, acts[..i]), sid) && Late(Run(INIT, acts[..i]), acts[i], sid))
  }

  lemma ClosingStep(s: Sys, a: Act, sid: StudyId)
    requires Inv(s) && (Closing(s, sid) ==> Sealed(s.db, sid) && !Late(s, a, sid))
    ensures Closing(Step(s, a), sid) ==> Sealed(Step(s, a).db, sid)
  {
    hide Ops, Exec, NextSeen, Inv;
    if Enabled(s, a) && Closing(Step(s, a), sid) {
      StepStudies(s, a);
      Closes(s, a, sid);
      hide Step, Enabled, Late, Sealed;
      SealedStep(s, a, sid);
    }
  }

  // A study is closing already, or a loop has just found it through.
  lemma Closes(s: Sys, a: Act, sid: StudyId)
    requires Enabled(s, a) && Closing(Step(s, a), sid) && StudiesKept(s.db, a, Step(s, a).db)
    requires Closing(s, sid) ==> Sealed(s.db, sid) && !Late(s, a, sid)
    ensures Sealed(s.db, sid) && !Late(s, a, sid)
  {
    hide Ops, Exec, NextSeen;
    if sid !in s.pending.review && !InReviewOrClosed(s.db, sid) {
      if InReviewOrClosed(Step(s, a).db, sid) { OnlyReviewed(s, a, sid); }
    }
  }

  lemma OnlyReviewed(s: Sys, a: Act, sid: StudyId)
    requires Enabled(s, a) && InReviewOrClosed(Step(s, a).db, sid) && StudiesKept(s.db, a, Step(s, a).db)
    ensures InReviewOrClosed(s.db, sid) || sid in s.pending.review
  {
    hide Step;
    if !InReviewOrClosed(s.db, sid) {
      assert a.SyncReview? && a.sid == sid;
    }
  }

  lemma {:induction false} ClosedRun(acts: seq<Act>, sid: StudyId)
    requires NeverLateClosing(acts, sid)
    ensures Closing(Run(INIT, acts), sid) ==> Sealed(Run(INIT, acts).db, sid)
  {
    hide Step, Late, Inv;
    if acts != [] {
      var init := acts[..|acts| - 1];
      assert forall i :: 0 <= i < |init| ==> init[..i] == acts[..i];
      ClosedRun(init, sid);
      InvReachable(init);
      ClosingStep(Run(INIT, init), acts[|acts| - 1], sid);
    }
  }

  // From a state in which a study is in review or closed and has only terminal jobs, its jobs stay the same jobs in the
  // same states exactly as long as no latecomer finishes.
  lemma ClosureIsFinal(before: seq<Act>, after: seq<Act>, sid: StudyId)
    requires InReviewOrClosed(Run(INIT, before).db, sid) && AllTerminal(Run(INIT, before).db, sid)
    ensures SameJobs(Run(INIT, before).db, Run(INIT, before + after).db, sid) <==> NeverLate(Run(INIT, before), after, sid)
  {
    hide Run, Late, Inv;
    InvReachable(before);
    RunConcat(INIT, before, after);
    if NeverLate(Run(INIT, before), after, sid) {
      SealedRun(Run(INIT, before), after, sid);
    } else {
      var i :| 0 <= i < |after| && Late(Run(Run(INIT, before), after[..i]), after[i], sid);
      LateAdds(Run(INIT, before), after, i, sid);
    }
  }

  // Nobody is about to create a TRIAGE job in the study, or to run one for a job of it that has been retried.
  predicate NobodySpawns(s: Sys, sid: StudyId) {
    && (forall p <- s.pending.make :: p in s.db.jobs ==> s.db.jobs[p].study != sid)
    && (forall t <- s.pending.run :: !WouldRetry(s.db, t, sid))
  }

  predicate WouldRetry(db: Db, t: JobId, sid: StudyId) {
    && Triaging(db, t) && db.jobs[db.jobs[t].payload.failedJob].study == sid
    && db.jobs[db.jobs[t].payload.failedJob].state == RetrySpawned
  }

  // Then nobody ever will be: closure is final.
  lemma {:induction false} QuietClosureIsFinal(s: Sys, acts: seq<Act>, sid: StudyId)
    requires Inv(s) && Sealed(s.db, sid) && NobodySpawns(s, sid)
    ensures NeverLate(s, acts, sid) && NobodySpawns(Run(s, acts), sid)
  {
    if acts != [] {
      hide Step, Enabled, Late, Inv, NobodySpawns, Sealed, SameJobs;
      var init, a := acts[..|acts| - 1], acts[|acts| - 1];
      assert forall i :: 0 <= i < |init| ==> init[..i] == acts[..i];
      QuietClosureIsFinal(s, init, sid);
      InvRun(s, init);
      SealedRun(s, init, sid);
      NobodyStep(Run(s, init), a, sid);
      forall i | 0 <= i < |acts| ensures !Late(Run(s, acts[..i]), acts[i], sid) {
        if i < |init| { assert !Late(Run(s, init[..i]), init[i], sid); }
      }
    }
  }

  lemma NobodyStep(s: Sys, a: Act, sid: StudyId)
    requires Inv(s) && Sealed(s.db, sid) && NobodySpawns(s, sid)
    ensures !Late(s, a, sid) && NobodySpawns(Step(s, a), sid)
  {
    hide Step, Enabled, Late, Inv, NobodySpawns, Sealed, SameJobs, PendingFrom, Triaging;
    NobodyLate(s, a, sid);
    Disabled(s, a);
    if Enabled(s, a) {
      SealedStep(s, a, sid);
      PendingGrows(s, a);
      TokensFrom(s, a, Step(s, a).pending);
      StepKeepsStudy(s, a);
      PendingInDb(s);
      AreTriaging(s);
      NobodyGrows(s, Step(s, a), sid);
    }
  }

  // Whatever is added to what processes are about to do is about a job that is not terminal.
  lemma TokensFrom(s: Sys, a: Act, p: Pending)
    requires PendingFrom(s, a, p)
    ensures forall j <- p.make :: j in s.pending.make || (j in s.db.jobs && !Terminal(s.db.jobs[j].state))
    ensures forall u <- p.run :: u in s.pending.run || (u in s.db.jobs && !Terminal(s.db.jobs[u].state))
  {}

  lemma NobodyGrows(s: Sys, t: Sys, sid: StudyId)
    requires Sealed(s.db, sid) && NobodySpawns(s, sid) && SameJobs(s.db, t.db, sid)
    requires forall j <- s.db.jobs :: j in t.db.jobs && SameColumns(s.db.jobs[j], t.db.jobs[j])
    requires (forall p <- s.pending.make :: p in s.db.jobs) && forall u <- s.pending.run :: u in s.db.jobs
    requires forall u <- s.db.jobs :: s.db.jobs[u].jtype == TRIAGE ==>
      Triaging(s.db, u) && s.db.jobs[s.db.jobs[u].payload.failedJob].study == s.db.jobs[u].study
    requires forall p <- t.pending.make :: p in s.pending.make || (p in s.db.jobs && !Terminal(s.db.jobs[p].state))
    requires forall u <- t.pending.run :: u in s.pending.run || (u in s.db.jobs && !Terminal(s.db.jobs[u].state))
    ensures NobodySpawns(t, sid)
  {
    forall u <- t.pending.run ensures !WouldRetry(t.db, u, sid) {
      assert u in s.db.jobs && SameColumns(s.db.jobs[u], t.db.jobs[u]);
    }
  }

  lemma AreTriaging(s: Sys)
    requires Inv(s)
    ensures forall u <- s.db.jobs :: s.db.jobs[u].jtype == TRIAGE ==>
      Triaging(s.db, u) && s.db.jobs[s.db.jobs[u].payload.failedJob].study == s.db.jobs[u].study
  {
    forall u <- s.db.jobs | s.db.jobs[u].jtype == TRIAGE
      ensures Triaging(s.db, u) && s.db.jobs[s.db.jobs[u].payload.failedJob].study == s.db.jobs[u].study
    {
      assert RowOk(s.db, u);
    }
  }

  lemma NobodyLate(s: Sys, a: Act, sid: StudyId)
    requires Inv(s) && NobodySpawns(s, sid)
    ensures !Late(s, a, sid)
  {
    hide Enabled, Inv;
    if Late(s, a, sid) { LateGuard(s, a, sid); }
  }

  lemma LateGuard(s: Sys, a: Act, sid: StudyId)
    requires Late(s, a, sid)
    ensures if a.MakeTriage? then a.j in s.pending.make && a.j in s.db.jobs && s.db.jobs[a.j].study == sid
            else a.HalfTriage? && a.j in s.pending.run && WouldRetry(s.db, a.j, sid)
  {}

  // From the moment on that a study has only terminal jobs, its jobs stay what they are whatever happens, exactly if nobody
  // is about to spawn in it then.
  lemma ClosureIffQuiet(s: Sys, sid: StudyId)
    requires Inv(s) && Sealed(s.db, sid)
    ensures NobodySpawns(s, sid) <==> forall acts :: SameJobs(s.db, Run(s, acts).db, sid)
  {
    hide NeverLate, Late;
    hide SameJobs, Inv, Step, Enabled, Run;
    if NobodySpawns(s, sid) {
      forall acts ensures SameJobs(s.db, Run(s, acts).db, sid) {
        QuietClosureIsFinal(s, acts, sid);
        SealedRun(s, acts, sid);
      }
    } else {
      var a := Latecomer(s, sid);
      RunNothing(s);
      assert [a][..0] == [];
      LateAdds(s, [a], 0, sid);
    }
  }

  lemma RunNothing(s: Sys)
    ensures Run(s, []) == s
  {
    hide Step;
  }

  lemma Latecomer(s: Sys, sid: StudyId) returns (a: Act)
    requires !NobodySpawns(s, sid)
    ensures Late(s, a, sid)
  {
    var n := Unused(s.db.jobs.Keys);
    if !(forall p <- s.pending.make :: p in s.db.jobs ==> s.db.jobs[p].study != sid) {
      var p :| p in s.pending.make && p in s.db.jobs && s.db.jobs[p].study == sid;
      a := MakeTriage(p, n, 0);
    } else {
      var t :| t in s.pending.run && WouldRetry(s.db, t, sid);
      a := HalfTriage(0, t, n, None, 1, 0);
    }
  }

  lemma {:induction false} Unused(ids: set<JobId>) returns (n: JobId)
    ensures n !in ids && forall i <- ids :: i < n
    decreases |ids|
  {
    n := 0;
    if ids != {} {
      var i := Pick(ids);
      n := Unused(ids - {i});
      assert ids == (ids - {i}) + {i};
      if n <= i { n := i + 1; }
    }
  }

  lemma PendingInDb(s: Sys)
    requires Inv(s)
    ensures (forall p <- s.pending.make :: p in s.db.jobs) && forall t <- s.pending.run :: t in s.db.jobs
  {}

  lemma StepKeepsStudy(s: Sys, a: Act)
    requires Inv(s) && Enabled(s, a)
    ensures forall j <- s.db.jobs :: j in Step(s, a).db.jobs && SameColumns(s.db.jobs[j], Step(s, a).db.jobs[j])
  {
    hide Inv, Origin;
    hide Step, Enabled;
    StepSummary(s, a);
    forall j <- s.db.jobs
      ensures SameColumns(s.db.jobs[j], Step(s, a).db.jobs[j])
    {
      assert RowStep(s.db.jobs[j], Step(s, a).db.jobs[j]);
    }
  }
}
