/**
 Readiness survives a stale snapshot: a job that any runnable_jobs() call ever returned keeps its edges and keeps
 upstreams that cannot become unready, so checking state='queued' alone is enough when it is claimed later. With
 Structure this is the invariant of every run.
 */
module Readiness {
  import opened Wrappers
  import opened Rows
  import opened Substrate
  import opened Protocol
  import opened Effects
  import opened History
  import opened Structure

  predicate Settled(up: Job, jtype: JobType) {
    if jtype == REPORT then Terminal(up.state) || up.attempt >= up.maxAttempts
    else up.state in {Succeeded, Review, Accepted, Rejected}
  }

  // What remains of "ready" however long ago it was judged
  ghost predicate StillReady(db: Db, j: JobId) {
    j in db.jobs && forall d <- db.deps :: d.job == j ==> d.on in db.jobs && Settled(db.jobs[d.on], db.jobs[j].jtype)
  }

  predicate NeverClaimed(s: JobState) { s in {Proposed, Approved, Queued, Cancelled} }

  ghost predicate ReadyOk(s: Sys) {
    && (forall j <- s.judged :: StillReady(s.db, j))
    && (forall w <- s.seen :: s.seen[w] <= s.judged)
    && (forall j <- s.db.jobs :: NeverClaimed(s.db.jobs[j].state) || j in s.judged)
  }

  ghost predicate Inv(s: Sys) { Struct(s.db) && ReadyOk(s) && TriageOk(s) }

  /******* What a step may do to a row *******/

  // Settled rows stay settled, and only judged jobs leave the unclaimed states.
  predicate Onward(r: Job, q: Job, judged: bool) {
    && r.jtype == q.jtype && (Settled(r, ANALYSIS) ==> Settled(q, ANALYSIS)) && (Settled(r, REPORT) ==> Settled(q, REPORT))
    && (NeverClaimed(q.state) || !NeverClaimed(r.state) || judged)
  }

  // Old edges stay, except those of a job still in triage with attempts left
  ghost predicate Progress(s: Sys, b: Db) {
    && s.db.jobs.Keys <= b.jobs.Keys
    && (forall j <- s.db.jobs :: Onward(s.db.jobs[j], b.jobs[j], j in s.judged))
    && (forall j <- b.jobs :: j in s.db.jobs || NeverClaimed(b.jobs[j].state))
    && (forall d <- b.deps :: d in s.db.deps || d.job !in s.judged)
  }

  lemma ProgressKeeps(s: Sys, b: Db, seen: map<WorkerId, set<JobId>>)
    requires ReadyOk(s) && Progress(s, b) && forall w <- seen :: seen[w] <= s.judged
    ensures forall pending :: ReadyOk(Sys(b, seen, s.judged, pending))
  {
    forall j <- s.judged ensures StillReady(b, j) {
      assert StillReady(s.db, j);
      forall d <- b.deps | d.job == j ensures d.on in b.jobs && Settled(b.jobs[d.on], b.jobs[j].jtype) {
        assert d in s.db.deps;
        assert Onward(s.db.jobs[d.on], b.jobs[d.on], d.on in s.judged) && Onward(s.db.jobs[j], b.jobs[j], true);
      }
    }
  }

  lemma MovedOnward(row: Job, q: Request)
    requires JobVerb(row.state, q.to).Some?
    ensures Onward(row, MovedRow(row, q), q.to == Assigned || !NeverClaimed(row.state))
  {}

  lemma ReadyIsSettled(db: Db, j: JobId)
    requires Linked(db) && Ready(db, j)
    ensures StillReady(db, j)
  {}

  /******* Every action *******/

  lemma AsideKeeps(s: Sys, a: Act)
    requires Inv(s) && Enabled(s, a) && Aside(a)
    ensures Struct(Step(s, a).db) && ReadyOk(Step(s, a))
  {
    hide Step, Enabled, ReadyOk, TriageOk, LeavesRows;
    AsideEffect(s, a);
    AsideStruct(s.db, a, Step(s, a).db);
    StructIsLinked(s.db);
    AsideReady(s, a);
  }

  lemma AsideStruct(db: Db, a: Act, b: Db)
    requires Struct(db) && LeavesRows(db, a, b)
    ensures Struct(b)
  {
    hide Struct;
    assert Extended(db, b, {});
    ExtendedKeeps(db, b, {});
  }

  lemma AsideProgress(s: Sys, a: Act, b: Db)
    requires LeavesRows(s.db, a, b)
    ensures Progress(s, b)
  {}

  lemma AsideReady(s: Sys, a: Act)
    requires ReadyOk(s) && Linked(s.db) && Enabled(s, a) && Aside(a)
    ensures ReadyOk(Step(s, a))
  {
    hide Apply, Enabled;
    AsideEffect(s, a);
    var b := Step(s, a).db;
    AsideProgress(s, a, b);
    hide Progress, LeavesRows;
    if a.Look? {
      assert b == s.db;
      forall j <- Runnable(s.db) ensures StillReady(s.db, j) { ReadyIsSettled(s.db, j); }
    } else {
      ProgressKeeps(s, b, NextSeen(s, a));
    }
  }

  lemma SingleKeeps(s: Sys, a: Act)
    requires Inv(s) && Enabled(s, a) && !Aside(a) && !Composite(a)
    ensures Struct(Step(s, a).db) && ReadyOk(Step(s, a))
  {
    hide Ops, Exec, Gentle, MoveRefusal;
    MoveEffect(s, a);
    SeenFrame(s, a);
    if SingleMove(s.db, a).Some? {
      var q := SingleMove(s.db, a).value;
      SingleMovesAreGentle(s, a);
      GentleKeeps(s.db, q);
      OnlyClaimsAssign(s, a);
      if a.Claim? { ClaimsJudged(s, a); }
      hide Step, Enabled, SingleMove, Struct, Move, TriageOk;
      SingleReady(s, a, q);
    }
  }

  lemma ClaimsJudged(s: Sys, a: Act)
    requires ReadyOk(s) && a.Claim? && Enabled(s, a)
    ensures a.j in s.judged && (SingleMove(s.db, a).Some? ==> SingleMove(s.db, a).value.job == a.j)
  {}

  // What a single move leaves in the claim loops' memory is part of what they held.
  lemma SeenFrame(s: Sys, a: Act)
    requires ReadyOk(s) && Enabled(s, a) && !Aside(a)
    ensures Step(s, a).judged == s.judged && forall w <- Step(s, a).seen :: Step(s, a).seen[w] <= s.judged
  {
    hide Ops, Exec;
  }

  lemma SingleReady(s: Sys, a: Act, q: Request)
    requires ReadyOk(s) && (q.to == Assigned ==> q.job in s.judged || MoveRefusal(s.db, q).Some?)
    requires Step(s, a).db == Move(s.db, q)
    requires Step(s, a).judged == s.judged && forall w <- Step(s, a).seen :: Step(s, a).seen[w] <= s.judged
    ensures ReadyOk(Step(s, a))
  {
    hide *;
    MoveProgress(s, q);
    ProgressKeeps(s, Move(s.db, q), Step(s, a).seen);
    assert Step(s, a) == Sys(Move(s.db, q), Step(s, a).seen, s.judged, Step(s, a).pending);
  }

  lemma MoveProgress(s: Sys, q: Request)
    requires q.to == Assigned ==> q.job in s.judged || MoveRefusal(s.db, q).Some?
    ensures Progress(s, Move(s.db, q))
  {
    if MoveRefusal(s.db, q).None? {
      MoveShape(s.db, q);
      MovedOnward(s.db.jobs[q.job], q);
      hide Move, MovedRow;
    }
  }

  // No other action can take a job from the queue.
  lemma OnlyClaimsAssign(s: Sys, a: Act)
    requires Enabled(s, a) && SingleMove(s.db, a).Some?
    ensures SingleMove(s.db, a).value.to == Assigned ==> a.Claim? || MoveRefusal(s.db, SingleMove(s.db, a).value).Some?
  {
    hide Enabled;
  }

  lemma MakeReady(s: Sys, j: JobId, tid: JobId, ts: int)
    requires ReadyOk(s) && j in s.db.jobs && tid !in s.db.jobs
    ensures forall pending :: ReadyOk(Sys(Proposes(s.db, TriageJob(s.db.jobs[j], j, tid, ts)), s.seen, s.judged, pending))
  {
    var b := Proposes(s.db, TriageJob(s.db.jobs[j], j, tid, ts));
    assert Progress(s, b);
    ProgressKeeps(s, b, s.seen);
  }

  // A job that is waiting in triage, with attempts left, holds back whatever depends on it.
  lemma TriageLeavesJudged(s: Sys, b: Db, p: JobId, rid: JobId)
    requires ReadyOk(s) && (TriageOutcome(s.db, b, p, rid) || Adds(s.db, b, p, rid))
    ensures forall d <- b.deps :: d in s.db.deps || d.job !in s.judged
  {
    forall d <- b.deps ensures d in s.db.deps || d.job !in s.judged {
      if d !in s.db.deps {
        var e :| e in s.db.deps && d == if e.on == p then Dep(e.job, rid) else e;
        assert e.job in s.judged ==> StillReady(s.db, e.job);
      }
    }
  }

  lemma TriageProgress(s: Sys, b: Db, p: JobId, rid: JobId)
    requires TriageOutcome(s.db, b, p, rid) && forall d <- b.deps :: d in s.db.deps || d.job !in s.judged
    ensures Progress(s, b)
  {
    assert forall j <- s.db.jobs :: j == p || b.jobs[j] == s.db.jobs[j];
  }

  lemma TriageKeepsReady(s: Sys, b: Db, p: JobId, rid: JobId)
    requires ReadyOk(s) && TriageOutcome(s.db, b, p, rid)
    ensures forall pending :: ReadyOk(Sys(b, s.seen, s.judged, pending))
  {
    TriageLeavesJudged(s, b, p, rid);
    TriageProgress(s, b, p, rid);
    hide Progress, TriageOutcome, ReadyOk;
    ProgressKeeps(s, b, s.seen);
  }

  lemma HalfKeepsReady(s: Sys, b: Db, p: JobId, rid: JobId)
    requires ReadyOk(s) && Adds(s.db, b, p, rid)
    ensures forall pending :: ReadyOk(Sys(b, s.seen, s.judged, pending))
  {
    TriageLeavesJudged(s, b, p, rid);
    assert Progress(s, b);
    hide Progress, Adds;
    ProgressKeeps(s, b, s.seen);
  }

  lemma DecomposeKeepsReady(s: Sys, a: Act)
    requires ReadyOk(s) && Enabled(s, a) && (a.AddCase? || a.AddReport?)
    ensures a.AddCase? ==> ReadyOk(Sys(AfterCase(s.db, a), s.seen, s.judged, s.pending))
    ensures a.AddReport? ==> ReadyOk(Sys(AfterReport(s.db, a), s.seen, s.judged, s.pending))
  {
    forall j <- s.judged ensures j in s.db.jobs { assert StillReady(s.db, j); }
    if a.AddCase? {
      assert Progress(s, AfterCase(s.db, a));
      ProgressKeeps(s, AfterCase(s.db, a), s.seen);
    } else {
      assert Progress(s, AfterReport(s.db, a));
      ProgressKeeps(s, AfterReport(s.db, a), s.seen);
    }
  }

  lemma DecomposeKeepsAll(s: Sys, a: Act)
    requires Inv(s) && Enabled(s, a) && (a.AddCase? || a.AddReport?)
    ensures Struct(Step(s, a).db) && ReadyOk(Step(s, a))
  {
    hide Ops, Exec, NextSeen;
    StepFrame(s, a);
    DecomposeKeepsReady(s, a);
    if a.AddCase? {
      CaseEffect(s, a);
      CaseKeeps(s, a);
    } else {
      ReportEffect(s, a);
      ReportKeeps(s, a);
    }
  }

  lemma TriageKeepsAll(s: Sys, a: Act)
    requires Inv(s) && Enabled(s, a) && a.RunTriage?
    ensures Struct(Step(s, a).db) && ReadyOk(Step(s, a))
  {
    hide Step, Enabled;
    StepFrame(s, a);
    var p, _, _, _ := TriageStep(s, a);
    hide TriageOutcome, Triaging, TriageEvents;
    TriageKeeps(s.db, Step(s, a).db, p, a.rid);
    TriageKeepsReady(s, Step(s, a).db, p, a.rid);
  }

  lemma HalfKeepsAll(s: Sys, a: Act)
    requires Inv(s) && Enabled(s, a) && a.HalfTriage?
    ensures Struct(Step(s, a).db) && ReadyOk(Step(s, a))
  {
    hide Step, Enabled, Adds;
    StepFrame(s, a);
    var p, _ := HalfStep(s, a);
    HalfKeeps(s.db, Step(s, a).db, p, a.rid);
    if Step(s, a).db != s.db { HalfKeepsReady(s, Step(s, a).db, p, a.rid); }
  }

  // Only a claim loop touches what claim loops remember, only control loops, reapers and triage the rest.
  lemma StepFrame(s: Sys, a: Act)
    ensures Step(s, a) == Sys(Step(s, a).db, Step(s, a).seen, Step(s, a).judged, Step(s, a).pending)
    ensures !a.Look? ==> Step(s, a).judged == s.judged
    ensures !a.Look? && !a.Claim? && !a.GiveUp? ==> Step(s, a).seen == s.seen
    ensures !Remembers(a) ==> Step(s, a).pending == s.pending
  {
    hide Ops, Exec;
  }

  predicate Remembers(a: Act) {
    a.FlipTriage? || a.ReadOrphan? || a.MakeTriage? || a.ApproveTriage? || a.DropTriage? || a.DropApproval? ||
      a.Start? || a.RunTriage?
    || a.HalfTriage? || a.DropRun? || a.FindExpired? || a.Reap? || a.ReadDone? || a.SyncReview?
  }

  lemma CompositeKeeps(s: Sys, a: Act)
    requires Inv(s) && Enabled(s, a) && Composite(a)
    ensures Struct(Step(s, a).db) && ReadyOk(Step(s, a))
  {
    hide Ops, Exec;
    if a.AddCase? || a.AddReport? {
      DecomposeKeepsAll(s, a);
    } else if a.RunTriage? {
      TriageKeepsAll(s, a);
    } else if a.HalfTriage? {
      HalfKeepsAll(s, a);
    } else {
      StructIsLinked(s.db);
      MakeEffect(s, a);
      StepFrame(s, a);
      MakeKeeps(s.db, a.j, a.tid, a.ts);
      MakeReady(s, a.j, a.tid, a.ts);
    }
  }

  /******* Triage jobs and their targets *******/

  // The rows that are new, and what a job in triage may turn into
  ghost predicate TriageRows(s: Sys, b: Db) {
    && (forall p <- s.db.jobs :: Keeps(s.db, b, p))
    && (forall p <- s.db.jobs :: s.db.jobs[p].state == Triage ==> Triaged(b, p))
    && (forall p <- b.jobs :: b.jobs[p].state == RetrySpawned ==>
      (p in s.db.jobs && s.db.jobs[p].state == RetrySpawned) || Spent(b, p))
    && (forall t <- b.jobs :: b.jobs[t].payload.TriagePayload? ==>
          (t in s.db.jobs && b.jobs[t].payload == s.db.jobs[t].payload) || Triaged(s.db, b.jobs[t].payload.failedJob))
    && (forall t <- s.db.jobs :: b.jobs[t].jtype == s.db.jobs[t].jtype)
  }

  lemma TriagedStays(s: Sys, b: Db, p: JobId)
    requires TriageRows(s, b) && Triaged(s.db, p)
    ensures Triaged(b, p)
  {
    assert Keeps(s.db, b, p);
  }

  lemma TriageOkKeeps(s: Sys, b: Db, seen: map<WorkerId, set<JobId>>, judged: set<JobId>, pending: Pending)
    requires TriageOk(s) && TriageRows(s, b)
    requires forall p <- pending.make :: p in s.pending.make || Triaged(b, p)
    requires forall t <- pending.approve + pending.ran ::
      t in s.pending.approve + s.pending.ran || (t in b.jobs && b.jobs[t].jtype == TRIAGE)
    requires forall t <- pending.run :: t in s.pending.run || (t in b.jobs && b.jobs[t].jtype == TRIAGE)
    ensures TriageOk(Sys(b, seen, judged, pending))
  {
    forall p <- b.jobs ensures Spent(b, p) {
      if p in s.db.jobs { assert Keeps(s.db, b, p) && Spent(s.db, p); }
    }
    forall t <- b.jobs | b.jobs[t].payload.TriagePayload? ensures Triaged(b, b.jobs[t].payload.failedJob) {
      TriagedStays(s, b, b.jobs[t].payload.failedJob);
    }
    forall p <- pending.make ensures Triaged(b, p) {
      if p in s.pending.make { TriagedStays(s, b, p); }
    }
  }

  // Steps that keep jobs in triage there and make nobody superseded
  lemma ExtendedTriageRows(s: Sys, b: Db, new_: set<JobId>)
    requires Extended(s.db, b, new_) && forall p <- s.db.jobs :: Keeps(s.db, b, p)
    requires forall t <- new_ :: t in b.jobs && b.jobs[t].state != RetrySpawned
    requires forall t <- new_ :: t in b.jobs && b.jobs[t].payload.TriagePayload? ==> Triaged(s.db, b.jobs[t].payload.failedJob)
    ensures TriageRows(s, b)
  {
    forall j <- s.db.jobs ensures SameRole(s.db.jobs[j], b.jobs[j]) {}
  }

  lemma OutcomeTriageRows(s: Sys, b: Db, p: JobId, rid: JobId)
    requires TriageOk(s) && TriageOutcome(s.db, b, p, rid) && forall j <- s.db.jobs :: Keeps(s.db, b, j)
    ensures TriageRows(s, b)
  {
    assert forall j <- s.db.jobs :: j == p || b.jobs[j] == s.db.jobs[j];
    if Replaces(s.db, b, p, rid) && b.jobs[rid].payload.TriagePayload? {
      assert s.db.jobs[p].payload == b.jobs[rid].payload;
    }
  }

  lemma AddsTriageRows(s: Sys, b: Db, p: JobId, rid: JobId)
    requires TriageOk(s) && Adds(s.db, b, p, rid) && forall j <- s.db.jobs :: Keeps(s.db, b, j)
    ensures TriageRows(s, b)
  {
    if b.jobs[rid].payload.TriagePayload? {
      assert s.db.jobs[p].payload == b.jobs[rid].payload;
    }
  }

  // Where what processes are about to do comes from: only flips and orphan reads add to what loops are about to make, and only
  // of jobs in triage.
  ghost predicate PendingFrom(s: Sys, a: Act, p: Pending) {
    && (forall j <- p.make ::
      j in s.pending.make || (a.FlipTriage? && j == a.j && InIt(s.db, j, Failed)) ||
        (a.ReadOrphan? && j == a.j && InIt(s.db, j, Triage)))
    && (forall t <- p.approve :: t in s.pending.approve || (a.MakeTriage? && t == a.tid))
    && (forall t <- p.ran ::
      t in s.pending.ran || (a.RunTriage? && a.logged && t == a.j && t in s.db.jobs && s.db.jobs[t].jtype == TRIAGE))
    && (forall t <- p.run ::
          t in s.pending.run || (a.Start? && t == a.j && InIt(s.db, t, Assigned) && s.db.jobs[t].jtype == TRIAGE))
  }

  predicate InIt(db: Db, j: JobId, state: JobState) { j in db.jobs && db.jobs[j].state == state }

  lemma PendingGrows(s: Sys, a: Act)
    requires Enabled(s, a)
    ensures PendingFrom(s, a, Step(s, a).pending)
  {
    hide Step, Enabled, NextPending;
    NextIs(s, a);
    PendingGuard(s, a);
    MakesGrow(s, a);
    ApprovalsGrow(s, a);
    RunsGrow(s, a);
  }

  lemma MakesGrow(s: Sys, a: Act)
    ensures forall j <- NextPending(s, a).make ::
      j in s.pending.make || (a.FlipTriage? && j == a.j && InIt(s.db, j, Failed)) || (a.ReadOrphan? && j == a.j)
  {}

  lemma ApprovalsGrow(s: Sys, a: Act)
    ensures forall t <- NextPending(s, a).approve :: t in s.pending.approve || (a.MakeTriage? && t == a.tid)
  {}

  lemma RunsGrow(s: Sys, a: Act)
    ensures forall t <- NextPending(s, a).ran :: t in s.pending.ran || (a.RunTriage? && a.logged && t == a.j)
    ensures forall t <- NextPending(s, a).run ::
      t in s.pending.run || (a.Start? && t == a.j && InIt(s.db, t, Assigned) && s.db.jobs[t].jtype == TRIAGE)
  {}

  lemma NextIs(s: Sys, a: Act)
    requires Enabled(s, a)
    ensures Step(s, a).pending == NextPending(s, a)
  {
    hide Ops, Exec, NextSeen, Enabled;
  }

  lemma PendingGuard(s: Sys, a: Act)
    requires Enabled(s, a)
    ensures a.ReadOrphan? ==> a.j in s.db.jobs && s.db.jobs[a.j].state == Triage
    ensures a.RunTriage? ==> a.j in s.db.jobs && s.db.jobs[a.j].jtype == TRIAGE
  {}

  // The rows an action other than triage's makes: proposed, without a case unless it is the case's own, and the only
  // TRIAGE job among them is the child a loop makes.
  ghost predicate BornFrom(s: Sys, a: Act, b: Db, new_: set<JobId>) {
    && (forall j <- new_ :: j in b.jobs && (!a.AddCase? || j != a.aid) ==> b.jobs[j].Key().None?)
    && (forall t <- new_ :: t in b.jobs && b.jobs[t].state == Proposed)
    && (forall t <- new_ :: t in b.jobs && b.jobs[t].payload.TriagePayload? ==>
          && a.MakeTriage? && t == a.tid && b.jobs[t].payload == TriagePayload(a.j) && b.jobs[t].jtype == TRIAGE
          && b.jobs[t].parent == Some(a.j) && a.j in s.pending.make)
    && (a.MakeTriage? ==> new_ == {a.tid})
  }

  lemma ExtendsStep(s: Sys, a: Act) returns (new_: set<JobId>)
    requires Inv(s) && Enabled(s, a) && !a.RunTriage? && !a.HalfTriage?
    ensures Extended(s.db, Step(s, a).db, new_) && NewPairs(Step(s, a).db, new_) && BornFrom(s, a, Step(s, a).db, new_)
  {
    hide Step, Enabled, Inv, Struct, ReadyOk, TriageOk, Extended, NewPairs, BornFrom;
    NothingNew(s, a, Step(s, a).db);
    if Aside(a) {
      AsideEffect(s, a);
      AsideExtends(s.db, a, Step(s, a).db);
      new_ := {};
    } else if a.AddCase? {
      CaseAdds(s, a);
      new_ := {a.aid, a.cid};
    } else if a.AddReport? {
      ReportAdds(s, a);
      new_ := {a.rid};
    } else if a.MakeTriage? {
      ChildAdds(s, a);
      new_ := {a.tid};
    } else {
      MoveEffect(s, a);
      if SingleMove(s.db, a).Some? {
        SingleMovesAreGentle(s, a);
        GentleExtends(s.db, SingleMove(s.db, a).value);
      } else {
        SelfExtends(s.db);
      }
      new_ := {};
    }
  }

  lemma CaseAdds(s: Sys, a: Act)
    requires Inv(s) && Enabled(s, a) && a.AddCase?
    ensures var b, new_ := Step(s, a).db, {a.aid, a.cid}; Extended(s.db, b, new_) && NewPairs(b, new_) && BornFrom(s, a, b, new_)
  {
    hide Step, Enabled, Struct, ReadyOk, TriageOk, Extended, NewPairs;
    InvParts(s);
    CaseEffect(s, a);
    CaseExtends(s, a);
    CaseNewPairs(s, a);
    CaseBorn(s.db, a);
  }

  lemma ReportAdds(s: Sys, a: Act)
    requires Inv(s) && Enabled(s, a) && a.AddReport?
    ensures var b, new_ := Step(s, a).db, {a.rid}; Extended(s.db, b, new_) && NewPairs(b, new_) && BornFrom(s, a, b, new_)
  {
    hide Step, Enabled, Struct, ReadyOk, TriageOk, Extended, NewPairs;
    InvParts(s);
    CompositeEffect(s, a);
    ReportEffect(s, a);
    ReportExtends(s, a);
    ReportNewPairs(s.db, a);
  }

  lemma ChildAdds(s: Sys, a: Act)
    requires Inv(s) && Enabled(s, a) && a.MakeTriage?
    ensures var b, new_ := Step(s, a).db, {a.tid}; Extended(s.db, b, new_) && NewPairs(b, new_) && BornFrom(s, a, b, new_)
  {
    hide Step, Enabled, Struct, ReadyOk, TriageOk, Extended, NewPairs;
    InvParts(s);
    MakeGuard(s, a);
    MakeEffect(s, a);
    MakeExtends(s.db, a.j, a.tid, a.ts);
  }

  lemma NothingNew(s: Sys, a: Act, b: Db)
    ensures NewPairs(b, {}) && (!a.MakeTriage? ==> BornFrom(s, a, b, {}))
  {}

  lemma ReportNewPairs(db: Db, a: Act)
    requires a.AddReport? && a.sid in db.studies
    requires forall d <- AfterReport(db, a).deps :: d.job == a.rid ==>
      d.on in AfterReport(db, a).jobs && AfterReport(db, a).jobs[d.on].jtype == CHECK
    ensures NewPairs(AfterReport(db, a), {a.rid})
  {
    assert AfterReport(db, a).jobs[a.rid].jtype == REPORT;
  }

  lemma InvParts(s: Sys)
    requires Inv(s)
    ensures Linked(s.db) && EdgesOk(s.db) && RowsOk(s.db) && Struct(s.db) && ReadyOk(s) && TriageOk(s)
  {
    StructIsLinked(s.db);
  }

  lemma MakeGuard(s: Sys, a: Act)
    requires a.MakeTriage? && Enabled(s, a)
    ensures a.j in s.pending.make && a.j in s.db.jobs && a.tid !in s.db.jobs
  {}

  lemma CaseBorn(db: Db, a: Act)
    requires a.AddCase?
    ensures forall t <- {a.aid, a.cid} ::
      t in AfterCase(db, a).jobs && AfterCase(db, a).jobs[t].state == Proposed && !AfterCase(db, a).jobs[t].payload.TriagePayload?
  {}

  lemma AsideExtends(db: Db, a: Act, b: Db)
    requires LeavesRows(db, a, b)
    ensures Extended(db, b, {})
  {}

  lemma SelfExtends(db: Db)
    ensures Extended(db, db, {})
  {}

  lemma StepTriageRows(s: Sys, a: Act)
    requires Inv(s) && Enabled(s, a)
    ensures TriageRows(s, Step(s, a).db)
  {
    hide *;
    forall p <- s.db.jobs ensures Keeps(s.db, Step(s, a).db, p) { StepKeeps(s, a, p); }
    InvParts(s);
    if a.RunTriage? || a.HalfTriage? {
      TriagesTriageRows(s, a);
    } else {
      var new_ := ExtendsStep(s, a);
      BornInTriage(s, a, Step(s, a).db, new_);
      ExtendedTriageRows(s, Step(s, a).db, new_);
    }
  }

  lemma BornInTriage(s: Sys, a: Act, b: Db, new_: set<JobId>)
    requires TriageOk(s) && BornFrom(s, a, b, new_)
    ensures forall t <- new_ :: t in b.jobs && b.jobs[t].state != RetrySpawned
    ensures forall t <- new_ :: t in b.jobs && b.jobs[t].payload.TriagePayload? ==> Triaged(s.db, b.jobs[t].payload.failedJob)
  {}

  lemma TriagesTriageRows(s: Sys, a: Act)
    requires Inv(s) && Enabled(s, a) && (a.RunTriage? || a.HalfTriage?) && forall p <- s.db.jobs :: Keeps(s.db, Step(s, a).db, p)
    ensures TriageRows(s, Step(s, a).db)
  {
    hide Step, Enabled, Struct, ReadyOk, Keeps, TriageRows, Extended, Adds, TriageOutcome, TriageEvents;
    InvParts(s);
    if a.RunTriage? {
      var p, _, _, _ := TriageStep(s, a);
      OutcomeTriageRows(s, Step(s, a).db, p, a.rid);
    } else {
      var p, _ := HalfStep(s, a);
      if Step(s, a).db == s.db {
        SelfExtends(s.db);
        ExtendedTriageRows(s, s.db, {});
      } else {
        AddsTriageRows(s, Step(s, a).db, p, a.rid);
      }
    }
  }

  lemma FlipIsTriaged(s: Sys, a: Act)
    requires a.FlipTriage? && Enabled(s, a) && a.j in s.db.jobs && s.db.jobs[a.j].state == Failed
    ensures Triaged(Step(s, a).db, a.j)
  {
    hide Exec, NextSeen, Enabled;
    MoveEffect(s, a);
  }

  lemma TriageOkStep(s: Sys, a: Act)
    requires Inv(s) && Enabled(s, a)
    ensures TriageOk(Step(s, a))
  {
    hide Step, Enabled, Inv, Struct, ReadyOk, TriageOk, TriageRows, Triaged, PendingFrom;
    var t := Step(s, a);
    InvParts(s);
    StepTriageRows(s, a);
    PendingGrows(s, a);
    forall p <- t.pending.make ensures p in s.pending.make || Triaged(t.db, p) {
      if p !in s.pending.make { WillMake(s, a, p); }
    }
    if a.MakeTriage? { MadeTriage(s, a); }
    TokensAreTriage(s, a, t.db, t.pending);
    TriageOkKeeps(s, t.db, t.seen, t.judged, t.pending);
  }

  // Only jobs in triage get a child.
  lemma WillMake(s: Sys, a: Act, p: JobId)
    requires Enabled(s, a) && PendingFrom(s, a, Step(s, a).pending) && TriageRows(s, Step(s, a).db)
    requires p in Step(s, a).pending.make && p !in s.pending.make
    ensures Triaged(Step(s, a).db, p)
  {
    hide Step, Enabled, TriageRows, Triaged;
    if a.FlipTriage? {
      FlipIsTriaged(s, a);
    } else {
      TriageRowsTriage(s, Step(s, a).db, p);
    }
  }

  lemma TokensAreTriage(s: Sys, a: Act, b: Db, p: Pending)
    requires PendingFrom(s, a, p) && TriageRows(s, b) && (a.MakeTriage? ==> a.tid in b.jobs && b.jobs[a.tid].jtype == TRIAGE)
    ensures forall t <- p.approve + p.ran :: t in s.pending.approve + s.pending.ran || (t in b.jobs && b.jobs[t].jtype == TRIAGE)
    ensures forall t <- p.run :: t in s.pending.run || (t in b.jobs && b.jobs[t].jtype == TRIAGE)
  {
    SameTypes(s, b);
    hide TriageRows;
  }

  lemma SameTypes(s: Sys, b: Db)
    requires TriageRows(s, b)
    ensures forall t <- s.db.jobs :: t in b.jobs && b.jobs[t].jtype == s.db.jobs[t].jtype
  {
    forall t <- s.db.jobs ensures t in b.jobs { assert Keeps(s.db, b, t); }
  }

  lemma TriageRowsTriage(s: Sys, b: Db, p: JobId)
    requires TriageRows(s, b) && p in s.db.jobs && s.db.jobs[p].state == Triage
    ensures Triaged(b, p)
  {}

  lemma MadeTriage(s: Sys, a: Act)
    requires Inv(s) && a.MakeTriage? && Enabled(s, a)
    ensures a.tid in Step(s, a).db.jobs && Step(s, a).db.jobs[a.tid].jtype == TRIAGE
  {
    hide Step, Enabled;
    StructIsLinked(s.db);
    MakeEffect(s, a);
  }

  lemma InvStep(s: Sys, a: Act)
    requires Inv(s)
    ensures Inv(Step(s, a))
  {
    hide Ops, Exec, NextSeen;
    if !Enabled(s, a) {
      assert Step(s, a) == s;
    } else {
      hide Step, Enabled;
      TriageOkStep(s, a);
      if Aside(a) {
        AsideKeeps(s, a);
      } else if Composite(a) {
        CompositeKeeps(s, a);
      } else {
        SingleKeeps(s, a);
      }
    }
  }

  lemma {:induction false} InvRun(s: Sys, acts: seq<Act>)
    requires Inv(s)
    ensures Inv(Run(s, acts))
  {
    hide Step, Inv;
    if acts != [] {
      InvRun(s, acts[..|acts| - 1]);
      InvStep(Run(s, acts[..|acts| - 1]), acts[|acts| - 1]);
    }
  }

  lemma InvReachable(acts: seq<Act>)
    ensures Inv(Run(INIT, acts))
  {
    hide Run;
    InvRun(INIT, acts);
  }
}
