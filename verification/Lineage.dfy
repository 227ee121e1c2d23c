/**
 Lineage: a live ANALYSIS per case that its CHECK depends on, and no other exactly as long as every run_triage that makes a
 retry also retires the job it retries; nothing depends on a superseded job; the dependency graph is acyclic in every run.
 */
module Lineage {
  import opened Wrappers
  import opened Rows
  import opened Substrate
  import opened Protocol
  import opened Effects
  import opened Structure
  import opened Readiness
  import opened Steps
  import opened Budget
  import opened DepGraph
  import opened EventLog
  import opened History

  /******* One live ANALYSIS per case *******/

  // run_triage retries a row of case k and does not come to retire it: the row was retired before, or the worker dies. Or
  // the plan has a second case with the id.
  ghost predicate Doubles(s: Sys, a: Act, k: CaseKey) {
    && Enabled(s, a)
    && ((a.HalfTriage? && MakesRetry(s.db, s.db.jobs[a.j].payload.failedJob, a.cut)
         && s.db.jobs[s.db.jobs[a.j].payload.failedJob].Key() == Some(k))
        || (a.AddCase? && CaseKey(a.sid, a.caseId) == k && HasCase(s.db, k)))
  }

  ghost predicate NeverDoubled(acts: seq<Act>, k: CaseKey) {
    forall i :: 0 <= i < |acts| ==> !Doubles(Run(INIT, acts[..i]), acts[i], k)
  }

  lemma SingleStep(s: Sys, a: Act, k: CaseKey)
    requires Inv(s)
    ensures Single(Step(s, a).db, k) <==> Single(s.db, k) && !Doubles(s, a, k)
  {
    hide Step, Inv, Struct, ReadyOk, TriageOk, Extended, NewPairs, Single, TriageOutcome, TriageEvents, Adds;
    Disabled(s, a);
    if Enabled(s, a) {
      hide Enabled;
      InvParts(s);
      if a.RunTriage? {
        var p, _, _, _ := TriageStep(s, a);
        OutcomeSingle(s.db, Step(s, a).db, p, a.rid, k);
      } else if a.HalfTriage? {
        var p, _ := HalfStep(s, a);
        if Step(s, a).db != s.db {
          AddsSingle(s.db, Step(s, a).db, p, a.rid, k);
        }
      } else {
        var new_ := ExtendsStep(s, a);
        OthersSingle(s, a, new_, k);
      }
    }
  }

  lemma OthersSingle(s: Sys, a: Act, new_: set<JobId>, k: CaseKey)
    requires Inv(s) && Enabled(s, a) && !a.RunTriage? && !a.HalfTriage? && Extended(s.db, Step(s, a).db, new_)
    requires forall j <- new_ :: j in Step(s, a).db.jobs && (!a.AddCase? || j != a.aid) ==> Step(s, a).db.jobs[j].Key().None?
    ensures Single(Step(s, a).db, k) <==> Single(s.db, k) && !Doubles(s, a, k)
  {
    var b := Step(s, a).db;
    if a.AddCase? {
      CaseEffect(s, a);
      if Doubles(s, a, k) {
        SecondCase(s, a, k);
      } else {
        FirstCase(s.db, a, new_, k);
        ExtendedSingle(s.db, b, new_, k);
      }
      hide Step, Enabled, Inv, AfterCase, Single, Extended;
    } else {
      hide Step, Enabled, Inv, Extended, Single;
      ExtendedSingle(s.db, b, new_, k);
    }
  }

  // A second row of a case beside one that is live
  lemma SecondCase(s: Sys, a: Act, k: CaseKey)
    requires Inv(s) && a.AddCase? && Doubles(s, a, k)
    ensures !Single(AfterCase(s.db, a), k)
  {
    hide Enabled, ReadyOk, TriageOk;
    var j :| j in s.db.jobs && s.db.jobs[j].Key() == Some(k);
    assert RowOk(s.db, j);
    CaseRow(s, a);
    var l :| l in s.db.jobs && s.db.jobs[l].Key() == Some(k) && Live(s.db.jobs[l]);
    assert LiveOf(AfterCase(s.db, a).jobs[l], k) && LiveOf(AfterCase(s.db, a).jobs[a.aid], k);
  }

  lemma CaseRow(s: Sys, a: Act)
    requires a.AddCase? && Enabled(s, a)
    ensures var b := AfterCase(s.db, a);
      && a.aid !in s.db.jobs && LiveOf(b.jobs[a.aid], CaseKey(a.sid, a.caseId))
      && forall j <- s.db.jobs :: b.jobs[j] == s.db.jobs[j]
  {}

  lemma FirstCase(db: Db, a: Act, new_: set<JobId>, k: CaseKey)
    requires a.AddCase? && (CaseKey(a.sid, a.caseId) == k ==> !HasCase(db, k)) && a.aid !in db.jobs && a.cid !in db.jobs
    requires a.aid != a.cid
    requires AfterCase(db, a).jobs.Keys == db.jobs.Keys + new_ && db.jobs.Keys !! new_
    ensures NewCase(AfterCase(db, a), new_, k)
  {
    var b := AfterCase(db, a);
    assert forall j <- db.jobs :: b.jobs[j] == db.jobs[j];
    assert b.jobs[a.aid].Key() == Some(CaseKey(a.sid, a.caseId)) && b.jobs[a.cid].Key().None?;
  }

  // A case has one live row exactly as long as every run_triage that retries a row of it also retires the row; once it has
  // two, it keeps them.
  lemma {:induction false} OneLiveIff(acts: seq<Act>, k: CaseKey)
    ensures Single(Run(INIT, acts).db, k) <==> NeverDoubled(acts, k)
  {
    hide Step, Doubles, Single, NeverDoubled, Inv;
    if acts == [] {
      NoCase(k);
      NeverInNone(k);
    } else {
      var init := acts[..|acts| - 1];
      OneLiveIff(init, k);
      InvReachable(init);
      SingleStep(Run(INIT, init), acts[|acts| - 1], k);
      NeverPush(init, acts[|acts| - 1], k);
      assert init + [acts[|acts| - 1]] == acts;
    }
  }

  lemma NeverInNone(k: CaseKey)
    ensures NeverDoubled([], k)
  {
    hide Run, Doubles;
  }

  lemma NeverPush(init: seq<Act>, a: Act, k: CaseKey)
    ensures NeverDoubled(init + [a], k) <==> NeverDoubled(init, k) && !Doubles(Run(INIT, init), a, k)
  {
    var acts := init + [a];
    hide Run, Doubles;
    assert acts[..|init|] == init && acts[|init|] == a && forall i :: 0 <= i < |init| ==>
      acts[..i] == init[..i] && acts[i] == init[i];
    if NeverDoubled(acts, k) {
      forall i | 0 <= i < |init| ensures !Doubles(Run(INIT, init[..i]), init[i], k) {
        assert !Doubles(Run(INIT, acts[..i]), acts[i], k);
      }
      assert !Doubles(Run(INIT, acts[..|init|]), acts[|init|], k);
    }
    if NeverDoubled(init, k) && !Doubles(Run(INIT, init), a, k) {
      forall i | 0 <= i < |acts| ensures !Doubles(Run(INIT, acts[..i]), acts[i], k) {
        if i < |init| { assert !Doubles(Run(INIT, init[..i]), init[i], k); }
      }
    }
  }

  lemma NoCase(k: CaseKey)
    ensures Single(EMPTY, k)
  {}

  // Two TRIAGE jobs for p that are not through with their work
  ghost predicate TwoActive(db: Db, p: JobId) {
    exists t <- db.jobs, u <- db.jobs :: t != u && ActiveFor(db.jobs[t], p) && ActiveFor(db.jobs[u], p)
  }

  predicate ActiveFor(row: Job, p: JobId) { ActiveTriage(row) && row.payload == TriagePayload(p) }

  // A loop that creates a TRIAGE child makes it a second one exactly if the failed job has one that is still under way.
  lemma SecondChildIff(s: Sys, p: JobId, tid: JobId, ts: int)
    requires Inv(s) && Enabled(s, MakeTriage(p, tid, ts))
    ensures TwoActive(Step(s, MakeTriage(p, tid, ts)).db, p) <==> exists t <- s.db.jobs :: ActiveFor(s.db.jobs[t], p)
  {
    hide *;
    InvParts(s);
    MakeEffect(s, MakeTriage(p, tid, ts));
    MakeGuard(s, MakeTriage(p, tid, ts));
    ProposesActive(s.db, p, tid, ts);
  }

  lemma ProposesActive(db: Db, p: JobId, tid: JobId, ts: int)
    requires p in db.jobs && tid !in db.jobs
    ensures TwoActive(Proposes(db, TriageJob(db.jobs[p], p, tid, ts)), p) <==> exists t <- db.jobs :: ActiveFor(db.jobs[t], p)
  {
    var b := Proposes(db, TriageJob(db.jobs[p], p, tid, ts));
    assert ActiveFor(b.jobs[tid], p);
    forall t <- db.jobs ensures t != tid && b.jobs[t] == db.jobs[t] {}
    if t :| t in db.jobs && ActiveFor(db.jobs[t], p) { assert t in b.jobs && ActiveFor(b.jobs[t], p); }
    hide ActiveFor;
  }

  // Each case has a live ANALYSIS its CHECK waits for, whose overrides are the case's; it is the only live one exactly
  // when the case was never doubled.
  lemma OneLiveAnalysis(acts: seq<Act>, a: JobId) returns (live: JobId)
    requires var db := Run(INIT, acts).db; a in db.jobs && db.jobs[a].jtype == ANALYSIS
    ensures var db := Run(INIT, acts).db;
      && live in db.jobs && Live(db.jobs[live]) && db.jobs[live].Key() == db.jobs[a].Key() && db.jobs[a].Key().Some?
      && db.jobs[live].payload.CasePayload? && db.jobs[a].payload.CasePayload?
      && db.jobs[live].payload.overrides == db.jobs[a].payload.overrides
      && ((forall b <- db.jobs :: db.jobs[b].Key() == db.jobs[a].Key() && Live(db.jobs[b]) ==> b == live)
          <==> NeverDoubled(acts, db.jobs[a].Key().value))
      && exists c <- db.jobs :: Dep(c, live) in db.deps && db.jobs[c].jtype == CHECK
           && forall d <- db.deps :: d.on == live ==> d.job == c
  {
    hide Run, NeverDoubled, Inv, Struct, ReadyOk, TriageOk, RowsOk, EdgesOk, EdgePairs, Live, Single;
    InvReachable(acts);
    InvParts(Run(INIT, acts));
    live := LiveOne(Run(INIT, acts).db, a);
    OneLiveIff(acts, Run(INIT, acts).db.jobs[a].Key().value);
    SoleLive(Run(INIT, acts).db, live, Run(INIT, acts).db.jobs[a].Key().value);
  }

  lemma LiveOne(db: Db, a: JobId) returns (live: JobId)
    requires Struct(db) && a in db.jobs && db.jobs[a].jtype == ANALYSIS
    ensures live in db.jobs && Live(db.jobs[live]) && db.jobs[live].Key() == db.jobs[a].Key() && db.jobs[a].Key().Some?
    ensures db.jobs[live].payload.CasePayload? && db.jobs[a].payload.CasePayload?
    ensures db.jobs[live].payload.overrides == db.jobs[a].payload.overrides
    ensures exists c <- db.jobs :: Dep(c, live) in db.deps && db.jobs[c].jtype == CHECK && forall d <- db.deps ::
      d.on == live ==> d.job == c
  {
    assert RowOk(db, a);
    live :| live in db.jobs && db.jobs[live].Key() == db.jobs[a].Key() && Live(db.jobs[live]) && IsDependedOn(db, live);
    assert RowOk(db, live);
    var d :| d in db.deps && d.on == live;
    assert EdgeOk(db, d) && d == Dep(d.job, live);
  }

  lemma SoleLive(db: Db, live: JobId, k: CaseKey)
    requires live in db.jobs && LiveOf(db.jobs[live], k)
    ensures Single(db, k) <==> forall b <- db.jobs :: db.jobs[b].Key() == Some(k) && Live(db.jobs[b]) ==> b == live
  {
    forall b <- db.jobs | LiveOf(db.jobs[b], k) && Single(db, k) ensures b == live {}
  }

  // A CHECK made by decompose (not a retry) has one edge, to a live ANALYSIS; no edge leads to a superseded job.
  lemma OneEdgePerCheck(acts: seq<Act>, c: JobId) returns (a: JobId)
    requires var db := Run(INIT, acts).db; c in db.jobs && db.jobs[c].jtype == CHECK && db.jobs[c].parent == None
    ensures var db := Run(INIT, acts).db;
      && a in db.jobs && db.jobs[a].jtype == ANALYSIS && Live(db.jobs[a]) && db.jobs[a].study == db.jobs[c].study
      && forall d <- db.deps :: d.job == c <==> d == Dep(c, a)
  {
    hide Run;
    InvReachable(acts);
    var db := Run(INIT, acts).db;
    assert RowOk(db, c);
    var d :| d in db.deps && d.job == c;
    a := d.on;
    assert EdgeOk(db, d);
    forall e <- db.deps ensures e.job == c <==> e == Dep(c, a) { assert EdgeOk(db, e); }
  }

  lemma NoEdgeAtSuperseded(acts: seq<Act>, d: Dep)
    requires d in Run(INIT, acts).db.deps
    ensures d.on in Run(INIT, acts).db.jobs && Run(INIT, acts).db.jobs[d.on].state != RetrySpawned
  {
    hide Run;
    InvReachable(acts);
    assert EdgeOk(Run(INIT, acts).db, d);
  }

  // A retried CHECK has no edge at all: the one its predecessor had stays with the predecessor, which is superseded.
  lemma RetriedCheckIsBlind(acts: seq<Act>, c: JobId)
    requires var db := Run(INIT, acts).db; c in db.jobs && db.jobs[c].jtype == CHECK && db.jobs[c].parent.Some?
    ensures forall d <- Run(INIT, acts).db.deps :: d.job != c
    ensures IsUpstream(Run(INIT, acts).db, c, None)
  {
    hide Run;
    InvReachable(acts);
    forall d <- Run(INIT, acts).db.deps ensures d.job != c { assert EdgeOk(Run(INIT, acts).db, d); }
  }

  // However often its ANALYSIS is retried, a CHECK stays with the case it was made for.
  lemma {:induction false} CheckKeepsCase(s: Sys, acts: seq<Act>, d: Dep, e: Dep)
    requires Inv(s) && d in s.db.deps && s.db.jobs[d.job].jtype == CHECK
    requires e in Run(s, acts).db.deps && e.job == d.job
    ensures e.on in Run(s, acts).db.jobs && Run(s, acts).db.jobs[e.on].Key() == s.db.jobs[d.on].Key()
  {
    hide Step;
    InvRun(s, acts);
    assert EdgeOk(s.db, d) && EdgeOk(Run(s, acts).db, e);
    if acts != [] {
      var m, a := Run(s, acts[..|acts| - 1]), acts[|acts| - 1];
      InvRun(s, acts[..|acts| - 1]);
      RunKeepsRows(s, acts[..|acts| - 1], d.job);
      var f := EdgeBeforeStep(m, a, e);
      CheckKeepsCase(s, acts[..|acts| - 1], d, f);
    }
  }

  lemma EdgeBeforeStep(m: Sys, a: Act, e: Dep) returns (f: Dep)
    requires Inv(m) && e in Step(m, a).db.deps && e.job in m.db.jobs
    ensures f in m.db.deps && f.job == e.job && f.on in m.db.jobs
    ensures e.on in Step(m, a).db.jobs && Step(m, a).db.jobs[e.on].Key() == m.db.jobs[f.on].Key()
  {
    hide Ops, Exec, NextSeen, Origin;
    if !Enabled(m, a) {
      assert Step(m, a) == m && EdgeOk(m.db, e);
      return e;
    }
    hide Step, Enabled;
    StepSummary(m, a);
    f := EdgeBeforeSummary(m.db, a, Step(m, a).db, e);
  }

  lemma EdgeBeforeSummary(db: Db, a: Act, b: Db, e: Dep) returns (f: Dep)
    requires EdgesOk(db) && RowsStep(db, b) && e in b.deps && e.job in db.jobs
    ensures f in db.deps && f.job == e.job && f.on in db.jobs
    ensures e.on in b.jobs && b.jobs[e.on].Key() == db.jobs[f.on].Key()
  {
    if e in db.deps {
      f := e;
      assert EdgeOk(db, e);
      assert RowStep(db.jobs[e.on], b.jobs[e.on]);
    } else {
      assert OldEdge(db, b, e);
      var p :| Repointed(db, b, e, p);
      f := Dep(e.job, p);
    }
  }

  // No row ever goes away or changes its columns.
  lemma {:induction false} RunKeepsColumns(s: Sys, acts: seq<Act>)
    requires Inv(s)
    ensures forall j <- s.db.jobs :: j in Run(s, acts).db.jobs && SameColumns(s.db.jobs[j], Run(s, acts).db.jobs[j])
  {
    if acts != [] {
      var m, a := Run(s, acts[..|acts| - 1]), acts[|acts| - 1];
      InvRun(s, acts[..|acts| - 1]);
      RunKeepsColumns(s, acts[..|acts| - 1]);
      StepKeepsColumns(m, a);
      hide Step, Enabled, Inv;
    }
  }

  lemma StepKeepsColumns(s: Sys, a: Act)
    requires Inv(s)
    ensures forall j <- s.db.jobs :: j in Step(s, a).db.jobs && SameColumns(s.db.jobs[j], Step(s, a).db.jobs[j])
  {
    hide Ops, Exec, NextSeen, Origin;
    if Enabled(s, a) {
      hide Step, Enabled;
      StepSummary(s, a);
      forall j <- s.db.jobs ensures SameColumns(s.db.jobs[j], Step(s, a).db.jobs[j]) {
        assert RowStep(s.db.jobs[j], Step(s, a).db.jobs[j]);
      }
    }
  }

  lemma {:induction false} RunKeepsRows(s: Sys, acts: seq<Act>, j: JobId)
    requires Inv(s) && j in s.db.jobs
    ensures j in Run(s, acts).db.jobs && Run(s, acts).db.jobs[j].jtype == s.db.jobs[j].jtype
  {
    hide Ops, Exec, NextSeen, Enabled, Inv, Origin;
    if acts != [] {
      var m, a := Run(s, acts[..|acts| - 1]), acts[|acts| - 1];
      InvRun(s, acts[..|acts| - 1]);
      RunKeepsRows(s, acts[..|acts| - 1], j);
      if Enabled(m, a) {
        StepSummary(m, a);
        assert RowStep(m.db.jobs[j], Step(m, a).db.jobs[j]);
      }
    }
  }

  /******* Claims on a stale snapshot *******/

  lemma JudgedEdgesStep(db: Db, b: Db, judged: set<JobId>, j: JobId)
    requires RowsStep(db, b) && j in judged && StillReady(db, j)
    ensures forall d: Dep :: d.job == j ==> (d in db.deps <==> d in b.deps)
  {
    forall d: Dep | d.job == j ensures d in db.deps <==> d in b.deps {
      if d in b.deps { assert OldEdge(db, b, d); }
    }
  }

  // Once some runnable_jobs() call has returned a job, whatever happens before and after its claim, its edges never
  // move, and a CHECK's upstream stays succeeded or judged, a REPORT's upstreams terminal or out of attempts.
  lemma {:induction false} ReadinessSurvives(before: seq<Act>, after: seq<Act>, j: JobId)
    requires j in Run(INIT, before).judged
    ensures j in Run(INIT, before + after).judged && StillReady(Run(INIT, before + after).db, j)
    ensures forall d: Dep :: d.job == j ==> (d in Run(INIT, before).db.deps <==> d in Run(INIT, before + after).db.deps)
  {
    hide Step, Enabled, Struct;
    if after == [] {
      assert before + after == before;
      InvReachable(before);
    } else {
      var init, a := after[..|after| - 1], after[|after| - 1];
      ReadinessSurvives(before, init, j);
      InvReachable(before + init);
      assert (before + init) + [a] == before + after;
      RunPush(INIT, before + init, a);
      var s := Run(INIT, before + init);
      InvStep(s, a);
      JudgedStep(s, a, j);
    }
  }

  lemma JudgedStep(s: Sys, a: Act, j: JobId)
    requires Inv(s) && j in s.judged
    ensures j in Step(s, a).judged && forall d: Dep :: d.job == j ==> (d in s.db.deps <==> d in Step(s, a).db.deps)
  {
    hide Ops, Exec, NextSeen, Origin;
    JudgedOnlyGrows(s, a);
    if !Enabled(s, a) {
      assert Step(s, a) == s;
    } else {
      hide Step, Enabled;
      StepSummary(s, a);
      assert StillReady(s.db, j);
      JudgedEdgesStep(s.db, Step(s, a).db, s.judged, j);
    }
  }

  lemma JudgedOnlyGrows(s: Sys, a: Act)
    ensures s.judged <= Step(s, a).judged
  {
    hide Ops, Exec, NextSeen, Enabled;
  }

  /******* Acyclicity *******/

  lemma {:induction false} SinksConcat(db: Db, a: seq<Op>, b: seq<Op>)
    requires AllToSinks(db, a) && AllToSinks(Exec(db, a), b)
    ensures AllToSinks(db, a + b)
  {
    hide Exec;
    if b == [] {
      assert a + b == a;
    } else {
      assert (a + b)[..|a + b| - 1] == a + b[..|b| - 1];
      SinksConcat(db, a, b[..|b| - 1]);
      ExecConcat(db, a, b[..|b| - 1]);
    }
  }

  lemma {:induction false} NoRepoint(db: Db, ops: seq<Op>)
    requires forall op <- ops :: !op.DoRepoint?
    ensures AllToSinks(db, ops)
  {
    if ops != [] {
      NoRepoint(db, ops[..|ops| - 1]);
    }
  }

  // The one repointing triage makes goes to the job it has just created without dependencies.
  lemma RetryIsSink(db: Db, n: NewJob, p: JobId)
    requires Linked(db) && CreateRefusal(db, n).None? && n.deps == []
    ensures AllToSinks(db, [DoCreateJob(n), DoRepoint(p, n.id)])
  {
    var ops := [DoCreateJob(n), DoRepoint(p, n.id)];
    assert ops[..1] == [DoCreateJob(n)];
    Exec1(db, DoCreateJob(n));
    NoRepoint(db, [DoCreateJob(n)]);
    assert Sink(Apply(db, DoCreateJob(n)), n.id);
  }

  lemma TriageOpsToSinks(db: Db, p: JobId, rid: JobId, warm: Option<RunRef>, logged: bool, ts: int)
    requires Linked(db) && p in db.jobs && rid !in db.jobs
    ensures AllToSinks(db, TriageOps(db, p, rid, warm, logged, ts))
  {
    hide Exec;
    RetryOpsToSinks(db, p, rid, warm, ts);
    var tail := [DoMove(MoveTo(p, TriageDecision(db, p), ts))] + if logged then [DoLogDecision(p, ts)] else [];
    assert TriageOps(db, p, rid, warm, logged, ts) == RetryOps(db, p, rid, warm, ts) + tail;
    hide TriageOps, RetryOps, AllToSinks, Linked, TriageDecision;
    NoRepoint(Exec(db, RetryOps(db, p, rid, warm, ts)), tail);
    SinksConcat(db, RetryOps(db, p, rid, warm, ts), tail);
  }

  lemma RetryOpsToSinks(db: Db, p: JobId, rid: JobId, warm: Option<RunRef>, ts: int)
    requires Linked(db) && p in db.jobs && rid !in db.jobs
    ensures AllToSinks(db, RetryOps(db, p, rid, warm, ts))
  {
    var policy := PolicyOf(db, db.jobs[p].study);
    var n := RetryJob(db.jobs[p], policy, p, rid, warm, ts);
    var head := [DoCreateJob(n), DoRepoint(p, rid)];
    var rest := if AutoRetry(policy, db.jobs[p].attempt) then [Approval(rid, ts)] else [];
    assert CreateRefusal(db, n).None?;
    assert RetryOps(db, p, rid, warm, ts) == if TriageDecision(db, p) == RetrySpawned then head + rest else [];
    hide RetryOps, CreateRefusal, RetryJob, TriageDecision;
    if TriageDecision(db, p) == RetrySpawned {
      RetryIsSink(db, n, p);
      NoRepoint(Exec(db, head), rest);
      SinksConcat(db, head, rest);
    }
  }

  lemma OpsToSinks(s: Sys, a: Act)
    requires Linked(s.db) && Enabled(s, a)
    ensures AllToSinks(s.db, Ops(s, a))
  {
    if a.RunTriage? {
      assert Ops(s, a) == TriageOps(s.db, s.db.jobs[a.j].payload.failedJob, a.rid, a.warm, a.logged, a.ts) && a.rid !in s.db.jobs;
      hide Enabled, Ops, TriageOps, AllToSinks;
      TriageOpsToSinks(s.db, s.db.jobs[a.j].payload.failedJob, a.rid, a.warm, a.logged, a.ts);
    } else if a.HalfTriage? {
      var p := s.db.jobs[a.j].payload.failedJob;
      assert Ops(s, a) == FirstOf(RetryOps(s.db, p, a.rid, a.warm, a.ts), a.cut) && a.rid !in s.db.jobs;
      hide Enabled, Ops, RetryOps, AllToSinks;
      RetryOpsToSinks(s.db, p, a.rid, a.warm, a.ts);
      FirstToSinks(s.db, RetryOps(s.db, p, a.rid, a.warm, a.ts), a.cut);
    } else {
      OnlyTriageRepoints(s, a);
      hide Enabled, Ops, AllToSinks;
      NoRepoint(s.db, Ops(s, a));
    }
  }

  lemma {:induction false} FirstToSinks(db: Db, ops: seq<Op>, n: nat)
    requires AllToSinks(db, ops)
    ensures AllToSinks(db, FirstOf(ops, n))
  {
    hide Exec;
    if n >= |ops| {
      assert FirstOf(ops, n) == ops;
    } else {
      var init := ops[..|ops| - 1];
      FirstToSinks(db, init, n);
      assert FirstOf(ops, n) == FirstOf(init, n);
    }
  }

  lemma OnlyTriageRepoints(s: Sys, a: Act)
    requires Enabled(s, a) && !a.RunTriage? && !a.HalfTriage?
    ensures forall op <- Ops(s, a) :: !op.DoRepoint?
  {
    hide Enabled, SingleMove;
  }

  lemma {:induction false} RunToSinks(acts: seq<Act>) returns (ops: seq<Op>)
    ensures Run(INIT, acts).db == Exec(EMPTY, ops) && AllToSinks(EMPTY, ops)
  {
    hide Ops, Apply, NextSeen;
    if acts == [] {
      ops := [];
    } else {
      var m, a := Run(INIT, acts[..|acts| - 1]), acts[|acts| - 1];
      ops := RunToSinks(acts[..|acts| - 1]);
      if Enabled(m, a) {
        InvReachable(acts[..|acts| - 1]);
        StructIsLinked(m.db);
        OpsToSinks(m, a);
        SinksConcat(EMPTY, ops, Ops(m, a));
        ExecConcat(EMPTY, ops, Ops(m, a));
        ops := ops + Ops(m, a);
      }
    }
  }

  lemma RunIsAcyclic(acts: seq<Act>)
    ensures Acyclic(Run(INIT, acts).db.deps)
  {
    hide Run, AllToSinks, Exec;
    var ops := RunToSinks(acts);
    StaysAcyclic(ops);
  }
}
