/**
 The pull worker: one job from claim to completion, and the poll loop. The executor, the check suite and the report
 builder are outside; what they return is a parameter. Other processes move before and between all of its transactions, so
 the job may be gone when the handler is through: then the completion raises, the except branch tries to fail the job, and
 if that comes too late as well the worker is dead. A whole worker run is a run of the protocol.
 */
module WorkerLoop {
  import opened Wrappers
  import opened Rows
  import opened Substrate
  import opened Protocol
  import opened Effects
  import opened EventLog
  import opened Structure
  import opened History
  import opened Readiness
  import opened Steps
  import opened Lineage
  import opened Leases
  import opened Storage
  import opened Interference
  import opened Phases
  import opened GateLoop
  import opened ControlLoop
  import opened TriageRun
  import opened Control
  import Scheduler
  import Greedy

  // What the code the worker calls out to does with one job: raise, or return
  datatype Outcome = Outcome(raises: bool, ok: bool, permanent: bool, runRef: Option<RunRef>, level: Level)

  /******* Transactions as steps *******/

  // The completions of j and its failure: each is one call of transition() from 'running'.
  predicate Ending(db: Db, a: Act, w: WorkerId, j: JobId) {
    && j in db.jobs && (a.AnalysisDone? || a.Crash? || a.CheckDone? || a.TriageDone? || a.ReportDone?) && a.w == w && a.j == j
    && SingleMove(db, a).Some?
  }

  predicate Is(db: Db, j: JobId, s: JobState) { j in db.jobs && db.jobs[j].state == s }

  lemma EndingRequest(s: Sys, a: Act, w: WorkerId, j: JobId)
    requires Enabled(s, a) && Ending(s.db, a, w, j)
    ensures !Aside(a) && !Composite(a) && !a.Claim? && !Remembers(a)
    ensures var q := SingleMove(s.db, a).value;
      && q.job == j && q.to in {Succeeded, Failed}
      && MoveRefusal(s.db, q) == (if s.db.jobs[j].state == Running then None else Some(StaleState))
  {}

  // It is made exactly if the job is running, and otherwise raises and changes nothing.
  lemma EndingStep(s0: Sys, s: Sys, acts: seq<Act>, a: Act, w: WorkerId, j: JobId)
    requires Ran(s0, s, acts) && Enabled(s, a) && Ending(s.db, a, w, j)
    ensures var q := SingleMove(s.db, a).value; var t := Sys(Move(s.db, q), s.seen, s.judged, s.pending);
      && MoveRefusal(s.db, q) == (if Is(s.db, j, Running) then None else Some(StaleState))
      && Ran(s0, t, acts + [a]) && t == Step(s, a) && t.db.jobs.Keys == s.db.jobs.Keys
      && (Is(s.db, j, Running) ==> Is(t.db, j, q.to)) && (!Is(s.db, j, Running) ==> t.db == s.db)
  {
    hide Progressed, Ran, Step;
    hide Enabled, SingleMove, Inv, Move, MoveRefusal, Run, Ending;
    EndingRequest(s, a, w, j);
    EndingJob(s.db, a, w, j);
    var q := SingleMove(s.db, a).value;
    MoveTurn(s0, s, acts, a, q);
    MoveStep(s, a, q);
    StepFrame(s, a);
    MovedTo(s.db, q);
  }

  lemma EndingJob(db: Db, a: Act, w: WorkerId, j: JobId)
    requires Ending(db, a, w, j)
    ensures j in db.jobs && SingleMove(db, a).Some?
  {}

  lemma MovedTo(db: Db, q: Request)
    requires q.job in db.jobs
    ensures Move(db, q).jobs.Keys == db.jobs.Keys
    ensures if MoveRefusal(db, q).None? then Is(Move(db, q), q.job, q.to) else Move(db, q) == db
  {}

  // Start: only an assigned job starts, and a TRIAGE job that starts is about to be run.
  lemma StartStep(s0: Sys, s: Sys, acts: seq<Act>, w: WorkerId, j: JobId, now: int)
    requires Ran(s0, s, acts) && j in s.db.jobs
    ensures var q, a := Plain(j, Running, Worker(w), Some(Assigned), now).(lease := LeaseUntil(s.db.jobs[j], now)),
      Start(w, j, now);
      var t := Sys(Move(s.db, q), s.seen, s.judged, NextPending(s, a));
      && MoveRefusal(s.db, q) == (if Is(s.db, j, Assigned) then None else Some(StaleState))
      && Ran(s0, t, acts + [a]) && t.db.jobs.Keys == s.db.jobs.Keys && t.db.jobs[j].jtype == s.db.jobs[j].jtype
      && (Is(s.db, j, Assigned) ==> Is(t.db, j, Running) && j in t.judged) && (!Is(s.db, j, Assigned) ==> t == s)
      && NextPending(s, a) == if Is(s.db, j, Assigned)
      && s.db.jobs[j].jtype == TRIAGE then s.pending.(run := s.pending.run + multiset{j}) else s.pending
  {
    hide Inv, Run, Step, Move, MoveRefusal, Enabled, SingleMove;
    var q, a := Plain(j, Running, Worker(w), Some(Assigned), now).(lease := LeaseUntil(s.db.jobs[j], now)), Start(w, j, now);
    WasJudged(s, j);
    StartRequest(s, w, j, now);
    MoveStep(s, a, q);
    OneMore(s0, s, acts, a);
    MovedTo(s.db, q);
    SameType(s.db, q, j);
  }

  lemma StartRequest(s: Sys, w: WorkerId, j: JobId, now: int)
    requires j in s.db.jobs
    ensures var q, a := Plain(j, Running, Worker(w), Some(Assigned), now).(lease := LeaseUntil(s.db.jobs[j], now)),
      Start(w, j, now);
      && Enabled(s, a) && SingleMove(s.db, a) == Some(q)
      && MoveRefusal(s.db, q) == (if Is(s.db, j, Assigned) then None else Some(StaleState))
      && NextPending(s, a) == if Is(s.db, j, Assigned)
      && s.db.jobs[j].jtype == TRIAGE then s.pending.(run := s.pending.run + multiset{j}) else s.pending
  {}

  lemma SameType(db: Db, q: Request, j: JobId)
    requires j in db.jobs
    ensures j in Move(db, q).jobs && Move(db, q).jobs[j].jtype == db.jobs[j].jtype
  {}

  // A job cannot be assigned unless some runnable_jobs() call has returned it.
  lemma WasJudged(s: Sys, j: JobId)
    requires Inv(s)
    ensures Is(s.db, j, Assigned) ==> j in s.judged
  {}

  // What the worker knows of its job whatever the others do: its type, that it was judged ready, what is about to be run
  ghost predicate Mine(s: Sys, j: JobId, jtype: JobType) {
    && j in s.db.jobs && s.db.jobs[j].jtype == jtype && j in s.judged
  }

  lemma {:induction false} MineStays(s: Sys, acts: seq<Act>, j: JobId, jtype: JobType)
    requires Inv(s) && Mine(s, j, jtype)
    ensures Mine(Run(s, acts), j, jtype) && s.pending.ran <= Run(s, acts).pending.ran
  {
    hide Step, Enabled, Inv;
    if acts != [] {
      var m, a := Run(s, acts[..|acts| - 1]), acts[|acts| - 1];
      MineStays(s, acts[..|acts| - 1], j, jtype);
      InvRun(s, acts[..|acts| - 1]);
      StepKeepsColumns(m, a);
      JudgedOnlyGrows(m, a);
      RanOnlyGrows(m, a);
    }
  }

  lemma RanOnlyGrows(s: Sys, a: Act)
    ensures s.pending.ran <= Step(s, a).pending.ran
  {
    hide Ops, Exec, NextSeen, Enabled;
  }

  lemma {:induction false} VerdictStays(s: Sys, acts: seq<Act>, v: VerdictId)
    requires Inv(s) && v in s.db.verdicts
    ensures v in Run(s, acts).db.verdicts && Run(s, acts).db.verdicts[v] == s.db.verdicts[v]
  {
    hide Origin;
    hide Step, Enabled, Inv;
    if acts != [] {
      var m, a := Run(s, acts[..|acts| - 1]), acts[|acts| - 1];
      VerdictStays(s, acts[..|acts| - 1], v);
      InvRun(s, acts[..|acts| - 1]);
      if Enabled(m, a) { StepSummary(m, a); } else { Disabled(m, a); }
    }
  }

  // In the state after the first n steps, j is in state st.
  ghost predicate At(s0: Sys, acts: seq<Act>, n: nat, j: JobId, st: JobState) {
    n <= |acts| && Is(Run(s0, acts[..n]).db, j, st)
  }

  lemma AtPrefix(s0: Sys, s: Sys, acts: seq<Act>, more: seq<Act>, j: JobId, st: JobState)
    requires Ran(s0, s, acts)
    ensures At(s0, acts + more, |acts|, j, st) <==> Is(s.db, j, st)
  {
    hide Run, Inv;
    assert (acts + more)[..|acts|] == acts;
  }

  lemma AtLater(s0: Sys, acts: seq<Act>, more: seq<Act>, n: nat, j: JobId, st: JobState)
    requires n <= |acts|
    ensures At(s0, acts + more, n, j, st) <==> At(s0, acts, n, j, st)
  {
    hide Run;
    assert (acts + more)[..n] == acts[..n];
  }

  // Others move while the worker has j.
  lemma MineMoves(s0: Sys, s: Sys, acts: seq<Act>, more: seq<Act>, j: JobId, jtype: JobType)
    requires Ran(s0, s, acts) && Mine(s, j, jtype)
    ensures Ran(s0, Run(s, more), acts + more) && Mine(Run(s, more), j, jtype) && s.pending.ran <= Run(s, more).pending.ran
  {
    hide Run, Inv;
    hide Mine;
    OthersMove(s0, s, acts, more);
    MineStays(s, more, j, jtype);
  }

  lemma IsJob(s: Sys, j: JobId, jtype: JobType)
    requires Mine(s, j, jtype)
    ensures j in s.db.jobs && s.db.jobs[j].jtype == jtype && j in s.judged
  {}

  /******* Handlers *******/

  // The step a makes the call q.
  ghost predicate Calls(s: Sys, a: Act, q: Request, w: WorkerId, j: JobId) {
    Enabled(s, a) && Ending(s.db, a, w, j) && SingleMove(s.db, a) == Some(q)
  }

  // The last call of a handler, and the call of the except branch
  method Complete(store: Store, w: WorkerId, j: JobId, q: Request, ghost a: Act, ghost s0: Sys, ghost past: seq<Act>)
    returns (raised: bool, ghost acts: seq<Act>)
    requires Ran(s0, store.Sys(), past) && store.Fresh() && Calls(store.Sys(), a, q, w, j)
    modifies store`jobs, store`log
    ensures acts == past + [a] && Ran(s0, store.Sys(), acts) && store.Fresh() && store.Sys() == Step(old(store.Sys()), a)
    ensures (raised <==> !Is(old(store.Db()), j, Running)) && (raised <==> MoveRefusal(old(store.Db()), q).Some?)
    ensures if raised then store.Db() == old(store.Db()) else store.Db() == Move(old(store.Db()), q) && Is(store.Db(), j, q.to)
  {
    hide Run, Inv, Step, Enabled, SingleMove, Move, MoveRefusal, Ending, Ran;
    EndingStep(s0, store.Sys(), past, a, w, j);
    var refusal := store.Transition(q);
    acts, raised := past + [a], refusal.Some?;
  }

  lemma AnalysisCall(s: Sys, w: WorkerId, j: JobId, result: Outcome, now: int)
    requires Mine(s, j, ANALYSIS)
    ensures Calls(s, AnalysisDone(w, j, result.ok, result.permanent, result.runRef, now),
                  Plain(j, if result.ok then Succeeded else Failed, Worker(w), Some(Running),
                    now).(runRef := result.runRef, permanent := !result.ok && result.permanent), w, j)
  {}

  lemma ReportCall(s: Sys, w: WorkerId, j: JobId, now: int)
    requires Mine(s, j, REPORT)
    ensures Calls(s, ReportDone(w, j, now), Plain(j, Succeeded, Worker(w), Some(Running), now), w, j)
  {}

  lemma TriageCall(s: Sys, w: WorkerId, j: JobId, now: int)
    requires Mine(s, j, TRIAGE) && j in s.pending.ran
    ensures Calls(s, TriageDone(w, j, now), Plain(j, Succeeded, Worker(w), Some(Running), now), w, j)
  {}

  lemma CrashCall(s: Sys, w: WorkerId, j: JobId, now: int)
    requires j in s.db.jobs
    ensures Calls(s, Crash(w, j, now), Plain(j, Failed, Worker(w), Some(Running), now), w, j)
  {}

  lemma CheckCall(s: Sys, w: WorkerId, j: JobId, vid: VerdictId, now: int)
    requires Mine(s, j, CHECK) && vid in s.db.verdicts && s.db.verdicts[vid].job == j
    ensures Calls(s, CheckDone(w, j, vid, now),
                  Plain(j, Succeeded, Worker(w), Some(Running), now).(runRef := s.db.verdicts[vid].runRef,
                    verdict := Some(vid)), w, j)
  {}

  method RunAnalysis(store: Store, w: WorkerId, j: JobId, result: Outcome, now: int, ghost s0: Sys, ghost past: seq<Act>)
    returns (raised: bool, ok: bool, ghost acts: seq<Act>)
    requires Ran(s0, store.Sys(), past) && store.Fresh() && Mine(store.Sys(), j, ANALYSIS)
    modifies store`jobs, store`log
    ensures Ran(s0, store.Sys(), acts) && store.Fresh() && ok == result.ok
    ensures acts == past + [AnalysisDone(w, j, result.ok, result.permanent, result.runRef, now)]
    ensures raised <==> !Is(old(store.Db()), j, Running)
    ensures raised ==> store.Db() == old(store.Db())
    ensures !raised ==> Is(store.Db(), j, if ok then Succeeded else Failed) && (result.runRef.Some? ==>
      store.jobs[j].runRef == result.runRef)
  {
    hide Step, Move;
    hide Run, Inv, Calls, Ran, MoveRefusal, Mine;
    AnalysisCall(store.Sys(), w, j, result, now);
    IsJob(store.Sys(), j, ANALYSIS);
    ok := result.ok;
    ghost var a := AnalysisDone(w, j, result.ok, result.permanent, result.runRef, now);
    Referenced(
      store.Db(), Plain(j, if ok then Succeeded else Failed, Worker(w), Some(Running), now).(runRef := result.runRef,
        permanent := !ok && result.permanent));
    if result.ok {
      raised, acts := Complete(store, w, j,
        Plain(j, Succeeded, Worker(w), Some(Running), now).(runRef := result.runRef), a, s0, past);
    } else {
      raised, acts := Complete(
        store, w, j, Plain(j, Failed, Worker(w), Some(Running), now).(runRef := result.runRef,
          permanent := result.permanent), a, s0, past);
    }
  }

  lemma Referenced(db: Db, q: Request)
    requires q.job in db.jobs
    ensures MoveRefusal(db, q).None? ==>
      && (q.runRef.Some? ==> Move(db, q).jobs[q.job].runRef == q.runRef)
      && (q.verdict.Some? ==> Move(db, q).jobs[q.job].verdict == q.verdict)
    ensures Move(db, q).verdicts == db.verdicts
  {}

  method RunReport(store: Store, w: WorkerId, j: JobId, now: int, ghost s0: Sys, ghost past: seq<Act>)
    returns (raised: bool, ghost acts: seq<Act>)
    requires Ran(s0, store.Sys(), past) && store.Fresh() && Mine(store.Sys(), j, REPORT)
    modifies store`jobs, store`log
    ensures Ran(s0, store.Sys(), acts) && store.Fresh() && acts == past + [ReportDone(w, j, now)]
    ensures raised <==> !Is(old(store.Db()), j, Running)
    ensures if raised then store.Db() == old(store.Db()) else Is(store.Db(), j, Succeeded)
  {
    hide Run, Inv, Step, Calls, Move, MoveRefusal, Ran, Mine;
    ReportCall(store.Sys(), w, j, now);
    raised, acts := Complete(store, w, j, Plain(j, Succeeded, Worker(w), Some(Running), now), ReportDone(w, j, now), s0, past);
  }

  lemma VerdictStep(s0: Sys, s: Sys, acts: seq<Act>, w: WorkerId, j: JobId, up: Option<JobId>, vid: VerdictId,
    level: Level, now: int)
    requires Ran(s0, s, acts) && Mine(s, j, CHECK) && IsUpstream(s.db, j, up)
    ensures up.Some? ==> up.value in s.db.jobs
    ensures var a, v := GiveVerdict(w, j, up, vid, level, now),
      Verdict(j, if up.Some? then s.db.jobs[up.value].runRef else None, level);
      var t := Sys(RecordVerdict(s.db, vid, v, Worker(w), now), s.seen, s.judged, s.pending);
      Ran(s0, t, acts + [a]) && Mine(t, j, CHECK)
  {
    hide Inv, Run, Step, Enabled, IsUpstream;
    RanInv(s0, s, acts);
    EdgesHold(s);
    VerdictOps(s, w, j, up, vid, level, now);
    var a := GiveVerdict(w, j, up, vid, level, now);
    OneMore(s0, s, acts, a);
  }

  lemma VerdictOps(s: Sys, w: WorkerId, j: JobId, up: Option<JobId>, vid: VerdictId, level: Level, now: int)
    requires Mine(s, j, CHECK) && IsUpstream(s.db, j, up)
    ensures up.Some? ==> up.value in s.db.jobs
    ensures var a, v := GiveVerdict(w, j, up, vid, level, now),
      Verdict(j, if up.Some? then s.db.jobs[up.value].runRef else None, level);
      Step(s, a) == Sys(RecordVerdict(s.db, vid, v, Worker(w), now), s.seen, s.judged, s.pending)
  {
    hide Enabled, Exec, Ops;
    var a := GiveVerdict(w, j, up, vid, level, now);
    GiveGuard(s, w, j, up, vid, level, now);
    StepFrame(s, a);
    Exec1(s.db, Ops(s, a)[0]);
  }

  lemma GiveGuard(s: Sys, w: WorkerId, j: JobId, up: Option<JobId>, vid: VerdictId, level: Level, now: int)
    requires Mine(s, j, CHECK) && IsUpstream(s.db, j, up) && (up.Some? ==> up.value in s.db.jobs)
    ensures var a, v := GiveVerdict(w, j, up, vid, level, now),
      Verdict(j, if up.Some? then s.db.jobs[up.value].runRef else None, level);
      Enabled(s, a) && Ops(s, a) == [DoRecordVerdict(vid, v, Worker(w), now)]
  {}

  lemma EdgesHold(s: Sys)
    requires Inv(s)
    ensures forall d <- s.db.deps :: d.on in s.db.jobs
  {
    StructIsLinked(s.db);
  }

  // The first transaction of _run_check: the verdict is about the run of the CHECK's upstream as it is read here.
  method Grade(store: Store, w: WorkerId, j: JobId, level: Level, now: int, ghost s0: Sys, ghost past: seq<Act>)
    returns (up: Option<JobId>, vid: VerdictId, ghost acts: seq<Act>)
    requires Ran(s0, store.Sys(), past) && store.Fresh() && Mine(store.Sys(), j, CHECK)
    modifies store`verdicts, store`log, store`nextId
    ensures Ran(s0, store.Sys(), acts) && store.Fresh() && Mine(store.Sys(), j, CHECK)
    ensures acts == past + [GiveVerdict(w, j, up, vid, level, now)]
    ensures up.Some? ==> up.value in store.jobs && Dep(j, up.value) in store.deps
    ensures up.None? ==> forall d <- store.deps :: d.job != j
    ensures vid in store.verdicts
    ensures store.verdicts[vid] == Verdict(j, if up.Some? then store.jobs[up.value].runRef else None, level)
  {
    hide Run, Inv, Step;
    ghost var s := store.Sys();
    EdgesHold(s);
    up := FetchUpstream(store, j);
    var runRef := if up.Some? then store.jobs[up.value].runRef else None;
    VerdictStep(s0, s, past, w, j, up, store.nextId, level, now);
    var refusal;
    vid, refusal := store.NewVerdict(Verdict(j, runRef, level), Worker(w), now);
    acts := past + [GiveVerdict(w, j, up, vid, level, now)];
  }

  // The CHECK carries its verdict exactly if nobody took the job away while the verdict was recorded.
  method RunCheck(store: Store, w: WorkerId, j: JobId, level: Level, later: seq<Act>, now: int, ghost s0: Sys,
    ghost past: seq<Act>)
    returns (raised: bool, up: Option<JobId>, vid: VerdictId, ghost acts: seq<Act>)
    requires Ran(s0, store.Sys(), past) && store.Fresh() && Mine(store.Sys(), j, CHECK)
    modifies store
    ensures Ran(s0, store.Sys(), acts) && store.Fresh()
    ensures acts == past + [GiveVerdict(w, j, up, vid, level, now)] + later + [CheckDone(w, j, vid, now)]
    ensures up.Some? ==> up.value in old(store.jobs) && Dep(j, up.value) in old(store.deps)
    ensures up.None? ==> forall d <- old(store.deps) :: d.job != j
    ensures vid in store.verdicts
    ensures store.verdicts[vid] == Verdict(j, if up.Some? then old(store.jobs)[up.value].runRef else None, level)
    ensures raised <==> !At(s0, acts, |acts| - 1, j, Running)
    ensures !raised ==> Is(store.Db(), j, Succeeded) && store.jobs[j].verdict == Some(vid)
  {
    hide Run, Inv, Calls, MoveRefusal, Ran, Move, Step, Mine, At;
    up, vid, acts := Grade(store, w, j, level, now, s0, past);
    ghost var s := store.Sys();
    MineMoves(s0, s, acts, later, j, CHECK);
    RanInv(s0, s, acts);
    VerdictStays(s, later, vid);
    store.Interfere(later);
    acts := acts + later;
    var runRef := store.verdicts[vid].runRef;
    CheckCall(store.Sys(), w, j, vid, now);
    var q := Plain(j, Succeeded, Worker(w), Some(Running), now).(runRef := runRef, verdict := Some(vid));
    IsJob(store.Sys(), j, CHECK);
    Referenced(store.Db(), q);
    AtPrefix(s0, store.Sys(), acts, [CheckDone(w, j, vid, now)], j, Running);
    raised, acts := Complete(store, w, j, q, CheckDone(w, j, vid, now), s0, acts);
  }

  // The job the TRIAGE job t is for waits in triage.
  predicate Wanted(db: Db, t: JobId) { Triaging(db, t) && db.jobs[db.jobs[t].payload.failedJob].state == Triage }

  function TriageAct(db: Db, w: WorkerId, j: JobId, rid: JobId, warm: Option<RunRef>, now: int): Act {
    if Wanted(db, j) then Act.RunTriage(w, j, rid, warm, true, now) else HalfTriage(w, j, rid, warm, ALL, now)
  }

  function TriagePending(p: Pending, j: JobId, wanted: bool): Pending {
    if wanted then p.(run := p.run - multiset{j}, ran := p.ran + {j}) else p.(run := p.run - multiset{j})
  }

  lemma MayTriage(s: Sys, j: JobId)
    requires Inv(s) && Mine(s, j, TRIAGE)
    ensures Linked(s.db) && Triaging(s.db, j)
  {
    assert RowOk(s.db, j);
    StructIsLinked(s.db);
  }

  lemma TriageMade(s: Sys, w: WorkerId, j: JobId, rid: JobId, warm: Option<RunRef>, now: int)
    requires Linked(s.db) && Triaging(s.db, j) && j in s.pending.run && rid !in s.db.jobs
    ensures var a, p := TriageAct(s.db, w, j, rid, warm, now), s.db.jobs[j].payload.failedJob;
      Step(s, a) == Sys(if Wanted(s.db, j) then AfterTriage(s.db, p, rid, warm, true, now)
        else AfterHalf(s.db, p, rid, warm, ALL, now), s.seen, s.judged,
                        TriagePending(s.pending, j, Wanted(s.db, j)))
  {
    hide Ops, Exec, NextSeen;
    var a := TriageAct(s.db, w, j, rid, warm, now);
    TriageEnabled(s, w, j, rid, warm, now);
    hide Enabled;
    if Wanted(s.db, j) { TriageEffect(s, a); } else { HalfEffect(s, a); }
    hide Step, Linked, AfterTriage, AfterHalf;
    StepFrame(s, a);
    PendingAfter(s, a);
  }

  lemma TriageEnabled(s: Sys, w: WorkerId, j: JobId, rid: JobId, warm: Option<RunRef>, now: int)
    requires Triaging(s.db, j) && j in s.pending.run && rid !in s.db.jobs
    ensures Enabled(s, TriageAct(s.db, w, j, rid, warm, now))
  {}

  lemma PendingAfter(s: Sys, a: Act)
    requires Enabled(s, a) && ((a.RunTriage? && a.logged) || a.HalfTriage?)
    ensures Step(s, a).pending == TriagePending(s.pending, a.j, a.RunTriage?)
  {}

  // run_triage
  method CallTriage(store: Store, w: WorkerId, j: JobId, now: int, ghost s0: Sys, ghost past: seq<Act>)
    returns (raised: bool, rid: JobId, warm: Option<RunRef>, ghost acts: seq<Act>)
    requires Ran(s0, store.Sys(), past) && store.Fresh() && Mine(store.Sys(), j, TRIAGE) && j in store.pending.run
    modifies store
    ensures Ran(s0, store.Sys(), acts) && store.Fresh() && Mine(store.Sys(), j, TRIAGE)
    ensures acts == past + [TriageAct(old(store.Db()), w, j, rid, warm, now)] && (raised <==> !Wanted(old(store.Db()), j))
    ensures !raised ==> j in store.pending.ran
  {
    hide Run, Inv, Ran, Step, Mine, Linked, AfterTriage, AfterHalf, TriageDecision, TriageAct, Wanted;
    ghost var s := store.Sys();
    RanInv(s0, s, past);
    MayTriage(s, j);
    var outcome;
    raised, outcome, rid, warm := RunTriageJob(store, j, now);
    TriageMade(s, w, j, rid, warm, now);
    Waits(s.db, j);
    ghost var a := TriageAct(s.db, w, j, rid, warm, now);
    OneMore(s0, s, past, a);
    MineMoves(s0, s, past, [a], j, TRIAGE);
    RunOne(s, a);
    acts := past + [a];
    store.pending := if raised then store.pending.(run := store.pending.run - multiset{j})
                     else store.pending.(run := store.pending.run - multiset{j}, ran := store.pending.ran + {j});
  }

  // The handler: run_triage, and the completion if it returns. It raises exactly if the failed job was not in triage or this
  // one is gone.
  method RunTriageHandler(store: Store, w: WorkerId, j: JobId, later: seq<Act>, now: int, ghost s0: Sys, ghost past: seq<Act>)
    returns (raised: bool, rid: JobId, warm: Option<RunRef>, ghost acts: seq<Act>)
    requires Ran(s0, store.Sys(), past) && store.Fresh() && Mine(store.Sys(), j, TRIAGE) && j in store.pending.run
    modifies store
    ensures Ran(s0, store.Sys(), acts) && store.Fresh()
    ensures acts == past + [TriageAct(old(store.Db()), w, j, rid, warm, now)] + if Wanted(old(store.Db()), j)
      then later + [TriageDone(w, j, now)] else []
    ensures raised <==> !(Wanted(old(store.Db()), j) && At(s0, acts, |acts| - 1, j, Running))
    ensures !raised ==> Is(store.Db(), j, Succeeded)
  {
    hide Run, Inv, Calls, MoveRefusal, Ran, Move, Step, Mine, At, Wanted, TriageAct;
    ghost var a;
    raised, rid, warm, acts := CallTriage(store, w, j, now, s0, past);
    a := TriageAct(old(store.Db()), w, j, rid, warm, now);
    if raised { return; }
    MineMoves(s0, store.Sys(), acts, later, j, TRIAGE);
    store.Interfere(later);
    TriageCall(store.Sys(), w, j, now);
    AtPrefix(s0, store.Sys(), acts + later, [TriageDone(w, j, now)], j, Running);
    raised, acts := Complete(store, w, j, Plain(j, Succeeded, Worker(w), Some(Running), now), TriageDone(w, j, now), s0,
      acts + later);
    assert past + [a] + later + [TriageDone(w, j, now)] == past + [a] + (later + [TriageDone(w, j, now)]);
  }

  lemma Waits(db: Db, j: JobId)
    requires Triaging(db, j)
    ensures Wanted(db, j) <==> db.jobs[db.jobs[j].payload.failedJob].state == Triage
  {}

  /******* One job *******/

  // What happens to a claimed job: what its handler does, when the worker's transactions are made, and what the other
  // processes do before Start, while the handler works, between its two transactions, and before the except branch's.
  datatype Trip = Trip(
    result: Outcome, delay: seq<Act>, during: seq<Act>, later: seq<Act>, aftermath: seq<Act>, started: int, ended: int,
      failed: int)

  // The handler completed the job; or it raised and the except branch failed the job; or a transition outside of the try
  // raised, and the worker is dead.
  datatype Fate = Completed(ok: bool) | Caught | Died

  // How many steps had been made when the worker tried to start the job, when the handler's own transactions began, when it
  // tried to complete the job, and when the except branch tried to fail it
  datatype Cuts = Cuts(start: nat, work: nat, end: nat, fail: nat)

  // The handler raises whatever becomes of the job: because the code it calls does, or because the job triage is asked for
  // is not in triage.
  predicate RaisesAt(db: Db, jtype: JobType, result: Outcome, j: JobId) {
    jtype == WATCH || (jtype != TRIAGE && result.raises) || (jtype == TRIAGE && !Wanted(db, j))
  }

  ghost predicate Raises(s0: Sys, acts: seq<Act>, work: nat, jtype: JobType, result: Outcome, j: JobId) {
    work <= |acts| && RaisesAt(Run(s0, acts[..work]).db, jtype, result, j)
  }

  // Not a step of this worker that would finish its job
  predicate Foreign(a: Act, j: JobId, trip: Trip) { a in trip.during + trip.later || (a.ts == trip.ended && !Finishes(a, j)) }

  ghost predicate Handled(
    s0: Sys, s: Sys, acts: seq<Act>, past: seq<Act>, work: nat, end: nat, ok: Option<bool>, j: JobId, jtype: JobType,
      trip: Trip) {
    && Ran(s0, s, acts) && past <= acts && |past| <= work <= end <= |acts|
    && (ok.Some? <==> !Raises(s0, acts, work, jtype, trip.result, j) && At(s0, acts, end, j, Running))
    && (ok.Some? ==> Is(s.db, j, if ok.value then Succeeded else Failed) && (ok.value <==>
      (jtype == ANALYSIS ==> trip.result.ok)))
    && (Raises(s0, acts, work, jtype, trip.result, j) ==> end == |acts|)
    && forall i :: |past| <= i < end ==> Foreign(acts[i], j, trip)
  }

  lemma CutAt(s0: Sys, b: Sys, base: seq<Act>, more: seq<Act>, j: JobId, jtype: JobType, result: Outcome)
    requires Ran(s0, b, base)
    ensures Raises(s0, base + more, |base|, jtype, result, j) <==> RaisesAt(b.db, jtype, result, j)
  {
    hide Run, Inv;
    assert (base + more)[..|base|] == base;
  }

  lemma ForeignParts(past: seq<Act>, base: seq<Act>, mid: seq<Act>, more: seq<Act>, j: JobId, trip: Trip)
    requires past <= base && (forall i :: |past| <= i < |base| ==> Foreign(base[i], j, trip))
    requires forall a <- mid :: Foreign(a, j, trip)
    ensures past <= base + mid + more && forall i :: |past| <= i < |base + mid| ==> Foreign((base + mid + more)[i], j, trip)
  {
    forall i | |past| <= i < |base + mid| ensures Foreign((base + mid + more)[i], j, trip) {
      assert (base + mid + more)[i] == if i < |base| then base[i] else mid[i - |base|];
    }
  }

  // The handler came to its completion a, in state m.
  lemma HandledDone(
    s0: Sys, b: Sys, m: Sys, t: Sys, past: seq<Act>, base: seq<Act>, mid: seq<Act>, a: Act, raised: bool, ok: bool,
      j: JobId, jtype: JobType, trip: Trip)
    requires Ran(s0, b, base) && Ran(s0, m, base + mid) && Ran(s0, t, base + mid + [a])
    requires past <= base && (forall i :: |past| <= i < |base| ==> Foreign(base[i], j, trip))
    requires forall x <- mid :: Foreign(x, j, trip)
    requires (raised <==> !Is(m.db, j, Running)) && (!raised ==> Is(t.db, j, if ok then Succeeded else Failed))
    requires !RaisesAt(b.db, jtype, trip.result, j) && (ok <==> (jtype == ANALYSIS ==> trip.result.ok))
    ensures Handled(s0, t, base + mid + [a], past, |base|, |base + mid|, if raised then None else Some(ok), j, jtype, trip)
  {
    hide Run;
    hide RaisesAt, Foreign, Inv;
    CutAt(s0, b, base, mid + [a], j, jtype, trip.result);
    assert base + (mid + [a]) == base + mid + [a];
    AtPrefix(s0, m, base + mid, [a], j, Running);
    ForeignParts(past, base, mid, [a], j, trip);
    hide Raises, At, Ran;
  }

  // The handler raised before it came to that.
  lemma HandledRaise(s0: Sys, b: Sys, t: Sys, past: seq<Act>, base: seq<Act>, mid: seq<Act>, j: JobId, jtype: JobType, trip: Trip)
    requires Ran(s0, b, base) && Ran(s0, t, base + mid) && RaisesAt(b.db, jtype, trip.result, j)
    requires past <= base && (forall i :: |past| <= i < |base| ==> Foreign(base[i], j, trip))
    requires forall x <- mid :: Foreign(x, j, trip)
    ensures Handled(s0, t, base + mid, past, |base|, |base + mid|, None, j, jtype, trip)
  {
    hide Run;
    hide RaisesAt, Foreign, Inv;
    CutAt(s0, b, base, mid, j, jtype, trip.result);
    ForeignParts(past, base, mid, [], j, trip);
    assert base + mid + [] == base + mid;
    hide Raises, At, Ran;
  }

  lemma OwnIsForeign(w: WorkerId, j: JobId, up: Option<JobId>, vid: VerdictId, level: Level, rid: JobId,
    warm: Option<RunRef>, db: Db, trip: Trip)
    ensures Foreign(GiveVerdict(w, j, up, vid, level, trip.ended), j, trip)
    ensures Foreign(TriageAct(db, w, j, rid, warm, trip.ended), j, trip)
    ensures forall a <- trip.later :: Foreign(a, j, trip)
  {}

  // The body of the try statement; None is a raise.
  method Handle(store: Store, w: WorkerId, j: JobId, jtype: JobType, trip: Trip, ghost s0: Sys, ghost past: seq<Act>,
    ghost base: seq<Act>)
    returns (ok: Option<bool>, ghost acts: seq<Act>, ghost work: nat, ghost end: nat)
    requires Ran(s0, store.Sys(), base) && store.Fresh() && Mine(store.Sys(), j, jtype)
    requires jtype == TRIAGE ==> j in store.pending.run
    requires Inv(s0) && past <= base && forall i :: |past| <= i < |base| ==> Foreign(base[i], j, trip)
    modifies store
    ensures store.Fresh() && Handled(s0, store.Sys(), acts, past, work, end, ok, j, jtype, trip)
  {
    hide Run, Inv, Ran, Move, Step, Mine, At, Wanted, Foreign, Handled;
    ghost var b := store.Sys();
    work := |base|;
    if jtype == WATCH || (jtype != TRIAGE && trip.result.raises) {
      assert base + [] == base;
      HandledRaise(s0, b, b, past, base, [], j, jtype, trip);
      ok, acts, end := None, base, |base|;
    } else if jtype == ANALYSIS {
      var raised, success;
      raised, success, acts := RunAnalysis(store, w, j, trip.result, trip.ended, s0, base);
      assert base + [] == base;
      HandledDone(s0, b, b, store.Sys(), past, base, [], acts[|base|], raised, success, j, jtype, trip);
      ok, end := if raised then None else Some(success), |base|;
    } else if jtype == CHECK {
      ok, acts, end := HandleCheck(store, w, j, trip, s0, past, base);
    } else if jtype == TRIAGE {
      ok, acts, end := HandleTriage(store, w, j, trip, s0, past, base);
    } else {
      var raised;
      raised, acts := RunReport(store, w, j, trip.ended, s0, base);
      assert base + [] == base;
      HandledDone(s0, b, b, store.Sys(), past, base, [], acts[|base|], raised, true, j, jtype, trip);
      ok, end := if raised then None else Some(true), |base|;
    }
  }

  method HandleCheck(store: Store, w: WorkerId, j: JobId, trip: Trip, ghost s0: Sys, ghost past: seq<Act>, ghost base: seq<Act>)
    returns (ok: Option<bool>, ghost acts: seq<Act>, ghost end: nat)
    requires Ran(s0, store.Sys(), base) && store.Fresh() && Mine(store.Sys(), j, CHECK) && !trip.result.raises
    requires Inv(s0) && past <= base && forall i :: |past| <= i < |base| ==> Foreign(base[i], j, trip)
    modifies store
    ensures store.Fresh() && Handled(s0, store.Sys(), acts, past, |base|, end, ok, j, CHECK, trip)
  {
    hide Run, Inv, Ran, Move, Step, Mine, At, Wanted, Foreign, Handled;
    ghost var b := store.Sys();
    var raised, up, vid;
    raised, up, vid, acts := RunCheck(store, w, j, trip.result.level, trip.later, trip.ended, s0, base);
    ghost var mid := [GiveVerdict(w, j, up, vid, trip.result.level, trip.ended)] + trip.later;
    assert acts == base + mid + [CheckDone(w, j, vid, trip.ended)];
    OwnIsForeign(w, j, up, vid, trip.result.level, 0, None, b.db, trip);
    ghost var m := RanBefore(s0, store.Sys(), base + mid, CheckDone(w, j, vid, trip.ended), j);
    HandledDone(s0, b, m, store.Sys(), past, base, mid, CheckDone(w, j, vid, trip.ended), raised, true, j, CHECK, trip);
    ok, end := if raised then None else Some(true), |base + mid|;
  }

  lemma RanBefore(s0: Sys, t: Sys, acts: seq<Act>, a: Act, j: JobId) returns (m: Sys)
    requires Ran(s0, t, acts + [a]) && Inv(s0)
    ensures Ran(s0, m, acts) && (At(s0, acts + [a], |acts|, j, Running) <==> Is(m.db, j, Running))
  {
    hide Run;
    m := Run(s0, acts);
    InvRun(s0, acts);
    AtPrefix(s0, m, acts, [a], j, Running);
  }

  method HandleTriage(store: Store, w: WorkerId, j: JobId, trip: Trip, ghost s0: Sys, ghost past: seq<Act>, ghost base: seq<Act>)
    returns (ok: Option<bool>, ghost acts: seq<Act>, ghost end: nat)
    requires Ran(s0, store.Sys(), base) && store.Fresh() && Mine(store.Sys(), j, TRIAGE) && j in store.pending.run
    requires Inv(s0) && past <= base && forall i :: |past| <= i < |base| ==> Foreign(base[i], j, trip)
    modifies store
    ensures store.Fresh() && Handled(s0, store.Sys(), acts, past, |base|, end, ok, j, TRIAGE, trip)
  {
    hide Run, Inv, Ran, Move, Step, Mine, At, Wanted, Foreign, Handled;
    ghost var b := store.Sys();
    var raised, rid, warm;
    raised, rid, warm, acts := RunTriageHandler(store, w, j, trip.later, trip.ended, s0, base);
    ghost var a := TriageAct(b.db, w, j, rid, warm, trip.ended);
    OwnIsForeign(w, j, None, 0, Pass, rid, warm, b.db, trip);
    if Wanted(b.db, j) {
      ghost var mid := [a] + trip.later;
      assert acts == base + mid + [TriageDone(w, j, trip.ended)];
      ghost var m := RanBefore(s0, store.Sys(), base + mid, TriageDone(w, j, trip.ended), j);
      HandledDone(s0, b, m, store.Sys(), past, base, mid, TriageDone(w, j, trip.ended), raised, true, j, TRIAGE, trip);
      end := |base + mid|;
    } else {
      assert acts == base + [a];
      HandledRaise(s0, b, store.Sys(), past, base, [a], j, TRIAGE, trip);
      end := |acts|;
    }
    ok := if raised then None else Some(true);
  }

  lemma ReapMoves(s: Sys, j: JobId, exhausted: bool, now: int)
    requires Enabled(s, Reap(j, true, exhausted, now)) && Is(s.db, j, Running)
    ensures Is(Step(s, Reap(j, true, exhausted, now)).db, j, if exhausted then Failed else Queued)
  {
    hide Ops, Apply, NextSeen, Enabled;
    MoveEffect(s, Reap(j, true, exhausted, now));
    hide Step;
  }

  // If the reaper is first, neither the completion nor the except branch's transition is accepted any more, whoever makes it.
  lemma ReaperWins(s: Sys, j: JobId, exhausted: bool, now: int)
    requires Enabled(s, Reap(j, true, exhausted, now)) && Is(s.db, j, Running)
    ensures var t := Step(s, Reap(j, true, exhausted, now));
      && j in t.db.jobs && t.db.jobs[j].state == (if exhausted then Failed else Queued)
      && forall a, w :: Enabled(t, a) && Ending(t.db, a, w, j) ==>
        MoveRefusal(t.db, SingleMove(t.db, a).value) == Some(StaleState)
  {
    var t := Step(s, Reap(j, true, exhausted, now));
    hide Step, Enabled, SingleMove, MoveRefusal, Move;
    ReapMoves(s, j, exhausted, now);
    forall a, w | Enabled(t, a) && Ending(t.db, a, w, j)
      ensures MoveRefusal(t.db, SingleMove(t.db, a).value) == Some(StaleState)
    {
      EndingRequest(t, a, w, j);
    }
  }

  /******* _process and run *******/

  datatype WorkerStats = WorkerStats(claimed: nat, succeeded: nat, failed: nat)

  /******* What becomes of it *******/

  ghost predicate Fated(s0: Sys, s: Sys, acts: seq<Act>, cuts: Cuts, fate: Fate, w: WorkerId, j: JobId, jtype: JobType,
    trip: Trip) {
    var started := At(s0, acts, cuts.start, j, Assigned);
    var done := started && !Raises(s0, acts, cuts.work, jtype, trip.result, j) && At(s0, acts, cuts.end, j, Running);
    && cuts.start == |trip.delay| && trip.delay + [Start(w, j, trip.started)] <= acts
    && cuts.start < cuts.work <= cuts.end <= cuts.fail <= |acts|
    && (fate.Completed? <==> done)
    && (fate == Caught <==> started && !done && At(s0, acts, cuts.fail, j, Running))
    && (fate.Completed? ==> Is(s.db, j, if fate.ok then Succeeded else Failed) && (fate.ok <==>
      (jtype == ANALYSIS ==> trip.result.ok)))
    && (fate == Caught ==> Is(s.db, j, Failed))
  }

  // Everything that happens after Start happens within the lease Start takes, and nobody else finishes the job.
  predicate InTime(trip: Trip, j: JobId, lease: int) {
    && (forall a <- trip.during + trip.later + trip.aftermath :: trip.started <= a.ts <= trip.started + lease && !Finishes(a, j))
    && trip.started <= trip.ended <= trip.started + lease
  }

  lemma DiedAtStart(s0: Sys, s: Sys, w: WorkerId, j: JobId, jtype: JobType, trip: Trip)
    requires !At(s0, trip.delay + [Start(w, j, trip.started)], |trip.delay|, j, Assigned)
    ensures var acts := trip.delay + [Start(w, j, trip.started)];
      Fated(s0, s, acts, Cuts(|trip.delay|, |acts|, |acts|, |acts|), Died, w, j, jtype, trip)
  {
    hide At, Raises;
  }

  lemma Delayed(s0: Sys, delay: seq<Act>, j: JobId)
    requires Inv(s0) && j in s0.db.jobs
    ensures Ran(s0, Run(s0, delay), delay) && j in Run(s0, delay).db.jobs && SameColumns(s0.db.jobs[j], Run(s0, delay).db.jobs[j])
  {
    hide Run;
    InvRun(s0, delay);
    RunKeepsColumns(s0, delay);
  }

  // What Start leaves
  lemma StartLeases(s: Sys, w: WorkerId, j: JobId, now: int)
    requires Is(s.db, j, Assigned)
    ensures var q := Plain(j, Running, Worker(w), Some(Assigned), now).(lease := LeaseUntil(s.db.jobs[j], now));
      Since(Move(s.db, q), j, now) && Runs(Move(s.db, q), j) && Move(s.db, q).jobs[j].resource == s.db.jobs[j].resource
  {}

  lemma StartFinds(s: Sys, t: Sys, j: JobId)
    requires t.pending.reap == s.pending.reap
    ensures FoundRunning(t, j) <==> FoundRunning(s, j)
  {}

  // Steps that are in time leave the job running, unless a reaper holds an older finding of it.
  lemma InTimeRuns(s0: Sys, past: seq<Act>, acts: seq<Act>, n: nat, j: JobId, u: int)
    requires Inv(s0) && past <= acts && |past| <= n <= |acts|
    requires !FoundRunning(Run(s0, past), j)
    requires var db := Run(s0, past).db; Since(db, j, u) && Runs(db, j) && forall i :: |past| <= i < n ==>
      u <= acts[i].ts <= u + LeaseDuration(db.jobs[j].resource) && !Finishes(acts[i], j)
    ensures At(s0, acts, n, j, Running)
  {
    hide Run;
    hide Inv, Step, Finishes, Since, FoundRunning;
    InvRun(s0, past);
    var more := acts[|past|..n];
    assert past + more == acts[..n];
    RunConcat(s0, past, more);
    forall a <- more ensures u <= a.ts <= u + LeaseDuration(Run(s0, past).db.jobs[j].resource) && !Finishes(a, j) {
      var i :| 0 <= i < |more| && more[i] == a;
      assert a == acts[|past| + i];
    }
    StillRunning(Run(s0, past), more, j, u);
  }

  // A trip in time: the handler is not interrupted, and if it raises the except branch is in time too.
  lemma InTimeHandled(
    s0: Sys, s: Sys, past: seq<Act>, acts: seq<Act>, work: nat, end: nat, ok: Option<bool>, j: JobId, jtype: JobType,
      trip: Trip, lease: int)
    requires Inv(s0) && Handled(s0, s, acts, past, work, end, ok, j, jtype, trip) && InTime(trip, j, lease)
    requires !FoundRunning(Run(s0, past), j)
    requires var db := Run(s0, past).db; Since(db, j, trip.started) && Runs(db, j) && LeaseDuration(db.jobs[j].resource) == lease
    ensures ok.None? <==> Raises(s0, acts, work, jtype, trip.result, j)
    ensures ok.None? ==> At(s0, acts + trip.aftermath, |acts + trip.aftermath|, j, Running)
  {
    hide Inv, Run, Finishes, Since, Raises, Ran, FoundRunning;
    forall i | |past| <= i < end
      ensures trip.started <= acts[i].ts <= trip.started + lease && !Finishes(acts[i], j)
    {
      assert Foreign(acts[i], j, trip);
    }
    InTimeRuns(s0, past, acts, end, j, trip.started);
    var all := acts + trip.aftermath;
    if ok.None? {
      forall i | |past| <= i < |all| ensures trip.started <= all[i].ts <= trip.started + lease && !Finishes(all[i], j) {
        assert all[i] == if i < |acts| then acts[i] else trip.aftermath[i - |acts|];
      }
      InTimeRuns(s0, past, all, |all|, j, trip.started);
    }
  }

  lemma EndsWell(
    s0: Sys, s: Sys, past: seq<Act>, acts: seq<Act>, work: nat, end: nat, ok: bool, w: WorkerId, j: JobId,
      jtype: JobType, trip: Trip)
    requires past == trip.delay + [Start(w, j, trip.started)] && At(s0, past, |trip.delay|, j, Assigned)
    requires Handled(s0, s, acts, past, work, end, Some(ok), j, jtype, trip)
    ensures Fated(s0, s, acts, Cuts(|trip.delay|, work, end, |acts|), Completed(ok), w, j, jtype, trip)
    ensures At(s0, acts, |trip.delay|, j, Assigned)
  {
    hide Raises, Ran, Foreign, At;
    var tail := acts[|past|..];
    assert acts == past + tail;
    AtLater(s0, past, tail, |trip.delay|, j, Assigned);
  }

  // The handler has raised, and the except branch has made its attempt.
  lemma EndsBadly(
    s0: Sys, s: Sys, t: Sys, past: seq<Act>, acts: seq<Act>, work: nat, end: nat, w: WorkerId, j: JobId, jtype: JobType,
      trip: Trip,
    more: seq<Act>, a: Act, fate: Fate)
    requires past == trip.delay + [Start(w, j, trip.started)] && At(s0, past, |trip.delay|, j, Assigned)
    requires Handled(s0, s, acts, past, work, end, None, j, jtype, trip)
    requires fate == (if At(s0, acts + more + [a], |acts + more|, j, Running) then Caught else Died)
    requires fate == Caught ==> Is(t.db, j, Failed)
    ensures Fated(s0, t, acts + more + [a], Cuts(|trip.delay|, work, end, |acts + more|), fate, w, j, jtype, trip)
    ensures Raises(s0, acts + more + [a], work, jtype, trip.result, j) <==> Raises(s0, acts, work, jtype, trip.result, j)
    ensures At(s0, acts + more + [a], |trip.delay|, j, Assigned)
  {
    hide Ran, Foreign, At, Raises;
    var tail := acts[|past|..];
    assert acts == past + tail && acts + (more + [a]) == acts + more + [a];
    AtLater(s0, past, tail, |trip.delay|, j, Assigned);
    AtLater(s0, acts, more + [a], |trip.delay|, j, Assigned);
    AtLater(s0, acts, more + [a], end, j, Running);
    RaisesLater(s0, acts, more + [a], work, jtype, trip.result, j);
  }

  lemma RaisesLater(s0: Sys, acts: seq<Act>, more: seq<Act>, work: nat, jtype: JobType, result: Outcome, j: JobId)
    requires work <= |acts|
    ensures Raises(s0, acts + more, work, jtype, result, j) <==> Raises(s0, acts, work, jtype, result, j)
  {
    hide Run;
    assert (acts + more)[..work] == acts[..work];
  }

  lemma JobStays(s0: Sys, s: Sys, acts: seq<Act>, more: seq<Act>, j: JobId)
    requires Ran(s0, s, acts) && j in s.db.jobs
    ensures Ran(s0, Run(s, more), acts + more) && j in Run(s, more).db.jobs
  {
    hide Run;
    OthersMove(s0, s, acts, more);
    RunKeepsColumns(s, more);
  }

  lemma RunsSmall(s: Sys, j: JobId, jtype: JobType)
    requires Mine(s, j, jtype) && (jtype == TRIAGE ==> j in s.pending.run)
    ensures multiset{} <= s.pending.make && (if jtype == TRIAGE then multiset{j} else multiset{}) <= s.pending.run
    ensures j in s.db.jobs
  {}

  lemma AllForeign(past: seq<Act>, moved: seq<Act>, j: JobId, trip: Trip)
    requires forall a <- moved :: a in trip.during
    ensures past <= past + moved && forall i :: |past| <= i < |past + moved| ==> Foreign((past + moved)[i], j, trip)
  {
    forall i | |past| <= i < |past + moved| ensures Foreign((past + moved)[i], j, trip) {
      assert (past + moved)[i] == moved[i - |past|] && moved[i - |past|] in moved;
    }
  }

  lemma RanIs(s0: Sys, s: Sys, acts: seq<Act>)
    requires Ran(s0, s, acts)
    ensures s == Run(s0, acts)
  {
    hide Run, Inv;
  }

  lemma HandledRan(
    s0: Sys, s: Sys, acts: seq<Act>, past: seq<Act>, work: nat, end: nat, ok: Option<bool>, j: JobId, jtype: JobType, trip: Trip)
    requires Handled(s0, s, acts, past, work, end, ok, j, jtype, trip) && Inv(s0) && j in Run(s0, past).db.jobs
    ensures Ran(s0, s, acts) && j in s.db.jobs
  {
    hide Run, Inv;
    hide Raises, At, Foreign;
    InvRun(s0, past);
    RunConcat(s0, past, acts[|past|..]);
    assert acts == past + acts[|past|..];
    RunKeepsColumns(Run(s0, past), acts[|past|..]);
  }

  function Counted(stats: WorkerStats, fate: Fate, started: bool): WorkerStats {
    if fate == Completed(true) then stats.(succeeded := stats.succeeded + 1)
    else if started then stats.(failed := stats.failed + 1)
    else stats
  }

  class PullWorker {
    const id: WorkerId
    const solvers: set<string>
    const memMb: Option<int>
    const capacity: int
    const runTicks: bool
    var stats: WorkerStats

    constructor (id: WorkerId, solvers: set<string>, memMb: Option<int>, capacity: int, runTicks: bool)
      ensures this.id == id && this.solvers == solvers && this.memMb == memMb && this.capacity == capacity
      ensures this.runTicks == runTicks
      ensures stats == WorkerStats(0, 0, 0)
    {
      this.id, this.solvers, this.memMb, this.capacity, this.runTicks := id, solvers, memMb, capacity, runTicks;
      stats := WorkerStats(0, 0, 0);
    }

    // The except branch: its transition is not in a try.
    method Except(store: Store, j: JobId, trip: Trip, ghost s0: Sys, ghost past: seq<Act>)
      returns (fate: Fate, ghost acts: seq<Act>)
      requires Ran(s0, store.Sys(), past) && j in store.jobs
      modifies store
      ensures Ran(s0, store.Sys(), acts) && store.Fresh() && acts == past + trip.aftermath + [Crash(id, j, trip.failed)]
      ensures fate == if At(s0, acts, |past + trip.aftermath|, j, Running) then Caught else Died
      ensures fate == Caught ==> Is(store.Db(), j, Failed)
    {
      hide Run, Inv, Ran, Move, MoveRefusal, Step, At, Calls;
      JobStays(s0, store.Sys(), past, trip.aftermath, j);
      store.Interfere(trip.aftermath);
      CrashCall(store.Sys(), id, j, trip.failed);
      AtPrefix(s0, store.Sys(), past + trip.aftermath, [Crash(id, j, trip.failed)], j, Running);
      var raised;
      raised, acts := Complete(
        store, id, j, Plain(j, Failed, Worker(id), Some(Running), trip.failed), Crash(id, j, trip.failed), s0,
          past + trip.aftermath);
      fate := if raised then Died else Caught;
    }

    // The try statement and its except branch
    method Carry(store: Store, j: JobId, jtype: JobType, trip: Trip, ghost s0: Sys, ghost past: seq<Act>)
      returns (fate: Fate, ghost acts: seq<Act>, ghost cuts: Cuts)
      requires Inv(s0) && Ran(s0, store.Sys(), past) && store.Fresh() && Mine(store.Sys(), j, jtype)
      requires jtype == TRIAGE ==> j in store.pending.run
      requires past == trip.delay + [Start(id, j, trip.started)] && At(s0, past, |trip.delay|, j, Assigned)
      requires Since(store.Db(), j, trip.started) && Runs(store.Db(), j)
      modifies this, store
      ensures Ran(s0, store.Sys(), acts) && store.Fresh() && Fated(s0, store.Sys(), acts, cuts, fate, id, j, jtype, trip)
      ensures At(s0, acts, cuts.start, j, Assigned)
      ensures InTime(trip, j, LeaseDuration(old(store.jobs)[j].resource)) && !FoundRunning(old(store.Sys()), j) ==>
        if Raises(s0, acts, cuts.work, jtype, trip.result, j) then fate == Caught else fate.Completed?
      ensures stats == Counted(old(stats), fate, true)
    {
      hide Run, Inv, Ran, Move, MoveRefusal, Step, Mine, At, Foreign, Handled, Raises, Fated, InTime, Wanted, Since;
      hide Runs, Calls, FoundRunning;
      ghost var s := store.Sys();
      RunsSmall(s, j, jtype);
      ghost var lease := LeaseDuration(store.jobs[j].resource);
      ghost var moved := store.InterfereSparing(trip.during,
        NOTHING.(run := if jtype == TRIAGE then multiset{j} else multiset{}));
      MineMoves(s0, s, past, moved, j, jtype);
      AllForeign(past, moved, j, trip);
      var ok;
      ghost var work, end;
      ok, acts, work, end := Handle(store, id, j, jtype, trip, s0, past, past + moved);
      ghost var handled := store.Sys();
      RanIs(s0, s, past);
      if InTime(trip, j, lease) && !FoundRunning(s, j) {
        InTimeHandled(s0, handled, past, acts, work, end, ok, j, jtype, trip, lease);
      }
      HandledRan(s0, handled, acts, past, work, end, ok, j, jtype, trip);
      if ok.Some? {
        EndsWell(s0, handled, past, acts, work, end, ok.value, id, j, jtype, trip);
        stats := if ok.value then stats.(succeeded := stats.succeeded + 1) else stats.(failed := stats.failed + 1);
        return Completed(ok.value), acts, Cuts(|trip.delay|, work, end, |acts|);
      }
      stats := stats.(failed := stats.failed + 1);
      ghost var tried := acts;
      fate, acts := Except(store, j, trip, s0, acts);
      EndsBadly(s0, handled, store.Sys(), past, tried, work, end, id, j, jtype, trip, trip.aftermath,
        Crash(id, j, trip.failed), fate);
      AtLater(s0, tried + trip.aftermath, [Crash(id, j, trip.failed)], |tried + trip.aftermath|, j, Running);
      cuts := Cuts(|trip.delay|, work, end, |tried + trip.aftermath|);
    }

    // A claimed job, to its end. The two transitions outside of the try are the worker's death if they come too late.
    method Process(store: Store, j: JobId, trip: Trip) returns (fate: Fate, ghost acts: seq<Act>, ghost cuts: Cuts)
      requires Inv(store.Sys()) && store.Fresh() && j in store.jobs
      modifies this, store
      ensures Ran(old(store.Sys()), store.Sys(), acts) && store.Fresh()
      ensures Fated(old(store.Sys()), store.Sys(), acts, cuts, fate, id, j, old(store.jobs)[j].jtype, trip)
      ensures At(old(store.Sys()), acts, cuts.start, j, Assigned) && InTime(trip, j, LeaseDuration(old(store.jobs)[j].resource))
              && !FoundRunning(Run(old(store.Sys()), trip.delay), j) ==>
        if Raises(old(store.Sys()), acts, cuts.work, old(store.jobs)[j].jtype, trip.result, j) then fate == Caught
          else fate.Completed?
      ensures stats == Counted(old(stats), fate, At(old(store.Sys()), acts, cuts.start, j, Assigned))
    {
      hide Run, Inv, Ran, Move, MoveRefusal, Step, At, Foreign, Handled, Raises, Fated, InTime, Wanted, Since, Runs, FoundRunning;
      ghost var s0 := store.Sys();
      var jtype := store.jobs[j].jtype;
      Delayed(s0, trip.delay, j);
      store.Interfere(trip.delay);
      ghost var s := store.Sys();
      StartStep(s0, s, trip.delay, id, j, trip.started);
      AtPrefix(s0, s, trip.delay, [Start(id, j, trip.started)], j, Assigned);
      var refusal := store.Transition(
        Plain(j, Running, Worker(id), Some(Assigned),
          trip.started).(lease := Some(trip.started + LeaseDuration(store.jobs[j].resource))));
      acts := trip.delay + [Start(id, j, trip.started)];
      if refusal.Some? {
        DiedAtStart(s0, store.Sys(), id, j, jtype, trip);
        return Died, acts, Cuts(|trip.delay|, |acts|, |acts|, |acts|);
      }
      if jtype == TRIAGE { store.pending := store.pending.(run := store.pending.run + multiset{j}); }
      StartLeases(s, id, j, trip.started);
      StartFinds(s, store.Sys(), j);
      fate, acts, cuts := Carry(store, j, jtype, trip, s0, acts);
    }

    // One turn of the poll loop per element of `polls`; the stop event is set after the last one. Whatever the others do in
    // between, the worker runs on unless one of its jobs is not done in time, or was already on a reaper's list when it started.
    method WorkLoop(store: Store, polls: seq<Poll>, maxIdle: Option<int>, maxJobs: Option<int>, started: int)
      returns (alive: bool, ghost acts: seq<Act>, ghost last: Option<Last>, ghost turns: seq<Turn>)
      requires Inv(store.Sys()) && store.Fresh() && Polite(polls, id)
      modifies this, store
      ensures Ran(old(store.Sys()), store.Sys(), acts) && store.Fresh()
      ensures acts != [] && acts[0] == Act.Register(id, solvers, memMb, capacity, started)
      ensures Turned(old(store.Sys()), acts, polls, turns, id, runTicks) && stats == Tally(old(stats), turns)
      ensures forall n :: 0 <= n < |turns| ==> !Stops(turns[..n], old(stats.claimed), maxIdle, maxJobs)
      ensures alive ==> EndOf(turns) == |acts| && (|turns| == |polls| || Stops(turns, old(stats.claimed), maxIdle, maxJobs))
      ensures Accounted(old(stats), stats, |polls|, alive)
      ensures maxJobs.Some? && old(stats.claimed) <= maxJobs.value ==> stats.claimed <= maxJobs.value
      ensures !alive ==> Overruled(old(store.Sys()), acts) || (last.Some? && Overtaken(old(store.Sys()), acts, polls, last.value))
    {
      hide *;
      ghost var s0 := store.Sys();
      Enter(store, started);
      acts := [Act.Register(id, solvers, memMb, capacity, started)];
      var idle := 0;
      var i := 0;
      alive, last, turns := true, None, [];
      NoTurns(s0, acts, polls, id, runTicks, stats);
      AccountedFirst(stats);
      while i < |polls|
        invariant 0 <= i <= |polls| && store.Fresh() && Ran(s0, store.Sys(), acts) && alive
        invariant Accounted(old(stats), stats, i, true) && |turns| == i && Idles(turns, idle)
        invariant acts != [] && acts[0] == Act.Register(id, solvers, memMb, capacity, started)
        invariant Turned(s0, acts, polls, turns, id, runTicks) && stats == Tally(old(stats), turns) && EndOf(turns) == |acts|
        invariant stats.claimed == old(stats.claimed) + Claims(turns)
        invariant Stops(turns, old(stats.claimed), maxIdle, maxJobs) <==> maxJobs.Some? && stats.claimed >= maxJobs.value
        invariant forall n :: 0 <= n < |turns| ==> !Stops(turns[..n], old(stats.claimed), maxIdle, maxJobs)
        invariant maxJobs.Some? && old(stats.claimed) <= maxJobs.value ==> stats.claimed <= maxJobs.value
      {
        AccountedLater(old(stats), stats, i, |polls|, true);
        if maxJobs.Some? && stats.claimed >= maxJobs.value { break; }
        var p := polls[i];
        i := i + 1;
        ghost var past, turn := acts, NO_TURN;
        var job;
        var raised;
        job, raised, acts, turn := PollOnce(store, p, s0, acts, polls);
        if raised {
          TurnedLater(s0, past, acts, polls, turns, id, runTicks);
          AccountedDead(old(stats), stats, i - 1);
          return false, acts, None, turns;
        }
        if job.None? {
          Unserved(s0, acts, p, turn, id);
          AccountedIdle(old(stats), stats, i - 1, turn);
          TurnEnds(s0, past, acts, polls, turns, turn, old(stats), idle, maxIdle, maxJobs, id, runTicks);
          turns := turns + [turn];
          idle := idle + 1;
          if maxIdle.Some? && idle >= maxIdle.value { break; }
          continue;
        }
        last := Some(Last(i - 1, job.value, |acts|));
        var fate;
        ghost var before := stats;
        fate, acts, turn := Serve(store, p, job.value, s0, acts, turn);
        Overtakes(s0, acts, polls, last.value, fate);
        AccountedServed(old(stats), before, i - 1, turn);
        TurnEnds(s0, past, acts, polls, turns, turn, old(stats), idle, maxIdle, maxJobs, id, runTicks);
        turns := turns + [turn];
        AccountedLater(old(stats), stats, i, |polls|, fate != Died);
        if fate == Died { return false, acts, last, turns; }
        idle := 0;
      }
    }

    method Enter(store: Store, started: int)
      requires Inv(store.Sys()) && store.Fresh()
      modifies store
      ensures Ran(old(store.Sys()), store.Sys(), [Act.Register(id, solvers, memMb, capacity, started)]) && store.Fresh()
    {
      hide Run, Step, Inv, Ran, RegisterWorker;
      RegisterStep(store.Sys(), id, solvers, memMb, capacity, started);
      store.Register(id, solvers, memMb, capacity, started);
    }

    // The claimed job is counted and processed.
    method Serve(store: Store, p: Poll, j: JobId, ghost s0: Sys, ghost past: seq<Act>, ghost polled: Turn)
      returns (fate: Fate, ghost acts: seq<Act>, ghost turn: Turn)
      requires Ran(s0, store.Sys(), past) && store.Fresh() && Is(store.Db(), j, Assigned)
      requires Polled(s0, past, p, polled, id, runTicks) && polled.end == |past| && polled.job == Some(j)
      modifies this, store
      ensures Ran(s0, store.Sys(), acts) && store.Fresh() && past <= acts
      ensures Polled(s0, acts, p, turn, id, runTicks) && Served(s0, acts, p, turn, id)
      ensures turn.start == polled.start && turn.end == |past| && turn.done == |acts| && turn.job == Some(j)
      ensures turn.service.Some? && turn.service.value.fate == fate
      ensures stats == Entered(old(stats), turn)
      ensures if fate == Died then !Undisturbed(p.trip, j) || FoundRunning(Run(s0, acts[..|past|]), j)
        else turn.service.value.started
    {
      hide Run, Step, Inv, Ran, At, Raises, Fated, InTime, Undisturbed, FoundRunning, Polled, Served;
      ghost var before := store.Sys();
      RanInv(s0, before, past);
      RanIs(s0, before, past);
      stats := stats.(claimed := stats.claimed + 1);
      ghost var work, cuts;
      fate, work, cuts := Process(store, j, p.trip);
      RanThen(s0, before, store.Sys(), past, work);
      ClaimedStarts(before, store.Sys(), work, cuts, fate, id, j, p.trip);
      acts := past + work;
      assert acts[..|past|] == past;
      RanIs(s0, store.Sys(), acts);
      turn := ServedPush(s0, before, store.Sys(), past, work, p, polled, id, runTicks, fate, cuts, j);
    }

    // Tick, beat, claim
    method PollOnce(store: Store, p: Poll, ghost s0: Sys, ghost past: seq<Act>, ghost polls: seq<Poll>)
      returns (job: Option<JobId>, raised: bool, ghost acts: seq<Act>, ghost turn: Turn)
      requires Ran(s0, store.Sys(), past) && store.Fresh() && p in polls && Polite(polls, id)
      modifies store
      ensures Ran(s0, store.Sys(), acts) && store.Fresh() && (raised ==> Overruled(s0, acts))
      ensures past <= acts && (raised ==> job == None)
      ensures !raised ==> Polled(s0, acts, p, turn, id, runTicks) && turn.job == job && turn.start == |past|
      ensures !raised ==> turn.end == turn.done == |acts| && turn.service == None
      ensures job.Some? ==> Is(store.Db(), job.value, Assigned) && store.jobs[job.value].worker == Some(id)
    {
      hide Run, Step, Inv, Ran, Progressed, QuietTick, Scheduler.ClaimReport, Overruled, Ticked, Polled, Scheduler.Eligible;
      hide FreeWorker;
      turn := NO_TURN;
      ghost var ticks, tick, came;
      raised, ticks, tick, came := TickFirst(store, p, s0, past);
      acts := past + p.others + ticks;
      if raised { return None, raised, acts, turn; }
      ghost var t1 := store.Sys();
      RanIs(s0, t1, acts);
      BeatNow(store, p, s0, acts);
      acts := acts + p.afterTick + [Beat(id, p.now)] + p.afterBeat;
      ghost var s2 := store.Sys();
      RanInv(s0, s2, acts);
      RanIs(s0, s2, acts);
      ghost var claim, snapshot, lost;
      PoliteRounds(polls, p, id);
      job, claim, snapshot, lost := Scheduler.ClaimNext(store, id, p.rounds);
      IsRan(s2, store.Sys(), claim);
      RanThen(s0, s2, store.Sys(), acts, claim);
      if job.Some? { ClaimedIsAssigned(s2, store.Db(), id, claim, job, snapshot, lost); }
      acts := acts + claim;
      RanIs(s0, store.Sys(), acts);
      turn := TurnOf(s0, past, p, ticks, tick, claim, job, snapshot, lost, id, runTicks, came, t1.db, s2, store.Db());
    }

    // The control tick, if the worker is to run it
    method TickFirst(store: Store, p: Poll, ghost s0: Sys, ghost past: seq<Act>)
      returns (raised: bool, ghost ticks: seq<Act>, ghost tick: Tick, ghost came: Db)
      requires Ran(s0, store.Sys(), past) && store.Fresh()
      modifies store
      ensures Ran(s0, store.Sys(), past + p.others + ticks) && store.Fresh() && came == Run(s0, past + p.others).db
      ensures raised ==> Overruled(s0, past + p.others + ticks)
      ensures runTicks && QuietTick(p.tick) ==> Ticked(tick, p.now) && tick.start == came && tick.end == store.Db()
      ensures !runTicks ==> ticks == []
    {
      hide Run, Step, Inv, Ran, Progressed, QuietTick, Overruled, Ticked;
      OthersMove(s0, store.Sys(), past, p.others);
      store.Interfere(p.others);
      ghost var acts, s1 := past + p.others, store.Sys();
      RanInv(s0, s1, acts);
      RanIs(s0, s1, acts);
      raised, ticks, tick, came := false, [], NO_TURN.tick, s1.db;
      if runTicks {
        var report;
        report, raised, ticks, tick := ControlTick(store, p.now, p.tick);
        RanThen(s0, s1, store.Sys(), acts, ticks);
        if raised { OverruledThen(s0, s1, acts, ticks); }
      } else {
        assert acts + ticks == acts;
      }
    }

    // The heartbeat, and what the others do before and after it
    method BeatNow(store: Store, p: Poll, ghost s0: Sys, ghost past: seq<Act>)
      requires Ran(s0, store.Sys(), past) && store.Fresh()
      modifies store
      ensures Ran(s0, store.Sys(), past + p.afterTick + [Beat(id, p.now)] + p.afterBeat) && store.Fresh()
    {
      hide Run, Step, Inv, Ran, Substrate.Heartbeat;
      OthersMove(s0, store.Sys(), past, p.afterTick);
      store.Interfere(p.afterTick);
      BeatStep(s0, store.Sys(), past + p.afterTick, id, p.now);
      var _ := Scheduler.Heartbeat(store, id, p.now);
      OthersMove(s0, store.Sys(), past + p.afterTick + [Beat(id, p.now)], p.afterBeat);
      store.Interfere(p.afterBeat);
    }
  }

  /******* Turn by turn *******/

  // What became of a claimed job
  datatype Service = Service(cuts: Cuts, fate: Fate, started: bool)

  // One turn of the poll loop as it went: in the order of the steps, the tick from `came` on, the beat, the claim from `looked`
  // on, and, from `end` on, the service of the claimed job
  datatype Turn = Turn(
    start: nat, ticked: nat, beat: nat, looked: nat, end: nat, done: nat, tick: Tick, job: Option<JobId>,
      snapshot: seq<Greedy.JobInfo>, lost: map<JobId, nat>, service: Option<Service>)

  ghost const NO_TURN := Turn(0, 0, 0, 0, 0, 0, Tick(EMPTY, EMPTY, EMPTY, EMPTY, EMPTY, EMPTY, EMPTY, EMPTY, EMPTY), None, [],
    map[], None)

  // The worker ticks if it is to, beats, and asks for a job, in this order, and gets what claim_next promises.
  ghost predicate Polled(s0: Sys, acts: seq<Act>, p: Poll, t: Turn, w: WorkerId, ticks: bool) {
    var came := t.start + |p.others|;
    && came <= t.ticked && t.beat == t.ticked + |p.afterTick| && t.looked == t.beat + 1 + |p.afterBeat|
    && t.looked <= t.end <= |acts|
    && acts[t.start..came] == p.others && acts[t.ticked..t.beat] == p.afterTick && acts[t.beat] == Beat(w, p.now)
    && acts[t.beat + 1..t.looked] == p.afterBeat
    && Fired(Run(s0, acts[..came]).db, Run(s0, acts[..t.ticked]).db, p, t, ticks)
    && Looked(Run(s0, acts[..t.looked]), Run(s0, acts[..t.end]).db, acts[t.looked..t.end], t, w)
  }

  ghost predicate Fired(a: Db, b: Db, p: Poll, t: Turn, ticks: bool) {
    if ticks then QuietTick(p.tick) ==> Ticked(t.tick, p.now) && t.tick.start == a && t.tick.end == b
    else t.ticked == t.start + |p.others|
  }

  ghost predicate Looked(s: Sys, db: Db, claim: seq<Act>, t: Turn, w: WorkerId) {
    && (claim == [] <==> !Scheduler.Eligible(s.db.jobs, s.db.workers, w)) && (claim == [] ==> t.job == None)
    && (claim != [] ==> w in s.db.workers && Scheduler.ClaimReport(s, db, w, claim, t.job, t.snapshot, t.lost))
  }

  // A claimed job is processed, and nothing else is.
  ghost predicate Served(s0: Sys, acts: seq<Act>, p: Poll, t: Turn, w: WorkerId) {
    && t.end <= t.done <= |acts| && (t.service.Some? <==> t.job.Some?) && (t.job.None? ==> t.done == t.end)
    && (t.job.Some? ==>
          var s, j, work, r := Run(s0, acts[..t.end]), t.job.value, acts[t.end..t.done], t.service.value;
          && j in s.db.jobs
          && Fated(s, Run(s0, acts[..t.done]), work, r.cuts, r.fate, w, j, s.db.jobs[j].jtype, p.trip)
          && (r.started <==> At(s, work, r.cuts.start, j, Assigned)))
  }

  // Registered, and turn after turn
  function EndOf(turns: seq<Turn>): nat { if turns == [] then 1 else turns[|turns| - 1].done }

  ghost predicate Turned(s0: Sys, acts: seq<Act>, polls: seq<Poll>, turns: seq<Turn>, w: WorkerId, ticks: bool) {
    |turns| <= |polls| && forall n :: 0 <= n < |turns| ==>
      && Polled(s0, acts, polls[n], turns[n], w, ticks) && Served(s0, acts, polls[n], turns[n], w)
      && turns[n].start == EndOf(turns[..n])
  }

  function Claims(turns: seq<Turn>): nat {
    if turns == [] then 0 else Claims(turns[..|turns| - 1]) + if turns[|turns| - 1].job.Some? then 1 else 0
  }

  function Tally(stats: WorkerStats, turns: seq<Turn>): WorkerStats {
    if turns == [] then stats
    else
      var n := |turns| - 1;
      Entered(Tally(stats, turns[..n]), turns[n])
  }

  function Entered(stats: WorkerStats, t: Turn): WorkerStats {
    match t.service
    case None => stats
    case Some(r) => Counted(stats.(claimed := stats.claimed + 1), r.fate, r.started)
  }

  // Why the loop ends before it is stopped: enough jobs, or too many turns in a row without one
  predicate Stops(turns: seq<Turn>, claimed: nat, maxIdle: Option<int>, maxJobs: Option<int>) {
    (maxJobs.Some? && claimed + Claims(turns) >= maxJobs.value) || Wearied(turns, maxIdle)
  }

  predicate Wearied(turns: seq<Turn>, maxIdle: Option<int>) {
    && maxIdle.Some?
    && var m := if maxIdle.value < 1 then 1 else maxIdle.value;
    m <= |turns| && forall k :: |turns| - m <= k < |turns| ==> turns[k].job.None?
  }

  predicate Idles(turns: seq<Turn>, idle: nat) {
    && idle <= |turns| && (forall k :: |turns| - idle <= k < |turns| ==> turns[k].job.None?)
    && (idle < |turns| ==> turns[|turns| - idle - 1].job.Some?)
  }

  lemma NoTurns(s0: Sys, acts: seq<Act>, polls: seq<Poll>, w: WorkerId, ticks: bool, stats: WorkerStats)
    ensures Turned(s0, acts, polls, [], w, ticks) && EndOf([]) == 1 && Tally(stats, []) == stats && Claims([]) == 0
    ensures Idles([], 0)
    ensures forall idle, jobs :: Stops([], stats.claimed, idle, jobs) <==> jobs.Some? && stats.claimed >= jobs.value
  {
    hide Polled, Served;
  }

  // Before the others' next move the picture of the past does not change.
  lemma TurnedLater(
    s0: Sys, acts: seq<Act>, more: seq<Act>, polls: seq<Poll>, turns: seq<Turn>, w: WorkerId, ticks: bool)
    requires Turned(s0, acts, polls, turns, w, ticks) && acts <= more
    ensures Turned(s0, more, polls, turns, w, ticks)
  {
    forall n | 0 <= n < |turns|
      ensures Polled(s0, more, polls[n], turns[n], w, ticks) && Served(s0, more, polls[n], turns[n], w)
    {
      PolledLater(s0, acts, more, polls[n], turns[n], w, ticks);
      ServedLater(s0, acts, more, polls[n], turns[n], w);
    }
    hide Polled, Served;
  }

  lemma PolledLater(s0: Sys, acts: seq<Act>, more: seq<Act>, p: Poll, t: Turn, w: WorkerId, ticks: bool)
    requires Polled(s0, acts, p, t, w, ticks) && acts <= more
    ensures Polled(s0, more, p, t, w, ticks)
  {
    hide Run, Fired, Looked;
    var came := t.start + |p.others|;
    assert more[t.start..came] == acts[t.start..came] && more[t.ticked..t.beat] == acts[t.ticked..t.beat];
    assert more[t.beat + 1..t.looked] == acts[t.beat + 1..t.looked] && more[t.looked..t.end] == acts[t.looked..t.end];
    assert more[..came] == acts[..came] && more[..t.ticked] == acts[..t.ticked];
    assert more[..t.looked] == acts[..t.looked] && more[..t.end] == acts[..t.end];
  }

  lemma ServedLater(s0: Sys, acts: seq<Act>, more: seq<Act>, p: Poll, t: Turn, w: WorkerId)
    requires Served(s0, acts, p, t, w) && acts <= more
    ensures Served(s0, more, p, t, w)
  {
    hide Run, Fated, At;
    assert more[..t.end] == acts[..t.end] && more[..t.done] == acts[..t.done];
    assert more[t.end..t.done] == acts[t.end..t.done];
  }

  lemma TurnedPush(s0: Sys, acts: seq<Act>, polls: seq<Poll>, turns: seq<Turn>, t: Turn, w: WorkerId, ticks: bool)
    requires Turned(s0, acts, polls, turns, w, ticks) && |turns| < |polls| && t.start == EndOf(turns)
    requires Polled(s0, acts, polls[|turns|], t, w, ticks)
    requires Served(s0, acts, polls[|turns|], t, w)
    ensures Turned(s0, acts, polls, turns + [t], w, ticks)
  {
    hide Polled, Served;
    var next := turns + [t];
    forall n | 0 <= n < |next|
      ensures Polled(s0, acts, polls[n], next[n], w, ticks) && Served(s0, acts, polls[n], next[n], w)
      ensures next[n].start == EndOf(next[..n])
    {
      if n < |turns| { assert next[..n] == turns[..n] && next[n] == turns[n]; } else { assert next[..n] == turns; }
    }
  }

  lemma Unserved(s0: Sys, acts: seq<Act>, p: Poll, t: Turn, w: WorkerId)
    requires t.job.None? && t.service.None? && t.done == t.end <= |acts|
    ensures Served(s0, acts, p, t, w)
  {}

  lemma TurnCounts(stats: WorkerStats, turns: seq<Turn>, t: Turn, idle: nat, maxIdle: Option<int>)
    requires Idles(turns, idle) && (t.service.Some? <==> t.job.Some?)
    ensures var next := turns + [t];
      && Claims(next) == Claims(turns) + (if t.job.Some? then 1 else 0)
      && Idles(next, if t.job.None? then idle + 1 else 0)
      && (Wearied(next, maxIdle) <==> t.job.None? && maxIdle.Some? && idle + 1 >= maxIdle.value)
      && Tally(stats, next) == Entered(Tally(stats, turns), t)
  {
    var next := turns + [t];
    assert next[..|turns|] == turns;
    if t.job.None? && maxIdle.Some? && idle + 1 < maxIdle.value && idle < |turns| {
      assert next[|turns| - idle - 1].job.Some?;
    }
    if t.job.Some? { assert next[|turns|].job.Some?; }
  }

  lemma StopsPush(turns: seq<Turn>, t: Turn, claimed: nat, maxIdle: Option<int>, maxJobs: Option<int>)
    requires forall n :: 0 <= n < |turns| ==> !Stops(turns[..n], claimed, maxIdle, maxJobs)
    requires !Stops(turns, claimed, maxIdle, maxJobs)
    ensures forall n :: 0 <= n < |turns + [t]| ==> !Stops((turns + [t])[..n], claimed, maxIdle, maxJobs)
  {
    hide Stops;
    var next := turns + [t];
    forall n | 0 <= n < |next| ensures !Stops(next[..n], claimed, maxIdle, maxJobs) {
      assert next[..n] == if n < |turns| then turns[..n] else turns;
    }
  }

  lemma TurnEnds(
    s0: Sys, past: seq<Act>, acts: seq<Act>, polls: seq<Poll>, turns: seq<Turn>, t: Turn, stats: WorkerStats, idle: nat,
      maxIdle: Option<int>, maxJobs: Option<int>, w: WorkerId, ticks: bool)
    requires Turned(s0, past, polls, turns, w, ticks) && past <= acts && |turns| < |polls| && t.start == EndOf(turns)
    requires Polled(s0, acts, polls[|turns|], t, w, ticks) && Served(s0, acts, polls[|turns|], t, w)
    requires (t.service.Some? <==> t.job.Some?) && Idles(turns, idle)
    requires forall n :: 0 <= n < |turns| ==> !Stops(turns[..n], stats.claimed, maxIdle, maxJobs)
    requires !Stops(turns, stats.claimed, maxIdle, maxJobs)
    ensures var next := turns + [t];
      && Turned(s0, acts, polls, next, w, ticks) && EndOf(next) == t.done
      && (forall n :: 0 <= n < |next| ==> !Stops(next[..n], stats.claimed, maxIdle, maxJobs))
      && Claims(next) == Claims(turns) + (if t.job.Some? then 1 else 0) && Idles(next, if t.job.None? then idle + 1 else 0)
      && (Stops(next, stats.claimed, maxIdle, maxJobs) <==>
            || (maxJobs.Some? && stats.claimed + Claims(next) >= maxJobs.value)
            || (t.job.None? && maxIdle.Some? && idle + 1 >= maxIdle.value))
      && Tally(stats, next) == Entered(Tally(stats, turns), t)
  {
    hide Turned, Polled, Served, Idles, Wearied, Tally, Claims, Entered;
    TurnedLater(s0, past, acts, polls, turns, w, ticks);
    TurnedPush(s0, acts, polls, turns, t, w, ticks);
    TurnCounts(stats, turns, t, idle, maxIdle);
    StopsPush(turns, t, stats.claimed, maxIdle, maxJobs);
  }

  lemma TurnOf(
    s0: Sys, past: seq<Act>, p: Poll, ticks: seq<Act>, tick: Tick, claim: seq<Act>, job: Option<JobId>,
      snapshot: seq<Greedy.JobInfo>, lost: map<JobId, nat>, w: WorkerId, runs: bool, a: Db, b: Db, s2: Sys, end: Db)
    returns (t: Turn)
    requires a == Run(s0, past + p.others).db && b == Run(s0, past + p.others + ticks).db
    requires runs && QuietTick(p.tick) ==> Ticked(tick, p.now) && tick.start == a && tick.end == b
    requires !runs ==> ticks == []
    requires var acts := past + p.others + ticks + p.afterTick + [Beat(w, p.now)] + p.afterBeat;
      s2 == Run(s0, acts) && end == Run(s0, acts + claim).db
    requires (claim == [] <==> !Scheduler.Eligible(s2.db.jobs, s2.db.workers, w)) && (claim == [] ==> job == None)
    requires claim != [] ==> Scheduler.ClaimReport(s2, end, w, claim, job, snapshot, lost)
    ensures var acts := past + p.others + ticks + p.afterTick + [Beat(w, p.now)] + p.afterBeat + claim;
      Polled(s0, acts, p, t, w, runs) && t.job == job && t.start == |past| && t.end == t.done == |acts| && t.service == None
  {
    hide Run, Ticked, QuietTick, Scheduler.ClaimReport;
    var came := past + p.others;
    var ticked := came + ticks;
    var beat := ticked + p.afterTick;
    var looked := beat + [Beat(w, p.now)] + p.afterBeat;
    var acts := looked + claim;
    t := Turn(|past|, |ticked|, |beat|, |looked|, |acts|, |acts|, tick, job, snapshot, lost, None);
    assert acts[..|came|] == came && acts[..|ticked|] == ticked && acts[..|looked|] == looked && acts[..|acts|] == acts;
    assert acts[|past|..|came|] == p.others && acts[|ticked|..|beat|] == p.afterTick && acts[|beat|] == Beat(w, p.now);
    assert acts[|beat| + 1..|looked|] == p.afterBeat && acts[|looked|..|acts|] == claim;
  }

  lemma ServedPush(
    s0: Sys, before: Sys, after: Sys, acts: seq<Act>, work: seq<Act>, p: Poll, t: Turn, w: WorkerId, ticks: bool, fate: Fate,
      cuts: Cuts, j: JobId)
    returns (next: Turn)
    requires Polled(s0, acts, p, t, w, ticks) && t.end == |acts| && t.job == Some(j)
    requires before == Run(s0, acts) && after == Run(s0, acts + work) && j in before.db.jobs
    requires Fated(before, after, work, cuts, fate, w, j, before.db.jobs[j].jtype, p.trip)
    ensures Polled(s0, acts + work, p, next, w, ticks) && Served(s0, acts + work, p, next, w)
    ensures next == t.(done := |acts + work|, service := next.service)
    ensures next.service == Some(Service(cuts, fate, At(before, work, cuts.start, j, Assigned)))
  {
    hide Polled, Run, Fated, At;
    next := t.(done := |acts + work|, service := Some(Service(cuts, fate, At(before, work, cuts.start, j, Assigned))));
    PolledLater(s0, acts, acts + work, p, t, w, ticks);
    PolledStill(s0, acts + work, p, t, next, w, ticks);
    assert (acts + work)[..|acts|] == acts && (acts + work)[..|acts + work|] == acts + work;
    assert (acts + work)[|acts|..|acts + work|] == work;
  }

  lemma PolledStill(s0: Sys, acts: seq<Act>, p: Poll, t: Turn, next: Turn, w: WorkerId, ticks: bool)
    requires Polled(s0, acts, p, t, w, ticks) && next == t.(done := next.done, service := next.service)
    ensures Polled(s0, acts, p, next, w, ticks)
  {
    hide Run, QuietTick, Ticked, Scheduler.Eligible, Scheduler.ClaimReport;
  }

  // Started at once, and done in time however short its lease
  predicate Undisturbed(trip: Trip, j: JobId) { trip.delay == [] && InTime(trip, j, MIN_LEASE_S * MICROS) }

  // The poll, the job claimed in it, and how much had happened when it was claimed
  datatype Last = Last(poll: nat, job: JobId, claimed: nat)

  // The job was not done undisturbed, or a reaper had read it running before it was claimed.
  ghost predicate Overtaken(s0: Sys, acts: seq<Act>, polls: seq<Poll>, last: Last) {
    && last.poll < |polls| && last.claimed <= |acts|
    && (!Undisturbed(polls[last.poll].trip, last.job) || FoundRunning(Run(s0, acts[..last.claimed]), last.job))
  }

  // One turn of the poll loop: what the others do before and in the tick, before the beat, before and in the claim, and what
  // the claimed job will do
  datatype Poll = Poll(
    others: seq<Act>, now: int, tick: nat -> Others, afterTick: seq<Act>, afterBeat: seq<Act>,
      rounds: nat -> Scheduler.Round, trip: Trip)

  // One claim loop per worker id: nobody else claims in this worker's name.
  ghost predicate Polite(polls: seq<Poll>, w: WorkerId) {
    forall p <- polls :: forall n :: Scheduler.ByOthers(p.rounds(n).others, w)
  }

  lemma PoliteRounds(polls: seq<Poll>, p: Poll, w: WorkerId)
    requires Polite(polls, w) && p in polls
    ensures forall n :: Scheduler.ByOthers(p.rounds(n).others, w)
  {}

  // At most one claim per poll; each is counted as succeeded or failed, but for one the worker may have died of.
  predicate Accounted(before: WorkerStats, after: WorkerStats, polls: nat, alive: bool) {
    var claimed, ended := after.claimed - before.claimed, after.succeeded + after.failed - before.succeeded - before.failed;
    0 <= claimed <= polls && (ended == claimed || (!alive && ended == claimed - 1))
  }

  lemma AccountedFirst(stats: WorkerStats)
    ensures Accounted(stats, stats, 0, true)
  {}

  lemma AccountedIdle(before: WorkerStats, stats: WorkerStats, polls: nat, t: Turn)
    requires Accounted(before, stats, polls, true) && t.service.None?
    ensures Accounted(before, stats, polls + 1, true) && Entered(stats, t) == stats
  {}

  lemma AccountedDead(before: WorkerStats, stats: WorkerStats, polls: nat)
    requires Accounted(before, stats, polls, true)
    ensures forall n :: n > polls ==> Accounted(before, stats, n, false)
  {}

  lemma AccountedServed(before: WorkerStats, stats: WorkerStats, polls: nat, t: Turn)
    requires Accounted(before, stats, polls, true) && t.service.Some?
    requires t.service.value.fate != Died ==> t.service.value.started
    ensures Accounted(before, Entered(stats, t), polls + 1, t.service.value.fate != Died)
    ensures Entered(stats, t).claimed == stats.claimed + 1
  {}

  lemma AccountedLater(before: WorkerStats, stats: WorkerStats, polls: nat, more: nat, alive: bool)
    requires Accounted(before, stats, polls, alive) && polls <= more
    ensures Accounted(before, stats, more, alive)
  {}

  lemma Overtakes(s0: Sys, acts: seq<Act>, polls: seq<Poll>, last: Last, fate: Fate)
    requires last.poll < |polls| && last.claimed <= |acts|
    requires fate == Died ==>
      !Undisturbed(polls[last.poll].trip, last.job) || FoundRunning(Run(s0, acts[..last.claimed]), last.job)
    ensures fate == Died ==> Overtaken(s0, acts, polls, last)
  {}

  lemma IsRan(s0: Sys, s: Sys, acts: seq<Act>)
    requires s == Run(s0, acts) && Inv(s)
    ensures Ran(s0, s, acts)
  {
    hide Run;
  }

  // A job that is started at once is assigned when it is started.
  lemma ClaimedStarts(s0: Sys, s: Sys, acts: seq<Act>, cuts: Cuts, fate: Fate, w: WorkerId, j: JobId, trip: Trip)
    requires Is(s0.db, j, Assigned) && Fated(s0, s, acts, cuts, fate, w, j, s0.db.jobs[j].jtype, trip)
    requires At(s0, acts, cuts.start, j, Assigned) && InTime(trip, j, LeaseDuration(s0.db.jobs[j].resource))
             && !FoundRunning(Run(s0, trip.delay), j) ==>
      if Raises(s0, acts, cuts.work, s0.db.jobs[j].jtype, trip.result, j) then fate == Caught else fate.Completed?
    ensures if fate == Died then !Undisturbed(trip, j) || FoundRunning(s0, j) else At(s0, acts, cuts.start, j, Assigned)
  {
    hide Step;
    hide Raises, Finishes, FoundRunning;
    if trip.delay == [] {
      assert acts[..0] == [];
      assert At(s0, acts, 0, j, Assigned);
    }
  }

  lemma RegisterStep(s: Sys, w: WorkerId, solvers: set<string>, memMb: Option<int>, capacity: int, now: int)
    requires Inv(s)
    ensures Ran(s, Sys(RegisterWorker(s.db, w, solvers, memMb, capacity, now), s.seen, s.judged, s.pending),
      [Act.Register(w, solvers, memMb, capacity, now)])
  {
    hide Step, Run, Inv;
    var a := Act.Register(w, solvers, memMb, capacity, now);
    OneRegister(s, w, solvers, memMb, capacity, now);
    InvStep(s, a);
    RunOne(s, a);
  }

  lemma OneRegister(s: Sys, w: WorkerId, solvers: set<string>, memMb: Option<int>, capacity: int, now: int)
    ensures Step(s, Act.Register(w, solvers, memMb, capacity, now))
         == Sys(RegisterWorker(s.db, w, solvers, memMb, capacity, now), s.seen, s.judged, s.pending)
  {
    Exec1(s.db, DoRegister(w, solvers, memMb, capacity, now));
  }

  lemma BeatStep(s0: Sys, s: Sys, acts: seq<Act>, w: WorkerId, now: int)
    requires Ran(s0, s, acts)
    ensures var t := Sys(Substrate.Heartbeat(s.db, w, now), s.seen, s.judged, s.pending); Ran(s0, t, acts + [Beat(w, now)])
    ensures Substrate.Heartbeat(s.db, w, now).jobs.Keys == s.db.jobs.Keys
  {
    hide Inv, Run, Step, Ran;
    BeatIs(s, w, now);
    OneMore(s0, s, acts, Beat(w, now));
  }

  lemma BeatIs(s: Sys, w: WorkerId, now: int)
    ensures Step(s, Beat(w, now)) == Sys(Substrate.Heartbeat(s.db, w, now), s.seen, s.judged, s.pending)
  {
    Exec1(s.db, DoHeartbeat(w, now));
  }

  lemma ClaimedIsAssigned(
    s0: Sys, db: Db, w: WorkerId, acts: seq<Act>, claimed: Option<JobId>, snapshot: seq<Greedy.JobInfo>, lost: map<JobId, nat>)
    requires acts != [] ==> FreeWorker(s0.db, w) && Scheduler.ClaimReport(s0, db, w, acts, claimed, snapshot, lost)
    requires claimed.Some? && (acts == [] ==> claimed == None)
    ensures Is(db, claimed.value, Assigned) && db.jobs[claimed.value].worker == Some(w)
  {
    hide Scheduler.SeenOutOfQueue;
  }
}
