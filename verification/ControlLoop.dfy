/**
 control_tick: the phases in order, with other processes at work inside every one of them. Whatever they do the tick is a
 run of the protocol; if they do nothing it is the tick Control describes.
 */
module ControlLoop {
  import opened Wrappers
  import opened Rows
  import opened Sets
  import opened Substrate
  import opened Protocol
  import opened Effects
  import opened Structure
  import opened Readiness
  import opened Control
  import opened ControlEnds
  import opened Storage
  import opened Interference
  import opened Phases
  import opened ChoreLoop
  import opened GateLoop
  import opened ReapLoop
  import opened SpawnLoop
  import opened Closure
  import opened Lineage
  import Columns

  /******* sync_study_status *******/

  function StudyWork(to: StudyStatus, db: Db): set<StudyId> {
    if to == InProgress then StartableStudies(db) else ReviewableStudies(db)
  }

  function StudyAct(to: StudyStatus, t: StudyId, now: int): Act {
    if to == InProgress then SyncStart(t, now) else SyncReview(t, now)
  }

  function StudyCall(to: StudyStatus, t: StudyId, now: int): StudyRequest {
    StudyRequest(t, to, SCHEDULER, Some(if to == InProgress then PlanApproved else InProgress), now)
  }

  ghost predicate StudyState(a: Db, b: Db, to: StudyStatus, done: set<StudyId>) {
    && b.jobs == a.jobs && b.deps == a.deps && b.verdicts == a.verdicts && b.workers == a.workers
    && b.studies.Keys == a.studies.Keys
    && (forall t <- a.studies :: b.studies[t] == if t in done then a.studies[t].(status := to) else a.studies[t])
    && a.log <= b.log && |b.log| == |a.log| + |done|
  }

  ghost predicate StudyUnderway(s0: Sys, s: Sys, acts: seq<Act>, to: StudyStatus, done: set<StudyId>) {
    Progressed(s0, s, acts) && StudyState(s0.db, s.db, to, done) && done <= StudyWork(to, s0.db)
  }

  lemma StartStudies(s: Sys, to: StudyStatus)
    requires Inv(s)
    ensures StudyUnderway(s, s, [], to, {})
  {
    hide Step, Inv;
  }

  lemma StudyMoves(a: Db, b: Db, to: StudyStatus, done: set<StudyId>, t: StudyId, now: int)
    requires to in {InProgress, InReview} && StudyState(a, b, to, done) && t in StudyWork(to, a) && t !in done
    ensures StudyState(a, MoveStudy(b, StudyCall(to, t, now)), to, done + {t})
    ensures b.studies[t] == a.studies[t]
  {}

  lemma StudyFrame(a: Db, b: Db, to: StudyStatus, done: set<StudyId>)
    requires StudyState(a, b, to, done)
    ensures b.jobs == a.jobs && b.studies.Keys == a.studies.Keys
    ensures forall t <- a.studies :: t !in done ==> b.studies[t] == a.studies[t]
    ensures forall t <- a.studies :: Dispatched(b, t) == Dispatched(a, t) && AllTerminal(b, t) == AllTerminal(a, t)
  {}

  lemma FinishStudies(a: Db, b: Db, to: StudyStatus)
    requires StudyState(a, b, to, StudyWork(to, a))
    ensures StudyPhase(a, b, StudyWork(to, a), to)
  {
    if StudyWork(to, a) == {} {
      forall t <- a.studies ensures b.studies[t] == a.studies[t] { assert t !in StudyWork(to, a); }
      assert b.studies == a.studies;
    }
  }

  ghost predicate Synced(s0: Sys, s: Sys, acts: seq<Act>, to: StudyStatus) {
    Progressed(s0, s, acts) && StudyPhase(s0.db, s.db, StudyWork(to, s0.db), to)
  }

  function WithStatus(studies: map<StudyId, Study>, status: StudyStatus): set<StudyId> {
    set t | t in studies && studies[t].status == status
  }

  /******* A study that is due *******/

  predicate Due(to: StudyStatus, db: Db, t: StudyId) { if to == InProgress then Dispatched(db, t) else AllTerminal(db, t) }

  // What is left of that later: a job of the study was dispatched once, or this loop remembers that all of them were terminal.
  ghost predicate Chosen(to: StudyStatus, s: Sys, t: StudyId) {
    if to == InProgress then exists j <- s.judged :: j in s.db.jobs && s.db.jobs[j].study == t else t in s.pending.review
  }

  function ReadActs(to: StudyStatus, t: StudyId, now: int): seq<Act> { if to == InProgress then [] else [ReadDone(t, now)] }

  function Noted(to: StudyStatus, p: Pending, t: StudyId): Pending {
    if to == InProgress then p else p.(review := p.review + multiset{t})
  }

  function Used(to: StudyStatus, p: Pending, t: StudyId): Pending {
    if to == InProgress then p else p.(review := p.review - multiset{t})
  }

  function Reviewing(to: StudyStatus, t: StudyId): Pending { Noted(to, NOTHING, t) }

  lemma NotedUsed(to: StudyStatus, p: Pending, t: StudyId)
    ensures Used(to, Noted(to, p, t), t) == p && Holds(Noted(to, p, t), Reviewing(to, t))
  {}

  // The system once the study has been found due
  function Found(s: Sys, to: StudyStatus, t: StudyId): Sys { Sys(s.db, s.seen, s.judged, Noted(to, s.pending, t)) }

  lemma DueIsChosen(s: Sys, to: StudyStatus, t: StudyId, now: int)
    requires Inv(s) && to in {InProgress, InReview} && Due(to, s.db, t) && t in s.db.studies && s.db.studies[t].status != Draft
    ensures Run(s, ReadActs(to, t, now)) == Found(s, to, t) && Chosen(to, Found(s, to, t), t)
  {
    hide Step;
    if to == InProgress {
      var j :| j in s.db.jobs && s.db.jobs[j].study == t && s.db.jobs[j].state !in {Proposed, Approved, Queued, Cancelled};
      assert j in s.judged;
    } else {
      RunOne(s, ReadDone(t, now));
      ReadNotes(s, t, now);
    }
  }

  lemma ReadNotes(s: Sys, t: StudyId, now: int)
    requires AllTerminal(s.db, t) && t in s.db.studies && s.db.studies[t].status != Draft
    ensures Step(s, ReadDone(t, now)) == Found(s, InReview, t)
  {}

  lemma ChosenStays(s: Sys, acts: seq<Act>, to: StudyStatus, t: StudyId)
    requires Inv(s) && Chosen(to, s, t) && Holds(Run(s, acts).pending, Reviewing(to, t))
    ensures Chosen(to, Run(s, acts), t)
  {
    if to == InProgress {
      RunKeepsColumns(s, acts);
      JudgedStays(s, acts);
      hide Run, Inv;
    }
  }

  lemma {:induction false} JudgedStays(s: Sys, acts: seq<Act>)
    ensures s.judged <= Run(s, acts).judged
  {
    hide Ops, Exec, NextSeen;
    if acts != [] {
      JudgedStays(s, acts[..|acts| - 1]);
      JudgedOnlyGrows(Run(s, acts[..|acts| - 1]), acts[|acts| - 1]);
    }
  }

  // The transition of a chosen study is a step of the protocol, made or too late.
  lemma ChosenStep(s: Sys, to: StudyStatus, t: StudyId, now: int)
    requires to in {InProgress, InReview} && Chosen(to, s, t)
    ensures Step(s, StudyAct(to, t, now)) == Sys(MoveStudy(s.db, StudyCall(to, t, now)), s.seen, s.judged, Used(to, s.pending, t))
  {
    ChosenOps(s, to, t, now);
    StepFrame(s, StudyAct(to, t, now));
    hide Ops, Enabled, MoveStudy, Chosen;
    Exec1(s.db, DoMoveStudy(StudyCall(to, t, now)));
  }

  lemma ChosenOps(s: Sys, to: StudyStatus, t: StudyId, now: int)
    requires to in {InProgress, InReview} && Chosen(to, s, t)
    ensures Enabled(s, StudyAct(to, t, now)) && Ops(s, StudyAct(to, t, now)) == [DoMoveStudy(StudyCall(to, t, now))]
    ensures NextPending(s, StudyAct(to, t, now)) == Used(to, s.pending, t)
  {}

  function SyncActs(to: StudyStatus, t: StudyId, between: seq<Act>, now: int): seq<Act> {
    ReadActs(to, t, now) + between + [StudyAct(to, t, now)]
  }

  lemma ChosenTurn(s0: Sys, m: Sys, acts: seq<Act>, to: StudyStatus, t: StudyId, now: int)
    requires Ran(s0, m, acts) && to in {InProgress, InReview} && Chosen(to, m, t)
    ensures Ran(s0, Sys(MoveStudy(m.db, StudyCall(to, t, now)), m.seen, m.judged, Used(to, m.pending, t)),
      acts + [StudyAct(to, t, now)])
  {
    hide Run, Inv, Step, Chosen, MoveStudy, Used, Ran;
    ChosenStep(m, to, t, now);
    OneMore(s0, m, acts, StudyAct(to, t, now));
  }

  lemma FoundRan(s0: Sys, s: Sys, acts: seq<Act>, to: StudyStatus, t: StudyId, now: int)
    requires Ran(s0, s, acts) && to in {InProgress, InReview} && Due(to, s.db, t) && t in s.db.studies
    requires s.db.studies[t].status != Draft
    ensures Ran(s0, Found(s, to, t), acts + ReadActs(to, t, now)) && Inv(Found(s, to, t)) && Chosen(to, Found(s, to, t), t)
  {
    hide Run, Inv, Step, Chosen, Found, ReadActs, Due;
    DueIsChosen(s, to, t, now);
    OthersMove(s0, s, acts, ReadActs(to, t, now));
  }

  // The query that finds the study due, what the others do then, and the transition
  lemma SyncTurn(s0: Sys, s: Sys, m: Sys, acts: seq<Act>, to: StudyStatus, t: StudyId, between: seq<Act>, now: int)
    requires Ran(s0, s, acts) && to in {InProgress, InReview} && Due(to, s.db, t) && t in s.db.studies
    requires s.db.studies[t].status != Draft
    requires m == Run(Found(s, to, t), between) && Holds(m.pending, Reviewing(to, t))
    ensures Ran(s0, Sys(MoveStudy(m.db, StudyCall(to, t, now)), m.seen, m.judged, Used(to, m.pending, t)),
      acts + SyncActs(to, t, between, now))
  {
    hide Run, Inv, Step, Due, Chosen, MoveStudy, Found, Used, Reviewing, Holds, Ran, ReadActs;
    FoundRan(s0, s, acts, to, t, now);
    OthersMove(s0, Found(s, to, t), acts + ReadActs(to, t, now), between);
    ChosenStays(Found(s, to, t), between, to, t);
    ChosenTurn(s0, m, acts + ReadActs(to, t, now) + between, to, t, now);
    assert acts + ReadActs(to, t, now) + between + [StudyAct(to, t, now)] == acts + SyncActs(to, t, between, now);
  }

  lemma SyncQuietly(s0: Sys, s: Sys, acts: seq<Act>, to: StudyStatus, done: set<StudyId>, t: StudyId, now: int, u: Sys)
    requires StudyUnderway(s0, s, acts, to, done) && to in {InProgress, InReview} && t in StudyWork(to, s0.db) && t !in done
    requires u == Sys(MoveStudy(s.db, StudyCall(to, t, now)), s.seen, s.judged, s.pending)
    requires Ran(s0, u, acts + SyncActs(to, t, [], now))
    ensures StudyUnderway(s0, u, acts + SyncActs(to, t, [], now), to, done + {t})
  {
    hide StudyState, MoveStudy, StudyWork, Ran;
    StudyMoves(s0.db, s.db, to, done, t, now);
    forall a <- SyncActs(to, t, [], now) ensures ControlAct(a) {}
  }

  lemma SubmittedMoves(db: Db, q: StudyRequest, todo: set<StudyId>)
    requires Submitted(db, todo) && q.to in {InProgress, InReview}
    ensures Submitted(MoveStudy(db, q), todo)
  {}

  // One turn of the loop for a study that was found due
  method SyncOne(store: Store, to: StudyStatus, t: StudyId, now: int, between: seq<Act>,
                 ghost s0: Sys, ghost past: seq<Act>, ghost done: set<StudyId>, ghost todo: set<StudyId>, ghost quiet: bool)
    returns (ghost acts: seq<Act>)
    requires Ran(s0, store.Sys(), past) && store.Fresh() && to in {InProgress, InReview} && Submitted(store.Db(), todo)
    requires t in store.studies && store.studies[t].status != Draft && Due(to, store.Db(), t)
    requires quiet ==> StudyUnderway(s0, store.Sys(), past, to, done) && t in StudyWork(to, s0.db) && t !in done && between == []
    modifies store
    ensures Ran(s0, store.Sys(), acts) && store.Fresh() && (quiet ==> StudyUnderway(s0, store.Sys(), acts, to, done + {t}))
    ensures Submitted(store.Db(), todo)
  {
    hide Run, Step, Inv, StudyUnderway, StudyWork, MoveStudy, StudyRefusal, Ran, Due, Noted, Used, Reviewing, Holds;
    hide Submitted, Chosen;
    ghost var s := store.Sys();
    FoundRan(s0, s, past, to, t, now);
    NotedUsed(to, store.pending, t);
    store.pending := Noted(to, store.pending, t);
    ghost var noted := store.Sys();
    ghost var moved := store.InterfereSparing(between, Reviewing(to, t));
    SyncTurn(s0, s, store.Sys(), past, to, t, moved, now);
    SubmittedStays(noted, moved, todo);
    SubmittedMoves(store.Db(), StudyCall(to, t, now), todo);
    NoSteps(noted);
    StudyKeys(store.Db(), StudyCall(to, t, now));
    var refusal := store.StudyTransition(StudyCall(to, t, now));
    store.pending := Used(to, store.pending, t);
    acts := past + SyncActs(to, t, moved, now);
    if quiet { SyncQuietly(s0, s, past, to, done, t, now, store.Sys()); }
  }

  ghost predicate SyncedAll(s0: Sys, s: Sys, acts: seq<Act>, to: StudyStatus, quiet: bool) {
    Ran(s0, s, acts) && (quiet ==> Synced(s0, s, acts, to))
  }

  lemma OthersSync(s0: Sys, s: Sys, acts: seq<Act>, to: StudyStatus, done: set<StudyId>, quiet: bool, others: seq<Act>)
    requires Ran(s0, s, acts) && (quiet ==> StudyUnderway(s0, s, acts, to, done) && others == [])
    ensures Ran(s0, Run(s, others), acts + others) && (quiet ==> StudyUnderway(s0, Run(s, others), acts + others, to, done))
  {
    hide StudyUnderway, Inv, Run;
    OthersMove(s0, s, acts, others);
  }

  // Studies that have left draft
  ghost predicate Submitted(db: Db, todo: set<StudyId>) { forall t <- todo :: t in db.studies && db.studies[t].status != Draft }

  lemma SubmittedStays(s: Sys, acts: seq<Act>, todo: set<StudyId>)
    requires Inv(s) && Submitted(s.db, todo)
    ensures Submitted(Run(s, acts).db, todo)
  {
    hide Run, Inv;
    forall t <- todo
      ensures t in Run(s, acts).db.studies && Run(s, acts).db.studies[t].status != Draft
    {
      DraftNoMore(s, acts, t);
    }
  }

  // One of the two loops: the studies are selected by status, the condition is queried study by study.
  method SyncArm(store: Store, to: StudyStatus, now: int, others: Others) returns (ghost acts: seq<Act>)
    requires Inv(store.Sys()) && store.Fresh() && to in {InProgress, InReview}
    modifies store
    ensures SyncedAll(old(store.Sys()), store.Sys(), acts, to, Quiet(others)) && store.Fresh()
    ensures Quiet(others) ==> Columns.StudiesSynced(old(store.Db()), store.Db(), to)
  {
    hide Columns.StudiesSynced;
    hide Run, Step, Inv, StudyUnderway, StudyWork, WithStatus, MoveStudy, StudyRefusal, Synced, Ran, Due, Submitted;
    ghost var s0, quiet := store.Sys(), Quiet(others);
    var todo, i: nat := WithStatus(store.studies, if to == InProgress then PlanApproved else InProgress), 0;
    ghost var done: set<StudyId> := {};
    acts := [];
    StartStudies(s0, to);
    UnderwayRan(s0, s0, acts, to, done);
    WorkHasStatus(s0.db, to);
    while todo != {}
      invariant Ran(s0, store.Sys(), acts) && store.Fresh() && done !! todo && done <= StudyWork(to, s0.db)
      invariant Submitted(store.Db(), todo)
      invariant quiet ==> StudyUnderway(s0, store.Sys(), acts, to, done) && StudyWork(to, s0.db) <= done + todo
      invariant forall t <- todo ::
        t in s0.db.studies && s0.db.studies[t].status == if to == InProgress then PlanApproved else InProgress
    {
      var t := Choose(todo);
      ghost var s := store.Sys();
      RanInv(s0, s, acts);
      SubmittedStays(s, others(2 * i), todo);
      OthersSync(s0, s, acts, to, done, quiet, others(2 * i));
      store.Interfere(others(2 * i));
      acts, s := acts + others(2 * i), store.Sys();
      if quiet { UnderwayReads(s0, s, acts, to, done, t); }
      OneSubmitted(s.db, todo, t);
      var due := Due(to, store.Db(), t);
      if due {
        ghost var more := SyncOne(store, to, t, now, others(2 * i + 1), s0, acts, done, todo, quiet);
        if quiet { done := done + {t}; }
        acts := more;
      }
      FewerSubmitted(store.Db(), todo, t);
      todo, i := todo - {t}, i + 1;
    }
    if quiet {
      assert done == StudyWork(to, s0.db);
      EndStudies(s0, store.Sys(), acts, to);
      SyncedColumns(s0, store.Sys(), acts, to);
    }
  }

  lemma SyncedColumns(s0: Sys, s: Sys, acts: seq<Act>, to: StudyStatus)
    requires Synced(s0, s, acts, to) && to in {InProgress, InReview}
    ensures Columns.StudiesSynced(s0.db, s.db, to)
  {
    hide Progressed, StudyPhase, Columns.StudiesSynced, StartableStudies, ReviewableStudies;
    StudyColumns(s0.db, s.db, to);
  }

  lemma OneSubmitted(db: Db, todo: set<StudyId>, t: StudyId)
    requires Submitted(db, todo) && t in todo
    ensures t in db.studies && db.studies[t].status != Draft
  {}

  lemma FewerSubmitted(db: Db, todo: set<StudyId>, t: StudyId)
    requires Submitted(db, todo)
    ensures Submitted(db, todo - {t})
  {}

  lemma StudyKeys(db: Db, q: StudyRequest)
    ensures MoveStudy(db, q).studies.Keys == db.studies.Keys && MoveStudy(db, q).jobs == db.jobs
    ensures MoveStudy(db, q).verdicts == db.verdicts
  {}

  lemma UnderwayRan(s0: Sys, s: Sys, acts: seq<Act>, to: StudyStatus, done: set<StudyId>)
    requires StudyUnderway(s0, s, acts, to, done)
    ensures Ran(s0, s, acts)
  {
    hide Ran;
  }

  lemma EndStudies(s0: Sys, s: Sys, acts: seq<Act>, to: StudyStatus)
    requires StudyUnderway(s0, s, acts, to, StudyWork(to, s0.db))
    ensures Synced(s0, s, acts, to)
  {
    hide Progressed, StudyPhase;
    FinishStudies(s0.db, s.db, to);
  }

  lemma WorkHasStatus(db: Db, to: StudyStatus)
    requires to in {InProgress, InReview}
    ensures StudyWork(to, db) <= WithStatus(db.studies, if to == InProgress then PlanApproved else InProgress)
    ensures forall t <- WithStatus(db.studies, if to == InProgress then PlanApproved else InProgress) ::
      t in db.studies && db.studies[t].status == if to == InProgress then PlanApproved else InProgress
    ensures Submitted(db, WithStatus(db.studies, if to == InProgress then PlanApproved else InProgress))
  {}

  lemma UnderwayReads(s0: Sys, s: Sys, acts: seq<Act>, to: StudyStatus, done: set<StudyId>, t: StudyId)
    requires StudyUnderway(s0, s, acts, to, done) && t !in done && to in {InProgress, InReview}
    requires t in s0.db.studies && s0.db.studies[t].status == if to == InProgress then PlanApproved else InProgress
    ensures Due(to, s.db, t) <==> t in StudyWork(to, s0.db)
  {
    hide Progressed;
    StudyFrame(s0.db, s.db, to, done);
  }

  /******* control_tick *******/

  datatype Stats = Stats(reaped: nat, enqueued: nat, triageSpawned: nat, gated: nat, autoAccepted: nat, cancelled: nat)

  // The numbers control_tick reports, against the databases between its phases
  ghost predicate Counts(stats: Stats, k: Tick, now: int) {
    && stats.reaped == |ExpiredJobs(k.start, now)| && stats.enqueued == |ApprovedJobs(k.reaped)|
    && stats.triageSpawned == |FailedJobs(k.enqueued)| + |OrphanJobs(k.enqueued)|
    && |k.gated.log| == |k.spawned.log| + stats.gated
    && stats.autoAccepted == |DoneSupport(k.gated)| && stats.cancelled == |DeadBranches(k.supported)|
  }

  // Nobody else moves during the tick.
  ghost predicate QuietTick(others: nat -> Others) { forall k :: Quiet(others(k)) }

  lemma Next(s0: Sys, s1: Sys, s2: Sys, first: seq<Act>, second: seq<Act>, quiet: bool)
    requires Ran(s0, s1, first) && Ran(s1, s2, second) && (quiet ==> Progressed(s0, s1, first) && Progressed(s1, s2, second))
    ensures Ran(s0, s2, first + second) && (quiet ==> Progressed(s0, s2, first + second))
  {
    hide *;
    RanThen(s0, s1, s2, first, second);
    if quiet { ProgressedThen(s0, s1, s2, first, second); }
  }

  lemma ReapNext(s0: Sys, s1: Sys, a1: seq<Act>, actions: map<JobId, JobState>, now: int, q: bool, quiet: bool)
    requires Reaped(s0, s1, a1, actions, now, q) && (quiet ==> q)
    ensures Ran(s0, s1, a1) && Inv(s1)
    ensures quiet ==> Progressed(s0, s1, a1) && ReapPhase(s0.db, s1.db, now) && |actions| == |ExpiredJobs(s0.db, now)|
  {
    hide Progressed, Run, Inv;
    hide AllTried;
    if quiet { assert |actions| == |actions.Keys|; }
  }

  lemma ChoreNext(s0: Sys, s1: Sys, s2: Sys, first: seq<Act>, second: seq<Act>, c: Chore, now: int, n: nat, q: bool, quiet: bool)
    requires Ran(s0, s1, first) && Finished(s1, s2, second, c, now, n, q) && (quiet ==> q && Progressed(s0, s1, first))
    ensures Ran(s0, s2, first + second) && Inv(s2)
    ensures quiet ==> Progressed(s0, s2, first + second) && Worked(s1.db, s2.db, WorkOf(c, s1.db, now)) && Does(s1.db,
      s2.db, WorkOf(c, s1.db, now), c)
    ensures quiet ==> n == |WorkOf(c, s1.db, now)|
  {
    Next(s0, s1, s2, first, second, quiet);
    hide Run, Worked, Does;
  }

  lemma SpawnNext(s0: Sys, s1: Sys, s2: Sys, first: seq<Act>, second: seq<Act>, spawned: seq<JobId>, q: bool, quiet: bool)
    requires Ran(s0, s1, first) && SpawnedAll(s1, s2, second, spawned, q) && (quiet ==> q && Progressed(s0, s1, first))
    ensures Ran(s0, s2, first + second) && Inv(s2) && (quiet ==> Progressed(s0, s2, first + second) && SpawnPhase(s1.db, s2.db))
    ensures quiet ==> |spawned| == |FailedJobs(s1.db)| + |OrphanJobs(s1.db)|
  {
    Next(s0, s1, s2, first, second, quiet);
    hide Run, SpawnPhase, RowsKept, Children;
  }

  lemma CutNext(s0: Sys, s1: Sys, s2: Sys, first: seq<Act>, second: seq<Act>)
    requires Ran(s0, s1, first) && CutShort(s1, s2, second)
    ensures Ran(s0, s2, first + second) && Inv(s2) && Overruled(s0, first + second)
  {
    hide Run, Overruled, RowsKept;
    RanThen(s0, s1, s2, first, second);
    OverruledThen(s0, s1, first, second);
  }

  lemma GateNext(s0: Sys, s1: Sys, s2: Sys, first: seq<Act>, second: seq<Act>, n: nat, q: bool, quiet: bool)
    requires Ran(s0, s1, first) && GatesDone(s1, s2, second, n, q) && (quiet ==> q && Progressed(s0, s1, first))
    ensures Ran(s0, s2, first + second) && Inv(s2) && (quiet ==> Progressed(s0, s2, first + second) && GatePhase(s1.db, s2.db))
    ensures quiet ==> |s2.db.log| == |s1.db.log| + n
  {
    Next(s0, s1, s2, first, second, quiet);
    hide Run, GatePhase;
  }

  lemma SyncNext(s0: Sys, s1: Sys, s2: Sys, first: seq<Act>, second: seq<Act>, to: StudyStatus, q: bool, quiet: bool)
    requires Ran(s0, s1, first) && SyncedAll(s1, s2, second, to, q) && (quiet ==> q && Progressed(s0, s1, first))
    ensures Ran(s0, s2, first + second) && Inv(s2)
    ensures quiet ==> Progressed(s0, s2, first + second) && StudyPhase(s1.db, s2.db, StudyWork(to, s1.db), to)
  {
    Next(s0, s1, s2, first, second, quiet);
    hide Run, StudyPhase, StudyWork;
  }

  lemma QuietPhase(others: nat -> Others, k: nat)
    requires QuietTick(others)
    ensures Quiet(others(k))
  {}

  // The reaper, enqueue_approved, spawn_triage
  method FirstPhases(store: Store, now: int, others: nat -> Others)
    returns (reaped: nat, enqueued: nat, spawned: nat, raised: bool, ghost acts: seq<Act>, ghost s1: Sys, ghost s2: Sys)
    requires Inv(store.Sys()) && store.Fresh()
    modifies store
    ensures store.Fresh() && Ran(old(store.Sys()), store.Sys(), acts) && Inv(store.Sys())
    ensures raised ==> Overruled(old(store.Sys()), acts) && !QuietTick(others)
    ensures QuietTick(others) ==>
      && Progressed(old(store.Sys()), store.Sys(), acts)
      && ReapPhase(old(store.Db()), s1.db, now) && EnqueuePhase(s1.db, s2.db) && SpawnPhase(s2.db, store.Db())
      && reaped == |ExpiredJobs(old(store.Db()), now)| && enqueued == |ApprovedJobs(s1.db)|
      && spawned == |FailedJobs(s2.db)| + |OrphanJobs(s2.db)|
  {
    hide Run, Step, Inv, Ran, Progressed, Chored, Finished, SpawnedAll, SpawnPhase, Quiet, QuietTick;
    hide ExpiredJobs, ApprovedJobs, FailedJobs, OrphanJobs, Worked, Does, Reaped, Overruled, CutShort;
    ghost var s0, quiet := store.Sys(), QuietTick(others);
    if quiet { QuietPhase(others, 0); QuietPhase(others, 1); QuietPhase(others, 2); QuietPhase(others, 3); }
    var actions;
    actions, acts := ReapExpired(store, now, others(0));
    s1 := store.Sys();
    ReapNext(s0, s1, acts, actions, now, Quiet(others(0)), quiet);
    var ids;
    ghost var a2, a3;
    enqueued, a2 := EnqueueApproved(store, now, others(1));
    s2 := store.Sys();
    ChoreNext(s0, s1, s2, acts, a2, Enqueueing, now, enqueued, Quiet(others(1)), quiet);
    ids, raised, a3 := SpawnTriageJobs(store, now, others(2), others(3));
    if raised {
      CutNext(s0, s2, store.Sys(), acts + a2, a3);
      return |actions|, enqueued, |ids|, raised, acts + a2 + a3, s1, s2;
    }
    SpawnNext(s0, s2, store.Sys(), acts + a2, a3, ids, Quiet(others(2)) && Quiet(others(3)), quiet);
    acts := acts + a2 + a3;
    reaped, spawned := |actions|, |ids|;
  }

  // apply_verdict_gates, auto_accept_support_jobs, cancel_dead_branches
  method MiddlePhases(store: Store, now: int, others: nat -> Others)
    returns (gated: nat, accepted: nat, cancelled: nat, ghost acts: seq<Act>, ghost s1: Sys, ghost s2: Sys)
    requires Inv(store.Sys()) && store.Fresh()
    modifies store
    ensures store.Fresh() && Ran(old(store.Sys()), store.Sys(), acts) && Inv(store.Sys())
    ensures QuietTick(others) ==>
      && Progressed(old(store.Sys()), store.Sys(), acts)
      && GatePhase(old(store.Db()), s1.db) && SupportPhase(s1.db, s2.db) && CancelPhase(s2.db, store.Db())
      && |s1.db.log| == |old(store.log)| + gated && accepted == |DoneSupport(s1.db)| && cancelled == |DeadBranches(s2.db)|
  {
    hide Run, Step, Inv, Ran, Progressed, Finished, GatesDone, GatePhase, Quiet, QuietTick, DoneSupport, DeadBranches;
    hide Worked, Does;
    ghost var s0, quiet := store.Sys(), QuietTick(others);
    if quiet { QuietPhase(others, 4); QuietPhase(others, 5); QuietPhase(others, 6); }
    Begins(s0);
    ghost var a2, a3;
    gated, acts := ApplyVerdictGates(store, now, others(4));
    s1 := store.Sys();
    GateNext(s0, s0, s1, [], acts, gated, Quiet(others(4)), quiet);
    accepted, a2 := AutoAcceptSupportJobs(store, now, others(5));
    s2 := store.Sys();
    ChoreNext(s0, s1, s2, [] + acts, a2, Accepting, now, accepted, Quiet(others(5)), quiet);
    cancelled, a3 := CancelDeadBranches(store, now, others(6));
    ChoreNext(s0, s2, store.Sys(), [] + acts + a2, a3, Cancelling, now, cancelled, Quiet(others(6)), quiet);
    acts := [] + acts + a2 + a3;
  }

  lemma Begins(s: Sys)
    requires Inv(s)
    ensures Ran(s, s, []) && Progressed(s, s, [])
  {
    hide Run;
    NothingDone(s);
  }

  // sync_study_status
  method LastPhases(store: Store, now: int, others: nat -> Others) returns (ghost acts: seq<Act>, ghost s1: Sys)
    requires Inv(store.Sys()) && store.Fresh()
    modifies store
    ensures store.Fresh() && Ran(old(store.Sys()), store.Sys(), acts) && Inv(store.Sys())
    ensures QuietTick(others) ==>
      && Progressed(old(store.Sys()), store.Sys(), acts)
      && StudyPhase(old(store.Db()), s1.db, StartableStudies(old(store.Db())), InProgress)
      && StudyPhase(s1.db, store.Db(), ReviewableStudies(s1.db), InReview)
  {
    hide Run, Step, Inv, Ran, Progressed, SyncedAll, StudyPhase, Quiet, QuietTick, StartableStudies, ReviewableStudies;
    ghost var s0, quiet := store.Sys(), QuietTick(others);
    if quiet { QuietPhase(others, 7); QuietPhase(others, 8); }
    Begins(s0);
    acts := SyncArm(store, InProgress, now, others(7));
    s1 := store.Sys();
    SyncNext(s0, s0, s1, [], acts, InProgress, Quiet(others(7)), quiet);
    ghost var more := SyncArm(store, InReview, now, others(8));
    SyncNext(s0, s1, store.Sys(), [] + acts, more, InReview, Quiet(others(8)), quiet);
    acts := [] + acts + more;
  }

  // `others(k)(n)` is what the other processes do before the n-th transaction of phase k. The tick raises only if it is
  // overruled: a human has decided on a TRIAGE job it had just created and not yet approved.
  method ControlTick(store: Store, now: int, others: nat -> Others)
    returns (stats: Stats, raised: bool, ghost acts: seq<Act>, ghost k: Tick)
    requires Inv(store.Sys()) && store.Fresh()
    modifies store
    ensures store.Fresh() && Ran(old(store.Sys()), store.Sys(), acts)
    ensures raised ==> Overruled(old(store.Sys()), acts) && !QuietTick(others)
    ensures QuietTick(others) ==> Progressed(old(store.Sys()), store.Sys(), acts)
    ensures QuietTick(others) ==> Ticked(k, now) && k.start == old(store.Db()) && k.end == store.Db() && Counts(stats, k, now)
  {
    hide Run, Step, Inv, Ran, Progressed, QuietTick, ReapPhase, EnqueuePhase, SpawnPhase, GatePhase, SupportPhase;
    hide CancelPhase, StudyPhase;
    hide ExpiredJobs, ApprovedJobs, FailedJobs, OrphanJobs, DoneSupport, DeadBranches, StartableStudies;
    hide ReviewableStudies, Overruled;
    ghost var s0, quiet := store.Sys(), QuietTick(others);
    stats := Stats(0, 0, 0, 0, 0, 0);
    k := Tick(EMPTY, EMPTY, EMPTY, EMPTY, EMPTY, EMPTY, EMPTY, EMPTY, EMPTY);
    var reaped, enqueued, spawned, gated, accepted, cancelled;
    ghost var s1, s2, a2, s4, s5, a3, s7;
    reaped, enqueued, spawned, raised, acts, s1, s2 := FirstPhases(store, now, others);
    if raised { return; }
    ghost var s3 := store.Sys();
    gated, accepted, cancelled, a2, s4, s5 := MiddlePhases(store, now, others);
    ghost var s6 := store.Sys();
    Next(s0, s3, s6, acts, a2, quiet);
    a3, s7 := LastPhases(store, now, others);
    Next(s0, s6, store.Sys(), acts + a2, a3, quiet);
    acts := acts + a2 + a3;
    k := Tick(s0.db, s1.db, s2.db, s3.db, s4.db, s5.db, s6.db, s7.db, store.Db());
    stats := Stats(reaped, enqueued, spawned, gated, accepted, cancelled);
  }
}
