/**
 reap_expired over the store: it reads the expired jobs once and then reaps them one by one, each on what it has read of
 it, while other processes reap, finish and restart them in between.
 */
module ReapLoop {
  import opened Wrappers
  import opened Rows
  import opened Sets
  import opened Substrate
  import opened Protocol
  import opened Effects
  import opened EventLog
  import opened Structure
  import opened Readiness
  import opened Control
  import opened ControlEnds
  import opened Storage
  import opened Interference
  import opened Phases
  import opened ChoreLoop
  import Columns

  function FindSet(rows: map<JobId, Job>, todo: set<JobId>): set<Find> { set j | j in todo && j in rows :: FindOf(rows[j], j) }

  // What has been read and not been acted on
  function Findings(rows: map<JobId, Job>, todo: set<JobId>): multiset<Find> { multiset(FindSet(rows, todo)) }

  lemma FindingsPush(rows: map<JobId, Job>, todo: set<JobId>, j: JobId)
    requires j in rows && j !in todo
    ensures Findings(rows, todo + {j}) == Findings(rows, todo) + multiset{FindOf(rows[j], j)}
  {
    assert FindOf(rows[j], j) !in FindSet(rows, todo);
    assert FindSet(rows, todo + {j}) == FindSet(rows, todo) + {FindOf(rows[j], j)};
    assert multiset(FindSet(rows, todo) + {FindOf(rows[j], j)}) == multiset(FindSet(rows, todo)) + multiset{FindOf(rows[j], j)};
  }

  function ReapAct(row: Job, j: JobId, now: int): Act { Reap(j, row.state == Running, Exhausted(row), now) }

  /******* One read *******/

  lemma FindStep(s: Sys, j: JobId, now: int)
    requires j in ExpiredJobs(s.db, now)
    ensures j in s.db.jobs
    ensures Step(s, FindExpired(j, now))
         == Sys(s.db, s.seen, s.judged, s.pending.(reap := s.pending.reap + multiset{FindOf(s.db.jobs[j], j)}))
  {
    StepFrame(s, FindExpired(j, now));
  }

  // The SELECT: the rows whose lease has expired
  method FindAll(store: Store, now: int) returns (found: set<JobId>, ghost acts: seq<Act>)
    requires Inv(store.Sys())
    modifies store`pending
    ensures found == ExpiredJobs(store.Db(), now) && Ran(old(store.Sys()), store.Sys(), acts)
    ensures forall a <- acts :: ControlAct(a)
    ensures store.pending == old(store.pending).(reap := old(store.pending).reap + Findings(store.jobs, found))
  {
    hide Step;
    hide Run, Inv, ExpiredJobs, Findings;
    found := ExpiredJobs(store.Db(), now);
    ghost var s0, p0 := store.Sys(), store.pending;
    var todo := found;
    ghost var done: set<JobId> := {};
    acts := [];
    NoSteps(s0);
    NoFindings(store.jobs);
    assert p0.reap + multiset{} == p0.reap;
    while todo != {}
      invariant done !! todo && done + todo == found && Ran(s0, store.Sys(), acts) && (forall a <- acts :: ControlAct(a))
      invariant store.pending == p0.(reap := p0.reap + Findings(store.jobs, done)) && found == ExpiredJobs(store.Db(), now)
    {
      var j := Choose(todo);
      FindStep(store.Sys(), j, now);
      OneMore(s0, store.Sys(), acts, FindExpired(j, now));
      FindingsPush(store.jobs, done, j);
      var f := FindOf(store.jobs[j], j);
      assert p0.reap + Findings(store.jobs, done) + multiset{f} == p0.reap + (Findings(store.jobs, done) + multiset{f});
      store.pending := store.pending.(reap := store.pending.reap + multiset{f});
      acts, done, todo := acts + [FindExpired(j, now)], done + {j}, todo - {j};
    }
    assert done == found;
  }

  lemma NoFindings(rows: map<JobId, Job>)
    ensures Findings(rows, {}) == multiset{}
  {
    assert FindSet(rows, {}) == {};
  }

  /******* Job by job *******/

  // reap_expired made its move for j at some point, and the move was accepted exactly if the job was as it had been read.
  ghost predicate Tried(s0: Sys, acts: seq<Act>, row: Job, j: JobId, now: int, moved: bool) {
    exists i :: 0 <= i < |acts| && acts[i] == ReapAct(row, j, now) && (moved <==> InState(Run(s0, acts[..i]).db, j, row.state))
  }

  lemma TriedStays(s0: Sys, acts: seq<Act>, more: seq<Act>, row: Job, j: JobId, now: int, moved: bool)
    requires Tried(s0, acts, row, j, now, moved)
    ensures Tried(s0, acts + more, row, j, now, moved)
  {
    hide Run;
    var i :| 0 <= i < |acts| && acts[i] == ReapAct(row, j, now) && (moved <==> InState(Run(s0, acts[..i]).db, j, row.state));
    assert (acts + more)[..i] == acts[..i] && (acts + more)[i] == acts[i];
  }

  lemma TriedNow(s0: Sys, acts: seq<Act>, row: Job, j: JobId, now: int, moved: bool)
    requires moved <==> InState(Run(s0, acts).db, j, row.state)
    ensures Tried(s0, acts + [ReapAct(row, j, now)], row, j, now, moved)
  {
    hide Run;
    var next := acts + [ReapAct(row, j, now)];
    assert next[..|acts|] == acts && next[|acts|] == ReapAct(row, j, now);
  }

  // What reap_expired returns: the jobs it moved and where to
  predicate Reported(actions: map<JobId, JobState>, rows: map<JobId, Job>, done: set<JobId>) {
    actions.Keys <= done && forall j <- actions :: j in rows && actions[j] == Target(Reaping, rows[j])
  }

  ghost predicate AllTried(s0: Sys, acts: seq<Act>, done: set<JobId>, actions: map<JobId, JobState>, now: int) {
    forall j <- done :: j in s0.db.jobs && Tried(s0, acts, s0.db.jobs[j], j, now, j in actions)
  }

  // Part of the work is done, with nobody else at work.
  ghost predicate ReapUnderway(s0: Sys, s: Sys, acts: seq<Act>, done: set<JobId>, todo: set<JobId>) {
    && Ran(s0, s, acts) && s.seen == s0.seen && s.judged == s0.judged && (forall a <- acts :: ControlAct(a))
    && s.pending == s0.pending.(reap := s0.pending.reap + Findings(s0.db.jobs, todo))
    && Does(s0.db, s.db, done, Reaping) && s0.db.log <= s.db.log && |s.db.log| == |s0.db.log| + |done|
  }

  ghost predicate ReapWorking(
    s0: Sys, s: Sys, acts: seq<Act>, done: set<JobId>, todo: set<JobId>, actions: map<JobId, JobState>, now: int, quiet: bool)
  {
    && Ran(s0, s, acts) && ExpiredJobs(s0.db, now) <= s.db.jobs.Keys
    && Findings(s0.db.jobs, todo) <= s.pending.reap && done !! todo && done + todo == ExpiredJobs(s0.db, now)
    && AllTried(s0, acts, done, actions, now) && Reported(actions, s0.db.jobs, done)
    && (quiet ==> ReapUnderway(s0, s, acts, done, todo) && actions.Keys == done)
  }

  lemma StartReaping(s0: Sys, s: Sys, acts: seq<Act>, found: set<JobId>, now: int, quiet: bool)
    requires found == ExpiredJobs(s0.db, now) && Ran(s0, s, acts) && forall a <- acts :: ControlAct(a)
    requires s == Sys(s0.db, s0.seen, s0.judged, s0.pending.(reap := s0.pending.reap + Findings(s0.db.jobs, found)))
    ensures ReapWorking(s0, s, acts, {}, found, map[], now, quiet)
  {
    hide Run, Inv, Findings, Does, Tried, ReapUnderway, Ran, ControlAct;
    ExpiredAreRows(s0.db, now);
    NoneReaped(s0, s, acts, found);
    assert Findings(s0.db.jobs, found) <= s.pending.reap;
  }

  lemma ExpiredAreRows(db: Db, now: int)
    ensures ExpiredJobs(db, now) <= db.jobs.Keys
  {}

  lemma NoneReaped(s0: Sys, s: Sys, acts: seq<Act>, found: set<JobId>)
    requires Ran(s0, s, acts) && forall a <- acts :: ControlAct(a)
    requires s == Sys(s0.db, s0.seen, s0.judged, s0.pending.(reap := s0.pending.reap + Findings(s0.db.jobs, found)))
    ensures ReapUnderway(s0, s, acts, {}, found)
  {
    hide Ran, Findings, ControlAct, Target, Moving;
  }

  lemma OthersReap(
    s0: Sys, s: Sys, acts: seq<Act>, done: set<JobId>, todo: set<JobId>, actions: map<JobId, JobState>, now: int,
      quiet: bool, moved: seq<Act>)
    requires ReapWorking(s0, s, acts, done, todo, actions, now, quiet) && (quiet ==> moved == [])
    requires Findings(s0.db.jobs, todo) <= Run(s, moved).pending.reap
    ensures ReapWorking(s0, Run(s, moved), acts + moved, done, todo, actions, now, quiet)
  {
    hide Run, Inv, ReapUnderway, Findings, ExpiredJobs, Reported, Tried;
    OthersMove(s0, s, acts, moved);
    forall j <- ExpiredJobs(s0.db, now) ensures j in Run(s, moved).db.jobs {
      HeldRun(s, moved, Reaping, j);
      HeldIsThere(Run(s, moved).db, Reaping, j);
    }
    forall j <- done ensures Tried(s0, acts + moved, s0.db.jobs[j], j, now, j in actions) {
      TriedStays(s0, acts, moved, s0.db.jobs[j], j, now, j in actions);
    }
  }

  // The transition, made on what was read: it uses the finding up, whether it is accepted or not.
  lemma ReapStep(s: Sys, row: Job, j: JobId, now: int)
    requires FindOf(row, j) in s.pending.reap && row.Leased() && j in s.db.jobs
    ensures var q := ChoreRequest(Reaping, row, j, now);
      && Step(s, ReapAct(row, j, now)) ==
        Sys(Move(s.db, q), s.seen, s.judged, s.pending.(reap := s.pending.reap - multiset{FindOf(row, j)}))
      && MoveRefusal(s.db, q) == if InState(s.db, j, row.state) then None else Some(StaleState)
  {
    hide Step;
    var q := ChoreRequest(Reaping, row, j, now);
    assert ReapCall(FindOf(row, j), now) == q;
    MoveStep(s, ReapAct(row, j, now), q);
  }

  // Taking one job off the list
  ghost predicate Turned(s: Sys, t: Sys, row: Job, j: JobId, now: int) {
    var q := ChoreRequest(Reaping, row, j, now);
    t == Sys(Move(s.db, q), s.seen, s.judged, s.pending.(reap := s.pending.reap - multiset{FindOf(row, j)}))
  }

  function Moved(actions: map<JobId, JobState>, row: Job, j: JobId, moved: bool): map<JobId, JobState> {
    if moved then actions[j := Target(Reaping, row)] else actions
  }

  lemma ReapTurn(
    s0: Sys, s: Sys, t: Sys, acts: seq<Act>, done: set<JobId>, todo: set<JobId>, actions: map<JobId, JobState>,
      row: Job, j: JobId,
    now: int, moved: bool, quiet: bool)
    requires ReapWorking(s0, s, acts, done, todo, actions, now, quiet) && j in todo && j in s0.db.jobs && row == s0.db.jobs[j]
    requires Turned(s, t, row, j, now) && moved == MoveRefusal(s.db, ChoreRequest(Reaping, row, j, now)).None?
    ensures ReapWorking(s0, t, acts + [ReapAct(row, j, now)], done + {j}, todo - {j}, Moved(actions, row, j, moved), now, quiet)
  {
    FoundRow(s0, s, now, j, todo);
    MoveFrame(s.db, ChoreRequest(Reaping, row, j, now));
    ReapStep(s, row, j, now);
    hide Run, Inv, Step, Move, MoveRefusal, ReapUnderway, Findings, ExpiredJobs, Reported, Tried, AllTried, ChoreRequest;
    hide Target, InState, Moved;
    OneMore(s0, s, acts, ReapAct(row, j, now));
    OthersTried(s0, acts, done, actions, j, now, row, moved);
    TokenUsed(s0.db.jobs, s.pending.reap, todo, j);
    Sizes(done, todo, j);
    if quiet { ReapsOn(s0, s, t, acts, done, todo, j, now); MovedAll(actions, row, j, done); }
  }

  lemma Sizes(done: set<JobId>, todo: set<JobId>, j: JobId)
    requires done !! todo && j in todo
    ensures done + {j} !! todo - {j} && done + {j} + (todo - {j}) == done + todo
  {}

  lemma MovedAll(actions: map<JobId, JobState>, row: Job, j: JobId, done: set<JobId>)
    requires actions.Keys == done
    ensures Moved(actions, row, j, true).Keys == done + {j}
  {}

  lemma FoundRow(s0: Sys, s: Sys, now: int, j: JobId, todo: set<JobId>)
    requires j in todo && todo <= ExpiredJobs(s0.db, now) && Findings(s0.db.jobs, todo) <= s.pending.reap
    requires ExpiredJobs(s0.db, now) <= s.db.jobs.Keys
    ensures j in s0.db.jobs && s0.db.jobs[j].Leased() && j in s.db.jobs && FindOf(s0.db.jobs[j], j) in s.pending.reap
  {
    assert FindOf(s0.db.jobs[j], j) in FindSet(s0.db.jobs, todo);
    assert FindOf(s0.db.jobs[j], j) in Findings(s0.db.jobs, todo);
  }

  lemma OthersTried(
    s0: Sys, acts: seq<Act>, done: set<JobId>, actions: map<JobId, JobState>, j: JobId, now: int, row: Job, moved: bool)
    requires AllTried(s0, acts, done, actions, now) && Reported(actions, s0.db.jobs, done) && j !in done
    requires j in s0.db.jobs && row == s0.db.jobs[j]
    requires moved <==> InState(Run(s0, acts).db, j, row.state)
    ensures AllTried(s0, acts + [ReapAct(row, j, now)], done + {j}, Moved(actions, row, j, moved), now)
    ensures Reported(Moved(actions, row, j, moved), s0.db.jobs, done + {j})
  {
    hide Run, Tried, InState, Target, ReapAct;
    var next := Moved(actions, row, j, moved);
    assert j !in actions && (j in next <==> moved) && forall i <- done :: i in next <==> i in actions;
    TriedNow(s0, acts, row, j, now, moved);
    forall i <- done ensures Tried(s0, acts + [ReapAct(row, j, now)], s0.db.jobs[i], i, now, i in next) {
      TriedStays(s0, acts, [ReapAct(row, j, now)], s0.db.jobs[i], i, now, i in actions);
    }
  }

  lemma TokenUsed(rows: map<JobId, Job>, reap: multiset<Find>, todo: set<JobId>, j: JobId)
    requires Findings(rows, todo) <= reap && j in todo && j in rows
    ensures Findings(rows, todo - {j}) <= reap - multiset{FindOf(rows[j], j)}
    ensures Findings(rows, todo) == Findings(rows, todo - {j}) + multiset{FindOf(rows[j], j)}
  {
    FindingsPush(rows, todo - {j}, j);
    assert todo - {j} + {j} == todo;
  }

  lemma ReapsOn(s0: Sys, s: Sys, t: Sys, acts: seq<Act>, done: set<JobId>, todo: set<JobId>, j: JobId, now: int)
    requires ReapUnderway(s0, s, acts, done, todo) && j in todo && j !in done && j in ExpiredJobs(s0.db, now) && j in s0.db.jobs
    requires Turned(s, t, s0.db.jobs[j], j, now) && Ran(s0, t, acts + [ReapAct(s0.db.jobs[j], j, now)])
    ensures MoveRefusal(s.db, ChoreRequest(Reaping, s0.db.jobs[j], j, now)).None?
    ensures ReapUnderway(s0, t, acts + [ReapAct(s0.db.jobs[j], j, now)], done + {j}, todo - {j})
  {
    hide Run, Inv;
    ReapIsLegal(s0.db, s.db, done, j, now);
    hide Does, ExpiredJobs, Findings, Move, MoveRefusal, ChoreRequest, Ran, Exhausted, FindOf;
    ChoreMoves(s0.db, s.db, Reaping, done, j, now);
    TokenUsed(s0.db.jobs, Findings(s0.db.jobs, todo), todo, j);
    TokenGone(s0.pending.reap, Findings(s0.db.jobs, todo - {j}), FindOf(s0.db.jobs[j], j));
    OneMoreDone(done, j);
    StillControl(acts, ReapAct(s0.db.jobs[j], j, now));
    hide ControlAct, ReapAct;
  }

  lemma OneMoreDone(done: set<JobId>, j: JobId)
    requires j !in done
    ensures |done + {j}| == |done| + 1
  {}

  lemma StillControl(acts: seq<Act>, a: Act)
    requires (forall b <- acts :: ControlAct(b)) && a.Reap?
    ensures forall b <- acts + [a] :: ControlAct(b)
  {}

  lemma TokenGone(a: multiset<Find>, b: multiset<Find>, f: Find)
    ensures a + (b + multiset{f}) - multiset{f} == a + b
  {}

  lemma ReapIsLegal(a: Db, b: Db, done: set<JobId>, j: JobId, now: int)
    requires Does(a, b, done, Reaping) && j in ExpiredJobs(a, now) && j !in done
    ensures j in a.jobs && MoveRefusal(b, ChoreRequest(Reaping, a.jobs[j], j, now)).None?
  {}

  // What reap_expired leaves. It tried every job it had read, and moved those that were as it had read them; with nobody
  // else at work these are all the expired jobs.
  ghost predicate Reaped(s0: Sys, s: Sys, acts: seq<Act>, actions: map<JobId, JobState>, now: int, quiet: bool) {
    && Ran(s0, s, acts) && AllTried(s0, acts, ExpiredJobs(s0.db, now), actions, now)
    && Reported(actions, s0.db.jobs, ExpiredJobs(s0.db, now))
    && (quiet ==> Chored(s0, s, acts, Reaping, now) && actions.Keys == ExpiredJobs(s0.db, now))
  }

  lemma FinishReaping(s0: Sys, s: Sys, acts: seq<Act>, done: set<JobId>, actions: map<JobId, JobState>, now: int, quiet: bool)
    requires ReapWorking(s0, s, acts, done, {}, actions, now, quiet)
    ensures Reaped(s0, s, acts, actions, now, quiet)
  {
    hide Chored, AllTried, Run, Inv;
    assert done == ExpiredJobs(s0.db, now);
    if quiet {
      NoFindings(s0.db.jobs);
      hide Findings;
      assert s0.pending.reap + multiset{} == s0.pending.reap;
      FinishChore(s0, s, acts, Reaping, now);
    }
  }

  lemma ReapRequest(row: Job, j: JobId, now: int)
    ensures Target(Reaping, row) == if row.attempt >= row.maxAttempts then Failed else Queued
    ensures ChoreRequest(Reaping, row, j, now) == Plain(j, Target(Reaping, row), REAPER, Some(row.state), now)
  {}

  // The transition of one expired job, on the row that was read
  method ReapRow(store: Store, row: Job, j: JobId, now: int) returns (toState: JobState, refusal: Option<Refusal>)
    requires store.Fresh()
    modifies store
    ensures Turned(old(store.Sys()), store.Sys(), row, j, now) && store.Fresh() && toState == Target(Reaping, row)
    ensures refusal == MoveRefusal(old(store.Db()), ChoreRequest(Reaping, row, j, now))
  {
    hide Move, MoveRefusal, ChoreRequest, Target, FindOf, Turned;
    ghost var s := store.Sys();
    var exhausted := row.attempt >= row.maxAttempts;
    toState := if exhausted then Failed else Queued;
    var q := Plain(j, toState, REAPER, Some(row.state), now);
    ReapRequest(row, j, now);
    MoveFrame(store.Db(), q);
    refusal := store.Transition(q);
    store.pending := store.pending.(reap := store.pending.reap - multiset{FindOf(row, j)});
    IsTurned(s, store.Sys(), row, j, now);
  }

  lemma IsTurned(s: Sys, t: Sys, row: Job, j: JobId, now: int)
    requires t.db == Move(s.db, ChoreRequest(Reaping, row, j, now)) && t.seen == s.seen && t.judged == s.judged
    requires t.pending == s.pending.(reap := s.pending.reap - multiset{FindOf(row, j)})
    ensures Turned(s, t, row, j, now)
  {}

  method ReapExpired(store: Store, now: int, others: Others) returns (actions: map<JobId, JobState>, ghost acts: seq<Act>)
    requires Inv(store.Sys()) && store.Fresh()
    modifies store
    ensures Reaped(old(store.Sys()), store.Sys(), acts, actions, now, Quiet(others)) && store.Fresh()
    ensures Quiet(others) ==> Columns.RowsReaped(old(store.jobs), store.jobs, actions, now)
  {
    hide Columns.RowsReaped;
    hide ExpiredJobs, Inv, Move, MoveRefusal, Run, Step, ReapWorking, Reaped, Findings, Holds, Ran, ReapAct, ControlAct;
    hide Reported, ChoreRequest, Target, Turned;
    ghost var s0, quiet := store.Sys(), Quiet(others);
    var rows, i: nat := store.jobs, 0;
    var todo;
    todo, acts := FindAll(store, now);
    ghost var done: set<JobId> := {};
    actions := map[];
    StartReaping(s0, store.Sys(), acts, todo, now, quiet);
    while todo != {}
      invariant ReapWorking(s0, store.Sys(), acts, done, todo, actions, now, quiet) && store.Fresh()
    {
      var j := Choose(todo);
      OnTheList(s0, store.Sys(), acts, done, todo, actions, j, now, quiet);
      ghost var s := store.Sys();
      ghost var moved := store.InterfereSparing(others(i), NOTHING.(reap := Findings(rows, todo)));
      SparedFindings(store.pending, Findings(rows, todo));
      OthersReap(s0, s, acts, done, todo, actions, now, quiet, moved);
      s, acts := store.Sys(), acts + moved;
      var toState, refusal := ReapRow(store, rows[j], j, now);
      ReapTurn(s0, s, store.Sys(), acts, done, todo, actions, rows[j], j, now, refusal.None?, quiet);
      acts, done, todo, i := acts + [ReapAct(rows[j], j, now)], done + {j}, todo - {j}, i + 1;
      if refusal.None? { actions := actions[j := toState]; }
    }
    FinishReaping(s0, store.Sys(), acts, done, actions, now, quiet);
    if quiet { ReapedColumns(s0, store.Sys(), acts, actions, now); }
  }

  lemma ReapedColumns(s0: Sys, s: Sys, acts: seq<Act>, actions: map<JobId, JobState>, now: int)
    requires Reaped(s0, s, acts, actions, now, true)
    ensures Columns.RowsReaped(s0.db.jobs, s.db.jobs, actions, now)
  {
    hide Ran, AllTried, Progressed, ExpiredJobs, Does, Worked, Target, Columns.RowsReaped;
    ReapColumns(s0.db, s.db, actions, now);
  }

  lemma OnTheList(
    s0: Sys, s: Sys, acts: seq<Act>, done: set<JobId>, todo: set<JobId>, actions: map<JobId, JobState>, j: JobId,
      now: int, quiet: bool)
    requires ReapWorking(s0, s, acts, done, todo, actions, now, quiet) && j in todo
    ensures Holds(s.pending, NOTHING.(reap := Findings(s0.db.jobs, todo))) && j in s0.db.jobs
  {
    hide ReapUnderway, Ran, AllTried;
    hide Findings;
  }

  lemma SparedFindings(p: Pending, f: multiset<Find>)
    requires Holds(p, NOTHING.(reap := f))
    ensures f <= p.reap
  {}
}
