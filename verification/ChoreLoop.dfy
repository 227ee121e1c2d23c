/**
 The phases of control_tick that move one job at a time, as loops over the store: each selects its rows once and tries a
 compare-and-set on each of them, while other processes move rows in between. Whatever they do, the phase is a run of the
 protocol and every selected row is moved on, by this loop or another; if they do nothing, it does what Control says.
 */
module ChoreLoop {
  import opened Wrappers
  import opened Rows
  import opened Sets
  import opened Substrate
  import opened Protocol
  import opened Effects
  import opened EventLog
  import opened Structure
  import opened Readiness
  import opened Control
  import opened ControlEnds
  import opened Storage
  import opened Interference
  import opened Phases
  import Columns

  function WorkOf(c: Chore, db: Db, now: int): set<JobId> {
    match c
    case Reaping => ExpiredJobs(db, now)
    case Enqueueing => ApprovedJobs(db)
    case Accepting => DoneSupport(db)
    case Cancelling => DeadBranches(db)
  }

  // The call made for row j, as it was when it was selected
  function ChoreRequest(c: Chore, row: Job, j: JobId, now: int): Request {
    match c
    case Reaping => Plain(j, Target(c, row), REAPER, Some(row.state), now)
    case Enqueueing => Plain(j, Queued, SCHEDULER, Some(Approved), now)
    case Accepting => Plain(j, Accepted, Agent, Some(Succeeded), now)
    case Cancelling => Plain(j, Cancelled, SCHEDULER, Some(row.state), now)
  }

  function ChoreAct(c: Chore, j: JobId, now: int): Act
    requires !c.Reaping?
  {
    match c
    case Enqueueing => Enqueue(j, now)
    case Accepting => AcceptSupport(j, now)
    case Cancelling => CancelDead(j, now)
  }

  /******* With nobody else at work *******/

  // Part of the work of a phase is done.
  ghost predicate Underway(s0: Sys, s: Sys, acts: seq<Act>, c: Chore, done: set<JobId>, now: int) {
    && Progressed(s0, s, acts) && Does(s0.db, s.db, done, c)
    && s0.db.log <= s.db.log && |s.db.log| == |s0.db.log| + |done| && done <= WorkOf(c, s0.db, now)
  }

  lemma StartChore(s: Sys, c: Chore, now: int)
    requires Inv(s)
    ensures Underway(s, s, [], c, {}, now)
  {
    hide Step;
  }

  lemma ChoreIsLegal(s0: Sys, s: Sys, c: Chore, done: set<JobId>, j: JobId, now: int)
    requires Does(s0.db, s.db, done, c) && j in WorkOf(c, s0.db, now) && j !in done && !c.Reaping?
    ensures j in s0.db.jobs && s.db.jobs[j] == s0.db.jobs[j]
    ensures MoveRefusal(s.db, ChoreRequest(c, s0.db.jobs[j], j, now)).None?
    ensures Enabled(s, ChoreAct(c, j, now))
    ensures SingleMove(s.db, ChoreAct(c, j, now)) == Some(ChoreRequest(c, s0.db.jobs[j], j, now))
  {
    hide Enabled, SingleMove, MoveRefusal;
    if c.Cancelling? {
      StillDead(s0, s, done, j, now);
    } else {
      NotCancelling(s0, s, c, done, j, now);
    }
  }

  lemma NotCancelling(s0: Sys, s: Sys, c: Chore, done: set<JobId>, j: JobId, now: int)
    requires Does(s0.db, s.db, done, c) && j in WorkOf(c, s0.db, now) && j !in done && !c.Cancelling? && !c.Reaping?
    ensures j in s0.db.jobs && s.db.jobs[j] == s0.db.jobs[j]
    ensures MoveRefusal(s.db, ChoreRequest(c, s0.db.jobs[j], j, now)).None?
    ensures Enabled(s, ChoreAct(c, j, now))
    ensures SingleMove(s.db, ChoreAct(c, j, now)) == Some(ChoreRequest(c, s0.db.jobs[j], j, now))
  {}

  lemma StillDead(s0: Sys, s: Sys, done: set<JobId>, j: JobId, now: int)
    requires Does(s0.db, s.db, done, Cancelling) && j in DeadBranches(s0.db) && j !in done
    ensures j in s0.db.jobs && s.db.jobs[j] == s0.db.jobs[j]
    ensures MoveRefusal(s.db, ChoreRequest(Cancelling, s0.db.jobs[j], j, now)).None?
    ensures Enabled(s, CancelDead(j, now))
    ensures SingleMove(s.db, CancelDead(j, now)) == Some(ChoreRequest(Cancelling, s0.db.jobs[j], j, now))
  {
    hide MoveRefusal, Enabled, SingleMove;
    StaysDead(s0.db, s.db, done, j);
    DeadRefusal(s.db, j, now);
    TryEnabled(s, Cancelling, s.db.jobs[j], j, now);
  }

  lemma StaysDead(a: Db, b: Db, done: set<JobId>, j: JobId)
    requires Does(a, b, done, Cancelling) && j in DeadBranches(a) && j !in done
    ensures j in a.jobs && b.jobs[j] == a.jobs[j] && j in DeadBranches(b) && Held(Cancelling, b, j) && PreQueue(b.jobs[j].state)
  {
    var d :| d in a.deps && d.job == j && d.on in a.jobs && Dead(a.jobs[d.on].state);
    assert Dead(b.jobs[d.on].state);
  }

  lemma DeadRefusal(db: Db, j: JobId, now: int)
    requires j in db.jobs && PreQueue(db.jobs[j].state)
    ensures MoveRefusal(db, ChoreRequest(Cancelling, db.jobs[j], j, now)).None?
  {}

  lemma ChoreRow(c: Chore, row: Job, j: JobId, now: int)
    ensures MovedRow(row, ChoreRequest(c, row, j, now)) == Moving(row, Target(c, row))
    ensures ChoreRequest(c, row, j, now).job == j
  {}

  lemma ChoreMoves(a: Db, b: Db, c: Chore, done: set<JobId>, j: JobId, now: int)
    requires Does(a, b, done, c) && j in a.jobs && j !in done
    requires MoveRefusal(b, ChoreRequest(c, a.jobs[j], j, now)).None?
    ensures Does(a, Move(b, ChoreRequest(c, a.jobs[j], j, now)), done + {j}, c)
    ensures b.log <= Move(b, ChoreRequest(c, a.jobs[j], j, now)).log
    ensures |Move(b, ChoreRequest(c, a.jobs[j], j, now)).log| == |b.log| + 1
  {
    ChoreRow(c, a.jobs[j], j, now);
    hide MovedRow, Moving, Target, MoveRefusal, ChoreRequest;
  }

  lemma ChoreStep(s0: Sys, s: Sys, acts: seq<Act>, c: Chore, done: set<JobId>, j: JobId, now: int)
    requires Underway(s0, s, acts, c, done, now) && j in WorkOf(c, s0.db, now) && j !in done && !c.Reaping?
    ensures j in s0.db.jobs && MoveRefusal(s.db, ChoreRequest(c, s0.db.jobs[j], j, now)).None?
    ensures Underway(s0, Sys(Move(s.db, ChoreRequest(c, s0.db.jobs[j], j, now)), s.seen, s.judged, s.pending),
      acts + [ChoreAct(c, j, now)], c, done + {j}, now)
  {
    hide Enabled, SingleMove, Does, Move, MoveRefusal, WorkOf, Run, Inv, ChoreRequest, Progressed, Ran;
    ChoreIsLegal(s0, s, c, done, j, now);
    ChoreMoves(s0.db, s.db, c, done, j, now);
    ProgressedRan(s0, s, acts);
    MoveTurn(s0, s, acts, ChoreAct(c, j, now), ChoreRequest(c, s0.db.jobs[j], j, now));
  }

  lemma ProgressedRan(s0: Sys, s: Sys, acts: seq<Act>)
    requires Progressed(s0, s, acts)
    ensures Ran(s0, s, acts)
  {
    hide Run, Inv;
  }

  // All of the work of a phase is done, and nothing else.
  ghost predicate Chored(s0: Sys, s: Sys, acts: seq<Act>, c: Chore, now: int) {
    Progressed(s0, s, acts) && Worked(s0.db, s.db, WorkOf(c, s0.db, now)) && Does(s0.db, s.db, WorkOf(c, s0.db, now), c)
  }

  lemma NoWork(a: Db, b: Db, c: Chore)
    requires Does(a, b, {}, c) && a.log <= b.log && |b.log| == |a.log|
    ensures b == a
  {
    forall j <- a.jobs ensures b.jobs[j] == a.jobs[j] { assert j !in {}; }
    assert b.jobs == a.jobs && b.log == a.log;
  }

  lemma FinishChore(s0: Sys, s: Sys, acts: seq<Act>, c: Chore, now: int)
    requires Underway(s0, s, acts, c, WorkOf(c, s0.db, now), now)
    ensures Chored(s0, s, acts, c, now) && s.db.jobs.Keys == s0.db.jobs.Keys
  {
    hide Progressed;
    if WorkOf(c, s0.db, now) == {} { NoWork(s0.db, s.db, c); }
  }

  /******* With others at work *******/

  // Part of the work is done: the rows selected are still held, those done are past; and with nobody else at work more.
  ghost predicate Working(s0: Sys, s: Sys, acts: seq<Act>, c: Chore, done: set<JobId>, now: int, quiet: bool) {
    Holding(s0, s, acts, c, done, now) && (quiet ==> Underway(s0, s, acts, c, done, now))
  }

  ghost predicate Holding(s0: Sys, s: Sys, acts: seq<Act>, c: Chore, done: set<JobId>, now: int) {
    && Ran(s0, s, acts) && done <= WorkOf(c, s0.db, now)
    && (forall j <- WorkOf(c, s0.db, now) :: Held(c, s.db, j))
    && (forall j <- done :: Passed(c, s.db, j))
  }

  predicate Passed(c: Chore, db: Db, j: JobId) { j in db.jobs && Past(c, db.jobs[j].state) }

  lemma StartWorking(s: Sys, c: Chore, now: int, quiet: bool)
    requires Inv(s)
    ensures Working(s, s, [], c, {}, now, quiet)
  {
    StartChore(s, c, now);
    forall j <- WorkOf(c, s.db, now) ensures Held(c, s.db, j) {}
  }

  lemma OthersWork(s0: Sys, s: Sys, acts: seq<Act>, c: Chore, done: set<JobId>, now: int, quiet: bool, others: seq<Act>)
    requires Working(s0, s, acts, c, done, now, quiet) && (quiet ==> others == [])
    ensures Working(s0, Run(s, others), acts + others, c, done, now, quiet)
  {
    hide Run, Inv, Underway, Held, Past, WorkOf;
    OthersMove(s0, s, acts, others);
    forall j <- WorkOf(c, s0.db, now)
      ensures Held(c, Run(s, others).db, j) && (Passed(c, s.db, j) ==> Passed(c, Run(s, others).db, j))
    {
      HeldRun(s, others, c, j);
      HeldIsThere(s.db, c, j);
      HeldIsThere(Run(s, others).db, c, j);
    }
  }

  // The compare-and-set on a row that is still held: a step of the protocol, or too late
  lemma TryIsLegal(s: Sys, c: Chore, row: Job, j: JobId, now: int)
    requires !c.Reaping? && Held(c, s.db, j) && (c.Cancelling? ==> PreQueue(row.state))
    ensures var q, a := ChoreRequest(c, row, j, now), ChoreAct(c, j, now);
      && MoveRefusal(s.db, q) in {None, Some(StaleState)}
      && (MoveRefusal(s.db, q).None? ==> Enabled(s, a) && SingleMove(s.db, a) == Some(q))
      && Passed(c, Move(s.db, q), j)
  {
    var q, a := ChoreRequest(c, row, j, now), ChoreAct(c, j, now);
    TryPasses(s.db, c, row, j, now);
    TryRefusal(s.db, c, row, j, now);
    if MoveRefusal(s.db, q).None? { TryEnabled(s, c, row, j, now); }
    hide MoveRefusal, Move, Enabled, SingleMove, Held;
  }

  lemma TryPasses(db: Db, c: Chore, row: Job, j: JobId, now: int)
    requires !c.Reaping? && Held(c, db, j)
    ensures Passed(c, Move(db, ChoreRequest(c, row, j, now)), j)
  {}

  lemma TryRefusal(db: Db, c: Chore, row: Job, j: JobId, now: int)
    requires !c.Reaping? && Held(c, db, j) && (c.Cancelling? ==> PreQueue(row.state))
    ensures MoveRefusal(db, ChoreRequest(c, row, j, now)) in {None, Some(StaleState)}
  {}

  lemma TryEnabled(s: Sys, c: Chore, row: Job, j: JobId, now: int)
    requires !c.Reaping? && Held(c, s.db, j) && (c.Cancelling? ==> PreQueue(row.state))
    requires MoveRefusal(s.db, ChoreRequest(c, row, j, now)).None?
    ensures Enabled(s, ChoreAct(c, j, now)) && SingleMove(s.db, ChoreAct(c, j, now)) == Some(ChoreRequest(c, row, j, now))
  {}

  lemma MovePasses(db: Db, q: Request, c: Chore, row: Job, j: JobId, now: int, work: set<JobId>, done: set<JobId>)
    requires !c.Reaping? && q == ChoreRequest(c, row, j, now) && (forall i <- work :: Held(c, db, i)) && j in work && done <= work
    requires (c.Cancelling? ==> PreQueue(row.state)) && forall i <- done :: Passed(c, db, i)
    ensures (forall i <- work :: Held(c, Move(db, q), i)) && forall i <- done + {j} :: Passed(c, Move(db, q), i)
  {
    HeldMoves(db, q, c, row, j, now);
    hide Held, Past, ChoreRequest;
    forall i <- work ensures Held(c, Move(db, q), i) && (Passed(c, db, i) ==> Passed(c, Move(db, q), i)) {
      HeldElsewhere(db, q, c, i);
    }
  }

  lemma HeldMoves(db: Db, q: Request, c: Chore, row: Job, j: JobId, now: int)
    requires !c.Reaping? && q == ChoreRequest(c, row, j, now) && Held(c, db, j) && (c.Cancelling? ==> PreQueue(row.state))
    ensures q.job == j && Passed(c, Move(db, q), j) && q.to in {Queued, Accepted, Cancelled}
    ensures Held(c, Move(db, q), j)
  {}

  // Nothing dead comes to life, and no other row moves.
  lemma HeldElsewhere(db: Db, q: Request, c: Chore, i: JobId)
    requires Held(c, db, i) && q.to in {Queued, Accepted, Cancelled}
    requires i == q.job ==> Held(c, Move(db, q), i) && Passed(c, Move(db, q), i)
    ensures Held(c, Move(db, q), i) && (Passed(c, db, i) ==> Passed(c, Move(db, q), i))
  {
    if MoveRefusal(db, q).None? && c.Cancelling? {
      var d :| d in db.deps && d.job == i && d.on in db.jobs && Dead(db.jobs[d.on].state);
      assert d.on != q.job;
    }
  }

  lemma WorkStep(s0: Sys, s: Sys, acts: seq<Act>, c: Chore, done: set<JobId>, j: JobId, now: int, quiet: bool)
    requires Working(s0, s, acts, c, done, now, quiet) && !c.Reaping? && j in WorkOf(c, s0.db, now) && j !in done
    ensures j in s0.db.jobs
    ensures var q := ChoreRequest(c, s0.db.jobs[j], j, now);
      && Working(s0, Sys(Move(s.db, q), s.seen, s.judged, s.pending),
                 if MoveRefusal(s.db, q).None? then acts + [ChoreAct(c, j, now)] else acts, c, done + {j}, now, quiet)
      && (quiet ==> MoveRefusal(s.db, q).None?)
  {
    hide Run, Inv;
    WorkRow(s0.db, c, j, now);
    hide Holding, Underway, WorkOf, Move, MoveRefusal, ChoreRequest;
    HoldStep(s0, s, acts, c, done, j, now);
    if quiet { ChoreStep(s0, s, acts, c, done, j, now); }
  }

  lemma HoldStep(s0: Sys, s: Sys, acts: seq<Act>, c: Chore, done: set<JobId>, j: JobId, now: int)
    requires Holding(s0, s, acts, c, done, now) && !c.Reaping? && j in WorkOf(c, s0.db, now) && j in s0.db.jobs
    ensures var q := ChoreRequest(c, s0.db.jobs[j], j, now);
      Holding(s0, Sys(Move(s.db, q), s.seen, s.judged, s.pending),
              if MoveRefusal(s.db, q).None? then acts + [ChoreAct(c, j, now)] else acts, c, done + {j}, now)
  {
    hide Inv, Held, Past, WorkOf, Enabled, SingleMove, Move, MoveRefusal, ChoreRequest, Progressed, Ran, Passed;
    WorkRow(s0.db, c, j, now);
    var row := s0.db.jobs[j];
    var q := ChoreRequest(c, row, j, now);
    TryIsLegal(s, c, row, j, now);
    MovePasses(s.db, q, c, row, j, now, WorkOf(c, s0.db, now), done);
    if MoveRefusal(s.db, q).None? {
      MoveTurn(s0, s, acts, ChoreAct(c, j, now), q);
    } else {
      MoveFrame(s.db, q);
    }
  }

  lemma WorkRow(db: Db, c: Chore, j: JobId, now: int)
    requires j in WorkOf(c, db, now)
    ensures j in db.jobs && (c.Cancelling? ==> PreQueue(db.jobs[j].state))
  {}

  // _try(transition, ...): a lost race is no error.
  method Try(
    store: Store, q: Request, others: seq<Act>, ghost s0: Sys, ghost past: seq<Act>, ghost c: Chore, ghost done: set<JobId>,
    ghost j: JobId, ghost now: int, ghost quiet: bool)
    returns (moved: bool, ghost acts: seq<Act>)
    requires Working(s0, store.Sys(), past, c, done, now, quiet) && !c.Reaping? && (quiet ==> others == [])
    requires j in WorkOf(c, s0.db, now) && j !in done && j in s0.db.jobs && q == ChoreRequest(c, s0.db.jobs[j], j, now)
    modifies store
    ensures Working(s0, store.Sys(), acts, c, done + {j}, now, quiet) && store.Fresh() && (quiet ==> moved)
  {
    hide Working, Move, MoveRefusal, ChoreRequest, WorkOf, Run;
    OthersWork(s0, store.Sys(), past, c, done, now, quiet, others);
    store.Interfere(others);
    WorkStep(s0, store.Sys(), past + others, c, done, j, now, quiet);
    MoveFrame(store.Db(), q);
    var refusal := store.Transition(q);
    moved := refusal.None?;
    acts := if moved then past + others + [ChoreAct(c, j, now)] else past + others;
  }

  // Every row selected has been moved on, with the numbers the phase reports.
  ghost predicate Finished(s0: Sys, s: Sys, acts: seq<Act>, c: Chore, now: int, n: nat, quiet: bool) {
    && Ran(s0, s, acts) && (forall j <- WorkOf(c, s0.db, now) :: Passed(c, s.db, j)) && n <= |WorkOf(c, s0.db, now)|
    && (quiet ==> Chored(s0, s, acts, c, now) && n == |WorkOf(c, s0.db, now)|)
  }

  lemma FinishWork(s0: Sys, s: Sys, acts: seq<Act>, c: Chore, now: int, n: nat, quiet: bool)
    requires Working(s0, s, acts, c, WorkOf(c, s0.db, now), now, quiet) && n <= |WorkOf(c, s0.db, now)|
    requires quiet ==> n == |WorkOf(c, s0.db, now)|
    ensures Finished(s0, s, acts, c, now, n, quiet)
  {
    hide Run, Inv;
    if quiet { FinishChore(s0, s, acts, c, now); }
    hide Chored;
  }

  lemma IsChored(s0: Sys, s: Sys, acts: seq<Act>, c: Chore, now: int, n: nat)
    requires Finished(s0, s, acts, c, now, n, true)
    ensures Does(s0.db, s.db, WorkOf(c, s0.db, now), c) && n == |WorkOf(c, s0.db, now)|
  {
    hide Ran, Progressed, Worked, Passed, Does, WorkOf;
  }

  method EnqueueApproved(store: Store, now: int, others: Others) returns (n: nat, ghost acts: seq<Act>)
    requires Inv(store.Sys()) && store.Fresh()
    modifies store
    ensures Finished(old(store.Sys()), store.Sys(), acts, Enqueueing, now, n, Quiet(others)) && store.Fresh()
    ensures Quiet(others) ==> Columns.RowsMoved(old(store.jobs), store.jobs, Columns.Approved_(old(store.jobs)), Queued, n)
  {
    hide Columns.RowsMoved, Columns.Approved_, Columns.Supporting, Columns.DeadBranch;
    hide Working, ApprovedJobs, Inv, Finished, Run, Step;
    ghost var s0, quiet := store.Sys(), Quiet(others);
    var todo, i: nat := ApprovedJobs(store.Db()), 0;
    ghost var done: set<JobId> := {};
    n, acts := 0, [];
    StartWorking(s0, Enqueueing, now, quiet);
    while todo != {}
      invariant done !! todo && done + todo == WorkOf(Enqueueing, s0.db, now)
      invariant Working(s0, store.Sys(), acts, Enqueueing, done, now, quiet)
      invariant store.Fresh() && n <= |done| && (quiet ==> n == |done|)
    {
      var j := Choose(todo);
      WorkRow(s0.db, Enqueueing, j, now);
      var moved;
      moved, acts := Try(store, Plain(j, Queued, SCHEDULER, Some(Approved), now), others(i), s0, acts, Enqueueing, done,
        j, now, quiet);
      i, done, todo := i + 1, done + {j}, todo - {j};
      if moved { n := n + 1; }
    }
    FinishWork(s0, store.Sys(), acts, Enqueueing, now, n, quiet);
    if quiet {
      IsChored(s0, store.Sys(), acts, Enqueueing, now, n);
      EnqueueColumns(s0.db, store.Db());
    }
  }

  method AutoAcceptSupportJobs(store: Store, now: int, others: Others) returns (n: nat, ghost acts: seq<Act>)
    requires Inv(store.Sys()) && store.Fresh()
    modifies store
    ensures Finished(old(store.Sys()), store.Sys(), acts, Accepting, now, n, Quiet(others)) && store.Fresh()
    ensures Quiet(others) ==> Columns.RowsMoved(old(store.jobs), store.jobs, Columns.Supporting(old(store.jobs)), Accepted, n)
  {
    hide Columns.RowsMoved, Columns.Approved_, Columns.Supporting, Columns.DeadBranch;
    hide Working, DoneSupport, Inv, Finished, Run, Step;
    ghost var s0, quiet := store.Sys(), Quiet(others);
    var todo, i: nat := DoneSupport(store.Db()), 0;
    ghost var done: set<JobId> := {};
    n, acts := 0, [];
    StartWorking(s0, Accepting, now, quiet);
    while todo != {}
      invariant done !! todo && done + todo == WorkOf(Accepting, s0.db, now)
      invariant Working(s0, store.Sys(), acts, Accepting, done, now, quiet)
      invariant store.Fresh() && n <= |done| && (quiet ==> n == |done|)
    {
      var j := Choose(todo);
      WorkRow(s0.db, Accepting, j, now);
      var moved;
      moved, acts := Try(store, Plain(j, Accepted, Agent, Some(Succeeded), now), others(i), s0, acts, Accepting, done,
        j, now, quiet);
      i, done, todo := i + 1, done + {j}, todo - {j};
      if moved { n := n + 1; }
    }
    FinishWork(s0, store.Sys(), acts, Accepting, now, n, quiet);
    if quiet {
      IsChored(s0, store.Sys(), acts, Accepting, now, n);
      SupportColumns(s0.db, store.Db());
    }
  }

  method CancelDeadBranches(store: Store, now: int, others: Others) returns (n: nat, ghost acts: seq<Act>)
    requires Inv(store.Sys()) && store.Fresh()
    modifies store
    ensures Finished(old(store.Sys()), store.Sys(), acts, Cancelling, now, n, Quiet(others)) && store.Fresh()
    ensures Quiet(others) ==> Columns.RowsMoved(old(store.jobs), store.jobs,
      Columns.DeadBranch(old(store.jobs), old(store.deps)), Cancelled, n)
  {
    hide Columns.RowsMoved, Columns.Approved_, Columns.Supporting, Columns.DeadBranch;
    hide Working, DeadBranches, Inv, Finished, Run, Step;
    ghost var s0, quiet := store.Sys(), Quiet(others);
    var rows, todo, i: nat := store.jobs, DeadBranches(store.Db()), 0;
    ghost var done: set<JobId> := {};
    n, acts := 0, [];
    StartWorking(s0, Cancelling, now, quiet);
    while todo != {}
      invariant done !! todo && done + todo == WorkOf(Cancelling, s0.db, now)
      invariant Working(s0, store.Sys(), acts, Cancelling, done, now, quiet)
      invariant store.Fresh() && n <= |done| && (quiet ==> n == |done|)
    {
      var j := Choose(todo);
      WorkRow(s0.db, Cancelling, j, now);
      var moved;
      moved, acts := Try(store, Plain(j, Cancelled, SCHEDULER, Some(rows[j].state), now), others(i), s0, acts,
        Cancelling, done, j, now, quiet);
      i, done, todo := i + 1, done + {j}, todo - {j};
      if moved { n := n + 1; }
    }
    FinishWork(s0, store.Sys(), acts, Cancelling, now, n, quiet);
    if quiet {
      IsChored(s0, store.Sys(), acts, Cancelling, now, n);
      CancelColumns(s0.db, store.Db());
    }
  }
}
