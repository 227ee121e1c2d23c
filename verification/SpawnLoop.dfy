/**
 spawn_triage over the store: failed jobs are flipped to triage, each flip is the lock for creating a TRIAGE child, and
 the repair arm makes the missing children of jobs in triage it has selected. Other processes move between the rows and
 between a flip and the child: a flip may come too late, and a child may be made for a job that has one or has left triage.
 They also move between the creation of a child and its approval: if a human decides on it then, the approval raises, and
 with it the whole tick.
 */
module SpawnLoop {
  import opened Wrappers
  import opened Rows
  import opened Sets
  import opened Substrate
  import opened Protocol
  import opened Effects
  import opened EventLog
  import opened Structure
  import opened History
  import opened Readiness
  import opened Lineage
  import opened Stranded
  import opened Control
  import opened ControlEnds
  import opened Storage
  import opened Interference
  import opened Phases
  import Columns

  /******* The steps of one row *******/

  function Flip(p: JobId, now: int): Request { Plain(p, Triage, Agent, Some(Failed), now) }

  lemma FlipStep(s: Sys, p: JobId, now: int)
    requires p in s.db.jobs
    ensures MoveRefusal(s.db, Flip(p, now)) == if s.db.jobs[p].state == Failed then None else Some(StaleState)
    ensures Step(s, FlipTriage(p, now)) == Sys(Move(s.db, Flip(p, now)), s.seen, s.judged, NextPending(s, FlipTriage(p, now)))
  {
    FlipGuard(s, p, now);
    hide Step, Enabled, SingleMove, MoveRefusal, Move, NextPending;
    MoveStep(s, FlipTriage(p, now), Flip(p, now));
  }

  lemma FlipGuard(s: Sys, p: JobId, now: int)
    requires p in s.db.jobs
    ensures MoveRefusal(s.db, Flip(p, now)) == if s.db.jobs[p].state == Failed then None else Some(StaleState)
    ensures Enabled(s, FlipTriage(p, now)) && SingleMove(s.db, FlipTriage(p, now)) == Some(Flip(p, now))
  {}

  lemma MakeStep(s: Sys, p: JobId, tid: JobId, now: int)
    requires Inv(s) && p in s.pending.make && p in s.db.jobs && tid !in s.db.jobs
    ensures Step(s, MakeTriage(p, tid, now))
         == Sys(Proposes(s.db, TriageJob(s.db.jobs[p], p, tid, now)), s.seen, s.judged,
                s.pending.(make := s.pending.make - multiset{p}, approve := s.pending.approve + {tid}))
    ensures tid !in s.pending.approve
  {
    StructIsLinked(s.db);
    MakeEffect(s, MakeTriage(p, tid, now));
    StepFrame(s, MakeTriage(p, tid, now));
  }

  lemma ApproveStep(s: Sys, n: NewJob, db: Db)
    requires s.db == Proposes(db, n) && n.id in s.pending.approve && CreateRefusal(db, n).None? && n.deps == []
    ensures MoveRefusal(s.db, Plain(n.id, Approved, Agent, None, n.ts)).None?
    ensures Step(s, ApproveTriage(n.id, n.ts)) ==
      Sys(WithJob(db, n), s.seen, s.judged, s.pending.(approve := s.pending.approve - {n.id}))
  {
    hide Step, Enabled, SingleMove, MoveRefusal, Move, NextPending, WithJob, CreateRefusal, CreateJob;
    ProposesIsCreate(db, n);
    IsNew(db, n);
    ApprovalStep(s, n.id, n.ts);
    CreateApproved(db, n);
  }

  lemma IsNew(db: Db, n: NewJob)
    ensures var b := Proposes(db, n); n.id in b.jobs && b.jobs[n.id].state == Proposed
  {}

  function ChildActs(p: JobId, tid: JobId, now: int): seq<Act> { [MakeTriage(p, tid, now), ApproveTriage(tid, now)] }

  // _create_triage_job, as two steps of the protocol
  lemma ChildSteps(s: Sys, p: JobId, tid: JobId, now: int)
    requires Inv(s) && p in s.pending.make && p in s.db.jobs && tid !in s.db.jobs
    ensures var n := TriageJob(s.db.jobs[p], p, tid, now);
      && CreateRefusal(s.db, n).None? && MoveRefusal(Proposes(s.db, n), Plain(tid, Approved, Agent, None, now)).None?
      && Run(s, ChildActs(p, tid, now)) ==
        Sys(WithJob(s.db, n), s.seen, s.judged, s.pending.(make := s.pending.make - multiset{p}))
  {
    var n := TriageJob(s.db.jobs[p], p, tid, now);
    NotRefused(s, p, tid, now);
    hide Step, Inv, Proposes, WithJob, CreateRefusal, TriageJob;
    MakeStep(s, p, tid, now);
    ApproveStep(Step(s, MakeTriage(p, tid, now)), n, s.db);
    RunTwo(s, MakeTriage(p, tid, now), ApproveTriage(tid, now));
    assert s.pending.approve + {tid} - {tid} == s.pending.approve;
  }

  lemma NotRefused(s: Sys, p: JobId, tid: JobId, now: int)
    requires Inv(s) && p in s.db.jobs && tid !in s.db.jobs
    ensures var n := TriageJob(s.db.jobs[p], p, tid, now);
      CreateRefusal(s.db, n).None? && n.id == tid && n.ts == now && n.deps == []
  {
    assert RowOk(s.db, p);
  }

  lemma SameChild(row: Job, now_: Job, p: JobId, tid: JobId, now: int)
    requires SameColumns(row, now_)
    ensures TriageJob(row, p, tid, now) == TriageJob(now_, p, tid, now)
  {}

  /******* _create_triage_job *******/

  // The child is created, others move, and the child is approved.
  function MadeActs(p: JobId, tid: JobId, moved: seq<Act>, now: int): seq<Act> {
    [MakeTriage(p, tid, now)] + moved + [ApproveTriage(tid, now)]
  }

  lemma MadeAtOnce(p: JobId, tid: JobId, now: int)
    ensures MadeActs(p, tid, [], now) == ChildActs(p, tid, now)
  {}

  lemma ApprovalStep(s: Sys, tid: JobId, now: int)
    requires tid in s.pending.approve && tid in s.db.jobs
    ensures var q := Plain(tid, Approved, Agent, None, now);
      && Step(s, ApproveTriage(tid, now)) ==
        Sys(Move(s.db, q), s.seen, s.judged, s.pending.(approve := s.pending.approve - {tid}))
      && (MoveRefusal(s.db, q).None? <==> s.db.jobs[tid].state == Proposed)
  {
    hide Step;
    ApproveGuard(s, tid, now);
    hide Step, Enabled, SingleMove, MoveRefusal, Move, NextPending;
    MoveStep(s, ApproveTriage(tid, now), Plain(tid, Approved, Agent, None, now));
  }

  lemma ApproveGuard(s: Sys, tid: JobId, now: int)
    requires tid in s.pending.approve && tid in s.db.jobs
    ensures var a, q := ApproveTriage(tid, now), Plain(tid, Approved, Agent, None, now);
      && Enabled(s, a) && SingleMove(s.db, a) == Some(q) && (MoveRefusal(s.db, q).None? <==> s.db.jobs[tid].state == Proposed)
      && NextPending(s, a) == s.pending.(approve := s.pending.approve - {tid})
  {}

  // What the others may do to a child that waits for its approval: only a human moves it.
  lemma OnlyHumansMoveIt(s: Sys, moved: seq<Act>, tid: JobId)
    requires Inv(s) && tid in s.db.jobs && s.db.jobs[tid].payload.TriagePayload? && s.db.jobs[tid].state == Proposed
    requires forall a <- moved :: !(a.ApproveTriage? && a.tid == tid)
    ensures InState(Run(s, moved).db, tid, Proposed) || exists a <- moved :: a.HumanMove? && a.j == tid
    ensures Inv(Run(s, moved)) && tid in Run(s, moved).db.jobs && SameColumns(s.db.jobs[tid], Run(s, moved).db.jobs[tid])
  {
    RunKeepsColumns(s, moved);
    InvRun(s, moved);
    hide Inv, Run;
    if forall a <- moved :: !(a.HumanMove? && a.j == tid) { ProposedRun(s, moved, tid); }
  }

  // The row of the child, and what the loop remembers of it
  lemma ChildMade(s: Sys, p: JobId, tid: JobId, now: int, mine: Pending)
    requires Inv(s) && p in s.pending.make && p in s.db.jobs && tid !in s.db.jobs
    requires Holds(s.pending.(make := s.pending.make - multiset{p}), mine)
    ensures var n := TriageJob(s.db.jobs[p], p, tid, now);
      var m := Sys(Proposes(s.db, n), s.seen, s.judged,
        s.pending.(make := s.pending.make - multiset{p}, approve := s.pending.approve + {tid}));
      && Step(s, MakeTriage(p, tid, now)) == m && Inv(m) && CreateRefusal(s.db, n).None?
      && CreateJob(s.db, n) == Proposes(s.db, n)
      && tid in m.db.jobs && m.db.jobs[tid].payload == TriagePayload(p) && m.db.jobs[tid].state == Proposed
      && m.db.jobs[tid].jtype == TRIAGE
      && Holds(m.pending, mine.(approve := {tid})) && n.id == tid
  {
    NotRefused(s, p, tid, now);
    MakeStep(s, p, tid, now);
    InvStep(s, MakeTriage(p, tid, now));
    hide Step, Inv;
    ProposesIsCreate(s.db, TriageJob(s.db.jobs[p], p, tid, now));
  }

  lemma MadeRun(s: Sys, p: JobId, tid: JobId, moved: seq<Act>, now: int)
    ensures Run(s, [MakeTriage(p, tid, now)] + moved) == Run(Step(s, MakeTriage(p, tid, now)), moved)
    ensures Run(s, MadeActs(p, tid, moved, now)) == Step(Run(s, [MakeTriage(p, tid, now)] + moved), ApproveTriage(tid, now))
  {
    hide Step;
    RunConcat(s, [MakeTriage(p, tid, now)], moved);
    RunOne(s, MakeTriage(p, tid, now));
    RunPush(s, [MakeTriage(p, tid, now)] + moved, ApproveTriage(tid, now));
  }

  lemma SameType(r: Job, q: Job)
    requires SameColumns(r, q)
    ensures q.jtype == r.jtype
  {}

  lemma StillHeld(p: Pending, mine: Pending, tid: JobId)
    requires Holds(p, mine.(approve := {tid})) && mine.approve == {}
    ensures tid in p.approve && Holds(p.(approve := p.approve - {tid}), mine)
  {}

  lemma ApprovedRow(db: Db, tid: JobId, now: int)
    requires tid in db.jobs
    ensures var b := Move(db, Plain(tid, Approved, Agent, None, now));
      && b.jobs.Keys == db.jobs.Keys && b.jobs[tid].jtype == db.jobs[tid].jtype
      && (MoveRefusal(db, Plain(tid, Approved, Agent, None, now)).None? ==> b.jobs[tid].state == Approved)
  {}

  // The first half: the child is there, and its creator remembers that it has yet to approve it.
  method CreateChild(store: Store, row: Job, p: JobId, now: int, mine: Pending) returns (id: JobId)
    requires Inv(store.Sys()) && store.Fresh() && p in store.pending.make && p in store.jobs && SameColumns(row, store.jobs[p])
    requires Holds(store.pending.(make := store.pending.make - multiset{p}), mine)
    modifies store
    ensures store.Fresh() && id == old(store.nextId) && id !in old(store.jobs) && Holds(store.pending, mine.(approve := {id}))
    ensures store.Sys() == Step(old(store.Sys()), MakeTriage(p, id, now)) && Inv(store.Sys())
    ensures id in store.jobs && store.jobs[id].payload == TriagePayload(p) && store.jobs[id].state == Proposed
    ensures store.jobs[id].jtype == TRIAGE
  {
    hide Step, Inv, CreateRefusal, SameColumns, TriageJob, Holds, Proposes;
    SameChild(row, store.jobs[p], p, store.nextId, now);
    ChildMade(store.Sys(), p, store.nextId, now, mine);
    var n := TriageJob(row, p, store.nextId, now);
    var refusal;
    id, refusal := store.NewJob(n);
    store.pending := store.pending.(make := store.pending.make - multiset{p}, approve := store.pending.approve + {id});
  }

  // The second half
  method ApproveChild(store: Store, id: JobId, now: int) returns (raised: bool)
    requires store.Fresh() && id in store.pending.approve && id in store.jobs
    modifies store
    ensures store.Fresh() && store.pending == old(store.pending.(approve := store.pending.approve - {id}))
    ensures store.Sys() == Step(old(store.Sys()), ApproveTriage(id, now))
    ensures raised <==> !InState(old(store.Db()), id, Proposed)
    ensures id in store.jobs && store.jobs[id].jtype == old(store.jobs[id].jtype)
    ensures !raised ==> store.jobs[id].state == Approved
  {
    hide Step, MoveRefusal, Move;
    ApprovalStep(store.Sys(), id, now);
    ApprovedRow(store.Db(), id, now);
    var refusal := store.Transition(Plain(id, Approved, Agent, None, now));
    raised := refusal.Some?;
    store.pending := store.pending.(approve := store.pending.approve - {id});
  }

  // For a job read some time before. The approval raises exactly if a human has decided on the child before it.
  method CreateTriageJob(store: Store, row: Job, p: JobId, now: int, between: seq<Act>, mine: Pending)
    returns (id: JobId, raised: bool, ghost moved: seq<Act>)
    requires Inv(store.Sys()) && store.Fresh() && p in store.pending.make && p in store.jobs && SameColumns(row, store.jobs[p])
    requires Holds(store.pending.(make := store.pending.make - multiset{p}), mine) && mine.approve == {}
    modifies store
    ensures store.Fresh() && id == old(store.nextId) && id !in old(store.jobs) && Holds(store.pending, mine)
    ensures store.Sys() == Run(old(store.Sys()), MadeActs(p, id, moved, now)) && (forall a <- moved :: a in between)
    ensures id in store.jobs && store.jobs[id].jtype == TRIAGE
    ensures raised <==> !InState(Run(old(store.Sys()), [MakeTriage(p, id, now)] + moved).db, id, Proposed)
    ensures raised ==> exists a <- moved :: a.HumanMove? && a.j == id
    ensures !raised ==> store.jobs[id].state == Approved
    ensures between == [] ==> !raised && moved == [] && store.Db() == WithJob(old(store.Db()), TriageJob(row, p, id, now))
  {
    hide Run, Step, Inv, SameColumns, TriageJob, Holds, WithJob, InState, MadeActs;
    ghost var s := store.Sys();
    id := CreateChild(store, row, p, now, mine);
    ghost var made := store.Sys();
    moved := store.InterfereSparing(between, mine.(approve := {id}));
    OnlyHumansMoveIt(made, moved, id);
    SameType(made.db.jobs[id], store.jobs[id]);
    MadeRun(s, p, id, moved, now);
    StillHeld(store.pending, mine, id);
    raised := ApproveChild(store, id, now);
    if between == [] { Undisturbed(s, row, p, id, now); }
  }

  lemma Undisturbed(s: Sys, row: Job, p: JobId, tid: JobId, now: int)
    requires Inv(s) && p in s.pending.make && p in s.db.jobs && tid !in s.db.jobs && SameColumns(row, s.db.jobs[p])
    ensures Run(s, MadeActs(p, tid, [], now)).db == WithJob(s.db, TriageJob(row, p, tid, now))
    ensures InState(Run(s, [MakeTriage(p, tid, now)] + []).db, tid, Proposed)
  {
    hide Run, Step, Inv, TriageJob, WithJob, Enabled, Proposes, CreateRefusal;
    SameChild(row, s.db.jobs[p], p, tid, now);
    ChildSteps(s, p, tid, now);
    MadeAtOnce(p, tid, now);
    NotRefused(s, p, tid, now);
    MakeStep(s, p, tid, now);
    IsNew(s.db, TriageJob(row, p, tid, now));
    assert [MakeTriage(p, tid, now)] + [] == [MakeTriage(p, tid, now)];
    RunOne(s, MakeTriage(p, tid, now));
  }

  lemma RaisedHere(s0: Sys, s: Sys, past: seq<Act>, p: JobId, tid: JobId, moved: seq<Act>, now: int)
    requires s == Run(s0, past) && !InState(Run(s, [MakeTriage(p, tid, now)] + moved).db, tid, Proposed)
    ensures Overruled(s0, past + MadeActs(p, tid, moved, now))
  {
    hide Run, InState;
    var acts := past + MadeActs(p, tid, moved, now);
    RunConcat(s0, past, [MakeTriage(p, tid, now)] + moved);
    assert acts[..|acts| - 1] == past + ([MakeTriage(p, tid, now)] + moved);
  }

  /******* With nobody else at work *******/

  ghost predicate Child(a: Db, b: Db, t: JobId, p: JobId) {
    t in b.jobs && t !in a.jobs && b.jobs[t].jtype == TRIAGE && b.jobs[t].parent == Some(p)
  }

  ghost predicate Spawned(a: Db, b: Db, p: JobId) { exists t :: Child(a, b, t, p) }

  ghost predicate SpawnState(a: Db, b: Db, done: set<JobId>) {
    && OnlyRows(a, b) && OldRows(a, b, done) && NewRows(a, b, done)
    && (forall p <- done :: Spawned(a, b, p)) && OneChildEach(a, b)
    && a.log <= b.log && |b.log| >= |a.log| + |done| && (done == {} ==> b == a)
  }

  ghost predicate OldRows(a: Db, b: Db, done: set<JobId>) {
    && a.jobs.Keys <= b.jobs.Keys
    && forall j <- a.jobs :: b.jobs[j] == if j in FailedJobs(a) && j in done then Moving(a.jobs[j], Triage) else a.jobs[j]
  }

  ghost predicate NewRows(a: Db, b: Db, done: set<JobId>) {
    forall t <- b.jobs :: t in a.jobs || (ChildOf(a, b.jobs[t]) && b.jobs[t].parent.value in done)
  }

  // Part of the work is done; `owed` has been read and not been made yet.
  ghost predicate SpawnUnderway(s0: Sys, s: Sys, acts: seq<Act>, done: set<JobId>, owed: multiset<JobId>) {
    && Ran(s0, s, acts) && s.seen == s0.seen && s.judged == s0.judged
    && s.pending == s0.pending.(make := s0.pending.make + owed) && (forall a <- acts :: ControlAct(a))
    && SpawnState(s0.db, s.db, done) && done <= FailedJobs(s0.db) + OrphanJobs(s0.db)
  }

  lemma StartSpawn(s: Sys)
    requires Inv(s)
    ensures SpawnUnderway(s, s, [], {}, multiset{})
  {
    assert s.pending.make + multiset{} == s.pending.make;
  }

  lemma Untouched(a: Db, b: Db, done: set<JobId>, p: JobId)
    requires SpawnState(a, b, done) && p in FailedJobs(a) + OrphanJobs(a) && p !in done
    ensures p in a.jobs && p in b.jobs && b.jobs[p] == a.jobs[p] && b.studies == a.studies
    ensures p in OrphanJobs(a) ==> !HasTriageChild(b, p)
  {
    if HasTriageChild(b, p) {
      OldChild(a, b, done, p);
    }
  }

  // The children the loop has made belong to the jobs it has done.
  lemma OldChild(a: Db, b: Db, done: set<JobId>, p: JobId)
    requires SpawnState(a, b, done) && HasTriageChild(b, p)
    ensures p in done || HasTriageChild(a, p)
  {
    var t :| t in b.jobs && b.jobs[t].jtype == TRIAGE && b.jobs[t].parent == Some(p);
    if t in a.jobs {
      assert a.jobs[t].jtype == TRIAGE && a.jobs[t].parent == Some(p);
    }
  }

  // One more job has its TRIAGE child: n, created from mid, where p is in triage.
  lemma SpawnOne(a: Db, b: Db, mid: Db, done: set<JobId>, p: JobId, n: NewJob)
    requires SpawnState(a, b, done) && p in FailedJobs(a) + OrphanJobs(a) && p !in done && p in b.jobs
    requires n.id !in b.jobs && n.jtype == TRIAGE && n.parent == Some(p) && n.study == a.jobs[p].study
    requires n.payload == TriagePayload(p) && n.priority == Sooner(a.jobs[p].priority)
    requires n.resource == Resource(30, {}, None) && n.attempt == 1 && n.maxAttempts == 3
    requires if p in FailedJobs(a) then mid.jobs == b.jobs[p := Moving(a.jobs[p], Triage)] else mid.jobs == b.jobs
    requires OnlyRows(b, mid) && b.log <= mid.log
    ensures SpawnState(a, WithJob(mid, n), done + {p})
  {
    assert p in a.jobs;
    hide FailedJobs, OrphanJobs, HasTriageChild, Moving, Spawned, OneChildEach, NewRows, ChildOf, Approved_;
    var after := WithJob(mid, n);
    OldRowsGrow(a, b, mid, done, p, n);
    NewRowsGrow(a, b, mid, done, p, n);
    IsChild(n);
    ChildrenGrow(a, b, after, done, p, n.id);
  }

  lemma IsChild(n: NewJob)
    ensures Approved_(n).jtype == n.jtype && Approved_(n).parent == n.parent
  {}

  lemma OldRowsGrow(a: Db, b: Db, mid: Db, done: set<JobId>, p: JobId, n: NewJob)
    requires OldRows(a, b, done) && p in a.jobs && p !in done && n.id !in b.jobs
    requires if p in FailedJobs(a) then mid.jobs == b.jobs[p := Moving(a.jobs[p], Triage)] else mid.jobs == b.jobs
    ensures OldRows(a, WithJob(mid, n), done + {p})
  {
    hide FailedJobs, Moving;
  }

  lemma NewRowsGrow(a: Db, b: Db, mid: Db, done: set<JobId>, p: JobId, n: NewJob)
    requires NewRows(a, b, done) && p in a.jobs && p in FailedJobs(a) + OrphanJobs(a) && n.id !in b.jobs
    requires n.jtype == TRIAGE && n.parent == Some(p) && n.study == a.jobs[p].study
    requires n.payload == TriagePayload(p) && n.priority == Sooner(a.jobs[p].priority)
    requires n.resource == Resource(30, {}, None) && n.attempt == 1 && n.maxAttempts == 3
    requires if p in FailedJobs(a) then mid.jobs == b.jobs[p := Moving(a.jobs[p], Triage)] else mid.jobs == b.jobs
    ensures NewRows(a, WithJob(mid, n), done + {p})
    ensures forall t <- b.jobs :: t !in a.jobs ==>
      WithJob(mid, n).jobs[t] == b.jobs[t] && b.jobs[t].parent.Some? && b.jobs[t].parent.value in done
  {
    hide FailedJobs, OrphanJobs, Moving;
    assert ChildOf(a, Approved_(n));
  }

  lemma ChildrenGrow(a: Db, b: Db, after: Db, done: set<JobId>, p: JobId, tid: JobId)
    requires a.jobs.Keys <= b.jobs.Keys && p !in done && tid !in b.jobs && after.jobs.Keys == b.jobs.Keys + {tid}
    requires after.jobs[tid].jtype == TRIAGE && after.jobs[tid].parent == Some(p)
    requires forall t <- b.jobs :: t !in a.jobs ==>
      after.jobs[t] == b.jobs[t] && b.jobs[t].parent.Some? && b.jobs[t].parent.value in done
    requires (forall q <- done :: Spawned(a, b, q)) && OneChildEach(a, b)
    ensures (forall q <- done + {p} :: Spawned(a, after, q)) && OneChildEach(a, after)
  {
    forall q <- done + {p} ensures Spawned(a, after, q) {
      if q == p {
        assert Child(a, after, tid, p);
      } else {
        assert Spawned(a, b, q);
        var t :| Child(a, b, t, q);
        assert Child(a, after, t, q);
      }
    }
  }

  // A row of the first loop
  lemma SpawnStep(s0: Sys, s: Sys, acts: seq<Act>, done: set<JobId>, p: JobId, tid: JobId, now: int)
    requires SpawnUnderway(s0, s, acts, done, multiset{}) && p in FailedJobs(s0.db) && p !in done && tid !in s.db.jobs
    ensures p in s.db.jobs && s.db.jobs[p].state == Failed
    ensures SpawnUnderway(s0, Run(s, [FlipTriage(p, now)] + ChildActs(p, tid, now)),
      acts + ([FlipTriage(p, now)] + ChildActs(p, tid, now)), done + {p}, multiset{})
  {
    hide Step, Run, Inv, SpawnState, WithJob, ChildActs, TriageJob, Move, FailedJobs, OrphanJobs;
    Untouched(s0.db, s.db, done, p);
    WasFailed(s0.db, p);
    RanInv(s0, s, acts);
    SpawnRun(s, p, tid, now);
    OthersMove(s0, s, acts, [FlipTriage(p, now)] + ChildActs(p, tid, now));
    ControlActs(p, tid, now);
    SpawnOneRow(s0.db, s.db, done, p, tid, now);
  }

  lemma WasFailed(db: Db, p: JobId)
    ensures p in FailedJobs(db) ==> p in db.jobs && db.jobs[p].state == Failed
  {}

  lemma ControlActs(p: JobId, tid: JobId, now: int)
    ensures forall a <- [FlipTriage(p, now)] + ChildActs(p, tid, now) :: ControlAct(a)
    ensures forall a <- ChildActs(p, tid, now) :: ControlAct(a)
  {}

  // The flip and the child
  lemma SpawnRun(s: Sys, p: JobId, tid: JobId, now: int)
    requires Inv(s) && p in s.db.jobs && s.db.jobs[p].state == Failed && tid !in s.db.jobs
    ensures var mid := Move(s.db, Flip(p, now));
      p in mid.jobs && mid.jobs.Keys == s.db.jobs.Keys && SameColumns(s.db.jobs[p], mid.jobs[p])
    ensures Run(s, [FlipTriage(p, now)] + ChildActs(p, tid, now))
         == Sys(WithJob(Move(s.db, Flip(p, now)), TriageJob(s.db.jobs[p], p, tid, now)), s.seen, s.judged, s.pending)
  {
    hide *;
    FlipStep(s, p, now);
    InvStep(s, FlipTriage(p, now));
    FlipKeeps(s, p, now);
    var m := Step(s, FlipTriage(p, now));
    ChildSteps(m, p, tid, now);
    SameChild(s.db.jobs[p], m.db.jobs[p], p, tid, now);
    RunConcat(s, [FlipTriage(p, now)], ChildActs(p, tid, now));
    RunOne(s, FlipTriage(p, now));
    assert s.pending.make + multiset{p} - multiset{p} == s.pending.make;
  }

  lemma FlipKeeps(s: Sys, p: JobId, now: int)
    requires p in s.db.jobs && s.db.jobs[p].state == Failed
    ensures var mid := Move(s.db, Flip(p, now));
      && mid.jobs == s.db.jobs[p := Moving(s.db.jobs[p], Triage)] && SameColumns(s.db.jobs[p], mid.jobs[p])
      && s.db.log <= mid.log && OnlyRows(s.db, mid)
    ensures NextPending(s, FlipTriage(p, now)) == s.pending.(make := s.pending.make + multiset{p})
  {}

  lemma SpawnOneRow(a: Db, b: Db, done: set<JobId>, p: JobId, tid: JobId, now: int)
    requires SpawnState(a, b, done) && p in FailedJobs(a) && p !in done && p in b.jobs && p in a.jobs
    requires b.jobs[p] == a.jobs[p] && b.jobs[p].state == Failed
    requires tid !in b.jobs
    ensures SpawnState(a, WithJob(Move(b, Flip(p, now)), TriageJob(b.jobs[p], p, tid, now)), done + {p})
  {
    var s := Sys(b, map[], {}, INIT.pending);
    FlipKeeps(s, p, now);
    hide SpawnState, Move, WithJob;
    SpawnOne(a, b, Move(b, Flip(p, now)), done, p, TriageJob(b.jobs[p], p, tid, now));
  }

  // A row of the repair arm
  lemma RepairStep(s0: Sys, s: Sys, acts: seq<Act>, done: set<JobId>, owed: multiset<JobId>, p: JobId, tid: JobId, now: int)
    requires SpawnUnderway(s0, s, acts, done, owed) && p in OrphanJobs(s0.db) && p !in done && p in owed && tid !in s.db.jobs
    ensures p in s.db.jobs
    ensures SpawnUnderway(s0, Run(s, ChildActs(p, tid, now)), acts + ChildActs(p, tid, now), done + {p}, owed - multiset{p})
  {
    hide Step, Run, Inv, SpawnState, WithJob, ChildActs, TriageJob, FailedJobs;
    Untouched(s0.db, s.db, done, p);
    RanInv(s0, s, acts);
    ChildSteps(s, p, tid, now);
    OthersMove(s0, s, acts, ChildActs(p, tid, now));
    ControlActs(p, tid, now);
    assert s0.pending.make + owed - multiset{p} == s0.pending.make + (owed - multiset{p});
    RepairOneRow(s0.db, s.db, done, p, tid, now);
  }

  lemma RepairOneRow(a: Db, b: Db, done: set<JobId>, p: JobId, tid: JobId, now: int)
    requires SpawnState(a, b, done) && p in OrphanJobs(a) && p !in done && p in b.jobs && p in a.jobs
    requires b.jobs[p] == a.jobs[p] && tid !in b.jobs
    ensures SpawnState(a, WithJob(b, TriageJob(b.jobs[p], p, tid, now)), done + {p})
  {
    assert p !in FailedJobs(a);
    hide SpawnState, WithJob;
    SpawnOne(a, b, b, done, p, TriageJob(b.jobs[p], p, tid, now));
  }

  // The repair arm finds exactly the orphans there were: the jobs flipped a moment ago have their child.
  lemma OrphansStay(a: Db, b: Db)
    requires SpawnState(a, b, FailedJobs(a))
    ensures OrphanJobs(b) == OrphanJobs(a)
  {
    forall j <- b.jobs | b.jobs[j].state == Triage
      ensures j in a.jobs && HasTriageChild(b, j) == (j in FailedJobs(a) || HasTriageChild(a, j))
    {
      assert j in a.jobs;
      if j in FailedJobs(a) {
        assert Spawned(a, b, j);
        var t :| Child(a, b, t, j);
      } else if HasTriageChild(a, j) {
        var t :| t in a.jobs && a.jobs[t].jtype == TRIAGE && a.jobs[t].parent == Some(j);
        assert b.jobs[t].jtype == TRIAGE && b.jobs[t].parent == Some(j);
      }
      if HasTriageChild(b, j) { OldChild(a, b, FailedJobs(a), j); }
    }
    assert forall j <- a.jobs :: a.jobs[j].state == Triage ==> b.jobs[j] == a.jobs[j];
  }

  lemma SpawnIsPhase(a: Db, b: Db)
    requires SpawnState(a, b, FailedJobs(a) + OrphanJobs(a))
    ensures SpawnPhase(a, b)
  {
    forall p <- FailedJobs(a) + OrphanJobs(a)
      ensures exists t <- b.jobs :: t !in a.jobs && b.jobs[t].jtype == TRIAGE && b.jobs[t].parent == Some(p)
    {
      assert Spawned(a, b, p);
      var t :| Child(a, b, t, p);
    }
  }

  ghost predicate SpawnDone(s0: Sys, s: Sys, acts: seq<Act>) { Progressed(s0, s, acts) && SpawnPhase(s0.db, s.db) }

  lemma FinishSpawn(s0: Sys, s: Sys, acts: seq<Act>)
    requires SpawnUnderway(s0, s, acts, FailedJobs(s0.db) + OrphanJobs(s0.db), multiset{})
    ensures SpawnDone(s0, s, acts)
  {
    hide SpawnState, SpawnPhase, Inv, Run;
    SpawnIsPhase(s0.db, s.db);
    assert s0.pending.make + multiset{} == s0.pending.make;
  }

  /******* With others at work *******/

  // No row goes away or changes its columns.
  ghost predicate RowsKept(a: map<JobId, Job>, b: map<JobId, Job>) { forall j <- a :: j in b && SameColumns(a[j], b[j]) }

  // New TRIAGE jobs
  ghost predicate Children(a: map<JobId, Job>, b: map<JobId, Job>, ids: seq<JobId>) {
    forall id <- ids :: id !in a && id in b && b[id].jtype == TRIAGE
  }

  // Part of the work is done; `rows` is what was selected.
  ghost predicate Spawning(
    s0: Sys, s: Sys, acts: seq<Act>, rows: map<JobId, Job>, done: set<JobId>, owed: multiset<JobId>, quiet: bool) {
    && Ran(s0, s, acts) && RowsKept(rows, s.db.jobs) && owed <= s.pending.make
    && (quiet ==> SpawnUnderway(s0, s, acts, done, owed))
  }

  lemma OthersSpawn(
    s0: Sys, s: Sys, acts: seq<Act>, rows: map<JobId, Job>, done: set<JobId>, owed: multiset<JobId>, quiet: bool,
      others: seq<Act>)
    requires Spawning(s0, s, acts, rows, done, owed, quiet) && (quiet ==> others == []) && owed <= Run(s, others).pending.make
    ensures Spawning(s0, Run(s, others), acts + others, rows, done, owed, quiet) && (others == [] ==> Run(s, others) == s)
    ensures RowsKept(s.db.jobs, Run(s, others).db.jobs)
  {
    hide SpawnUnderway, Run, Inv;
    OthersMove(s0, s, acts, others);
    RunKeepsColumns(s, others);
  }

  lemma Bounded(jobs: map<JobId, Job>, n: JobId)
    requires forall j <- jobs :: j < n
    ensures n !in jobs
  {}

  // A flip that came too late changes nothing.
  lemma LostFlip(s0: Sys, s: Sys, acts: seq<Act>, rows: map<JobId, Job>, done: set<JobId>, p: JobId, now: int, quiet: bool)
    requires Spawning(s0, s, acts, rows, done, multiset{}, quiet) && p in s.db.jobs && s.db.jobs[p].state != Failed
    requires quiet ==> p in FailedJobs(s0.db) && p !in done
    ensures MoveRefusal(s.db, Flip(p, now)).Some? && Move(s.db, Flip(p, now)) == s.db && !quiet
    ensures Spawning(s0, s, acts + [FlipTriage(p, now)], rows, done + {p}, multiset{}, quiet)
  {
    hide Step, Inv, Run, Move, FailedJobs;
    FlipStep(s, p, now);
    MoveFrame(s.db, Flip(p, now));
    OneMore(s0, s, acts, FlipTriage(p, now));
    if quiet { SpawnReads(s0, s, acts, done, p); }
    hide SpawnUnderway;
  }

  lemma SpawnReads(s0: Sys, s: Sys, acts: seq<Act>, done: set<JobId>, p: JobId)
    requires SpawnUnderway(s0, s, acts, done, multiset{}) && p in FailedJobs(s0.db) && p !in done
    ensures p in s.db.jobs && s.db.jobs[p].state == Failed
  {
    hide Ran;
    Untouched(s0.db, s.db, done, p);
  }

  // A flip that is won, and the child
  lemma WonFlip(s0: Sys, s: Sys, acts: seq<Act>, rows: map<JobId, Job>, done: set<JobId>, p: JobId, tid: JobId,
    now: int, quiet: bool)
    requires Spawning(s0, s, acts, rows, done, multiset{}, quiet) && p in s.db.jobs && s.db.jobs[p].state == Failed
    requires tid !in s.db.jobs
    requires quiet ==> p in FailedJobs(s0.db) && p !in done
    ensures var more := [FlipTriage(p, now)] + ChildActs(p, tid, now); var t := Run(s, more);
      && Spawning(s0, t, acts + more, rows, done + {p}, multiset{}, quiet) && RowsKept(s.db.jobs, t.db.jobs)
      && Grown(s.db.jobs, t.db.jobs, tid)
      && t.db.jobs.Keys == s.db.jobs.Keys + {tid}
  {
    hide Inv, Run, SpawnUnderway, Move, FailedJobs, ChildActs, WithJob, TriageJob;
    RanInv(s0, s, acts);
    var more := [FlipTriage(p, now)] + ChildActs(p, tid, now);
    OthersMove(s0, s, acts, more);
    RunKeepsColumns(s, more);
    SpawnRun(s, p, tid, now);
    WithKeys(Move(s.db, Flip(p, now)), TriageJob(s.db.jobs[p], p, tid, now));
    IsTriage(s.db.jobs[p], p, tid, now);
    if quiet { SpawnStep(s0, s, acts, done, p, tid, now); }
  }

  lemma WithKeys(db: Db, n: NewJob)
    ensures WithJob(db, n).jobs.Keys == db.jobs.Keys + {n.id} && WithJob(db, n).jobs[n.id].jtype == n.jtype
  {}

  lemma IsTriage(row: Job, p: JobId, tid: JobId, now: int)
    ensures TriageJob(row, p, tid, now).id == tid && TriageJob(row, p, tid, now).jtype == TRIAGE
  {}

  // The TRIAGE job `id` is new.
  ghost predicate Grown(a: map<JobId, Job>, b: map<JobId, Job>, id: JobId) {
    RowsKept(a, b) && id !in a && id in b && b[id].jtype == TRIAGE
  }

  lemma SpawningRow(s0: Sys, s: Sys, acts: seq<Act>, rows: map<JobId, Job>, done: set<JobId>, owed: multiset<JobId>,
    p: JobId, quiet: bool)
    requires Spawning(s0, s, acts, rows, done, owed, quiet) && p in rows
    ensures Inv(s) && p in s.db.jobs && SameColumns(rows[p], s.db.jobs[p])
  {
    hide SpawnUnderway, Run, Inv;
  }

  lemma StillKept(jobs: map<JobId, Job>)
    ensures RowsKept(jobs, jobs)
  {}

  lemma GrownSince(a: map<JobId, Job>, b: map<JobId, Job>, c: map<JobId, Job>)
    requires RowsKept(a, b) && RowsKept(b, c)
    ensures RowsKept(a, c) && forall id :: Grown(b, c, id) ==> Grown(a, c, id)
  {}

  lemma OwedIsPending(s0: Sys, s: Sys, acts: seq<Act>, rows: map<JobId, Job>, done: set<JobId>, owed: set<JobId>, quiet: bool)
    requires Spawning(s0, s, acts, rows, done, multiset(owed), quiet)
    ensures Holds(s.pending, NOTHING.(make := multiset(owed)))
  {
    hide SpawnUnderway, Ran;
  }

  lemma MadeThen(
    s0: Sys, s: Sys, acts: seq<Act>, rows: map<JobId, Job>, done: set<JobId>, owed: set<JobId>, p: JobId, tid: JobId,
      now: int, quiet: bool)
    requires Spawning(s0, s, acts, rows, done, multiset(owed), quiet) && p in owed && p in s.db.jobs && tid !in s.db.jobs
    requires quiet ==> p in OrphanJobs(s0.db) && p !in done
    ensures p in s.pending.make
    ensures var t := Run(s, ChildActs(p, tid, now));
      && Spawning(s0, t, acts + ChildActs(p, tid, now), rows, done + {p}, multiset(owed - {p}), quiet)
      && RowsKept(s.db.jobs, t.db.jobs) && Grown(s.db.jobs, t.db.jobs, tid) && t.db.jobs.Keys == s.db.jobs.Keys + {tid}
  {
    hide Ran, MoveRefusal;
    hide Inv, Run, SpawnUnderway, ChildActs, WithJob, TriageJob, OrphanJobs;
    RanInv(s0, s, acts);
    assert multiset(owed)[p] == 1;
    OthersMove(s0, s, acts, ChildActs(p, tid, now));
    RunKeepsColumns(s, ChildActs(p, tid, now));
    ChildSteps(s, p, tid, now);
    WithKeys(s.db, TriageJob(s.db.jobs[p], p, tid, now));
    IsTriage(s.db.jobs[p], p, tid, now);
    assert multiset(owed) - multiset{p} == multiset(owed - {p});
    if quiet { RepairStep(s0, s, acts, done, multiset(owed), p, tid, now); }
  }

  // The child is made with others at work.
  lemma MadeAmid(
    s0: Sys, s: Sys, t: Sys, acts: seq<Act>, more: seq<Act>, rows: map<JobId, Job>, done: set<JobId>, owed: set<JobId>,
      p: JobId, tid: JobId)
    requires Spawning(s0, s, acts, rows, done, multiset(owed), false) && t == Run(s, more)
    requires multiset(owed - {p}) <= t.pending.make
    requires tid !in s.db.jobs && tid in t.db.jobs && t.db.jobs[tid].jtype == TRIAGE
    ensures Spawning(s0, t, acts + more, rows, done + {p}, multiset(owed - {p}), false)
    ensures RowsKept(s.db.jobs, t.db.jobs) && Grown(s.db.jobs, t.db.jobs, tid)
  {
    hide SpawnUnderway, Run, Inv;
    OthersMove(s0, s, acts, more);
    RanInv(s0, s, acts);
    RunKeepsColumns(s, more);
  }

  lemma OwedLeft(p: Pending, owed: set<JobId>, j: JobId)
    requires multiset(owed) <= p.make && j in owed
    ensures Holds(p.(make := p.make - multiset{j}), NOTHING.(make := multiset(owed - {j}))) && j in p.make
  {
    assert multiset(owed) == multiset(owed - {j}) + multiset{j};
  }

  lemma OwedHeld(p: Pending, owed: multiset<JobId>)
    requires Holds(p, NOTHING.(make := owed))
    ensures owed <= p.make
  {}

  // The flip is won, the child still to be made.
  lemma FlipThen(s0: Sys, s: Sys, acts: seq<Act>, rows: map<JobId, Job>, done: set<JobId>, p: JobId, now: int, m: Sys)
    requires Ran(s0, s, acts) && RowsKept(rows, s.db.jobs) && p in s.db.jobs && s.db.jobs[p].state == Failed
    requires m == Sys(Move(s.db, Flip(p, now)), s.seen, s.judged, s.pending.(make := s.pending.make + multiset{p}))
    ensures MoveRefusal(s.db, Flip(p, now)).None? && RowsKept(s.db.jobs, m.db.jobs) && m.db.jobs.Keys == s.db.jobs.Keys
    ensures Spawning(s0, m, acts + [FlipTriage(p, now)], rows, done, multiset({p}), false)
  {
    hide SpawnUnderway, Ran;
    hide Step, Inv, Run, Move, MoveRefusal;
    RanInv(s0, s, acts);
    FlipStep(s, p, now);
    FlipKeeps(s, p, now);
    StepKeepsColumns(s, FlipTriage(p, now));
    OneMore(s0, s, acts, FlipTriage(p, now));
    assert multiset({p}) == multiset{p};
  }

  // With nobody else at work the turn is one piece.
  lemma QuietTurn(s0: Sys, s: Sys, acts: seq<Act>, rows: map<JobId, Job>, done: set<JobId>, p: JobId, tid: JobId,
    now: int, m: Sys)
    requires Spawning(s0, s, acts, rows, done, multiset{}, true) && p in s.db.jobs && s.db.jobs[p].state == Failed
    requires tid !in s.db.jobs
    requires p in FailedJobs(s0.db) && p !in done
    requires m == Sys(Move(s.db, Flip(p, now)), s.seen, s.judged, s.pending.(make := s.pending.make + multiset{p}))
    ensures Spawning(s0, Run(m, ChildActs(p, tid, now)), acts + [FlipTriage(p, now)] + [] + ChildActs(p, tid, now),
      rows, done + {p}, multiset{}, true)
  {
    hide *;
    WonFlip(s0, s, acts, rows, done, p, tid, now, true);
    FlipStep(s, p, now);
    FlipKeeps(s, p, now);
    RunOne(s, FlipTriage(p, now));
    RunConcat(s, [FlipTriage(p, now)], ChildActs(p, tid, now));
    assert acts + [FlipTriage(p, now)] + [] + ChildActs(p, tid, now) == acts + ([FlipTriage(p, now)] + ChildActs(p, tid, now));
  }

  // The child is made some time after the flip, and approved some time after that.
  method MakeFor(
    store: Store, rows: map<JobId, Job>, p: JobId, now: int, between: seq<Act>, approving: seq<Act>,
    ghost s0: Sys, ghost past: seq<Act>, ghost done: set<JobId>)
    returns (id: JobId, raised: bool, ghost acts: seq<Act>)
    requires Spawning(s0, store.Sys(), past, rows, done, multiset({p}), false) && p in rows && store.Fresh()
    modifies store
    ensures Spawning(s0, store.Sys(), acts, rows, done + {p}, multiset{}, false) && store.Fresh()
    ensures raised ==> Overruled(s0, acts)
    ensures RowsKept(old(store.jobs), store.jobs) && Grown(old(store.jobs), store.jobs, id)
    ensures between == [] && approving == [] ==>
      && !raised && id == old(store.nextId) && acts == past + [] + ChildActs(p, id, now)
      && store.Sys() == Run(old(store.Sys()), ChildActs(p, id, now)) && store.jobs.Keys == old(store.jobs.Keys) + {id}
  {
    hide Ran;
    hide Run, Inv, Spawning, RowsKept, Grown, SameColumns, ChildActs, MadeActs, WithJob, TriageJob, Holds, InState, Overruled;
    ghost var before, s := store.jobs, store.Sys();
    OwedIsPending(s0, s, past, rows, done, {p}, false);
    ghost var moved := store.InterfereSparing(between, NOTHING.(make := multiset({p})));
    OwedHeld(store.pending, multiset({p}));
    OthersSpawn(s0, s, past, rows, done, multiset({p}), false, moved);
    NoSteps(s);
    ghost var m := store.Sys();
    SpawningRow(s0, m, past + moved, rows, done, multiset({p}), p, false);
    OwedLeft(m.pending, {p}, p);
    Bounded(store.jobs, store.nextId);
    MadeAtOnce(p, store.nextId, now);
    ghost var later;
    id, raised, later := CreateTriageJob(store, rows[p], p, now, approving, NOTHING.(make := multiset({p} - {p})));
    WithKeys(m.db, TriageJob(rows[p], p, id, now));
    IsTriage(rows[p], p, id, now);
    OwedHeld(store.pending, multiset({p} - {p}));
    MadeAmid(s0, m, store.Sys(), past + moved, MadeActs(p, id, later, now), rows, done, {p}, p, id);
    SpawningRun(s0, m, past + moved, rows, done, multiset({p}), false);
    if raised { RaisedHere(s0, m, past + moved, p, id, later, now); }
    AllMade(p);
    acts := past + moved + MadeActs(p, id, later, now);
    GrownSince(before, m.db.jobs, store.jobs);
  }

  lemma SpawningRun(s0: Sys, s: Sys, acts: seq<Act>, rows: map<JobId, Job>, done: set<JobId>, owed: multiset<JobId>, quiet: bool)
    requires Spawning(s0, s, acts, rows, done, owed, quiet)
    ensures s == Run(s0, acts) && Ran(s0, s, acts) && RowsKept(rows, s.db.jobs)
  {
    hide SpawnUnderway, Run, Inv;
  }

  lemma AllMade(p: JobId)
    ensures multiset({p} - {p}) == multiset{}
  {
    assert {p} - {p} == {};
  }

  // The parent flips first: that CAS is the spawn lock, and whoever loses it makes no child.
  method FlipAndMake(
    store: Store, rows: map<JobId, Job>, p: JobId, now: int, between: seq<Act>, approving: seq<Act>,
    ghost s0: Sys, ghost past: seq<Act>, ghost done: set<JobId>, ghost quiet: bool)
    returns (id: Option<JobId>, raised: bool, ghost acts: seq<Act>)
    requires Spawning(s0, store.Sys(), past, rows, done, multiset{}, quiet)
    requires quiet ==> between == [] && approving == [] && p in FailedJobs(s0.db) && p !in done
    requires p in rows && store.Fresh()
    modifies store
    ensures Spawning(s0, store.Sys(), acts, rows, done + {p}, multiset{}, quiet) && store.Fresh()
    ensures raised ==> Overruled(s0, acts)
    ensures RowsKept(old(store.jobs), store.jobs) && (id.Some? ==> Grown(old(store.jobs), store.jobs, id.value))
    ensures quiet ==> !raised && id.Some? && store.jobs.Keys == old(store.jobs.Keys) + {id.value}
  {
    hide Run, Inv, Spawning, Move, MoveRefusal, FailedJobs, ChildActs, SameColumns, RowsKept, Grown, Overruled;
    ghost var s := store.Sys();
    SpawningRow(s0, s, past, rows, done, multiset{}, p, quiet);
    if s.db.jobs[p].state == Failed {
      WhenFlipped(s0, s, past, rows, done, p, store.nextId, now, quiet);
    } else {
      LostFlip(s0, s, past, rows, done, p, now, quiet);
      StillKept(s.db.jobs);
    }
    var refusal := store.Transition(Plain(p, Triage, Agent, Some(Failed), now));
    if refusal.Some? { return None, false, past + [FlipTriage(p, now)]; }
    store.pending := store.pending.(make := store.pending.make + multiset{p});
    ghost var flipped := store.jobs;
    var n;
    n, raised, acts := MakeFor(store, rows, p, now, between, approving, s0, past + [FlipTriage(p, now)], done);
    GrownSince(s.db.jobs, flipped, store.jobs);
    id := Some(n);
  }

  lemma WhenFlipped(
    s0: Sys, s: Sys, acts: seq<Act>, rows: map<JobId, Job>, done: set<JobId>, p: JobId, tid: JobId, now: int, quiet: bool)
    requires Spawning(s0, s, acts, rows, done, multiset{}, quiet) && p in s.db.jobs && s.db.jobs[p].state == Failed
    requires forall j <- s.db.jobs :: j < tid
    requires quiet ==> p in FailedJobs(s0.db) && p !in done
    ensures var m := Sys(Move(s.db, Flip(p, now)), s.seen, s.judged, s.pending.(make := s.pending.make + multiset{p}));
      && MoveRefusal(s.db, Flip(p, now)).None? && RowsKept(s.db.jobs, m.db.jobs) && m.db.jobs.Keys == s.db.jobs.Keys
      && Spawning(s0, m, acts + [FlipTriage(p, now)], rows, done, multiset({p}), false)
      && (quiet ==> Spawning(s0, Run(m, ChildActs(p, tid, now)),
        acts + [FlipTriage(p, now)] + [] + ChildActs(p, tid, now), rows, done + {p}, multiset{}, true))
  {
    hide Run, Inv, Move, MoveRefusal, FailedJobs, ChildActs, SameColumns, SpawnUnderway;
    var m := Sys(Move(s.db, Flip(p, now)), s.seen, s.judged, s.pending.(make := s.pending.make + multiset{p}));
    FlipThen(s0, s, acts, rows, done, p, now, m);
    if quiet { QuietTurn(s0, s, acts, rows, done, p, tid, now, m); }
  }

  // One turn of the first loop
  method SpawnFor(
    store: Store, rows: map<JobId, Job>, p: JobId, now: int, others: seq<Act>, between: seq<Act>, approving: seq<Act>,
    ghost s0: Sys, ghost past: seq<Act>, ghost done: set<JobId>, ghost quiet: bool)
    returns (id: Option<JobId>, raised: bool, ghost acts: seq<Act>)
    requires Spawning(s0, store.Sys(), past, rows, done, multiset{}, quiet)
    requires quiet ==> others == [] && between == [] && approving == [] && p in FailedJobs(s0.db) && p !in done
    requires p in rows
    modifies store
    ensures Spawning(s0, store.Sys(), acts, rows, done + {p}, multiset{}, quiet) && store.Fresh()
    ensures raised ==> Overruled(s0, acts)
    ensures RowsKept(old(store.jobs), store.jobs) && (id.Some? ==> Grown(old(store.jobs), store.jobs, id.value))
    ensures quiet ==> !raised && id.Some? && store.jobs.Keys == old(store.jobs.Keys) + {id.value}
  {
    hide Run, Inv, Spawning, FailedJobs, RowsKept, Grown, Overruled;
    ghost var before := store.jobs;
    OthersSpawn(s0, store.Sys(), past, rows, done, multiset{}, quiet, others);
    store.Interfere(others);
    ghost var seen := store.jobs;
    id, raised, acts := FlipAndMake(store, rows, p, now, between, approving, s0, past + others, done, quiet);
    GrownSince(before, seen, store.jobs);
  }

  // Every job that was not there before is in the list.
  predicate Listed(before: map<JobId, Job>, after: map<JobId, Job>, ids: seq<JobId>) {
    forall j <- after :: j in before || j in ids
  }

  lemma ChildrenGrow1(a: map<JobId, Job>, b: map<JobId, Job>, c: map<JobId, Job>, ids: seq<JobId>, id: Option<JobId>)
    requires Children(a, b, ids) && RowsKept(a, b) && RowsKept(b, c) && (id.Some? ==> Grown(b, c, id.value))
    ensures Children(a, c, if id.Some? then ids + [id.value] else ids) && RowsKept(a, c)
    ensures id.Some? && c.Keys == b.Keys + {id.value} && Listed(a, b, ids) ==> Listed(a, c, ids + [id.value])
  {}

  // What is left if the loop is cut short by an approval that came too late
  ghost predicate CutShort(s0: Sys, s: Sys, acts: seq<Act>) {
    Ran(s0, s, acts) && RowsKept(s0.db.jobs, s.db.jobs) && Overruled(s0, acts)
  }

  lemma IsCut(s0: Sys, s: Sys, acts: seq<Act>, done: set<JobId>, owed: multiset<JobId>, rows: map<JobId, Job>, quiet: bool)
    requires Spawning(s0, s, acts, rows, done, owed, quiet) && Overruled(s0, acts) && RowsKept(s0.db.jobs, s.db.jobs)
    ensures CutShort(s0, s, acts)
  {
    hide SpawnUnderway, Ran, Run;
  }

  method SpawnArm(store: Store, now: int, others: Others, ghost quiet: bool)
    returns (spawned: seq<JobId>, raised: bool, ghost acts: seq<Act>)
    requires Inv(store.Sys()) && store.Fresh() && (quiet ==> forall n :: others(n) == [])
    modifies store
    ensures raised ==> CutShort(old(store.Sys()), store.Sys(), acts) && !quiet
    ensures !raised ==> Spawning(old(store.Sys()), store.Sys(), acts, old(store.jobs), FailedJobs(old(store.Db())),
      multiset{}, quiet)
    ensures store.Fresh() && RowsKept(old(store.jobs), store.jobs) && Children(old(store.jobs), store.jobs, spawned)
    ensures quiet ==> |spawned| == |FailedJobs(old(store.Db()))| && Listed(old(store.jobs), store.jobs, spawned)
  {
    hide Run, Step, Inv, SpawnUnderway, FailedJobs, Spawning, RowsKept, Children, Grown, Listed, Overruled, CutShort;
    ghost var s0 := store.Sys();
    var rows, todo, i: nat := store.jobs, FailedJobs(store.Db()), 0;
    FailedRows(store.Db());
    ghost var done: set<JobId> := {};
    spawned, raised, acts := [], false, [];
    StartSpawning(s0, quiet);
    while todo != {}
      invariant done !! todo && done + todo == FailedJobs(s0.db) && Spawning(s0, store.Sys(), acts, rows, done, multiset{}, quiet)
      invariant !raised && store.Fresh() && RowsKept(rows, store.jobs) && Children(rows, store.jobs, spawned)
      invariant quiet ==> |spawned| == |done| && Listed(rows, store.jobs, spawned)
    {
      var p := Choose(todo);
      ghost var before := store.jobs;
      var id;
      id, raised, acts := SpawnFor(store, rows, p, now, others(3 * i), others(3 * i + 1), others(3 * i + 2), s0, acts,
        done, quiet);
      ChildrenGrow1(rows, before, store.jobs, spawned, id);
      if id.Some? { spawned := spawned + [id.value]; }
      if raised {
        IsCut(s0, store.Sys(), acts, done + {p}, multiset{}, rows, quiet);
        return;
      }
      i, done, todo := i + 1, done + {p}, todo - {p};
    }
  }

  lemma FailedRows(db: Db)
    ensures forall p <- FailedJobs(db) :: p in db.jobs
  {}

  lemma StartSpawning(s: Sys, quiet: bool)
    requires Inv(s)
    ensures Spawning(s, s, [], s.db.jobs, {}, multiset{}, quiet)
    ensures RowsKept(s.db.jobs, s.db.jobs) && Children(s.db.jobs, s.db.jobs, []) && Listed(s.db.jobs, s.db.jobs, [])
  {
    hide Ran;
    StartSpawn(s);
  }

  /******* The repair arm *******/

  lemma ReadStep(s: Sys, p: JobId, now: int)
    requires p in OrphanJobs(s.db)
    ensures Step(s, ReadOrphan(p, now)) == Sys(s.db, s.seen, s.judged, s.pending.(make := s.pending.make + multiset{p}))
  {
    StepFrame(s, ReadOrphan(p, now));
  }

  // The SELECT of the repair arm: the jobs in triage without a TRIAGE child. The loop will make one for each of them.
  method ReadOrphans(store: Store, now: int) returns (orphans: set<JobId>, ghost acts: seq<Act>)
    requires Inv(store.Sys())
    modifies store`pending
    ensures orphans == OrphanJobs(store.Db()) && Ran(old(store.Sys()), store.Sys(), acts) && (forall a <- acts :: ControlAct(a))
    ensures store.pending == old(store.pending).(make := old(store.pending).make + multiset(orphans))
  {
    hide Step;
    hide Run, Inv, OrphanJobs;
    orphans := OrphanJobs(store.Db());
    ghost var s0, p0 := store.Sys(), store.pending;
    var todo := orphans;
    ghost var done: set<JobId> := {};
    acts := [];
    NoSteps(s0);
    assert p0.make + multiset(done) == p0.make;
    while todo != {}
      invariant done !! todo && done + todo == orphans && Ran(s0, store.Sys(), acts) && (forall a <- acts :: ControlAct(a))
      invariant store.pending == p0.(make := p0.make + multiset(done)) && orphans == OrphanJobs(store.Db())
    {
      var p := Choose(todo);
      ReadStep(store.Sys(), p, now);
      OneMore(s0, store.Sys(), acts, ReadOrphan(p, now));
      assert multiset(done + {p}) == multiset(done) + multiset{p};
      assert p0.make + multiset(done) + multiset{p} == p0.make + multiset(done + {p});
      store.pending := store.pending.(make := store.pending.make + multiset{p});
      acts, done, todo := acts + [ReadOrphan(p, now)], done + {p}, todo - {p};
    }
    assert done == orphans;
  }

  // One turn of the second loop: the child is made, whatever has become of the job since it was read.
  method RepairFor(
    store: Store, rows: map<JobId, Job>, p: JobId, now: int, others: seq<Act>, approving: seq<Act>, owed: set<JobId>,
    ghost s0: Sys, ghost past: seq<Act>, ghost done: set<JobId>, ghost quiet: bool)
    returns (id: JobId, raised: bool, ghost acts: seq<Act>)
    requires Spawning(s0, store.Sys(), past, rows, done, multiset(owed), quiet)
    requires quiet ==> others == [] && approving == [] && p in OrphanJobs(s0.db) && p !in done
    requires p in rows && p in owed && store.Fresh()
    modifies store
    ensures Spawning(s0, store.Sys(), acts, rows, done + {p}, multiset(owed - {p}), quiet) && store.Fresh()
    ensures raised ==> Overruled(s0, acts)
    ensures RowsKept(old(store.jobs), store.jobs) && Grown(old(store.jobs), store.jobs, id)
    ensures quiet ==> !raised && store.jobs.Keys == old(store.jobs.Keys) + {id}
  {
    hide Ran;
    hide Run, Inv, Spawning, OrphanJobs, RowsKept, Grown, SameColumns, ChildActs, MadeActs, WithJob, TriageJob, Holds;
    hide InState, Overruled;
    ghost var before, s := store.jobs, store.Sys();
    OwedIsPending(s0, s, past, rows, done, owed, quiet);
    ghost var moved := store.InterfereSparing(others, NOTHING.(make := multiset(owed)));
    OwedHeld(store.pending, multiset(owed));
    OthersSpawn(s0, s, past, rows, done, multiset(owed), quiet, moved);
    ghost var m := store.Sys();
    SpawningRow(s0, m, past + moved, rows, done, multiset(owed), p, quiet);
    OwedLeft(m.pending, owed, p);
    Bounded(store.jobs, store.nextId);
    MadeAtOnce(p, store.nextId, now);
    if quiet { MadeThen(s0, m, past + moved, rows, done, owed, p, store.nextId, now, true); }
    ghost var later;
    id, raised, later := CreateTriageJob(store, rows[p], p, now, approving, NOTHING.(make := multiset(owed - {p})));
    OwedHeld(store.pending, multiset(owed - {p}));
    Quietens(s0, m, past + moved, rows, done, multiset(owed), quiet);
    MadeAmid(s0, m, store.Sys(), past + moved, MadeActs(p, id, later, now), rows, done, owed, p, id);
    SpawningRun(s0, m, past + moved, rows, done, multiset(owed), quiet);
    if raised { RaisedHere(s0, m, past + moved, p, id, later, now); }
    acts := past + moved + MadeActs(p, id, later, now);
    GrownSince(before, m.db.jobs, store.jobs);
  }

  lemma Quietens(s0: Sys, s: Sys, acts: seq<Act>, rows: map<JobId, Job>, done: set<JobId>, owed: multiset<JobId>, quiet: bool)
    requires Spawning(s0, s, acts, rows, done, owed, quiet)
    ensures Spawning(s0, s, acts, rows, done, owed, false)
  {
    hide SpawnUnderway, Ran;
  }

  lemma OrphansRead(s0: Sys, s: Sys, t: Sys, past: seq<Act>, read: seq<Act>, rows: map<JobId, Job>, orphans: set<JobId>,
    quiet: bool)
    requires Spawning(s0, s, past, rows, FailedJobs(s0.db), multiset{}, quiet) && orphans == OrphanJobs(s.db) && Ran(s, t, read)
    requires (forall a <- read :: ControlAct(a))
    requires t == Sys(s.db, s.seen, s.judged, s.pending.(make := s.pending.make + multiset(orphans)))
    ensures Spawning(s0, t, past + read, s.db.jobs, FailedJobs(s0.db), multiset(orphans), quiet)
    ensures (forall p <- orphans :: p in s.db.jobs) && (quiet ==> orphans == OrphanJobs(s0.db) && FailedJobs(s0.db) !! orphans)
  {
    hide Run, Inv, SpawnState, OrphanJobs, FailedJobs, RowsKept, ControlAct;
    RanThen(s0, s, t, past, read);
    if quiet { OrphansStay(s0.db, s.db); }
    OrphansAreRows(s.db);
    OrphansAreRows(s0.db);
    SameRows(s.db.jobs);
    assert multiset{} + multiset(orphans) == multiset(orphans);
    assert s0.pending.make + multiset{} == s0.pending.make;
  }

  lemma OrphansAreRows(db: Db)
    ensures (forall p <- OrphanJobs(db) :: p in db.jobs) && FailedJobs(db) !! OrphanJobs(db)
  {}

  lemma SameRows(rows: map<JobId, Job>)
    ensures RowsKept(rows, rows)
  {}

  method RepairArm(store: Store, now: int, others: Others, ghost s0: Sys, ghost past: seq<Act>, ghost quiet: bool)
    returns (spawned: seq<JobId>, raised: bool, ghost acts: seq<Act>)
    requires Spawning(s0, store.Sys(), past, s0.db.jobs, FailedJobs(s0.db), multiset{}, quiet) && store.Fresh()
    requires quiet ==> forall n :: others(n) == []
    modifies store
    ensures raised ==> Overruled(s0, acts) && !quiet
    ensures Ran(s0, store.Sys(), acts)
    ensures quiet ==> SpawnUnderway(s0, store.Sys(), acts, FailedJobs(s0.db) + OrphanJobs(s0.db), multiset{})
    ensures store.Fresh() && RowsKept(old(store.jobs), store.jobs) && Children(old(store.jobs), store.jobs, spawned)
    ensures quiet ==> |spawned| == |OrphanJobs(s0.db)| && Listed(old(store.jobs), store.jobs, spawned)
  {
    hide Run, Step, Inv, SpawnUnderway, FailedJobs, OrphanJobs, Spawning, RowsKept, Children, Grown, Listed, Overruled;
    hide Ran, ControlAct, HasTriageChild;
    ghost var s := store.Sys();
    SpawningInv(s0, s, past, quiet);
    var rows, i: nat := store.jobs, 0;
    var todo;
    todo, acts := ReadOrphans(store, now);
    ghost var orphans := todo;
    OrphansRead(s0, s, store.Sys(), past, acts, s0.db.jobs, todo, quiet);
    StillKept(rows);
    NoChildren(rows);
    acts, spawned, raised := past + acts, [], false;
    ghost var mended: set<JobId> := {};
    UnionEmpty(FailedJobs(s0.db));
    while todo != {}
      invariant mended !! todo && mended + todo == orphans
      invariant Spawning(s0, store.Sys(), acts, rows, FailedJobs(s0.db) + mended, multiset(todo), quiet)
      invariant !raised && store.Fresh() && |spawned| == |mended| && RowsKept(rows, store.jobs)
      invariant Children(rows, store.jobs, spawned)
      invariant quiet ==> Listed(rows, store.jobs, spawned)
    {
      var p := Choose(todo);
      ghost var before := store.jobs;
      var id;
      id, raised, acts := RepairFor(store, rows, p, now, others(2 * i), others(2 * i + 1), todo, s0, acts,
        FailedJobs(s0.db) + mended, quiet);
      ChildrenGrow1(rows, before, store.jobs, spawned, Some(id));
      UnionPush(FailedJobs(s0.db), mended, p);
      spawned := spawned + [id];
      if raised {
        SpawningRun(s0, store.Sys(), acts, rows, FailedJobs(s0.db) + mended + {p}, multiset(todo - {p}), quiet);
        return;
      }
      i, mended, todo := i + 1, mended + {p}, todo - {p};
    }
    assert mended == orphans && multiset(todo) == multiset{};
    SpawningEnd(s0, store.Sys(), acts, rows, FailedJobs(s0.db) + orphans, quiet);
  }

  lemma SpawningInv(s0: Sys, s: Sys, acts: seq<Act>, quiet: bool)
    requires Spawning(s0, s, acts, s0.db.jobs, FailedJobs(s0.db), multiset{}, quiet)
    ensures Inv(s)
  {
    hide SpawnUnderway, Run, Inv;
  }

  lemma NoChildren(jobs: map<JobId, Job>)
    ensures Children(jobs, jobs, []) && Listed(jobs, jobs, [])
  {}

  lemma SpawningEnd(s0: Sys, s: Sys, acts: seq<Act>, rows: map<JobId, Job>, done: set<JobId>, quiet: bool)
    requires Spawning(s0, s, acts, rows, done, multiset{}, quiet)
    ensures Ran(s0, s, acts) && (quiet ==> SpawnUnderway(s0, s, acts, done, multiset{}))
  {
    hide Run, Inv, SpawnState;
  }

  // New TRIAGE jobs were made; with nobody else at work, one for each failed job and each orphan.
  ghost predicate SpawnedAll(s0: Sys, s: Sys, acts: seq<Act>, spawned: seq<JobId>, quiet: bool) {
    && Ran(s0, s, acts) && RowsKept(s0.db.jobs, s.db.jobs) && Children(s0.db.jobs, s.db.jobs, spawned)
    && (quiet ==>
          && SpawnDone(s0, s, acts) && |spawned| == |FailedJobs(s0.db)| + |OrphanJobs(s0.db)|
          && Listed(s0.db.jobs, s.db.jobs, spawned))
  }

  lemma BothArms(a: map<JobId, Job>, b: map<JobId, Job>, c: map<JobId, Job>, first: seq<JobId>, second: seq<JobId>)
    requires RowsKept(a, b) && RowsKept(b, c) && Children(a, b, first) && Children(b, c, second)
    ensures RowsKept(a, c) && Children(a, c, first + second)
    ensures Listed(a, b, first) && Listed(b, c, second) ==> Listed(a, c, first + second)
  {}

  method SpawnTriageJobs(store: Store, now: int, first: Others, second: Others)
    returns (spawned: seq<JobId>, raised: bool, ghost acts: seq<Act>)
    requires Inv(store.Sys()) && store.Fresh()
    modifies store
    ensures raised ==> CutShort(old(store.Sys()), store.Sys(), acts) && !(Quiet(first) && Quiet(second))
    ensures !raised ==> SpawnedAll(old(store.Sys()), store.Sys(), acts, spawned, Quiet(first) && Quiet(second))
    ensures store.Fresh()
    ensures Quiet(first) && Quiet(second) ==> Columns.RowsSpawned(old(store.jobs), store.jobs)
    ensures Quiet(first) && Quiet(second) ==>
      |spawned| == |Columns.FailedRows(old(store.jobs))| + |Columns.ChildlessRows(old(store.jobs))|
  {
    hide Columns.RowsSpawned, Columns.FailedRows, Columns.ChildlessRows;
    hide Run, Step, Inv, SpawnUnderway, SpawnDone, FailedJobs, OrphanJobs, Spawning, RowsKept, Children, Listed, Overruled;
    ghost var s0, quiet := store.Sys(), Quiet(first) && Quiet(second);
    spawned, raised, acts := SpawnArm(store, now, first, quiet);
    if raised { return; }
    ghost var flipped := store.jobs;
    var repaired;
    repaired, raised, acts := RepairArm(store, now, second, s0, acts, quiet);
    BothArms(s0.db.jobs, flipped, store.jobs, spawned, repaired);
    spawned := spawned + repaired;
    if quiet {
      FinishSpawn(s0, store.Sys(), acts);
      SpawnedColumns(s0, store.Sys(), acts);
    }
  }

  lemma SpawnedColumns(s0: Sys, s: Sys, acts: seq<Act>)
    requires SpawnDone(s0, s, acts)
    ensures Columns.RowsSpawned(s0.db.jobs, s.db.jobs)
    ensures Columns.FailedRows(s0.db.jobs) == FailedJobs(s0.db) && Columns.ChildlessRows(s0.db.jobs) == OrphanJobs(s0.db)
  {
    hide Progressed, SpawnPhase, Columns.RowsSpawned, Columns.FailedRows, Columns.ChildlessRows, FailedJobs, OrphanJobs;
    SpawnColumns(s0.db, s.db);
  }
}
