/**
 With one claim loop per worker id and a fixed capacity, a worker never holds more jobs than its capacity: the
 capacity is checked once, before the snapshot, and every loop claims at most one job.
 */
module Capacity {
  import opened Wrappers
  import opened Rows
  import opened Sets
  import opened Substrate
  import opened Protocol
  import opened Structure
  import opened Effects
  import opened History
  import opened Readiness
  import opened Steps

  // Registrations of a worker always announce the same capacity.
  predicate FixedCapacity(a: Act, w: WorkerId, cap: int) {
    a.Register? && a.w == w ==> a.capacity == cap
  }

  ghost predicate CapacityOk(s: Sys, w: WorkerId, cap: int) {
    && HasCapacity(s.db, w, cap)
    && (Busy(s.db, w) == {} || |Busy(s.db, w)| <= cap)
    && (w in s.seen && s.seen[w] != {} ==> |Busy(s.db, w)| < cap)
  }

  // Only w's own claim makes w busier, and by one job.
  lemma BusyStep(s: Sys, a: Act, w: WorkerId)
    requires Inv(s) && Enabled(s, a)
    ensures Busy(Step(s, a).db, w) <= Busy(s.db, w) + if a.Claim? && a.w == w then Queueing(s.db, a.j) else {}
  {
    hide Summary, Inv;
    hide Step, Enabled;
    StepSummary(s, a);
    OnlyClaimsBusy(s, a);
    BusyRows(s.db, a, Step(s, a).db, w);
  }

  function Queueing(db: Db, j: JobId): set<JobId> { if j in db.jobs && db.jobs[j].state == Queued then {j} else {} }

  lemma BusyRows(db: Db, a: Act, b: Db, w: WorkerId)
    requires Summary(db, a, b) && ClaimedBy(db, a, b)
    ensures Busy(b, w) <= Busy(db, w) + if a.Claim? && a.w == w then Queueing(db, a.j) else {}
  {
    hide Origin;
    forall j <- Busy(b, w) ensures j in Busy(db, w) || (a.Claim? && a.w == w && j in Queueing(db, a.j)) {
      if j in db.jobs {
        assert RowStep(db.jobs[j], b.jobs[j]);
      } else {
        NewIsIdle(db, a, b, j);
      }
    }
  }

  lemma NewIsIdle(db: Db, a: Act, b: Db, j: JobId)
    requires j in b.jobs && j !in db.jobs && Origin(db, a, b, j)
    ensures b.jobs[j].worker == None
  {}

  lemma OnlyClaimsBusy(s: Sys, a: Act)
    requires Inv(s) && Enabled(s, a)
    ensures ClaimedBy(s.db, a, Step(s, a).db)
  {
    hide *;
    InvParts(s);
    if Aside(a) {
      AsideIdle(s, a);
    } else if !Composite(a) {
      SingleIdle(s, a);
    } else if a.RunTriage? {
      var p, pre, q, last := TriageStep(s, a);
      TriageIdle(s.db, a, Step(s, a).db, p);
    } else if a.HalfTriage? {
      var p, _ := HalfStep(s, a);
      HalfIdle(s.db, a, Step(s, a).db, p);
    } else {
      CompositeEffect(s, a);
      CompositeIdle(s.db, a, Step(s, a).db);
    }
  }

  // A job that goes from the queue to a worker was claimed by that worker.
  ghost predicate ClaimedBy(db: Db, a: Act, b: Db) {
    forall j <- db.jobs :: j in b.jobs && db.jobs[j].state == Queued && b.jobs[j].state == Assigned ==>
      a.Claim? && a.j == j && b.jobs[j].worker == Some(a.w)
  }

  lemma AsideIdle(s: Sys, a: Act)
    requires Enabled(s, a) && Aside(a)
    ensures ClaimedBy(s.db, a, Step(s, a).db)
  {
    hide Step, Enabled;
    AsideEffect(s, a);
  }

  lemma ClaimRequest(db: Db, a: Act)
    requires a.Claim? && SingleMove(db, a).Some?
    ensures SingleMove(db, a).value.job == a.j && SingleMove(db, a).value.worker == Some(a.w)
  {}

  lemma AssignedBy(db: Db, q: Request)
    ensures forall j <- db.jobs ::
      j in Move(db, q).jobs && db.jobs[j].state == Queued && Move(db, q).jobs[j].state == Assigned ==>
              q.job == j && q.to == Assigned && MoveRefusal(db, q).None? && Move(db, q).jobs[j].worker == q.worker
  {}

  lemma SingleIdle(s: Sys, a: Act)
    requires Enabled(s, a) && !Aside(a) && !Composite(a)
    ensures ClaimedBy(s.db, a, Step(s, a).db)
  {
    hide MoveRefusal;
    hide Step, Enabled, SingleMove, Move;
    MoveEffect(s, a);
    if SingleMove(s.db, a).Some? {
      OnlyClaimsAssign(s, a);
      if a.Claim? { ClaimRequest(s.db, a); }
      AssignedBy(s.db, SingleMove(s.db, a).value);
    }
  }

  lemma TriageIdle(db: Db, a: Act, b: Db, p: JobId)
    requires a.RunTriage? && TriageOutcome(db, b, p, a.rid)
    ensures ClaimedBy(db, a, b)
  {
    assert forall j <- db.jobs :: j == p || b.jobs[j] == db.jobs[j];
  }

  lemma HalfIdle(db: Db, a: Act, b: Db, p: JobId)
    requires a.HalfTriage? && HalfOutcome(db, b, p, a.rid)
    ensures ClaimedBy(db, a, b)
  {}

  lemma CompositeIdle(db: Db, a: Act, b: Db)
    requires Leaves(db, a, b)
    ensures ClaimedBy(db, a, b) && b.workers == db.workers
  {}

  predicate HasCapacity(db: Db, w: WorkerId, cap: int) { w in db.workers ==> db.workers[w].capacity == cap }

  lemma WorkersStep(s: Sys, a: Act, w: WorkerId, cap: int)
    requires Inv(s) && Enabled(s, a) && FixedCapacity(a, w, cap) && HasCapacity(s.db, w, cap)
    ensures HasCapacity(Step(s, a).db, w, cap)
  {
    hide Step, Enabled, Inv;
    if Aside(a) {
      AsideWorkers(s, a, w, cap);
    } else {
      SameWorkers(s, a);
    }
  }

  lemma SameWorkers(s: Sys, a: Act)
    requires Inv(s) && Enabled(s, a) && !Aside(a)
    ensures Step(s, a).db.workers == s.db.workers
  {
    hide Inv, Leaves, MoveRefusal;
    hide Step, Enabled, SingleMove, Struct, ReadyOk, TriageOk, TriageEvents;
    InvParts(s);
    if !Composite(a) {
      MoveEffect(s, a);
    } else if a.RunTriage? {
      var _, _, _, _ := TriageStep(s, a);
    } else if a.HalfTriage? {
      var _, _ := HalfStep(s, a);
    } else {
      CompositeEffect(s, a);
      CompositeIdle(s.db, a, Step(s, a).db);
    }
  }

  lemma WorkersStay(s: Sys, a: Act, w: WorkerId)
    requires Inv(s) && w in s.db.workers
    ensures w in Step(s, a).db.workers
  {
    hide Ops, Exec, NextSeen, Enabled, Inv;
    if !Enabled(s, a) {
      assert Step(s, a) == s;
    } else if Aside(a) {
      AsideKeepsWorkers(s, a, w);
    } else {
      SameWorkers(s, a);
    }
  }

  lemma AsideIsOps(s: Sys, a: Act)
    requires Enabled(s, a)
    ensures Step(s, a).db == Exec(s.db, Ops(s, a))
  {
    hide Ops, Exec, Enabled;
  }

  lemma OpKeepsWorkers(db: Db, op: Op, w: WorkerId)
    requires AsideOp(op) && w in db.workers
    ensures w in Apply(db, op).workers
  {
    hide Move, CreateJob;
  }

  lemma AsideKeepsWorkers(s: Sys, a: Act, w: WorkerId)
    requires Enabled(s, a) && Aside(a) && w in s.db.workers
    ensures w in Step(s, a).db.workers
  {
    AsideOps(s, a);
    var ops := Ops(s, a);
    hide Ops, Enabled, Step, Aside;
    AsideIsOps(s, a);
    if ops == [] {
      assert Exec(s.db, []) == s.db;
    } else {
      Exec1(s.db, ops[0]);
      hide Exec;
      OpKeepsWorkers(s.db, ops[0], w);
    }
  }

  lemma RegisterOps(s: Sys, a: Act, w: WorkerId, cap: int)
    requires Enabled(s, a) && FixedCapacity(a, w, cap)
    ensures |Ops(s, a)| == 1 && Ops(s, a)[0].DoRegister? && Ops(s, a)[0].w == w ==> Ops(s, a)[0].capacity == cap
  {
    hide Enabled;
  }

  lemma OpCapacity(db: Db, op: Op, w: WorkerId, cap: int)
    requires AsideOp(op) && HasCapacity(db, w, cap) && (op.DoRegister? && op.w == w ==> op.capacity == cap)
    ensures HasCapacity(Apply(db, op), w, cap)
  {
    hide Move, CreateJob;
  }

  lemma AsideWorkers(s: Sys, a: Act, w: WorkerId, cap: int)
    requires Enabled(s, a) && Aside(a) && FixedCapacity(a, w, cap) && HasCapacity(s.db, w, cap)
    ensures HasCapacity(Step(s, a).db, w, cap)
  {
    AsideOps(s, a);
    var ops := Ops(s, a);
    hide Ops, Enabled, Step, Aside;
    AsideIsOps(s, a);
    if ops == [] {
      assert Exec(s.db, []) == s.db;
    } else {
      Exec1(s.db, ops[0]);
      hide Exec;
      RegisterOps(s, a, w, cap);
      OpCapacity(s.db, ops[0], w, cap);
    }
  }

  lemma CapacityStep(s: Sys, a: Act, w: WorkerId, cap: int)
    requires Inv(s) && CapacityOk(s, w, cap) && FixedCapacity(a, w, cap)
    ensures CapacityOk(Step(s, a), w, cap)
  {
    hide Step, Inv, Busy;
    Disabled(s, a);
    if Enabled(s, a) {
      hide Enabled;
      BusyStep(s, a, w);
      WorkersStep(s, a, w, cap);
      SeenStep(s, a, w);
      SubsetCard(Busy(Step(s, a).db, w), Busy(s.db, w) + if a.Claim? && a.w == w then Queueing(s.db, a.j) else {});
    }
  }

  lemma SeenStep(s: Sys, a: Act, w: WorkerId)
    requires Enabled(s, a)
    ensures var t := Step(s, a);
      && (a.Look? && a.w == w ==> FreeWorker(s.db, w) && t.db == s.db)
      && (!(a.Look? && a.w == w) && w in t.seen && t.seen[w] != {} ==> w in s.seen && s.seen[w] != {})
      && (a.Claim? && a.w == w ==> w in s.seen && s.seen[w] != {})
      && (a.Claim? && a.w == w && Queueing(s.db, a.j) != {} ==> w in t.seen && t.seen[w] == {})
  {
    hide Apply;
    if a.Look? { assert Ops(s, a) == []; }
    SeenNext(s, a, w);
    hide Enabled, Ops, FreeWorker;
  }

  lemma SeenNext(s: Sys, a: Act, w: WorkerId)
    requires Enabled(s, a)
    ensures a.Look? ==> FreeWorker(s.db, a.w)
    ensures a.Claim? ==> a.w in s.seen && a.j in s.seen[a.w] && a.j in s.db.jobs
  {}

  lemma {:induction false} CapacityRun(acts: seq<Act>, w: WorkerId, cap: int)
    requires forall a <- acts :: FixedCapacity(a, w, cap)
    ensures CapacityOk(Run(INIT, acts), w, cap)
  {
    hide Step, Inv;
    if acts == [] {
      assert Busy(EMPTY, w) == {};
    } else {
      CapacityRun(acts[..|acts| - 1], w, cap);
      InvReachable(acts[..|acts| - 1]);
      CapacityStep(Run(INIT, acts[..|acts| - 1]), acts[|acts| - 1], w, cap);
    }
  }

  lemma NeverOverbooked(acts: seq<Act>, w: WorkerId, cap: int)
    requires forall a <- acts :: FixedCapacity(a, w, cap)
    requires cap >= 0
    ensures |Busy(Run(INIT, acts).db, w)| <= cap
  {
    hide Run;
    CapacityRun(acts, w, cap);
  }
}
