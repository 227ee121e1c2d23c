/**
 Lease safety over timed runs. With a clock that does not run backwards, a reaper finds a job expired only when more than
 its lease duration has passed since it was last claimed, started or kept alive by a heartbeat of its worker. But it reaps
 on what it has read: an execution keeps its job for the duration of its lease exactly if no reaper holds a finding from
 before.
 */
module Leases {
  import opened Wrappers
  import opened Rows
  import opened Substrate
  import opened Protocol
  import opened Effects
  import opened Structure
  import opened History
  import opened Readiness
  import opened EventLog

  // The claim or start of j that succeeds, or a heartbeat of the worker that holds j
  predicate Renews(s: Sys, a: Act, j: JobId) {
    && Enabled(s, a) && j in s.db.jobs && j in Step(s, a).db.jobs
    && match a
       case Claim(_, k, _) => k == j && s.db.jobs[j].state == Queued && Step(s, a).db.jobs[j].state == Assigned
       case Start(_, k, _) => k == j && s.db.jobs[j].state == Assigned && Step(s, a).db.jobs[j].state == Running
       case Beat(w, _) => BusyOn(s.db.jobs[j], w)
       case _ => false
  }

  // If j is leased, then at least until d after u.
  predicate LeasedSince(row: Job, u: int) {
    row.Leased() && row.lease.Some? ==> row.lease.value >= u + LeaseDuration(row.resource)
  }

  predicate Since(db: Db, j: JobId, u: int) { j in db.jobs && LeasedSince(db.jobs[j], u) }

  // No lease of j expires in the step.
  predicate KeepsAttempt(db: Db, b: Db, j: JobId) {
    j in db.jobs && j in b.jobs && b.jobs[j].attempt == db.jobs[j].attempt && b.jobs[j].resource == db.jobs[j].resource
  }

  /******* One step *******/

  predicate LeaseRequest(db: Db, q: Request, u: int) {
    && q.job in db.jobs
    && (q.lease.Some? ==> q.lease.value >= u + LeaseDuration(db.jobs[q.job].resource))
    && (q.to == Assigned ==> q.lease.Some? || MoveRefusal(db, q).Some?)
  }

  lemma RequestLease(s: Sys, a: Act)
    requires Enabled(s, a) && SingleMove(s.db, a).Some? && SingleMove(s.db, a).value.job in s.db.jobs
    ensures LeaseRequest(s.db, SingleMove(s.db, a).value, a.ts)
    ensures SingleMove(s.db, a).value.to == Queued && !a.Reap? && MoveRefusal(s.db, SingleMove(s.db, a).value).None? ==>
              !s.db.jobs[SingleMove(s.db, a).value.job].Leased()
    ensures a.Reap? ==> SingleMove(s.db, a).value.job == a.j
  {
    hide Enabled;
  }

  lemma MoveLease(db: Db, q: Request, j: JobId, u: int, ts: int)
    requires Since(db, j, u) && u <= ts && (q.job in db.jobs ==> LeaseRequest(db, q, ts))
    ensures Since(Move(db, q), j, u)
    ensures Move(db, q).jobs[j].resource == db.jobs[j].resource
    ensures q.job != j || MoveRefusal(db, q).Some? || !LeaseExpiry(db.jobs[j].state, q.to) ==> KeepsAttempt(db, Move(db, q), j)
  {}

  lemma SingleLease(s: Sys, a: Act, j: JobId, u: int)
    requires Enabled(s, a) && !Aside(a) && !Composite(a) && Since(s.db, j, u) && u <= a.ts
    ensures Since(Step(s, a).db, j, u) && Step(s, a).db.jobs[j].resource == s.db.jobs[j].resource
    ensures KeepsAttempt(s.db, Step(s, a).db, j) || (a.Reap? && a.j == j)
  {
    hide LeaseRequest;
    hide Step, Enabled, SingleMove, Move, MoveRefusal;
    MoveEffect(s, a);
    if SingleMove(s.db, a).Some? {
      var q := SingleMove(s.db, a).value;
      if q.job in s.db.jobs { RequestLease(s, a); }
      MoveLease(s.db, q, j, u, a.ts);
    }
  }

  lemma LeavesLease(db: Db, a: Act, b: Db, j: JobId, u: int)
    requires Leaves(db, a, b) && Since(db, j, u)
    ensures Since(b, j, u) && KeepsAttempt(db, b, j)
  {}

  lemma OutcomeLease(db: Db, b: Db, p: JobId, rid: JobId, j: JobId, u: int)
    requires TriageOutcome(db, b, p, rid) && Since(db, j, u)
    ensures Since(b, j, u) && KeepsAttempt(db, b, j)
  {
    assert j == p || b.jobs[j] == db.jobs[j];
  }

  lemma AsideLease(db: Db, a: Act, b: Db, j: JobId, u: int)
    requires LeavesRows(db, a, b) && Since(db, j, u) && u <= a.ts
    ensures Since(b, j, u) && KeepsAttempt(db, b, j)
  {}

  lemma LeaseStep(s: Sys, a: Act, j: JobId, u: int)
    requires Inv(s) && Since(s.db, j, u) && u <= a.ts
    ensures Since(Step(s, a).db, j, u) && Step(s, a).db.jobs[j].resource == s.db.jobs[j].resource
    ensures KeepsAttempt(s.db, Step(s, a).db, j) || (a.Reap? && a.j == j && Enabled(s, a))
  {
    hide Ops, Exec, NextSeen;
    if !Enabled(s, a) {
      assert Step(s, a) == s;
    } else {
      hide Step, Enabled, Struct, ReadyOk, TriageOk, Leaves, LeavesRows, TriageOutcome, TriageEvents;
      InvParts(s);
      if Aside(a) {
        AsideEffect(s, a);
        AsideLease(s.db, a, Step(s, a).db, j, u);
      } else if !Composite(a) {
        SingleLease(s, a, j, u);
      } else if a.RunTriage? || a.HalfTriage? {
        TriageLease(s, a, j, u);
      } else {
        CompositeEffect(s, a);
        LeavesLease(s.db, a, Step(s, a).db, j, u);
      }
    }
  }

  lemma TriageLease(s: Sys, a: Act, j: JobId, u: int)
    requires Inv(s) && Enabled(s, a) && (a.RunTriage? || a.HalfTriage?) && Since(s.db, j, u)
    ensures Since(Step(s, a).db, j, u) && KeepsAttempt(s.db, Step(s, a).db, j)
  {
    hide Step, Enabled, TriageOutcome, TriageEvents, Struct, ReadyOk, TriageOk;
    InvParts(s);
    if a.RunTriage? {
      var p, pre, q, last := TriageStep(s, a);
      OutcomeLease(s.db, Step(s, a).db, p, a.rid, j, u);
    } else {
      var _, _ := HalfStep(s, a);
    }
  }

  /******* Runs *******/

  lemma RenewedRow(s: Sys, a: Act, j: JobId)
    requires Renews(s, a, j)
    ensures Since(Step(s, a).db, j, a.ts) && KeepsAttempt(s.db, Step(s, a).db, j)
  {
    if a.Beat? {
      Exec1(s.db, Ops(s, a)[0]);
    } else {
      MoveEffect(s, a);
    }
  }

  lemma {:induction false} LeaseRun(s: Sys, acts: seq<Act>, j: JobId, u: int)
    requires Inv(s) && Since(s.db, j, u) && forall a <- acts :: u <= a.ts
    ensures Since(Run(s, acts).db, j, u) && Run(s, acts).db.jobs[j].resource == s.db.jobs[j].resource
  {
    hide Step, Enabled;
    if acts != [] {
      LeaseRun(s, acts[..|acts| - 1], j, u);
      InvRun(s, acts[..|acts| - 1]);
      LeaseStep(Run(s, acts[..|acts| - 1]), acts[|acts| - 1], j, u);
    }
  }

  /******* What reapers have read *******/

  // No reaper is about to reap j on what it has read.
  predicate NobodyFound(s: Sys, j: JobId) { forall f <- s.pending.reap :: f.j != j }

  // Some reaper is about to, and has read that j runs.
  predicate FoundRunning(s: Sys, j: JobId) { exists f <- s.pending.reap :: f.j == j && f.started }

  // A reaper finds j only after its lease has expired.
  lemma FoundStep(s: Sys, a: Act, j: JobId, u: int)
    requires Since(s.db, j, u)
    requires a.FindExpired? && a.j == j && Enabled(s, a) ==> a.ts <= u + LeaseDuration(s.db.jobs[j].resource)
    ensures NobodyFound(s, j) ==> NobodyFound(Step(s, a), j)
    ensures FoundRunning(Step(s, a), j) ==> FoundRunning(s, j)
  {
    hide Ops, Exec, NextSeen;
    if Enabled(s, a) {
      assert Step(s, a).pending == NextPending(s, a);
      FoundLater(s, a, j);
    }
  }

  lemma FoundLater(s: Sys, a: Act, j: JobId)
    requires Enabled(s, a) && !(a.FindExpired? && a.j == j)
    ensures forall f <- NextPending(s, a).reap :: f.j == j ==> f in s.pending.reap
  {
    hide Enabled;
  }

  // After the renewal of j's lease at time a.ts, with nobody holding a finding of an earlier lease, a reaper acts on j only
  // later than a lease duration after that, whatever happens in between.
  lemma ReapedOnlyWhenExpired(before: seq<Act>, a: Act, after: seq<Act>, j: JobId, started: bool, exhausted: bool, t: int)
    requires Renews(Run(INIT, before), a, j) && NobodyFound(Run(INIT, before), j) && forall b <- after :: a.ts <= b.ts <= t
    requires Enabled(Run(INIT, before + [a] + after), Reap(j, started, exhausted, t))
    ensures t > a.ts + LeaseDuration(Run(INIT, before).db.jobs[j].resource)
  {
    hide Renews, Run, Step, Enabled, Inv;
    var s := Run(INIT, before);
    InvReachable(before);
    RenewedRow(s, a, j);
    InvStep(s, a);
    RunPush(INIT, before, a);
    RenewalFindsNothing(s, a, j);
    RunConcat(INIT, before + [a], after);
    if t <= a.ts + LeaseDuration(s.db.jobs[j].resource) {
      RunWithinLease(Step(s, a), after, j, a.ts);
      NotFoundNotReaped(Run(Step(s, a), after), Reap(j, started, exhausted, t), j);
    }
  }

  lemma RenewalFindsNothing(s: Sys, a: Act, j: JobId)
    requires Renews(s, a, j)
    ensures Step(s, a).pending.reap == s.pending.reap
  {
    hide Ops, Exec, NextSeen, Enabled;
  }

  // An execution that is over within the lease duration of its start costs no attempt: however many reapers look
  // at the job until then, none of them takes it away, unless one does on what it had read before.
  lemma {:induction false} RunWithinLease(s: Sys, acts: seq<Act>, j: JobId, u: int)
    requires Inv(s) && Since(s.db, j, u) && NobodyFound(s, j)
    requires forall a <- acts :: u <= a.ts <= u + LeaseDuration(s.db.jobs[j].resource)
    ensures Since(Run(s, acts).db, j, u) && KeepsAttempt(s.db, Run(s, acts).db, j) && NobodyFound(Run(s, acts), j)
    ensures forall i :: 0 <= i < |acts| && acts[i].Reap? && acts[i].j == j ==> !Enabled(Run(s, acts[..i]), acts[i])
  {
    hide Step, Enabled, Inv, NobodyFound, FoundRunning;
    if acts != [] {
      var init, a := acts[..|acts| - 1], acts[|acts| - 1];
      RunWithinLease(s, init, j, u);
      InvRun(s, init);
      LeaseStep(Run(s, init), a, j, u);
      NotFoundNotReaped(Run(s, init), a, j);
      FoundStep(Run(s, init), a, j, u);
      hide Run;
      forall i | 0 <= i < |acts| && acts[i].Reap? && acts[i].j == j ensures !Enabled(Run(s, acts[..i]), acts[i]) {
        if i < |init| { assert init[..i] == acts[..i] && init[i] == acts[i]; }
      }
    }
  }

  lemma NotFoundNotReaped(s: Sys, a: Act, j: JobId)
    requires NobodyFound(s, j)
    ensures a.Reap? && a.j == j ==> !Enabled(s, a)
  {}

  lemma StartedRunIsNotReaped(before: seq<Act>, a: Act, after: seq<Act>, j: JobId)
    requires a.Start? && Renews(Run(INIT, before), a, j) && NobodyFound(Run(INIT, before), j)
    requires forall b <- after :: a.ts <= b.ts <= a.ts + LeaseDuration(Run(INIT, before).db.jobs[j].resource)
    ensures KeepsAttempt(Run(INIT, before).db, Run(INIT, before + [a] + after).db, j)
    ensures forall i :: 0 <= i < |after| && after[i].Reap? && after[i].j == j ==>
      !Enabled(Run(INIT, before + [a] + after[..i]), after[i])
  {
    var s := Run(INIT, before);
    InvReachable(before);
    RenewedRow(s, a, j);
    InvStep(s, a);
    RunPush(INIT, before, a);
    RenewalFindsNothing(s, a, j);
    RunWithinLease(Step(s, a), after, j, a.ts);
    RunConcat(INIT, before + [a], after);
    hide Run, Step, Enabled;
    forall i | 0 <= i < |after| && after[i].Reap? && after[i].j == j
      ensures !Enabled(Run(INIT, before + [a] + after[..i]), after[i])
    {
      RunConcat(INIT, before + [a], after[..i]);
    }
  }

  /******* Executions that are left alone *******/

  // A completion of j, or the failure a worker reports for it
  predicate Finishes(a: Act, j: JobId) {
    (a.AnalysisDone? || a.Crash? || a.CheckDone? || a.TriageDone? || a.ReportDone?) && a.j == j
  }

  predicate Runs(db: Db, j: JobId) { j in db.jobs && db.jobs[j].state == Running }

  lemma RunningRequest(s: Sys, a: Act, j: JobId)
    requires Enabled(s, a) && Runs(s.db, j) && !Finishes(a, j) && !(a.Reap? && a.j == j && a.started) && SingleMove(s.db, a).Some?
    ensures SingleMove(s.db, a).value.job == j ==> MoveRefusal(s.db, SingleMove(s.db, a).value).Some?
  {}

  lemma RunningMove(db: Db, q: Request, j: JobId)
    requires Runs(db, j) && (q.job == j ==> MoveRefusal(db, q).Some?)
    ensures Runs(Move(db, q), j)
  {}

  lemma RunningAside(db: Db, a: Act, b: Db, j: JobId)
    requires LeavesRows(db, a, b) && Runs(db, j)
    ensures Runs(b, j)
  {}

  lemma RunningLeaves(db: Db, a: Act, b: Db, j: JobId)
    requires Leaves(db, a, b) && Runs(db, j)
    ensures Runs(b, j)
  {}

  lemma RunningTriage(s: Sys, a: Act, j: JobId)
    requires Inv(s) && Enabled(s, a) && (a.RunTriage? || a.HalfTriage?) && Runs(s.db, j)
    ensures Runs(Step(s, a).db, j)
  {
    hide Step, Enabled, TriageEvents, Struct, ReadyOk, TriageOk;
    InvParts(s);
    if a.RunTriage? {
      var p, pre, q, last := TriageStep(s, a);
      assert j != p;
    } else {
      var _, _ := HalfStep(s, a);
    }
  }

  // Only its own completion and a reaper that has read it running take a job out of 'running'.
  lemma RunningStep(s: Sys, a: Act, j: JobId)
    requires Inv(s) && Runs(s.db, j) && !Finishes(a, j) && !FoundRunning(s, j)
    ensures Runs(Step(s, a).db, j)
  {
    hide Ops, Exec, NextSeen, Inv;
    if !Enabled(s, a) {
      assert Step(s, a) == s;
    } else {
      hide Step, Enabled, Struct, ReadyOk, TriageOk, Leaves, LeavesRows, SingleMove, MoveRefusal, Runs, Move, Finishes;
      InvParts(s);
      if Aside(a) {
        AsideEffect(s, a);
        RunningAside(s.db, a, Step(s, a).db, j);
      } else if !Composite(a) {
        MoveEffect(s, a);
        if SingleMove(s.db, a).Some? {
          RunningRequest(s, a, j);
          RunningMove(s.db, SingleMove(s.db, a).value, j);
        }
      } else if a.RunTriage? || a.HalfTriage? {
        RunningTriage(s, a, j);
      } else {
        CompositeEffect(s, a);
        RunningLeaves(s.db, a, Step(s, a).db, j);
      }
    }
  }

  // Everything happens within the lease duration of u, and nobody else completes the job.
  predicate Prompt(acts: seq<Act>, j: JobId, u: int, lease: int) {
    forall a <- acts :: u <= a.ts <= u + lease && !Finishes(a, j)
  }

  // A job whose lease was set at u is then still running, unless a reaper has read it running before.
  lemma {:induction false} StillRunning(s: Sys, acts: seq<Act>, j: JobId, u: int)
    requires Inv(s) && Since(s.db, j, u) && Runs(s.db, j) && !FoundRunning(s, j)
    requires Prompt(acts, j, u, LeaseDuration(s.db.jobs[j].resource))
    ensures Runs(Run(s, acts).db, j) && !FoundRunning(Run(s, acts), j)
  {
    hide Step, Enabled, Inv, Runs, Finishes, FoundRunning;
    if acts != [] {
      var init, a := acts[..|acts| - 1], acts[|acts| - 1];
      StillRunning(s, init, j, u);
      LeaseRun(s, init, j, u);
      InvRun(s, init);
      FoundStep(Run(s, init), a, j, u);
      RunningStep(Run(s, init), a, j);
    }
  }

  // A running job can be taken away within its lease exactly if some reaper still holds an older finding of it.
  lemma TakenIffFound(s: Sys, j: JobId, u: int)
    requires Inv(s) && Since(s.db, j, u) && Runs(s.db, j)
    ensures FoundRunning(s, j) <==>
      exists acts :: Prompt(acts, j, u, LeaseDuration(s.db.jobs[j].resource)) && !Runs(Run(s, acts).db, j)
  {
    hide Run, Inv;
    if FoundRunning(s, j) {
      var f :| f in s.pending.reap && f.j == j && f.started;
      var acts := [Reap(j, true, f.exhausted, u)];
      TakesAway(s, f, u);
      assert Prompt(acts, j, u, LeaseDuration(s.db.jobs[j].resource)) && !Runs(Run(s, acts).db, j);
    } else {
      hide FoundRunning;
      forall acts | Prompt(acts, j, u, LeaseDuration(s.db.jobs[j].resource)) ensures Runs(Run(s, acts).db, j) {
        StillRunning(s, acts, j, u);
      }
    }
  }

  lemma TakesAway(s: Sys, f: Find, u: int)
    requires f in s.pending.reap && f.started && Runs(s.db, f.j)
    ensures !Runs(Run(s, [Reap(f.j, true, f.exhausted, u)]).db, f.j)
  {
    hide Run, Step, Enabled, SingleMove, MoveRefusal, Move;
    var a := Reap(f.j, true, f.exhausted, u);
    RunOne(s, a);
    TakeGuard(s, f, u);
    MoveEffect(s, a);
    TakeMoves(s.db, f, u);
  }

  lemma TakeMoves(db: Db, f: Find, u: int)
    requires MoveRefusal(db, ReapCall(f, u)).None?
    ensures !Runs(Move(db, ReapCall(f, u)), f.j)
  {}

  lemma TakeGuard(s: Sys, f: Find, u: int)
    requires f in s.pending.reap && f.started && Runs(s.db, f.j)
    ensures var a := Reap(f.j, true, f.exhausted, u);
      Enabled(s, a) && SingleMove(s.db, a) == Some(ReapCall(f, u)) && MoveRefusal(s.db, ReapCall(f, u)).None?
  {}

  /******* An expired lease is found *******/

  // If j is leased, then exactly until a lease duration after u.
  predicate LeasedUntil(row: Job, u: int) { row.Leased() ==> row.lease == Some(u + LeaseDuration(row.resource)) }

  predicate Until(db: Db, j: JobId, u: int) { j in db.jobs && LeasedUntil(db.jobs[j], u) }

  predicate SameLease(db: Db, b: Db, j: JobId, u: int) {
    j in db.jobs && Until(b, j, u) && b.jobs[j].resource == db.jobs[j].resource
  }

  lemma RenewedUntil(s: Sys, a: Act, j: JobId)
    requires Renews(s, a, j)
    ensures Until(Step(s, a).db, j, a.ts) && Step(s, a).db.jobs[j].resource == s.db.jobs[j].resource
  {
    hide Until, MoveRefusal, Move, Substrate.Heartbeat;
    if a.Beat? {
      Exec1(s.db, Ops(s, a)[0]);
      KeptUntil(s.db, a.w, a.ts, j);
    } else {
      MoveEffect(s, a);
      TakenUntil(s.db, SingleMove(s.db, a).value, a.ts);
    }
  }

  lemma KeptUntil(db: Db, w: WorkerId, now: int, j: JobId)
    requires j in db.jobs && BusyOn(db.jobs[j], w)
    ensures var b := Substrate.Heartbeat(db, w, now);
      Until(b, j, now) && j in b.jobs && b.jobs[j].resource == db.jobs[j].resource
  {}

  lemma TakenUntil(db: Db, q: Request, now: int)
    requires q.job in db.jobs && q.to in {Assigned, Running} && q.lease == Some(now + LeaseDuration(db.jobs[q.job].resource))
    ensures db.jobs[q.job].state != Move(db, q).jobs[q.job].state == q.to ==> Until(Move(db, q), q.job, now)
    ensures Move(db, q).jobs[q.job].resource == db.jobs[q.job].resource
  {}

  // Only claims and starts lead into a leased state.
  lemma IntoLease(db: Db, a: Act, j: JobId)
    requires SingleMove(db, a).Some? && SingleMove(db, a).value.job == j && MoveRefusal(db, SingleMove(db, a).value).None?
    requires SingleMove(db, a).value.to in {Assigned, Running}
    ensures (a.Claim? && a.j == j && db.jobs[j].state == Queued && SingleMove(db, a).value.to == Assigned)
         || (a.Start? && a.j == j && db.jobs[j].state == Assigned && SingleMove(db, a).value.to == Running)
  {}

  lemma OutOfLease(db: Db, q: Request, j: JobId, u: int)
    requires Until(db, j, u) && (q.job == j && MoveRefusal(db, q).None? ==> q.to !in {Assigned, Running})
    ensures SameLease(db, Move(db, q), j, u)
  {}

  lemma SingleUntil(s: Sys, a: Act, j: JobId, u: int)
    requires Enabled(s, a) && !Aside(a) && !Composite(a) && Until(s.db, j, u) && !Renews(s, a, j)
    ensures SameLease(s.db, Step(s, a).db, j, u)
  {
    hide Step, Enabled, SingleMove, MoveRefusal, Move, Until, LeasedUntil;
    MoveEffect(s, a);
    InDb(s.db, j, u);
    if SingleMove(s.db, a).Some? {
      var q := SingleMove(s.db, a).value;
      if q.job == j && MoveRefusal(s.db, q).None? && q.to in {Assigned, Running} {
        IntoLease(s.db, a, j);
        MovedTo(s.db, q);
      }
      OutOfLease(s.db, q, j, u);
    }
  }

  lemma InDb(db: Db, j: JobId, u: int)
    requires Until(db, j, u)
    ensures j in db.jobs && SameLease(db, db, j, u)
  {}

  lemma MovedTo(db: Db, q: Request)
    requires MoveRefusal(db, q).None?
    ensures q.job in Move(db, q).jobs && Move(db, q).jobs[q.job].state == q.to
  {}

  lemma AsideUntil(s: Sys, a: Act, b: Db, j: JobId, u: int)
    requires LeavesRows(s.db, a, b) && Until(s.db, j, u) && (a.Beat? ==> !BusyOn(s.db.jobs[j], a.w))
    ensures SameLease(s.db, b, j, u)
  {}

  lemma BeatRenews(s: Sys, a: Act, j: JobId)
    requires a.Beat? && Enabled(s, a) && j in s.db.jobs && j in Step(s, a).db.jobs && !Renews(s, a, j)
    ensures !BusyOn(s.db.jobs[j], a.w)
  {
    hide Step, Enabled;
  }

  lemma OutcomeUntil(db: Db, b: Db, p: JobId, rid: JobId, j: JobId, u: int)
    requires TriageOutcome(db, b, p, rid) && Until(db, j, u)
    ensures SameLease(db, b, j, u)
  {
    assert j == p || b.jobs[j] == db.jobs[j];
  }

  lemma LeavesUntil(db: Db, a: Act, b: Db, j: JobId, u: int)
    requires Leaves(db, a, b) && Until(db, j, u)
    ensures SameLease(db, b, j, u)
  {}

  lemma UntilStep(s: Sys, a: Act, j: JobId, u: int)
    requires Inv(s) && Until(s.db, j, u) && !Renews(s, a, j)
    ensures SameLease(s.db, Step(s, a).db, j, u)
  {
    hide Step, Inv, Struct, ReadyOk, TriageOk, Leaves, LeavesRows, TriageOutcome, TriageEvents, HalfOutcome, Renews, Until;
    hide SameLease, BusyOn;
    Disabled(s, a);
    InDb(s.db, j, u);
    if Enabled(s, a) {
      hide Enabled;
      InvParts(s);
      if Aside(a) {
        AsideEffect(s, a);
        StillThere(s.db, a, Step(s, a).db, j);
        if a.Beat? { BeatRenews(s, a, j); }
        AsideUntil(s, a, Step(s, a).db, j, u);
      } else if !Composite(a) {
        SingleUntil(s, a, j, u);
      } else if a.RunTriage? {
        var p, pre, q, last := TriageStep(s, a);
        OutcomeUntil(s.db, Step(s, a).db, p, a.rid, j, u);
      } else if a.HalfTriage? {
        var p, _ := HalfStep(s, a);
        HalfUntil(s.db, Step(s, a).db, p, a.rid, j, u);
      } else {
        CompositeEffect(s, a);
        LeavesUntil(s.db, a, Step(s, a).db, j, u);
      }
    }
  }

  lemma StillThere(db: Db, a: Act, b: Db, j: JobId)
    requires LeavesRows(db, a, b) && j in db.jobs
    ensures j in b.jobs
  {}

  lemma HalfUntil(db: Db, b: Db, p: JobId, rid: JobId, j: JobId, u: int)
    requires HalfOutcome(db, b, p, rid) && Until(db, j, u)
    ensures SameLease(db, b, j, u)
  {}

  lemma {:induction false} UntilRun(s: Sys, acts: seq<Act>, j: JobId, u: int)
    requires Inv(s) && Until(s.db, j, u) && forall i :: 0 <= i < |acts| ==> !Renews(Run(s, acts[..i]), acts[i], j)
    ensures SameLease(s.db, Run(s, acts).db, j, u)
  {
    hide Step, Enabled, Inv, Renews;
    if acts != [] {
      var init, n := acts[..|acts| - 1], |acts| - 1;
      assert forall i :: 0 <= i < n ==> init[..i] == acts[..i] && init[i] == acts[i];
      UntilRun(s, init, j, u);
      InvRun(s, init);
      UntilStep(Run(s, init), acts[n], j, u);
    }
  }

  // Converse: a job that is leased, and was last renewed at a.ts, is found expired at any time later than a lease duration
  // after that, and at no other.
  lemma FoundIffExpired(before: seq<Act>, a: Act, after: seq<Act>, j: JobId, ts: int)
    requires Renews(Run(INIT, before), a, j)
    requires forall i :: 0 <= i < |after| ==> !Renews(Run(INIT, before + [a] + after[..i]), after[i], j)
    requires var db := Run(INIT, before + [a] + after).db; j in db.jobs && db.jobs[j].state in {Assigned, Running}
    ensures Enabled(Run(INIT, before + [a] + after), FindExpired(j, ts)) <==>
      ts > a.ts + LeaseDuration(Run(INIT, before).db.jobs[j].resource)
  {
    hide Run, Step, Inv, Renews;
    var s := Run(INIT, before);
    var t := Run(INIT, before + [a]);
    InvReachable(before + [a]);
    RunPush(INIT, before, a);
    RenewedUntil(s, a, j);
    forall i | 0 <= i < |after| ensures !Renews(Run(t, after[..i]), after[i], j) { RunConcat(INIT, before + [a], after[..i]); }
    UntilRun(t, after, j, a.ts);
    RunConcat(INIT, before + [a], after);
  }
}
