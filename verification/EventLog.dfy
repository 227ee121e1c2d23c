/**
 The event log determines the store. For every interleaving of primitive transactions: folding the verbs
 rebuilds every job's state, the transition events of a job form a gap-free legal chain, they account for its
 attempt counter, and their number is bounded by the attempts and human re-runs they contain.
 */
module EventLog {
  import opened Wrappers
  import opened Rows
  import opened Substrate

  /******* Replaying the verbs *******/

  // The state a job is in after an event with this verb
  function VerbTarget(v: Verb): Option<JobState> {
    match v
    case JobProposed => Some(Proposed)
    case JobApproved => Some(Approved)
    case JobEnqueued => Some(Queued)
    case JobClaimed => Some(Assigned)
    case JobStarted => Some(Running)
    case JobSucceeded => Some(Succeeded)
    case JobFailed => Some(Failed)
    case JobLeaseExpired => Some(Queued)
    case JobRetried => Some(RetrySpawned)
    case JobCancelled => Some(Cancelled)
    case JobReviewRequested => Some(Review)
    case JobAccepted => Some(Accepted)
    case JobRejected => Some(Rejected)
    case JobEscalated => Some(Escalated)
    case JobInfeasible => Some(Infeasible)
    case JobTriageStarted => Some(Triage)
    case _ => None
  }

  // A reader that sees only verbs and subjects
  function Replay(log: seq<Event>, j: JobId): Option<JobState> {
    if log == [] then None
    else
      var e := log[|log| - 1];
      if e.subject == JobSubject(j) && VerbTarget(e.verb).Some? then VerbTarget(e.verb)
      else Replay(log[..|log| - 1], j)
  }

  ghost predicate Faithful(db: Db, j: JobId) {
    && Replay(db.log, j) == (if j in db.jobs then Some(db.jobs[j].state) else None)
    && (j in db.jobs ==> (db.jobs[j].lease.Some? <==> Replay(db.log, j) in {Some(Assigned), Some(Running)}))
  }

  lemma ReplayPush(log: seq<Event>, e: Event, j: JobId)
    ensures Replay(log + [e], j) ==
            if e.subject == JobSubject(j) && VerbTarget(e.verb).Some? then VerbTarget(e.verb) else Replay(log, j)
  {
    assert (log + [e])[..|log|] == log;
  }

  lemma VerbDetermines(from: JobState, to: JobState)
    requires JobVerb(from, to).Some?
    ensures VerbTarget(JobVerb(from, to).value) == Some(to)
  {}

  lemma MoveFaithful(db: Db, q: Request, j: JobId)
    requires Faithful(db, j) && MoveRefusal(db, q).None?
    ensures Faithful(Move(db, q), j)
  {
    ReplayPush(db.log, MoveEvent(db.jobs[q.job], q), j);
    VerbDetermines(db.jobs[q.job].state, q.to);
  }

  lemma ApplyFaithful(db: Db, op: Op, j: JobId)
    requires Faithful(db, j)
    ensures Faithful(Apply(db, op), j)
  {
    if op.DoMove? {
      if MoveRefusal(db, op.move).None? { MoveFaithful(db, op.move, j); }
    } else {
      OtherFaithful(db, op, j);
    }
  }

  lemma OtherFaithful(db: Db, op: Op, j: JobId)
    requires Faithful(db, j) && !op.DoMove?
    ensures Faithful(Apply(db, op), j)
  {
    if op.DoCreateJob? {
      CreateFaithful(db, op.job, j);
    } else {
      OtherKeepsRow(db, op, j);
      OtherEvent(db, op, j);
    }
    hide Apply, Replay;
  }

  lemma CreateFaithful(db: Db, n: NewJob, j: JobId)
    requires Faithful(db, j)
    ensures Faithful(CreateJob(db, n), j)
  {
    if CreateRefusal(db, n).None? { ReplayPush(db.log, CreateJob(db, n).log[|db.log|], j); }
    hide Replay;
  }

  lemma OtherKeepsRow(db: Db, op: Op, j: JobId)
    requires !op.DoMove? && !op.DoCreateJob?
    ensures var b := Apply(db, op);
      (j in b.jobs <==> j in db.jobs) &&
        (j in db.jobs ==> b.jobs[j].state == db.jobs[j].state && (b.jobs[j].lease.Some? <==> LeaseAfter(db, op, j)))
  {}

  // A heartbeat only renews leases there are.
  predicate LeaseAfter(db: Db, op: Op, j: JobId)
    requires j in db.jobs
  {
    if op.DoHeartbeat? && BusyOn(db.jobs[j], op.w) then true else db.jobs[j].lease.Some?
  }

  lemma OtherEvent(db: Db, op: Op, j: JobId)
    requires !op.DoMove? && !op.DoCreateJob?
    ensures Replay(Apply(db, op).log, j) == Replay(db.log, j)
  {
    var after := Apply(db, op);
    if |after.log| > |db.log| { ReplayPush(db.log, after.log[|db.log|], j); }
  }

  lemma {:induction false} LogDeterminesStore(ops: seq<Op>, j: JobId)
    ensures Faithful(Exec(EMPTY, ops), j)
  {
    if ops != [] {
      LogDeterminesStore(ops[..|ops| - 1], j);
      ApplyFaithful(Exec(EMPTY, ops[..|ops| - 1]), ops[|ops| - 1], j);
    }
  }

  /******* Trails *******/

  // The transition events of one job
  function Trail(log: seq<Event>, j: JobId): seq<Event> {
    if log == [] then []
    else Trail(log[..|log| - 1], j) + (if log[|log| - 1].Moves(j) then [log[|log| - 1]] else [])
  }

  predicate LegalEvent(e: Event) {
    && e.detail.Moved?
    && JobVerb(e.detail.from, e.detail.to) == Some(e.verb)
    && !e.actor.Malformed?
    && ActorMay(e.actor, e.detail.from, e.detail.to)
  }

  // Gap-free: every event starts where the one before it ended
  predicate Chain(trail: seq<Event>, first: JobState, last: JobState) {
    if trail == [] then first == last
    else
      var e := trail[|trail| - 1];
      LegalEvent(e) && e.detail.to == last && Chain(trail[..|trail| - 1], first, e.detail.from)
  }

  predicate IsExpiry(e: Event) { e.verb == JobLeaseExpired }

  predicate IsRerun(e: Event) { e.verb == JobEnqueued && e.detail.Moved? && e.detail.from == Escalated }

  function Expiries(trail: seq<Event>): nat {
    if trail == [] then 0 else Expiries(trail[..|trail| - 1]) + if IsExpiry(trail[|trail| - 1]) then 1 else 0
  }

  function Reruns(trail: seq<Event>): nat {
    if trail == [] then 0 else Reruns(trail[..|trail| - 1]) + if IsRerun(trail[|trail| - 1]) then 1 else 0
  }

  // How far along its life a state is: every move but an expiry and a human re-run goes up
  function Rank(s: JobState): int {
    match s
    case Proposed => 0
    case Approved => 1
    case Queued => 2
    case Assigned => 3
    case Running => 4
    case Succeeded => 5
    case Failed => 5
    case Review => 6
    case Triage => 6
    case Escalated => 7
    case _ => 8
  }

  predicate SameColumns(a: Job, b: Job) {
    && a.study == b.study && a.jtype == b.jtype && a.priority == b.priority && a.resource == b.resource
    && a.payload == b.payload && a.maxAttempts == b.maxAttempts && a.parent == b.parent && a.createdAt == b.createdAt
  }

  // The trail accounts for everything that happened to the row
  ghost predicate Explains(trail: seq<Event>, before: Job, after: Job) {
    && Chain(trail, before.state, after.state)
    && after.attempt == before.attempt + Expiries(trail)
    && |trail| + Rank(before.state) <= Rank(after.state) + 3 * Expiries(trail) + 6 * Reruns(trail)
    && SameColumns(before, after)
  }

  lemma {:induction false} TrailIn(log: seq<Event>, j: JobId)
    ensures forall e <- Trail(log, j) :: e in log && e.Moves(j)
  {
    if log != [] {
      TrailIn(log[..|log| - 1], j);
    }
  }

  lemma TrailPush(log: seq<Event>, e: Event, j: JobId)
    ensures Trail(log + [e], j) == Trail(log, j) + (if e.Moves(j) then [e] else [])
  {
    assert (log + [e])[..|log|] == log;
  }

  // What one transaction adds to the log
  function Appended(db: Db, op: Op): seq<Event> {
    var log := Apply(db, op).log;
    if |log| > |db.log| then [log[|db.log|]] else []
  }

  lemma ApplyAppends(db: Db, op: Op)
    ensures Apply(db, op).log == db.log + Appended(db, op)
  {}

  lemma TrailSplit(log: seq<Event>, db: Db, op: Op, j: JobId)
    ensures Trail(log + Appended(db, op), j) == Trail(log, j) + Trail(Appended(db, op), j)
  {
    hide Apply;
    if Appended(db, op) == [] {
      assert log + [] == log;
    } else {
      TrailPush(log, Appended(db, op)[0], j);
      TrailPush([], Appended(db, op)[0], j);
      assert [] + Appended(db, op) == Appended(db, op);
    }
  }

  // One move, and what it does to the attempt and the rank
  lemma MoveRanks(row: Job, q: Request)
    requires JobVerb(row.state, q.to).Some? && !q.actor.Malformed? && ActorMay(q.actor, row.state, q.to)
    ensures var e, next := MoveEvent(row, q), MovedRow(row, q);
      && LegalEvent(e) && e.detail.from == row.state && e.detail.to == next.state && SameColumns(row, next)
      && next.attempt == row.attempt + (if IsExpiry(e) then 1 else 0)
      && Rank(row.state) + 1 <= Rank(next.state) + (if IsExpiry(e) then 3 else 0) + if IsRerun(e) then 6 else 0
  {}

  lemma ExplainsPush(trail: seq<Event>, before: Job, row: Job, q: Request)
    requires Explains(trail, before, row)
    requires JobVerb(row.state, q.to).Some? && !q.actor.Malformed? && ActorMay(q.actor, row.state, q.to)
    ensures Explains(trail + [MoveEvent(row, q)], before, MovedRow(row, q))
  {
    assert (trail + [MoveEvent(row, q)])[..|trail|] == trail;
    MoveRanks(row, q);
    hide MoveEvent, MovedRow, Rank, JobVerb;
  }

  predicate MovesRow(db: Db, op: Op, j: JobId) {
    op.DoMove? && op.move.job == j && MoveRefusal(db, op.move).None?
  }

  // Only an accepted transition call touches the state, the attempt or the trail of a row.
  lemma OthersLeaveRow(db: Db, op: Op, j: JobId)
    requires j in db.jobs && !MovesRow(db, op, j)
    ensures j in Apply(db, op).jobs && SameColumns(db.jobs[j], Apply(db, op).jobs[j])
    ensures Apply(db, op).jobs[j].state == db.jobs[j].state && Apply(db, op).jobs[j].attempt == db.jobs[j].attempt
    ensures Trail(Appended(db, op), j) == []
  {
    hide Move, MoveRefusal;
    match op
    case DoMove(q) => MoveLeavesOthers(db, q, j);
    case DoCreateJob(n) => CreateLeavesRow(db, n, j);
    case _ =>
  }

  lemma MoveLeavesOthers(db: Db, q: Request, j: JobId)
    requires j in db.jobs && (q.job != j || MoveRefusal(db, q).Some?)
    ensures var b := Move(db, q); j in b.jobs && b.jobs[j] == db.jobs[j] && Trail(Appended(db, DoMove(q)), j) == []
  {}

  lemma CreateLeavesRow(db: Db, n: NewJob, j: JobId)
    requires j in db.jobs
    ensures var b := CreateJob(db, n); j in b.jobs && b.jobs[j] == db.jobs[j] && Trail(Appended(db, DoCreateJob(n)), j) == []
  {}

  lemma ApplyExplains(trail: seq<Event>, before: Job, db: Db, op: Op, j: JobId)
    requires j in db.jobs && Explains(trail, before, db.jobs[j])
    ensures j in Apply(db, op).jobs
    ensures Explains(trail + Trail(Appended(db, op), j), before, Apply(db, op).jobs[j])
  {
    if MovesRow(db, op, j) {
      var e := MoveEvent(db.jobs[j], op.move);
      TrailPush([], e, j);
      assert Appended(db, op) == [] + [e];
      assert Trail(Appended(db, op), j) == [e];
      ExplainsPush(trail, before, db.jobs[j], op.move);
    } else {
      OthersLeaveRow(db, op, j);
      assert trail + [] == trail;
    }
  }

  lemma LogExplainsStep(first: Db, before: Job, mid: Db, op: Op, j: JobId)
    requires first.log <= mid.log && j in mid.jobs && Explains(Trail(mid.log[|first.log|..], j), before, mid.jobs[j])
    ensures first.log <= Apply(mid, op).log && j in Apply(mid, op).jobs
    ensures Explains(Trail(Apply(mid, op).log[|first.log|..], j), before, Apply(mid, op).jobs[j])
  {
    hide Explains, Apply, Appended, Trail;
    ApplyAppends(mid, op);
    ApplyExplains(Trail(mid.log[|first.log|..], j), before, mid, op, j);
    TrailSplit(mid.log[|first.log|..], mid, op, j);
    assert Apply(mid, op).log[|first.log|..] == mid.log[|first.log|..] + Appended(mid, op);
  }

  lemma {:induction false} LogExplains(db: Db, ops: seq<Op>, j: JobId)
    requires j in db.jobs
    ensures db.log <= Exec(db, ops).log && j in Exec(db, ops).jobs
    ensures Explains(Trail(Exec(db, ops).log[|db.log|..], j), db.jobs[j], Exec(db, ops).jobs[j])
  {
    hide Apply;
    if ops == [] {
      assert db.log[|db.log|..] == [];
    } else {
      hide Explains, Trail;
      LogExplains(db, ops[..|ops| - 1], j);
      LogExplainsStep(db, db.jobs[j], Exec(db, ops[..|ops| - 1]), ops[|ops| - 1], j);
    }
  }

  // A transaction that finds no row writes no transition event about it.
  lemma NoMoveWithoutRow(db: Db, op: Op, j: JobId)
    requires j !in db.jobs
    ensures Trail(Appended(db, op), j) == []
    ensures j in Apply(db, op).jobs ==> op.DoCreateJob? && op.job.id == j && Apply(db, op).jobs[j] == NewRow(op.job)
  {}

  lemma {:induction false} NoTrailBeforeRow(ops: seq<Op>, j: JobId)
    requires j !in Exec(EMPTY, ops).jobs
    ensures Trail(Exec(EMPTY, ops).log, j) == []
  {
    if ops != [] {
      var mid, op := Exec(EMPTY, ops[..|ops| - 1]), ops[|ops| - 1];
      NoTrailBeforeRow(ops[..|ops| - 1], j);
      NoMoveWithoutRow(mid, op, j);
      ApplyAppends(mid, op);
      TrailSplit(mid.log, mid, op, j);
    }
  }

  // Every row was written by one create_job, and its whole trail leads from 'proposed' to its state.
  lemma {:induction false} WholeTrail(ops: seq<Op>, j: JobId) returns (n: NewJob)
    requires j in Exec(EMPTY, ops).jobs
    ensures DoCreateJob(n) in ops && n.id == j
    ensures Explains(Trail(Exec(EMPTY, ops).log, j), NewRow(n), Exec(EMPTY, ops).jobs[j])
  {
    var mid, op := Exec(EMPTY, ops[..|ops| - 1]), ops[|ops| - 1];
    ApplyAppends(mid, op);
    TrailSplit(mid.log, mid, op, j);
    if j in mid.jobs {
      n := WholeTrail(ops[..|ops| - 1], j);
      ApplyExplains(Trail(mid.log, j), NewRow(n), mid, op, j);
    } else {
      NoTrailBeforeRow(ops[..|ops| - 1], j);
      NoMoveWithoutRow(mid, op, j);
      n := op.job;
    }
  }

  // Unrolled: at most 8 transitions, 3 more for each lost lease, 6 more for each human re-run
  lemma TrailBound(ops: seq<Op>, j: JobId)
    requires j in Exec(EMPTY, ops).jobs
    ensures |Trail(Exec(EMPTY, ops).log, j)|
         <= 8 + 3 * Expiries(Trail(Exec(EMPTY, ops).log, j)) + 6 * Reruns(Trail(Exec(EMPTY, ops).log, j))
  {
    hide Exec;
    var _ := WholeTrail(ops, j);
  }

  /******* Reading a chain *******/

  lemma {:induction false} ChainAt(trail: seq<Event>, first: JobState, last: JobState, k: nat)
    requires Chain(trail, first, last) && k < |trail|
    ensures LegalEvent(trail[k])
    ensures trail[k].detail.from == if k == 0 then first else if trail[k - 1].detail.Moved? then trail[k - 1].detail.to else last
    ensures k > 0 ==> trail[k - 1].detail.Moved?
    ensures k == |trail| - 1 ==> trail[k].detail.to == last
  {
    var init := trail[..|trail| - 1];
    if k < |trail| - 1 {
      ChainAt(init, first, trail[|trail| - 1].detail.from, k);
    } else if k > 0 {
      ChainAt(init, first, trail[k].detail.from, k - 1);
    }
  }

  // Between two claims of a job lies a lease expiry or a (re-)enqueue.
  lemma ClaimsAreSeparated(trail: seq<Event>, first: JobState, last: JobState, i: nat, k: nat) returns (m: nat)
    requires Chain(trail, first, last)
    requires i < k < |trail| && trail[i].verb == JobClaimed && trail[k].verb == JobClaimed
    ensures i < m < k && trail[m].verb in {JobLeaseExpired, JobEnqueued}
  {
    hide Chain;
    ChainAt(trail, first, last, i);
    ChainAt(trail, first, last, k);
    ChainAt(trail, first, last, k - 1);
    m := k - 1;
  }

  // A job that ever entered review was accepted, if at all, by a human.
  lemma ReviewedThenHuman(trail: seq<Event>, first: JobState, i: nat)
    requires Chain(trail, first, Accepted)
    requires i < |trail| && trail[i].verb == JobReviewRequested
    ensures trail[|trail| - 1].verb == JobAccepted && trail[|trail| - 1].actor.Human?
  {
    hide Chain, LegalEvent, JobVerb;
    ChainAt(trail, first, Accepted, i);
    IntoReview(trail[i]);
    ChainAt(trail, first, Accepted, i + 1);
    OutOfReview(trail[i + 1]);
    if i + 2 < |trail| {
      ChainAt(trail, first, Accepted, i + 2);
      NotAfterReview(trail[i + 2]);
    }
  }

  lemma IntoReview(e: Event)
    requires LegalEvent(e) && e.verb == JobReviewRequested
    ensures e.detail.Moved? && e.detail.to == Review
  {
    VerbDetermines(e.detail.from, e.detail.to);
  }

  // Only a human decides a review.
  lemma OutOfReview(e: Event)
    requires LegalEvent(e) && e.detail.from == Review
    ensures e.detail.to in {Accepted, Rejected} && e.actor.Human? && (e.detail.to == Accepted ==> e.verb == JobAccepted)
  {}

  lemma NotAfterReview(e: Event)
    requires LegalEvent(e)
    ensures e.detail.from !in {Accepted, Rejected}
  {}
}
