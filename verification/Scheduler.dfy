/**
 The scheduler's queries and its claim loop over the store: runnable_jobs, claim_next against arbitrary interference,
 and heartbeat.
 */
module Scheduler {
  import opened Wrappers
  import opened Rows
  import opened Sets
  import opened Substrate
  import opened Protocol
  import opened Effects
  import opened Structure
  import opened Readiness
  import opened Lineage
  import opened Capacity
  import opened EventLog
  import opened Greedy
  import opened Storage

  /******* runnable_jobs *******/

  function InfoOf(j: JobId, row: Job): JobInfo {
    JobInfo(j, row.study, row.jtype, row.priority, row.createdAt, row.resource, row.attempt, row.maxAttempts)
  }

  predicate Before(a: JobInfo, b: JobInfo) { a.priority < b.priority || (a.priority == b.priority && a.createdAt <= b.createdAt) }

  predicate Sorted(s: seq<JobInfo>) { forall i, k :: 0 <= i < k < |s| ==> Before(s[i], s[k]) }

  // The rows of the jobs in `ids`, once each, in (priority, created_at) order
  ghost predicate Lists(s: seq<JobInfo>, jobs: map<JobId, Job>, ids: set<JobId>) {
    && Sorted(s) && (forall i, k :: 0 <= i < k < |s| ==> s[i].id != s[k].id)
    && (forall i :: 0 <= i < |s| ==> s[i].id in ids && s[i].id in jobs && s[i] == InfoOf(s[i].id, jobs[s[i].id]))
    && forall j <- ids :: Listed(s, j)
  }

  predicate Listed(s: seq<JobInfo>, j: JobId) { exists i :: 0 <= i < |s| && s[i].id == j }

  // By priority, smaller numbers first, and by age among equals
  predicate InOrder(s: seq<JobInfo>) {
    forall i, k :: 0 <= i < k < |s| ==>
      s[i].priority < s[k].priority || (s[i].priority == s[k].priority && s[i].createdAt <= s[k].createdAt)
  }

  // Each row is listed with its own columns, and once.
  predicate FromRows(s: seq<JobInfo>, jobs: map<JobId, Job>) {
    && (forall i, k :: 0 <= i < k < |s| ==> s[i].id != s[k].id)
    && forall i :: 0 <= i < |s| ==>
      && s[i].id in jobs && s[i].study == jobs[s[i].id].study && s[i].jtype == jobs[s[i].id].jtype
      && s[i].priority == jobs[s[i].id].priority && s[i].createdAt == jobs[s[i].id].createdAt
      && s[i].resource == jobs[s[i].id].resource && s[i].attempt == jobs[s[i].id].attempt
      && s[i].maxAttempts == jobs[s[i].id].maxAttempts
  }

  // What an upstream must have come to: for a REPORT it is terminal or has failed for the last time, for any other job it is
  // accepted, or succeeded in a study that accepts automatically.
  predicate Lets(up: Job, jtype: JobType, autoAccept: bool) {
    if jtype == REPORT then
      || up.state in {Accepted, Rejected, Infeasible, Cancelled, RetrySpawned}
      || (up.state == Failed && up.attempt >= up.maxAttempts)
    else
      || up.state == Accepted
      || (up.state == Succeeded && autoAccept)
  }

  // A queued job that none of its upstreams holds back
  ghost predicate MayStart(jobs: map<JobId, Job>, deps: set<Dep>, studies: map<StudyId, Study>, j: JobId) {
    && j in jobs && jobs[j].state == Queued
    && forall d <- deps :: d.job == j && d.on in jobs ==>
      Lets(jobs[d.on], jobs[j].jtype, jobs[j].study in studies && studies[jobs[j].study].policy.autoAccept)
  }

  lemma ListsColumns(s: seq<JobInfo>, jobs: map<JobId, Job>, ids: set<JobId>)
    requires Lists(s, jobs, ids)
    ensures InOrder(s) && FromRows(s, jobs) && forall j :: j in ids <==> Listed(s, j)
  {}

  lemma LetsIff(up: Job, jtype: JobType, policy: Policy)
    ensures DepSatisfied(up, jtype, policy) <==> Lets(up, jtype, policy.autoAccept)
  {}

  lemma RunnableColumns(db: Db, j: JobId)
    ensures j in Runnable(db) <==> MayStart(db.jobs, db.deps, db.studies, j)
  {
    if j in db.jobs {
      var row := db.jobs[j];
      assert PolicyOf(db, row.study).autoAccept <==> row.study in db.studies && db.studies[row.study].policy.autoAccept;
      forall d <- db.deps | d.on in db.jobs
        ensures DepSatisfied(db.jobs[d.on], row.jtype, PolicyOf(db, row.study)) <==>
          Lets(db.jobs[d.on], row.jtype, row.study in db.studies && db.studies[row.study].policy.autoAccept)
      {
        LetsIff(db.jobs[d.on], row.jtype, PolicyOf(db, row.study));
      }
    }
    hide DepSatisfied, Lets, PolicyOf;
  }

  method Least(jobs: map<JobId, Job>, ids: set<JobId>) returns (j: JobId)
    requires ids != {} && ids <= jobs.Keys
    ensures j in ids && forall k <- ids :: Before(InfoOf(j, jobs[j]), InfoOf(k, jobs[k]))
  {
    j := Choose(ids);
    var todo := ids - {j};
    while todo != {}
      invariant todo <= ids && j in ids && j !in todo
      invariant forall k <- ids :: k in todo || Before(InfoOf(j, jobs[j]), InfoOf(k, jobs[k]))
    {
      var k := Choose(todo);
      todo := todo - {k};
      if !Before(InfoOf(j, jobs[j]), InfoOf(k, jobs[k])) { j := k; }
    }
  }

  // SELECT ... WHERE state = 'queued' ORDER BY priority, created_at
  method SelectQueued(jobs: map<JobId, Job>) returns (rows: seq<JobInfo>)
    ensures Lists(rows, jobs, set j | j in jobs && jobs[j].state == Queued)
    ensures InOrder(rows) && FromRows(rows, jobs)
    ensures forall j :: Listed(rows, j) <==> j in jobs && jobs[j].state == Queued
  {
    rows := [];
    var queued := set j | j in jobs && jobs[j].state == Queued;
    var todo := queued;
    ghost var done: set<JobId> := {};
    while todo != {}
      invariant done !! todo && done + todo == queued && Lists(rows, jobs, done)
      invariant forall i, k :: 0 <= i < |rows| && k in todo ==> Before(rows[i], InfoOf(k, jobs[k]))
    {
      var j := Least(jobs, todo);
      ListsPush(rows, jobs, done, j);
      done := done + {j};
      rows := rows + [InfoOf(j, jobs[j])];
      todo := todo - {j};
    }
    assert done == queued;
    ListsColumns(rows, jobs, queued);
  }

  lemma ListsPush(s: seq<JobInfo>, jobs: map<JobId, Job>, ids: set<JobId>, j: JobId)
    requires Lists(s, jobs, ids) && j in jobs && j !in ids && forall i :: 0 <= i < |s| ==> Before(s[i], InfoOf(j, jobs[j]))
    ensures Lists(s + [InfoOf(j, jobs[j])], jobs, ids + {j})
  {
    var t := s + [InfoOf(j, jobs[j])];
    forall k <- ids + {j} ensures Listed(t, k) {
      if k == j {
        assert t[|s|].id == j;
      } else {
        var i :| 0 <= i < |s| && s[i].id == k;
        assert t[i].id == k;
      }
    }
  }

  method RunnableJobs(store: Store) returns (runnable: seq<JobInfo>)
    ensures Lists(runnable, store.jobs, Runnable(store.Db()))
    ensures InOrder(runnable) && FromRows(runnable, store.jobs)
    ensures forall j :: Listed(runnable, j) <==> MayStart(store.jobs, store.deps, store.studies, j)
  {
    var rows := SelectQueued(store.jobs);
    hide Runnable, Ready, Picked, DepSatisfied;
    runnable := [];
    ghost var ids: set<JobId> := {};
    NonePicked(store.Db(), rows);
    for i := 0 to |rows|
      invariant Picked(store.Db(), rows, i, runnable, ids)
    {
      var r := rows[i];
      IsReady(store.Db(), r);
      PickNext(store.Db(), rows, i, runnable, ids);
      if forall d <- store.deps :: d.job == r.id && d.on in store.jobs ==>
           DepSatisfied(store.jobs[d.on], r.jtype, PolicyOf(store.Db(), r.study))
      {
        runnable := runnable + [r];
        ids := ids + {r.id};
      }
    }
    AllPicked(store.Db(), rows, runnable, ids);
    ListsColumns(runnable, store.jobs, ids);
    forall j ensures Listed(runnable, j) <==> MayStart(store.jobs, store.deps, store.studies, j) {
      RunnableColumns(store.Db(), j);
    }
    hide MayStart;
  }

  // Of the first i rows, those whose dependencies are satisfied
  ghost predicate Picked(db: Db, rows: seq<JobInfo>, i: nat, runnable: seq<JobInfo>, ids: set<JobId>) {
    && Lists(runnable, db.jobs, ids) && (forall j :: j in ids <==> InPrefix(rows, i, j) && Ready(db, j))
    && forall k, n :: 0 <= k < |runnable| && i <= n < |rows| ==> Before(runnable[k], rows[n])
  }

  function QueuedJobs(db: Db): set<JobId> { set j | j in db.jobs && db.jobs[j].state == Queued }

  lemma NonePicked(db: Db, rows: seq<JobInfo>)
    ensures Picked(db, rows, 0, [], {})
  {}

  lemma IsReady(db: Db, r: JobInfo)
    requires r.id in db.jobs && db.jobs[r.id].state == Queued && r == InfoOf(r.id, db.jobs[r.id])
    ensures Ready(db, r.id) <==>
      forall d <- db.deps :: d.job == r.id && d.on in db.jobs ==> DepSatisfied(db.jobs[d.on], r.jtype, PolicyOf(db, r.study))
  {}

  lemma PickNext(db: Db, rows: seq<JobInfo>, i: nat, runnable: seq<JobInfo>, ids: set<JobId>)
    requires Lists(rows, db.jobs, QueuedJobs(db)) && i < |rows| && Picked(db, rows, i, runnable, ids)
    ensures if Ready(db, rows[i].id) then Picked(db, rows, i + 1, runnable + [rows[i]], ids + {rows[i].id})
      else Picked(db, rows, i + 1, runnable, ids)
  {
    hide Ready;
    PrefixNext(rows, i);
    if Ready(db, rows[i].id) {
      assert forall j <- ids :: InPrefix(rows, i, j) && j != rows[i].id;
      ListsPush(runnable, db.jobs, ids, rows[i].id);
    }
  }

  lemma AllPicked(db: Db, rows: seq<JobInfo>, runnable: seq<JobInfo>, ids: set<JobId>)
    requires Lists(rows, db.jobs, QueuedJobs(db)) && Picked(db, rows, |rows|, runnable, ids)
    ensures ids == Runnable(db)
    ensures Lists(runnable, db.jobs, Runnable(db))
  {
    forall j ensures j in ids <==> j in Runnable(db) {
      if Ready(db, j) { assert j in QueuedJobs(db) && Listed(rows, j); }
    }
  }

  lemma PrefixNext(s: seq<JobInfo>, n: nat)
    requires n < |s|
    ensures forall j :: InPrefix(s, n + 1, j) <==> InPrefix(s, n, j) || j == s[n].id
  {
    assert InPrefix(s, n + 1, s[n].id);
    forall j | InPrefix(s, n, j) ensures InPrefix(s, n + 1, j) {}
  }

  predicate InPrefix(s: seq<JobInfo>, n: nat, j: JobId) { exists i :: 0 <= i < n && i < |s| && s[i].id == j }

  /******* heartbeat *******/

  // The leases of the jobs in `done` have been extended.
  ghost predicate Beaten(db: Db, jobs: map<JobId, Job>, w: WorkerId, now: int, done: set<JobId>) {
    && jobs.Keys == db.jobs.Keys
    && forall j <- db.jobs :: jobs[j] == if j in done then Refreshed(db.jobs[j], w, now) else db.jobs[j]
  }

  lemma BeatOne(db: Db, jobs: map<JobId, Job>, w: WorkerId, now: int, done: set<JobId>, j: JobId)
    requires Beaten(db, jobs, w, now, done) && j in Busy(db, w) && j !in done
    ensures j in jobs && Beaten(db, jobs[j := jobs[j].(lease := Some(now + LeaseDuration(jobs[j].resource)))], w, now, done + {j})
  {}

  lemma SameBusy(db: Db, b: Db, w: WorkerId)
    requires b.jobs == db.jobs
    ensures Busy(b, w) == Busy(db, w)
  {}

  lemma AllBeaten(db: Db, b: Db, w: WorkerId, now: int)
    requires Beaten(db, b.jobs, w, now, Busy(db, w)) && b == db.(jobs := b.jobs, workers := b.workers)
    requires b.workers == if w in db.workers then db.workers[w := db.workers[w].(lastHeartbeat := now)] else db.workers
    ensures b == Substrate.Heartbeat(db, w, now)
  {
    forall j <- db.jobs ensures b.jobs[j] == Substrate.Heartbeat(db, w, now).jobs[j] {
      assert j in Busy(db, w) <==> BusyOn(db.jobs[j], w);
    }
  }

  // The jobs w holds have a full lease from now on; the other rows are as they were.
  predicate KeptAlive(a: map<JobId, Job>, b: map<JobId, Job>, w: WorkerId, now: int) {
    && b.Keys == a.Keys
    && forall j <- a ::
      b[j] == if a[j].worker == Some(w) && a[j].state in {Assigned, Running}
        then a[j].(lease := Some(now + LeaseDuration(a[j].resource))) else a[j]
  }

  lemma BeatColumns(db: Db, w: WorkerId, now: int)
    ensures KeptAlive(db.jobs, Substrate.Heartbeat(db, w, now).jobs, w, now) && Busy(db, w) == HeldBy(db.jobs, w)
  {
    forall j ensures j in Busy(db, w) <==> j in HeldBy(db.jobs, w) {}
  }

  method Heartbeat(store: Store, w: WorkerId, now: int) returns (extended: nat)
    modifies store`workers, store`jobs
    ensures store.Db() == Substrate.Heartbeat(old(store.Db()), w, now)
    ensures extended == |Busy(old(store.Db()), w)|
    ensures KeptAlive(old(store.jobs), store.jobs, w, now) && extended == |HeldBy(old(store.jobs), w)|
    ensures store.workers.Keys == old(store.workers).Keys && forall v <- old(store.workers) ::
      store.workers[v] == if v == w then old(store.workers)[v].(lastHeartbeat := now) else old(store.workers)[v]
  {
    hide Busy, Beaten, Substrate.Heartbeat;
    ghost var db := store.Db();
    if w in store.workers {
      store.workers := store.workers[w := store.workers[w].(lastHeartbeat := now)];
    }
    ghost var beaten := store.workers;
    extended := 0;
    var busy := Busy(store.Db(), w);
    SameBusy(db, store.Db(), w);
    var todo := busy;
    ghost var done: set<JobId> := {};
    NoneBeaten(db, w, now);
    while todo != {}
      invariant done !! todo && done + todo == busy && extended == |done| && store.workers == beaten
      invariant Beaten(db, store.jobs, w, now, done)
    {
      var j := Choose(todo);
      BeatOne(db, store.jobs, w, now, done, j);
      done := done + {j};
      store.jobs := store.jobs[j := store.jobs[j].(lease := Some(now + LeaseDuration(store.jobs[j].resource)))];
      todo := todo - {j};
      extended := extended + 1;
    }
    assert done == busy;
    AllBeaten(db, store.Db(), w, now);
    BeatColumns(db, w, now);
    hide KeptAlive, HeldBy;
  }

  lemma NoneBeaten(db: Db, w: WorkerId, now: int)
    ensures Beaten(db, db.jobs, w, now, {})
  {}

  /******* claim_next *******/

  // What happens before the n-th claim attempt, and when it is made
  datatype Round = Round(others: seq<Act>, now: int)

  predicate ByOthers(acts: seq<Act>, w: WorkerId) {
    forall a <- acts :: !((a.Look? || a.Claim? || a.GiveUp?) && a.w == w)
  }

  lemma {:induction false} OthersLeaveSeen(s: Sys, acts: seq<Act>, w: WorkerId)
    requires ByOthers(acts, w) && w in s.seen
    ensures w in Run(s, acts).seen && Run(s, acts).seen[w] == s.seen[w]
  {
    if acts != [] {
      OthersLeaveSeen(s, acts[..|acts| - 1], w);
    }
  }

  // A listed job keeps its columns, and a worker its row, whatever the others do.
  lemma {:induction false} OthersKeep(s: Sys, acts: seq<Act>, w: WorkerId)
    requires Inv(s) && w in s.db.workers
    ensures Inv(Run(s, acts)) && w in Run(s, acts).db.workers
    ensures forall j <- s.db.jobs :: j in Run(s, acts).db.jobs && SameColumns(s.db.jobs[j], Run(s, acts).db.jobs[j])
  {
    if acts != [] {
      var m, a := Run(s, acts[..|acts| - 1]), acts[|acts| - 1];
      OthersKeep(s, acts[..|acts| - 1], w);
      InvStep(m, a);
      StepKeepsColumns(m, a);
      WorkersStay(m, a, w);
      hide Step;
    }
  }

  function ClaimRequest(w: WorkerId, job: JobInfo, now: int): Request {
    Request(job.id, Assigned, Worker(w), Some(Queued), Some(w), Some(now + LeaseDuration(job.resource)), None, None, false, now)
  }

  // One attempt of the claim loop, as a step of the protocol
  lemma ClaimStep(s: Sys, w: WorkerId, job: JobInfo, now: int)
    requires w in s.seen && job.id in s.seen[w] && job.id in s.db.jobs && s.db.jobs[job.id].resource == job.resource
    requires w in s.db.workers
    ensures var q := ClaimRequest(w, job, now); var t := Step(s, Claim(w, job.id, now));
      && MoveRefusal(s.db, q) == (if s.db.jobs[job.id].state == Queued then None else Some(StaleState))
      && t == Sys(Move(s.db, q), s.seen[w := if s.db.jobs[job.id].state == Queued then {} else s.seen[w] - {job.id}],
        s.judged, s.pending)
  {
    hide Ops, Exec;
    var a, q := Claim(w, job.id, now), ClaimRequest(w, job, now);
    ClaimMoves(s, w, job, now);
    ClaimMemory(s, w, job.id, now);
    hide Step, Enabled, SingleMove, Move, MoveRefusal;
    MoveEffect(s, a);
  }

  lemma ClaimMemory(s: Sys, w: WorkerId, j: JobId, now: int)
    requires w in s.seen && j in s.seen[w] && j in s.db.jobs
    ensures var t := Step(s, Claim(w, j, now));
      t.judged == s.judged && t.pending == s.pending &&
        t.seen == s.seen[w := if s.db.jobs[j].state == Queued then {} else s.seen[w] - {j}]
  {
    hide Exec;
  }

  lemma ClaimMoves(s: Sys, w: WorkerId, job: JobInfo, now: int)
    requires w in s.seen && job.id in s.seen[w] && job.id in s.db.jobs && s.db.jobs[job.id].resource == job.resource
    requires w in s.db.workers
    ensures Enabled(s, Claim(w, job.id, now)) && SingleMove(s.db, Claim(w, job.id, now)) == Some(ClaimRequest(w, job, now))
    ensures MoveRefusal(s.db, ClaimRequest(w, job, now)) == (if s.db.jobs[job.id].state == Queued then None else Some(StaleState))
  {}

  function WithoutJob(s: seq<JobInfo>, j: JobId): (r: seq<JobInfo>)
    ensures forall job :: job in r <==> job in s && job.id != j
    ensures |r| <= |s| && (forall job :: job in s && job.id == j ==> |r| < |s|)
  {
    if s == [] then [] else if s[0].id == j then WithoutJob(s[1..], j) else [s[0]] + WithoutJob(s[1..], j)
  }

  lemma {:induction false} SortedWithout(s: seq<JobInfo>, j: JobId)
    requires Sorted(s)
    ensures Sorted(WithoutJob(s, j))
  {
    if s != [] {
      forall i, k | 0 <= i < k < |s[1..]| ensures Before(s[1..][i], s[1..][k]) { assert Before(s[i + 1], s[k + 1]); }
      SortedWithout(s[1..], j);
      forall job <- WithoutJob(s[1..], j) ensures Before(s[0], job) {
        var k :| 0 <= k < |s[1..]| && s[1..][k] == job;
        assert Before(s[0], s[k + 1]);
      }
    }
  }

  function SlotOf(db: Db, w: WorkerId): WorkerSlot
    requires w in db.workers
  {
    WorkerSlot(w, db.workers[w].solvers, db.workers[w].memMb, 1)
  }

  // The rest of the snapshot is what the loop may still claim.
  ghost predicate Holds(s: Sys, w: WorkerId, runnable: seq<JobInfo>) {
    && w in s.db.workers && w in s.seen && (forall j :: j in s.seen[w] <==> Listed(runnable, j))
    && forall job <- runnable :: job.id in s.db.jobs && s.db.jobs[job.id].resource == job.resource
  }

  // Every job of the snapshot that is no longer in it was seen out of the queue in the state after acts[..lost[j]].
  ghost predicate Lost(s0: Sys, acts: seq<Act>, snapshot: seq<JobInfo>, runnable: seq<JobInfo>, lost: map<JobId, nat>) {
    && (forall job <- runnable :: job in snapshot && job.id !in lost)
    && (forall job <- snapshot :: job in runnable || job.id in lost)
    && forall j <- lost :: SeenOutOfQueue(s0, acts, lost[j], j)
  }

  predicate SeenOutOfQueue(s0: Sys, acts: seq<Act>, n: nat, j: JobId) {
    n <= |acts| && var db := Run(s0, acts[..n]).db; j in db.jobs && db.jobs[j].state != Queued
  }

  // The worker has the solvers the job asks for, and the memory, if both say how much.
  predicate CanRun(job: JobInfo, row: WorkerRow) {
    && (forall x <- job.resource.solvers :: x in row.solvers)
    && (job.resource.memMb.Some? && row.memMb.Some? ==> job.resource.memMb.value <= row.memMb.value)
  }

  function HeldBy(jobs: map<JobId, Job>, w: WorkerId): set<JobId> {
    set j | j in jobs && jobs[j].worker == Some(w) && jobs[j].state in {Assigned, Running}
  }

  // An online worker that runs fewer jobs than it has room for
  ghost predicate Eligible(jobs: map<JobId, Job>, workers: map<WorkerId, WorkerRow>, w: WorkerId) {
    && w in workers && workers[w].status == Online
    && |HeldBy(jobs, w)| < workers[w].capacity
  }

  // Of the jobs of the snapshot that w can run and that were not lost none is ahead of j, by priority or, among equals, by age.
  ghost predicate NoneAhead(snapshot: seq<JobInfo>, row: WorkerRow, lost: map<JobId, nat>, j: JobId) {
    exists job <- snapshot :: job.id == j && CanRun(job, row)
      && forall other <- snapshot :: CanRun(other, row) && other.id !in lost ==>
        job.priority < other.priority || (job.priority == other.priority && job.createdAt <= other.createdAt)
  }

  // The job is the least, by priority and age, of those that fit and have not been lost.
  ghost predicate LeastFitting(snapshot: seq<JobInfo>, slot: WorkerSlot, lost: map<JobId, nat>, j: JobId) {
    exists job <- snapshot :: job.id == j && Fits(job, slot)
      && forall other <- snapshot :: Fits(other, slot) && other.id !in lost ==> Before(job, other)
  }

  lemma LookStep(s: Sys, w: WorkerId, now: int, runnable: seq<JobInfo>)
    requires FreeWorker(s.db, w) && Lists(runnable, s.db.jobs, Runnable(s.db))
    ensures Step(s, Look(w, now)) == Sys(s.db, s.seen[w := Runnable(s.db)], s.judged + Runnable(s.db), s.pending)
    ensures Holds(Step(s, Look(w, now)), w, runnable)
  {
    forall j ensures j in Runnable(s.db) <==> Listed(runnable, j) {}
  }

  lemma OthersHold(s: Sys, acts: seq<Act>, w: WorkerId, runnable: seq<JobInfo>)
    requires Inv(s) && ByOthers(acts, w) && Holds(s, w, runnable)
    ensures Inv(Run(s, acts)) && Holds(Run(s, acts), w, runnable)
  {
    hide Run, Inv;
    OthersLeaveSeen(s, acts, w);
    OthersKeep(s, acts, w);
  }

  lemma LoseJob(s: Sys, w: WorkerId, runnable: seq<JobInfo>, job: JobInfo)
    requires Holds(s, w, runnable) && job in runnable
    ensures Holds(Sys(s.db, s.seen[w := s.seen[w] - {job.id}], s.judged, s.pending), w, WithoutJob(runnable, job.id))
  {
    var rest := WithoutJob(runnable, job.id);
    forall j ensures j in s.seen[w] - {job.id} <==> Listed(rest, j) {
      if Listed(rest, j) {
        var i :| 0 <= i < |rest| && rest[i].id == j;
        assert rest[i] in rest;
        var k :| 0 <= k < |runnable| && runnable[k] == rest[i];
      }
      if Listed(runnable, j) && j != job.id {
        var i :| 0 <= i < |runnable| && runnable[i].id == j;
        assert runnable[i] in rest;
        var k :| 0 <= k < |rest| && rest[k] == runnable[i];
      }
    }
  }

  lemma LostGrows(s0: Sys, acts: seq<Act>, more: seq<Act>, snapshot: seq<JobInfo>, runnable: seq<JobInfo>, lost: map<JobId, nat>)
    requires Lost(s0, acts, snapshot, runnable, lost)
    ensures Lost(s0, acts + more, snapshot, runnable, lost)
  {
    hide Run;
    forall j <- lost ensures SeenOutOfQueue(s0, acts + more, lost[j], j) {
      assert (acts + more)[..lost[j]] == acts[..lost[j]];
      assert SeenOutOfQueue(s0, acts, lost[j], j);
    }
  }

  lemma LostOne(s0: Sys, acts: seq<Act>, snapshot: seq<JobInfo>, runnable: seq<JobInfo>, lost: map<JobId, nat>,
    job: JobInfo, n: nat)
    requires Lost(s0, acts, snapshot, runnable, lost) && job in runnable
    requires SeenOutOfQueue(s0, acts, n, job.id)
    ensures Lost(s0, acts, snapshot, WithoutJob(runnable, job.id), lost[job.id := n])
  {
    hide SeenOutOfQueue;
  }

  lemma FirstIsLeast(snapshot: seq<JobInfo>, runnable: seq<JobInfo>, slot: WorkerSlot, lost: map<JobId, nat>, j: JobId)
    returns (job: JobInfo)
    requires Sorted(runnable) && TakesFirst(runnable, slot, map[], j)
    requires (forall job <- runnable :: job in snapshot) && (forall job <- snapshot :: job in runnable || job.id in lost)
    ensures job in runnable && job.id == j && LeastFitting(snapshot, slot, lost, j)
  {
    var r: nat :| FirstFit(runnable, slot, map[], r) && runnable[r].id == j;
    job := runnable[r];
    forall other <- snapshot | Fits(other, slot) && other.id !in lost ensures Before(job, other) {
      var k :| 0 <= k < |runnable| && runnable[k] == other;
      assert k >= r;
    }
  }

  // Assigned to w, under a lease of the job's own duration
  predicate Claimed(jobs: map<JobId, Job>, w: WorkerId, j: JobId, now: int) {
    && j in jobs && jobs[j].state == Assigned && jobs[j].worker == Some(w)
    && jobs[j].lease == Some(now + LeaseDuration(jobs[j].resource))
  }

  ghost predicate Won(db: Db, w: WorkerId, j: JobId) {
    j in db.jobs && db.jobs[j].state == Assigned && db.jobs[j].worker == Some(w) && StillReady(db, j)
  }

  lemma WonIsReady(s: Sys, w: WorkerId, j: JobId)
    requires Inv(s) && j in s.db.jobs && s.db.jobs[j].state == Assigned && s.db.jobs[j].worker == Some(w)
    ensures Won(s.db, w, j)
  {}

  // One turn of the claim loop: the others move, then the CAS on state = 'queued'. Only StaleState is ever raised.
  method Attempt(
    store: Store, w: WorkerId, job: JobInfo, round: Round,
    ghost s0: Sys, ghost past: seq<Act>, ghost snapshot: seq<JobInfo>, ghost runnable: seq<JobInfo>, ghost lost0: map<JobId, nat>)
    returns (won: bool, ghost acts: seq<Act>, ghost lost: map<JobId, nat>)
    requires Inv(store.Sys()) && store.Sys() == Run(s0, past) && Holds(store.Sys(), w, runnable) && job in runnable
    requires Lost(s0, past, snapshot, runnable, lost0) && ByOthers(round.others, w)
    modifies store
    ensures store.Fresh() && Inv(store.Sys()) && store.Sys() == Run(s0, acts) && acts != []
    ensures won ==> Won(store.Db(), w, job.id) && lost == lost0 && Lost(s0, acts, snapshot, runnable, lost)
    ensures won ==> Claimed(store.jobs, w, job.id, round.now)
    ensures !won ==>
      Holds(store.Sys(), w, WithoutJob(runnable, job.id)) && Lost(s0, acts, snapshot, WithoutJob(runnable, job.id), lost)
  {
    hide Step, Run, Inv, Lost, Holds, ByOthers, SeenOutOfQueue, StillReady, MoveRefusal, Move, Won, WithoutJob;
    RunConcat(s0, past, round.others);
    OthersHold(store.Sys(), round.others, w, runnable);
    LostGrows(s0, past, round.others, snapshot, runnable, lost0);
    store.Interfere(round.others);
    acts, lost := past + round.others, lost0;
    ghost var before, claim := store.Sys(), Claim(w, job.id, round.now);
    ClaimTurn(s0, acts, before, w, job, round.now, snapshot, runnable, lost);
    ClaimedRow(before.db, ClaimRequest(w, job, round.now));
    var refusal := store.Transition(ClaimRequest(w, job, round.now));
    if refusal.None? {
      store.seen := store.seen[w := {}];
      WonIsReady(store.Sys(), w, job.id);
      won := true;
      assert Claimed(store.jobs, w, job.id, round.now);
    } else {
      Loses(s0, acts, claim, before, w, snapshot, runnable, lost, job);
      store.seen := store.seen[w := store.seen[w] - {job.id}];
      lost := lost[job.id := |acts|];
      won := false;
    }
    acts := acts + [claim];
  }

  // What the claim makes of the state, won or lost
  lemma ClaimTurn(
    s0: Sys, acts: seq<Act>, s: Sys, w: WorkerId, job: JobInfo, now: int, snapshot: seq<JobInfo>, runnable: seq<JobInfo>,
    lost: map<JobId, nat>)
    requires Inv(s) && s == Run(s0, acts) && Holds(s, w, runnable) && job in runnable && Lost(s0, acts, snapshot, runnable, lost)
    ensures w in s.seen && job.id in s.db.jobs && s.db.jobs[job.id].resource == job.resource
    ensures var q, t := ClaimRequest(w, job, now), Run(s0, acts + [Claim(w, job.id, now)]);
      && Inv(t) && Lost(s0, acts + [Claim(w, job.id, now)], snapshot, runnable, lost)
      && MoveRefusal(s.db, q) == (if s.db.jobs[job.id].state == Queued then None else Some(StaleState))
      && t == Sys(Move(s.db, q), s.seen[w := if s.db.jobs[job.id].state == Queued then {} else s.seen[w] - {job.id}],
        s.judged, s.pending)
  {
    hide Step, Run, Inv, Lost, Holds, SeenOutOfQueue, Move, MoveRefusal;
    JobHeld(s, w, runnable, job);
    ClaimStep(s, w, job, now);
    InvStep(s, Claim(w, job.id, now));
    RunPush(s0, acts, Claim(w, job.id, now));
    LostGrows(s0, acts, [Claim(w, job.id, now)], snapshot, runnable, lost);
  }

  lemma ClaimedRow(db: Db, q: Request)
    ensures MoveRefusal(db, q).Some? ==> Move(db, q) == db
    ensures MoveRefusal(db, q).None? ==> q.job in Move(db, q).jobs && Move(db, q).jobs[q.job].state == q.to
    ensures MoveRefusal(db, q).None? && q.to == Assigned ==>
      && Move(db, q).jobs[q.job].worker == q.worker && Move(db, q).jobs[q.job].lease == q.lease
      && Move(db, q).jobs[q.job].resource == db.jobs[q.job].resource
    ensures Move(db, q).jobs.Keys == db.jobs.Keys
  {}

  lemma Loses(
    s0: Sys, acts: seq<Act>, claim: Act, s: Sys, w: WorkerId, snapshot: seq<JobInfo>, runnable: seq<JobInfo>,
    lost: map<JobId, nat>, job: JobInfo)
    requires s == Run(s0, acts) && Holds(s, w, runnable) && job in runnable && job.id in s.db.jobs
    requires s.db.jobs[job.id].state != Queued && Lost(s0, acts + [claim], snapshot, runnable, lost)
    ensures Holds(s, w, runnable) && w in s.seen
    ensures Holds(Sys(s.db, s.seen[w := s.seen[w] - {job.id}], s.judged, s.pending), w, WithoutJob(runnable, job.id))
    ensures Lost(s0, acts + [claim], snapshot, WithoutJob(runnable, job.id), lost[job.id := |acts|])
  {
    hide Run, SeenOutOfQueue, Lost;
    SeenNow(s0, acts, [claim], s, job.id);
    LostOne(s0, acts + [claim], snapshot, runnable, lost, job, |acts|);
    LoseJob(s, w, runnable, job);
  }

  lemma JobHeld(s: Sys, w: WorkerId, runnable: seq<JobInfo>, job: JobInfo)
    requires Holds(s, w, runnable) && job in runnable
    ensures w in s.db.workers && w in s.seen && job.id in s.seen[w] && job.id in s.db.jobs
    ensures s.db.jobs[job.id].resource == job.resource
  {
    var i :| 0 <= i < |runnable| && runnable[i] == job;
    assert Listed(runnable, job.id);
  }

  lemma SeenNow(s0: Sys, acts: seq<Act>, more: seq<Act>, s: Sys, j: JobId)
    requires s == Run(s0, acts) && j in s.db.jobs && s.db.jobs[j].state != Queued
    ensures SeenOutOfQueue(s0, acts + more, |acts|, j)
  {
    hide Run;
    assert (acts + more)[..|acts|] == acts;
  }

  // What claim_next says about the jobs it saw
  ghost predicate ClaimReport(
    s0: Sys, db: Db, w: WorkerId, acts: seq<Act>, claimed: Option<JobId>, snapshot: seq<JobInfo>, lost: map<JobId, nat>)
    requires w in s0.db.workers
  {
    && Lists(snapshot, s0.db.jobs, Runnable(s0.db)) && (forall j <- lost :: SeenOutOfQueue(s0, acts, lost[j], j))
    && match claimed
       case Some(j) => Won(db, w, j) && LeastFitting(snapshot, SlotOf(s0.db, w), lost, j)
       case None => forall job <- snapshot :: Fits(job, SlotOf(s0.db, w)) ==> job.id in lost
  }

  // The loop of claim_next, from the snapshot on
  method ClaimFrom(store: Store, w: WorkerId, slot: WorkerSlot, snapshot: seq<JobInfo>, rounds: nat -> Round,
    ghost s0: Sys, ghost look: seq<Act>)
    returns (claimed: Option<JobId>, ghost acts: seq<Act>, ghost lost: map<JobId, nat>)
    requires Inv(store.Sys()) && store.Sys() == Run(s0, look) && look != [] && slot.freeSlots == 1
    requires Holds(store.Sys(), w, snapshot) && Lost(s0, look, snapshot, snapshot, map[]) && Sorted(snapshot)
    requires store.Fresh() && forall n :: ByOthers(rounds(n).others, w)
    modifies store
    ensures store.Fresh() && Inv(store.Sys()) && store.Sys() == Run(s0, acts) && acts != []
    ensures forall j <- lost :: SeenOutOfQueue(s0, acts, lost[j], j)
    ensures claimed.Some? ==> Won(store.Db(), w, claimed.value) && LeastFitting(snapshot, slot, lost, claimed.value)
    ensures claimed.Some? ==> exists n: nat :: Claimed(store.jobs, w, claimed.value, rounds(n).now)
    ensures claimed.None? ==> forall job <- snapshot :: Fits(job, slot) ==> job.id in lost
  {
    hide Step, Run, Inv, Holds, Lost, ByOthers, TakesFirst, LeastFitting, SeenOutOfQueue, Won, Feasible, Maximal;
    hide ByPriority, Records, Claimed;
    claimed, acts, lost := None, look, map[];
    var runnable := snapshot;
    var n: nat := 0;
    while runnable != []
      invariant store.Fresh() && Inv(store.Sys()) && store.Sys() == Run(s0, acts) && acts != [] && claimed == None
      invariant Holds(store.Sys(), w, runnable) && Lost(s0, acts, snapshot, runnable, lost) && Sorted(runnable)
      decreases |runnable|
    {
      var assignments, picks := Select(runnable, [slot]);
      OneSlot(runnable, slot, assignments, picks);
      if assignments == [] { break; }
      JobTaken(runnable, slot, assignments[0].job);
      LostParts(s0, acts, snapshot, runnable, lost);
      ghost var least := FirstIsLeast(snapshot, runnable, slot, lost, assignments[0].job);
      var job :| job in runnable && job.id == assignments[0].job;
      SortedWithout(runnable, job.id);
      var won;
      won, acts, lost := Attempt(store, w, job, rounds(n), s0, acts, snapshot, runnable, lost);
      if won {
        LostParts(s0, acts, snapshot, runnable, lost);
        return Some(job.id), acts, lost;
      }
      runnable := WithoutJob(runnable, job.id);
      n := n + 1;
    }
    FinishClaim(store.Sys(), w, rounds(n).now, s0, acts, snapshot, runnable, lost, slot);
    store.seen := store.seen[w := {}];
    acts := acts + [GiveUp(w, rounds(n).now)];
  }

  method ClaimNext(store: Store, w: WorkerId, rounds: nat -> Round)
    returns (claimed: Option<JobId>, ghost acts: seq<Act>, ghost snapshot: seq<JobInfo>, ghost lost: map<JobId, nat>)
    requires Inv(store.Sys()) && store.Fresh() && forall n :: ByOthers(rounds(n).others, w)
    modifies store
    ensures Inv(store.Sys()) && store.Fresh() && store.Sys() == Run(old(store.Sys()), acts)
    ensures acts == [] <==> !FreeWorker(old(store.Db()), w)
    ensures acts == [] ==> claimed == None
    ensures acts != [] ==> ClaimReport(old(store.Sys()), store.Db(), w, acts, claimed, snapshot, lost)
    ensures acts == [] <==> !Eligible(old(store.jobs), old(store.workers), w)
    ensures acts != [] ==> InOrder(snapshot) && FromRows(snapshot, old(store.jobs))
    ensures acts != [] ==>
      forall j :: Listed(snapshot, j) <==> MayStart(old(store.jobs), old(store.deps), old(store.studies), j)
    ensures acts != [] && claimed.None? ==> forall job <- snapshot :: CanRun(job, old(store.workers)[w]) ==> job.id in lost
    ensures claimed.Some? ==> NoneAhead(snapshot, old(store.workers)[w], lost, claimed.value)
    ensures claimed.Some? ==> exists n: nat :: Claimed(store.jobs, w, claimed.value, rounds(n).now)
  {
    hide Step, Run, Inv, Holds, Lost, Runnable, ByOthers, LeastFitting, SeenOutOfQueue, Won, Lists, Busy;
    hide InOrder, FromRows, MayStart, Eligible, NoneAhead, Claimed, Listed, Fits, CanRun;
    NoSteps(store.Sys());
    FreeIffEligible(store.Db(), w);
    claimed, acts, snapshot, lost := None, [], [], map[];
    if w !in store.workers || store.workers[w].status != Online { return; }
    if store.workers[w].capacity - |Busy(store.Db(), w)| <= 0 { return; }
    ghost var s0 := store.Sys();
    var slot := SlotOf(store.Db(), w);
    var runnable := RunnableJobs(store);
    snapshot := runnable;
    StartClaim(s0, w, rounds(0).now, runnable);
    store.seen := store.seen[w := Runnable(store.Db())];
    store.judged := store.judged + Runnable(store.Db());
    claimed, acts, lost := ClaimFrom(store, w, slot, runnable, rounds, s0, [Look(w, rounds(0).now)]);
    ReportColumns(s0.db, w, claimed, snapshot, lost);
  }

  lemma FreeIffEligible(db: Db, w: WorkerId)
    ensures FreeWorker(db, w) <==> Eligible(db.jobs, db.workers, w)
  {
    forall j ensures j in Busy(db, w) <==> j in HeldBy(db.jobs, w) {}
    assert Busy(db, w) == HeldBy(db.jobs, w);
  }

  lemma FitsIff(db: Db, w: WorkerId, job: JobInfo)
    requires w in db.workers
    ensures Fits(job, SlotOf(db, w)) <==> CanRun(job, db.workers[w])
  {}

  lemma ReportColumns(db: Db, w: WorkerId, claimed: Option<JobId>, snapshot: seq<JobInfo>, lost: map<JobId, nat>)
    requires w in db.workers && (claimed.Some? ==> LeastFitting(snapshot, SlotOf(db, w), lost, claimed.value))
    requires claimed.None? ==> forall job <- snapshot :: Fits(job, SlotOf(db, w)) ==> job.id in lost
    ensures claimed.Some? ==> NoneAhead(snapshot, db.workers[w], lost, claimed.value)
    ensures claimed.None? ==> forall job <- snapshot :: CanRun(job, db.workers[w]) ==> job.id in lost
  {
    forall job <- snapshot ensures Fits(job, SlotOf(db, w)) <==> CanRun(job, db.workers[w]) { FitsIff(db, w, job); }
    hide Fits, CanRun;
  }

  lemma StartClaim(s: Sys, w: WorkerId, now: int, runnable: seq<JobInfo>)
    requires Inv(s) && FreeWorker(s.db, w) && Lists(runnable, s.db.jobs, Runnable(s.db))
    ensures var t := Sys(s.db, s.seen[w := Runnable(s.db)], s.judged + Runnable(s.db), s.pending);
      && Inv(t) && t == Run(s, [Look(w, now)]) && Holds(t, w, runnable) && Lost(s, [Look(w, now)], runnable, runnable, map[])
      && Sorted(runnable)
  {
    hide SeenOutOfQueue, Step;
    LookStep(s, w, now, runnable);
    InvStep(s, Look(w, now));
    RunOne(s, Look(w, now));
  }

  lemma JobTaken(runnable: seq<JobInfo>, slot: WorkerSlot, j: JobId)
    requires TakesFirst(runnable, slot, map[], j)
    ensures exists job <- runnable :: job.id == j
  {}

  lemma LostParts(s0: Sys, acts: seq<Act>, snapshot: seq<JobInfo>, runnable: seq<JobInfo>, lost: map<JobId, nat>)
    requires Lost(s0, acts, snapshot, runnable, lost)
    ensures (forall job <- runnable :: job in snapshot) && (forall job <- snapshot :: job in runnable || job.id in lost)
    ensures forall j <- lost :: SeenOutOfQueue(s0, acts, lost[j], j)
  {
    hide SeenOutOfQueue;
  }

  lemma FinishClaim(
    s: Sys, w: WorkerId, now: int, s0: Sys, acts: seq<Act>, snapshot: seq<JobInfo>, runnable: seq<JobInfo>, lost: map<JobId, nat>,
    slot: WorkerSlot)
    requires Inv(s) && s == Run(s0, acts) && Lost(s0, acts, snapshot, runnable, lost)
    requires runnable == [] || NoFit(runnable, slot, map[])
    ensures var t := Sys(s.db, s.seen[w := {}], s.judged, s.pending); Inv(t) && t == Run(s0, acts + [GiveUp(w, now)])
    ensures forall j <- lost :: SeenOutOfQueue(s0, acts + [GiveUp(w, now)], lost[j], j)
    ensures forall job <- snapshot :: Fits(job, slot) ==> job.id in lost
  {
    hide SeenOutOfQueue, Run, Step, Inv;
    GiveUpStep(s, w, now);
    InvStep(s, GiveUp(w, now));
    RunPush(s0, acts, GiveUp(w, now));
    LostGrows(s0, acts, [GiveUp(w, now)], snapshot, runnable, lost);
    forall job <- runnable ensures !Fits(job, slot) {
      var i :| 0 <= i < |runnable| && runnable[i] == job;
      assert !Fits(runnable[i], slot);
    }
  }

  lemma GiveUpStep(s: Sys, w: WorkerId, now: int)
    ensures Step(s, GiveUp(w, now)) == Sys(s.db, s.seen[w := {}], s.judged, s.pending)
  {}
}
