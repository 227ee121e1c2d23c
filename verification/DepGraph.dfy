/**
 The dependency graph stays acyclic under every interleaving of create_job and the in-place repointing of
 triage, although a repointed edge leads from an older job to a newer one. A rank witness is kept up to date:
 a created job goes on top of all ranks, a retry about to receive edges goes below all of them.
 */
module DepGraph {
  import opened Wrappers
  import opened Rows
  import opened Substrate

  predicate IsPath(deps: set<Dep>, p: seq<JobId>) {
    |p| >= 2 && forall i :: 0 <= i < |p| - 1 ==> Dep(p[i], p[i + 1]) in deps
  }

  ghost predicate Acyclic(deps: set<Dep>) {
    forall p: seq<JobId> :: IsPath(deps, p) ==> p[0] != p[|p| - 1]
  }

  ghost predicate Ranked(db: Db, rank: map<JobId, int>) {
    && (forall d <- db.deps :: d.job in db.jobs && d.on in db.jobs)
    && (forall d <- db.deps :: d.job in rank && d.on in rank && rank[d.job] > rank[d.on])
  }

  predicate Sink(db: Db, j: JobId) {
    j in db.jobs && forall d <- db.deps :: d.job != j
  }

  lemma {:induction false} PathDescends(db: Db, rank: map<JobId, int>, p: seq<JobId>)
    requires Ranked(db, rank) && IsPath(db.deps, p)
    ensures p[0] in rank && p[|p| - 1] in rank && rank[p[0]] > rank[p[|p| - 1]]
  {
    assert Dep(p[0], p[1]) in db.deps;
    if |p| > 2 {
      var rest := p[1..];
      forall i | 0 <= i < |rest| - 1 ensures Dep(rest[i], rest[i + 1]) in db.deps {
        assert Dep(p[i + 1], p[i + 2]) in db.deps;
      }
      PathDescends(db, rank, rest);
    }
  }

  lemma RankedIsAcyclic(db: Db, rank: map<JobId, int>)
    requires Ranked(db, rank)
    ensures Acyclic(db.deps)
  {
    forall p: seq<JobId> | IsPath(db.deps, p) ensures p[0] != p[|p| - 1] {
      PathDescends(db, rank, p);
    }
  }

  lemma {:induction false} Bounds(rank: map<JobId, int>) returns (low: int, high: int)
    ensures low < high && forall j <- rank :: low < rank[j] < high
  {
    if j :| j in rank {
      low, high := Bounds(rank - {j});
      assert forall k <- rank :: k != j ==> k in rank - {j};
      low := if rank[j] <= low then rank[j] - 1 else low;
      high := if rank[j] >= high then rank[j] + 1 else high;
    } else {
      low, high := 0, 1;
    }
  }

  // The repointing transaction of run_triage names a retry that was created without dependencies.
  predicate ToSink(db: Db, op: Op) {
    op.DoRepoint? ==> Sink(db, op.new_)
  }

  predicate AllToSinks(db: Db, ops: seq<Op>) {
    ops == [] || (AllToSinks(db, ops[..|ops| - 1]) && ToSink(Exec(db, ops[..|ops| - 1]), ops[|ops| - 1]))
  }

  lemma ApplyRanked(db: Db, rank: map<JobId, int>, op: Op) returns (next: map<JobId, int>)
    requires Ranked(db, rank) && ToSink(db, op)
    ensures Ranked(Apply(db, op), next)
  {
    var low, high := Bounds(rank);
    next := rank;
    if op.DoCreateJob? && CreateRefusal(db, op.job).None? {
      // Jobs nothing is known about yet get the lowest rank, the new job the highest.
      next := map j | j in db.jobs.Keys + {op.job.id} :: if j == op.job.id then high else if j in rank then rank[j] else low;
    } else if op.DoRepoint? && Apply(db, op) != db {
      next := rank[op.new_ := low];
      forall d | d in Apply(db, op).deps
        ensures d.job in Apply(db, op).jobs && d.on in Apply(db, op).jobs
        ensures d.job in next && d.on in next && next[d.job] > next[d.on]
      {
        var e :| e in db.deps && d == if e.on == op.old_ then Dep(e.job, op.new_) else e;
        assert e.job != op.new_;
      }
    }
  }

  lemma {:induction false} StaysRanked(db: Db, rank: map<JobId, int>, ops: seq<Op>) returns (last: map<JobId, int>)
    requires Ranked(db, rank) && AllToSinks(db, ops)
    ensures Ranked(Exec(db, ops), last)
  {
    hide Apply;
    if ops == [] {
      last := rank;
    } else {
      var r := StaysRanked(db, rank, ops[..|ops| - 1]);
      last := ApplyRanked(Exec(db, ops[..|ops| - 1]), r, ops[|ops| - 1]);
    }
  }

  lemma StaysAcyclic(ops: seq<Op>)
    requires AllToSinks(EMPTY, ops)
    ensures Acyclic(Exec(EMPTY, ops).deps)
  {
    var rank := StaysRanked(EMPTY, map[], ops);
    RankedIsAcyclic(Exec(EMPTY, ops), rank);
  }
}
