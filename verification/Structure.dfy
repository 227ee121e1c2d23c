/**
 What every run keeps about the job graph: the shape decompose gives it, for every case a live ANALYSIS that its CHECK
 waits for, rows of a case that agree, and no edge at a superseded job.
 */
module Structure {
  import opened Wrappers
  import opened Rows
  import opened Substrate
  import opened Protocol
  import opened Effects
  import opened EventLog
  import opened History

  /******* The invariant *******/

  predicate Live(row: Job) { row.state != RetrySpawned }

  // Not yet through with its work
  predicate Active(s: JobState) { !Terminal(s) && s != Succeeded && s != Review }

  // CHECKs (not their retries) depend on ANALYSIS jobs, REPORTs on CHECKs; nothing depends on a superseded job.
  ghost predicate EdgeOk(db: Db, d: Dep) {
    && d.job in db.jobs && d.on in db.jobs && db.jobs[d.job].study == db.jobs[d.on].study
    && ((db.jobs[d.job].jtype == CHECK && db.jobs[d.job].parent == None && db.jobs[d.on].jtype == ANALYSIS)
        || (db.jobs[d.job].jtype == REPORT && db.jobs[d.on].jtype == CHECK))
    && Live(db.jobs[d.on])
  }

  ghost predicate HasEdge(db: Db, c: JobId) { exists d <- db.deps :: d.job == c }

  ghost predicate IsDependedOn(db: Db, u: JobId) { exists d <- db.deps :: d.on == u }

  // The live row of a case its CHECK depends on
  ghost predicate HasMain(db: Db, key: Option<CaseKey>) {
    exists a <- db.jobs :: db.jobs[a].Key() == key && Live(db.jobs[a]) && IsDependedOn(db, a)
  }

  ghost predicate RowOk(db: Db, j: JobId)
    requires j in db.jobs
  {
    var row := db.jobs[j];
    && LinkedRow(db, row)
    && (row.jtype == CHECK && row.parent == None ==> HasEdge(db, j))
    && (row.jtype == ANALYSIS ==> HasMain(db, row.Key()))
  }

  ghost predicate EdgesOk(db: Db) { forall d <- db.deps :: EdgeOk(db, d) }

  ghost predicate RowsOk(db: Db) { forall j <- db.jobs :: RowOk(db, j) }

  // A CHECK has one upstream, an ANALYSIS one CHECK.
  ghost predicate EdgePairs(db: Db) {
    forall d <- db.deps, e <- db.deps :: d.job in db.jobs && d.on in db.jobs ==>
      && (d.job == e.job && db.jobs[d.job].jtype == CHECK ==> d == e)
      && (d.on == e.on && db.jobs[d.on].jtype == ANALYSIS ==> d == e)
  }

  // The rows of a case agree on its overrides.
  ghost predicate CasesAgree(db: Db) {
    forall a <- db.jobs, b <- db.jobs :: db.jobs[a].Key().Some? && db.jobs[a].Key() == db.jobs[b].Key() ==>
      db.jobs[a].payload.overrides == db.jobs[b].payload.overrides
  }

  ghost predicate HasCase(db: Db, k: CaseKey) { exists j <- db.jobs :: db.jobs[j].Key() == Some(k) }

  ghost predicate Struct(db: Db) { EdgesOk(db) && RowsOk(db) && EdgePairs(db) && CasesAgree(db) }

  // One live row of the case, which is then the one its CHECK depends on
  ghost predicate Single(db: Db, k: CaseKey) {
    forall a <- db.jobs, b <- db.jobs :: LiveOf(db.jobs[a], k) && LiveOf(db.jobs[b], k) ==> a == b
  }

  predicate LiveOf(row: Job, k: CaseKey) { row.Key() == Some(k) && Live(row) }

  predicate ActiveTriage(row: Job) { row.payload.TriagePayload? && Active(row.state) }

  lemma StructIsLinked(db: Db)
    requires EdgesOk(db) && RowsOk(db)
    ensures Linked(db)
  {
    forall d <- db.deps ensures d.job in db.jobs && d.on in db.jobs && db.jobs[d.job].study == db.jobs[d.on].study {
      assert EdgeOk(db, d);
    }
    forall j <- db.jobs ensures LinkedRow(db, db.jobs[j]) {
      assert RowOk(db, j);
    }
  }

  /******* Steps that add rows and edges *******/

  predicate SameRole(r: Job, q: Job) {
    && SameColumns(r, q) && (Live(r) <==> Live(q)) && (Active(q.state) ==> Active(r.state))
    && (r.state == Triage ==> q.state == Triage)
  }

  ghost predicate Extended(a: Db, b: Db, new_: set<JobId>) {
    && b.jobs.Keys == a.jobs.Keys + new_ && a.jobs.Keys !! new_ && a.deps <= b.deps
    && (forall d <- b.deps :: d in a.deps || d.job in new_)
    && (forall t <- a.studies :: t in b.studies)
    && forall j <- a.jobs :: SameRole(a.jobs[j], b.jobs[j])
  }

  lemma OldRowOk(a: Db, b: Db, new_: set<JobId>, j: JobId)
    requires Extended(a, b, new_) && j in a.jobs && RowOk(a, j)
    ensures RowOk(b, j)
  {
    assert SameRole(a.jobs[j], b.jobs[j]);
    var row := a.jobs[j];
    if row.jtype == ANALYSIS {
      var l :| l in a.jobs && a.jobs[l].Key() == row.Key() && Live(a.jobs[l]) && IsDependedOn(a, l);
      assert SameRole(a.jobs[l], b.jobs[l]);
      var d :| d in a.deps && d.on == l;
      assert d in b.deps && IsDependedOn(b, l);
    }
  }

  // What the new rows and edges owe
  ghost predicate NewPairs(b: Db, new_: set<JobId>) {
    && (forall d <- b.deps, e <- b.deps :: d.job in new_ && d.job in b.jobs && d.on in b.jobs ==>
          && (d.job == e.job && b.jobs[d.job].jtype == CHECK ==> d == e)
          && (d.on == e.on && b.jobs[d.on].jtype == ANALYSIS ==> d == e))
    && (forall j <- new_, k <- b.jobs :: j in b.jobs && b.jobs[j].Key().Some? && b.jobs[k].Key() == b.jobs[j].Key() ==>
          b.jobs[k].payload.overrides == b.jobs[j].payload.overrides)
  }

  // A new row of case k is the only row of it.
  ghost predicate NewCase(b: Db, new_: set<JobId>, k: CaseKey) {
    forall j <- new_, i <- b.jobs :: j in b.jobs && b.jobs[j].Key() == b.jobs[i].Key() == Some(k) ==> i == j
  }

  ghost predicate NewOk(b: Db, new_: set<JobId>) {
    && (forall j <- new_ :: j in b.jobs && RowOk(b, j))
    && (forall d <- b.deps :: d.job in new_ ==> EdgeOk(b, d))
  }

  lemma ExtendedRows(a: Db, b: Db, new_: set<JobId>)
    requires Extended(a, b, new_) && RowsOk(a) && NewOk(b, new_)
    ensures RowsOk(b)
  {
    forall j <- b.jobs ensures RowOk(b, j) {
      if j in a.jobs { OldRowOk(a, b, new_, j); }
    }
  }

  lemma ExtendedEdges(a: Db, b: Db, new_: set<JobId>)
    requires Extended(a, b, new_) && EdgesOk(a) && NewOk(b, new_)
    ensures EdgesOk(b)
  {
    forall d <- b.deps ensures EdgeOk(b, d) {
      if d in a.deps {
        assert EdgeOk(a, d) && SameRole(a.jobs[d.job], b.jobs[d.job]) && SameRole(a.jobs[d.on], b.jobs[d.on]);
      }
    }
  }

  lemma ExtendedCases(a: Db, b: Db, new_: set<JobId>)
    requires Extended(a, b, new_) && CasesAgree(a) && NewPairs(b, new_)
    ensures CasesAgree(b)
  {
    forall c <- b.jobs, d <- b.jobs | b.jobs[c].Key().Some? && b.jobs[c].Key() == b.jobs[d].Key()
      ensures b.jobs[c].payload.overrides == b.jobs[d].payload.overrides
    {
      if c in a.jobs && d in a.jobs {
        assert SameRole(a.jobs[c], b.jobs[c]) && SameRole(a.jobs[d], b.jobs[d]);
      }
    }
  }

  // No second row of a case, no second live row of it
  lemma ExtendedSingle(a: Db, b: Db, new_: set<JobId>, k: CaseKey)
    requires Extended(a, b, new_) && NewCase(b, new_, k)
    ensures Single(a, k) <==> Single(b, k)
  {
    forall j <- a.jobs ensures LiveOf(b.jobs[j], k) == LiveOf(a.jobs[j], k) { assert SameRole(a.jobs[j], b.jobs[j]); }
    forall x <- b.jobs, y <- b.jobs | LiveOf(b.jobs[x], k) && LiveOf(b.jobs[y], k) && Single(a, k) ensures x == y {
      assert x in a.jobs && y in a.jobs ==> LiveOf(a.jobs[x], k) && LiveOf(a.jobs[y], k);
    }
    forall x <- a.jobs, y <- a.jobs | LiveOf(a.jobs[x], k) && LiveOf(a.jobs[y], k) && Single(b, k) ensures x == y {
      assert LiveOf(b.jobs[x], k) && LiveOf(b.jobs[y], k);
    }
  }

  lemma ExtendedEdgePairs(a: Db, b: Db, new_: set<JobId>)
    requires Extended(a, b, new_) && EdgesOk(a) && EdgePairs(a) && NewPairs(b, new_)
    ensures EdgePairs(b)
  {
    forall d <- b.deps, e <- b.deps | d.job in b.jobs && d.on in b.jobs
      ensures d.job == e.job && b.jobs[d.job].jtype == CHECK ==> d == e
      ensures d.on == e.on && b.jobs[d.on].jtype == ANALYSIS ==> d == e
    {
      if d.job !in new_ {
        assert EdgeOk(a, d) && SameRole(a.jobs[d.job], b.jobs[d.job]) && SameRole(a.jobs[d.on], b.jobs[d.on]);
        if e.job in new_ && e.job in b.jobs && e.on in b.jobs {
          assert d.on == e.on && b.jobs[d.on].jtype == ANALYSIS ==> e == d;
        }
      }
    }
  }

  lemma ExtendedKeeps(a: Db, b: Db, new_: set<JobId>)
    requires Struct(a) && Extended(a, b, new_) && NewOk(b, new_) && NewPairs(b, new_)
    ensures Struct(b)
  {
    ExtendedRows(a, b, new_);
    ExtendedEdges(a, b, new_);
    ExtendedEdgePairs(a, b, new_);
    ExtendedCases(a, b, new_);
  }

  // Moves that do not leave triage keep the structure.
  predicate Gentle(db: Db, q: Request) {
    MoveRefusal(db, q).None? ==> db.jobs[q.job].state != Triage
  }

  lemma GentleExtends(db: Db, q: Request)
    requires Gentle(db, q)
    ensures Extended(db, Move(db, q), {})
  {
    if MoveRefusal(db, q).None? {
      MoveShape(db, q);
      MovedRole(db.jobs[q.job], q);
      hide Move, MovedRow, MoveRefusal, SameRole;
      forall j <- db.jobs ensures SameRole(db.jobs[j], Move(db, q).jobs[j]) {
        UnmovedRole(db.jobs[j]);
      }
    } else {
      forall j <- db.jobs ensures SameRole(db.jobs[j], Move(db, q).jobs[j]) {}
    }
  }

  lemma MovedRole(row: Job, q: Request)
    requires JobVerb(row.state, q.to).Some? && row.state != Triage
    ensures SameRole(row, MovedRow(row, q))
  {}

  lemma UnmovedRole(row: Job)
    ensures SameRole(row, row)
  {}

  lemma GentleKeeps(db: Db, q: Request)
    requires Struct(db) && Gentle(db, q)
    ensures Struct(Move(db, q))
  {
    hide *;
    GentleExtends(db, q);
    ExtendedKeeps(db, Move(db, q), {});
  }

  lemma SingleMovesAreGentle(s: Sys, a: Act)
    requires Enabled(s, a) && SingleMove(s.db, a).Some?
    ensures Gentle(s.db, SingleMove(s.db, a).value)
  {}

  /******* A new TRIAGE job *******/

  lemma MakeExtends(db: Db, j: JobId, tid: JobId, ts: int)
    requires EdgesOk(db) && RowsOk(db) && j in db.jobs && tid !in db.jobs
    ensures var b := Proposes(db, TriageJob(db.jobs[j], j, tid, ts));
      Extended(db, b, {tid}) && NewOk(b, {tid}) && NewPairs(b, {tid})
  {
    assert RowOk(db, j);
    var n := TriageJob(db.jobs[j], j, tid, ts);
    assert Proposes(db, n).jobs[tid] == NewRow(n);
    forall d <- db.deps ensures d.job != tid { assert EdgeOk(db, d); }
  }

  lemma MakeKeeps(db: Db, j: JobId, tid: JobId, ts: int)
    requires Struct(db) && j in db.jobs && tid !in db.jobs
    ensures Struct(Proposes(db, TriageJob(db.jobs[j], j, tid, ts)))
  {
    MakeExtends(db, j, tid, ts);
    ExtendedKeeps(db, Proposes(db, TriageJob(db.jobs[j], j, tid, ts)), {tid});
  }

  /******* decompose *******/

  lemma CaseExtends(s: Sys, a: Act)
    requires EdgesOk(s.db) && a.AddCase? && Enabled(s, a)
    ensures Extended(s.db, AfterCase(s.db, a), {a.aid, a.cid}) && NewOk(AfterCase(s.db, a), {a.aid, a.cid})
    ensures forall d <- s.db.deps :: d.job !in {a.aid, a.cid} && d.on !in {a.aid, a.cid}
  {
    var b, e := AfterCase(s.db, a), Dep(a.cid, a.aid);
    forall d <- s.db.deps ensures d.job !in {a.aid, a.cid} && d.on !in {a.aid, a.cid} { assert EdgeOk(s.db, d); }
    CaseIsNew(s.db, a);
    hide RowOk, EdgeOk, Enabled;
    assert e in b.deps;
  }

  lemma CaseIsNew(db: Db, a: Act)
    requires a.AddCase? && a.sid in db.studies && a.aid !in db.jobs && a.cid !in db.jobs && a.aid != a.cid
    ensures var b := AfterCase(db, a); EdgeOk(b, Dep(a.cid, a.aid)) && RowOk(b, a.aid) && RowOk(b, a.cid)
  {
    assert Dep(a.cid, a.aid) in AfterCase(db, a).deps;
  }

  lemma CaseNewPairs(s: Sys, a: Act)
    requires a.AddCase? && Enabled(s, a) && forall d <- s.db.deps :: d.job !in {a.aid, a.cid} && d.on !in {a.aid, a.cid}
    ensures NewPairs(AfterCase(s.db, a), {a.aid, a.cid})
  {
    var b := AfterCase(s.db, a);
    assert b.jobs[a.aid].Key() == Some(CaseKey(a.sid, a.caseId)) && b.jobs[a.aid].payload.overrides == a.overrides;
    assert forall j <- s.db.jobs :: b.jobs[j] == s.db.jobs[j];
  }

  lemma CaseKeeps(s: Sys, a: Act)
    requires Struct(s.db) && a.AddCase? && Enabled(s, a)
    ensures Struct(AfterCase(s.db, a))
  {
    CaseExtends(s, a);
    CaseNewPairs(s, a);
    ExtendedKeeps(s.db, AfterCase(s.db, a), {a.aid, a.cid});
  }

  lemma ReportExtends(s: Sys, a: Act)
    requires EdgesOk(s.db) && a.AddReport? && Enabled(s, a)
    ensures Extended(s.db, AfterReport(s.db, a), {a.rid}) && NewOk(AfterReport(s.db, a), {a.rid})
    ensures forall d <- AfterReport(s.db, a).deps :: d.job == a.rid ==> AfterReport(s.db, a).jobs[d.on].jtype == CHECK
  {
    forall d <- s.db.deps ensures d.job != a.rid { assert EdgeOk(s.db, d); }
  }

  lemma ReportKeeps(s: Sys, a: Act)
    requires Struct(s.db) && a.AddReport? && Enabled(s, a)
    ensures Struct(AfterReport(s.db, a))
  {
    ReportExtends(s, a);
    assert AfterReport(s.db, a).jobs[a.rid].jtype == REPORT;
    assert NewPairs(AfterReport(s.db, a), {a.rid});
    ExtendedKeeps(s.db, AfterReport(s.db, a), {a.rid});
  }

  /******* run_triage *******/

  // p leaves triage, nothing else happens to an old row.
  ghost predicate Resolves(a: Db, b: Db, p: JobId) {
    && p in a.jobs && a.jobs.Keys <= b.jobs.Keys && b.studies == a.studies && b.workers == a.workers && b.verdicts == a.verdicts
    && a.jobs[p].state == Triage && b.jobs[p].state in {RetrySpawned, Infeasible, Escalated}
    && SameColumns(a.jobs[p], b.jobs[p]) && b.jobs[p].attempt == a.jobs[p].attempt && SameResults(a.jobs[p], b.jobs[p])
    && forall j <- a.jobs :: j != p ==> b.jobs[j] == a.jobs[j]
  }

  predicate SameResults(r: Job, q: Job) {
    q.worker == r.worker && q.runRef == r.runRef && q.verdict == r.verdict
  }

  // p is written off or handed to a human.
  ghost predicate Retires(a: Db, b: Db, p: JobId) {
    && Resolves(a, b, p) && b.jobs.Keys == a.jobs.Keys && b.deps == a.deps
    && ((b.jobs[p].state == Escalated && a.jobs[p].attempt >= a.jobs[p].maxAttempts)
        || (b.jobs[p].state == Infeasible && PermanentFailure(b.log, p)))
  }

  // p's place is taken by the new row rid.
  ghost predicate Replaces(a: Db, b: Db, p: JobId, rid: JobId) {
    && Resolves(a, b, p) && rid !in a.jobs && b.jobs.Keys == a.jobs.Keys + {rid}
    && b.deps == Requeued(a, p, rid) && b.jobs[p].state == RetrySpawned && RetryOf(a, p, b.jobs[rid])
    && !PermanentFailure(b.log, p)
  }

  // A retry appears beside p, which stays what it is: still in triage, or superseded by a retry it has already.
  ghost predicate Adds(a: Db, b: Db, p: JobId, rid: JobId) {
    && p in a.jobs && a.jobs[p].state in {Triage, RetrySpawned} && rid !in a.jobs && b.jobs.Keys == a.jobs.Keys + {rid}
    && (b.deps == a.deps || (a.jobs[p].state == Triage && b.deps == Requeued(a, p, rid)))
    && b.studies == a.studies && b.workers == a.workers && b.verdicts == a.verdicts
    && SuccessorOf(a, p, b.jobs[rid]) && forall j <- a.jobs :: b.jobs[j] == a.jobs[j]
  }

  // A retry of p, approved or not
  predicate SuccessorOf(db: Db, p: JobId, row: Job) {
    && p in db.jobs && SuccessorRow(db.jobs[p], p, row) && db.jobs[p].attempt < db.jobs[p].maxAttempts
    && (row.state == Approved ==> AutoRetry(PolicyOf(db, db.jobs[p].study), db.jobs[p].attempt))
  }

  predicate RetryOf(db: Db, p: JobId, row: Job) {
    && SuccessorOf(db, p, row)
    && row.state == (if AutoRetry(PolicyOf(db, db.jobs[p].study), db.jobs[p].attempt) then Approved else Proposed)
  }

  // What depended on p depends on rid now.
  ghost predicate Hands(a: Db, b: Db, p: JobId, rid: JobId) {
    && p in a.jobs && rid !in a.jobs && b.jobs.Keys == a.jobs.Keys + {rid} && b.studies == a.studies
    && b.deps == Requeued(a, p, rid) && SuccessorRow(a.jobs[p], p, b.jobs[rid])
    && SameColumns(a.jobs[p], b.jobs[p]) && forall j <- a.jobs :: j != p ==> b.jobs[j] == a.jobs[j]
  }

  lemma ReplacesHands(a: Db, b: Db, p: JobId, rid: JobId)
    requires Replaces(a, b, p, rid) || (Adds(a, b, p, rid) && b.deps != a.deps)
    ensures Hands(a, b, p, rid)
  {}

  predicate SuccessorRow(row: Job, p: JobId, next: Job) {
    && next.study == row.study && next.jtype == row.jtype && next.parent == Some(p) && next.state in {Proposed, Approved}
    && next.Key() == row.Key() && next.maxAttempts == row.maxAttempts && next.attempt == row.attempt + 1
    && next.worker == None && next.runRef == None && next.verdict == None
    && (next.payload.CasePayload? <==> row.payload.CasePayload?)
    && (row.payload.CasePayload? ==> next.payload.overrides == row.payload.overrides)
    && (row.payload.TriagePayload? || next.payload.TriagePayload? ==> next.payload == row.payload)
  }

  lemma RetiredRow(a: Db, b: Db, p: JobId, j: JobId)
    requires Retires(a, b, p) && j in a.jobs && RowOk(a, j)
    ensures RowOk(b, j)
  {
    var row := a.jobs[j];
    assert j == p || b.jobs[j] == row;
    if row.jtype == ANALYSIS {
      var l :| l in a.jobs && a.jobs[l].Key() == row.Key() && Live(a.jobs[l]) && IsDependedOn(a, l);
      var d :| d in a.deps && d.on == l;
      assert b.jobs[l].Key() == row.Key() && Live(b.jobs[l]) && d in b.deps && IsDependedOn(b, l);
    }
  }

  lemma RetiresRows(a: Db, b: Db, p: JobId)
    requires RowsOk(a) && Retires(a, b, p)
    ensures RowsOk(b)
  {
    hide RowOk, Retires;
    assert b.jobs.Keys == a.jobs.Keys by { RetiresKeys(a, b, p); }
    forall j | j in a.jobs ensures j in b.jobs && RowOk(b, j) { RetiredRow(a, b, p, j); }
  }

  lemma RetiresKeys(a: Db, b: Db, p: JobId)
    requires Retires(a, b, p)
    ensures b.jobs.Keys == a.jobs.Keys
  {}

  lemma RetiresEdges(a: Db, b: Db, p: JobId)
    requires EdgesOk(a) && Retires(a, b, p)
    ensures EdgesOk(b)
  {
    forall d <- b.deps ensures EdgeOk(b, d) { assert EdgeOk(a, d); }
  }

  lemma RetiresCases(a: Db, b: Db, p: JobId)
    requires CasesAgree(a) && Retires(a, b, p)
    ensures CasesAgree(b)
  {
    forall x <- b.jobs, y <- b.jobs | b.jobs[x].Key().Some? && b.jobs[x].Key() == b.jobs[y].Key()
      ensures b.jobs[x].payload.overrides == b.jobs[y].payload.overrides
    {
      assert a.jobs[x].Key() == a.jobs[y].Key();
    }
  }

  lemma RetiresEdgePairs(a: Db, b: Db, p: JobId)
    requires EdgesOk(a) && EdgePairs(a) && Retires(a, b, p)
    ensures EdgePairs(b)
  {
    forall d <- b.deps, e <- b.deps | d.job in b.jobs && d.on in b.jobs
      ensures d.job == e.job && b.jobs[d.job].jtype == CHECK ==> d == e
      ensures d.on == e.on && b.jobs[d.on].jtype == ANALYSIS ==> d == e
    {
      assert EdgeOk(a, d);
      assert b.jobs[d.job].jtype == a.jobs[d.job].jtype && b.jobs[d.on].jtype == a.jobs[d.on].jtype;
      hide Retires, EdgesOk, EdgeOk;
    }
  }

  lemma RetiresKeeps(a: Db, b: Db, p: JobId)
    requires Struct(a) && Retires(a, b, p)
    ensures Struct(b)
  {
    RetiresRows(a, b, p);
    RetiresEdges(a, b, p);
    RetiresCases(a, b, p);
    RetiresEdgePairs(a, b, p);
  }

  lemma RetiresSingle(a: Db, b: Db, p: JobId, k: CaseKey)
    requires Retires(a, b, p)
    ensures Single(a, k) <==> Single(b, k)
  {
    forall j <- a.jobs
      ensures j in b.jobs && LiveOf(b.jobs[j], k) == LiveOf(a.jobs[j], k)
    {
      assert j == p || b.jobs[j] == a.jobs[j];
    }
  }

  // The retry takes the place of the row it supersedes.
  lemma ReplacesSingle(a: Db, b: Db, p: JobId, rid: JobId, k: CaseKey)
    requires Replaces(a, b, p, rid)
    ensures Single(a, k) <==> Single(b, k)
  {
    forall j <- b.jobs ensures LiveOf(b.jobs[j], k) <==> j != p && LiveOf(a.jobs[if j == rid then p else j], k) {
      assert j == p || j == rid || b.jobs[j] == a.jobs[j];
    }
    assert forall j <- a.jobs :: LiveOf(a.jobs[j], k) <==> LiveOf(b.jobs[if j == p then rid else j], k);
    hide Replaces, LiveOf;
    forall x <- a.jobs, y <- a.jobs | LiveOf(a.jobs[x], k) && LiveOf(a.jobs[y], k) && Single(b, k) ensures x == y {
      var x', y' := if x == p then rid else x, if y == p then rid else y;
      assert LiveOf(b.jobs[x'], k) && LiveOf(b.jobs[y'], k);
    }
  }

  // A retry beside a row of the case gives the case two live rows, and leaves other cases alone.
  lemma AddsSingle(a: Db, b: Db, p: JobId, rid: JobId, k: CaseKey)
    requires Struct(a) && Adds(a, b, p, rid)
    ensures Single(b, k) <==> Single(a, k) && a.jobs[p].Key() != Some(k)
  {
    forall j <- a.jobs ensures LiveOf(b.jobs[j], k) == LiveOf(a.jobs[j], k) {}
    if a.jobs[p].Key() == Some(k) {
      assert RowOk(a, p);
      var l :| l in a.jobs && a.jobs[l].Key() == Some(k) && Live(a.jobs[l]);
      assert LiveOf(b.jobs[l], k) && LiveOf(b.jobs[rid], k) && l != rid;
    } else {
      assert !LiveOf(b.jobs[rid], k);
      forall x <- a.jobs, y <- a.jobs | LiveOf(a.jobs[x], k) && LiveOf(a.jobs[y], k) && Single(b, k) ensures x == y {
        assert LiveOf(b.jobs[x], k) && LiveOf(b.jobs[y], k);
      }
    }
  }

  lemma ReplacedCase(a: Db, b: Db, p: JobId, rid: JobId, key: Option<CaseKey>)
    requires Hands(a, b, p, rid) && HasMain(a, key)
    ensures HasMain(b, key)
  {
    var l :| l in a.jobs && a.jobs[l].Key() == key && Live(a.jobs[l]) && IsDependedOn(a, l);
    var d :| d in a.deps && d.on == l;
    var l' := if l == p then rid else l;
    assert (if d.on == p then Dep(d.job, rid) else d) in b.deps;
    assert b.jobs[l'].Key() == key && Live(b.jobs[l']) && IsDependedOn(b, l');
  }

  lemma ReplacedRow(a: Db, b: Db, p: JobId, rid: JobId, j: JobId)
    requires Hands(a, b, p, rid) && j in a.jobs && RowOk(a, j)
    ensures RowOk(b, j)
  {
    assert j == p || b.jobs[j] == a.jobs[j];
    if HasEdge(a, j) {
      var d :| d in a.deps && d.job == j;
      assert (if d.on == p then Dep(d.job, rid) else d) in b.deps;
    }
    if a.jobs[j].jtype == ANALYSIS { ReplacedCase(a, b, p, rid, a.jobs[j].Key()); }
    hide HasMain, IsDependedOn, Requeued;
  }

  lemma SuccessorRowOk(a: Db, b: Db, p: JobId, rid: JobId)
    requires Hands(a, b, p, rid) && RowOk(a, p)
    ensures RowOk(b, rid)
  {
    if a.jobs[p].jtype == ANALYSIS { ReplacedCase(a, b, p, rid, a.jobs[p].Key()); }
    hide HasMain, Requeued;
  }

  lemma ReplacesEdges(a: Db, b: Db, p: JobId, rid: JobId)
    requires EdgesOk(a) && Hands(a, b, p, rid)
    ensures EdgesOk(b)
  {
    forall d <- b.deps ensures EdgeOk(b, d) {
      var e :| e in a.deps && d == if e.on == p then Dep(e.job, rid) else e;
      assert EdgeOk(a, e);
    }
  }

  // The edge of a that d is or was repointed from
  lemma EdgeBefore(a: Db, b: Db, p: JobId, rid: JobId, d: Dep) returns (d0: Dep)
    requires EdgesOk(a) && Hands(a, b, p, rid) && d in b.deps
    ensures d0 in a.deps && EdgeOk(a, d0) && d == (if d0.on == p then Dep(d0.job, rid) else d0) && d0.on != rid
    ensures d.job in b.jobs && d.on in b.jobs
    ensures b.jobs[d.job].jtype == a.jobs[d0.job].jtype && b.jobs[d.on].jtype == a.jobs[d0.on].jtype
  {
    d0 :| d0 in a.deps && d == if d0.on == p then Dep(d0.job, rid) else d0;
    assert EdgeOk(a, d0);
  }

  lemma ReplacesEdgePairs(a: Db, b: Db, p: JobId, rid: JobId)
    requires EdgesOk(a) && EdgePairs(a) && Hands(a, b, p, rid)
    ensures EdgePairs(b)
  {
    forall d <- b.deps, e <- b.deps | d.job in b.jobs && d.on in b.jobs
      ensures d.job == e.job && b.jobs[d.job].jtype == CHECK ==> d == e
      ensures d.on == e.on && b.jobs[d.on].jtype == ANALYSIS ==> d == e
    {
      var d0 := EdgeBefore(a, b, p, rid, d);
      var e0 := EdgeBefore(a, b, p, rid, e);
    }
  }

  lemma ReplacesCases(a: Db, b: Db, p: JobId, rid: JobId)
    requires CasesAgree(a) && (Replaces(a, b, p, rid) || Adds(a, b, p, rid))
    ensures CasesAgree(b)
  {
    forall x <- b.jobs, y <- b.jobs | b.jobs[x].Key().Some? && b.jobs[x].Key() == b.jobs[y].Key()
      ensures b.jobs[x].payload.overrides == b.jobs[y].payload.overrides
    {
      var x0, y0 := if x == rid then p else x, if y == rid then p else y;
      assert a.jobs[x0].Key() == a.jobs[y0].Key();
    }
  }

  lemma ReplacesKeeps(a: Db, b: Db, p: JobId, rid: JobId)
    requires Struct(a) && (Replaces(a, b, p, rid) || (Adds(a, b, p, rid) && b.deps != a.deps))
    ensures Struct(b)
  {
    ReplacesHands(a, b, p, rid);
    ReplacesRows(a, b, p, rid);
    ReplacesEdges(a, b, p, rid);
    ReplacesEdgePairs(a, b, p, rid);
    ReplacesCases(a, b, p, rid);
  }

  lemma ReplacesRows(a: Db, b: Db, p: JobId, rid: JobId)
    requires RowsOk(a) && Hands(a, b, p, rid)
    ensures RowsOk(b)
  {
    assert RowOk(a, p);
    SuccessorRowOk(a, b, p, rid);
    forall j <- b.jobs ensures RowOk(b, j) {
      if j != rid { assert RowOk(a, j); ReplacedRow(a, b, p, rid, j); }
    }
  }

  lemma AddsRows(a: Db, b: Db, p: JobId, rid: JobId)
    requires RowsOk(a) && Adds(a, b, p, rid) && b.deps == a.deps
    ensures RowsOk(b)
  {
    forall key | HasMain(a, key) ensures HasMain(b, key) {
      var l :| l in a.jobs && a.jobs[l].Key() == key && Live(a.jobs[l]) && IsDependedOn(a, l);
      var d :| d in a.deps && d.on == l;
      assert b.jobs[l] == a.jobs[l] && d in b.deps && IsDependedOn(b, l);
    }
    assert RowOk(a, p);
    hide HasMain;
    forall j <- b.jobs ensures RowOk(b, j) {
      if j != rid {
        assert RowOk(a, j);
        if HasEdge(a, j) { var d :| d in a.deps && d.job == j; assert d in b.deps; }
      }
    }
  }

  lemma AddsKeeps(a: Db, b: Db, p: JobId, rid: JobId)
    requires Struct(a) && Adds(a, b, p, rid)
    ensures Struct(b)
  {
    if b.deps == a.deps {
      AddsRows(a, b, p, rid);
      ReplacesCases(a, b, p, rid);
      AddsEdges(a, b, p, rid);
    } else {
      ReplacesKeeps(a, b, p, rid);
    }
  }

  lemma AddsEdges(a: Db, b: Db, p: JobId, rid: JobId)
    requires EdgesOk(a) && EdgePairs(a) && Adds(a, b, p, rid) && b.deps == a.deps
    ensures EdgesOk(b) && EdgePairs(b)
  {
    forall d <- b.deps ensures EdgeOk(b, d) { assert EdgeOk(a, d); }
    forall d <- b.deps, e <- b.deps | d.job in b.jobs && d.on in b.jobs
      ensures d.job == e.job && b.jobs[d.job].jtype == CHECK ==> d == e
      ensures d.on == e.on && b.jobs[d.on].jtype == ANALYSIS ==> d == e
    {
      assert EdgeOk(a, d);
    }
  }

  // What run_triage does, as one of the two relations
  lemma RespawnedRows(db: Db, p: JobId, rid: JobId, warm: Option<RunRef>, ts: int)
    requires p in db.jobs && rid !in db.jobs && LinkedRow(db, db.jobs[p])
    ensures var mid := Respawned(db, p, rid, warm, ts);
      && mid.jobs.Keys == db.jobs.Keys + {rid} && mid.deps == Requeued(db, p, rid)
      && mid.studies == db.studies && mid.verdicts == db.verdicts && mid.workers == db.workers
      && (forall j <- db.jobs :: mid.jobs[j] == db.jobs[j]) && SuccessorRow(db.jobs[p], p, mid.jobs[rid])
      && mid.jobs[rid].state == (if AutoRetry(PolicyOf(db, db.jobs[p].study), db.jobs[p].attempt) then Approved else Proposed)
  {
    hide SuccessorRow, RetryJob, NewRow, Approved_, AutoRetry, LinkedRow, Requeued;
    IsSuccessor(db, db.jobs[p], PolicyOf(db, db.jobs[p].study), p, rid, warm, ts);
  }

  // The row of a retry, as made and once approved
  lemma IsSuccessor(db: Db, row: Job, policy: Policy, p: JobId, rid: JobId, warm: Option<RunRef>, ts: int)
    requires LinkedRow(db, row)
    ensures var n := RetryJob(row, policy, p, rid, warm, ts);
      && n.id == rid && SuccessorRow(row, p, NewRow(n)) && SuccessorRow(row, p, Approved_(n))
      && NewRow(n).state == Proposed && Approved_(n).state == Approved
  {}

  predicate BirthEvent(e: Event, key: Option<CaseKey>) {
    e.verb in {JobProposed, JobApproved} && (e.detail.Moved? ==> e.verb == JobApproved && e.detail.key in {None, key})
  }

  // What a retry writes to the log: its creation, and its approval
  lemma RespawnedLog(db: Db, p: JobId, rid: JobId, warm: Option<RunRef>, ts: int) returns (pre: seq<Event>)
    requires p in db.jobs
    ensures Respawned(db, p, rid, warm, ts).log == db.log + pre
    ensures forall i :: 0 <= i < |pre| ==> BirthEvent(pre[i], db.jobs[p].Key())
  {
    pre := Respawned(db, p, rid, warm, ts).log[|db.log|..];
  }

  lemma {:induction false} FailureStays(log: seq<Event>, more: seq<Event>, p: JobId)
    requires forall i :: 0 <= i < |more| ==> more[i].verb != JobFailed
    ensures PermanentFailure(log + more, p) == PermanentFailure(log, p)
  {
    if more == [] {
      assert log + more == log;
    } else {
      FailureStays(log, more[..|more| - 1], p);
      assert log + more == (log + more[..|more| - 1]) + [more[|more| - 1]];
      FailurePush(log + more[..|more| - 1], more[|more| - 1], p);
    }
  }

  lemma ResolvedRelates(db: Db, mid: Db, p: JobId, to: JobState, logged: bool, ts: int)
    requires p in db.jobs && db.jobs[p].state == Triage && to in {RetrySpawned, Infeasible, Escalated}
    requires db.jobs.Keys <= mid.jobs.Keys && mid.studies == db.studies && mid.verdicts == db.verdicts
    requires mid.workers == db.workers
    requires forall j <- db.jobs :: mid.jobs[j] == db.jobs[j]
    ensures Resolves(db, Resolved(mid, p, to, logged, ts), p)
  {}

  lemma AfterTriageReplaces(db: Db, p: JobId, rid: JobId, warm: Option<RunRef>, logged: bool, ts: int)
    requires p in db.jobs && db.jobs[p].state == Triage && rid !in db.jobs && LinkedRow(db, db.jobs[p])
    requires TriageDecision(db, p) == RetrySpawned
    ensures Replaces(db, AfterTriage(db, p, rid, warm, logged, ts), p, rid)
  {
    hide Respawned, LinkedRow, PermanentFailure, Requeued, SuccessorRow, AutoRetry, Resolved;
    RespawnedRows(db, p, rid, warm, ts);
    var pre := RespawnedLog(db, p, rid, warm, ts);
    var mid := Respawned(db, p, rid, warm, ts);
    assert !PermanentFailure(db.log, p) && db.jobs[p].attempt < db.jobs[p].maxAttempts;
    assert AfterTriage(db, p, rid, warm, logged, ts) == Resolved(mid, p, RetrySpawned, logged, ts);
    hide TriageDecision, AfterTriage;
    ResolvedRelates(db, mid, p, RetrySpawned, logged, ts);
    ResolvedFailure(db, mid, p, RetrySpawned, pre, logged, ts);
    ResolvedKeeps(mid, p, RetrySpawned, logged, ts);
  }

  lemma ResolvedKeeps(mid: Db, p: JobId, to: JobState, logged: bool, ts: int)
    requires p in mid.jobs && JobVerb(mid.jobs[p].state, to).Some?
    ensures var b := Resolved(mid, p, to, logged, ts);
      && b.jobs.Keys == mid.jobs.Keys && b.deps == mid.deps && b.jobs[p].state == to
      && forall j <- mid.jobs :: j != p ==> b.jobs[j] == mid.jobs[j]
  {}

  lemma AfterTriageRetires(db: Db, p: JobId, rid: JobId, warm: Option<RunRef>, logged: bool, ts: int)
    requires p in db.jobs && db.jobs[p].state == Triage && rid !in db.jobs && TriageDecision(db, p) != RetrySpawned
    ensures Retires(db, AfterTriage(db, p, rid, warm, logged, ts), p)
  {
    var to := TriageDecision(db, p);
    assert db.log + [] == db.log;
    ResolvedRelates(db, db, p, to, logged, ts);
    ResolvedFailure(db, db, p, to, [], logged, ts);
    ResolvedKeeps(db, p, to, logged, ts);
    hide Resolved, PermanentFailure, Resolves;
  }

  lemma AfterTriageOutcome(db: Db, p: JobId, rid: JobId, warm: Option<RunRef>, logged: bool, ts: int)
    requires p in db.jobs && db.jobs[p].state == Triage && rid !in db.jobs && LinkedRow(db, db.jobs[p])
    ensures TriageOutcome(db, AfterTriage(db, p, rid, warm, logged, ts), p, rid)
  {
    if TriageDecision(db, p) == RetrySpawned {
      AfterTriageReplaces(db, p, rid, warm, logged, ts);
    } else {
      AfterTriageRetires(db, p, rid, warm, logged, ts);
    }
  }

  lemma ResolvedFailure(db: Db, mid: Db, p: JobId, to: JobState, pre: seq<Event>, logged: bool, ts: int)
    requires p in db.jobs && p in mid.jobs && mid.jobs[p] == db.jobs[p] && db.jobs[p].state == Triage
    requires to in {RetrySpawned, Infeasible, Escalated} && mid.log == db.log + pre
    requires forall i :: 0 <= i < |pre| ==> pre[i].verb in {JobProposed, JobApproved}
    ensures PermanentFailure(Resolved(mid, p, to, logged, ts).log, p) == PermanentFailure(db.log, p)
  {
    FailureStays(db.log, pre, p);
    var e := MoveEvent(mid.jobs[p], MoveTo(p, to, ts));
    FailureStays(mid.log, [e] + if logged then [DecisionEvent(p, ts)] else [], p);
    assert mid.log + [e] + (if logged then [DecisionEvent(p, ts)] else []) ==
      mid.log + ([e] + if logged then [DecisionEvent(p, ts)] else []);
  }

  ghost predicate TriageOutcome(a: Db, b: Db, p: JobId, rid: JobId) {
    Retires(a, b, p) || Replaces(a, b, p, rid)
  }

  // What triage writes to the log: the retry's creation and approval, p's own move, the decision if the worker lives.
  ghost predicate TriageEvents(a: Db, b: Db, p: JobId, pre: seq<Event>, q: Request, last: seq<Event>) {
    && p in a.jobs && p in b.jobs && a.jobs[p].state == Triage && JobVerb(Triage, q.to).Some? && b.jobs[p].state == q.to
    && b.log == a.log + pre + [MoveEvent(a.jobs[p], q)] + last
    && (forall i :: 0 <= i < |pre| ==> BirthEvent(pre[i], a.jobs[p].Key()))
    && (forall i :: 0 <= i < |last| ==> last[i].verb == DecisionLogged && last[i].detail == NoDetail)
  }

  lemma ResolvedEvents(a: Db, mid: Db, p: JobId, to: JobState, pre: seq<Event>, logged: bool, ts: int)
    returns (q: Request, last: seq<Event>)
    requires p in a.jobs && p in mid.jobs && mid.jobs[p] == a.jobs[p] && a.jobs[p].state == Triage
    requires JobVerb(Triage, to).Some? && mid.log == a.log + pre
    requires forall i :: 0 <= i < |pre| ==> BirthEvent(pre[i], a.jobs[p].Key())
    ensures TriageEvents(a, Resolved(mid, p, to, logged, ts), p, pre, q, last) && |last| == if logged then 1 else 0
  {
    q := MoveTo(p, to, ts);
    last := if logged then [DecisionEvent(p, ts)] else [];
    assert mid.log + [MoveEvent(mid.jobs[p], q)] + last == a.log + pre + [MoveEvent(a.jobs[p], q)] + last;
  }

  lemma AfterTriageEvents(db: Db, p: JobId, rid: JobId, warm: Option<RunRef>, logged: bool, ts: int)
    returns (pre: seq<Event>, q: Request, last: seq<Event>)
    requires p in db.jobs && db.jobs[p].state == Triage && rid !in db.jobs
    ensures TriageEvents(db, AfterTriage(db, p, rid, warm, logged, ts), p, pre, q, last) && |last| == if logged then 1 else 0
  {
    var to := TriageDecision(db, p);
    if to == RetrySpawned {
      pre := RespawnedLog(db, p, rid, warm, ts);
      q, last := ResolvedEvents(db, Respawned(db, p, rid, warm, ts), p, to, pre, logged, ts);
    } else {
      pre := [];
      assert db.log + pre == db.log;
      q, last := ResolvedEvents(db, db, p, to, pre, logged, ts);
    }
  }

  // The step of a RunTriage action, with p the job under triage
  lemma TriageStep(s: Sys, a: Act) returns (p: JobId, pre: seq<Event>, q: Request, last: seq<Event>)
    requires EdgesOk(s.db) && RowsOk(s.db) && a.RunTriage? && Enabled(s, a)
    ensures Triaging(s.db, a.j) && p == s.db.jobs[a.j].payload.failedJob
    ensures TriageOutcome(s.db, Step(s, a).db, p, a.rid) && TriageEvents(s.db, Step(s, a).db, p, pre, q, last)
    ensures |last| == if a.logged then 1 else 0
    ensures Step(s, a).seen == s.seen && Step(s, a).judged == s.judged
  {
    hide Ops, Exec, TriageOutcome;
    p := s.db.jobs[a.j].payload.failedJob;
    assert RowOk(s.db, p);
    StructIsLinked(s.db);
    TriageEffect(s, a);
    AfterTriageOutcome(s.db, p, a.rid, a.warm, a.logged, a.ts);
    pre, q, last := AfterTriageEvents(s.db, p, a.rid, a.warm, a.logged, a.ts);
  }

  lemma TriageKeeps(a: Db, b: Db, p: JobId, rid: JobId)
    requires Struct(a) && TriageOutcome(a, b, p, rid)
    ensures Struct(b)
  {
    if Retires(a, b, p) {
      RetiresKeeps(a, b, p);
    } else {
      ReplacesKeeps(a, b, p, rid);
    }
  }

  /******* run_triage that breaks off *******/

  ghost predicate HalfOutcome(a: Db, b: Db, p: JobId, rid: JobId) { b == a || Adds(a, b, p, rid) }

  // A job that was retried has no edge left that could be repointed once more.
  lemma NothingToRepoint(db: Db, p: JobId, rid: JobId)
    requires EdgesOk(db) && p in db.jobs && db.jobs[p].state == RetrySpawned
    ensures Requeued(db, p, rid) == db.deps
  {
    forall d <- db.deps ensures d.on != p { assert EdgeOk(db, d); }
    assert forall d <- db.deps :: (if d.on == p then Dep(d.job, rid) else d) == d;
    forall d <- db.deps
      ensures d in Requeued(db, p, rid)
    {
      assert (if d.on == p then Dep(d.job, rid) else d) in Requeued(db, p, rid);
    }
  }

  // It has made a retry.
  predicate MakesRetry(db: Db, p: JobId, cut: nat)
    requires p in db.jobs
  {
    cut > 0 && TriageDecision(db, p) == RetrySpawned
  }

  // The step of a HalfTriage action, with p the job under triage
  lemma HalfStep(s: Sys, a: Act) returns (p: JobId, pre: seq<Event>)
    requires EdgesOk(s.db) && RowsOk(s.db) && TriageOk(s) && a.HalfTriage? && Enabled(s, a)
    ensures Triaging(s.db, a.j) && p == s.db.jobs[a.j].payload.failedJob
    ensures HalfOutcome(s.db, Step(s, a).db, p, a.rid) && (Step(s, a).db != s.db <==> MakesRetry(s.db, p, a.cut))
    ensures s.db.jobs[p].state != Triage ==> (TriageDecision(s.db, p) == RetrySpawned <==> s.db.jobs[p].state == RetrySpawned)
    ensures Step(s, a).db.log == s.db.log + pre && forall i :: 0 <= i < |pre| ==> BirthEvent(pre[i], s.db.jobs[p].Key())
    ensures Step(s, a).seen == s.seen && Step(s, a).judged == s.judged
  {
    hide Step, Enabled, Linked;
    HalfGuard(s, a);
    p := s.db.jobs[a.j].payload.failedJob;
    assert RowOk(s.db, p);
    StructIsLinked(s.db);
    HalfEffect(s, a);
    assert Triaged(s.db, p) && Spent(s.db, p);
    if s.db.jobs[p].state != Triage { HalfDecision(s.db, p); }
    hide TriageOk, RowsOk;
    pre := HalfDb(s.db, p, a.rid, a.warm, a.cut, a.ts);
  }

  lemma HalfGuard(s: Sys, a: Act)
    requires a.HalfTriage? && Enabled(s, a)
    ensures Triaging(s.db, a.j) && a.rid !in s.db.jobs && Step(s, a).seen == s.seen && Step(s, a).judged == s.judged
  {
    hide Exec, Ops, NextPending;
  }

  lemma HalfDb(db: Db, p: JobId, rid: JobId, warm: Option<RunRef>, cut: nat, ts: int) returns (pre: seq<Event>)
    requires EdgesOk(db) && p in db.jobs && rid !in db.jobs && LinkedRow(db, db.jobs[p])
    requires db.jobs[p].state != Triage ==> (TriageDecision(db, p) == RetrySpawned <==> db.jobs[p].state == RetrySpawned)
    ensures var b := AfterHalf(db, p, rid, warm, cut, ts);
      && HalfOutcome(db, b, p, rid) && (b != db <==> MakesRetry(db, p, cut))
      && b.log == db.log + pre && forall i :: 0 <= i < |pre| ==> BirthEvent(pre[i], db.jobs[p].Key())
  {
    var b := AfterHalf(db, p, rid, warm, cut, ts);
    pre := b.log[|db.log|..];
    if MakesRetry(db, p, cut) {
      HalfRows(db, p, rid, warm, cut, ts);
      if db.jobs[p].state == RetrySpawned { NothingToRepoint(db, p, rid); }
      assert rid in b.jobs;
    }
  }

  lemma CutRows(db: Db, p: JobId, rid: JobId, warm: Option<RunRef>, cut: nat, ts: int)
    requires p in db.jobs && rid !in db.jobs && LinkedRow(db, db.jobs[p]) && MakesRetry(db, p, cut) && cut <= 2
    ensures var b := AfterHalf(db, p, rid, warm, cut, ts);
      && b.jobs.Keys == db.jobs.Keys + {rid} && (b.deps == db.deps || b.deps == Requeued(db, p, rid))
      && b.studies == db.studies && b.verdicts == db.verdicts && b.workers == db.workers
      && (forall j <- db.jobs :: b.jobs[j] == db.jobs[j]) && SuccessorOf(db, p, b.jobs[rid])
      && db.log <= b.log && forall i :: |db.log| <= i < |b.log| ==> BirthEvent(b.log[i], db.jobs[p].Key())
  {
    hide Respawned, PermanentFailure, Requeued, AutoRetry, SuccessorRow, LinkedRow, RetryJob, NewRow, Approved_, CreationEvent;
    IsSuccessor(db, db.jobs[p], PolicyOf(db, db.jobs[p].study), p, rid, warm, ts);
    CreationIsBirth(RetryJob(db.jobs[p], PolicyOf(db, db.jobs[p].study), p, rid, warm, ts), db.jobs[p].Key());
  }

  lemma CreationIsBirth(n: NewJob, key: Option<CaseKey>)
    ensures BirthEvent(CreationEvent(n), key)
  {}

  lemma HalfRows(db: Db, p: JobId, rid: JobId, warm: Option<RunRef>, cut: nat, ts: int)
    requires p in db.jobs && rid !in db.jobs && LinkedRow(db, db.jobs[p]) && MakesRetry(db, p, cut)
    ensures var b := AfterHalf(db, p, rid, warm, cut, ts);
      && b.jobs.Keys == db.jobs.Keys + {rid} && (b.deps == db.deps || b.deps == Requeued(db, p, rid))
      && b.studies == db.studies && b.verdicts == db.verdicts && b.workers == db.workers
      && (forall j <- db.jobs :: b.jobs[j] == db.jobs[j]) && SuccessorOf(db, p, b.jobs[rid])
      && db.log <= b.log && forall i :: |db.log| <= i < |b.log| ==> BirthEvent(b.log[i], db.jobs[p].Key())
  {
    hide Respawned, SuccessorRow, LinkedRow, Requeued, BirthEvent, PermanentFailure, RetryJob, AutoRetry, NewRow, Approved_;
    if cut > 2 {
      RespawnedRows(db, p, rid, warm, ts);
      var _ := RespawnedLog(db, p, rid, warm, ts);
    } else {
      CutRows(db, p, rid, warm, cut, ts);
    }
  }

  lemma HalfKeeps(a: Db, b: Db, p: JobId, rid: JobId)
    requires Struct(a) && HalfOutcome(a, b, p, rid)
    ensures Struct(b)
  {
    if b != a { AddsKeeps(a, b, p, rid); }
  }
}
