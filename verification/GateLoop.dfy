/**
 apply_verdict_gates over the store. Whatever the other processes do between its rows and between the two calls of a row,
 every CHECK it selected ends accepted; if they do nothing, the phase does what Control says.
 */
module GateLoop {
  import opened Wrappers
  import opened Rows
  import opened Sets
  import opened Substrate
  import opened Protocol
  import opened Effects
  import opened EventLog
  import opened Structure
  import opened History
  import opened Readiness
  import opened Control
  import opened ControlEnds
  import opened Storage
  import opened Interference
  import opened Phases
  import Columns

  /******* One CHECK *******/

  // Moved on by the first call, if there is one
  function Mid(db: Db, c: JobId, up: Option<JobId>, now: int): Db
    requires Checked(db, c) && (up.Some? ==> up.value in db.jobs)
  {
    if up.Some? && db.jobs[up.value].state == Succeeded then Move(db, GateUp(db, c, up.value, now)) else db
  }

  // What the loop's two calls make of the tables: the upstream goes where the verdict sends it, if it waits, and c is accepted.
  function Gated(db: Db, c: JobId, up: Option<JobId>, now: int): Db
    requires Checked(db, c) && (up.Some? ==> up.value in db.jobs)
  {
    Move(Mid(db, c, up, now), GateSelf(c, now))
  }

  // The steps of the protocol a turn makes
  function GateActs(db: Db, c: JobId, up: Option<JobId>, now: int): seq<Act>
    requires c in db.jobs && (up.Some? ==> up.value in db.jobs)
  {
    (if up.Some? && db.jobs[up.value].state == Succeeded then [GateUpstream(c, up.value, now)] else [])
    + if db.jobs[c].state == Succeeded then [GateCheck(c, now)] else []
  }

  // A CHECK has one upstream, so it does not matter which row the query returns first.
  lemma OnlyUpstream(db: Db, c: JobId, up: Option<JobId>)
    requires EdgesOk(db) && EdgePairs(db) && c in db.jobs && db.jobs[c].jtype == CHECK && IsUpstream(db, c, up)
    ensures forall d <- db.deps :: d.job == c ==> Some(d.on) == up
    ensures up.Some? ==>
      up.value in db.jobs && db.jobs[up.value].jtype == ANALYSIS && Dep(c, up.value) in db.deps && up.value != c
  {
    if up.Some? { assert EdgeOk(db, Dep(c, up.value)); }
    forall d <- db.deps | d.job == c ensures Some(d.on) == up {
      assert EdgeOk(db, d);
      assert up.Some? ==> Dep(c, up.value) in db.deps;
    }
  }

  // The first call, when it is made, is not refused, and after it the upstream does not wait any more.
  lemma FirstCall(s: Sys, c: JobId, up: Option<JobId>, now: int)
    requires Checked(s.db, c) && up.Some? && Dep(c, up.value) in s.db.deps && up.value in s.db.jobs
    requires s.db.jobs[up.value].state == Succeeded
    ensures var q, a := GateUp(s.db, c, up.value, now), GateUpstream(c, up.value, now);
      Enabled(s, a) && SingleMove(s.db, a) == Some(q) && MoveRefusal(s.db, q).None?
  {}

  // The second call is accepted exactly if the CHECK still waits, and it is then a step of the protocol.
  lemma SecondCall(s: Sys, c: JobId, now: int)
    requires Checked(s.db, c) && UpstreamMoved(s.db, c)
    ensures var q, a := GateSelf(c, now), GateCheck(c, now);
      && SingleMove(s.db, a) == Some(q)
      && MoveRefusal(s.db, q) == (if s.db.jobs[c].state == Succeeded then None else Some(StaleState))
      && (s.db.jobs[c].state == Succeeded ==> Enabled(s, a)) && Move(s.db, q).jobs[c].state == Accepted
  {}

  lemma Sent_(db: Db, c: JobId, up: Option<JobId>, now: int)
    requires Checked(db, c) && up.Some? && up.value in db.jobs && db.jobs[up.value].state == Succeeded && up.value != c
    requires forall d <- db.deps :: d.job == c ==> Some(d.on) == up
    ensures var b := Move(db, GateUp(db, c, up.value, now));
      b.jobs[c] == db.jobs[c] && UpstreamMoved(b, c) && |b.log| == |db.log| + 1
  {}

  lemma FirstTurn(s: Sys, c: JobId, up: Option<JobId>, now: int) returns (acts: seq<Act>)
    requires Inv(s) && Checked(s.db, c) && IsUpstream(s.db, c, up)
    ensures up.Some? ==> up.value in s.db.jobs
    ensures acts == if up.Some? && s.db.jobs[up.value].state == Succeeded then [GateUpstream(c, up.value, now)] else []
    ensures var mid := Mid(s.db, c, up, now);
      && Sys(mid, s.seen, s.judged, s.pending) == Run(s, acts) && mid.jobs.Keys == s.db.jobs.Keys && c in mid.jobs
      && mid.jobs[c] == s.db.jobs[c]
      && Checked(mid, c) && UpstreamMoved(mid, c)
      && (acts != [] ==> MoveRefusal(s.db, GateUp(s.db, c, up.value, now)).None? && |mid.log| == |s.db.log| + 1)
  {
    hide Step, Enabled, SingleMove, Move, MoveRefusal, Inv, UpstreamMoved, IsUpstream, EdgesOk, EdgePairs;
    StructParts(s);
    OnlyUpstream(s.db, c, up);
    if up.Some? && s.db.jobs[up.value].state == Succeeded {
      var a := GateUpstream(c, up.value, now);
      FirstCall(s, c, up, now);
      MoveStep(s, a, GateUp(s.db, c, up.value, now));
      Sent_(s.db, c, up, now);
      CheckedStep(s, a, c);
      MoveFrame(s.db, GateUp(s.db, c, up.value, now));
      RunOne(s, a);
      acts := [a];
    } else {
      NoneWaits(s.db, c, up);
      acts := [];
    }
  }

  lemma GateTurn(s: Sys, c: JobId, up: Option<JobId>, now: int)
    requires Inv(s) && Checked(s.db, c) && IsUpstream(s.db, c, up)
    ensures up.Some? ==> up.value in s.db.jobs
    ensures Sys(Gated(s.db, c, up, now), s.seen, s.judged, s.pending) == Run(s, GateActs(s.db, c, up, now))
    ensures Gated(s.db, c, up, now).jobs.Keys == s.db.jobs.Keys && Gated(s.db, c, up, now).jobs[c].state == Accepted
    ensures var mid := Mid(s.db, c, up, now);
      && (mid != s.db ==> up.Some? && s.db.jobs[up.value].state == Succeeded)
      && (up.Some? && s.db.jobs[up.value].state == Succeeded ==>
            MoveRefusal(s.db, GateUp(s.db, c, up.value, now)).None? && |mid.log| == |s.db.log| + 1)
      && (MoveRefusal(mid, GateSelf(c, now)).None? <==> s.db.jobs[c].state == Succeeded)
      && |Gated(s.db, c, up, now).log| == |mid.log| + if s.db.jobs[c].state == Succeeded then 1 else 0
  {
    hide Step;
    hide Enabled, SingleMove, Move, MoveRefusal, Inv, UpstreamMoved, IsUpstream;
    var first := FirstTurn(s, c, up, now);
    var mid, a, q := Run(s, first), GateCheck(c, now), GateSelf(c, now);
    SecondCall(mid, c, now);
    MoveFrame(mid.db, q);
    if s.db.jobs[c].state == Succeeded {
      MoveStep(mid, a, q);
      RunPush(s, first, a);
      hide Run;
      assert first + [a] == GateActs(s.db, c, up, now);
    } else {
      MoveFrame(mid.db, q);
      hide Run;
      assert first + [] == GateActs(s.db, c, up, now) && first == first + [];
    }
  }

  lemma StructParts(s: Sys)
    requires Inv(s)
    ensures EdgesOk(s.db) && EdgePairs(s.db)
  {}

  lemma NoneWaits(db: Db, c: JobId, up: Option<JobId>)
    requires (forall d <- db.deps :: d.job == c ==> Some(d.on) == up)
    requires up.Some? ==> up.value in db.jobs && db.jobs[up.value].state != Succeeded
    ensures UpstreamMoved(db, c)
  {}

  /******* With nobody else at work *******/
  ghost predicate GateRow(a: Db, row: Job, j: JobId, done: set<JobId>)
    requires j in a.jobs
  {
    if j in done then row == Moving(a.jobs[j], Accepted)
    else if a.jobs[j].state == Succeeded && !Graded(a, j) && GatedBy(a, j, done) then Sent(a, row, j, done)
    else row == a.jobs[j]
  }

  ghost predicate GateState(a: Db, b: Db, done: set<JobId>) {
    && OnlyRows(a, b) && b.jobs.Keys == a.jobs.Keys && (forall j <- a.jobs :: GateRow(a, b.jobs[j], j, done))
    && a.log <= b.log && |b.log| >= |a.log| + |done| && (done == {} ==> b == a)
  }

  ghost predicate GateUnderway(s0: Sys, s: Sys, acts: seq<Act>, done: set<JobId>) {
    Progressed(s0, s, acts) && GateState(s0.db, s.db, done) && done <= GradedChecks(s0.db)
  }


  lemma StartGate(s: Sys)
    requires Inv(s)
    ensures GateUnderway(s, s, [], {})
  {
    hide Step, Inv;
  }

  lemma GateMoves(db: Db, c: JobId, up: Option<JobId>, ts: int)
    requires EdgesOk(db) && Graded(db, c) && IsUpstream(db, c, up)
    ensures var b := Gated(db, c, up, ts);
      && OnlyRows(db, b) && b.jobs.Keys == db.jobs.Keys && b.jobs[c] == Moving(db.jobs[c], Accepted)
      && (forall j <- db.jobs :: j != c && Some(j) != up ==> b.jobs[j] == db.jobs[j])
      && (up.Some? ==>
            && up.value != c && db.jobs[up.value].jtype == ANALYSIS && Dep(c, up.value) in db.deps
            && if db.jobs[up.value].state == Succeeded
              then b.jobs[up.value] == MovedRow(db.jobs[up.value], GateUp(db, c, up.value, 0))
               else b.jobs[up.value] == db.jobs[up.value])
      && db.log <= b.log && |b.log| == |db.log| + if up.Some? && db.jobs[up.value].state == Succeeded then 2 else 1
  {
    if up.Some? { assert EdgeOk(db, Dep(c, up.value)); }
    var two := up.Some? && db.jobs[up.value].state == Succeeded;
    var mid := Mid(db, c, up, ts);
    if two {
      GateMove(db, GateUp(db, c, up.value, ts));
      assert MovedRow(db.jobs[up.value], GateUp(db, c, up.value, ts)) == MovedRow(db.jobs[up.value], GateUp(db, c, up.value, 0));
    }
    GateMove(mid, GateSelf(c, ts));
    hide Move, MovedRow, EdgesOk, EdgeOk;
  }

  // One of the gate's moves
  lemma GateMove(db: Db, q: Request)
    requires q.job in db.jobs && db.jobs[q.job].state == Succeeded && q.to in {Accepted, Review}
    requires q.expected == Some(Succeeded) && q.actor == Agent
    requires q.lease.None? && q.runRef.None?
    ensures var b := Move(db, q);
      && OnlyRows(db, b) && b.jobs == db.jobs[q.job := MovedRow(db.jobs[q.job], q)] && |b.log| == |db.log| + 1 && db.log <= b.log
    ensures SameColumns(db.jobs[q.job], MovedRow(db.jobs[q.job], q)) && MovedRow(db.jobs[q.job], q).state == q.to
    ensures q.verdict.None? && q.to == Accepted ==> MovedRow(db.jobs[q.job], q) == Moving(db.jobs[q.job], Accepted)
  {}

  lemma GateStepRows(a: Db, b: Db, done: set<JobId>, c: JobId, up: Option<JobId>, now: int)
    requires EdgesOk(b) && EdgePairs(b) && GateState(a, b, done) && done <= GradedChecks(a) && c in GradedChecks(a) && c !in done
    requires Graded(b, c) && IsUpstream(b, c, up)
    ensures GateState(a, Gated(b, c, up, now), done + {c})
  {
    hide Gated, IsUpstream, GateRow, EdgesOk, EdgePairs, Moving, MovedRow, GateUp;
    GateMoves(b, c, up, now);
    OnlyUpstream(b, c, up);
    var after := Gated(b, c, up, now);
    assert Graded(a, c);
    hide Graded;
    forall j <- a.jobs ensures GateRow(a, after.jobs[j], j, done + {c}) {
      assert GateRow(a, b.jobs[j], j, done);
      if j == c {
        SelectedRow(a, b.jobs[c], c, done);
      } else if Some(j) == up {
        SelectedRow(a, b.jobs[c], c, done);
        UpstreamRow(a, b, after.jobs[j], done, c, j);
      } else {
        OtherRow(a, b.jobs[j], j, done, c);
      }
    }
  }

  lemma SelectedRow(a: Db, row: Job, c: JobId, done: set<JobId>)
    requires Graded(a, c) && c !in done && GateRow(a, row, c, done)
    ensures row == a.jobs[c] && GateRow(a, Moving(row, Accepted), c, done + {c})
  {}

  // A row the turn does not concern
  lemma OtherRow(a: Db, row: Job, j: JobId, done: set<JobId>, c: JobId)
    requires j in a.jobs && j != c && GateRow(a, row, j, done) && Dep(c, j) !in a.deps
    ensures GateRow(a, row, j, done + {c})
  {
    SentGrows(a, row, j, done, c);
    assert GatedBy(a, j, done + {c}) == GatedBy(a, j, done);
  }

  lemma SentGrows(a: Db, row: Job, j: JobId, done: set<JobId>, c: JobId)
    requires j in a.jobs
    ensures Sent(a, row, j, done) ==> Sent(a, row, j, done + {c})
  {}

  // The upstream: still as selected and sent by this CHECK, or not waiting any more
  lemma UpstreamRow(a: Db, b: Db, row: Job, done: set<JobId>, c: JobId, j: JobId)
    requires j in a.jobs && j in b.jobs && j != c && GateRow(a, b.jobs[j], j, done) && done <= GradedChecks(a)
    requires OnlyRows(a, b) && Graded(a, c) && Graded(b, c) && b.jobs[c] == a.jobs[c] && Dep(c, j) in b.deps
    requires b.jobs[j].jtype == ANALYSIS
    requires row == if b.jobs[j].state == Succeeded then MovedRow(b.jobs[j], GateUp(b, c, j, 0)) else b.jobs[j]
    ensures GateRow(a, row, j, done + {c})
  {
    assert GateUp(b, c, j, 0) == GateUp(a, c, j, 0);
    SentGrows(a, row, j, done, c);
    if a.jobs[j].state == Succeeded && !Graded(a, j) && GatedBy(a, j, done) {
      SentRow(a, b.jobs[j], j, done);
    }
    hide GateUp, MovedRow;
  }

  lemma FinishGate(s0: Sys, s: Sys, acts: seq<Act>)
    requires GateUnderway(s0, s, acts, GradedChecks(s0.db))
    ensures GatesApplied(s0, s, acts)
  {
    hide Progressed, GateState, GatePhase;
    GateIsPhase(s0.db, s.db);
  }

  lemma GateIsPhase(a: Db, b: Db)
    requires GateState(a, b, GradedChecks(a))
    ensures GatePhase(a, b)
  {
    forall j <- a.jobs ensures GateRow(a, b.jobs[j], j, GradedChecks(a)) {}
  }

  ghost predicate GatesApplied(s0: Sys, s: Sys, acts: seq<Act>) { Progressed(s0, s, acts) && GatePhase(s0.db, s.db) }

  lemma GateStep(s0: Sys, s: Sys, acts: seq<Act>, done: set<JobId>, c: JobId, up: Option<JobId>, now: int)
    requires GateUnderway(s0, s, acts, done) && c in GradedChecks(s0.db) && c !in done && Checked(s.db, c)
    requires IsUpstream(s.db, c, up)
    ensures (up.Some? ==> up.value in s.db.jobs) && s.db.jobs[c].state == Succeeded
    ensures GateUnderway(s0, Sys(Gated(s.db, c, up, now), s.seen, s.judged, s.pending),
      acts + GateActs(s.db, c, up, now), done + {c})
  {
    hide Run, Gated, Inv, IsUpstream, GateState, GateActs, GradedChecks;
    GateReads(s0, s, acts, done, c);
    GateTurn(s, c, up, now);
    OwnActs(s.db, c, up, now);
    OthersMove(s0, s, acts, GateActs(s.db, c, up, now));
    StructParts(s);
    GateRows(s0.db, s.db, done, c, up, now);
  }

  lemma GateRows(a: Db, b: Db, done: set<JobId>, c: JobId, up: Option<JobId>, now: int)
    requires EdgesOk(b) && EdgePairs(b) && GateState(a, b, done) && done <= GradedChecks(a) && c in GradedChecks(a) && c !in done
    requires Graded(b, c) && IsUpstream(b, c, up)
    ensures GateState(a, Gated(b, c, up, now), done + {c}) && done + {c} <= GradedChecks(a)
  {
    hide *;
    GateStepRows(a, b, done, c, up, now);
  }

  lemma OwnActs(db: Db, c: JobId, up: Option<JobId>, now: int)
    requires c in db.jobs && (up.Some? ==> up.value in db.jobs)
    ensures forall a <- GateActs(db, c, up, now) :: ControlAct(a)
  {}

  // What the loop reads of a CHECK it has not come to yet is what was selected.
  lemma GateReads(s0: Sys, s: Sys, acts: seq<Act>, done: set<JobId>, c: JobId)
    requires GateUnderway(s0, s, acts, done) && c in GradedChecks(s0.db) && c !in done
    ensures c in s0.db.jobs && c in s.db.jobs && s.db.jobs[c] == s0.db.jobs[c] && Graded(s.db, c)
  {
    hide Progressed;
    assert GateRow(s0.db, s.db.jobs[c], c, done);
  }

  /******* With others at work *******/

  // Part of the work is done: the CHECKs selected carry their verdicts, those done are accepted.
  ghost predicate Gating(s0: Sys, s: Sys, acts: seq<Act>, done: set<JobId>, quiet: bool) {
    && Ran(s0, s, acts) && done <= GradedChecks(s0.db)
    && (forall c <- GradedChecks(s0.db) :: Carries(s0.db, s.db, c))
    && (forall c <- done :: IsAccepted(s.db, c))
    && (quiet ==> GateUnderway(s0, s, acts, done))
  }

  predicate IsAccepted(db: Db, c: JobId) { c in db.jobs && db.jobs[c].state == Accepted }

  lemma StartGating(s: Sys, quiet: bool)
    requires Inv(s)
    ensures Gating(s, s, [], {}, quiet)
  {
    hide Ran, GateState;
    StartGate(s);
    forall c <- GradedChecks(s.db) ensures Carries(s.db, s.db, c) {}
  }

  // Steps of anybody leave verdicts and acceptances alone.
  lemma GatesHold(s0: Sys, s: Sys, acts: seq<Act>, done: set<JobId>, quiet: bool, more: seq<Act>)
    requires Gating(s0, s, acts, done, quiet)
    ensures Ran(s0, Run(s, more), acts + more) && (more == [] ==> Run(s, more) == s && acts + more == acts)
    ensures (forall c <- GradedChecks(s0.db) :: Carries(s0.db, Run(s, more).db, c))
    ensures forall c <- done :: IsAccepted(Run(s, more).db, c)
  {
    hide Run, Inv, GateUnderway, GradedChecks;
    OthersMove(s0, s, acts, more);
    forall c <- GradedChecks(s0.db)
      ensures Carries(s0.db, Run(s, more).db, c) && (IsAccepted(s.db, c) ==> IsAccepted(Run(s, more).db, c))
    {
      assert Carries(s0.db, s.db, c);
      CheckedRun(s, more, c);
    }
  }

  lemma OthersGate(s0: Sys, s: Sys, acts: seq<Act>, done: set<JobId>, quiet: bool, others: seq<Act>)
    requires Gating(s0, s, acts, done, quiet) && (quiet ==> others == [])
    ensures Gating(s0, Run(s, others), acts + others, done, quiet) && (others == [] ==> Run(s, others) == s)
  {
    hide Ran, Step;
    GatesHold(s0, s, acts, done, quiet, others);
    hide Run, GateUnderway, Carries, GradedChecks;
  }

  // What the loop read when it selected c is what it would read now.
  lemma GateSelection(s0: Sys, s: Sys, acts: seq<Act>, done: set<JobId>, quiet: bool, c: JobId)
    requires Gating(s0, s, acts, done, quiet) && c in GradedChecks(s0.db)
    ensures Inv(s) && Carries(s0.db, s.db, c) && forall d <- s.db.deps :: d.on in s.db.jobs
  {
    StructIsLinked(s.db);
    hide Run, GateUnderway;
  }

  lemma FirstRequest(db: Db, c: JobId, u: JobId, now: int)
    requires Checked(db, c)
    ensures var v := db.jobs[c].verdict.value; var level, policy := db.verdicts[v].level, PolicyOf(db, db.jobs[c].study);
      GateUp(db, c, u, now)
      == Plain(u, if level == policy.autoLevel && level !in policy.gateOn then Accepted else Review, Agent,
        Some(Succeeded), now).(verdict := Some(v))
  {}

  lemma FirstHalf(s0: Sys, s: Sys, acts: seq<Act>, done: set<JobId>, c: JobId, up: Option<JobId>, now: int)
    returns (first: seq<Act>)
    requires Gating(s0, s, acts, done, false) && c in GradedChecks(s0.db) && IsUpstream(s.db, c, up) && Checked(s.db, c)
    ensures up.Some? ==> up.value in s.db.jobs
    ensures first == if up.Some? && s.db.jobs[up.value].state == Succeeded then [GateUpstream(c, up.value, now)] else []
    ensures var m := Sys(Mid(s.db, c, up, now), s.seen, s.judged, s.pending);
      && m == Run(s, first) && Gating(s0, m, acts + first, done, false) && UpstreamMoved(m.db, c)
      && m.db.jobs.Keys == s.db.jobs.Keys
      && (first != [] ==> MoveRefusal(s.db, GateUp(s.db, c, up.value, now)).None?)
  {
    hide Inv;
    hide Run, IsUpstream, GradedChecks, Carries, Mid, MoveRefusal, UpstreamMoved, Ran;
    RanInv(s0, s, acts);
    first := FirstTurn(s, c, up, now);
    GatesHold(s0, s, acts, done, false, first);
    hide GateUnderway;
  }

  lemma SecondHalf(s0: Sys, m: Sys, acts: seq<Act>, done: set<JobId>, c: JobId, now: int)
    requires Gating(s0, m, acts, done, false) && c in GradedChecks(s0.db) && Checked(m.db, c) && UpstreamMoved(m.db, c)
    ensures var second := if m.db.jobs[c].state == Succeeded then [GateCheck(c, now)] else [];
      var t := Sys(Move(m.db, GateSelf(c, now)), m.seen, m.judged, m.pending);
      && t == Run(m, second) && Gating(s0, t, acts + second, done + {c}, false) && t.db.jobs.Keys == m.db.jobs.Keys
      && (MoveRefusal(m.db, GateSelf(c, now)).None? <==> m.db.jobs[c].state == Succeeded)
  {
    hide Step;
    hide Run, GradedChecks, Carries, Move, MoveRefusal, UpstreamMoved, Ran, Enabled, SingleMove;
    var a, q := GateCheck(c, now), GateSelf(c, now);
    SecondCall(m, c, now);
    MoveFrame(m.db, q);
    if m.db.jobs[c].state == Succeeded {
      MoveStep(m, a, q);
      RunOne(m, a);
      GatesHold(s0, m, acts, done, false, [a]);
    } else {
      MoveFrame(m.db, q);
      GatesHold(s0, m, acts, done, false, []);
    }
    hide GateUnderway;
  }

  // With nobody else at work the turn is one piece.
  lemma QuietTurn(s0: Sys, s: Sys, acts: seq<Act>, done: set<JobId>, c: JobId, up: Option<JobId>, now: int)
    requires Gating(s0, s, acts, done, true) && c in GradedChecks(s0.db) && c !in done && Checked(s.db, c)
    requires IsUpstream(s.db, c, up)
    ensures (up.Some? ==> up.value in s.db.jobs) && s.db.jobs[c].state == Succeeded
    ensures GateUnderway(s0, Sys(Move(Mid(s.db, c, up, now), GateSelf(c, now)), s.seen, s.judged, s.pending),
      acts + GateActs(s.db, c, up, now), done + {c})
    ensures Mid(s.db, c, up, now).jobs.Keys == s.db.jobs.Keys && Mid(s.db, c, up, now).jobs[c].state == Succeeded
    ensures |Mid(s.db, c, up, now).log| == |s.db.log| + if up.Some? && s.db.jobs[up.value].state == Succeeded then 1 else 0
    ensures |Move(Mid(s.db, c, up, now), GateSelf(c, now)).log| == |Mid(s.db, c, up, now).log| + 1
  {
    hide Run, GateUnderway, Mid, GateActs, IsUpstream, GradedChecks, Carries, Move, MoveRefusal, Ran;
    RanInv(s0, s, acts);
    GateStep(s0, s, acts, done, c, up, now);
    var _ := FirstTurn(s, c, up, now);
    GateTurn(s, c, up, now);
    MidLog(s.db, c, up, now);
  }

  lemma MidLog(db: Db, c: JobId, up: Option<JobId>, now: int)
    requires Checked(db, c) && (up.Some? ==> up.value in db.jobs)
    ensures !(up.Some? && db.jobs[up.value].state == Succeeded) ==> Mid(db, c, up, now) == db
  {}

  lemma Weaken(s0: Sys, s: Sys, acts: seq<Act>, done: set<JobId>, quiet: bool)
    requires Gating(s0, s, acts, done, quiet)
    ensures Gating(s0, s, acts, done, false)
  {
    hide GateUnderway, Ran;
  }

  lemma OnePiece(db: Db, past: seq<Act>, c: JobId, up: Option<JobId>, now: int, first: seq<Act>, acts: seq<Act>)
    requires c in db.jobs && (up.Some? ==> up.value in db.jobs) && db.jobs[c].state == Succeeded
    requires first == if up.Some? && db.jobs[up.value].state == Succeeded then [GateUpstream(c, up.value, now)] else []
    requires acts == past + first + [] + [GateCheck(c, now)]
    ensures acts == past + GateActs(db, c, up, now)
  {
    assert past + first + [] + [GateCheck(c, now)] == past + (first + [GateCheck(c, now)]);
  }

  // One turn of the loop. The upstream first, so that a crash in between is healed by the next tick; a lost race is no error.
  method GateOne(
    store: Store, rows: map<JobId, Job>, verdicts: map<VerdictId, Verdict>, c: JobId, now: int, others: seq<Act>,
      between: seq<Act>,
    ghost s0: Sys, ghost past: seq<Act>, ghost done: set<JobId>, ghost quiet: bool)
    returns (n: nat, ghost acts: seq<Act>)
    requires Gating(s0, store.Sys(), past, done, quiet) && (quiet ==> others == [] && between == [])
    requires c in GradedChecks(s0.db) && c !in done
    requires rows == s0.db.jobs && verdicts == s0.db.verdicts && store.Fresh()
    modifies store
    ensures Gating(s0, store.Sys(), acts, done + {c}, quiet) && store.Fresh()
    ensures quiet ==> |store.log| == |old(store.log)| + n
  {
    hide Run, Inv, GateUnderway, Move, IsUpstream, MoveRefusal, GateActs, Gating, GateUp, GradedChecks, UpstreamMoved, Ran;
    n := 0;
    ghost var first;
    OthersGate(s0, store.Sys(), past, done, quiet, others);
    store.Interfere(others);
    ghost var s := store.Sys();
    GateSelection(s0, s, past + others, done, quiet, c);
    var v := rows[c].verdict.value;
    var level, policy := verdicts[v].level, PolicyOf(store.Db(), rows[c].study);
    var up := FetchUpstream(store, c);
    Weaken(s0, s, past + others, done, quiet);
    first := FirstHalf(s0, s, past + others, done, c, up, now);
    if quiet { QuietTurn(s0, s, past + others, done, c, up, now); }
    FirstRequest(s.db, c, if up.Some? then up.value else c, now);
    if up.Some? && store.jobs[up.value].state == Succeeded {
      var to := if level == policy.autoLevel && level !in policy.gateOn then Accepted else Review;
      var refusal := store.Transition(Plain(up.value, to, Agent, Some(Succeeded), now).(verdict := Some(v)));
      if refusal.None? { n := n + 1; }
    }
    ghost var made := n;
    var m;
    m, acts := GateSelfOne(store, c, now, between, s0, past + others + first, done);
    n := n + m;
    if quiet { OnePiece(s.db, past + others, c, up, now, first, acts); JoinGating(s0, store.Sys(), acts, done + {c}); }
  }

  lemma JoinGating(s0: Sys, s: Sys, acts: seq<Act>, done: set<JobId>)
    requires Gating(s0, s, acts, done, false) && GateUnderway(s0, s, acts, done)
    ensures Gating(s0, s, acts, done, true)
  {
    hide Progressed, Ran, GateState;
  }

  // The second call, some time after the first
  method GateSelfOne(
    store: Store, c: JobId, now: int, between: seq<Act>, ghost s0: Sys, ghost past: seq<Act>, ghost done: set<JobId>)
    returns (n: nat, ghost acts: seq<Act>)
    requires Gating(s0, store.Sys(), past, done, false) && c in GradedChecks(s0.db) && UpstreamMoved(store.Db(), c)
    requires store.Fresh()
    modifies store
    ensures Gating(s0, store.Sys(), acts, done + {c}, false) && store.Fresh() && c in old(store.jobs)
    ensures between == [] && old(store.jobs)[c].state == Succeeded ==>
      acts == past + [] + [GateCheck(c, now)] && n == 1 &&
        store.Sys() == Sys(Move(old(store.Db()), GateSelf(c, now)), old(store.seen), old(store.judged), old(store.pending))
  {
    hide Run, Inv, GateUnderway, Move, MoveRefusal, Gating, GradedChecks, UpstreamMoved, Ran;
    ghost var s := store.Sys();
    GateSelection(s0, s, past, done, false, c);
    OthersGate(s0, s, past, done, false, between);
    UpstreamRun(s, between, c);
    store.Interfere(between);
    ghost var m := store.Sys();
    GateSelection(s0, m, past + between, done, false, c);
    SecondHalf(s0, m, past + between, done, c, now);
    var refusal := store.Transition(Plain(c, Accepted, Agent, Some(Succeeded), now));
    n := if refusal.None? then 1 else 0;
    acts := past + between + if m.db.jobs[c].state == Succeeded then [GateCheck(c, now)] else [];
  }

  // SELECT u.id FROM job_dep JOIN job ...: whichever row comes first
  method FetchUpstream(store: Store, c: JobId) returns (up: Option<JobId>)
    requires forall d <- store.deps :: d.on in store.jobs
    ensures IsUpstream(store.Db(), c, up)
  {
    var found := set d | d in store.deps && d.job == c;
    if found == {} {
      forall d <- store.deps ensures d.job != c { assert d !in found; }
      return None;
    }
    var d := Choose(found);
    assert d == Dep(c, d.on);
    return Some(d.on);
  }

  // Every CHECK selected is accepted; n transitions were made.
  ghost predicate GatesDone(s0: Sys, s: Sys, acts: seq<Act>, n: nat, quiet: bool) {
    && Ran(s0, s, acts) && (forall c <- GradedChecks(s0.db) :: IsAccepted(s.db, c))
    && (quiet ==> GatesApplied(s0, s, acts) && |s.db.log| == |s0.db.log| + n)
  }

  lemma FinishGating(s0: Sys, s: Sys, acts: seq<Act>, n: nat, quiet: bool)
    requires Gating(s0, s, acts, GradedChecks(s0.db), quiet) && (quiet ==> |s.db.log| == |s0.db.log| + n)
    ensures GatesDone(s0, s, acts, n, quiet)
  {
    hide Run, Inv;
    if quiet { FinishGate(s0, s, acts); }
    hide GateUnderway, GatesApplied;
  }

  method ApplyVerdictGates(store: Store, now: int, others: Others) returns (n: nat, ghost acts: seq<Act>)
    requires Inv(store.Sys()) && store.Fresh()
    modifies store
    ensures GatesDone(old(store.Sys()), store.Sys(), acts, n, Quiet(others)) && store.Fresh()
    ensures Quiet(others) ==> Columns.RowsGated(old(store.Db()), store.jobs)
  {
    hide Columns.RowsGated;
    hide Run, Step, Inv, Gating, GradedChecks, GatesDone;
    ghost var s0, quiet := store.Sys(), Quiet(others);
    var rows, verdicts := store.jobs, store.verdicts;
    var todo, i: nat := GradedChecks(store.Db()), 0;
    ghost var done: set<JobId> := {};
    n, acts := 0, [];
    StartGating(s0, quiet);
    while todo != {}
      invariant done !! todo && done + todo == GradedChecks(s0.db) && Gating(s0, store.Sys(), acts, done, quiet)
      invariant store.Fresh() && (quiet ==> |store.log| == |s0.db.log| + n)
    {
      var c := Choose(todo);
      var m;
      m, acts := GateOne(store, rows, verdicts, c, now, others(2 * i), others(2 * i + 1), s0, acts, done, quiet);
      i, done, todo := i + 1, done + {c}, todo - {c};
      n := n + m;
    }
    FinishGating(s0, store.Sys(), acts, n, quiet);
    if quiet { GatedColumns(s0, store.Sys(), acts, n); }
  }

  lemma GatedColumns(s0: Sys, s: Sys, acts: seq<Act>, n: nat)
    requires Inv(s0) && GatesDone(s0, s, acts, n, true)
    ensures Columns.RowsGated(s0.db, s.db.jobs)
  {
    StructIsLinked(s0.db);
    hide Inv, Progressed, GatePhase, Columns.RowsGated;
    GateColumns(s0.db, s.db);
  }
}
