/**
 What a control loop may rely on while it works through rows it has selected before: the part of each selection that no
 other process can undo. A compare-and-set that comes too late is then harmless, because the row has been moved on.
 */
module Interference {
  import opened Wrappers
  import opened Rows
  import opened Substrate
  import opened Protocol
  import opened Effects
  import opened EventLog
  import opened Structure
  import opened History
  import opened Readiness
  import opened Steps
  import opened Control
  import opened Lineage

  // What the other processes do before the n-th row of a phase
  type Others = nat -> seq<Act>

  ghost predicate Quiet(others: Others) { forall n :: others(n) == [] }

  /******* Rows of the phases that move one job at a time *******/

  // The row has been moved on, by whoever came first.
  predicate Past(c: Chore, s: JobState) {
    match c
    case Enqueueing => s !in {Proposed, Approved}
    case Accepting => s in {Review, Accepted, Rejected}
    case _ => true
  }

  // What stays of the reason for which a phase selected j
  ghost predicate Held(c: Chore, db: Db, j: JobId) {
    && j in db.jobs
    && match c
       case Reaping => true
       case Enqueueing => db.jobs[j].state != Proposed
       case Accepting => db.jobs[j].jtype in {TRIAGE, REPORT} && (db.jobs[j].state == Succeeded || Past(c, db.jobs[j].state))
       case Cancelling =>
         db.jobs[j].jtype != REPORT && exists d <- db.deps :: d.job == j && d.on in db.jobs && Dead(db.jobs[d.on].state)
  }

  lemma HeldRows(db: Db, b: Db, c: Chore, j: JobId)
    requires RowsStep(db, b) && Held(c, db, j)
    ensures Held(c, b, j) && SameColumns(db.jobs[j], b.jobs[j]) && (Past(c, db.jobs[j].state) ==> Past(c, b.jobs[j].state))
  {
    assert RowStep(db.jobs[j], b.jobs[j]);
    if c.Cancelling? {
      var d :| d in db.deps && d.job == j && d.on in db.jobs && Dead(db.jobs[d.on].state);
      assert RowStep(db.jobs[d.on], b.jobs[d.on]);
      StaysDead(db.jobs[d.on], b.jobs[d.on]);
      assert d in b.deps;
    } else {
      hide RowsStep;
    }
  }

  lemma StaysDead(r: Job, q: Job)
    requires RowStep(r, q) && Dead(r.state)
    ensures Dead(q.state)
  {}

  // Whatever the others do, what was selected is still held, and what was past is past.
  lemma {:induction false} HeldRun(s: Sys, acts: seq<Act>, c: Chore, j: JobId)
    requires Inv(s) && Held(c, s.db, j)
    ensures Held(c, Run(s, acts).db, j) && SameColumns(s.db.jobs[j], Run(s, acts).db.jobs[j])
    ensures Past(c, s.db.jobs[j].state) ==> Past(c, Run(s, acts).db.jobs[j].state)
  {
    hide Origin;
    hide Step, Enabled, Inv, Held, Past;
    if acts == [] {
      HeldIsThere(s.db, c, j);
    } else {
      var m, a := Run(s, acts[..|acts| - 1]), acts[|acts| - 1];
      HeldRun(s, acts[..|acts| - 1], c, j);
      InvRun(s, acts[..|acts| - 1]);
      if Enabled(m, a) {
        StepSummary(m, a);
        HeldRows(m.db, Step(m, a).db, c, j);
      } else {
        Disabled(m, a);
      }
    }
  }

  lemma HeldIsThere(db: Db, c: Chore, j: JobId)
    requires Held(c, db, j)
    ensures j in db.jobs
  {}

  /******* CHECKs with a verdict *******/

  // c still carries the verdict it had when the gate selected it.
  predicate Carries(a: Db, b: Db, c: JobId) {
    && Checked(a, c) && Checked(b, c) && b.jobs[c].verdict == a.jobs[c].verdict && b.jobs[c].study == a.jobs[c].study
    && b.verdicts[b.jobs[c].verdict.value] == a.verdicts[a.jobs[c].verdict.value]
    && PolicyOf(b, b.jobs[c].study) == PolicyOf(a, a.jobs[c].study)
  }

  // A CHECK that has succeeded is accepted or left alone, and nobody gives it another verdict.
  lemma CheckedMove(s: Sys, a: Act, c: JobId)
    requires Inv(s) && Enabled(s, a) && SingleMove(s.db, a).Some? && Checked(s.db, c)
    ensures var q := SingleMove(s.db, a).value; q.job == c && MoveRefusal(s.db, q).None? ==> q.to == Accepted && q.verdict.None?
  {
    hide *;
    if a.GateUpstream? { NotAnUpstream(s, a, c); }
    CheckedRequest(s.db, a, c);
  }

  lemma NotAnUpstream(s: Sys, a: Act, c: JobId)
    requires Inv(s) && Enabled(s, a) && a.GateUpstream? && Checked(s.db, c)
    ensures a.u != c
  {
    assert EdgeOk(s.db, Dep(a.j, a.u));
  }

  lemma CheckedRequest(db: Db, a: Act, c: JobId)
    requires SingleMove(db, a).Some? && Checked(db, c) && (a.GateUpstream? ==> a.u != c)
    ensures var q := SingleMove(db, a).value; q.job == c && MoveRefusal(db, q).None? ==> q.to == Accepted && q.verdict.None?
  {}

  lemma MovedCheck(db: Db, q: Request, c: JobId)
    requires Checked(db, c) && (q.job == c && MoveRefusal(db, q).None? ==> q.to == Accepted && q.verdict.None?)
    ensures Carries(db, Move(db, q), c) && (db.jobs[c].state == Accepted ==> Move(db, q).jobs[c].state == Accepted)
  {}

  lemma CheckedStep(s: Sys, a: Act, c: JobId)
    requires Inv(s) && Checked(s.db, c)
    ensures Carries(s.db, Step(s, a).db, c) && (s.db.jobs[c].state == Accepted ==> Step(s, a).db.jobs[c].state == Accepted)
  {
    hide Origin, Move, MoveRefusal;
    hide Step, Enabled, SingleMove, Struct, ReadyOk, TriageOk, TriageEvents, Extended, NewPairs, LeavesRows;
    if !Enabled(s, a) {
      Disabled(s, a);
    } else {
      InvParts(s);
      if Aside(a) {
        AsideEffect(s, a);
        StepSummary(s, a);
        AsideCheck(s.db, a, Step(s, a).db, c);
      } else if Composite(a) {
        CompositeCheck(s, a, c);
      } else {
        MoveEffect(s, a);
        if SingleMove(s.db, a).Some? {
          CheckedMove(s, a, c);
          MovedCheck(s.db, SingleMove(s.db, a).value, c);
        }
      }
    }
  }

  lemma AsideCheck(db: Db, a: Act, b: Db, c: JobId)
    requires LeavesRows(db, a, b) && RowsStep(db, b) && Checked(db, c) && LinkedRow(db, db.jobs[c])
    ensures Carries(db, b, c) && b.jobs[c].state == db.jobs[c].state
  {
    var v := db.jobs[c].verdict.value;
    assert v in b.verdicts && b.verdicts[v] == db.verdicts[v];
    assert b.jobs[c] == db.jobs[c] || Beats(a, db.jobs[c], b.jobs[c]);
    assert db.jobs[c].study in db.studies && db.jobs[c].study in b.studies;
  }

  lemma CompositeCheck(s: Sys, a: Act, c: JobId)
    requires Inv(s) && Enabled(s, a) && Composite(a) && Checked(s.db, c)
    ensures Carries(s.db, Step(s, a).db, c) && Step(s, a).db.jobs[c].state == s.db.jobs[c].state
  {
    hide Step, Enabled, Struct, ReadyOk, TriageOk, TriageEvents, TriageOutcome, Leaves;
    InvParts(s);
    assert LinkedRow(s.db, s.db.jobs[c]);
    if a.RunTriage? {
      var p, _, _, _ := TriageStep(s, a);
      OutcomeCheck(s.db, Step(s, a).db, p, a.rid, c);
    } else if a.HalfTriage? {
      var p, _ := HalfStep(s, a);
    } else {
      CompositeEffect(s, a);
      LeavesCheck(s.db, a, Step(s, a).db, c);
    }
  }

  lemma OutcomeCheck(db: Db, b: Db, p: JobId, rid: JobId, c: JobId)
    requires TriageOutcome(db, b, p, rid) && Checked(db, c)
    ensures Carries(db, b, c) && b.jobs[c].state == db.jobs[c].state
  {
    assert c != p && b.jobs[c] == db.jobs[c];
  }

  lemma LeavesCheck(db: Db, a: Act, b: Db, c: JobId)
    requires Leaves(db, a, b) && Checked(db, c) && LinkedRow(db, db.jobs[c])
    ensures Carries(db, b, c) && b.jobs[c].state == db.jobs[c].state
  {}

  lemma {:induction false} CheckedRun(s: Sys, acts: seq<Act>, c: JobId)
    requires Inv(s) && Checked(s.db, c)
    ensures Carries(s.db, Run(s, acts).db, c) && (s.db.jobs[c].state == Accepted ==> Run(s, acts).db.jobs[c].state == Accepted)
  {
    hide Step, Enabled, Inv;
    if acts != [] {
      CheckedRun(s, acts[..|acts| - 1], c);
      InvRun(s, acts[..|acts| - 1]);
      CheckedStep(Run(s, acts[..|acts| - 1]), acts[|acts| - 1], c);
    }
  }

  // A CHECK that has succeeded was once ready: its upstream is past its run, and once it does not wait it never waits again.
  lemma UpstreamSettled(s: Sys, c: JobId, d: Dep)
    requires Inv(s) && Checked(s.db, c) && d in s.db.deps && d.job == c
    ensures d.on in s.db.jobs && s.db.jobs[d.on].state in {Succeeded, Review, Accepted, Rejected}
  {
    assert c in s.judged && StillReady(s.db, c);
  }

  lemma UpstreamStep(s: Sys, b: Db, c: JobId)
    requires Inv(s) && Checked(s.db, c) && UpstreamMoved(s.db, c) && RowsStep(s.db, b)
    ensures UpstreamMoved(b, c)
  {
    hide Inv;
    forall d <- b.deps | d.job == c && d.on in b.jobs ensures b.jobs[d.on].state != Succeeded {
      assert OldEdge(s.db, b, d);
      if d !in s.db.deps {
        var p :| Repointed(s.db, b, d, p);
        UpstreamSettled(s, c, Dep(c, p));
      } else {
        UpstreamSettled(s, c, d);
        assert RowStep(s.db.jobs[d.on], b.jobs[d.on]);
        NeverAgain(s.db.jobs[d.on], b.jobs[d.on]);
      }
    }
  }

  lemma NeverAgain(r: Job, q: Job)
    requires RowStep(r, q) && r.state in {Review, Accepted, Rejected}
    ensures q.state != Succeeded
  {}

  lemma {:induction false} UpstreamRun(s: Sys, acts: seq<Act>, c: JobId)
    requires Inv(s) && Checked(s.db, c) && UpstreamMoved(s.db, c)
    ensures UpstreamMoved(Run(s, acts).db, c)
  {
    hide Origin;
    hide Step, Enabled, Inv, UpstreamMoved, RowsStep;
    if acts != [] {
      var m, a := Run(s, acts[..|acts| - 1]), acts[|acts| - 1];
      UpstreamRun(s, acts[..|acts| - 1], c);
      CheckedRun(s, acts[..|acts| - 1], c);
      InvRun(s, acts[..|acts| - 1]);
      if Enabled(m, a) {
        StepSummary(m, a);
        UpstreamStep(m, Step(m, a).db, c);
      } else {
        Disabled(m, a);
      }
    }
  }
}
