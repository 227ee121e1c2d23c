/**
 What a crash of spawn_triage leaves behind. The repair arm looks for jobs in triage without any TRIAGE child. A crash
 right after the flip is repaired if the job failed for the first time; a job that has been through triage before still
 has the old child, is never found, and stays in triage for ever. A crash between the creation and the approval of the
 child leaves a child only a human can approve, and a job nobody but that human can help.
 */
module Stranded {
  import opened Wrappers
  import opened Rows
  import opened Substrate
  import opened EventLog
  import opened Protocol
  import opened Effects
  import opened Structure
  import opened History
  import opened Readiness
  import opened Steps
  import opened Control

  /******* Jobs no machine helps *******/

  // Through with its work for good
  predicate Finished(s: JobState) { !Active(s) && s != RetrySpawned }

  // A TRIAGE job that has run, or that waits for a human's approval because its creator is gone, and that no worker which
  // started it is about to run
  predicate Idles(s: Sys, t: JobId)
    requires t in s.db.jobs
  {
    t !in s.pending.run && (Finished(s.db.jobs[t].state) || (s.db.jobs[t].state == Proposed && t !in s.pending.approve))
  }

  ghost predicate AllIdle(s: Sys, p: JobId) { forall t <- s.db.jobs :: s.db.jobs[t].payload == TriagePayload(p) ==> Idles(s, t) }

  // In triage; the repair arm does not find it, no loop is about to spawn for it, none of its TRIAGE jobs goes on by itself
  ghost predicate Unhelped(s: Sys, p: JobId) {
    p in s.db.jobs && s.db.jobs[p].state == Triage && HasTriageChild(s.db, p) && p !in s.pending.make && AllIdle(s, p)
  }

  ghost predicate AllFinished(db: Db, p: JobId) {
    forall t <- db.jobs :: db.jobs[t].payload == TriagePayload(p) ==> Finished(db.jobs[t].state)
  }

  // ... nor by a human's approval
  ghost predicate Stranded(s: Sys, p: JobId) { Unhelped(s, p) && AllFinished(s.db, p) }

  // A human decides on a TRIAGE job of p.
  predicate Decides(s: Sys, a: Act, p: JobId) {
    a.HumanMove? && a.j in s.db.jobs && s.db.jobs[a.j].payload == TriagePayload(p) && s.db.jobs[a.j].state == Proposed
  }

  /******* No step helps *******/

  lemma FinishedStays(from: JobState, to: JobState)
    requires Finished(from) && (to == from || JobVerb(from, to).Some?)
    ensures Finished(to)
  {}

  // A proposed TRIAGE job moves only when its creator approves it or a human decides.
  lemma ProposedStays(s: Sys, a: Act, t: JobId)
    requires Inv(s) && Enabled(s, a) && !(a.HumanMove? && a.j == t) && t in s.db.jobs && s.db.jobs[t].payload.TriagePayload?
    requires s.db.jobs[t].state == Proposed && !(a.ApproveTriage? && a.tid == t)
    ensures t in Step(s, a).db.jobs && Step(s, a).db.jobs[t].state == Proposed
  {
    hide *;
    InvParts(s);
    if Aside(a) {
      AsideEffect(s, a);
      AsideState(s.db, a, Step(s, a).db, t);
    } else if Composite(a) {
      ProposedComposite(s, a, t);
    } else {
      MoveEffect(s, a);
      if SingleMove(s.db, a).Some? {
        NoMove(s, a, t);
        OtherMove(s.db, SingleMove(s.db, a).value, t);
      }
    }
  }

  lemma AsideState(db: Db, a: Act, b: Db, t: JobId)
    requires LeavesRows(db, a, b) && t in db.jobs
    ensures t in b.jobs && b.jobs[t].state == db.jobs[t].state
  {}

  // Unless its creator or a human moves it, a proposed TRIAGE job stays proposed.
  lemma {:induction false} ProposedRun(s: Sys, acts: seq<Act>, t: JobId)
    requires Inv(s) && t in s.db.jobs && s.db.jobs[t].payload.TriagePayload? && s.db.jobs[t].state == Proposed
    requires forall a <- acts :: !(a.HumanMove? && a.j == t) && !(a.ApproveTriage? && a.tid == t)
    ensures t in Run(s, acts).db.jobs && Run(s, acts).db.jobs[t].payload == s.db.jobs[t].payload
    ensures Run(s, acts).db.jobs[t].state == Proposed
  {
    hide Step, Enabled, Inv;
    if acts != [] {
      var init, a := acts[..|acts| - 1], acts[|acts| - 1];
      ProposedRun(s, init, t);
      InvRun(s, init);
      ProposedNext(Run(s, init), a, t);
    }
  }

  lemma ProposedNext(s: Sys, a: Act, t: JobId)
    requires Inv(s) && t in s.db.jobs && s.db.jobs[t].payload.TriagePayload? && s.db.jobs[t].state == Proposed
    requires !(a.HumanMove? && a.j == t) && !(a.ApproveTriage? && a.tid == t)
    ensures t in Step(s, a).db.jobs && Step(s, a).db.jobs[t].payload == s.db.jobs[t].payload
    ensures Step(s, a).db.jobs[t].state == Proposed
  {
    hide Origin;
    hide Step, Enabled, Inv;
    Disabled(s, a);
    if Enabled(s, a) {
      StepSummary(s, a);
      assert RowStep(s.db.jobs[t], Step(s, a).db.jobs[t]);
      ProposedStays(s, a, t);
    }
  }

  lemma ProposedComposite(s: Sys, a: Act, t: JobId)
    requires Inv(s) && Enabled(s, a) && Composite(a) && t in s.db.jobs && s.db.jobs[t].state == Proposed
    ensures t in Step(s, a).db.jobs && Step(s, a).db.jobs[t].state == Proposed
  {
    hide Inv, Step, Enabled, Struct, ReadyOk, TriageOk, TriageEvents, TriageOutcome, HalfOutcome, Leaves, RowsOk, EdgesOk, Linked;
    InvParts(s);
    if a.RunTriage? {
      var p, _, _, _ := TriageStep(s, a);
      OutcomeBirth(s.db, Step(s, a).db, p, a.rid);
      OutcomeElsewhere(s.db, Step(s, a).db, p, a.rid, t);
    } else if a.HalfTriage? {
      var p, _ := HalfStep(s, a);
      HalfElsewhere(s.db, Step(s, a).db, p, a.rid, t);
    } else {
      CompositeEffect(s, a);
      LeavesElsewhere(s.db, a, Step(s, a).db, t);
    }
  }

  lemma LeavesElsewhere(db: Db, a: Act, b: Db, t: JobId)
    requires Leaves(db, a, b) && t in db.jobs
    ensures t in b.jobs && b.jobs[t] == db.jobs[t]
  {}

  lemma NoMove(s: Sys, a: Act, t: JobId)
    requires Inv(s) && Enabled(s, a) && !(a.HumanMove? && a.j == t) && t in s.db.jobs && s.db.jobs[t].payload.TriagePayload?
    requires s.db.jobs[t].state == Proposed && !(a.ApproveTriage? && a.tid == t) && SingleMove(s.db, a).Some?
    ensures SingleMove(s.db, a).value.job == t ==> MoveRefusal(s.db, SingleMove(s.db, a).value).Some?
  {
    hide Inv, Enabled, SingleMove, MoveRefusal;
    if SingleMove(s.db, a).value.job == t {
      ExpectsAnother(s.db, a, t);
      if a.CancelDead? {
        TriageHasNoEdges(s, t);
        BranchOf(s, a, t);
      }
    }
  }

  // A proposed job is moved by humans, by the approval of its maker, and with its branch.
  lemma ExpectsAnother(db: Db, a: Act, t: JobId)
    requires SingleMove(db, a).Some? && SingleMove(db, a).value.job == t && t in db.jobs && db.jobs[t].state == Proposed
    ensures MoveRefusal(db, SingleMove(db, a).value).Some? || a.CancelDead? || (a.HumanMove? && a.j == t) ||
      (a.ApproveTriage? && a.tid == t)
  {}

  lemma BranchOf(s: Sys, a: Act, t: JobId)
    requires a.CancelDead? && Enabled(s, a) && SingleMove(s.db, a).Some? && SingleMove(s.db, a).value.job == t
    ensures exists d <- s.db.deps :: d.job == t
  {}

  lemma TriageHasNoEdges(s: Sys, t: JobId)
    requires Inv(s) && t in s.db.jobs && s.db.jobs[t].payload.TriagePayload?
    ensures forall d <- s.db.deps :: d.job != t
  {
    assert RowOk(s.db, t);
    forall d <- s.db.deps ensures d.job != t { assert EdgeOk(s.db, d); }
  }

  lemma OtherMove(db: Db, q: Request, t: JobId)
    requires t in db.jobs && (q.job == t ==> MoveRefusal(db, q).Some?)
    ensures t in Move(db, q).jobs && Move(db, q).jobs[t] == db.jobs[t]
  {}

  lemma ApproveShrinks(s: Sys, a: Act)
    requires Inv(s) && Enabled(s, a)
    ensures forall t <- s.db.jobs :: t in Step(s, a).pending.approve ==> t in s.pending.approve
  {
    hide Step, Enabled, Inv;
    PendingGrows(s, a);
    if a.MakeTriage? { MakeGuard(s, a); }
  }

  lemma RunsShrink(s: Sys, a: Act, t: JobId)
    requires Inv(s) && Enabled(s, a) && t in s.db.jobs && Idles(s, t)
    ensures t !in Step(s, a).pending.run
  {
    hide Step, Enabled, Inv;
    PendingGrows(s, a);
  }

  lemma OnlyCreatorApproves(s: Sys, a: Act, t: JobId)
    requires Enabled(s, a) && t !in s.pending.approve
    ensures !(a.ApproveTriage? && a.tid == t)
  {}

  lemma IdlesStay(s: Sys, a: Act, p: JobId)
    requires Inv(s) && Enabled(s, a) && AllIdle(s, p) && p !in s.pending.make && !Decides(s, a, p)
    ensures AllIdle(Step(s, a), p)
  {
    StepSummary(s, a);
    ApproveShrinks(s, a);
    var t := Step(s, a);
    forall u <- t.db.jobs | t.db.jobs[u].payload == TriagePayload(p) ensures Idles(t, u) {
      if u in s.db.jobs {
        assert RowStep(s.db.jobs[u], t.db.jobs[u]);
        hide Step, Enabled, Inv;
        RunsShrink(s, a, u);
        if Finished(s.db.jobs[u].state) {
          FinishedStays(s.db.jobs[u].state, t.db.jobs[u].state);
        } else {
          OnlyCreatorApproves(s, a, u);
          ProposedStays(s, a, u);
        }
      } else {
        NoneBorn(s, a, p, u);
      }
    }
  }

  // Nobody makes a TRIAGE job for p: no loop is about to, and none of its TRIAGE jobs is retried.
  lemma NoneBorn(s: Sys, a: Act, p: JobId, u: JobId)
    requires Enabled(s, a) && AllIdle(s, p) && p !in s.pending.make && u in Step(s, a).db.jobs
    requires Origin(s.db, a, Step(s, a).db, u)
    ensures Step(s, a).db.jobs[u].payload != TriagePayload(p)
  {
    hide *;
    if a.MakeTriage? { MakeFor(s, a); }
    BornFor(s, a, Step(s, a).db, p, u);
  }

  lemma BornFor(s: Sys, a: Act, b: Db, p: JobId, u: JobId)
    requires u in b.jobs && Origin(s.db, a, b, u) && AllIdle(s, p) && (a.MakeTriage? ==> a.j != p)
    ensures b.jobs[u].payload != TriagePayload(p)
  {
    if (a.RunTriage? || a.HalfTriage?) && b.jobs[u].payload == TriagePayload(p) {
      RetriedFor(s, s.db.jobs[a.j].payload.failedJob, b.jobs[u], p);
    }
  }

  // A TRIAGE job of p that is retried does not idle.
  lemma RetriedFor(s: Sys, t: JobId, row: Job, p: JobId)
    requires RetryOf(s.db, t, row) && row.payload == TriagePayload(p) && s.db.jobs[t].state in {Triage, RetrySpawned}
    ensures !AllIdle(s, p)
  {
    assert s.db.jobs[t].payload == TriagePayload(p) && !Idles(s, t);
  }

  lemma MakeFor(s: Sys, a: Act)
    requires a.MakeTriage? && Enabled(s, a)
    ensures a.j in s.pending.make && a.j in s.db.jobs
  {}

  lemma StaysInTriage(s: Sys, a: Act, p: JobId)
    requires Inv(s) && Enabled(s, a) && Unhelped(s, p)
    ensures p in Step(s, a).db.jobs && Step(s, a).db.jobs[p].state == Triage && HasTriageChild(Step(s, a).db, p)
  {
    hide *;
    UnhelpedRow(s, p);
    ChildrenStay(s, a, p);
    if a.RunTriage? {
      NotRetired(s, a, p);
    } else if a.HalfTriage? {
      NotHalfDone(s, a, p);
    } else {
      NotResolved(s, a, p);
    }
  }

  lemma NotRetired(s: Sys, a: Act, p: JobId)
    requires Inv(s) && a.RunTriage? && Enabled(s, a) && Unhelped(s, p)
    ensures p in Step(s, a).db.jobs && Step(s, a).db.jobs[p].state == Triage
  {
    hide *;
    InvParts(s);
    UnhelpedRow(s, p);
    RunGuard(s, a);
    var q, _, _, _ := TriageStep(s, a);
    ForAnother(s, a.j, p);
    OutcomeElsewhere(s.db, Step(s, a).db, q, a.rid, p);
  }

  lemma NotHalfDone(s: Sys, a: Act, p: JobId)
    requires Inv(s) && a.HalfTriage? && Enabled(s, a) && Unhelped(s, p)
    ensures p in Step(s, a).db.jobs && Step(s, a).db.jobs[p].state == Triage
  {
    hide *;
    InvParts(s);
    UnhelpedRow(s, p);
    var q, _ := HalfStep(s, a);
    HalfElsewhere(s.db, Step(s, a).db, q, a.rid, p);
  }

  lemma NotResolved(s: Sys, a: Act, p: JobId)
    requires Inv(s) && !a.RunTriage? && !a.HalfTriage? && Enabled(s, a) && Unhelped(s, p)
    ensures p in Step(s, a).db.jobs && Step(s, a).db.jobs[p].state == Triage
  {
    hide *;
    UnhelpedRow(s, p);
    var new_ := ExtendsStep(s, a);
    ExtendedTriage(s.db, Step(s, a).db, new_, p);
  }

  lemma UnhelpedRow(s: Sys, p: JobId)
    requires Unhelped(s, p)
    ensures p in s.db.jobs && s.db.jobs[p].state == Triage && HasTriageChild(s.db, p)
  {}

  lemma RunGuard(s: Sys, a: Act)
    requires a.RunTriage? && Enabled(s, a)
    ensures a.j in s.pending.run
  {}

  lemma ForAnother(s: Sys, t: JobId, p: JobId)
    requires Unhelped(s, p) && Triaging(s.db, t) && t in s.pending.run
    ensures s.db.jobs[t].payload.failedJob != p
  {
    assert s.db.jobs[t].payload == TriagePayload(p) ==> Idles(s, t);
  }

  lemma OutcomeElsewhere(a: Db, b: Db, q: JobId, rid: JobId, p: JobId)
    requires TriageOutcome(a, b, q, rid) && p in a.jobs && p != q
    ensures p in b.jobs && b.jobs[p] == a.jobs[p]
  {}

  lemma HalfElsewhere(a: Db, b: Db, q: JobId, rid: JobId, p: JobId)
    requires HalfOutcome(a, b, q, rid) && p in a.jobs
    ensures p in b.jobs && b.jobs[p] == a.jobs[p]
  {}

  lemma ExtendedTriage(a: Db, b: Db, new_: set<JobId>, p: JobId)
    requires Extended(a, b, new_) && p in a.jobs && a.jobs[p].state == Triage
    ensures p in b.jobs && b.jobs[p].state == Triage
  {
    assert SameRole(a.jobs[p], b.jobs[p]);
  }

  lemma ChildrenStay(s: Sys, a: Act, p: JobId)
    requires Inv(s) && Enabled(s, a) && HasTriageChild(s.db, p)
    ensures HasTriageChild(Step(s, a).db, p)
  {
    StepSummary(s, a);
    hide Step, Enabled, Inv;
    var c :| c in s.db.jobs && s.db.jobs[c].jtype == TRIAGE && s.db.jobs[c].parent == Some(p);
    assert RowStep(s.db.jobs[c], Step(s, a).db.jobs[c]);
  }

  lemma NothingOwed(s: Sys, a: Act, p: JobId)
    requires Inv(s) && Enabled(s, a) && Unhelped(s, p)
    ensures p !in Step(s, a).pending.make
  {
    PendingGrows(s, a);
    if a.ReadOrphan? { OrphanHasNoChild(s, a); }
    hide Step, Enabled, Inv;
  }

  lemma OrphanHasNoChild(s: Sys, a: Act)
    requires a.ReadOrphan? && Enabled(s, a)
    ensures !HasTriageChild(s.db, a.j)
  {}

  // No step of any process helps, except a human's decision on one of the job's TRIAGE jobs.
  lemma UnhelpedStep(s: Sys, a: Act, p: JobId)
    requires Inv(s) && Unhelped(s, p) && !Decides(s, a, p)
    ensures Unhelped(Step(s, a), p)
  {
    hide Ops, Exec, NextSeen;
    if !Enabled(s, a) {
      assert Step(s, a) == s;
    } else {
      hide Step, Enabled, Inv, Decides;
      StaysInTriage(s, a, p);
      NothingOwed(s, a, p);
      IdlesStay(s, a, p);
    }
  }

  // Until a human decides on a TRIAGE job of p, p stays where it is.
  ghost predicate Undecided(s: Sys, acts: seq<Act>, p: JobId) {
    forall i :: 0 <= i < |acts| ==> !Decides(Run(s, acts[..i]), acts[i], p)
  }

  lemma {:induction false} HeldUntilDecided(s: Sys, acts: seq<Act>, p: JobId)
    requires Inv(s) && Unhelped(s, p) && Undecided(s, acts, p)
    ensures Unhelped(Run(s, acts), p) && Run(s, acts).db.jobs[p].state == Triage
  {
    hide Step, Inv, Decides;
    if acts != [] {
      var init := acts[..|acts| - 1];
      assert forall i :: 0 <= i < |init| ==> init[..i] == acts[..i];
      HeldUntilDecided(s, init, p);
      InvRun(s, init);
      assert !Decides(Run(s, acts[..|acts| - 1]), acts[|acts| - 1], p);
      UnhelpedStep(Run(s, init), acts[|acts| - 1], p);
    }
  }

  lemma FinishedStep(s: Sys, a: Act, p: JobId)
    requires Inv(s) && Stranded(s, p)
    ensures Stranded(Step(s, a), p)
  {
    hide Ops, Exec, NextSeen, Origin;
    assert !Decides(s, a, p);
    UnhelpedStep(s, a, p);
    if !Enabled(s, a) {
      assert Step(s, a) == s;
    } else {
      StepSummary(s, a);
      var t := Step(s, a);
      hide Unhelped;
      forall u <- t.db.jobs | t.db.jobs[u].payload == TriagePayload(p) ensures Finished(t.db.jobs[u].state) {
        if u in s.db.jobs {
          assert RowStep(s.db.jobs[u], t.db.jobs[u]);
          hide Step, Enabled, Inv;
          FinishedStays(s.db.jobs[u].state, t.db.jobs[u].state);
        } else {
          NoneBorn(s, a, p, u);
        }
      }
    }
  }

  // Nobody, human or machine, ever gets a stranded job out of triage.
  lemma {:induction false} StrandedForEver(s: Sys, acts: seq<Act>, p: JobId)
    requires Inv(s) && Stranded(s, p)
    ensures Stranded(Run(s, acts), p) && Run(s, acts).db.jobs[p].state == Triage
  {
    hide Step, Inv;
    if acts != [] {
      StrandedForEver(s, acts[..|acts| - 1], p);
      InvRun(s, acts[..|acts| - 1]);
      FinishedStep(Run(s, acts[..|acts| - 1]), acts[|acts| - 1], p);
    }
  }

  /******* The two crashes *******/

  lemma FlipFrame(s: Sys, j: JobId, now: int)
    requires j in s.db.jobs && s.db.jobs[j].state == Failed
    ensures var t := Step(s, FlipTriage(j, now));
      && t.db == Move(s.db, Plain(j, Triage, Agent, Some(Failed), now))
      && t.pending == s.pending.(make := s.pending.make + multiset{j})
  {
    MoveEffect(s, FlipTriage(j, now));
    hide Exec, Move;
  }

  lemma DropFrame(s: Sys, j: JobId, now: int)
    requires j in s.pending.make
    ensures var t := Step(s, DropTriage(j, now)); t.db == s.db && t.pending == s.pending.(make := s.pending.make - multiset{j})
  {}

  lemma FlipAndDrop(s: Sys, j: JobId, now: int)
    requires j in s.db.jobs && s.db.jobs[j].state == Failed
    ensures var t := Step(Step(s, FlipTriage(j, now)), DropTriage(j, now));
      && t.db == Move(s.db, Plain(j, Triage, Agent, Some(Failed), now)) && t.pending == s.pending
  {
    hide Step, Move;
    FlipFrame(s, j, now);
    DropFrame(Step(s, FlipTriage(j, now)), j, now);
    assert s.pending.make + multiset{j} - multiset{j} == s.pending.make;
  }

  lemma FlippedRows(db: Db, j: JobId, now: int)
    requires j in db.jobs && db.jobs[j].state == Failed
    ensures var b := Move(db, Plain(j, Triage, Agent, Some(Failed), now));
      && j in b.jobs && b.jobs[j].state == Triage && (HasTriageChild(b, j) <==> HasTriageChild(db, j))
      && (AllFinished(b, j) <==> OthersFinished(db, j))
      && b.jobs.Keys == db.jobs.Keys && forall t <- db.jobs :: b.jobs[t].payload == db.jobs[t].payload
  {
    var q := Plain(j, Triage, Agent, Some(Failed), now);
    MoveShape(db, q);
    var b := Move(db, q);
    assert b.jobs[j].jtype == db.jobs[j].jtype && b.jobs[j].parent == db.jobs[j].parent &&
      b.jobs[j].payload == db.jobs[j].payload && b.jobs[j].state == Triage;
    hide Move, MovedRow, MoveRefusal;
    forall t <- db.jobs
      ensures b.jobs[t].jtype == db.jobs[t].jtype && b.jobs[t].parent == db.jobs[t].parent
      ensures b.jobs[t].payload == db.jobs[t].payload
    {}
    if OthersFinished(db, j) {
      forall t <- b.jobs | b.jobs[t].payload == TriagePayload(j) ensures Finished(b.jobs[t].state) {
        assert t != j && b.jobs[t] == db.jobs[t];
      }
    }
    if AllFinished(b, j) {
      forall t <- db.jobs | db.jobs[t].payload == TriagePayload(j) ensures t != j && Finished(db.jobs[t].state) {
        assert Finished(b.jobs[t].state);
      }
    }
  }

  ghost predicate OthersFinished(db: Db, j: JobId) {
    forall t <- db.jobs :: db.jobs[t].payload == TriagePayload(j) ==> t != j && Finished(db.jobs[t].state)
  }

  // No worker that started a TRIAGE job of j is about to run it.
  ghost predicate NoneRuns(s: Sys, j: JobId) {
    forall t <- s.db.jobs :: s.db.jobs[t].payload == TriagePayload(j) ==> t !in s.pending.run
  }

  // A loop that dies right after the flip strands the job exactly if the job had a TRIAGE child before, whose work, like
  // that of all its TRIAGE jobs, is over, and no other loop is about to make one. The repair arm finds it exactly if it
  // had no child.
  lemma CrashStrands(s: Sys, j: JobId, now: int)
    requires Inv(s) && j in s.db.jobs && s.db.jobs[j].state == Failed
    ensures var t := Step(Step(s, FlipTriage(j, now)), DropTriage(j, now));
      && j in t.db.jobs && t.db.jobs[j].state == Triage
      && (Stranded(t, j) <==> HasTriageChild(s.db, j) && OthersFinished(s.db, j) && NoneRuns(s, j) && j !in s.pending.make)
      && (j in OrphanJobs(t.db) <==> !HasTriageChild(s.db, j))
  {
    hide Step, Enabled, Inv, HasTriageChild, Finished, Move;
    FlipAndDrop(s, j, now);
    FlippedRows(s.db, j, now);
    IdleIsFinished(Step(Step(s, FlipTriage(j, now)), DropTriage(j, now)), j);
  }

  lemma IdleIsFinished(t: Sys, j: JobId)
    ensures AllFinished(t.db, j) ==> (AllIdle(t, j) <==> NoneRuns(t, j))
  {}

  lemma UnapprovedFrame(s: Sys, tid: JobId, now: int)
    ensures var t := Step(s, DropApproval(tid, now));
      t.db == s.db && t.pending == s.pending.(approve := s.pending.approve - {tid})
  {}

  lemma MakeAndDrop(s: Sys, j: JobId, tid: JobId, now: int)
    requires Inv(s) && j in s.pending.make && j in s.db.jobs && tid !in s.db.jobs
    ensures var t := Step(Step(s, MakeTriage(j, tid, now)), DropApproval(tid, now));
      && t.db == Proposes(s.db, TriageJob(s.db.jobs[j], j, tid, now))
      && t.pending.make == s.pending.make - multiset{j} && t.pending.approve == s.pending.approve
      && t.pending.run == s.pending.run
  {
    hide Step, Proposes;
    StructIsLinked(s.db);
    MakeEffect(s, MakeTriage(j, tid, now));
    NextIs(s, MakeTriage(j, tid, now));
    var m := Step(s, MakeTriage(j, tid, now));
    UnapprovedFrame(m, tid, now);
    assert forall t <- s.pending.approve :: t in s.db.jobs;
    assert s.pending.approve + {tid} - {tid} == s.pending.approve;
  }

  // A loop that dies between the creation of the child and its approval leaves the job to a human's decision exactly if
  // no other loop is about to make a child for it and none of its other TRIAGE jobs is under way. The repair arm never
  // finds it.
  lemma CrashAfterCreate(s: Sys, j: JobId, tid: JobId, now: int)
    requires Inv(s) && j in s.pending.make && j in s.db.jobs && s.db.jobs[j].state == Triage && tid !in s.db.jobs
    ensures var t := Step(Step(s, MakeTriage(j, tid, now)), DropApproval(tid, now));
      && (Unhelped(t, j) <==> s.pending.make[j] == 1 && AllIdle(s, j))
      && !Stranded(t, j) && j !in OrphanJobs(t.db)
  {
    hide Step, Enabled, Inv, AllIdle, HasTriageChild;
    TidIsNew(s, tid);
    MakeAndDrop(s, j, tid, now);
    var t := Step(Step(s, MakeTriage(j, tid, now)), DropApproval(tid, now));
    MadeChild(s.db, j, tid, now);
    MadeIdle(s, t, j, tid, now);
    assert j in t.pending.make <==> s.pending.make[j] > 1;
    assert !Finished(t.db.jobs[tid].state);
  }

  lemma MadeChild(db: Db, j: JobId, tid: JobId, now: int)
    requires j in db.jobs && tid !in db.jobs
    ensures var b := Proposes(db, TriageJob(db.jobs[j], j, tid, now));
      && HasTriageChild(b, j) && tid in b.jobs && b.jobs[tid].payload == TriagePayload(j)
      && b.jobs[tid].state == Proposed && j in b.jobs && b.jobs[j] == db.jobs[j]
  {
    var b := Proposes(db, TriageJob(db.jobs[j], j, tid, now));
    assert b.jobs[tid].jtype == TRIAGE && b.jobs[tid].parent == Some(j);
  }

  lemma MadeIdle(s: Sys, t: Sys, j: JobId, tid: JobId, now: int)
    requires j in s.db.jobs && tid !in s.db.jobs && tid !in s.pending.approve && tid !in s.pending.run
    requires t.db == Proposes(s.db, TriageJob(s.db.jobs[j], j, tid, now)) && t.pending.approve == s.pending.approve
    requires t.pending.run == s.pending.run
    ensures AllIdle(t, j) <==> AllIdle(s, j)
  {
    if AllIdle(s, j) {
      forall u <- t.db.jobs | t.db.jobs[u].payload == TriagePayload(j) ensures Idles(t, u) {
        if u != tid { assert Idles(s, u); }
      }
    }
    if AllIdle(t, j) {
      forall u <- s.db.jobs | s.db.jobs[u].payload == TriagePayload(j) ensures Idles(s, u) { assert Idles(t, u); }
    }
  }

  lemma TidIsNew(s: Sys, tid: JobId)
    requires Inv(s) && tid !in s.db.jobs
    ensures tid !in s.pending.approve && tid !in s.pending.run
  {}
}
