/**
 What a method that works on the store next to other processes has done so far: a run of the protocol, its own steps and
 theirs.
 */
module Phases {
  import opened Wrappers
  import opened Rows
  import opened Substrate
  import opened Protocol
  import opened Effects
  import opened Structure
  import opened History
  import opened Readiness
  import opened ControlEnds

  ghost predicate Ran(s0: Sys, s: Sys, acts: seq<Act>) { s == Run(s0, acts) && Inv(s) }

  // By control steps only, with what the processes remember as it was
  ghost predicate Progressed(s0: Sys, s: Sys, acts: seq<Act>) {
    && Ran(s0, s, acts) && s.seen == s0.seen && s.judged == s0.judged && s.pending == s0.pending
    && forall a <- acts :: ControlAct(a)
  }

  predicate InState(db: Db, j: JobId, state: JobState) { j in db.jobs && db.jobs[j].state == state }

  lemma RanInv(s0: Sys, s: Sys, acts: seq<Act>)
    requires Ran(s0, s, acts)
    ensures Inv(s)
  {
    hide Run;
  }

  lemma NothingDone(s: Sys)
    requires Inv(s)
    ensures Progressed(s, s, [])
  {
    hide Step;
  }

  lemma OneMore(s0: Sys, s: Sys, acts: seq<Act>, a: Act)
    requires Ran(s0, s, acts)
    ensures Ran(s0, Step(s, a), acts + [a])
  {
    hide Run, Step;
    InvStep(s, a);
    RunPush(s0, acts, a);
  }

  // Others move between two steps of ours; nothing happens if there are none.
  lemma OthersMove(s0: Sys, s: Sys, acts: seq<Act>, others: seq<Act>)
    requires Ran(s0, s, acts)
    ensures Ran(s0, Run(s, others), acts + others) && (others == [] ==> Run(s, others) == s && acts + others == acts)
  {
    hide Step;
    InvRun(s, others);
    RunConcat(s0, acts, others);
  }

  lemma RanThen(s0: Sys, s1: Sys, s2: Sys, first: seq<Act>, second: seq<Act>)
    requires Ran(s0, s1, first) && Ran(s1, s2, second)
    ensures Ran(s0, s2, first + second)
  {
    hide Run, Inv;
    RunConcat(s0, first, second);
  }

  lemma ProgressedThen(s0: Sys, s1: Sys, s2: Sys, first: seq<Act>, second: seq<Act>)
    requires Progressed(s0, s1, first) && Progressed(s1, s2, second)
    ensures Progressed(s0, s2, first + second)
  {
    hide Run, Inv;
    RunConcat(s0, first, second);
  }

  // A call of transition() that is a step of the protocol
  lemma MoveStep(s: Sys, a: Act, q: Request)
    requires Enabled(s, a) && !Aside(a) && !Composite(a) && !a.Claim? && SingleMove(s.db, a) == Some(q)
    ensures Step(s, a) == Sys(Move(s.db, q), s.seen, s.judged, NextPending(s, a))
  {
    hide Ops, Exec, NextSeen, Enabled, SingleMove, Move;
    MoveEffect(s, a);
    StepFrame(s, a);
  }

  lemma MoveTurn(s0: Sys, s: Sys, acts: seq<Act>, a: Act, q: Request)
    requires Ran(s0, s, acts) && Enabled(s, a) && !Aside(a) && !Composite(a) && !a.Claim? && !Remembers(a)
    requires SingleMove(s.db, a) == Some(q)
    ensures Ran(s0, Sys(Move(s.db, q), s.seen, s.judged, s.pending), acts + [a])
    ensures Progressed(s0, s, acts) && ControlAct(a) ==>
      Progressed(s0, Sys(Move(s.db, q), s.seen, s.judged, s.pending), acts + [a])
  {
    hide Step;
    hide Enabled, SingleMove, Inv, Move, Run;
    MoveStep(s, a, q);
    OneMore(s0, s, acts, a);
  }

  lemma RunTwo(s: Sys, a: Act, b: Act)
    ensures Run(s, [a, b]) == Step(Step(s, a), b)
  {
    hide Step;
    RunOne(s, a);
    RunPush(s, [a], b);
    assert [a] + [b] == [a, b];
  }

  // The last thing that happened is an approval that came too late.
  ghost predicate Overruled(s0: Sys, acts: seq<Act>) {
    && |acts| > 0 && acts[|acts| - 1].ApproveTriage?
    && !InState(Run(s0, acts[..|acts| - 1]).db, acts[|acts| - 1].tid, Proposed)
  }

  lemma OverruledThen(s0: Sys, s1: Sys, first: seq<Act>, second: seq<Act>)
    requires s1 == Run(s0, first) && Overruled(s1, second)
    ensures Overruled(s0, first + second)
  {
    hide Run, InState;
    var acts := first + second;
    assert acts[..|acts| - 1] == first + second[..|second| - 1];
    RunConcat(s0, first, second[..|second| - 1]);
  }
}
