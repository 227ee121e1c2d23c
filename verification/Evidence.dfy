/**
 The evidence behind automatic acceptance: an ANALYSIS that a machine accepted carries the verdict its own CHECK
 recorded about its own run, at the level the policy accepts.
 */
module Evidence {
  import opened Wrappers
  import opened Rows
  import opened Substrate
  import opened Protocol
  import opened Effects
  import opened Structure
  import opened History
  import opened Readiness
  import opened Steps
  import opened EventLog

  // A verdict is about the run its CHECK's upstream made.
  ghost predicate VerdictOk(db: Db, v: Verdict) {
    && v.job in db.jobs && db.jobs[v.job].jtype == CHECK
    && forall d <- db.deps :: d.job == v.job ==> d.on in db.jobs && v.runRef == db.jobs[d.on].runRef
  }

  // A CHECK only ever names a verdict of its own.
  predicate OwnVerdict(db: Db, c: JobId)
    requires c in db.jobs
  {
    db.jobs[c].jtype == CHECK && db.jobs[c].verdict.Some? ==>
      db.jobs[c].verdict.value in db.verdicts && db.verdicts[db.jobs[c].verdict.value].job == c
  }

  ghost predicate Backed(db: Db, a: JobId)
    requires a in db.jobs
  {
    var row := db.jobs[a];
    && row.verdict.Some? && row.verdict.value in db.verdicts
    && var v := db.verdicts[row.verdict.value];
       && v.level == PolicyOf(db, row.study).autoLevel && v.level !in PolicyOf(db, row.study).gateOn
       && v.job in db.jobs && db.jobs[v.job].jtype == CHECK && Dep(v.job, a) in db.deps
       && v.runRef == row.runRef
  }

  predicate MachineAccepts(db: Db, e: Event) {
    && e.verb == JobAccepted && !e.actor.Human? && e.subject.JobSubject?
    && e.subject.job in db.jobs && db.jobs[e.subject.job].jtype == ANALYSIS
  }

  ghost predicate EvidenceOk(s: Sys) {
    && (forall v <- s.db.verdicts :: VerdictOk(s.db, s.db.verdicts[v]) && s.db.verdicts[v].job in s.judged)
    && (forall c <- s.db.jobs :: OwnVerdict(s.db, c))
    && (forall e <- s.db.log :: e.verb == JobAccepted ==> e.subject.JobSubject? && e.subject.job in s.db.jobs)
    && (forall e <- s.db.log :: MachineAccepts(s.db, e) ==>
          s.db.jobs[e.subject.job].state == Accepted && Backed(s.db, e.subject.job))
  }

  /******* What stays *******/

  lemma VerdictStays(s: Sys, b: Db, v: Verdict)
    requires RowsStep(s.db, b) && VerdictOk(s.db, v) && v.job in s.judged && StillReady(s.db, v.job)
    ensures VerdictOk(b, v)
  {
    assert RowStep(s.db.jobs[v.job], b.jobs[v.job]);
    forall d <- b.deps | d.job == v.job ensures d.on in b.jobs && v.runRef == b.jobs[d.on].runRef {
      assert OldEdge(s.db, b, d);
      assert RowStep(s.db.jobs[d.on], b.jobs[d.on]);
    }
  }

  lemma BackedStays(s: Sys, b: Db, a: JobId)
    requires RowsStep(s.db, b) && a in s.db.jobs && s.db.jobs[a].state == Accepted && s.db.jobs[a].study in s.db.studies
    requires Backed(s.db, a) && Dep(s.db.verdicts[s.db.jobs[a].verdict.value].job, a) in b.deps
    ensures b.jobs[a].state == Accepted && Backed(b, a)
  {
    assert RowStep(s.db.jobs[a], b.jobs[a]);
    var v := s.db.jobs[a].verdict.value;
    assert v in s.db.verdicts && v in b.verdicts;
    var c := s.db.verdicts[s.db.jobs[a].verdict.value].job;
    assert RowStep(s.db.jobs[c], b.jobs[c]);
  }

  /******* What is new *******/

  ghost predicate OwnWrites(db: Db, b: Db) {
    forall c <- db.jobs :: c in b.jobs && db.jobs[c].jtype == CHECK ==>
      b.jobs[c].verdict == db.jobs[c].verdict
      || (b.jobs[c].verdict.Some? && b.jobs[c].verdict.value in db.verdicts && db.verdicts[b.jobs[c].verdict.value].job == c)
  }

  // The events a step adds contain no machine acceptance of an ANALYSIS that is not backed.
  ghost predicate BackedEvents(db: Db, b: Db) {
    && db.log <= b.log
    && (forall i :: |db.log| <= i < |b.log| && b.log[i].verb == JobAccepted ==>
      b.log[i].subject.JobSubject? && b.log[i].subject.job in b.jobs)
    && forall i :: |db.log| <= i < |b.log| && MachineAccepts(b, b.log[i]) ==>
         b.jobs[b.log[i].subject.job].state == Accepted && Backed(b, b.log[i].subject.job)
  }

  ghost predicate NewVerdicts(s: Sys, b: Db) {
    forall v <- b.verdicts :: v in s.db.verdicts || (VerdictOk(b, b.verdicts[v]) && b.verdicts[v].job in s.judged)
  }

  lemma EvidenceKeeps(s: Sys, a: Act, b: Db, judged: set<JobId>)
    requires Inv(s) && EvidenceOk(s) && Summary(s.db, a, b) && s.judged <= judged
    requires OwnWrites(s.db, b) && BackedEvents(s.db, b) && NewVerdicts(s, b)
    ensures forall seen, pending :: EvidenceOk(Sys(b, seen, judged, pending))
  {
    forall v <- b.verdicts ensures VerdictOk(b, b.verdicts[v]) && b.verdicts[v].job in judged {
      if v in s.db.verdicts {
        assert v in b.verdicts && b.verdicts[v] == s.db.verdicts[v];
        assert VerdictOk(s.db, s.db.verdicts[v]) && StillReady(s.db, s.db.verdicts[v].job);
        VerdictStays(s, b, s.db.verdicts[v]);
      }
    }
    EvidenceRows(s.db, a, b);
    EvidenceLog(s, b);
  }

  lemma EvidenceRows(db: Db, a: Act, b: Db)
    requires Summary(db, a, b) && OwnWrites(db, b) && forall c <- db.jobs :: OwnVerdict(db, c)
    ensures forall c <- b.jobs :: OwnVerdict(b, c)
  {
    forall c <- b.jobs ensures OwnVerdict(b, c) {
      if c in db.jobs {
        assert OwnVerdict(db, c) && RowStep(db.jobs[c], b.jobs[c]);
        if b.jobs[c].jtype == CHECK && b.jobs[c].verdict.Some? {
          var v := b.jobs[c].verdict.value;
          assert v in db.verdicts && v in b.verdicts;
        }
      } else {
        assert Origin(db, a, b, c);
      }
    }
  }

  lemma EvidenceLog(s: Sys, b: Db)
    requires RowsOk(s.db) && EvidenceOk(s) && RowsStep(s.db, b) && BackedEvents(s.db, b)
    ensures forall e <- b.log :: e.verb == JobAccepted ==> e.subject.JobSubject? && e.subject.job in b.jobs
    ensures forall e <- b.log :: MachineAccepts(b, e) ==> b.jobs[e.subject.job].state == Accepted && Backed(b, e.subject.job)
  {
    forall e <- b.log | MachineAccepts(b, e) ensures b.jobs[e.subject.job].state == Accepted && Backed(b, e.subject.job) {
      var i :| 0 <= i < |b.log| && b.log[i] == e;
      if i < |s.db.log| {
        assert e == s.db.log[i];
        OldAcceptance(s, b, e);
      }
    }
    hide RowsOk, RowsStep, Backed;
  }

  lemma OldAcceptance(s: Sys, b: Db, e: Event)
    requires RowsOk(s.db) && EvidenceOk(s) && RowsStep(s.db, b) && e in s.db.log && MachineAccepts(b, e)
    ensures b.jobs[e.subject.job].state == Accepted && Backed(b, e.subject.job)
  {
    var a := e.subject.job;
    assert RowStep(s.db.jobs[a], b.jobs[a]) && RowOk(s.db, a);
    assert MachineAccepts(s.db, e);
    BackedStays(s, b, a);
  }

  /******* Every action *******/

  // Machines accept ANALYSIS jobs only through the gate, and only CHECKs finish with a verdict.
  lemma SingleMoveEvidence(s: Sys, a: Act)
    requires Enabled(s, a) && !a.GateUpstream? && SingleMove(s.db, a).Some? && MoveRefusal(s.db, SingleMove(s.db, a).value).None?
    ensures var q := SingleMove(s.db, a).value;
      && (q.to == Accepted && !q.actor.Human? ==> s.db.jobs[q.job].jtype != ANALYSIS)
      && (q.verdict.Some? ==> q.verdict.value in s.db.verdicts && s.db.verdicts[q.verdict.value].job == q.job)
  {}

  lemma MoveEvidence(db: Db, q: Request)
    requires MoveRefusal(db, q).None? ==>
      && (q.to == Accepted && !q.actor.Human? ==> db.jobs[q.job].jtype != ANALYSIS)
      && (q.verdict.Some? ==> q.verdict.value in db.verdicts && db.verdicts[q.verdict.value].job == q.job)
    ensures OwnWrites(db, Move(db, q)) && BackedEvents(db, Move(db, q))
  {
    if MoveRefusal(db, q).None? {
      VerbOfAcceptance(db.jobs[q.job].state, q.to);
    }
  }

  lemma VerbOfAcceptance(from: JobState, to: JobState)
    ensures JobVerb(from, to) == Some(JobAccepted) ==> to == Accepted
  {}

  lemma SingleEvidence(s: Sys, a: Act)
    requires Inv(s) && EvidenceOk(s) && Enabled(s, a) && !Aside(a) && !Composite(a)
    ensures EvidenceOk(Step(s, a))
  {
    hide *;
    StepSummary(s, a);
    JudgedGrows(s, a);
    MoveEffect(s, a);
    if SingleMove(s.db, a).Some? {
      var q := SingleMove(s.db, a).value;
      if a.GateUpstream? {
        GateReads(s, a);
        GateWrites(s, a.j, a.u, a.ts);
      } else {
        if MoveRefusal(s.db, q).None? { SingleMoveEvidence(s, a); }
        MoveEvidence(s.db, q);
      }
      MoveVerdicts(s, q);
    } else {
      NothingWritten(s);
    }
    EvidenceKeeps(s, a, Step(s, a).db, Step(s, a).judged);
  }

  lemma MoveVerdicts(s: Sys, q: Request)
    ensures NewVerdicts(s, Move(s.db, q))
  {}

  lemma NothingWritten(s: Sys)
    ensures OwnWrites(s.db, s.db) && BackedEvents(s.db, s.db) && NewVerdicts(s, s.db)
  {}

  // The gate accepts an upstream only on its own CHECK's verdict at the policy's level.
  lemma GateWrites(s: Sys, c: JobId, u: JobId, ts: int)
    requires Inv(s) && EvidenceOk(s) && Checked(s.db, c) && u in s.db.jobs && Dep(c, u) in s.db.deps
    ensures OwnWrites(s.db, Move(s.db, GateUp(s.db, c, u, ts))) && BackedEvents(s.db, Move(s.db, GateUp(s.db, c, u, ts)))
  {
    hide Inv, EvidenceOk, OwnWrites, BackedEvents, Move;
    if s.db.jobs[u].state == Succeeded {
      GateBacks(s, c, u, ts);
    } else {
      GateTooLate(s.db, c, u, ts);
    }
  }

  lemma GateReads(s: Sys, a: Act)
    requires Enabled(s, a) && a.GateUpstream?
    ensures Checked(s.db, a.j) && a.u in s.db.jobs && Dep(a.j, a.u) in s.db.deps
    ensures SingleMove(s.db, a) == Some(GateUp(s.db, a.j, a.u, a.ts))
  {}

  lemma GateTooLate(db: Db, c: JobId, u: JobId, ts: int)
    requires Checked(db, c) && u in db.jobs && db.jobs[u].state != Succeeded
    ensures var b := Move(db, GateUp(db, c, u, ts)); OwnWrites(db, b) && BackedEvents(db, b)
  {
    assert MoveRefusal(db, GateUp(db, c, u, ts)).Some?;
  }

  lemma AsideEvidence(s: Sys, a: Act)
    requires Inv(s) && EvidenceOk(s) && Enabled(s, a) && Aside(a)
    ensures EvidenceOk(Step(s, a))
  {
    hide Summary;
    hide Step, Enabled;
    StepSummary(s, a);
    JudgedGrows(s, a);
    AsideEffect(s, a);
    AsideVerdicts(s, a);
    AsideWrites(s.db, a, Step(s, a).db);
    EvidenceKeeps(s, a, Step(s, a).db, Step(s, a).judged);
  }

  lemma JudgedGrows(s: Sys, a: Act)
    ensures Step(s, a) == Sys(Step(s, a).db, Step(s, a).seen, Step(s, a).judged, Step(s, a).pending)
    ensures s.judged <= Step(s, a).judged
  {
    hide Ops, Exec, NextSeen, Enabled;
  }

  lemma AsideWrites(db: Db, a: Act, b: Db)
    requires LeavesRows(db, a, b)
    ensures OwnWrites(db, b) && BackedEvents(db, b)
  {}

  lemma AsideVerdicts(s: Sys, a: Act)
    requires EdgesOk(s.db) && EdgePairs(s.db) && EvidenceOk(s) && Enabled(s, a) && Aside(a)
    ensures NewVerdicts(s, Step(s, a).db)
  {
    if a.GiveVerdict? {
      GivenVerdict(s, a);
    } else {
      hide Step, Enabled;
      AsideEffect(s, a);
    }
  }

  lemma GivenVerdict(s: Sys, a: Act)
    requires EdgesOk(s.db) && EdgePairs(s.db) && EvidenceOk(s) && Enabled(s, a) && a.GiveVerdict?
    ensures NewVerdicts(s, Step(s, a).db)
  {
    Exec1(s.db, Ops(s, a)[0]);
    var v := Verdict(a.j, if a.up.Some? then s.db.jobs[a.up.value].runRef else None, a.level);
    forall d <- s.db.deps | d.job == a.j ensures d.on in s.db.jobs && v.runRef == s.db.jobs[d.on].runRef {
      assert EdgeOk(s.db, d);
      assert a.up.Some? && Dep(a.j, a.up.value) in s.db.deps;
    }
  }

  lemma GateBacks(s: Sys, c: JobId, u: JobId, ts: int)
    requires Inv(s) && EvidenceOk(s) && Checked(s.db, c) && u in s.db.jobs && Dep(c, u) in s.db.deps
    requires s.db.jobs[u].state == Succeeded
    ensures var mid := Move(s.db, GateUp(s.db, c, u, ts)); OwnWrites(s.db, mid) && BackedEvents(s.db, mid)
  {
    var v := s.db.jobs[c].verdict.value;
    assert v in s.db.verdicts && VerdictOk(s.db, s.db.verdicts[v]) && OwnVerdict(s.db, c);
    assert EdgeOk(s.db, Dep(c, u));
    hide VerdictOk, EdgeOk, OwnVerdict;
    GateBacksMove(s.db, c, u, ts);
  }

  lemma GateBacksMove(db: Db, c: JobId, u: JobId, ts: int)
    requires Checked(db, c) && u in db.jobs && Dep(c, u) in db.deps && db.jobs[u].state == Succeeded
    requires db.jobs[u].jtype == ANALYSIS && db.jobs[u].study == db.jobs[c].study
    requires db.verdicts[db.jobs[c].verdict.value].job == c && db.verdicts[db.jobs[c].verdict.value].runRef == db.jobs[u].runRef
    ensures var mid := Move(db, GateUp(db, c, u, ts)); OwnWrites(db, mid) && BackedEvents(db, mid)
  {
    var q := GateUp(db, c, u, ts);
    var mid := Move(db, q);
    if MoveRefusal(db, q).None? {
      assert mid.jobs[u] == MovedRow(db.jobs[u], q);
      assert q.to == Accepted ==> Backed(mid, u);
    }
  }

  lemma BirthEvidence(s: Sys, a: Act)
    requires Inv(s) && EvidenceOk(s) && Enabled(s, a) && Composite(a) && !a.RunTriage? && !a.HalfTriage?
    ensures EvidenceOk(Step(s, a))
  {
    hide Origin, Leaves;
    hide Step, Enabled;
    StepSummary(s, a);
    JudgedGrows(s, a);
    StructIsLinked(s.db);
    CompositeEffect(s, a);
    BirthWrites(s.db, a, Step(s, a).db);
    EvidenceKeeps(s, a, Step(s, a).db, Step(s, a).judged);
  }

  lemma BirthWrites(db: Db, a: Act, b: Db)
    requires Leaves(db, a, b)
    ensures OwnWrites(db, b) && BackedEvents(db, b) && b.verdicts == db.verdicts
  {
    hide OwnWrites, BackedEvents, AfterCase, AfterReport, Proposes;
    match a
    case AddCase(_, _, _, _, _, _, _) => CaseWrites(db, a);
    case AddReport(_, _, _, _) => ReportWrites(db, a);
    case MakeTriage(j, tid, ts) => ProposalWrites(db, TriageJob(db.jobs[j], j, tid, ts));
    case _ =>
  }

  lemma CaseWrites(db: Db, a: Act)
    requires a.AddCase? && a.aid !in db.jobs && a.cid !in db.jobs && a.aid != a.cid
    ensures var b := AfterCase(db, a); OwnWrites(db, b) && BackedEvents(db, b) && b.verdicts == db.verdicts
  {}

  lemma ReportWrites(db: Db, a: Act)
    requires a.AddReport? && a.sid in db.studies && a.rid !in db.jobs
    ensures var b := AfterReport(db, a); OwnWrites(db, b) && BackedEvents(db, b) && b.verdicts == db.verdicts
  {}

  lemma ProposalWrites(db: Db, n: NewJob)
    requires n.id !in db.jobs
    ensures var b := Proposes(db, n); OwnWrites(db, b) && BackedEvents(db, b) && b.verdicts == db.verdicts
  {}

  lemma TriageEvidence(s: Sys, a: Act)
    requires Inv(s) && EvidenceOk(s) && Enabled(s, a) && (a.RunTriage? || a.HalfTriage?)
    ensures EvidenceOk(Step(s, a))
  {
    hide Origin, TriageOutcome;
    hide Step, Enabled, EvidenceOk, Struct, ReadyOk, TriageOk, Adds;
    InvParts(s);
    StepSummary(s, a);
    JudgedGrows(s, a);
    if a.RunTriage? {
      var p, pre, q, last := TriageStep(s, a);
      TriageWrites(s.db, Step(s, a).db, p, a.rid, pre, q, last);
    } else {
      var p, pre := HalfStep(s, a);
      HalfWrites(s.db, Step(s, a).db, p, a.rid, pre);
    }
    hide Inv;
    EvidenceKeeps(s, a, Step(s, a).db, Step(s, a).judged);
  }

  lemma TriageWrites(db: Db, b: Db, p: JobId, rid: JobId, pre: seq<Event>, q: Request, last: seq<Event>)
    requires TriageOutcome(db, b, p, rid) && TriageEvents(db, b, p, pre, q, last)
    ensures OwnWrites(db, b) && BackedEvents(db, b) && b.verdicts == db.verdicts
  {
    NothingAccepted(db, b, p, pre, q, last);
    OutcomeOwns(db, b, p, rid);
    hide OwnWrites, TriageOutcome, TriageEvents;
  }

  lemma OutcomeOwns(db: Db, b: Db, p: JobId, rid: JobId)
    requires TriageOutcome(db, b, p, rid)
    ensures OwnWrites(db, b) && b.verdicts == db.verdicts
  {}

  lemma TriageAcceptsNothing(row: Job, q: Request)
    requires row.state == Triage && JobVerb(Triage, q.to).Some?
    ensures MoveEvent(row, q).verb != JobAccepted
  {}

  lemma NothingAccepted(db: Db, b: Db, p: JobId, pre: seq<Event>, q: Request, last: seq<Event>)
    requires TriageEvents(db, b, p, pre, q, last)
    ensures db.log <= b.log && forall i :: |db.log| <= i < |b.log| ==> b.log[i].verb != JobAccepted
  {
    hide JobVerb, MoveEvent;
    TriageAcceptsNothing(db.jobs[p], q);
    NoneAmong(db.log, pre, MoveEvent(db.jobs[p], q), last);
  }

  lemma NoneAmong(log: seq<Event>, pre: seq<Event>, e: Event, last: seq<Event>)
    requires (forall i :: 0 <= i < |pre| ==> pre[i].verb != JobAccepted) && e.verb != JobAccepted
    requires forall i :: 0 <= i < |last| ==> last[i].verb != JobAccepted
    ensures var all := log + pre + [e] + last; log <= all && forall i :: |log| <= i < |all| ==> all[i].verb != JobAccepted
  {
    var all := log + pre + [e] + last;
    forall i | |log| <= i < |all| ensures all[i].verb != JobAccepted {
      var k := i - |log|;
      if k < |pre| { assert all[i] == pre[k]; } else if k > |pre| { assert all[i] == last[k - |pre| - 1]; }
    }
  }

  lemma HalfWrites(db: Db, b: Db, p: JobId, rid: JobId, pre: seq<Event>)
    requires p in db.jobs && HalfOutcome(db, b, p, rid) && b.log == db.log + pre
    requires forall i :: 0 <= i < |pre| ==> BirthEvent(pre[i], db.jobs[p].Key())
    ensures OwnWrites(db, b) && BackedEvents(db, b) && b.verdicts == db.verdicts
  {
    forall i | |db.log| <= i < |b.log| ensures b.log[i].verb != JobAccepted { assert b.log[i] == pre[i - |db.log|]; }
  }

  lemma EvidenceStep(s: Sys, a: Act)
    requires Inv(s) && EvidenceOk(s)
    ensures EvidenceOk(Step(s, a))
  {
    hide Ops, Exec, NextSeen, Enabled, Inv;
    if Enabled(s, a) {
      if Aside(a) { AsideEvidence(s, a); }
      else if a.RunTriage? || a.HalfTriage? { TriageEvidence(s, a); }
      else if Composite(a) { BirthEvidence(s, a); }
      else { SingleEvidence(s, a); }
    }
  }

  lemma {:induction false} EvidenceRun(acts: seq<Act>)
    ensures EvidenceOk(Run(INIT, acts))
  {
    hide Step, Inv;
    if acts != [] {
      EvidenceRun(acts[..|acts| - 1]);
      InvReachable(acts[..|acts| - 1]);
      EvidenceStep(Run(INIT, acts[..|acts| - 1]), acts[|acts| - 1]);
    }
  }

  /******* The theorems *******/

  // Every accepted ANALYSIS was accepted by a human or is backed by its CHECK's verdict.
  lemma AcceptedIsBacked(acts: seq<Act>, a: JobId)
    requires var db := Run(INIT, acts).db; a in db.jobs && db.jobs[a].jtype == ANALYSIS && db.jobs[a].state == Accepted
    ensures var db := Run(INIT, acts).db;
      (exists e <- db.log :: e.Moves(a) && e.verb == JobAccepted && e.actor.Human?) || Backed(db, a)
  {
    hide Exec;
    hide Run, Backed;
    var db := Run(INIT, acts).db;
    EvidenceRun(acts);
    var ops := RunIsExec(INIT, acts);
    var e := LastAccepts(ops, a);
    if !e.actor.Human? {
      assert MachineAccepts(db, e);
    }
  }

  // An accepted job's trail ends with the event that accepted it.
  lemma LastAccepts(ops: seq<Op>, a: JobId) returns (e: Event)
    requires a in Exec(EMPTY, ops).jobs && Exec(EMPTY, ops).jobs[a].state == Accepted
    ensures e in Exec(EMPTY, ops).log && e.Moves(a) && e.verb == JobAccepted
  {
    var log := Exec(EMPTY, ops).log;
    var _ := WholeTrail(ops, a);
    var trail := Trail(log, a);
    hide Exec;
    TrailIn(log, a);
    e := trail[|trail| - 1];
    assert e in trail && LegalEvent(e) && e.detail.to == Accepted;
  }

  // A job that was ever sent to review became accepted only by a human.
  lemma ReviewedIsHumanAccepted(acts: seq<Act>, a: JobId, i: nat)
    requires var db := Run(INIT, acts).db; a in db.jobs && db.jobs[a].state == Accepted
    requires var trail := Trail(Run(INIT, acts).db.log, a); i < |trail| && trail[i].verb == JobReviewRequested
    ensures var trail := Trail(Run(INIT, acts).db.log, a);
      |trail| > 0 && trail[|trail| - 1].verb == JobAccepted && trail[|trail| - 1].actor.Human?
  {
    var db := Run(INIT, acts).db;
    var ops := RunIsExec(INIT, acts);
    var _ := WholeTrail(ops, a);
    hide Chain, Run;
    ReviewedThenHuman(Trail(db.log, a), Proposed, i);
  }
}
