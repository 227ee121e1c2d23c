/**
 What no transaction can undo: a terminal job stays as it is, its last failure stays the last, attempts only grow, and
 a job that has been in triage shows it. Hence what run_triage would decide about a job it has been called for before.
 */
module History {
  import opened Wrappers
  import opened Rows
  import opened Substrate
  import opened EventLog
  import opened Protocol

  // The facts about p that every transaction keeps
  predicate Keeps(db: Db, b: Db, p: JobId) {
    && p in db.jobs && p in b.jobs && b.jobs[p].maxAttempts == db.jobs[p].maxAttempts && db.jobs[p].attempt <= b.jobs[p].attempt
    && (Terminal(db.jobs[p].state) ==>
          && b.jobs[p].state == db.jobs[p].state && b.jobs[p].attempt == db.jobs[p].attempt
          && PermanentFailure(b.log, p) == PermanentFailure(db.log, p))
  }

  lemma FailurePush(log: seq<Event>, e: Event, p: JobId)
    ensures PermanentFailure(log + [e], p) ==
            if e.subject == JobSubject(p) && e.verb == JobFailed then e.detail.Moved? && e.detail.permanent
              else PermanentFailure(log, p)
  {
    assert (log + [e])[..|log|] == log;
  }

  lemma ApplyKeeps(db: Db, op: Op, p: JobId)
    requires p in db.jobs
    ensures Keeps(db, Apply(db, op), p)
  {
    if op.DoMove? && MoveRefusal(db, op.move).None? {
      MoveKeeps(db, op.move, p);
    } else {
      OtherKeeps(db, op, p);
    }
  }

  lemma MoveKeeps(db: Db, q: Request, p: JobId)
    requires p in db.jobs && MoveRefusal(db, q).None?
    ensures Keeps(db, Move(db, q), p)
  {
    MoveShape(db, q);
    MovedKeeps(db.jobs[q.job], q);
    FailurePush(db.log, MoveEvent(db.jobs[q.job], q), p);
    assert Move(db, q).log == db.log + [MoveEvent(db.jobs[q.job], q)];
    hide Move, MovedRow, MoveRefusal, PermanentFailure;
  }

  lemma MovedKeeps(row: Job, q: Request)
    requires JobVerb(row.state, q.to).Some?
    ensures !Terminal(row.state) && MovedRow(row, q).maxAttempts == row.maxAttempts && MovedRow(row, q).attempt >= row.attempt
  {}

  lemma OtherKeeps(db: Db, op: Op, p: JobId)
    requires p in db.jobs && (op.DoMove? ==> MoveRefusal(db, op.move).Some?)
    ensures Keeps(db, Apply(db, op), p)
  {
    var b := Apply(db, op);
    if |b.log| > |db.log| {
      assert b.log == db.log + [b.log[|db.log|]];
      FailurePush(db.log, b.log[|db.log|], p);
    }
  }

  lemma {:induction false} ExecKeeps(db: Db, ops: seq<Op>, p: JobId)
    requires p in db.jobs
    ensures Keeps(db, Exec(db, ops), p)
  {
    if ops != [] {
      ExecKeeps(db, ops[..|ops| - 1], p);
      ApplyKeeps(Exec(db, ops[..|ops| - 1]), ops[|ops| - 1], p);
      hide Apply, PermanentFailure;
    }
  }

  lemma StepKeeps(s: Sys, a: Act, p: JobId)
    requires p in s.db.jobs
    ensures Keeps(s.db, Step(s, a).db, p)
  {
    if Enabled(s, a) {
      hide Enabled, Ops, PermanentFailure;
      ExecKeeps(s.db, Ops(s, a), p);
    }
  }

  /******* What triage has left behind *******/

  // p has been in triage: it still is, it was retried or written off there, or it is out of attempts.
  predicate Triaged(db: Db, p: JobId) {
    && p in db.jobs
    && (db.jobs[p].state in {Triage, RetrySpawned} || db.jobs[p].attempt >= db.jobs[p].maxAttempts
        || (db.jobs[p].state == Infeasible && PermanentFailure(db.log, p)))
  }

  // A superseded job had attempts left and no permanent failure.
  predicate Spent(db: Db, p: JobId) {
    p in db.jobs && db.jobs[p].state == RetrySpawned ==>
      db.jobs[p].attempt < db.jobs[p].maxAttempts && !PermanentFailure(db.log, p)
  }

  ghost predicate TriageOk(s: Sys) {
    && (forall p <- s.db.jobs :: Spent(s.db, p))
    && (forall t <- s.db.jobs :: s.db.jobs[t].payload.TriagePayload? ==> Triaged(s.db, s.db.jobs[t].payload.failedJob))
    && (forall p <- s.pending.make :: Triaged(s.db, p))
    && (forall t <- s.pending.approve + s.pending.ran :: t in s.db.jobs && s.db.jobs[t].jtype == TRIAGE)
    && (forall t <- s.pending.run :: t in s.db.jobs && s.db.jobs[t].jtype == TRIAGE)
  }

  // A run_triage for a job that has left triage makes a retry exactly when the job has been retried.
  lemma HalfDecision(db: Db, p: JobId)
    requires Triaged(db, p) && Spent(db, p) && db.jobs[p].state != Triage
    ensures TriageDecision(db, p) == RetrySpawned <==> db.jobs[p].state == RetrySpawned
  {}
}
