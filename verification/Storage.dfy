/**
 The substrate's write surface as an object: the tables are fields, and every writer changes them the way its
 transaction does. Each method is proved equal to its function in Substrate, so everything proved about
 interleavings of those functions holds of any sequence of calls.
 */
module Storage {
  import opened Wrappers
  import opened Rows
  import opened Substrate
  import opened Protocol
  import opened Sets

  // An id nobody has drawn yet: ids are unique across processes.
  method FreshId(db: Db) returns (n: int)
    ensures (forall j <- db.jobs :: j < n) && (forall v <- db.verdicts :: v < n) && (forall s <- db.studies :: s < n)
  {
    var ids := db.jobs.Keys + db.verdicts.Keys + db.studies.Keys;
    var todo := ids;
    n := 0;
    while todo != {}
      invariant todo <= ids && forall i <- ids :: i in todo || i < n
    {
      var i := Choose(todo);
      if i >= n { n := i + 1; }
      todo := todo - {i};
    }
    assert (forall j <- db.jobs :: j in ids) && (forall v <- db.verdicts :: v in ids) && (forall s <- db.studies :: s in ids);
  }

  lemma MoveIs(db: Db, q: Request)
    ensures MoveRefusal(db, q).Some? ==> Move(db, q) == db
    ensures MoveRefusal(db, q).None? ==>
      && q.job in db.jobs && JobVerb(db.jobs[q.job].state, q.to).Some?
      && Move(db, q) == db.(jobs := db.jobs[q.job := MovedRow(db.jobs[q.job], q)], log := db.log + [MoveEvent(db.jobs[q.job], q)])
  {}

  class Store {
    var jobs: map<JobId, Job>
    var deps: set<Dep>
    var verdicts: map<VerdictId, Verdict>
    var studies: map<StudyId, Study>
    var workers: map<WorkerId, WorkerRow>
    var log: seq<Event>
    // ids are drawn in increasing order
    var nextId: int
    // what the workers' claim loops hold in local variables, what they ever held, and what processes are in the middle of
    var seen: map<WorkerId, set<JobId>>
    var judged: set<JobId>
    var pending: Pending

    function Db(): Db
      reads this
    {
      Rows.Db(jobs, deps, verdicts, studies, workers, log)
    }

    function Sys(): Sys
      reads this
    {
      Protocol.Sys(Db(), seen, judged, pending)
    }

    // No id that is still to be drawn is in use.
    ghost predicate Fresh()
      reads this
    {
      (forall j <- jobs :: j < nextId) && (forall v <- verdicts :: v < nextId) && (forall s <- studies :: s < nextId)
    }

    constructor ()
      ensures Sys() == INIT && Fresh()
    {
      jobs, deps, verdicts, studies, workers, log := map[], {}, map[], map[], map[], [];
      nextId, seen, judged, pending := 0, map[], {}, INIT.pending;
    }

    // transition(): the row and its event in one transaction, or neither
    method Transition(q: Request) returns (refusal: Option<Refusal>)
      modifies this`jobs, this`log
      ensures refusal == MoveRefusal(old(Db()), q)
      ensures Db() == Move(old(Db()), q)
    {
      hide Move;
      MoveIs(Db(), q);
      if q.actor.Malformed? { return Some(MalformedActor); }
      if q.job !in jobs { return Some(JobNotFound); }
      var row := jobs[q.job];
      if q.expected.Some? && row.state != q.expected.value { return Some(StaleState); }
      var verb := JobVerb(row.state, q.to);
      if verb.None? { return Some(IllegalTransition); }
      if !ActorMay(q.actor, row.state, q.to) { return Some(ActorNotAllowed); }
      var sets := row.(state := q.to);
      if row.state == Queued && q.to == Assigned {
        if q.worker.None? || q.lease.None? { return Some(ClaimIncomplete); }
        if q.worker.value !in workers { return Some(Integrity); }
        sets := sets.(worker := q.worker, lease := q.lease);
      } else if LeaseExpiry(row.state, q.to) {
        sets := sets.(worker := None, lease := None, attempt := row.attempt + 1);
      } else if q.to == Running {
        if q.lease.Some? { sets := sets.(lease := q.lease); }
      } else if row.state == Assigned || row.state == Running {
        sets := sets.(lease := None);
      }
      if q.runRef.Some? { sets := sets.(runRef := q.runRef); }
      if q.verdict.Some? { sets := sets.(verdict := q.verdict); }
      jobs := jobs[q.job := sets];
      log := log + [Event(q.ts, q.actor, verb.value, JobSubject(q.job),
        Moved(row.state, q.to, q.permanent, row.Key(), row.attempt))];
      return None;
    }

    method StudyTransition(q: StudyRequest) returns (refusal: Option<Refusal>)
      modifies this`studies, this`log
      ensures refusal == StudyRefusal(old(Db()), q)
      ensures Db() == MoveStudy(old(Db()), q)
    {
      if q.actor.Malformed? { return Some(MalformedActor); }
      if q.study !in studies { return Some(StudyNotFound); }
      var s := studies[q.study];
      if q.expected.Some? && s.status != q.expected.value { return Some(StaleState); }
      var verb := StudyVerb(s.status, q.to);
      if verb.None? { return Some(IllegalTransition); }
      if !StudyActorMay(q.actor, s.status, q.to) { return Some(ActorNotAllowed); }
      studies := studies[q.study := s.(status := q.to)];
      log := log + [Event(q.ts, q.actor, verb.value, StudySubject(q.study), NoDetail)];
      return None;
    }

    // The owner is validated; the event's actor, which defaults to the owner, is not.
    method NewStudy(owner: Actor, policy: Policy, actor: Option<Actor>, ts: int) returns (id: StudyId, refusal: Option<Refusal>)
      requires Fresh()
      modifies this`studies, this`log, this`nextId
      ensures Fresh() && id == old(nextId)
      ensures refusal == if owner.Malformed? then Some(MalformedActor) else None
      ensures Db() == CreateStudy(old(Db()), id, owner, policy, actor, ts)
    {
      id := nextId;
      if owner.Malformed? { return id, Some(MalformedActor); }
      var author := if actor.Some? then actor.value else owner;
      nextId := nextId + 1;
      studies := studies[id := Study(Draft, policy)];
      log := log + [Event(ts, author, StudySubmitted, StudySubject(id), NoDetail)];
      return id, None;
    }

    // create_job(): the row, its dependencies one by one, and the event; n.id is drawn here.
    method NewJob(n: NewJob) returns (id: JobId, refusal: Option<Refusal>)
      requires Fresh()
      modifies this`jobs, this`deps, this`log, this`nextId
      ensures Fresh() && id == old(nextId) && nextId == id + if n.actor.Malformed? then 0 else 1
      ensures refusal == CreateRefusal(old(Db()), n.(id := id))
      ensures Db() == CreateJob(old(Db()), n.(id := id))
    {
      id := nextId;
      if n.actor.Malformed? { return id, Some(MalformedActor); }
      nextId := nextId + 1;
      if n.study !in studies || (n.parent.Some? && n.parent.value !in jobs) { return id, Some(Integrity); }
      var edges: set<Dep> := {};
      for i := 0 to |n.deps|
        invariant Distinct(n.deps[..i]) && forall k :: 0 <= k < i ==> n.deps[k] in jobs
        invariant edges == set d | d in n.deps[..i] :: Dep(id, d)
      {
        var edge := Dep(id, n.deps[i]);
        if n.deps[i] !in jobs || edge in edges {
          assert edge in edges ==> exists k :: 0 <= k < i && n.deps[k] == n.deps[i];
          return id, Some(Integrity);
        }
        edges := edges + {edge};
      }
      assert n.deps[..|n.deps|] == n.deps;
      jobs := jobs[id := NewRow(n)];
      deps := deps + edges;
      log := log + [Event(n.ts, n.actor, JobProposed, JobSubject(id), NoDetail)];
      return id, None;
    }

    method NewVerdict(v: Verdict, actor: Actor, ts: int) returns (id: VerdictId, refusal: Option<Refusal>)
      requires Fresh()
      modifies this`verdicts, this`log, this`nextId
      ensures Fresh() && id == old(nextId)
      ensures refusal == if actor.Malformed? then Some(MalformedActor) else if v.job !in jobs then Some(Integrity) else None
      ensures Db() == RecordVerdict(old(Db()), id, v, actor, ts)
    {
      id := nextId;
      if actor.Malformed? { return id, Some(MalformedActor); }
      nextId := nextId + 1;
      if v.job !in jobs { return id, Some(Integrity); }
      verdicts := verdicts[id := v];
      log := log + [Event(ts, actor, VerdictRecorded, VerdictSubject(id), NoDetail)];
      return id, None;
    }

    method Register(w: WorkerId, solvers: set<string>, memMb: Option<int>, capacity: int, ts: int)
      modifies this`workers, this`log
      ensures Db() == RegisterWorker(old(Db()), w, solvers, memMb, capacity, ts)
    {
      workers := workers[w := WorkerRow(solvers, memMb, capacity, Online, ts)];
      log := log + [Event(ts, Worker(w), WorkerRegistered, WorkerSubject(w), NoDetail)];
    }

    // The UPDATE of job_dep that moves the dependents of one job to another
    method Redirect(from: JobId, to: JobId)
      modifies this`deps
      ensures Db() == Repoint(old(Db()), from, to)
    {
      if to !in jobs || exists d <- deps :: d.on == from && Dep(d.job, to) in deps { return; }
      deps := set d | d in deps :: if d.on == from then Dep(d.job, to) else d;
    }

    method Decide(about: JobId, ts: int)
      modifies this`log
      ensures Db() == LogDecision(old(Db()), about, ts)
    {
      log := log + [Event(ts, Agent, DecisionLogged, JobSubject(about), NoDetail)];
    }

    // Steps of other processes between two of ours
    method Interfere(acts: seq<Act>)
      modifies this
      ensures Sys() == Run(old(Sys()), acts) && Fresh()
    {
      hide Run, Step;
      Become(Run(Sys(), acts));
    }

    method Become(next: Sys)
      modifies this
      ensures Sys() == next && Fresh()
    {
      nextId := FreshId(next.db);
      jobs, deps, verdicts, studies, workers := next.db.jobs, next.db.deps, next.db.verdicts, next.db.studies, next.db.workers;
      log, seen, judged, pending := next.db.log, next.seen, next.judged, next.pending;
    }

    // The same, but what this process is in the middle of is left to it
    method InterfereSparing(acts: seq<Act>, mine: Pending) returns (ghost done: seq<Act>)
      requires Fresh() && Holds(pending, mine)
      modifies this
      ensures Sys() == Run(old(Sys()), done) && Fresh() && Holds(pending, mine)
      ensures (forall a <- done :: a in acts && !(a.ApproveTriage? && a.tid in mine.approve))
      ensures acts == [] ==> done == [] && nextId == old(nextId)
    {
      hide Run, Holds, Takes;
      NoSteps(Sys());
      done := [];
      for i := 0 to |acts|
        invariant Sys() == Run(old(Sys()), done) && Fresh() && Holds(pending, mine)
        invariant (forall a <- done :: a in acts && !(a.ApproveTriage? && a.tid in mine.approve))
        invariant i == 0 ==> done == [] && nextId == old(nextId)
      {
        if !Takes(pending, acts[i], mine) {
          ApprovalsAreTaken(pending, acts[i], mine);
          Spared(Sys(), acts[i], mine);
          RunConcat(old(Sys()), done, [acts[i]]);
          done := done + [acts[i]];
          Interfere([acts[i]]);
        }
      }
    }
  }

  // What a process is about to do: the TRIAGE jobs to create, to approve and to run, the jobs to reap, the studies to review
  predicate Holds(p: Pending, mine: Pending) {
    mine.make <= p.make && mine.approve <= p.approve && mine.run <= p.run && mine.reap <= p.reap && mine.review <= p.review
  }

  // The step would use up what somebody else is about to do.
  predicate Takes(p: Pending, a: Act, mine: Pending) {
    match a
    case MakeTriage(j, _, _) => p.make[j] <= mine.make[j]
    case DropTriage(j, _) => p.make[j] <= mine.make[j]
    case ApproveTriage(tid, _) => tid in mine.approve
    case DropApproval(tid, _) => tid in mine.approve
    case RunTriage(_, t, _, _, _, _) => p.run[t] <= mine.run[t]
    case HalfTriage(_, t, _, _, _, _) => p.run[t] <= mine.run[t]
    case DropRun(t, _) => p.run[t] <= mine.run[t]
    case Reap(j, started, exhausted, _) => p.reap[Find(j, started, exhausted)] <= mine.reap[Find(j, started, exhausted)]
    case SyncReview(sid, _) => p.review[sid] <= mine.review[sid]
    case _ => false
  }

  lemma NoSteps(s: Sys)
    ensures Run(s, []) == s
  {
    hide Step;
  }

  lemma Spared(s: Sys, a: Act, mine: Pending)
    requires Holds(s.pending, mine) && !Takes(s.pending, a, mine)
    ensures Holds(Run(s, [a]).pending, mine)
  {
    hide Ops, Exec, NextSeen, Enabled;
    RunPush(s, [], a);
    assert [] + [a] == [a];
    hide Step, Run;
    Disabled(s, a);
    NextIs(s, a);
    StillHolds(s, a, mine);
  }

  lemma NextIs(s: Sys, a: Act)
    ensures Enabled(s, a) ==> Step(s, a).pending == NextPending(s, a)
  {
    hide Ops, Exec, NextSeen, Enabled;
  }

  lemma StillHolds(s: Sys, a: Act, mine: Pending)
    requires Holds(s.pending, mine) && !Takes(s.pending, a, mine)
    ensures Holds(NextPending(s, a), mine)
  {
    MakeStays(s, a, mine);
    ApproveStays(s, a, mine);
    RunStays(s, a, mine);
    ReapStays(s, a, mine);
    ReviewStays(s, a, mine);
    hide NextPending, Takes;
  }

  lemma ApprovalsAreTaken(p: Pending, a: Act, mine: Pending)
    ensures a.ApproveTriage? && a.tid in mine.approve ==> Takes(p, a, mine)
  {}

  lemma MakeStays(s: Sys, a: Act, mine: Pending)
    requires mine.make <= s.pending.make && !Takes(s.pending, a, mine)
    ensures mine.make <= NextPending(s, a).make
  {}

  lemma ApproveStays(s: Sys, a: Act, mine: Pending)
    requires mine.approve <= s.pending.approve && !Takes(s.pending, a, mine)
    ensures mine.approve <= NextPending(s, a).approve
  {}

  lemma RunStays(s: Sys, a: Act, mine: Pending)
    requires mine.run <= s.pending.run && !Takes(s.pending, a, mine)
    ensures mine.run <= NextPending(s, a).run
  {}

  lemma ReapStays(s: Sys, a: Act, mine: Pending)
    requires mine.reap <= s.pending.reap && !Takes(s.pending, a, mine)
    ensures mine.reap <= NextPending(s, a).reap
  {}

  lemma ReviewStays(s: Sys, a: Act, mine: Pending)
    requires mine.review <= s.pending.review && !Takes(s.pending, a, mine)
    ensures mine.review <= NextPending(s, a).review
  {}
}
