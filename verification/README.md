# The job substrate and its control plane

A Dafny model of the SQLite-backed job substrate in `src/have_agent` (a 15-state job machine with an append-only event
log) and of the processes that drive it: pull workers, reapers, control loops, triage, humans. The proofs say what holds
in every reachable state and over every run, and where the code falls short of its own documentation they say exactly
when, with a run from the empty database that shows it.

The model has four layers.

* **Values and transactions.** `Rows` has the tables and the two state machines, `Substrate` every writer as a function
  from one database to the next (a refused call returns it unchanged). `Columns` says the same in the words of the tables,
  without these functions: which rows a query selects, what an update makes of each column, the two transition tables as
  sets; its lemmas, and the contracts of the loops below, tie the two together. `EventLog` and `DepGraph` prove what holds
  for every interleaving of these transactions (`Substrate.Exec`).
* **The protocol.** `Protocol` is a transition system: an action is what one process does between two reads, and issues a
  list of transactions. What a process remembers from one action to the next is part of the state: the snapshots of the
  claim loops (`seen`, `judged`) and, in `pending`, the jobs a control loop has flipped or read as orphans and owes a
  TRIAGE child, the children it owes their approval, the TRIAGE jobs a worker has started and is about to run, the
  expired jobs a reaper has read, the studies a loop has found to be through. So stale reads, lost leases, races between
  loops and crashes between two transactions are runs like any other. `Effects` gives the actions in closed form;
  `History`, `Structure`, `Readiness` and `Steps` hold the invariant and the per-step facts; `Lineage`, `Budget`,
  `Attempts`, `RetryPolicy`, `Evidence`, `Closure`, `Capacity`, `Leases`, `Quiescence`, `Stranded`, `Control` and
  `ControlEnds` are the theorems.
* **The code's own loops.** `Storage.Store` is the database as an object with mutable tables; `Scheduler`, `ReapLoop`,
  `ChoreLoop`, `GateLoop`, `SpawnLoop`, `ControlLoop`, `TriageRun`, `WorkerLoop` and `Decompose` are the source's methods
  over it, with its loops and branches. Between any two of their transactions other processes take arbitrary steps (the
  parameters `others`). `Interference` says what a loop may rely on meanwhile, `Phases` ties each method to the protocol:
  it is a run of it (`Ran`), so the theorems apply; and it leaves the state its contract describes.
* **Witnesses.** `Scenario` and `Witness` build runs from the empty database, step by step, to the states the theorems
  make exceptions for.

`Greedy`, `Ulid` and `CaseMatrix` are the three pieces that stand alone.

Conventions: identifiers are the integers a ULID encodes, timestamps are microseconds, priorities and attempts are
unbounded as in Python. A transition event's `key` and `attempt` are history variables; no operation reads them. The
methods of the control plane start from a store that satisfies `Inv`, the invariant of every reachable state
(`Readiness.InvReachable`); the primitive writers start from any store.

What the code does where its documentation says or suggests otherwise; the model follows the code:

* `spawn_triage` calls the flip of the failed job its lock, but the repair arm of another loop may find the job before the
  child is there, and both loops make one (`Lineage.SecondChildIff`, `Witness.TwoChildren`).
* `run_triage` asks for a parent in triage, but makes the retry before it finds out, and may die before it retires the
  parent. Both give a case two live ANALYSIS jobs, and so does a plan that names a case twice; then the same idempotency
  key may start twice without a human. The theorems on lineage, budget and keys hold exactly as long as neither happens (`Lineage.OneLiveIff`); two TRIAGE
  jobs, one that is run twice after a lost lease, or a crash are enough (`Witness.RaceDoubles`, `LostLeaseDoubles`,
  `HalfRunDoubles`).
* Two reapers that have read the same expiry can both reap the job: the second takes a freshly started execution away, and
  may requeue it past `max_attempts` (`Leases.TakenIffFound`, `Attempts.WithinAttemptsIff`, `Witness.StaleReap`). A
  deployment in which no two reapers hold a finding of one job at a time is safe (`Attempts.OneReaperSuffices`).
* A control loop approves the TRIAGE job it has just made without looking at its state. If a human has decided on it in
  between, the approval raises out of `control_tick`, and out of the worker that ran it (`SpawnLoop.CreateTriageJob`,
  `Witness.TickIsOverruled`).
* A crashed handler is not to kill the worker, but both transitions a worker makes for a job it has lost raise, and the
  second one is outside of the try (`WorkerLoop.ReaperWins`, `WorkerLoop.PullWorker.Process`, `Witness.WorkerLosesJob`).
* The repair arm ignores jobs that already have a TRIAGE child, so a crash between the two halves of `spawn_triage` loses
  the jobs that had been through triage before, for ever (`Stranded`, `Witness.CrashStrandsForEver`); after a crash
  between the creation and the approval of the child only a human can go on.
* A study in review or closed may still get a TRIAGE job or a second retry, and may enter review with a job that is not
  terminal; exactly the latecomers of `Closure.Late` do that (`Witness.LateJob`, `Witness.ReviewedTooSoon`), and none can
  come iff nothing is owed in the study (`Closure.ClosureIffQuiet`).
* `decompose` reads a missing `auto_retry_max` as 2, `triage` reads it as 0, so the retries it budgets for are approved
  automatically exactly when the study names the key (`RetryPolicy.RetriesAreAutomatic`).
* A retried CHECK has no upstream any more (`Lineage.RetriedCheckIsBlind`), so `NoSilentDeadlock` assumes that CHECK jobs
  succeed.
* The aliases of `short_names` can collide (`CaseMatrix.AliasesDifferIff`, `CaseMatrix.AliasesCollide`); the case ids are
  distinct all the same, unless an axis repeats a value (`CaseMatrix.CaseIdsDifferIff`).

## Model

| member | source | states |
|---|---|---|
| `Rows.LeaseDuration` | src/have_agent/scheduler.py:140-141 | a lease lasts the longer of ten minutes and twice the estimated runtime |
| `Columns.JobTable` | src/have_agent/substrate.py:65-92 | a pair of job states has a verb iff the table of legal moves has that triple |
| `Columns.JobActors` | src/have_agent/substrate.py:168-176 | an actor may make a move iff the move is open to all, or the actor is human exactly when the move asks for one |
| `Columns.TerminalIff` | src/have_agent/substrate.py:57-59 | the terminal states are those no legal move leads out of |
| `Columns.StudyTable` | src/have_agent/substrate.py:125-136 | the same for the table of the study machine |
| `Columns.MoveColumns` | src/have_agent/substrate.py:234-311 | which of the checks makes transition raise, and, if none does, every column of the row, the other rows and tables, and the one event with its verb, actor and payload |
| `Columns.StudyColumns` | src/have_agent/substrate.py:314-366 | the same for a study, with the verb of every legal move |
| `Columns.NewStudyColumns` | src/have_agent/substrate.py:369-397 | create_study raises iff the owner is malformed, and otherwise makes a draft and logs the submission in the name of the actor, or else of the owner |
| `Columns.NewJobColumns` | src/have_agent/substrate.py:400-445 | when create_job raises, and, if it does not, every column of the new row, its edges and its event |
| `Columns.VerdictColumns` | src/have_agent/substrate.py:448-478 | the verdict row and its event |
| `Columns.WorkerColumns` | src/have_agent/substrate.py:481-508 | the worker row and its event |
| `Columns.RepointColumns` | src/have_agent/triage.py:85-88 | exactly the edges to the failed job lead to the retry instead, and nothing else changes |
| `Storage.Store.Transition` | src/have_agent/substrate.py:234-311 | the refusal, in the order the checks are made, and otherwise the row and its event together; nothing else of the store changes |
| `Storage.Store.StudyTransition` | src/have_agent/substrate.py:314-366 | the same for a study |
| `Storage.Store.NewStudy` | src/have_agent/substrate.py:369-397 | a draft study under a fresh id with its event, written by the actor or else the owner, or no change if the owner is malformed; the actor is not checked |
| `Storage.Store.NewJob` | src/have_agent/substrate.py:400-445 | a proposed row, one edge per dependency and the event, or, for a malformed actor, a broken foreign key or a repeated dependency, no change |
| `Storage.Store.NewVerdict` | src/have_agent/substrate.py:448-478 | the verdict under a fresh id with its event, or no change |
| `Storage.Store.Register` | src/have_agent/substrate.py:481-508 | the worker row is inserted or refreshed, with its event |
| `Storage.Store.Redirect` | src/have_agent/triage.py:85-88 | every edge to the one job becomes an edge to the other; all or none |
| `EventLog.LogDeterminesStore` | src/have_agent/substrate.py:260-311 | after any interleaving of transactions, folding the verbs of the log gives every job's state, and a job has a lease iff that state is assigned or running |
| `EventLog.LogExplains` | src/have_agent/substrate.py:260-311 | from any database on, a job's new transition events form a gap-free chain of legal moves by permitted actors from its old state to its new one, and its attempt has grown by the lease expiries among them |
| `EventLog.WholeTrail` | src/have_agent/substrate.py:400-445 | every row was written by one create_job call and its events lead from proposed to its state |
| `EventLog.TrailBound` | src/have_agent/substrate.py:65-94 | a job has at most 8 transition events, 3 more per lost lease and 6 more per human re-run |
| `EventLog.ClaimsAreSeparated` | src/have_agent/substrate.py:65-94 | between two claims of a job lies a lease expiry or a re-enqueue |
| `Protocol.RunIsExec` | src/have_agent/substrate.py:1-7 | every run of the processes is an interleaving of the write surface's transactions |
| `DepGraph.StaysAcyclic` | src/have_agent/substrate.py:433-436 | creation and repointing to jobs without dependencies keep the dependency graph acyclic, in every interleaving |
| `Lineage.RunIsAcyclic` | src/have_agent/triage.py:73-88 | so the dependency graph is acyclic in every run, although retries receive edges from older jobs |
| `Readiness.InvReachable` | src/have_agent/decompose.py:91-136 | in every reachable state the job graph has decompose's shape, with a live ANALYSIS behind each CHECK; what was once judged ready still is; and whatever a TRIAGE job or a control loop is about to act on has been in triage |
| `Lineage.ReadinessSurvives` | src/have_agent/scheduler.py:103-189 | once a runnable_jobs call has returned a job its edges never move and its upstreams stay settled, whatever happens before and after the claim, so the claim may check the state alone |
| `Lineage.SecondChildIff` | src/have_agent/control.py:41-75 | the TRIAGE job a loop creates is a second one under way iff the failed job has one under way already |
| `Lineage.OneLiveIff` | src/have_agent/triage.py:67-96 | a case has a single row that is not superseded iff every run_triage that made a retry for a row of it also retired that row and no plan named the case twice; once there are two there are always two |
| `Lineage.OneLiveAnalysis` | src/have_agent/triage.py:67-96 | each case has a live ANALYSIS with the overrides of the case and one CHECK that waits for it, and no other live row iff the case was never doubled |
| `Lineage.OneEdgePerCheck` | src/have_agent/decompose.py:91-119 | a CHECK made by decompose has exactly one edge, to a live ANALYSIS of its study |
| `Lineage.RetriedCheckIsBlind` | src/have_agent/triage.py:73-88 | the retry of a CHECK has no upstream: only edges that lead to a retried job are moved, not those that lead from it |
| `Lineage.CheckKeepsCase` | src/have_agent/triage.py:83-88 | however often its ANALYSIS is retried a CHECK stays with the same case |
| `Lineage.NoEdgeAtSuperseded` | src/have_agent/triage.py:83-88 | no edge ever leads to a retry_spawned job |
| `Structure.TriageStep` | src/have_agent/triage.py:44-108 | run_triage that comes as far as retiring the failed job retires it or replaces it by one successor, touches no other old row, and writes exactly the events named; the decision's own event is missing iff the worker dies before it |
| `Structure.HalfStep` | src/have_agent/triage.py:44-95 | run_triage that breaks off before that changes the database iff it came to make a retry, which then stands beside its parent; no old row is touched |
| `History.HalfDecision` | src/have_agent/triage.py:55-62 | called again for a job that has left triage, run_triage makes another retry iff the job was retried before |
| `Witness.TwoChildren` | src/have_agent/control.py:41-75 | a reachable state in which a failed job has two unfinished TRIAGE jobs |
| `Witness.RaceDoubles` | src/have_agent/triage.py:73-96 | a reachable state in which both have made a retry and both retries have started with one attempt number, without a human re-run |
| `Witness.LostLeaseDoubles` | src/have_agent/worker.py:156-162 | the case is doubled with a single TRIAGE job, started by one worker and, after that one lost the lease, by another |
| `Witness.HalfRunDoubles` | src/have_agent/triage.py:73-95 | and by a worker that dies after it has created the retry |
| `RetryPolicy.ExecutionBudget` | src/have_agent/triage.py:57-82 | as long as a case is not doubled, along its lineage attempt = 1 + retries + lease expiries, starts are at most attempt + human re-runs, and the attempt is within max_attempts iff the live row was never overdrawn |
| `Attempts.WithinAttemptsIff` | src/have_agent/scheduler.py:231-243 | a job stays within max_attempts iff no reaper ever requeued it, on what it had read, after another one had used up its last attempt |
| `Attempts.OneReaperSuffices` | src/have_agent/scheduler.py:221-243 | in particular it does as long as no two reapers hold findings of it at a time, as when nobody acts between a reaper's query and its transition |
| `Attempts.AttemptStep` | src/have_agent/scheduler.py:231-243 | nothing but a reaper's accepted requeue changes a job's attempt |
| `Witness.StaleReap` | src/have_agent/scheduler.py:221-243 | a reachable state in which a job that a second worker has just started is taken away at once by a second reaper, and past max_attempts |
| `RetryPolicy.AutoRetryBound` | src/have_agent/decompose.py:86-87 | with auto_retry_max = n a case that is not doubled has no retry waiting for approval, and starts at most n + 1 times plus human re-runs unless overdrawn |
| `RetryPolicy.RetriesAreAutomatic` | src/have_agent/triage.py:67-69 | all retries decompose budgets for are approved automatically iff the study names auto_retry_max |
| `RetryPolicy.IdempotencyKeys` | src/have_agent/worker.py:109-113 | as long as a case is not doubled no two starts of it carry the same attempt unless a human re-queued the case in between |
| `Evidence.AcceptedIsBacked` | src/have_agent/control.py:78-112 | an accepted ANALYSIS was accepted by a human, or carries a verdict of its own CHECK, about its own run, at the policy's auto level and not gated on |
| `Evidence.ReviewedIsHumanAccepted` | src/have_agent/substrate.py:100-115 | a job that was ever sent to review was accepted, if at all, by a human |
| `Closure.ClosedRun` | src/have_agent/control.py:155-164 | a study that is in review or closed, or that a loop has just found through, has only terminal jobs, as long as no latecomer finishes since |
| `Closure.ClosureIsFinal` | src/have_agent/control.py:144-164 | from then on neither its set of jobs nor their states change iff no latecomer finishes |
| `Closure.QuietClosureIsFinal` | src/have_agent/control.py:41-75 | none ever does if, when the study is closed, no loop owes a TRIAGE job in it and no worker is about to run one that would make a retry |
| `Closure.ClosureIffQuiet` | src/have_agent/control.py:41-75 | of a dispatched study whose jobs are all terminal no continuation changes the jobs iff no loop owes a TRIAGE job in it and no worker is about to run one that would make a retry |
| `Witness.LateJob` | src/have_agent/control.py:41-75 | a reachable study in review that gets another job |
| `Witness.ReviewedTooSoon` | src/have_agent/control.py:155-164 | a reachable study in review one of whose jobs is approved and about to run |
| `Leases.ReapedOnlyWhenExpired` | src/have_agent/scheduler.py:192-243 | with a clock that does not run backwards and no reaper holding an older finding, a reaper acts on a job only more than a lease duration after its last claim, start or heartbeat |
| `Leases.FoundIffExpired` | src/have_agent/scheduler.py:221-229 | conversely, a job last claimed, started or renewed at u and still leased is found by a reaper at a time ts iff ts is later than u plus its lease duration |
| `Leases.StartedRunIsNotReaped` | src/have_agent/worker.py:83-89 | then within the lease duration of its start no reap of the job is enabled and it keeps its attempt |
| `Leases.StillRunning` | src/have_agent/scheduler.py:221-243 | and it is still running unless its worker, or somebody in its place, reports it done or failed |
| `Leases.TakenIffFound` | src/have_agent/scheduler.py:221-243 | a running job can be taken away within its lease iff some reaper still holds a finding of it as running |
| `Capacity.NeverOverbooked` | src/have_agent/scheduler.py:151-189 | with one claim loop per worker id and a fixed capacity no worker ever holds more jobs than its capacity |
| `Quiescence.NoSilentDeadlock` | src/have_agent/control.py:34-177 | in a study that auto-accepts, whose CHECK, TRIAGE and REPORT jobs succeed once they are claimed, where no run_triage raises or is cut off, no loop dies after flipping a job that had been through triage, and humans act only on what is handed to them, a state with no loop at work, nothing to tick, nothing leased and nothing runnable has every unfinished job waiting for a human, directly, through its upstreams or through a TRIAGE job nobody approved |
| `Quiescence.NoSilentDeadlockPrompt` | src/have_agent/control.py:60-75 | the last kind does not occur if no loop dies between the creation and the approval of a TRIAGE job |
| `Stranded.CrashStrands` | src/have_agent/control.py:41-57 | a crash after the flip strands a failed job iff it had a TRIAGE child before, all its TRIAGE jobs are over and no loop or worker is about to act for it; the repair arm finds it iff it had no child |
| `Stranded.CrashAfterCreate` | src/have_agent/control.py:60-75 | a crash between the creation and the approval of the child leaves the job to a human iff no other loop owes it a child and none of its TRIAGE jobs is under way; the repair arm never finds it |
| `Stranded.HeldUntilDecided` | src/have_agent/control.py:60-75 | until a human decides on one of its TRIAGE jobs such a job stays in triage |
| `Stranded.StrandedForEver` | src/have_agent/control.py:49-56 | no human and no machine ever gets a stranded job out of triage |
| `Witness.CrashStrandsForEver` | src/have_agent/control.py:41-57 | a reachable job that stays in triage whatever anybody does from then on |
| `Control.TickIsIdle` | src/have_agent/control.py:167-177 | a tick changes nothing, rows or log, iff no phase has work in the state it starts from |
| `Control.FirstTick` | src/have_agent/control.py:34-177 | one tick leaves at most the TRIAGE jobs it has just made to be done |
| `Control.ThirdTickIsIdle` | src/have_agent/control.py:34-177 | with the clock standing still and nobody else at work the third tick changes neither rows nor log |
| `Control.ReachableShape` | src/have_agent/decompose.py:91-136 | every reachable state has the shape the convergence theorem asks for |
| `ControlEnds.ControlStepWorks` | src/have_agent/control.py:34-177 | every control step that changes anything lowers a measure, whatever the clock and the other loops do and wherever they crash, but for the reading of an orphan |
| `ControlEnds.ControlRunsEnd` | src/have_agent/control.py:34-177 | so interleaved control loops change the database at most that many times, and four times more per orphan read |
| `Interference.HeldRun` | src/have_agent/control.py:26-31 | the part of a row's selection that no other process can undo, so that a lost race means the row has been moved on |
| `Interference.CheckedRun` | src/have_agent/control.py:78-112 | a CHECK that succeeded with a verdict keeps the verdict, and once accepted stays accepted |
| `Scheduler.SelectQueued` | src/have_agent/scheduler.py:105-109 | the queued rows, once each, with their columns, lower priority numbers first and, among equals, older rows first |
| `Scheduler.RunnableJobs` | src/have_agent/scheduler.py:103-137 | exactly the queued jobs all of whose dependencies let them start (a REPORT waits for a terminal or exhausted job, any other for an accepted one, or a succeeded one if the policy accepts automatically), once each, lower priority numbers first and, among equals, older jobs first |
| `Scheduler.Heartbeat` | src/have_agent/scheduler.py:192-218 | the lease of every row this worker holds becomes now plus its own duration, no other column and no other row changes; returns how many |
| `Scheduler.Attempt` | src/have_agent/scheduler.py:173-188 | with the others moving in between, a turn of the claim loop wins the job or drops it from the snapshot because it was seen out of the queue; no other error occurs |
| `Scheduler.ClaimNext` | src/have_agent/scheduler.py:151-189 | a claimed job is assigned to the worker with a lease from now, was in the snapshot, can run on the worker, and no other snapshot job that can run there and was not lost has a lower priority number, or the same one and an earlier creation; None means the worker was not online with a free slot or every such job was seen out of the queue |
| `Greedy.Select` | src/have_agent/scheduler.py:67-84 | picks by priority and first fit, each job once, on a worker with its solvers and, where both are known, its memory, and no slot over its room; leaves no job that fits a free slot; every feasible assignment has at most twice as many jobs |
| `Greedy.HalfOfAny` | src/have_agent/scheduler.py:67-84 | any maximal assignment has at least half the jobs of any feasible one |
| `Greedy.HalfIsReached` | src/have_agent/scheduler.py:67-84 | the factor two is reached: the first job may take the only slot the second fits |
| `ReapLoop.ReapExpired` | src/have_agent/scheduler.py:221-243 | whatever the others do between its rows, it tries every job it read as expired and moves, and reports, exactly those still in the state it read, on the attempts it read; with nobody else at work every assigned or running row whose lease ended before now ends queued with one more attempt and no worker, or failed when out of attempts, and no other row changes |
| `ChoreLoop.EnqueueApproved` | src/have_agent/control.py:34-38 | whatever the others do, no approved job it selected is left before the queue; with nobody else at work exactly the rows in approved become queued, no other column changes, and it returns how many |
| `ChoreLoop.AutoAcceptSupportJobs` | src/have_agent/control.py:115-122 | the same for succeeded TRIAGE and REPORT jobs and their acceptance |
| `ChoreLoop.CancelDeadBranches` | src/have_agent/control.py:125-141 | with nobody else at work exactly the proposed, approved and queued rows, REPORTs excepted, with a rejected, infeasible or cancelled upstream become cancelled; a lost race is no error and is not counted |
| `GateLoop.ApplyVerdictGates` | src/have_agent/control.py:78-112 | whatever the others do between its rows and between the two transitions of a row, every graded CHECK it selected ends accepted; with nobody else at work its upstream, if it waits for the verdict, goes to accepted iff the level is the policy's auto level and not gated on, else to review, and carries the verdict, no other row moves, and the number of transitions is returned |
| `SpawnLoop.CreateTriageJob` | src/have_agent/control.py:60-75 | a TRIAGE child of the failed job, ten priorities ahead, floored at zero, and approved; with others moving between the creation and the approval it raises iff the child is not proposed any more, and then a human has decided on it |
| `SpawnLoop.SpawnTriageJobs` | src/have_agent/control.py:41-57 | whatever the others do before a flip, between a flip and its child, before a child's approval and before a repair, the ids it returns are new TRIAGE jobs; it raises only at an approval, of a child that is not proposed any more; with nobody else at work every failed job enters triage, and each of them and each orphan gets exactly one |
| `ControlLoop.SyncArm` | src/have_agent/control.py:144-164 | a run of the protocol whatever the others do, between the query and the transition too; with nobody else at work exactly the dispatched approved studies start, exactly the running studies with all jobs terminal go to review |
| `ControlLoop.ControlTick` | src/have_agent/control.py:167-177 | a run of the protocol whatever the others do in any phase; it raises only at the approval of a child that is not proposed any more; with nobody else at work it does not, and does the phases in order, with the counts it reports |
| `TriageRun.LastFailureIsPermanent` | src/have_agent/triage.py:23-29 | whether the newest failure of the job was permanent |
| `TriageRun.LastFailure` | src/have_agent/triage.py:23-29 | later events of other jobs and verbs do not matter to it |
| `TriageRun.NearestConvergedRun` | src/have_agent/triage.py:32-41 | the run of the ANALYSIS of the study that was updated last, of those succeeded or accepted with a run; None iff there is none |
| `TriageRun.LastUpdate` | src/have_agent/triage.py:32-41 | a job was updated last when its latest transition was logged |
| `TriageRun.SpawnRetry` | src/have_agent/triage.py:66-90 | every column of the retry: type, case, overrides, priority, resource and max_attempts of the failed job, one more attempt, approved iff the attempt is within auto_retry_max and else proposed, and for an ANALYSIS of a study that warms up the run of the sibling that converged last, or none if there is none; every edge to the failed job leads to the retry |
| `TriageRun.RunTriageJob` | src/have_agent/triage.py:44-108 | infeasible iff the newest failure was permanent, else escalated iff out of attempts, else such a retry; the failed job gets the outcome as its state, no other row changes; it raises iff the job was not in triage, and then has made the retry all the same |
| `WorkerLoop.RunAnalysis` | src/have_agent/worker.py:109-128 | the job succeeds or fails as the executor says, with its run; raises, and changes nothing, iff the job is not running any more |
| `WorkerLoop.RunCheck` | src/have_agent/worker.py:130-154 | a verdict about the run its upstream had when it was read is recorded in any case; the CHECK succeeds carrying it, or the call raises, iff the job is still running after what the others did meanwhile |
| `WorkerLoop.RunTriageHandler` | src/have_agent/worker.py:156-162 | the TRIAGE job succeeds with its decision made; raises iff the failed job was not in triage or the TRIAGE job is not running any more |
| `WorkerLoop.RunReport` | src/have_agent/worker.py:164-172 | the REPORT job succeeds; raises iff it is not running any more |
| `WorkerLoop.ReaperWins` | src/have_agent/worker.py:99-107 | after a reap neither the completion nor the except branch's transition is accepted, whoever makes it |
| `Witness.TickIsOverruled` | src/have_agent/control.py:60-75 | a reachable state in which a tick is about to raise: a human has approved the TRIAGE job it has just made |
| `Witness.WorkerLosesJob` | src/have_agent/worker.py:99-107 | a reachable state in which that is about to happen |
| `WorkerLoop.PullWorker.Process` | src/have_agent/worker.py:83-107 | with others at work before the start, in the handler, before the completion and before the except branch: the job is completed iff it was still assigned at its start, the handler did not raise, and it was still running at its completion; it is failed by the except branch iff it was still running then; otherwise the worker dies. It does not if all of this happens within the lease and no reaper held a finding of the job |
| `WorkerLoop.PullWorker.WorkLoop` | src/have_agent/worker.py:52-81 | a whole worker run, with others interfering everywhere, is a run of the protocol: it registers, and each turn ticks if the worker is to, beats, and gets from claim_next what that promises, and each claimed job and no other is processed, with the counts of its outcomes; the loop goes on until it is stopped, has claimed max_jobs, or has had max_idle turns in a row without a job, and not longer; a worker that died had a job that was not done in time or that a reaper had found before, or ticked and was overruled by a human |
| `Decompose.DecomposeStudy` | src/have_agent/decompose.py:76-153 | one ANALYSIS and one CHECK per case with the policy's priority and attempts (auto_retry_max or else 2, and one), the ANALYSIS asking for 240 s and the solver of the template, the CHECK for 30 s; one REPORT over all CHECKs; no other job or edge, and the study proposed; if there are cases their ids differ iff no axis repeats a value; it is a run of the protocol in any case |
| `CaseMatrix.ShortNames` | src/have_agent/decompose.py:26-42 | each key's alias is the shortest prefix of its axis word that no earlier key has, or, if all are taken, the word with its index |
| `CaseMatrix.AxisWordIs` | src/have_agent/decompose.py:33-36 | the word of a key, split at its dots and then at the underscores of the last part, is the last word, or the one before it if there is one and the last is a unit in lower case; lower-cased |
| `CaseMatrix.UnitDropped` | src/have_agent/decompose.py:33-36 | of a segment that ends in word_unit the word is taken iff the unit is one of the twelve unit tokens, else the unit |
| `CaseMatrix.LoneWord` | src/have_agent/decompose.py:33-36 | a segment of one word keeps it, even if it is a unit |
| `CaseMatrix.SplitIff` | src/have_agent/decompose.py:33 | the parts of a string are the only ones without a separator that join to it |
| `CaseMatrix.CanonicalAliases` | src/have_agent/decompose.py:26-30 | battery.specific_energy_whkg and mission.range_nm are called e and r, and 500 and 700 on them make e500_r700 |
| `CaseMatrix.CollidesWhen` | src/have_agent/decompose.py:37-40 | an alias equals an earlier one iff every prefix of its word and the word with its index were taken |
| `CaseMatrix.AliasesDifferIff` | src/have_agent/decompose.py:26-42 | the aliases of distinct keys are pairwise different iff no key finds every prefix of its word and the word with its index among the aliases before it |
| `CaseMatrix.AliasesCollide` | src/have_agent/decompose.py:26-42 | the keys a.r, b.r2 and c.r have the aliases r, r2 and r2 |
| `CaseMatrix.FormatInjective` | src/have_agent/decompose.py:45-48 | different integers are formatted differently |
| `CaseMatrix.FormatReads` | src/have_agent/decompose.py:45-48 | an integer is formatted as its decimal digits without leading zeros, after an m if it is negative |
| `CaseMatrix.ProductIsRowMajor` | src/have_agent/decompose.py:51-61 | the i-th element of the product is the mixed-radix row i, and there are as many as the axes' sizes multiply to |
| `CaseMatrix.RowAt` | src/have_agent/decompose.py:51-61 | row i has on each axis the value at (i / stride) mod length, the last axis fastest |
| `CaseMatrix.EveryCombination` | src/have_agent/decompose.py:51-61 | every combination of positions is the row with its row number |
| `CaseMatrix.RowsDiffer` | src/have_agent/decompose.py:51-61 | and no combination occurs twice |
| `CaseMatrix.TwinRows` | src/have_agent/decompose.py:51-61 | a value that occurs twice on an axis gives two rows that are the same |
| `CaseMatrix.MakeMatrix` | src/have_agent/decompose.py:51-61 | one case per row, in order, with that row's overrides and no others, and the id that spells it out |
| `CaseMatrix.CaseIdInjective` | src/have_agent/decompose.py:59 | equal ids come from equal values, whatever the aliases |
| `CaseMatrix.CaseIdSplits` | src/have_agent/decompose.py:59 | split at its underscores the id of a case gives alias and value of every axis, in order |
| `CaseMatrix.CaseIdsDifferIff` | src/have_agent/decompose.py:51-61 | the case ids of a matrix are pairwise different, even when aliases collide, iff no axis repeats a value |
| `Ulid.Source.NewUlid` | src/have_agent/ids.py:20-35 | the id decodes to the clock and the random bits drawn if the clock has moved on, to the last value plus one if it has not, and to the next millisecond and the bits drawn if the counter is used up; in each case to a greater value than the one before |
| `Ulid.FirstIdsDiffer` | src/have_agent/ids.py:24-35 | two processes that issue their first id in one millisecond issue the same iff they drew the same bits |
| `Ulid.Alphabet` | src/have_agent/ids.py:12 | the digits are 0 to 9 and the capital letters but I, L, O and U |
| `Ulid.RoundTrip` | src/have_agent/ids.py:34-35 | the 26 digits decode to ts * 2^80 + random, and both parts can be read off |
| `Ulid.EncodeOrder` | src/have_agent/ids.py:34-35 | the encoding preserves order |
| `Ulid.IdsIncrease` | src/have_agent/ids.py:20-35 | ids issued later are lexicographically greater strings while the timestamp is below 2^50, for every clock sequence |
| `Ulid.TimestampBound` | src/have_agent/ids.py:24-31 | the timestamp never falls behind the clock and runs ahead of it by less than one per id |

## Left out

- SQLite, JSON and YAML: a transaction is one atomic step, documents are datatypes, timestamps integers. WAL, lock timeouts and the columns no core code reads (titles, summaries, artifact references, plan proposals) are not modelled.
- The LLM hooks are None, and transition payloads never contain the keys `from` or `to`.
- The executor, the check suite, the report builder, the CLI, the figure digitizer and the migrations: what they return is a parameter or is not part of the model. `checks.py` is any of the four verdict levels.
- WATCH jobs: no code creates one, and no reachable state has one.
- `TriageRun.RunTriageJob`: nobody moves between its transactions. One run_triage is one step of the protocol, and so is each prefix of it that a worker that dies leaves behind. Steps of others in between commute with it: the retry is new, the parent is in triage, and whoever else retires it first makes this run one that breaks off.
- `TriageRun.SpawnRetry`: the same.
- `Decompose.DecomposeStudy`: axis values are integers; the two create_job calls of a case are one step, and so are the last two transactions; of what other processes do meanwhile only what leaves that study alone is admitted.
- runnable_jobs, and the eligibility check before it, read the database in one step (`Look`), not in four queries.
- `CaseMatrix.FormatInjective`: integers only; floats and strings on an axis can format alike.
- "Only the lease holder completes a job" is not claimed: completion checks the state only.
- What happens to the jobs of an aborted study beyond the single transitions: failures and expiries may still requeue or respawn them.
