/**
 GreedyPriority.select: priority order, first fit on resources. It is feasible, maximal, and never worse than half of
 the best feasible assignment.
 */
module Greedy {
  import opened Wrappers
  import opened Rows
  import opened Sets

  datatype JobInfo = JobInfo(
    id: JobId, study: StudyId, jtype: JobType, priority: int, createdAt: int, resource: Resource, attempt: int, maxAttempts: int)

  datatype WorkerSlot = WorkerSlot(worker: WorkerId, solvers: set<string>, memMb: Option<int>, freeSlots: int)

  datatype Assignment = Assignment(job: JobId, worker: WorkerId)

  // An assignment and the index of the slot it was made for
  datatype Pick = Pick(job: JobId, slot: nat)

  predicate Fits(job: JobInfo, slot: WorkerSlot) {
    && job.resource.solvers <= slot.solvers
    && !(job.resource.memMb.Some? && slot.memMb.Some? && job.resource.memMb.value > slot.memMb.value)
  }

  function Room(slot: WorkerSlot): nat { if slot.freeSlots > 0 then slot.freeSlots else 0 }

  /******* Plans *******/

  // Any way to send some of the runnable jobs to slots
  type Plan = map<JobId, nat>

  predicate Offered(runnable: seq<JobInfo>, slot: WorkerSlot, j: JobId) {
    exists r :: 0 <= r < |runnable| && runnable[r].id == j && Fits(runnable[r], slot)
  }

  function At(plan: Plan, k: nat): set<JobId> { set j | j in plan && plan[j] == k }

  predicate SendsToFit(runnable: seq<JobInfo>, workers: seq<WorkerSlot>, plan: Plan) {
    forall j <- plan :: plan[j] < |workers| && Offered(runnable, workers[plan[j]], j)
  }

  ghost predicate Feasible(runnable: seq<JobInfo>, workers: seq<WorkerSlot>, plan: Plan) {
    SendsToFit(runnable, workers, plan) && forall k: nat :: k < |workers| ==> |At(plan, k)| <= Room(workers[k])
  }

  // The plan a list of picks makes
  function PlanOf(picks: seq<Pick>): Plan {
    if picks == [] then map[] else PlanOf(picks[..|picks| - 1])[picks[|picks| - 1].job := picks[|picks| - 1].slot]
  }

  /******* select *******/

  // Job r is the first in the list that fits and has not been taken.
  predicate FirstFit(runnable: seq<JobInfo>, slot: WorkerSlot, taken: Plan, r: nat) {
    && r < |runnable| && runnable[r].id !in taken && Fits(runnable[r], slot)
    && forall q :: 0 <= q < r ==> runnable[q].id in taken || !Fits(runnable[q], slot)
  }

  ghost predicate TakesFirst(runnable: seq<JobInfo>, slot: WorkerSlot, taken: Plan, j: JobId) {
    exists r: nat :: FirstFit(runnable, slot, taken, r) && runnable[r].id == j
  }

  // Slot by slot, every pick is the first job of the list that was left for its slot.
  ghost predicate ByPriority(runnable: seq<JobInfo>, workers: seq<WorkerSlot>, picks: seq<Pick>) {
    picks == [] ||
      var init, p := picks[..|picks| - 1], picks[|picks| - 1];
      && ByPriority(runnable, workers, init) && p.slot < |workers| && TakesFirst(runnable, workers[p.slot], PlanOf(init), p.job)
      && (init != [] ==> init[|init| - 1].slot <= p.slot)
  }

  predicate Free(plan: Plan, k: nat, slot: WorkerSlot) { |At(plan, k)| < Room(slot) }

  // A job left over fits none of the first n slots that still have room.
  predicate Maximal(runnable: seq<JobInfo>, workers: seq<WorkerSlot>, plan: Plan, n: nat) {
    forall r, k: nat ::
      0 <= r < |runnable| && k < n && k < |workers| && runnable[r].id !in plan && Fits(runnable[r], workers[k]) ==>
      !Free(plan, k, workers[k])
  }

  predicate NoFit(runnable: seq<JobInfo>, slot: WorkerSlot, taken: Plan) {
    forall q :: 0 <= q < |runnable| ==> runnable[q].id in taken || !Fits(runnable[q], slot)
  }

  // The assignments are the picks, by worker instead of slot.
  predicate Records(s: seq<Assignment>, picks: seq<Pick>, workers: seq<WorkerSlot>) {
    && |s| == |picks| == |PlanOf(picks)|
    && forall i :: 0 <= i < |s| ==> picks[i].slot < |workers| && s[i] == Assignment(picks[i].job, workers[picks[i].slot].worker)
  }

  method NextFit(runnable: seq<JobInfo>, slot: WorkerSlot, taken: Plan) returns (r: Option<nat>)
    ensures r.Some? ==> FirstFit(runnable, slot, taken, r.value)
    ensures r.None? ==> NoFit(runnable, slot, taken)
  {
    for q := 0 to |runnable|
      invariant forall p :: 0 <= p < q ==> runnable[p].id in taken || !Fits(runnable[p], slot)
    {
      if runnable[q].id !in taken && Fits(runnable[q], slot) { return Some(q); }
    }
    return None;
  }

  lemma NothingAt(plan: Plan, k: nat)
    requires forall j <- plan :: plan[j] < k
    ensures At(plan, k) == {}
  {
    forall j | j in At(plan, k) ensures false {}
  }

  lemma PlanCard(plan: Plan, j: JobId, slot: nat)
    requires j !in plan
    ensures |plan[j := slot]| == |plan| + 1
  {
    assert plan[j := slot].Keys == plan.Keys + {j};
  }

  lemma AtPush(plan: Plan, j: JobId, slot: nat, k: nat)
    requires j !in plan
    ensures |At(plan[j := slot], k)| == |At(plan, k)| + if k == slot then 1 else 0
  {
    assert At(plan[j := slot], k) == if k == slot then At(plan, k) + {j} else At(plan, k);
  }

  lemma PlanPush(picks: seq<Pick>, p: Pick)
    requires p.job !in PlanOf(picks)
    ensures PlanOf(picks + [p]) == PlanOf(picks)[p.job := p.slot] && |PlanOf(picks + [p])| == |PlanOf(picks)| + 1
    ensures forall k: nat :: |At(PlanOf(picks + [p]), k)| == |At(PlanOf(picks), k)| + if k == p.slot then 1 else 0
  {
    assert (picks + [p])[..|picks|] == picks;
    var plan, next := PlanOf(picks), PlanOf(picks)[p.job := p.slot];
    PlanCard(plan, p.job, p.slot);
    forall k: nat ensures |At(next, k)| == |At(plan, k)| + if k == p.slot then 1 else 0 {
      AtPush(plan, p.job, p.slot, k);
    }
  }

  lemma PickKeeps(runnable: seq<JobInfo>, workers: seq<WorkerSlot>, picks: seq<Pick>, k: nat, r: nat)
    requires k < |workers| && ByPriority(runnable, workers, picks) && Feasible(runnable, workers, PlanOf(picks))
    requires (picks != [] ==> picks[|picks| - 1].slot <= k) && Maximal(runnable, workers, PlanOf(picks), k)
    requires FirstFit(runnable, workers[k], PlanOf(picks), r) && Free(PlanOf(picks), k, workers[k])
    ensures var next := picks + [Pick(runnable[r].id, k)];
      ByPriority(runnable, workers, next) && Feasible(runnable, workers, PlanOf(next)) &&
        Maximal(runnable, workers, PlanOf(next), k)
  {
    var p := Pick(runnable[r].id, k);
    var next := picks + [p];
    PlanPush(picks, p);
    assert next[..|picks|] == picks;
    assert TakesFirst(runnable, workers[k], PlanOf(picks), p.job);
    assert Offered(runnable, workers[k], p.job);
    hide PlanOf, FirstFit, TakesFirst;
    forall i: nat | i < |workers| ensures |At(PlanOf(next), i)| <= Room(workers[i]) {}
  }

  lemma RecordsPush(s: seq<Assignment>, picks: seq<Pick>, workers: seq<WorkerSlot>, p: Pick)
    requires Records(s, picks, workers) && p.slot < |workers| && p.job !in PlanOf(picks)
    ensures Records(s + [Assignment(p.job, workers[p.slot].worker)], picks + [p], workers)
  {
    PlanPush(picks, p);
  }

  lemma RecordsCard(s: seq<Assignment>, picks: seq<Pick>, workers: seq<WorkerSlot>)
    requires Records(s, picks, workers)
    ensures |s| == |PlanOf(picks)|
  {}

  lemma SelectStart(runnable: seq<JobInfo>, workers: seq<WorkerSlot>)
    ensures ByPriority(runnable, workers, []) && Feasible(runnable, workers, map[]) && Maximal(runnable, workers, map[], 0)
    ensures PlanOf([]) == map[] && Records([], [], workers)
  {
    forall k: nat ensures At(map[], k) == {} {}
  }

  // The slot is full or nothing that is left fits it.
  lemma SlotDone(runnable: seq<JobInfo>, workers: seq<WorkerSlot>, plan: Plan, k: nat)
    requires k < |workers| && Maximal(runnable, workers, plan, k)
    requires !Free(plan, k, workers[k]) || NoFit(runnable, workers[k], plan)
    ensures Maximal(runnable, workers, plan, k + 1)
  {}

  // The slot offers every solver the job asks for, and memory enough if both say how much.
  predicate Suits(job: JobInfo, slot: WorkerSlot) {
    && (forall x <- job.resource.solvers :: x in slot.solvers)
    && (job.resource.memMb.Some? && slot.memMb.Some? ==> job.resource.memMb.value <= slot.memMb.value)
  }

  // Every job that is assigned suits the slot it is for, and one that is left over suits no slot that has room left.
  ghost predicate Suitable(runnable: seq<JobInfo>, workers: seq<WorkerSlot>, plan: Plan) {
    && (forall j <- plan ::
          plan[j] < |workers| && exists r :: 0 <= r < |runnable| && runnable[r].id == j && Suits(runnable[r], workers[plan[j]]))
    && forall r, k: nat ::
      0 <= r < |runnable| && k < |workers| && runnable[r].id !in plan && Suits(runnable[r], workers[k]) ==>
        |set j | j in plan && plan[j] == k| >= workers[k].freeSlots
  }

  lemma FitsIff(job: JobInfo, slot: WorkerSlot)
    ensures Fits(job, slot) <==> Suits(job, slot)
  {}

  lemma PlanSuits(runnable: seq<JobInfo>, workers: seq<WorkerSlot>, plan: Plan)
    requires Feasible(runnable, workers, plan) && Maximal(runnable, workers, plan, |workers|)
    ensures Suitable(runnable, workers, plan)
  {
    forall r, k: nat | 0 <= r < |runnable| && k < |workers|
      ensures Fits(runnable[r], workers[k]) <==> Suits(runnable[r], workers[k])
    {
      FitsIff(runnable[r], workers[k]);
    }
    hide Fits, Suits;
    forall j <- plan
      ensures exists r :: 0 <= r < |runnable| && runnable[r].id == j && Suits(runnable[r], workers[plan[j]])
    {
      assert Offered(runnable, workers[plan[j]], j);
    }
    forall k: nat ensures At(plan, k) == set j | j in plan && plan[j] == k {}
  }

  method Select(runnable: seq<JobInfo>, workers: seq<WorkerSlot>) returns (assignments: seq<Assignment>, ghost picks: seq<Pick>)
    ensures Records(assignments, picks, workers) && ByPriority(runnable, workers, picks)
    ensures Feasible(runnable, workers, PlanOf(picks)) && Maximal(runnable, workers, PlanOf(picks), |workers|)
    ensures Suitable(runnable, workers, PlanOf(picks))
    ensures forall plan :: Feasible(runnable, workers, plan) ==> |plan| <= 2 * |assignments|
  {
    assignments, picks := [], [];
    var taken: Plan := map[];
    SelectStart(runnable, workers);
    hide Feasible, Maximal, FirstFit, ByPriority, PlanOf, Records, NoFit, Suitable;
    for k := 0 to |workers|
      invariant Records(assignments, picks, workers) && taken == PlanOf(picks)
      invariant ByPriority(runnable, workers, picks) && Feasible(runnable, workers, taken) && Maximal(runnable, workers, taken, k)
      invariant (picks != [] ==> picks[|picks| - 1].slot < k) && forall j <- taken :: taken[j] < k
    {
      var n := 0;
      NothingAt(taken, k);
      while n < workers[k].freeSlots
        invariant 0 <= n <= Room(workers[k]) && |At(taken, k)| == n
        invariant Records(assignments, picks, workers) && taken == PlanOf(picks)
        invariant ByPriority(runnable, workers, picks) && Feasible(runnable, workers, taken)
        invariant Maximal(runnable, workers, taken, k)
        invariant (picks != [] ==> picks[|picks| - 1].slot <= k) && forall j <- taken :: taken[j] <= k
      {
        var job := NextFit(runnable, workers[k], taken);
        if job.None? { break; }
        var p := Pick(runnable[job.value].id, k);
        PickKeeps(runnable, workers, picks, k, job.value);
        PlanPush(picks, p);
        RecordsPush(assignments, picks, workers, p);
        assignments := assignments + [Assignment(p.job, workers[k].worker)];
        picks := picks + [p];
        taken := taken[p.job := k];
        n := n + 1;
      }
      SlotDone(runnable, workers, taken, k);
    }
    PlanSuits(runnable, workers, taken);
    forall plan | Feasible(runnable, workers, plan) ensures |plan| <= 2 * |assignments| {
      HalfOfAny(runnable, workers, taken, plan);
      RecordsCard(assignments, picks, workers);
    }
  }

  /******* The bound *******/

  // What a plan sends to the first n slots
  function Below(plan: Plan, n: nat): set<JobId> { set j | j in plan && plan[j] < n }

  // A slot that fits a job greedy missed is full, so no plan sends it more missed jobs than greedy sent it jobs.
  lemma {:induction false} MissedAreCovered(runnable: seq<JobInfo>, workers: seq<WorkerSlot>, greedy: Plan, plan: Plan, n: nat)
    requires Maximal(runnable, workers, greedy, |workers|) && Feasible(runnable, workers, plan) && n <= |workers|
    ensures Covered(greedy, plan, n)
    decreases n
  {
    hide Maximal, Feasible, SlotCovered, Covered;
    if n == 0 {
      NoneCovered(greedy, plan);
    } else {
      MissedAreCovered(runnable, workers, greedy, plan, n - 1);
      MissedAtSlot(runnable, workers, greedy, plan, n - 1);
      CoveredNext(greedy, plan, n - 1);
    }
  }

  // Below slot n the plan has no more jobs that greedy missed than greedy has jobs.
  ghost predicate Covered(greedy: Plan, plan: Plan, n: nat) { |Below(plan, n) - greedy.Keys| <= |Below(greedy, n)| }

  ghost predicate SlotCovered(greedy: Plan, plan: Plan, k: nat) { |At(plan, k) - greedy.Keys| <= |At(greedy, k)| }

  lemma NoneCovered(greedy: Plan, plan: Plan)
    ensures Covered(greedy, plan, 0)
  {
    assert Below(plan, 0) - greedy.Keys == {};
  }

  lemma CoveredNext(greedy: Plan, plan: Plan, k: nat)
    requires Covered(greedy, plan, k) && SlotCovered(greedy, plan, k)
    ensures Covered(greedy, plan, k + 1)
  {
    hide Below, At;
    BelowNext(greedy, k);
    MissedNext(plan, greedy.Keys, k);
  }

  lemma BelowNext(plan: Plan, k: nat)
    ensures |Below(plan, k + 1)| == |Below(plan, k)| + |At(plan, k)|
  {
    assert Below(plan, k + 1) == Below(plan, k) + At(plan, k);
    assert Below(plan, k) !! At(plan, k);
  }

  lemma MissedNext(plan: Plan, taken: set<JobId>, k: nat)
    ensures |Below(plan, k + 1) - taken| == |Below(plan, k) - taken| + |At(plan, k) - taken|
  {
    var before, here := Below(plan, k) - taken, At(plan, k) - taken;
    assert Below(plan, k + 1) - taken == before + here;
    assert before !! here;
  }

  lemma MissedAtSlot(runnable: seq<JobInfo>, workers: seq<WorkerSlot>, greedy: Plan, plan: Plan, k: nat)
    requires Maximal(runnable, workers, greedy, |workers|) && Feasible(runnable, workers, plan) && k < |workers|
    ensures SlotCovered(greedy, plan, k)
  {
    var here := At(plan, k) - greedy.Keys;
    if !Free(greedy, k, workers[k]) {
      SubsetCard(here, At(plan, k));
    } else {
      forall j | j in here ensures false { MissedMeansFull(runnable, workers, greedy, plan, k, j); }
    }
  }

  lemma MissedMeansFull(runnable: seq<JobInfo>, workers: seq<WorkerSlot>, greedy: Plan, plan: Plan, k: nat, j: JobId)
    requires Maximal(runnable, workers, greedy, |workers|) && SendsToFit(runnable, workers, plan) && k < |workers|
    requires j in plan && plan[j] == k && j !in greedy
    ensures !Free(greedy, k, workers[k])
  {
    assert Offered(runnable, workers[k], j);
    var r :| 0 <= r < |runnable| && runnable[r].id == j && Fits(runnable[r], workers[k]);
  }

  lemma HalfOfAny(runnable: seq<JobInfo>, workers: seq<WorkerSlot>, greedy: Plan, plan: Plan)
    requires Maximal(runnable, workers, greedy, |workers|) && Feasible(runnable, workers, plan)
    ensures |plan| <= 2 * |greedy|
  {
    var n := |workers|;
    MissedAreCovered(runnable, workers, greedy, plan, n);
    assert forall j <- plan :: j in Below(plan, n);
    forall j <- plan.Keys ensures j in Below(plan, n) {}
    hide Maximal, Feasible, Below;
    UnionCard(plan.Keys, Below(plan, n) - greedy.Keys, greedy.Keys);
    BelowCard(greedy, n);
  }

  lemma BelowCard(plan: Plan, n: nat)
    ensures |Below(plan, n)| <= |plan|
  {
    SubsetCard(Below(plan, n), plan.Keys);
  }

  lemma UnionCard(all: set<JobId>, a: set<JobId>, b: set<JobId>)
    requires all <= a + b
    ensures |all| <= |a| + |b|
  {
    SubsetCard(all, a + b);
  }

  // One slot with room for one job: what a claim loop asks for
  lemma OneSlot(runnable: seq<JobInfo>, slot: WorkerSlot, s: seq<Assignment>, picks: seq<Pick>)
    requires Records(s, picks, [slot]) && ByPriority(runnable, [slot], picks) && Maximal(runnable, [slot], PlanOf(picks), 1)
    requires Feasible(runnable, [slot], PlanOf(picks)) && slot.freeSlots == 1
    ensures s == [] ==> NoFit(runnable, slot, map[])
    ensures s != [] ==> TakesFirst(runnable, slot, map[], s[0].job)
  {
    if s == [] {
      assert PlanOf(picks) == map[] && At(map[], 0) == {};
      assert Free(map[], 0, slot);
    } else {
      var plan := PlanOf(picks);
      forall j <- plan ensures plan[j] == 0 { assert plan[j] < |[slot]|; }
      assert At(plan, 0) == plan.Keys && |plan.Keys| == |plan|;
      assert |At(plan, 0)| <= Room([slot][0]);
      assert |picks| == 1 && picks[..0] == [];
    }
  }

  // The factor 2 is reached: the first job takes the only slot the second one fits.
  lemma HalfIsReached(a: JobInfo, b: JobInfo, big: WorkerSlot, small: WorkerSlot, picks: seq<Pick>)
    requires a.id != b.id && Fits(a, big) && Fits(a, small) && Fits(b, big) && !Fits(b, small) && big.freeSlots == 1
    requires small.freeSlots == 1
    requires picks == [Pick(a.id, 0)]
    ensures ByPriority([a, b], [big, small], picks) && Feasible([a, b], [big, small], PlanOf(picks))
    ensures Maximal([a, b], [big, small], PlanOf(picks), 2)
    ensures Feasible([a, b], [big, small], map[a.id := 1, b.id := 0])
  {
    var jobs, slots, best: Plan := [a, b], [big, small], map[a.id := 1, b.id := 0];
    assert picks[..0] == [];
    assert FirstFit(jobs, slots[0], map[], 0);
    assert PlanOf(picks) == map[a.id := 0];
    assert At(best, 0) == {b.id} && At(best, 1) == {a.id} && At(PlanOf(picks), 0) == {a.id} && At(PlanOf(picks), 1) == {};
    assert jobs[0] == a && jobs[1] == b && Offered(jobs, slots[0], a.id) && Offered(jobs, slots[0], b.id) &&
      Offered(jobs, slots[1], a.id);
    forall r, k: nat | 0 <= r < 2 && k < 2 && jobs[r].id !in PlanOf(picks) && Fits(jobs[r], slots[k])
      ensures !Free(PlanOf(picks), k, slots[k])
    {
      assert r == 1 && k == 0;
    }
  }
}
