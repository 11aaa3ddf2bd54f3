/**
 * Running a plan that came out of the cache: the cache gives a plan back with the keys of its
 * objects sorted, and the executor does not notice.
 */
module CachedPlanRuns {
  import opened Common
  import opened Records
  import opened Json
  import opened CanonicalPlan
  import opened PlanPermutation
  import Executor
  import LlmPlanCache

  /** A plan as a builder returns it: an id, a version and a list of steps. */
  ghost predicate IsPlan(plan: Json) {
    && plan.Obj? && WellFormed(plan)
    && Field(plan.members, "planId").Some? && Field(plan.members, "planId").value.Str?
    && Field(plan.members, "version").Some? && Field(plan.members, "version").value.Num?
    && Field(plan.members, "steps").Some? && Field(plan.members, "steps").value.Arr?
  }

  lemma FieldOfSorted(ms: seq<Entry<Json>>, k: string)
    requires WellFormed(Obj(ms)) && Field(ms, k).Some?
    ensures Field(SortKeys(Obj(ms)).members, k) == Some(SortKeys(Field(ms, k).value))
  {
    var i :| 0 <= i < |ms| && ms[i] == Entry(k, Get(ms, k));
    LlmPlanCache.SortedField(ms, i);
  }

  lemma SortedIsSamePlan(plan: Json)
    requires IsPlan(plan)
    ensures WellFormed(SortKeys(plan)) && SamePlan(plan.members, SortKeys(plan).members)
  {
    var ms, ns := plan.members, SortKeys(plan).members;
    SortKeysWellFormed(plan);
    SortKeysMembersGet(ms);
    SortByKeyKeeps(SortKeysMembers(ms));
    FieldOfSorted(ms, "planId");
    FieldOfSorted(ms, "version");
    FieldOfSorted(ms, "steps");
    var items := Field(ms, "steps").value.items;
    forall i | 0 <= i < |items| ensures SortKeys(SortKeys(items[i])) == SortKeys(items[i]) { SortKeysTwice(items[i]); }
    assert SortKeysItems(SortKeysItems(items)) == SortKeysItems(items);
  }

  /** A plan and the same plan with its keys sorted execute to the same outcome. */
  lemma SortedRunsAlike(env: Executor.Env, plan: Json, maxSteps: int)
    requires IsPlan(plan)
    ensures Executor.Execute(env, SortKeys(plan).members, maxSteps) == Executor.Execute(env, plan.members, maxSteps)
  {
    SortedIsSamePlan(plan);
    SamePlanSymmetric(plan.members, SortKeys(plan).members);
    Executor.ExecuteOfSamePlan(env, SortKeys(plan).members, plan.members, maxSteps);
  }

  lemma SamePlanSymmetric(a: seq<Entry<Json>>, b: seq<Entry<Json>>)
    requires SamePlan(a, b)
    ensures SamePlan(b, a)
  {
  }

  /**
   * Over any history of the cache, executing the answer to a mock request is executing the plan the
   * builder makes without a cache: same hashes, trace and final state.
   */
  lemma CachedMockPlanRunsAlike(bs: LlmPlanCache.Builders, calls: seq<LlmPlanCache.Call>, n: nat, env: Executor.Env, maxSteps: int)
    requires n < |calls| && LlmPlanCache.WellFormedCalls(calls) && CollisionFree(bs.sha, LlmPlanCache.KeyTexts(calls))
    requires calls[n].request.provider.Mock?
    requires bs.mock(calls[n].request.goal).Some? && IsPlan(bs.mock(calls[n].request.goal).value)
    ensures
      var answer := LlmPlanCache.Answered(LlmPlanCache.Planner(bs), calls, n);
      && answer.Planned? && answer.plan.Obj?
      && Executor.Execute(env, answer.plan.members, maxSteps)
         == Executor.Execute(env, bs.mock(calls[n].request.goal).value.members, maxSteps)
  {
    LlmPlanCache.MockAgreesWithUncached(bs, calls, n);
    SortedRunsAlike(env, bs.mock(calls[n].request.goal).value, maxSteps);
  }
}
