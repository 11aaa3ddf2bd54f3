/** Verifying a recorded execution by running its plan again (src/agent/replay.ts). */
module ReplayVerification {
  import opened Common
  import opened Loops
  import opened JsStrings
  import opened Records
  import opened Json
  import opened JsonParser
  import opened PlanTypes
  import opened CanonicalPlan
  import opened PlanIdempotence
  import opened Policies
  import opened StepLoop
  import opened TraceChain
  import opened Executor

  datatype Verdict = Verified | Rejected(reason: string) | VerifierThrows

  function NumberRecord(es: seq<Entry<int>>): (r: seq<Entry<Json>>)
    ensures |r| == |es| && forall i | 0 <= i < |es| :: r[i] == Entry(es[i].key, Num(es[i].value))
  {
    if es == [] then [] else [Entry(es[0].key, Num(es[0].value))] + NumberRecord(es[1..])
  }

  function TextRecord(es: seq<Entry<string>>): (r: seq<Entry<Json>>)
    ensures |r| == |es| && forall i | 0 <= i < |es| :: r[i] == Entry(es[i].key, Str(es[i].value))
  {
    if es == [] then [] else [Entry(es[0].key, Str(es[0].value))] + TextRecord(es[1..])
  }

  function TextArray(logs: seq<string>): (r: seq<Json>)
    ensures |r| == |logs| && forall i | 0 <= i < |logs| :: r[i] == Str(logs[i])
  {
    if logs == [] then [] else [Str(logs[0])] + TextArray(logs[1..])
  }

  /** The state as it is printed: counters, values and logs in insertion order. */
  function StateJson(state: AgentState): Json {
    Obj([Entry("counters", Obj(NumberRecord(state.counters))), Entry("values", Obj(TextRecord(state.values))),
         Entry("logs", Arr(TextArray(state.logs)))])
  }

  function StableJson(state: AgentState): string {
    Stringify(StateJson(state))
  }

  lemma StateJsonInjective(a: AgentState, b: AgentState)
    requires StateJson(a) == StateJson(b)
    ensures a == b
  {
    var p, q := StateJson(a).members, StateJson(b).members;
    assert p[0] == q[0] && p[1] == q[1] && p[2] == q[2];
    var ca, cb, va, vb := NumberRecord(a.counters), NumberRecord(b.counters), TextRecord(a.values), TextRecord(b.values);
    forall i | 0 <= i < |a.counters| ensures a.counters[i] == b.counters[i] { assert ca[i] == cb[i]; }
    forall i | 0 <= i < |a.values| ensures a.values[i] == b.values[i] { assert va[i] == vb[i]; }
    forall i | 0 <= i < |a.logs| ensures a.logs[i] == b.logs[i] { assert TextArray(a.logs)[i] == TextArray(b.logs)[i]; }
  }

  /** Comparing the printed states compares the states. */
  lemma StableJsonCompares(a: AgentState, b: AgentState)
    ensures StableJson(a) == StableJson(b) <==> a == b
  {
    if StableJson(a) == StableJson(b) {
      StringifyInjective(StateJson(a), StateJson(b));
      StateJsonInjective(a, b);
    }
  }

  /** The step bound of the second run. */
  function Bound(recorded: Execution): int {
    if recorded.stepsRequested + 10 > 1 then recorded.stepsRequested + 10 else 1
  }

  function Compare(rerun: Execution, recorded: Execution): Verdict {
    if rerun.traceSchemaVersion != recorded.traceSchemaVersion then Rejected("traceSchemaVersion mismatch")
    else if rerun.planHash != recorded.planHash then Rejected("planHash mismatch")
    else if rerun.executionHash != recorded.executionHash then Rejected("executionHash mismatch")
    else if rerun.finalTraceLinkHash != recorded.finalTraceLinkHash then Rejected("finalTraceLinkHash mismatch")
    else if |rerun.trace| != |recorded.trace| then Rejected("trace length mismatch")
    else if StableJson(rerun.finalState) != StableJson(recorded.finalState) then Rejected("finalState mismatch")
    else Verified
  }

  /** `verifyExecutionReplay`. */
  function Verify(env: Env, raw: seq<Entry<Json>>, recorded: Execution): Verdict {
    match Execute(env, raw, Bound(recorded))
    case Thrown => VerifierThrows
    case Failure(code, _, _) => Rejected("Replay execution failed: " + code)
    case Succeeded(rerun) => Compare(rerun, recorded)
  }

  /** The recorded fields that are checked agree with the fresh run. */
  ghost predicate Matches(rerun: Execution, recorded: Execution) {
    && rerun.traceSchemaVersion == recorded.traceSchemaVersion && rerun.planHash == recorded.planHash
    && rerun.executionHash == recorded.executionHash && rerun.finalTraceLinkHash == recorded.finalTraceLinkHash
    && |rerun.trace| == |recorded.trace| && rerun.finalState == recorded.finalState
  }

  lemma CompareIff(rerun: Execution, recorded: Execution)
    ensures Compare(rerun, recorded) == Verified <==> Matches(rerun, recorded)
  {
    StableJsonCompares(rerun.finalState, recorded.finalState);
  }

  lemma VerifiedWhen(env: Env, raw: seq<Entry<Json>>, recorded: Execution, outcome: Outcome)
    requires outcome == Execute(env, raw, Bound(recorded))
    ensures Verify(env, raw, recorded) == Verified <==> outcome.Succeeded? && Matches(outcome.result, recorded)
  {
    if outcome.Succeeded? { CompareIff(outcome.result, recorded); }
  }

  lemma CanonicalBound(env: Env, plan: Plan, m: int, n: int)
    requires |plan.steps| <= m && |plan.steps| <= n
    ensures ExecuteCanonical(env, plan, m) == ExecuteCanonical(env, plan, n)
    ensures ExecuteCanonical(env, plan, m).Succeeded? ==> ExecuteCanonical(env, plan, m).result.stepsRequested == |plan.steps|
  {
  }

  lemma GatesBound(env: Env, issues: Option<seq<string>>, canonical: Option<Plan>, m: int, n: int)
    requires Gates(env, issues, canonical, m).Succeeded? && n > 0
    requires n >= Gates(env, issues, canonical, m).result.stepsRequested
    ensures Gates(env, issues, canonical, n) == Gates(env, issues, canonical, m)
  {
    var plan := canonical.value;
    assert |plan.steps| <= m;
    CanonicalBound(env, plan, m, m);
    CanonicalBound(env, plan, m, n);
  }

  /** The step bound only decides whether the plan runs at all. */
  lemma BoundDoesNotMatter(env: Env, raw: seq<Entry<Json>>, m: int, n: int)
    requires Execute(env, raw, m).Succeeded? && n >= Execute(env, raw, m).result.stepsRequested && n > 0
    ensures Execute(env, raw, n) == Execute(env, raw, m)
  {
    GatesBound(env, PlanIssues(raw), Canonicalize(env.nfc, raw), m, n);
  }

  /** A recorded execution of the plan verifies, whatever bound it was recorded with. */
  lemma RecordedRunVerifies(env: Env, raw: seq<Entry<Json>>, maxSteps: int)
    requires Execute(env, raw, maxSteps).Succeeded?
    ensures Verify(env, raw, Execute(env, raw, maxSteps).result) == Verified
  {
    var recorded := Execute(env, raw, maxSteps).result;
    BoundDoesNotMatter(env, raw, maxSteps, Bound(recorded));
    VerifiedWhen(env, raw, recorded, Execute(env, raw, maxSteps));
  }

  /**
   * The verifier checks how long the trace is, not what it says: replacing every entry of a
   * recorded trace by any other goes unnoticed.
   */
  lemma TraceContentsUnchecked(env: Env, raw: seq<Entry<Json>>, maxSteps: int, other: seq<StepTrace>)
    requires Execute(env, raw, maxSteps).Succeeded? && |other| == |Execute(env, raw, maxSteps).result.trace|
    ensures Verify(env, raw, Execute(env, raw, maxSteps).result.(trace := other)) == Verified
  {
    var recorded := Execute(env, raw, maxSteps).result;
    BoundDoesNotMatter(env, raw, maxSteps, Bound(recorded));
    VerifiedWhen(env, raw, recorded.(trace := other), Execute(env, raw, maxSteps));
  }

  /** Acceptance means the recorded hashes, state and trace length are those of a fresh run. */
  lemma AcceptanceIsAgreement(env: Env, raw: seq<Entry<Json>>, recorded: Execution)
    ensures Verify(env, raw, recorded) == Verified <==>
      (&& Execute(env, raw, Bound(recorded)).Succeeded?
       && Matches(Execute(env, raw, Bound(recorded)).result, recorded))
  {
    VerifiedWhen(env, raw, recorded, Execute(env, raw, Bound(recorded)));
  }
}
