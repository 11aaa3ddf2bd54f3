/** The synchronous executor (src/agent/executor.ts): checks, canonicalization, the run and its linked trace. */
module Executor {
  import opened Common
  import opened Loops
  import opened Sorting
  import opened JsStrings
  import opened Records
  import opened Json
  import opened PlanTypes
  import opened CanonicalPlan
  import opened PlanPermutation
  import opened PlanIdempotence
  import opened Policies
  import opened StepDependencies
  import opened MockAdapter
  import opened DependencySoundness
  import opened StepLoop
  import opened TraceChain

  /** Everything the executor calls that the model leaves open. */
  datatype Env = Env(nfc: Normalizer, rt: Runtime, stateHash: AgentState -> string, sha: string -> string)

  datatype Execution = Execution(
    planId: string, planHash: string, executionHash: string, finalTraceLinkHash: string, traceSchemaVersion: int,
    stepsRequested: int, stepsExecuted: int, finalState: AgentState, trace: seq<StepTrace>)

  /** The response envelope; `Thrown` is an error that leaves the function. */
  datatype Outcome =
    | Succeeded(result: Execution)
    | Failure(code: string, stepCount: Option<nat>, retryable: bool)
    | Thrown

  // ---- error codes -----------------------------------------------------------------------

  /** `mapToolErrorCode`. */
  function MapToolErrorCode(message: string): Option<string> {
    if "tool_not_found:" <= message then Some("TOOL_NOT_FOUND")
    else if "tool_invalid_input:" <= message then Some("TOOL_INVALID_INPUT")
    else if "tool_" <= message then Some("TOOL_EXECUTION_FAILED")
    else None
  }

  function StepFailureCode(e: StepError): string {
    var code := MapToolErrorCode(Message(e));
    if code.Some? then code.value else "INVALID_REQUEST"
  }

  // ---- the run ---------------------------------------------------------------------------

  function MakeLink(env: Env, i: nat, step: Step, previous: string, before: AgentState, after: AgentState): Link {
    Link(previous, i, StepView(env.nfc, step), env.stateHash(before), env.stateHash(after),
         StateView(env.nfc, before), StateView(env.nfc, after))
  }

  function MakeTrace(env: Env, i: nat, step: Step, previous: string, before: AgentState, after: AgentState): StepTrace {
    StepTrace(SCHEMA_VERSION, i, step.id, step.Kind(), env.stateHash(before), env.stateHash(after), previous,
              LinkHash(env.sha, MakeLink(env, i, step, previous, before, after)))
  }

  function Applies(env: Env): Apply {
    (state: AgentState, step: Step) => MockStep(env.rt, state, step)
  }

  function Marks(env: Env): Mark {
    (i: nat, step: Step, previous: string, before: AgentState, after: AgentState) =>
      MakeTrace(env, i, step, previous, before, after)
  }

  /** Where the loop of the executor stands after `n` steps. */
  function Steps(env: Env, steps: seq<Step>, n: nat): Loop<Progress, StepError>
    requires n <= |steps|
  {
    After(Applies(env), Marks(env), steps, n)
  }

  function SummaryOf(env: Env, plan: Plan, planHash: string, p: Progress): Summary {
    Summary(planHash, |plan.steps|, p.link, StateView(env.nfc, p.state))
  }

  function ResultOf(env: Env, plan: Plan, planHash: string, p: Progress): Execution {
    Execution(plan.planId, planHash, ExecutionHash(env.sha, SummaryOf(env, plan, planHash, p)), p.link, SCHEMA_VERSION,
              |plan.steps|, |plan.steps|, p.state, p.trace)
  }

  /** The response, from where the loop ended. */
  function Finish(env: Env, plan: Plan, planHash: string, l: Loop<Progress, StepError>): Outcome {
    match l
    case Halted(at, error) => Failure(StepFailureCode(error), Some(at), false)
    case Going(p) => Succeeded(ResultOf(env, plan, planHash, p))
  }

  /** What happens once the plan is canonical. */
  function ExecuteCanonical(env: Env, plan: Plan, maxSteps: int): Outcome {
    match PlanHash(env.nfc, env.sha, plan)
    case None => Thrown
    case Some(planHash) =>
      if |plan.steps| > maxSteps then Failure("PLAN_EXCEEDS_MAX_STEPS", Some(0), false)
      else
        Finish(env, plan, planHash, Steps(env, plan.steps, |plan.steps|))
  }

  /** The gates in order, given what the policy check and the canonicalization returned. */
  function Gates(env: Env, issues: Option<seq<string>>, canonical: Option<Plan>, maxSteps: int): Outcome {
    if maxSteps <= 0 then Failure("INVALID_REQUEST", None, false)
    else if issues.None? then Thrown
    else if issues.value != [] then Failure("PLAN_VALIDATION_FAILED", None, false)
    else if canonical.None? then Failure("PLAN_CANONICALIZATION_FAILED", None, false)
    else ExecuteCanonical(env, canonical.value, maxSteps)
  }

  /** `executeDeterministicPlan`. */
  function Execute(env: Env, raw: seq<Entry<Json>>, maxSteps: int): Outcome {
    Gates(env, PlanIssues(raw), Canonicalize(env.nfc, raw), maxSteps)
  }

  /** The loop over the steps of a canonical plan. */
  method RunSteps(env: Env, steps: seq<Step>) returns (r: Loop<Progress, StepError>)
    ensures r == Steps(env, steps, |steps|)
  {
    var state := INITIAL_STATE;
    var trace: seq<StepTrace> := [];
    var previousTraceLinkHash := ZeroLink();
    var i := 0;
    while i < |steps|
      invariant 0 <= i <= |steps|
      invariant Steps(env, steps, i) == Going(Progress(state, trace, previousTraceLinkHash))
    {
      var next := ApplyMockStep(env.rt, state, steps[i]);
      NextTurn(Applies(env), Marks(env), steps, i, Progress(state, trace, previousTraceLinkHash), next);
      if next.Err? {
        return Halted(i, next.error);
      }
      var entry := MakeTrace(env, i, steps[i], previousTraceLinkHash, state, next.value);
      trace := trace + [entry];
      previousTraceLinkHash := entry.traceLinkHash;
      state := next.value;
      i := i + 1;
    }
    return Going(Progress(state, trace, previousTraceLinkHash));
  }

  method ExecuteDeterministicPlan(env: Env, raw: seq<Entry<Json>>, maxSteps: int) returns (r: Outcome)
    ensures r == Execute(env, raw, maxSteps)
  {
    if maxSteps <= 0 {
      return Failure("INVALID_REQUEST", None, false);
    }
    var issues := ValidatePlan(raw);
    if issues.None? {
      return Thrown;
    }
    if issues.value != [] {
      return Failure("PLAN_VALIDATION_FAILED", None, false);
    }
    var canonical := CanonicalizePlan(env.nfc, raw);
    if canonical.None? {
      return Failure("PLAN_CANONICALIZATION_FAILED", None, false);
    }
    var plan := canonical.value;
    var planHash := PlanHash(env.nfc, env.sha, plan);
    if planHash.None? {
      return Thrown;
    }
    if |plan.steps| > maxSteps {
      return Failure("PLAN_EXCEEDS_MAX_STEPS", Some(0), false);
    }
    var run := RunSteps(env, plan.steps);
    return Finish(env, plan, planHash.value, run);
  }

  // ---- when it succeeds, and that the order of the plan does not matter ------------------

  /** The plan runs to the end: every gate passed and no step throws. */
  ghost predicate RunsToEnd(env: Env, raw: seq<Entry<Json>>, maxSteps: int) {
    && maxSteps > 0 && Accepts(raw) && Canonicalize(env.nfc, raw).Some?
    && var steps := Canonicalize(env.nfc, raw).value.steps;
      |steps| <= maxSteps && Run(env.rt, steps).Done?
  }

  /** The loop's states are the interpreter's. */
  lemma {:induction false} StateAtIsStateAfter(env: Env, steps: seq<Step>, n: nat)
    requires n <= |steps|
    ensures StateAt(Applies(env), steps, n) == StateAfter(env.rt, steps, n)
  {
    if n > 0 { StateAtIsStateAfter(env, steps, n - 1); }
  }

  /** The loop ends where the interpreter does: in the same state, or at the same step with the same error. */
  lemma RunOfSteps(env: Env, steps: seq<Step>)
    ensures var l := Steps(env, steps, |steps|);
      Run(env.rt, steps) == if l.Going? then Done(l.state.state) else Failed(l.at, l.error)
  {
    var l := Steps(env, steps, |steps|);
    var n := if l.Going? then |steps| else l.at;
    if l.Going? {
      GoingState(Applies(env), Marks(env), steps, n);
    } else {
      HaltedState(Applies(env), Marks(env), steps, |steps|);
    }
    StateAtIsStateAfter(env, steps, n);
    RunPassesThrough(env.rt, steps, n);
    if l.Halted? { RunOne(env.rt, steps, n, StateAfter(env.rt, steps, n).value); }
  }

  lemma CanonicalSucceedsIff(env: Env, plan: Plan, maxSteps: int)
    requires IsCanonPlan(env.nfc, plan)
    ensures ExecuteCanonical(env, plan, maxSteps).Succeeded? <==> |plan.steps| <= maxSteps && Run(env.rt, plan.steps).Done?
  {
    PlanHashOfCanonical(env.nfc, env.sha, plan);
    RunOfSteps(env, plan.steps);
  }

  lemma GatesSucceedIff(env: Env, issues: Option<seq<string>>, canonical: Option<Plan>, maxSteps: int)
    requires canonical.Some? ==> IsCanonPlan(env.nfc, canonical.value)
    ensures Gates(env, issues, canonical, maxSteps).Succeeded? <==>
      (&& maxSteps > 0 && issues == Some([]) && canonical.Some?
       && |canonical.value.steps| <= maxSteps && Run(env.rt, canonical.value.steps).Done?)
  {
    if canonical.Some? { CanonicalSucceedsIff(env, canonical.value, maxSteps); }
  }

  /** The executor succeeds exactly on the plans that run to the end. */
  lemma SucceedsIff(env: Env, raw: seq<Entry<Json>>, maxSteps: int)
    requires NfcLaws(env.nfc)
    ensures Execute(env, raw, maxSteps).Succeeded? <==> RunsToEnd(env, raw, maxSteps)
  {
    AcceptedIff(raw);
    if Canonicalize(env.nfc, raw).Some? { CanonicalizeIsCanon(env.nfc, raw); }
    GatesSucceedIff(env, PlanIssues(raw), Canonicalize(env.nfc, raw), maxSteps);
  }

  lemma GatesAgree(env: Env, issues: Option<seq<string>>, others: Option<seq<string>>, canonical: Option<Plan>, maxSteps: int)
    requires issues.None? == others.None? && (issues == Some([]) <==> others == Some([]))
    ensures Gates(env, issues, canonical, maxSteps) == Gates(env, others, canonical, maxSteps)
  {
  }

  /** A plan written in another order executes to the same outcome: same hashes, trace and state. */
  lemma ExecuteOfSamePlan(env: Env, a: seq<Entry<Json>>, b: seq<Entry<Json>>, maxSteps: int)
    requires WellFormed(Obj(a)) && WellFormed(Obj(b)) && SamePlan(a, b)
    ensures Execute(env, a, maxSteps) == Execute(env, b, maxSteps)
  {
    AcceptedIff(a);
    AcceptedIff(b);
    AcceptsOfSamePlan(a, b);
    CanonicalizeOfSamePlan(env.nfc, a, b);
    GatesAgree(env, PlanIssues(a), PlanIssues(b), Canonicalize(env.nfc, a), maxSteps);
  }

  /** Executing the canonical form of a plan gives what executing the plan gives. */
  lemma ExecuteOfCanonicalForm(env: Env, raw: seq<Entry<Json>>, maxSteps: int)
    requires NfcLaws(env.nfc) && Accepts(raw) && Canonicalize(env.nfc, raw).Some?
    ensures Execute(env, PlanFields(Canonicalize(env.nfc, raw).value), maxSteps) == Execute(env, raw, maxSteps)
  {
    CanonicalFormAccepted(env.nfc, raw);
    CanonicalizeIdempotent(env.nfc, raw);
    AcceptedIff(raw);
    AcceptedIff(PlanFields(Canonicalize(env.nfc, raw).value));
  }

  // ---- references in executed plans ------------------------------------------------------

  lemma CanonStepWellWritten(nfc: Normalizer, s: Step)
    requires IsCanonStep(nfc, s)
    ensures WellWritten(s)
  {
    match s
    case Set(_, key, _) => NormNotBlank(nfc, key, 256);
    case SandboxExtract(_, _, _, out) => NormNotBlank(nfc, out, 256);
    case ToolCall(_, _, out, _) => NormNotBlank(nfc, out, 256);
    case ToolLoop(_, _, out, _, _) => NormNotBlank(nfc, out, 256);
    case _ =>
  }

  /**
   * In a canonical plan that passes the dependency check, the untrimmed and blank reference keys
   * are exactly what can go wrong with finding state values: a step that misses one has such a
   * reference, and a plan that has one never runs to the end.
   */
  lemma ExecutedReferences(env: Env, plan: Plan)
    requires IsCanonPlan(env.nfc, plan) && Analyze(plan.steps).Ok?
    ensures var l := Steps(env, plan.steps, |plan.steps|);
      && (l.Halted? && l.error.KeyMissing? ==> l.at < |plan.steps| && !CleanRefs(InputOf(plan.steps[l.at])))
      && (l.Going? ==> forall i | 0 <= i < |plan.steps| :: CleanRefs(InputOf(plan.steps[i])))
  {
    forall i | 0 <= i < |plan.steps| ensures WellWritten(plan.steps[i]) { CanonStepWellWritten(env.nfc, plan.steps[i]); }
    StaticCheckIsExact(env.rt, plan.steps);
    RunOfSteps(env, plan.steps);
  }

  // ---- a space inside a reference --------------------------------------------------------

  const SPACED_PLAN := Plan("p", SPACED_STEPS)

  lemma ShortTextIsNorm(nfc: Normalizer, t: string)
    requires NfcLaws(nfc) && IsAscii(t) && Trimmed(t) && t != "" && |t| <= 256
    ensures IsNorm(nfc, t, 256)
  {
    NfcOfAscii(nfc, t);
    TrimOfTrimmed(t);
  }

  lemma ReferenceIsCanon(nfc: Normalizer, t: string)
    requires NfcLaws(nfc) && IsAscii(t) && Trimmed(t) && t != ""
    ensures IsCanonInput(nfc, Obj([Entry("$ref", Str(t))]))
  {
    NfcOfAscii(nfc, t);
    TrimOfTrimmed(t);
    assert IsRefShape([Entry("$ref", Str(t))]);
  }

  lemma CallIsCanon(nfc: Normalizer, id: string, tool: string, out: string, input: Json)
    requires IsNorm(nfc, id, 256) && IsNorm(nfc, tool, 256) && IsNorm(nfc, out, 256) && IsCanonInput(nfc, input)
    ensures IsCanonStep(nfc, ToolCall(id, tool, out, input))
  {
  }

  lemma TwoInOrder(a: Step, b: Step)
    requires Less(a.id, b.id)
    ensures Ordered(StepLeq, [a, b]) && Distinct(Ids([a, b]))
  {
    IdsDecide(a, b);
    LessAsymmetric(a.id, b.id);
    assert Ids([a, b]) == [a.id, b.id];
  }

  lemma TwoCallsAreCanon(nfc: Normalizer, plan: Plan, a: Step, b: Step)
    requires plan.steps == [a, b] && IsNorm(nfc, plan.planId, 256) && Less(a.id, b.id) && a.ToolCall? && b.ToolCall?
    requires IsCanonStep(nfc, a) && IsCanonStep(nfc, b)
    ensures IsCanonPlan(nfc, plan) && LoopsMayRun(plan.steps)
  {
    TwoInOrder(a, b);
  }

  lemma ShortCallIsCanon(nfc: Normalizer, id: string, tool: string, out: string, input: Json)
    requires NfcLaws(nfc) && IsAscii(id) && Trimmed(id) && 0 < |id| <= 256 && IsAscii(tool) && Trimmed(tool) && 0 < |tool| <= 256
    requires IsAscii(out) && Trimmed(out) && 0 < |out| <= 256 && IsCanonInput(nfc, input)
    ensures IsCanonStep(nfc, ToolCall(id, tool, out, input))
  {
    ShortTextIsNorm(nfc, id);
    ShortTextIsNorm(nfc, tool);
    ShortTextIsNorm(nfc, out);
    CallIsCanon(nfc, id, tool, out, input);
  }

  lemma SpacedPlanIsCanon(nfc: Normalizer)
    requires NfcLaws(nfc)
    ensures IsCanonPlan(nfc, SPACED_PLAN) && LoopsMayRun(SPACED_PLAN.steps)
  {
    ShortTextIsNorm(nfc, "p");
    assert IsCanonInput(nfc, Null);
    ReferenceIsCanon(nfc, "k .x");
    ShortCallIsCanon(nfc, "a", "t", "k", Null);
    ShortCallIsCanon(nfc, "b", "t", "o", Obj([Entry("$ref", Str("k .x"))]));
    TwoCallsAreCanon(nfc, SPACED_PLAN, SPACED_STEPS[0], SPACED_STEPS[1]);
  }

  lemma DiffersAt(p: string, s: string, i: nat)
    requires i < |p| && i < |s| && p[i] != s[i]
    ensures !(p <= s)
  {
  }

  lemma NotFoundCode(key: string, expr: string)
    ensures StepFailureCode(KeyMissing(key, expr)) == "TOOL_EXECUTION_FAILED"
  {
    var message := "tool_input_ref_not_found: " + expr;
    DiffersAt("tool_not_found:", message, 5);
    DiffersAt("tool_invalid_input:", message, 7);
    assert message[..5] == "tool_";
  }

  /** A canonical plan that stops at a reference gets the failure of its step. */
  lemma CanonicalPlanFails(env: Env, plan: Plan, n: int, at: nat, e: StepError)
    requires NfcLaws(env.nfc) && IsCanonPlan(env.nfc, plan) && LoopsMayRun(plan.steps) && |plan.steps| <= n && plan.steps != []
    requires Run(env.rt, plan.steps) == Failed(at, e)
    ensures Execute(env, PlanFields(plan), n) == Failure(StepFailureCode(e), Some(at), false)
  {
    CanonPlanIsFixed(env.nfc, plan);
    CanonPlanAccepted(env.nfc, plan);
    AcceptedIff(PlanFields(plan));
    PlanHashOfCanonical(env.nfc, env.sha, plan);
    RunOfSteps(env, plan.steps);
  }

  /**
   * A canonical plan that passes the dependency check and fails all the same, whenever its tool
   * answers: the space inside its reference is part of the key that is looked up.
   */
  lemma UntrimmedKeyFails(env: Env, n: int)
    requires NfcLaws(env.nfc) && env.rt.tools("t", Null).Ok? && n >= 2
    ensures IsCanonPlan(env.nfc, SPACED_PLAN) && Analyze(SPACED_PLAN.steps).Ok?
    ensures Execute(env, PlanFields(SPACED_PLAN), n) == Failure("TOOL_EXECUTION_FAILED", Some(1), false)
  {
    SpacedPlanIsCanon(env.nfc);
    UntrimmedKeyIsAccepted(env.rt);
    SpacedKey();
    CanonicalPlanFails(env, SPACED_PLAN, n, 1, KeyMissing("k ", "k .x"));
    NotFoundCode("k ", "k .x");
  }
}
