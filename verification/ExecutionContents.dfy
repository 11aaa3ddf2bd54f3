/**
 * What a response of the executor (src/agent/executor.ts) says, field by field: the entries of its
 * trace, its final state, and the code of a step that throws; and what a sandbox step does in local
 * mode (src/agent/executor-async.ts).
 */
module ExecutionContents {
  import opened Common
  import opened Loops
  import opened JsStrings
  import opened Records
  import opened Json
  import opened PlanTypes
  import opened CanonicalPlan
  import opened PlanIdempotence
  import opened StepDependencies
  import opened MockAdapter
  import opened DependencySoundness
  import opened StepEffects
  import opened StepLoop
  import opened TraceChain
  import Policies
  import opened Executor
  import opened TraceCommitment
  import ExecutorAsync

  /** The trace entry of step `i`, which leads from `before` to `after` and follows the link `previous`. */
  ghost predicate Traces(env: Env, entry: StepTrace, i: nat, step: Step, previous: string, before: AgentState, after: AgentState) {
    && entry.traceSchemaVersion == 1 && entry.stepIndex == i && entry.stepId == step.id && entry.kind == step.Kind()
    && entry.beforeHashLike == env.stateHash(before) && entry.afterHashLike == env.stateHash(after)
    && entry.previousTraceLinkHash == previous
    && entry.traceLinkHash == LinkHash(env.sha, Link(previous, i, StepView(env.nfc, step), env.stateHash(before),
                                                     env.stateHash(after), StateView(env.nfc, before), StateView(env.nfc, after)))
  }

  /** What the first entry points to, and what each other entry points to. */
  function PreviousHash(trace: seq<StepTrace>, i: nat): string
    requires i <= |trace|
  {
    if i == 0 then "tl" + Zeros(64) else trace[i - 1].traceLinkHash
  }

  ghost predicate TracesRun(env: Env, steps: seq<Step>, trace: seq<StepTrace>, i: nat)
    requires i < |steps| && i < |trace|
  {
    && StateAfter(env.rt, steps, i).Some? && StateAfter(env.rt, steps, i + 1).Some?
    && Traces(env, trace[i], i, steps[i], PreviousHash(trace, i),
              StateAfter(env.rt, steps, i).value, StateAfter(env.rt, steps, i + 1).value)
  }

  lemma StateOfSteps(env: Env, steps: seq<Step>, n: nat)
    requires n <= |steps| && Steps(env, steps, n).Going?
    ensures StateAfter(env.rt, steps, n) == Some(Steps(env, steps, n).state.state)
  {
    GoingState(Applies(env), Marks(env), steps, n);
    StateAtIsStateAfter(env, steps, n);
  }

  lemma LinkOfSteps(env: Env, steps: seq<Step>, n: nat)
    requires n <= |steps| && Steps(env, steps, n).Going?
    ensures |Steps(env, steps, n).state.trace| == n
    ensures Steps(env, steps, n).state.link == PreviousHash(Steps(env, steps, n).state.trace, n)
  {
    TraceOfRun(Applies(env), Marks(env), steps, n);
  }

  /** What the link of the loop is before a step, from an entry of the trace. */
  lemma LinkBefore(env: Env, steps: seq<Step>, trace: seq<StepTrace>, i: nat)
    requires i < |steps| && i < |trace| && Steps(env, steps, i).Going?
    requires i > 0 ==> EntryAt(Applies(env), Marks(env), steps, i - 1, trace[i - 1])
    ensures Steps(env, steps, i).state.link == PreviousHash(trace, i)
  {
  }

  lemma EntryTraces(env: Env, steps: seq<Step>, trace: seq<StepTrace>, i: nat)
    requires i < |steps| && i < |trace| && EntryAt(Applies(env), Marks(env), steps, i, trace[i])
    requires i > 0 ==> EntryAt(Applies(env), Marks(env), steps, i - 1, trace[i - 1])
    ensures TracesRun(env, steps, trace, i)
  {
    LinkBefore(env, steps, trace, i);
    StateOfSteps(env, steps, i);
    StateOfSteps(env, steps, i + 1);
  }

  /** The whole trace of a completed run, and where it ends. */
  ghost predicate IsTraceOf(env: Env, steps: seq<Step>, trace: seq<StepTrace>, finalLink: string, finalState: AgentState) {
    && |trace| == |steps| && (forall i | 0 <= i < |steps| :: TracesRun(env, steps, trace, i))
    && finalLink == PreviousHash(trace, |trace|) && StateAfter(env.rt, steps, |steps|) == Some(finalState)
  }

  lemma CompletedTrace(env: Env, steps: seq<Step>)
    requires Completes(env, steps)
    ensures var p := Steps(env, steps, |steps|).state; IsTraceOf(env, steps, p.trace, p.link, p.state)
  {
    var p := Steps(env, steps, |steps|).state;
    StateOfSteps(env, steps, |steps|);
    LinkOfSteps(env, steps, |steps|);
    TraceOfRun(Applies(env), Marks(env), steps, |steps|);
    forall i | 0 <= i < |steps| ensures TracesRun(env, steps, p.trace, i) {
      assert EntryAt(Applies(env), Marks(env), steps, i, p.trace[i]);
      EntryTraces(env, steps, p.trace, i);
    }
  }

  /** The fields of a successful response. */
  ghost predicate Reports(env: Env, r: Execution, plan: Plan) {
    && r.planId == plan.planId && r.traceSchemaVersion == 1
    && r.stepsRequested == |plan.steps| && r.stepsExecuted == |plan.steps|
    && IsTraceOf(env, plan.steps, r.trace, r.finalTraceLinkHash, r.finalState)
  }

  lemma FinishReports(env: Env, plan: Plan, planHash: string)
    requires Completes(env, plan.steps)
    ensures Finish(env, plan, planHash, Steps(env, plan.steps, |plan.steps|)).Succeeded?
    ensures Reports(env, Finish(env, plan, planHash, Steps(env, plan.steps, |plan.steps|)).result, plan)
  {
    CompletedTrace(env, plan.steps);
  }

  /** A successful response reports the run of the canonical plan, step by step. */
  lemma ResponseReportsRun(env: Env, raw: seq<Entry<Json>>, maxSteps: int)
    requires NfcLaws(env.nfc) && Execute(env, raw, maxSteps).Succeeded?
    ensures Canonicalize(env.nfc, raw).Some?
    ensures Reports(env, Execute(env, raw, maxSteps).result, Canonicalize(env.nfc, raw).value)
  {
    SucceededIsFinish(env, raw, maxSteps);
    var plan := Canonicalize(env.nfc, raw).value;
    FinishReports(env, plan, PlanHash(env.nfc, env.sha, plan).value);
  }

  lemma SucceededIsFinish(env: Env, raw: seq<Entry<Json>>, maxSteps: int)
    requires NfcLaws(env.nfc) && Execute(env, raw, maxSteps).Succeeded?
    ensures Canonicalize(env.nfc, raw).Some?
    ensures var plan := Canonicalize(env.nfc, raw).value;
      && PlanHash(env.nfc, env.sha, plan).Some? && Completes(env, plan.steps)
      && Execute(env, raw, maxSteps)
      == Finish(env, plan, PlanHash(env.nfc, env.sha, plan).value, Steps(env, plan.steps, |plan.steps|))
  {
    CanonicalSucceeded(env, Canonicalize(env.nfc, raw).value, maxSteps);
  }

  lemma CanonicalSucceeded(env: Env, plan: Plan, maxSteps: int)
    requires ExecuteCanonical(env, plan, maxSteps).Succeeded?
    ensures PlanHash(env.nfc, env.sha, plan).Some? && Completes(env, plan.steps)
    ensures ExecuteCanonical(env, plan, maxSteps)
         == Finish(env, plan, PlanHash(env.nfc, env.sha, plan).value, Steps(env, plan.steps, |plan.steps|))
  {
  }

  /** In a successful response every counter is the sum of the increments of the plan. */
  lemma ResponseCountersAdd(env: Env, raw: seq<Entry<Json>>, maxSteps: int, key: string)
    requires NfcLaws(env.nfc) && Execute(env, raw, maxSteps).Succeeded?
    ensures Canonicalize(env.nfc, raw).Some?
    ensures var steps, state := Canonicalize(env.nfc, raw).value.steps, Execute(env, raw, maxSteps).result.finalState;
      && (Has(state.counters, key) <==> Incremented(steps, key, |steps|))
      && (Has(state.counters, key) ==> Get(state.counters, key) == SumOfDeltas(steps, key, |steps|))
  {
    ResponseReportsRun(env, raw, maxSteps);
    var steps := Canonicalize(env.nfc, raw).value.steps;
    CountersAdd(env.rt, steps, |steps|, key);
  }

  // ---- codes -----------------------------------------------------------------------------

  lemma StartsWithTool(message: string, rest: string)
    requires message == "tool_input_ref_" + rest
    ensures MapToolErrorCode(message) == Some("TOOL_EXECUTION_FAILED")
  {
    DiffersAt("tool_not_found:", message, 5);
    DiffersAt("tool_invalid_input:", message, 7);
    assert message[..5] == "tool_";
  }

  lemma ReferenceMessage(e: StepError) returns (rest: string)
    requires !e.Threw?
    ensures Message(e) == "tool_input_ref_" + rest
  {
    rest := Message(e)[15..];
    assert Message(e)[..15] == "tool_input_ref_";
  }

  /** A reference that does not resolve is always reported as a failed tool, whatever is wrong with it. */
  lemma ReferenceFailureCode(e: StepError)
    requires !e.Threw?
    ensures StepFailureCode(e) == "TOOL_EXECUTION_FAILED"
  {
    var rest := ReferenceMessage(e);
    StartsWithTool(Message(e), rest);
  }

  /** The code of the error a step throws. */
  ghost predicate IsCodeOf(code: string, e: StepError) {
    match e
    case Threw(message) =>
      code == if "tool_not_found:" <= message then "TOOL_NOT_FOUND"
              else if "tool_invalid_input:" <= message then "TOOL_INVALID_INPUT"
              else if "tool_" <= message then "TOOL_EXECUTION_FAILED"
              else "INVALID_REQUEST"
    case _ => code == "TOOL_EXECUTION_FAILED"
  }

  lemma CodeOfError(e: StepError)
    ensures IsCodeOf(StepFailureCode(e), e) && StepFailureCode(e) != "PLAN_EXCEEDS_MAX_STEPS"
  {
    if !e.Threw? { ReferenceFailureCode(e); }
  }

  /** What becomes of a canonical plan: too long, stopped at the step that throws, or run to the end. */
  ghost predicate Ends(env: Env, plan: Plan, maxSteps: int, r: Outcome) {
    if |plan.steps| > maxSteps then r == Failure("PLAN_EXCEEDS_MAX_STEPS", Some(0), false)
    else
      match Run(env.rt, plan.steps)
      case Failed(at, e) => r.Failure? && r.stepCount == Some(at) && !r.retryable && IsCodeOf(r.code, e)
      case Done(state) => r.Succeeded? && r.result.finalState == state
  }

  lemma CanonicalEnds(env: Env, plan: Plan, maxSteps: int)
    requires IsCanonPlan(env.nfc, plan)
    ensures Ends(env, plan, maxSteps, ExecuteCanonical(env, plan, maxSteps))
  {
    PlanHashOfCanonical(env.nfc, env.sha, plan);
    RunOfSteps(env, plan.steps);
    var l := Steps(env, plan.steps, |plan.steps|);
    if l.Halted? { CodeOfError(l.error); }
  }

  /** What becomes of a plan, gate by gate. */
  ghost predicate Outcomes(env: Env, raw: seq<Entry<Json>>, maxSteps: int, r: Outcome) {
    if maxSteps <= 0 then r == Failure("INVALID_REQUEST", None, false)
    else if Policies.PlanIssues(raw).None? then r == Thrown
    else if !Policies.Accepts(raw) then r == Failure("PLAN_VALIDATION_FAILED", None, false)
    else if Canonicalize(env.nfc, raw).None? then r == Failure("PLAN_CANONICALIZATION_FAILED", None, false)
    else Ends(env, Canonicalize(env.nfc, raw).value, maxSteps, r)
  }

  /** The outcome of every execution: the first gate that fails, the step that throws, or the end of the run. */
  lemma ExecuteOutcome(env: Env, raw: seq<Entry<Json>>, maxSteps: int)
    requires NfcLaws(env.nfc)
    ensures Outcomes(env, raw, maxSteps, Execute(env, raw, maxSteps))
  {
    Policies.AcceptedIff(raw);
    if Canonicalize(env.nfc, raw).Some? {
      CanonicalizeIsCanon(env.nfc, raw);
      CanonicalEnds(env, Canonicalize(env.nfc, raw).value, maxSteps);
    }
  }

  // ---- sandbox steps in local mode -------------------------------------------------------

  /** The line a sandbox step logs, whoever answers it. */
  function SandboxLine(step: Step): string
    requires step.IsSandbox()
  {
    match step
    case SandboxOpen(_, session, url) => "sandbox.open:" + session + ":" + url
    case SandboxClick(_, session, selector) => "sandbox.click:" + session + ":" + selector
    case SandboxType(_, session, selector, text) => "sandbox.type:" + session + ":" + selector + ":len=" + NatText(|text|)
    case SandboxExtract(_, session, selector, out) => "sandbox.extract:" + session + ":" + selector + ":out=" + out
  }

  /** Only an extract stores something: the normalized answer, under its key. */
  ghost predicate LocalEffect(nfc: Normalizer, state: AgentState, step: Step, answer: string, next: AgentState) {
    && step.IsSandbox() && next.counters == state.counters && next.logs == state.logs + [SandboxLine(step)]
    && if step.SandboxExtract? then StoredAt(state.values, next.values, step.outputKey, nfc(answer))
       else next.values == state.values
  }

  /** The session is asked what the step says, after everything it was asked before; the other sessions stay. */
  ghost predicate Asked(before: ExecutorAsync.Sessions, after: ExecutorAsync.Sessions, step: Step) {
    && step.IsSandbox() && step.sessionId in after
    && after[step.sessionId] == (if step.sessionId in before then before[step.sessionId] else [])
                               + [ExecutorAsync.ActionOf(step)]
    && forall other | other != step.sessionId ::
      (other in after <==> other in before) && (other in after ==> after[other] == before[other])
  }

  /** A sandbox step in local mode asks its session, and has its effect when the session answers. */
  lemma LocalStepEffect(nfc: Normalizer, browser: ExecutorAsync.Browser, state: AgentState, step: Step,
                        sessions: ExecutorAsync.Sessions)
    requires step.IsSandbox() && step.sessionId != ""
    ensures var (r, asked) := ExecutorAsync.LocalStep(nfc, browser, state, step, sessions);
      && Asked(sessions, asked, step)
      && match browser(asked, step.sessionId)
         case Ok(answer) => r.Ok? && LocalEffect(nfc, state, step, answer, r.value)
         case Err(message) => r == Err(Threw(step.Kind() + " failed: " + message))
  {
    var (r, asked) := ExecutorAsync.LocalStep(nfc, browser, state, step, sessions);
    var answer := browser(asked, step.sessionId);
    if answer.Ok? && step.SandboxExtract? { PutIsStored(state.values, step.outputKey, nfc(answer.value)); }
  }
}
