/**
 * The asynchronous executor (src/agent/executor-async.ts): the same gates and loop, except that in
 * local mode sandbox steps go to browser sessions. The browser is an arbitrary function of
 * everything asked of it so far.
 */
module ExecutorAsync {
  import opened Common
  import opened Loops
  import opened JsStrings
  import opened Records
  import opened Json
  import opened PlanTypes
  import opened CanonicalPlan
  import opened PlanIdempotence
  import opened Policies
  import opened MockAdapter
  import opened StepLoop
  import opened TraceChain
  import opened Executor
  import DependencySoundness

  datatype Action = Open(url: string) | Click(selector: string) | Type(selector: string, text: string) | Extract(selector: string)

  /** The `sessions` map, each session with what it has been asked, in order. */
  type Sessions = map<string, seq<Action>>

  /** The answer to the last action of a session: the extracted text, or an error message. */
  type Browser = (Sessions, string) -> Result<string, string>

  /** How a sandbox step is applied: the new state or an error, and the sessions afterwards. */
  type SandboxApply = (AgentState, Step, Sessions) -> (Result<AgentState, StepError>, Sessions)

  function ActionOf(step: Step): Action
    requires step.IsSandbox()
  {
    match step
    case SandboxOpen(_, _, url) => Open(url)
    case SandboxClick(_, _, selector) => Click(selector)
    case SandboxType(_, _, selector, text) => Type(selector, text)
    case SandboxExtract(_, _, selector, _) => Extract(selector)
  }

  function Ask(sessions: Sessions, id: string, action: Action): Sessions {
    sessions[id := (if id in sessions then sessions[id] else []) + [action]]
  }

  /** What a sandbox step does to the state when the browser answers `text`. */
  function Answered(nfc: Normalizer, state: AgentState, step: Step, text: string): AgentState
    requires step.IsSandbox()
  {
    match step
    case SandboxOpen(_, session, url) => Log(state, "sandbox.open:" + session + ":" + url)
    case SandboxClick(_, session, selector) => Log(state, "sandbox.click:" + session + ":" + selector)
    case SandboxType(_, session, selector, typed) =>
      Log(state, "sandbox.type:" + session + ":" + selector + ":len=" + NatText(|typed|))
    case SandboxExtract(_, session, selector, out) =>
      Log(Store(state, out, nfc(text)), "sandbox.extract:" + session + ":" + selector + ":out=" + out)
  }

  /** `applySandboxStepLocal`. */
  function LocalStep(nfc: Normalizer, browser: Browser, state: AgentState, step: Step, sessions: Sessions)
    : (Result<AgentState, StepError>, Sessions)
  {
    if !step.IsSandbox() || step.sessionId == "" then (Err(Threw("sandbox step missing sessionId")), sessions)
    else
      var asked := Ask(sessions, step.sessionId, ActionOf(step));
      match browser(asked, step.sessionId)
      case Err(message) => (Err(Threw(step.Kind() + " failed: " + message)), asked)
      case Ok(text) => (Ok(Answered(nfc, state, step, text)), asked)
  }

  function Sandboxing(env: Env, browser: Browser): SandboxApply {
    (state: AgentState, step: Step, sessions: Sessions) => LocalStep(env.nfc, browser, state, step, sessions)
  }

  // ---- the loop --------------------------------------------------------------------------

  datatype AsyncProgress = AsyncProgress(run: Progress, sessions: Sessions)

  datatype AsyncError = AsyncError(error: StepError, sessions: Sessions)

  function ApplyAsync(apply: Apply, sandbox: SandboxApply, local: bool, state: AgentState, step: Step, sessions: Sessions)
    : (Result<AgentState, StepError>, Sessions)
  {
    if local && step.IsSandbox() then sandbox(state, step, sessions) else (apply(state, step), sessions)
  }

  function AdvanceAsync(apply: Apply, sandbox: SandboxApply, mark: Mark, local: bool, s: AsyncProgress, i: nat, step: Step)
    : Result<AsyncProgress, AsyncError>
  {
    var (r, sessions) := ApplyAsync(apply, sandbox, local, s.run.state, step, s.sessions);
    match r
    case Err(e) => Err(AsyncError(e, sessions))
    case Ok(next) =>
      var t := mark(i, step, s.run.link, s.run.state, next);
      Ok(AsyncProgress(Progress(next, s.run.trace + [t], t.traceLinkHash), sessions))
  }

  function AsyncTurns(apply: Apply, sandbox: SandboxApply, mark: Mark, local: bool): Body<AsyncProgress, Step, AsyncError> {
    (s: AsyncProgress, i: nat, step: Step) => AdvanceAsync(apply, sandbox, mark, local, s, i, step)
  }

  function AsyncStart(): AsyncProgress {
    AsyncProgress(Start(), map[])
  }

  function AfterAsync(apply: Apply, sandbox: SandboxApply, mark: Mark, local: bool, steps: seq<Step>, n: nat)
    : Loop<AsyncProgress, AsyncError>
    requires n <= |steps|
  {
    Iterate(AsyncTurns(apply, sandbox, mark, local), AsyncStart(), steps, n)
  }

  lemma NextAsync(apply: Apply, sandbox: SandboxApply, mark: Mark, local: bool, steps: seq<Step>, i: nat,
                  s: AsyncProgress, next: Result<AgentState, StepError>, sessions: Sessions)
    requires i < |steps| && AfterAsync(apply, sandbox, mark, local, steps, i) == Going(s)
    requires ApplyAsync(apply, sandbox, local, s.run.state, steps[i], s.sessions) == (next, sessions)
    ensures next.Err? ==>
      AfterAsync(apply, sandbox, mark, local, steps, |steps|) == Halted(i, AsyncError(next.error, sessions))
    ensures next.Ok? ==>
      var t := mark(i, steps[i], s.run.link, s.run.state, next.value);
      AfterAsync(apply, sandbox, mark, local, steps, i + 1)
        == Going(AsyncProgress(Progress(next.value, s.run.trace + [t], t.traceLinkHash), sessions))
  {
    var turns := AsyncTurns(apply, sandbox, mark, local);
    assert AfterAsync(apply, sandbox, mark, local, steps, i + 1) == Turn(turns, Going(s), i, steps[i]);
    assert turns(s, i, steps[i]) == AdvanceAsync(apply, sandbox, mark, local, s, i, steps[i]);
    if next.Err? { HaltedStays(turns, AsyncStart(), steps, i + 1, |steps|); }
  }

  method RunStepsAsync(apply: Apply, sandbox: SandboxApply, mark: Mark, local: bool, steps: seq<Step>)
    returns (r: Loop<AsyncProgress, AsyncError>)
    ensures r == AfterAsync(apply, sandbox, mark, local, steps, |steps|)
  {
    var state := INITIAL_STATE;
    var trace: seq<StepTrace> := [];
    var previousTraceLinkHash := ZeroLink();
    var sessions: Sessions := map[];
    var i := 0;
    while i < |steps|
      invariant 0 <= i <= |steps|
      invariant AfterAsync(apply, sandbox, mark, local, steps, i)
             == Going(AsyncProgress(Progress(state, trace, previousTraceLinkHash), sessions))
    {
      var step := steps[i];
      ghost var before := AsyncProgress(Progress(state, trace, previousTraceLinkHash), sessions);
      var next: Result<AgentState, StepError>;
      if local && step.IsSandbox() {
        var answer := sandbox(state, step, sessions);
        next := answer.0;
        sessions := answer.1;
      } else {
        next := apply(state, step);
      }
      NextAsync(apply, sandbox, mark, local, steps, i, before, next, sessions);
      if next.Err? {
        return Halted(i, AsyncError(next.error, sessions));
      }
      var entry := mark(i, step, previousTraceLinkHash, state, next.value);
      trace := trace + [entry];
      previousTraceLinkHash := entry.traceLinkHash;
      state := next.value;
      i := i + 1;
    }
    return Going(AsyncProgress(Progress(state, trace, previousTraceLinkHash), sessions));
  }

  // ---- the executor ----------------------------------------------------------------------

  datatype Options = Options(local: bool, factoryGiven: bool, maxSteps: int)

  /** The response, and the sessions closed before it is returned. */
  datatype AsyncOutcome = AsyncOutcome(outcome: Outcome, closed: set<string>)

  /**
   * Outside local mode the factory is the one given, or undefined; the `finally` block reads a
   * property of it and throws when it is undefined, whatever the run returned.
   */
  function Finally(options: Options, outcome: Outcome, sessions: Sessions): AsyncOutcome {
    AsyncOutcome(if options.local || options.factoryGiven then outcome else Thrown, sessions.Keys)
  }

  function AsyncFailure(at: nat, e: StepError): Outcome {
    var code := MapToolErrorCode(Message(e));
    if code.Some? then Failure(code.value, Some(at), false) else Failure("INTERNAL_ERROR", Some(at), true)
  }

  function FinishAsync(env: Env, options: Options, plan: Plan, planHash: string, l: Loop<AsyncProgress, AsyncError>): AsyncOutcome {
    match l
    case Halted(at, e) => Finally(options, AsyncFailure(at, e.error), e.sessions)
    case Going(s) => Finally(options, Succeeded(ResultOf(env, plan, planHash, s.run)), s.sessions)
  }

  function ExecuteCanonicalAsync(env: Env, browser: Browser, options: Options, plan: Plan): AsyncOutcome {
    match PlanHash(env.nfc, env.sha, plan)
    case None => AsyncOutcome(Thrown, {})
    case Some(planHash) =>
      if |plan.steps| > options.maxSteps then AsyncOutcome(Failure("PLAN_EXCEEDS_MAX_STEPS", Some(0), false), {})
      else
        FinishAsync(env, options, plan, planHash,
                    AfterAsync(Applies(env), Sandboxing(env, browser), Marks(env), options.local, plan.steps, |plan.steps|))
  }

  function AsyncGates(env: Env, browser: Browser, options: Options, issues: Option<seq<string>>, canonical: Option<Plan>)
    : AsyncOutcome
  {
    if options.maxSteps <= 0 then AsyncOutcome(Failure("PLAN_CANONICALIZATION_FAILED", None, false), {})
    else if issues.None? then AsyncOutcome(Thrown, {})
    else if issues.value != [] then AsyncOutcome(Failure("PLAN_VALIDATION_FAILED", None, false), {})
    else if canonical.None? then AsyncOutcome(Failure("PLAN_CANONICALIZATION_FAILED", None, false), {})
    else ExecuteCanonicalAsync(env, browser, options, canonical.value)
  }

  /** `executeDeterministicPlanAsync`. */
  function ExecuteAsync(env: Env, browser: Browser, options: Options, raw: seq<Entry<Json>>): AsyncOutcome {
    AsyncGates(env, browser, options, PlanIssues(raw), Canonicalize(env.nfc, raw))
  }

  method ExecuteDeterministicPlanAsync(env: Env, browser: Browser, options: Options, raw: seq<Entry<Json>>)
    returns (r: AsyncOutcome)
    ensures r == ExecuteAsync(env, browser, options, raw)
  {
    if options.maxSteps <= 0 {
      return AsyncOutcome(Failure("PLAN_CANONICALIZATION_FAILED", None, false), {});
    }
    var issues := ValidatePlan(raw);
    if issues.None? {
      return AsyncOutcome(Thrown, {});
    }
    if issues.value != [] {
      return AsyncOutcome(Failure("PLAN_VALIDATION_FAILED", None, false), {});
    }
    var canonical := CanonicalizePlan(env.nfc, raw);
    if canonical.None? {
      return AsyncOutcome(Failure("PLAN_CANONICALIZATION_FAILED", None, false), {});
    }
    var plan := canonical.value;
    var planHash := PlanHash(env.nfc, env.sha, plan);
    if planHash.None? {
      return AsyncOutcome(Thrown, {});
    }
    if |plan.steps| > options.maxSteps {
      return AsyncOutcome(Failure("PLAN_EXCEEDS_MAX_STEPS", Some(0), false), {});
    }
    var run := RunStepsAsync(Applies(env), Sandboxing(env, browser), Marks(env), options.local, plan.steps);
    return FinishAsync(env, options, plan, planHash.value, run);
  }

  // ---- against the synchronous executor --------------------------------------------------

  /** How the asynchronous executor reports what the synchronous one reports. */
  function Recode(o: Outcome): Outcome {
    if o.Failure? && o.code == "INVALID_REQUEST" then
      (if o.stepCount.None? then Failure("PLAN_CANONICALIZATION_FAILED", None, false)
       else Failure("INTERNAL_ERROR", o.stepCount, true))
    else o
  }

  /** Every step is applied as the synchronous executor applies it, whatever the sessions. */
  ghost predicate AppliesAlike(apply: Apply, sandbox: SandboxApply, local: bool, steps: seq<Step>) {
    forall state, step, sessions | step in steps :: ApplyAsync(apply, sandbox, local, state, step, sessions).0 == apply(state, step)
  }

  lemma SameLoop(apply: Apply, sandbox: SandboxApply, mark: Mark, local: bool, steps: seq<Step>)
    requires AppliesAlike(apply, sandbox, local, steps)
    ensures MapLoop((s: AsyncProgress) => s.run, (e: AsyncError) => e.error, AfterAsync(apply, sandbox, mark, local, steps, |steps|))
         == After(apply, mark, steps, |steps|)
  {
    var run, error := (s: AsyncProgress) => s.run, (e: AsyncError) => e.error;
    var f, g := AsyncTurns(apply, sandbox, mark, local), Turns(apply, mark);
    forall s, i, x | x in steps ensures MapResult(run, error, f(s, i, x)) == g(run(s), i, x) {
      assert ApplyAsync(apply, sandbox, local, s.run.state, x, s.sessions).0 == apply(s.run.state, x);
    }
    LoopSeenAs(f, g, run, error, AsyncStart(), steps, |steps|);
  }

  lemma FailureRecodes(at: nat, e: StepError)
    ensures AsyncFailure(at, e) == Recode(Failure(StepFailureCode(e), Some(at), false))
  {
  }

  lemma CanonicalAgree(env: Env, browser: Browser, options: Options, plan: Plan)
    requires options.local || options.factoryGiven
    requires AppliesAlike(Applies(env), Sandboxing(env, browser), options.local, plan.steps)
    ensures ExecuteCanonicalAsync(env, browser, options, plan).outcome == Recode(ExecuteCanonical(env, plan, options.maxSteps))
  {
    SameLoop(Applies(env), Sandboxing(env, browser), Marks(env), options.local, plan.steps);
    var l := AfterAsync(Applies(env), Sandboxing(env, browser), Marks(env), options.local, plan.steps, |plan.steps|);
    var planHash := PlanHash(env.nfc, env.sha, plan);
    if planHash.Some? { FinishAgree(env, options, plan, planHash.value, l, Steps(env, plan.steps, |plan.steps|)); }
  }

  lemma FinishAgree(env: Env, options: Options, plan: Plan, planHash: string, l: Loop<AsyncProgress, AsyncError>,
                    m: Loop<Progress, StepError>)
    requires options.local || options.factoryGiven
    requires MapLoop((s: AsyncProgress) => s.run, (e: AsyncError) => e.error, l) == m
    ensures FinishAsync(env, options, plan, planHash, l).outcome == Recode(Finish(env, plan, planHash, m))
  {
    if l.Halted? { FailureRecodes(l.at, l.error.error); }
  }

  lemma GatesAlike(env: Env, browser: Browser, options: Options, issues: Option<seq<string>>, canonical: Option<Plan>)
    requires options.local || options.factoryGiven
    requires canonical.Some? ==> AppliesAlike(Applies(env), Sandboxing(env, browser), options.local, canonical.value.steps)
    ensures AsyncGates(env, browser, options, issues, canonical).outcome == Recode(Gates(env, issues, canonical, options.maxSteps))
  {
    if options.maxSteps > 0 && issues == Some([]) && canonical.Some? {
      CanonicalAgree(env, browser, options, canonical.value);
      SameGates(ExecuteCanonicalAsync(env, browser, options, canonical.value).outcome,
                ExecuteCanonical(env, canonical.value, options.maxSteps), AsyncGates(env, browser, options, issues, canonical).outcome,
                Gates(env, issues, canonical, options.maxSteps));
    }
  }

  lemma SameGates(asyncRun: Outcome, run: Outcome, asyncOutcome: Outcome, outcome: Outcome)
    requires asyncOutcome == asyncRun && outcome == run && asyncRun == Recode(run)
    ensures asyncOutcome == Recode(outcome)
  {
  }

  ghost predicate SandboxFree(env: Env, raw: seq<Entry<Json>>) {
    Canonicalize(env.nfc, raw).Some? ==>
      forall step | step in Canonicalize(env.nfc, raw).value.steps :: !step.IsSandbox()
  }

  /**
   * In mock mode with a factory, and in local mode without sandbox steps, the two executors agree:
   * same success with the same result, same failures up to the two codes that differ.
   */
  lemma AsyncAgrees(env: Env, browser: Browser, options: Options, raw: seq<Entry<Json>>)
    requires (!options.local && options.factoryGiven) || (options.local && SandboxFree(env, raw))
    ensures ExecuteAsync(env, browser, options, raw).outcome == Recode(Execute(env, raw, options.maxSteps))
    ensures ExecuteAsync(env, browser, options, raw).outcome.Succeeded? <==> Execute(env, raw, options.maxSteps).Succeeded?
  {
    GatesAlike(env, browser, options, PlanIssues(raw), Canonicalize(env.nfc, raw));
  }

  /** Every gate before the loop is passed. */
  ghost predicate GatesPassed(env: Env, raw: seq<Entry<Json>>, maxSteps: int) {
    && maxSteps > 0 && PlanIssues(raw) == Some([]) && Canonicalize(env.nfc, raw).Some?
    && PlanHash(env.nfc, env.sha, Canonicalize(env.nfc, raw).value).Some?
    && |Canonicalize(env.nfc, raw).value.steps| <= maxSteps
  }

  lemma NoFactoryThrows(env: Env, browser: Browser, options: Options, plan: Plan)
    requires !options.local && !options.factoryGiven && PlanHash(env.nfc, env.sha, plan).Some? && |plan.steps| <= options.maxSteps
    ensures ExecuteCanonicalAsync(env, browser, options, plan).outcome == Thrown
    ensures Recode(ExecuteCanonical(env, plan, options.maxSteps)) != Thrown
  {
    var planHash := PlanHash(env.nfc, env.sha, plan).value;
    var l := AfterAsync(Applies(env), Sandboxing(env, browser), Marks(env), options.local, plan.steps, |plan.steps|);
    assert FinishAsync(env, options, plan, planHash, l).outcome == Thrown;
    assert Finish(env, plan, planHash, Steps(env, plan.steps, |plan.steps|)) != Thrown;
  }

  /**
   * Mock mode agrees with the synchronous executor exactly when a factory is given: without one
   * every plan that passes the gates throws, which the synchronous executor then never does.
   */
  lemma MockModeNeedsFactory(env: Env, browser: Browser, options: Options, raw: seq<Entry<Json>>)
    requires !options.local && GatesPassed(env, raw, options.maxSteps)
    ensures ExecuteAsync(env, browser, options, raw).outcome == Recode(Execute(env, raw, options.maxSteps)) <==> options.factoryGiven
    ensures !options.factoryGiven ==> ExecuteAsync(env, browser, options, raw).outcome == Thrown
  {
    if options.factoryGiven {
      AsyncAgrees(env, browser, options, raw);
    } else {
      NoFactoryThrows(env, browser, options, Canonicalize(env.nfc, raw).value);
    }
  }

  /** A plan of one log step. */
  const LOG_PLAN := Plan("p", [AppendLog("a", "x")])

  lemma LogPlanIsCanon(nfc: Normalizer)
    requires NfcLaws(nfc)
    ensures IsCanonPlan(nfc, LOG_PLAN) && LoopsMayRun(LOG_PLAN.steps)
  {
    NfcOfAscii(nfc, "p");
    NfcOfAscii(nfc, "a");
    NfcOfAscii(nfc, "x");
  }

  lemma LogPlanRuns(rt: Runtime)
    ensures DependencySoundness.Run(rt, LOG_PLAN.steps).Done?
  {
  }

  lemma LogPlanPasses(env: Env)
    requires NfcLaws(env.nfc)
    ensures GatesPassed(env, PlanFields(LOG_PLAN), 1) && Execute(env, PlanFields(LOG_PLAN), 1).Succeeded?
  {
    LogPlanIsCanon(env.nfc);
    CanonPlanIsFixed(env.nfc, LOG_PLAN);
    CanonPlanAccepted(env.nfc, LOG_PLAN);
    AcceptedIff(PlanFields(LOG_PLAN));
    PlanHashOfCanonical(env.nfc, env.sha, LOG_PLAN);
    LogPlanRuns(env.rt);
    SucceedsIff(env, PlanFields(LOG_PLAN), 1);
  }

  /** Without a factory this plan throws in mock mode, and the synchronous executor succeeds on it. */
  lemma NoFactoryExample(env: Env, browser: Browser)
    requires NfcLaws(env.nfc)
    ensures Execute(env, PlanFields(LOG_PLAN), 1).Succeeded?
    ensures ExecuteAsync(env, browser, Options(false, false, 1), PlanFields(LOG_PLAN)).outcome == Thrown
  {
    LogPlanPasses(env);
    MockModeNeedsFactory(env, browser, Options(false, false, 1), PlanFields(LOG_PLAN));
  }

  // ---- local mode against a browser that behaves like the mock ---------------------------

  /** The browser never fails, and extracts by every selector of a canonical plan what the mock adapter would. */
  ghost predicate LikeMock(nfc: Normalizer, browser: Browser) {
    forall sessions: Sessions, id: string | id in sessions && sessions[id] != [] ::
      && browser(sessions, id).Ok?
      && var last := sessions[id][|sessions[id]| - 1];
        (last.Extract? && IsNorm(nfc, last.selector, 512) ==> nfc(browser(sessions, id).value) == "mock:" + last.selector)
  }

  /** Whatever the normalization, there is such a browser: one that echoes the selector. */
  lemma SomeBrowserIsLikeMock(nfc: Normalizer) returns (browser: Browser)
    requires NfcLaws(nfc)
    ensures LikeMock(nfc, browser)
  {
    browser := (sessions: Sessions, id: string) =>
      if id in sessions && sessions[id] != [] && sessions[id][|sessions[id]| - 1].Extract?
      then Ok("mock:" + sessions[id][|sessions[id]| - 1].selector) else Ok("");
    forall s: string | IsNorm(nfc, s, 512) ensures nfc("mock:" + s) == "mock:" + s {
      MockTextIsFixed(nfc, s);
    }
  }

  lemma MockTextIsFixed(nfc: Normalizer, s: string)
    requires NfcLaws(nfc) && IsNorm(nfc, s, 512)
    ensures nfc("mock:" + s) == "mock:" + s
  {
    assert EndsInColon("mock:");
    assert nfc(Trim(nfc(s))) == Trim(nfc(s));
  }

  lemma LocalStepLikeMock(env: Env, browser: Browser, state: AgentState, step: Step, sessions: Sessions)
    requires LikeMock(env.nfc, browser) && step.IsSandbox() && step.sessionId != "" && IsCanonStep(env.nfc, step)
    ensures LocalStep(env.nfc, browser, state, step, sessions).0 == MockStep(env.rt, state, step)
  {
    var asked := Ask(sessions, step.sessionId, ActionOf(step));
    assert step.sessionId in asked && asked[step.sessionId] != [];
    assert asked[step.sessionId][|asked[step.sessionId]| - 1] == ActionOf(step);
    assert browser(asked, step.sessionId).Ok?;
  }

  /** Against such a browser a local run, sandbox steps included, is the mock run. */
  lemma LocalRunLikeMock(env: Env, browser: Browser, options: Options, raw: seq<Entry<Json>>)
    requires NfcLaws(env.nfc) && options.local && LikeMock(env.nfc, browser)
    ensures ExecuteAsync(env, browser, options, raw).outcome == Recode(Execute(env, raw, options.maxSteps))
  {
    var canonical := Canonicalize(env.nfc, raw);
    if canonical.Some? {
      CanonicalizeIsCanon(env.nfc, raw);
      CanonAppliesAlike(env, browser, canonical.value);
    }
    GatesAlike(env, browser, options, PlanIssues(raw), canonical);
  }

  lemma CanonAppliesAlike(env: Env, browser: Browser, plan: Plan)
    requires LikeMock(env.nfc, browser) && IsCanonPlan(env.nfc, plan)
    ensures AppliesAlike(Applies(env), Sandboxing(env, browser), true, plan.steps)
  {
    forall state, step, sessions | step in plan.steps
      ensures ApplyAsync(Applies(env), Sandboxing(env, browser), true, state, step, sessions).0 == Applies(env)(state, step)
    {
      if step.IsSandbox() {
        assert IsCanonStep(env.nfc, step);
        LocalStepLikeMock(env, browser, state, step, sessions);
      }
    }
  }

  // ---- sessions --------------------------------------------------------------------------

  /** The actions the first `n` steps ask of a session. */
  function Asked(steps: seq<Step>, n: nat, id: string): seq<Action>
    requires n <= |steps|
  {
    if n == 0 then []
    else
      var step := steps[n - 1];
      Asked(steps, n - 1, id) + if step.IsSandbox() && step.sessionId == id then [ActionOf(step)] else []
  }

  ghost predicate SessionsOf(steps: seq<Step>, n: nat, sessions: Sessions)
    requires n <= |steps|
  {
    forall id :: Asked(steps, n, id) == if id in sessions then sessions[id] else []
  }

  /** A successful sandbox step asks its session for its action, once, and nothing else. */
  ghost predicate AsksOnce(sandbox: SandboxApply) {
    forall state, step: Step, sessions | step.IsSandbox() && sandbox(state, step, sessions).0.Ok? ::
      sandbox(state, step, sessions).1 == Ask(sessions, step.sessionId, ActionOf(step))
  }

  lemma AskedNext(steps: seq<Step>, n: nat, sessions: Sessions)
    requires n < |steps| && steps[n].IsSandbox() && SessionsOf(steps, n, sessions)
    ensures SessionsOf(steps, n + 1, Ask(sessions, steps[n].sessionId, ActionOf(steps[n])))
  {
    var asked := Ask(sessions, steps[n].sessionId, ActionOf(steps[n]));
    forall id ensures Asked(steps, n + 1, id) == if id in asked then asked[id] else [] {
      assert Asked(steps, n, id) == if id in sessions then sessions[id] else [];
    }
  }

  lemma AskedSkip(steps: seq<Step>, n: nat, sessions: Sessions)
    requires n < |steps| && !steps[n].IsSandbox() && SessionsOf(steps, n, sessions)
    ensures SessionsOf(steps, n + 1, sessions)
  {
    forall id ensures Asked(steps, n + 1, id) == if id in sessions then sessions[id] else [] {
      assert Asked(steps, n, id) == if id in sessions then sessions[id] else [];
    }
  }

  lemma SessionsTurn(apply: Apply, sandbox: SandboxApply, mark: Mark, steps: seq<Step>, n: nat,
                     s: AsyncProgress, next: AsyncProgress)
    requires n < |steps| && AsksOnce(sandbox) && SessionsOf(steps, n, s.sessions)
    requires AdvanceAsync(apply, sandbox, mark, true, s, n, steps[n]) == Ok(next)
    ensures SessionsOf(steps, n + 1, next.sessions)
  {
    if steps[n].IsSandbox() {
      assert sandbox(s.run.state, steps[n], s.sessions).0.Ok?;
      AskedNext(steps, n, s.sessions);
    } else {
      AskedSkip(steps, n, s.sessions);
    }
  }

  lemma {:induction false} SessionsFollow(apply: Apply, sandbox: SandboxApply, mark: Mark, steps: seq<Step>, n: nat)
    requires n <= |steps| && AsksOnce(sandbox) && AfterAsync(apply, sandbox, mark, true, steps, n).Going?
    ensures SessionsOf(steps, n, AfterAsync(apply, sandbox, mark, true, steps, n).state.sessions)
  {
    if n > 0 {
      var turns := AsyncTurns(apply, sandbox, mark, true);
      GoingStep(turns, AsyncStart(), steps, n);
      SessionsFollow(apply, sandbox, mark, steps, n - 1);
      SessionsTurn(apply, sandbox, mark, steps, n - 1, AfterAsync(apply, sandbox, mark, true, steps, n - 1).state,
                   AfterAsync(apply, sandbox, mark, true, steps, n).state);
    }
  }

  lemma LocalAsksOnce(env: Env, browser: Browser)
    ensures AsksOnce(Sandboxing(env, browser))
  {
  }

  /** In local mode each session is asked exactly its own steps, in plan order. */
  lemma SessionSeesItsSteps(env: Env, browser: Browser, steps: seq<Step>, n: nat)
    requires n <= |steps|
    requires AfterAsync(Applies(env), Sandboxing(env, browser), Marks(env), true, steps, n).Going?
    ensures SessionsOf(steps, n, AfterAsync(Applies(env), Sandboxing(env, browser), Marks(env), true, steps, n).state.sessions)
  {
    LocalAsksOnce(env, browser);
    SessionsFollow(Applies(env), Sandboxing(env, browser), Marks(env), steps, n);
  }
}
