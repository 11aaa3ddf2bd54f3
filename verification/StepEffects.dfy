/**
 * What each step does to the state (src/agent/mock-adapter.ts), key by key and line by line, and
 * what a whole run adds up to.
 */
module StepEffects {
  import opened Common
  import opened JsStrings
  import opened Records
  import opened Json
  import opened PlanTypes
  import opened MockAdapter
  import opened DependencySoundness

  // ---- one step --------------------------------------------------------------------------

  /** Exactly one line is logged, and nothing else changes. */
  ghost predicate OnlyLogs(state: AgentState, next: AgentState, line: string) {
    next.counters == state.counters && next.values == state.values && next.logs == state.logs + [line]
  }

  /** One value is stored and these lines are logged; the counters stay. */
  ghost predicate StoresAndLogs(state: AgentState, next: AgentState, key: string, value: string, lines: seq<string>) {
    next.counters == state.counters && StoredAt(state.values, next.values, key, value) && next.logs == state.logs + lines
  }

  /** What the tool answers to the step's input with its references resolved. */
  function Answer(rt: Runtime, state: AgentState, tool: string, input: Json): Result<Json, StepError> {
    match ResolveInputRefs(rt.parse, state.values, input)
    case Err(e) => Err(e)
    case Ok(resolved) =>
      var r := rt.tools(tool, resolved);
      if r.Ok? then Ok(r.value) else Err(Threw(r.error))
  }

  /** The lines of a loop whose tool answers: one, or a second one when the first changed the core hash. */
  function LoggedLoop(tool: string, out: string, fixed: bool, max: int): seq<string> {
    var line := ":tool=" + tool + ":out=" + out + ":fix=";
    if fixed then ["tool.loop:i=0" + line + "1"]
    else if max == 1 then ["tool.loop:i=0" + line + "0"]
    else ["tool.loop:i=0" + line + "0", "tool.loop:i=1" + line + "1"]
  }

  /** The effect of a step that does not throw. */
  ghost predicate Effect(rt: Runtime, state: AgentState, step: Step, next: AgentState) {
    match step
    case Set(_, key, value) => StoresAndLogs(state, next, key, value, [])
    case Increment(_, key, delta) =>
      && StoredAt(state.counters, next.counters, key, (if Has(state.counters, key) then Get(state.counters, key) else 0) + delta)
      && next.values == state.values && next.logs == state.logs
    case AppendLog(_, value) => OnlyLogs(state, next, value)
    case SandboxOpen(_, session, url) => OnlyLogs(state, next, "sandbox.open:" + session + ":" + url)
    case SandboxClick(_, session, selector) => OnlyLogs(state, next, "sandbox.click:" + session + ":" + selector)
    case SandboxType(_, session, selector, text) =>
      OnlyLogs(state, next, "sandbox.type:" + session + ":" + selector + ":len=" + NatText(|text|))
    case SandboxExtract(_, session, selector, out) =>
      StoresAndLogs(state, next, out, "mock:" + selector, ["sandbox.extract:" + session + ":" + selector + ":out=" + out])
    case ToolCall(_, tool, out, input) =>
      && Answer(rt, state, tool, input).Ok?
      && StoresAndLogs(state, next, out, Canonical(Answer(rt, state, tool, input).value), ["tool.call:" + tool + ":out=" + out])
    case ToolLoop(_, tool, out, input, max) => LoopEffect(rt, state, tool, out, input, max, next)
  }

  ghost predicate LoopEffect(rt: Runtime, state: AgentState, tool: string, out: string, input: Json, max: int, next: AgentState) {
    if max <= 0 then ResolveInputRefs(rt.parse, state.values, input).Ok? && next == state
    else
      && Answer(rt, state, tool, input).Ok?
      && var fixed := rt.coreHash(next.counters, next.values) == rt.coreHash(state.counters, state.values);
        StoresAndLogs(state, next, out, Canonical(Answer(rt, state, tool, input).value), LoggedLoop(tool, out, fixed, max))
  }

  /** Only tool steps throw: when a reference does not resolve, or when the tool that is run throws. */
  ghost predicate Throws(rt: Runtime, state: AgentState, step: Step, e: StepError) {
    && step.IsTool()
    && var runs := step.ToolCall? || step.maxIterations >= 1;
      if runs then Answer(rt, state, step.toolId, step.input) == Err(e)
      else ResolveInputRefs(rt.parse, state.values, step.input) == Err(e)
  }

  lemma ExtractEffect(state: AgentState, session: string, selector: string, out: string, next: AgentState)
    requires next == Log(Store(state, out, "mock:" + selector), "sandbox.extract:" + session + ":" + selector + ":out=" + out)
    ensures StoresAndLogs(state, next, out, "mock:" + selector, ["sandbox.extract:" + session + ":" + selector + ":out=" + out])
  {
    PutIsStored(state.values, out, "mock:" + selector);
  }

  lemma CallEffect(rt: Runtime, state: AgentState, step: Step)
    requires step.ToolCall?
    ensures MockStep(rt, state, step).Ok? ==> Effect(rt, state, step, MockStep(rt, state, step).value)
    ensures MockStep(rt, state, step).Err? ==> Throws(rt, state, step, MockStep(rt, state, step).error)
  {
    var answer := Answer(rt, state, step.toolId, step.input);
    if answer.Ok? { PutIsStored(state.values, step.outputKey, Canonical(answer.value)); }
  }

  lemma LoopTexts(tool: string, out: string, fixed: bool)
    ensures LoopLine(0, tool, out, fixed) == "tool.loop:i=0" + (":tool=" + tool + ":out=" + out + ":fix=") + (if fixed then "1" else "0")
    ensures LoopLine(1, tool, out, true) == "tool.loop:i=1" + (":tool=" + tool + ":out=" + out + ":fix=") + "1"
  {
    assert NatText(0) == "0" && NatText(1) == "1";
    assert "tool.loop:i=" + "0" == "tool.loop:i=0" && "tool.loop:i=" + "1" == "tool.loop:i=1";
  }

  lemma LoopResultEffect(rt: Runtime, state: AgentState, tool: string, out: string, output: Json, max: int)
    requires max >= 1
    ensures var next := LoopResult(rt, state, tool, out, output, max);
      var fixed := rt.coreHash(next.counters, next.values) == rt.coreHash(state.counters, state.values);
      StoresAndLogs(state, next, out, Canonical(output), LoggedLoop(tool, out, fixed, max))
  {
    PutIsStored(state.values, out, Canonical(output));
    LoopTexts(tool, out, true);
    LoopTexts(tool, out, false);
  }

  lemma ToolLoopEffect(rt: Runtime, state: AgentState, step: Step)
    requires step.ToolLoop?
    ensures MockStep(rt, state, step).Ok? ==> Effect(rt, state, step, MockStep(rt, state, step).value)
    ensures MockStep(rt, state, step).Err? ==> Throws(rt, state, step, MockStep(rt, state, step).error)
  {
    var resolved := ResolveInputRefs(rt.parse, state.values, step.input);
    if resolved.Ok? && step.maxIterations >= 1 {
      LoopStops(rt, state, step.toolId, step.outputKey, resolved.value, step.maxIterations);
      var answer := rt.tools(step.toolId, resolved.value);
      if answer.Ok? {
        LoopResultEffect(rt, state, step.toolId, step.outputKey, answer.value, step.maxIterations);
      }
    }
  }

  lemma LogEffect(rt: Runtime, state: AgentState, step: Step)
    requires step.AppendLog? || step.SandboxOpen? || step.SandboxClick? || step.SandboxType?
    ensures MockStep(rt, state, step).Ok? && Effect(rt, state, step, MockStep(rt, state, step).value)
  {
  }

  lemma StoreEffect(rt: Runtime, state: AgentState, step: Step)
    requires step.Set? || step.Increment? || step.SandboxExtract?
    ensures MockStep(rt, state, step).Ok? && Effect(rt, state, step, MockStep(rt, state, step).value)
  {
    match step
    case Set(_, key, value) => PutIsStored(state.values, key, value);
    case Increment(_, key, delta) => PutIsStored(state.counters, key, Counter(state, key) + delta);
    case SandboxExtract(_, session, selector, out) =>
      ExtractEffect(state, session, selector, out, MockStep(rt, state, step).value);
  }

  /** Every step has its effect or throws, and nothing else happens. */
  lemma StepEffect(rt: Runtime, state: AgentState, step: Step)
    ensures MockStep(rt, state, step).Ok? ==> Effect(rt, state, step, MockStep(rt, state, step).value)
    ensures MockStep(rt, state, step).Err? ==> Throws(rt, state, step, MockStep(rt, state, step).error)
  {
    if step.ToolCall? {
      CallEffect(rt, state, step);
    } else if step.ToolLoop? {
      ToolLoopEffect(rt, state, step);
    } else if step.Set? || step.Increment? || step.SandboxExtract? {
      StoreEffect(rt, state, step);
    } else {
      LogEffect(rt, state, step);
    }
  }

  // ---- whole runs ------------------------------------------------------------------------

  /** The sum of the deltas the first `n` steps add to the counter. */
  function SumOfDeltas(steps: seq<Step>, key: string, n: nat): int
    requires n <= |steps|
  {
    if n == 0 then 0
    else SumOfDeltas(steps, key, n - 1) + if steps[n - 1].Increment? && steps[n - 1].key == key then steps[n - 1].delta else 0
  }

  ghost predicate Incremented(steps: seq<Step>, key: string, n: nat)
    requires n <= |steps|
  {
    exists i | 0 <= i < n :: steps[i].Increment? && steps[i].key == key
  }

  lemma CounterStep(rt: Runtime, state: AgentState, step: Step, key: string)
    requires MockStep(rt, state, step).Ok?
    ensures var next, hit := MockStep(rt, state, step).value, step.Increment? && step.key == key;
      && Counter(next, key) == Counter(state, key) + (if hit then step.delta else 0)
      && (Has(next.counters, key) <==> Has(state.counters, key) || hit)
  {
    StepEffect(rt, state, step);
    if step.Increment? { PutGet(state.counters, step.key, Counter(state, step.key) + step.delta, key); }
  }

  /** However the run got there, a counter is the sum of its increments, and exists when it has one. */
  lemma {:induction false} CountersAdd(rt: Runtime, steps: seq<Step>, n: nat, key: string)
    requires n <= |steps| && StateAfter(rt, steps, n).Some?
    ensures Counter(StateAfter(rt, steps, n).value, key) == SumOfDeltas(steps, key, n)
    ensures Has(StateAfter(rt, steps, n).value.counters, key) <==> Incremented(steps, key, n)
  {
    if n > 0 {
      CountersAdd(rt, steps, n - 1, key);
      CounterStep(rt, StateAfter(rt, steps, n - 1).value, steps[n - 1], key);
    }
  }

  /** Until another step writes its key, the value a `set` step gave is the one found under it. */
  lemma {:induction false} SetUntilRewritten(rt: Runtime, steps: seq<Step>, j: nat, i: nat)
    requires j < i <= |steps| && steps[j].Set? && StateAfter(rt, steps, i).Some?
    requires NotRewritten(steps, j, i, steps[j].key)
    ensures Has(StateAfter(rt, steps, i).value.values, steps[j].key)
    ensures Get(StateAfter(rt, steps, i).value.values, steps[j].key) == steps[j].value
  {
    if i == j + 1 {
      StepEffect(rt, StateAfter(rt, steps, j).value, steps[j]);
    } else {
      SetUntilRewritten(rt, steps, j, i - 1);
      assert !Writes(steps[i - 1], steps[j].key);
      StepKeepsValue(rt, StateAfter(rt, steps, i - 1).value, steps[i - 1], steps[j].key);
    }
  }
}
