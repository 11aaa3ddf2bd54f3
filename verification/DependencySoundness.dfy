/**
 * The static dependency check against the run: a step list it accepts never fails to find the
 * state value of a reference, at any depth, unless that very reference is written with a key that
 * is blank or has spaces around it. Such a reference passes the check, which trims the key, and
 * never resolves, because the interpreter does not.
 */
module DependencySoundness {
  import opened Common
  import opened JsStrings
  import opened Records
  import opened Json
  import opened PlanTypes
  import opened CanonicalPlan
  import opened StepDependencies
  import opened MockAdapter

  // ---- runs ------------------------------------------------------------------------------

  datatype RunResult = Done(state: AgentState) | Failed(at: nat, error: StepError)

  /** Applies the steps from `i` on until one throws. */
  function RunFrom(rt: Runtime, steps: seq<Step>, i: nat, state: AgentState): RunResult
    requires i <= |steps|
    decreases |steps| - i
  {
    if i == |steps| then Done(state)
    else
      match MockStep(rt, state, steps[i])
      case Err(e) => Failed(i, e)
      case Ok(next) => RunFrom(rt, steps, i + 1, next)
  }

  function Run(rt: Runtime, steps: seq<Step>): RunResult {
    RunFrom(rt, steps, 0, INITIAL_STATE)
  }

  // ---- references the run looks up -------------------------------------------------------

  /** A key as it should be written: not blank, no space around it. */
  predicate CleanKey(key: string) {
    key != "" && Trim(key) == key
  }

  /** Every reference in the input is a text with a clean key. */
  predicate CleanRefs(v: Json) {
    match v
    case Arr(items) => forall i | 0 <= i < |items| :: CleanRefs(items[i])
    case Obj(ms) =>
      if IsRefShape(ms) then ms[0].value.Str? && CleanKey(RefKey(ms[0].value.s))
      else forall i | 0 <= i < |ms| :: CleanRefs(ms[i].value)
    case _ => true
  }

  /** Every key the interpreter looks up for the input is there. */
  predicate KeysPresent(values: seq<Entry<string>>, v: Json) {
    match v
    case Arr(items) => forall i | 0 <= i < |items| :: KeysPresent(values, items[i])
    case Obj(ms) =>
      if IsRefShape(ms) then Has(values, RefKey(JsText(ms[0].value)))
      else forall i | 0 <= i < |ms| :: KeysPresent(values, ms[i].value)
    case _ => true
  }

  predicate MissesKey<T>(r: Result<T, StepError>) {
    r.Err? && r.error.KeyMissing?
  }

  lemma {:induction false} WalkHasNoKeys(current: Json, parts: seq<string>, path: string)
    ensures !MissesKey(Walk(current, parts, path))
    decreases |parts|
  {
    if parts != [] {
      match current
      case Arr(items) =>
        if IsIndexText(parts[0]) && Fold(0, parts[0]) < |items| { WalkHasNoKeys(items[Fold(0, parts[0])], parts[1..], path); }
      case Obj(ms) => if Has(ms, parts[0]) { WalkHasNoKeys(Get(ms, parts[0]), parts[1..], path); }
      case _ =>
    }
  }

  lemma ResolveRefKey(parse: string -> Option<Json>, values: seq<Entry<string>>, rawRef: string)
    ensures MissesKey(ResolveRef(parse, values, rawRef)) <==> !Has(values, RefKey(rawRef))
  {
    if Has(values, RefKey(rawRef)) {
      var root := parse(Get(values, RefKey(rawRef)));
      if root.Some? { WalkHasNoKeys(root.value, PathParts(RefPath(rawRef)), RefPath(rawRef)); }
    }
  }

  /** Resolving misses no key when all are there, and succeeds only when all are there. */
  lemma {:induction false} ResolveKeys(parse: string -> Option<Json>, values: seq<Entry<string>>, v: Json)
    ensures KeysPresent(values, v) ==> !MissesKey(ResolveInputRefs(parse, values, v))
    ensures ResolveInputRefs(parse, values, v).Ok? ==> KeysPresent(values, v)
    decreases v, 1
  {
    match v
    case Arr(items) => ResolveItemKeys(parse, values, items);
    case Obj(ms) =>
      if IsRefShape(ms) {
        ResolveRefKey(parse, values, JsText(ms[0].value));
      } else {
        ResolveMemberKeys(parse, values, ms);
      }
    case _ =>
  }

  lemma {:induction false} ResolveItemKeys(parse: string -> Option<Json>, values: seq<Entry<string>>, items: seq<Json>)
    ensures (forall i | 0 <= i < |items| :: KeysPresent(values, items[i])) ==> !MissesKey(ResolveItems(parse, values, items))
    ensures ResolveItems(parse, values, items).Ok? ==> forall i | 0 <= i < |items| :: KeysPresent(values, items[i])
    decreases items, 0
  {
    if items != [] {
      ResolveKeys(parse, values, items[0]);
      ResolveItemKeys(parse, values, items[1..]);
      assert items == [items[0]] + items[1..];
    }
  }

  lemma {:induction false} ResolveMemberKeys(parse: string -> Option<Json>, values: seq<Entry<string>>, ms: seq<Entry<Json>>)
    ensures (forall i | 0 <= i < |ms| :: KeysPresent(values, ms[i].value)) ==> !MissesKey(ResolveMembers(parse, values, ms))
    ensures ResolveMembers(parse, values, ms).Ok? ==> forall i | 0 <= i < |ms| :: KeysPresent(values, ms[i].value)
    decreases ms, 0
  {
    if ms != [] {
      ResolveKeys(parse, values, ms[0].value);
      ResolveMemberKeys(parse, values, ms[1..]);
      assert ms == [ms[0]] + ms[1..];
    }
  }

  // ---- what the static check sees of the same input --------------------------------------

  /** With clean references, the keys the check collects are the keys the run looks up. */
  lemma {:induction false} CollectedKeysPresent(values: seq<Entry<string>>, v: Json)
    requires CleanRefs(v) && forall r | r in CollectRefs(v) :: Has(values, r.outputKey)
    ensures KeysPresent(values, v)
    decreases v
  {
    match v
    case Arr(items) =>
      forall i | 0 <= i < |items| ensures KeysPresent(values, items[i]) {
        forall r | r in CollectRefs(items[i]) ensures Has(values, r.outputKey) { ItemRefs(items, i, r); }
        CollectedKeysPresent(values, items[i]);
      }
    case Obj(ms) =>
      if IsRefShape(ms) {
        var r := ParseRef(v).value;
        assert r in CollectRefs(v);
      } else {
        forall i | 0 <= i < |ms| ensures KeysPresent(values, ms[i].value) {
          forall r | r in CollectRefs(ms[i].value) ensures Has(values, r.outputKey) { MemberRefs(ms, i, r); }
          CollectedKeysPresent(values, ms[i].value);
        }
      }
    case _ =>
  }

  /** When all stored keys are clean, what resolves is clean. `CanonOk` makes references texts. */
  lemma {:induction false} PresentKeysClean(values: seq<Entry<string>>, v: Json)
    requires CanonOk(v) && KeysPresent(values, v)
    requires forall k | Has(values, k) :: CleanKey(k)
    ensures CleanRefs(v)
  {
    match v
    case Arr(items) =>
      forall i | 0 <= i < |items| ensures CleanRefs(items[i]) { PresentKeysClean(values, items[i]); }
    case Obj(ms) =>
      if !IsRefShape(ms) {
        forall i | 0 <= i < |ms| ensures CleanRefs(ms[i].value) { PresentKeysClean(values, ms[i].value); }
      }
    case _ =>
  }

  // ---- the state values along a run ------------------------------------------------------

  function InputOf(step: Step): Json {
    if step.IsTool() then step.input else Null
  }

  lemma {:induction false} LoopKeepsKeys(rt: Runtime, state: AgentState, tool: string, out: string, input: Json,
                                         max: int, i: nat, prev: string, k: string)
    requires LoopFrom(rt, state, tool, out, input, max, i, prev).Ok?
    ensures var next := LoopFrom(rt, state, tool, out, input, max, i, prev).value;
      && (Has(state.values, k) ==> Has(next.values, k))
      && (Has(next.values, k) ==> Has(state.values, k) || k == out)
    decreases max - i
  {
    if i < max {
      var stored := Store(state, out, Canonical(rt.tools(tool, input).value));
      var after := rt.coreHash(stored.counters, stored.values);
      PutGet(state.values, out, Canonical(rt.tools(tool, input).value), k);
      if after != prev {
        LoopKeepsKeys(rt, Log(stored, LoopLine(i, tool, out, false)), tool, out, input, max, i + 1, after, k);
      }
    }
  }

  predicate Writes(step: Step, k: string) {
    match step
    case Set(_, key, _) => k == key
    case SandboxExtract(_, _, _, out) => k == out
    case ToolCall(_, _, out, _) => k == out
    case ToolLoop(_, _, out, _, _) => k == out
    case _ => false
  }

  /** A step keeps every stored key, and adds only the key it writes. */
  lemma StepKeys(rt: Runtime, state: AgentState, step: Step, k: string)
    requires MockStep(rt, state, step).Ok?
    ensures Has(state.values, k) ==> Has(MockStep(rt, state, step).value.values, k)
    ensures Has(MockStep(rt, state, step).value.values, k) ==> Has(state.values, k) || Writes(step, k)
    ensures step.ToolCall? ==> Has(MockStep(rt, state, step).value.values, step.outputKey)
  {
    match step
    case Set(_, key, value) => PutGet(state.values, key, value, k);
    case SandboxExtract(_, _, selector, out) => PutGet(state.values, out, "mock:" + selector, k);
    case ToolCall(_, tool, out, input) =>
      var output := rt.tools(tool, ResolveInputRefs(rt.parse, state.values, input).value).value;
      PutGet(state.values, out, Canonical(output), k);
      PutGet(state.values, out, Canonical(output), out);
    case ToolLoop(_, tool, out, input, max) =>
      LoopKeepsKeys(rt, state, tool, out, ResolveInputRefs(rt.parse, state.values, input).value, max, 0,
                    rt.coreHash(state.counters, state.values), k);
    case _ =>
  }

  /** A step misses a key only through the references of its own input. */
  lemma StepMisses(rt: Runtime, state: AgentState, step: Step)
    ensures MissesKey(MockStep(rt, state, step)) ==> !KeysPresent(state.values, InputOf(step))
    ensures MockStep(rt, state, step).Ok? ==> KeysPresent(state.values, InputOf(step))
  {
    if step.IsTool() {
      ResolveKeys(rt.parse, state.values, step.input);
      if step.ToolLoop? && ResolveInputRefs(rt.parse, state.values, step.input).Ok? {
        LoopMissesNothing(rt, state, step.toolId, step.outputKey,
                          ResolveInputRefs(rt.parse, state.values, step.input).value, step.maxIterations, 0,
                          rt.coreHash(state.counters, state.values));
      }
    }
  }

  lemma {:induction false} LoopMissesNothing(rt: Runtime, state: AgentState, tool: string, out: string, input: Json,
                                             max: int, i: nat, prev: string)
    ensures !MissesKey(LoopFrom(rt, state, tool, out, input, max, i, prev))
    decreases max - i
  {
    if i < max && rt.tools(tool, input).Ok? {
      var stored := Store(state, out, Canonical(rt.tools(tool, input).value));
      var after := rt.coreHash(stored.counters, stored.values);
      if after != prev {
        LoopMissesNothing(rt, Log(stored, LoopLine(i, tool, out, false)), tool, out, input, max, i + 1, after);
      }
    }
  }

  // ---- soundness -------------------------------------------------------------------------

  /** The output keys of `tool.call` steps are written without space around them. */
  ghost predicate TrimmedOutputs(steps: seq<Step>) {
    forall j | 0 <= j < |steps| && IsProducer(steps[j]) :: Trim(steps[j].outputKey) == steps[j].outputKey
  }

  /** Everything produced before step `i` is stored. */
  ghost predicate ProducersStored(steps: seq<Step>, i: nat, values: seq<Entry<string>>)
    requires i <= |steps|
  {
    forall j | 0 <= j < i && IsProducer(steps[j]) :: Has(values, steps[j].outputKey)
  }

  lemma ProducersStoredNext(rt: Runtime, steps: seq<Step>, i: nat, state: AgentState)
    requires i < |steps| && MockStep(rt, state, steps[i]).Ok? && ProducersStored(steps, i, state.values)
    ensures ProducersStored(steps, i + 1, MockStep(rt, state, steps[i]).value.values)
  {
    var next := MockStep(rt, state, steps[i]).value;
    forall j | 0 <= j < i + 1 && IsProducer(steps[j]) ensures Has(next.values, steps[j].outputKey) {
      StepKeys(rt, state, steps[i], steps[j].outputKey);
    }
  }

  lemma ReferencedKeysStored(steps: seq<Step>, i: nat, values: seq<Entry<string>>)
    requires i < |steps| && RefsProduced(steps, i) && TrimmedOutputs(steps) && ProducersStored(steps, i, values)
    requires CleanRefs(InputOf(steps[i]))
    ensures KeysPresent(values, InputOf(steps[i]))
  {
    var input := InputOf(steps[i]);
    forall r | r in CollectRefs(input) ensures Has(values, r.outputKey) {
      assert r in RefsOf(steps[i]);
      var j :| 0 <= j < i && Produces(steps[j], r.outputKey);
    }
    CollectedKeysPresent(values, input);
  }

  /** The step at which an accepted run misses a key has an unclean reference of its own. */
  lemma {:induction false} MissingKeyIsUnclean(rt: Runtime, steps: seq<Step>, i: nat, state: AgentState)
    requires i <= |steps| && DependenciesHold(steps) && TrimmedOutputs(steps) && ProducersStored(steps, i, state.values)
    ensures var r := RunFrom(rt, steps, i, state);
      r.Failed? && r.error.KeyMissing? ==> r.at < |steps| && !CleanRefs(InputOf(steps[r.at]))
    decreases |steps| - i
  {
    if i < |steps| {
      StepMisses(rt, state, steps[i]);
      if CleanRefs(InputOf(steps[i])) { ReferencedKeysStored(steps, i, state.values); }
      if MockStep(rt, state, steps[i]).Ok? {
        ProducersStoredNext(rt, steps, i, state);
        MissingKeyIsUnclean(rt, steps, i + 1, MockStep(rt, state, steps[i]).value);
      }
    }
  }

  /** Static dependency soundness: an accepted list of clean references finds every key it looks up. */
  lemma StaticCheckIsSound(rt: Runtime, steps: seq<Step>)
    requires Analyze(steps).Ok? && TrimmedOutputs(steps)
    requires forall i | 0 <= i < |steps| :: CleanRefs(InputOf(steps[i]))
    ensures Run(rt, steps).Failed? ==> !Run(rt, steps).error.KeyMissing?
  {
    AnalyzeOkIff(steps);
    MissingKeyIsUnclean(rt, steps, 0, INITIAL_STATE);
  }

  // ---- and exact -------------------------------------------------------------------------

  /** What canonical plans satisfy: keys written without space around them, references are texts. */
  predicate WellWritten(step: Step) {
    && (step.Set? ==> CleanKey(step.key))
    && (step.SandboxExtract? || step.IsTool() ==> CleanKey(step.outputKey))
    && (step.IsTool() ==> CanonOk(step.input))
  }

  ghost predicate CleanStored(values: seq<Entry<string>>) {
    forall k | Has(values, k) :: CleanKey(k)
  }

  lemma CleanStoredNext(rt: Runtime, state: AgentState, step: Step)
    requires MockStep(rt, state, step).Ok? && WellWritten(step) && CleanStored(state.values)
    ensures CleanStored(MockStep(rt, state, step).value.values)
  {
    forall k | Has(MockStep(rt, state, step).value.values, k) ensures CleanKey(k) {
      StepKeys(rt, state, step, k);
    }
  }

  /** No run gets past a step with an unclean reference. */
  lemma {:induction false} UncleanNeverPasses(rt: Runtime, steps: seq<Step>, i: nat, state: AgentState, j: nat)
    requires i <= j < |steps| && CleanStored(state.values)
    requires forall k | 0 <= k < |steps| :: WellWritten(steps[k])
    requires !CleanRefs(InputOf(steps[j]))
    ensures RunFrom(rt, steps, i, state).Failed? && RunFrom(rt, steps, i, state).at <= j
    decreases j - i
  {
    StepMisses(rt, state, steps[i]);
    if MockStep(rt, state, steps[i]).Ok? {
      PresentKeysClean(state.values, InputOf(steps[i]));
      CleanStoredNext(rt, state, steps[i]);
      UncleanNeverPasses(rt, steps, i + 1, MockStep(rt, state, steps[i]).value, j);
    }
  }

  /**
   * Exactly the unclean references break an accepted plan: a run that fails to find a key fails
   * at a step with an unclean reference, and no run gets past such a step.
   */
  lemma StaticCheckIsExact(rt: Runtime, steps: seq<Step>)
    requires Analyze(steps).Ok? && forall k | 0 <= k < |steps| :: WellWritten(steps[k])
    ensures var r := Run(rt, steps);
      && (r.Failed? && r.error.KeyMissing? ==> r.at < |steps| && !CleanRefs(InputOf(steps[r.at])))
      && (forall j | 0 <= j < |steps| && !CleanRefs(InputOf(steps[j])) :: r.Failed? && r.at <= j)
  {
    AnalyzeOkIff(steps);
    MissingKeyIsUnclean(rt, steps, 0, INITIAL_STATE);
    forall j | 0 <= j < |steps| && !CleanRefs(InputOf(steps[j]))
      ensures Run(rt, steps).Failed? && Run(rt, steps).at <= j
    {
      UncleanNeverPasses(rt, steps, 0, INITIAL_STATE, j);
    }
  }

  /**
   * Which references of a canonical plan, whose texts are trimmed as a whole, have an unclean key:
   * those with nothing or a space after the prefix, or nothing or a space before the first dot.
   */
  lemma CanonicalKeyCleanIff(expr: string)
    requires Trimmed(expr)
    ensures var e := StripPrefix(expr);
      var dot := IndexOf(e, '.');
      CleanKey(RefKey(expr)) <==> e != "" && !IsSpace(e[0]) && (dot.Some? ==> dot.value > 0 && !IsSpace(e[dot.value - 1]))
  {
    CleanIffTrimmed(RefKey(expr));
    var e := StripPrefix(expr);
    if e != "" { assert e[|e| - 1] == expr[|expr| - 1]; }
  }

  lemma CleanIffTrimmed(key: string)
    ensures CleanKey(key) <==> key != "" && Trimmed(key)
  {
    TrimIsTrimmed(key);
    if Trimmed(key) { TrimOfTrimmed(key); }
  }

  /** Two calls, the second referring to the first under its key with a space before the dot. */
  const SPACED_STEPS := [ToolCall("a", "t", "k", Null), ToolCall("b", "t", "o", Obj([Entry("$ref", Str("k .x"))]))]

  /**
   * The check alone does not exclude the failure: a space between the key of a reference and its
   * path is accepted, and then no tool that answers lets the second step find its value.
   */
  lemma UntrimmedKeyIsAccepted(rt: Runtime)
    requires rt.tools("t", Null).Ok?
    ensures Analyze(SPACED_STEPS).Ok? && Run(rt, SPACED_STEPS) == Failed(1, KeyMissing("k ", "k .x"))
  {
    SpacedKey();
    SpacedStepsHold(SPACED_STEPS[0], SPACED_STEPS[1], SPACED_STEPS[1].input);
    assert SPACED_STEPS == [SPACED_STEPS[0], SPACED_STEPS[1]];
    AnalyzeOkIff(SPACED_STEPS);
    MissesAtSecond(rt, SPACED_STEPS[0], SPACED_STEPS[1], "k .x");
  }

  /** A call that refers to another key than the one call before it wrote. */
  lemma MissesAtSecond(rt: Runtime, first: Step, second: Step, expr: string)
    requires first.ToolCall? && first.input == Null && rt.tools(first.toolId, Null).Ok? && first.outputKey != RefKey(expr)
    requires second.ToolCall? && second.input == Obj([Entry("$ref", Str(expr))])
    ensures Run(rt, [first, second]) == Failed(1, KeyMissing(RefKey(expr), expr))
  {
    var next := MockStep(rt, INITIAL_STATE, first).value;
    StepKeys(rt, INITIAL_STATE, first, RefKey(expr));
    ReferenceMisses(rt, next, second, expr);
    RunOne(rt, [first, second], 0, INITIAL_STATE);
    RunOne(rt, [first, second], 1, next);
  }

  lemma ReferenceMisses(rt: Runtime, state: AgentState, step: Step, expr: string)
    requires step.ToolCall? && step.input == Obj([Entry("$ref", Str(expr))]) && !Has(state.values, RefKey(expr))
    ensures MockStep(rt, state, step) == Err(KeyMissing(RefKey(expr), expr))
  {
    assert IsRefShape([Entry("$ref", Str(expr))]);
  }

  lemma SpacedStepsHold(first: Step, second: Step, ref: Json)
    requires first == ToolCall("a", "t", "k", Null) && second == ToolCall("b", "t", "o", ref)
    requires ref == Obj([Entry("$ref", Str("k .x"))])
    ensures DependenciesHold([first, second])
  {
    var steps := [first, second];
    SpacedKey();
    assert IsProducer(first) && IsProducer(second) && Trim(first.outputKey) == "k" && Trim(second.outputKey) == "o";
    assert RefsOf(first) == [];
    assert ParseRef(ref) == Some(Ref("$ref", "k .x", "k", "x"));
    assert RefsOf(second) == [Ref("$ref", "k .x", "k", "x")];
    assert Produces(steps[0], "k");
    assert RefsProduced(steps, 0) && RefsProduced(steps, 1);
  }

  lemma SpacedKey()
    ensures RefKey("k .x") == "k " && RefPath("k .x") == "x"
    ensures Trim("k ") == "k" && Trim("k") == "k" && Trim("o") == "o"
  {
    assert IndexOf("k .x", '.') == Some(2);
    assert "k .x"[..2] == "k " && "k .x"[3..] == "x";
    assert TrimStart("k ") == "k ";
    assert "k "[..1] == "k";
    assert TrimEnd("k ") == TrimEnd("k");
  }

  // ---- references read what their producer wrote -----------------------------------------

  /** The state after the first `n` steps, when none of them throws. */
  function StateAfter(rt: Runtime, steps: seq<Step>, n: nat): Option<AgentState>
    requires n <= |steps|
  {
    if n == 0 then Some(INITIAL_STATE)
    else
      match StateAfter(rt, steps, n - 1)
      case None => None
      case Some(state) =>
        var next := MockStep(rt, state, steps[n - 1]);
        if next.Ok? then Some(next.value) else None
  }

  lemma RunOne(rt: Runtime, steps: seq<Step>, i: nat, state: AgentState)
    requires i < |steps|
    ensures var next := MockStep(rt, state, steps[i]);
      RunFrom(rt, steps, i, state) == if next.Ok? then RunFrom(rt, steps, i + 1, next.value) else Failed(i, next.error)
  {
  }

  lemma {:induction false} RunPassesThrough(rt: Runtime, steps: seq<Step>, n: nat)
    requires n <= |steps|
    ensures StateAfter(rt, steps, n).Some? ==> Run(rt, steps) == RunFrom(rt, steps, n, StateAfter(rt, steps, n).value)
    ensures StateAfter(rt, steps, n).None? ==> Run(rt, steps).Failed?
  {
    if n > 0 {
      RunPassesThrough(rt, steps, n - 1);
      if StateAfter(rt, steps, n - 1).Some? {
        RunOne(rt, steps, n - 1, StateAfter(rt, steps, n - 1).value);
      }
    }
  }

  lemma StepKeepsValue(rt: Runtime, state: AgentState, step: Step, k: string)
    requires MockStep(rt, state, step).Ok? && Has(state.values, k) && !Writes(step, k)
    ensures Has(MockStep(rt, state, step).value.values, k)
    ensures Get(MockStep(rt, state, step).value.values, k) == Get(state.values, k)
  {
    match step
    case Set(_, key, value) => PutGet(state.values, key, value, k);
    case SandboxExtract(_, _, selector, out) => PutGet(state.values, out, "mock:" + selector, k);
    case ToolCall(_, tool, out, input) =>
      PutGet(state.values, out, Canonical(rt.tools(tool, ResolveInputRefs(rt.parse, state.values, input).value).value), k);
    case ToolLoop(_, tool, out, input, max) =>
      LoopKeepsValue(rt, state, tool, out, ResolveInputRefs(rt.parse, state.values, input).value, max, 0,
                     rt.coreHash(state.counters, state.values), k);
    case _ =>
  }

  lemma {:induction false} LoopKeepsValue(rt: Runtime, state: AgentState, tool: string, out: string, input: Json,
                                          max: int, i: nat, prev: string, k: string)
    requires LoopFrom(rt, state, tool, out, input, max, i, prev).Ok? && Has(state.values, k) && k != out
    ensures var next := LoopFrom(rt, state, tool, out, input, max, i, prev).value;
      Has(next.values, k) && Get(next.values, k) == Get(state.values, k)
    decreases max - i
  {
    if i < max {
      var text := Canonical(rt.tools(tool, input).value);
      var stored := Store(state, out, text);
      var after := rt.coreHash(stored.counters, stored.values);
      PutGet(state.values, out, text, k);
      if after != prev {
        LoopKeepsValue(rt, Log(stored, LoopLine(i, tool, out, false)), tool, out, input, max, i + 1, after, k);
      }
    }
  }

  /** What the `tool.call` at step `j` of a run answers. */
  function OutputOf(rt: Runtime, steps: seq<Step>, j: nat): Json
    requires j < |steps| && steps[j].ToolCall? && StateAfter(rt, steps, j + 1).Some?
  {
    rt.tools(steps[j].toolId, ResolveInputRefs(rt.parse, StateAfter(rt, steps, j).value.values, steps[j].input).value).value
  }

  ghost predicate NotRewritten(steps: seq<Step>, j: nat, i: nat, key: string)
    requires i <= |steps|
  {
    forall m | j < m < i :: !Writes(steps[m], key)
  }

  /** Until another step writes its key, the text a tool call stored is the one found under it. */
  lemma {:induction false} StoredUntilRewritten(rt: Runtime, steps: seq<Step>, j: nat, i: nat)
    requires j < i <= |steps| && steps[j].ToolCall? && StateAfter(rt, steps, i).Some?
    requires NotRewritten(steps, j, i, steps[j].outputKey)
    ensures StateAfter(rt, steps, j + 1).Some?
    ensures Has(StateAfter(rt, steps, i).value.values, steps[j].outputKey)
    ensures Get(StateAfter(rt, steps, i).value.values, steps[j].outputKey) == Canonical(OutputOf(rt, steps, j))
  {
    var key := steps[j].outputKey;
    if i == j + 1 {
      PutGet(StateAfter(rt, steps, j).value.values, key, Canonical(OutputOf(rt, steps, j)), key);
    } else {
      StoredUntilRewritten(rt, steps, j, i - 1);
      assert !Writes(steps[i - 1], key);
      StepKeepsValue(rt, StateAfter(rt, steps, i - 1).value, steps[i - 1], key);
    }
  }

  /**
   * A reference with a path into the key of an earlier tool call resolves to what that path holds
   * in the tool's own output, provided `JSON.parse` reads back what the printer wrote.
   */
  lemma ReferenceReadsOutput(rt: Runtime, steps: seq<Step>, j: nat, i: nat, expr: string)
    requires j < i <= |steps| && steps[j].ToolCall? && StateAfter(rt, steps, i).Some?
    requires NotRewritten(steps, j, i, steps[j].outputKey)
    requires RefKey(expr) == steps[j].outputKey
    requires StateAfter(rt, steps, j + 1).Some?
    requires rt.parse(Canonical(OutputOf(rt, steps, j))) == Some(SortKeys(OutputOf(rt, steps, j)))
    ensures ResolveInputRefs(rt.parse, StateAfter(rt, steps, i).value.values, Obj([Entry("$ref", Str(expr))]))
         == if RefPath(expr) == "" then Ok(Str(Canonical(OutputOf(rt, steps, j))))
            else GetPathValue(SortKeys(OutputOf(rt, steps, j)), RefPath(expr))
  {
    StoredUntilRewritten(rt, steps, j, i);
  }
}
