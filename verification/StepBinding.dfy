/**
 * Building references (`makeStepStateRef`, `bindStepInputRef`) and checking that required inputs
 * use them (`validateRequiredDerivedInputs`), all in src/agent-run/step-dependencies.ts.
 */
module StepBinding {
  import opened Common
  import opened JsStrings
  import opened Records
  import opened Json
  import opened PlanTypes
  import opened CanonicalPlan
  import opened StepDependencies

  function RefText(key: string, path: string): string {
    STATE_PREFIX + (if path == "" then key else key + "." + path)
  }

  /** `makeStepStateRef`; `None` is the error thrown for a blank key. An absent path is "". */
  function MakeStepStateRef(outputKey: string, nestedPath: string): Option<Json> {
    if Trim(outputKey) == "" then None
    else Some(Obj([Entry("$ref", Str(RefText(Trim(outputKey), Trim(nestedPath))))]))
  }

  // ---- what is made is read back ---------------------------------------------------------

  lemma {:induction false} TrimStartKeepsOut(s: string, c: char)
    requires c !in s
    ensures c !in TrimStart(s)
  {
    if s != "" && IsSpace(s[0]) { TrimStartKeepsOut(s[1..], c); }
  }

  lemma TrimKeepsOut(s: string, c: char)
    requires c !in s
    ensures c !in Trim(s)
  {
    TrimStartKeepsOut(s, c);
    TrimEndEnds(TrimStart(s));
  }

  lemma FirstDot(a: string, b: string)
    requires '.' !in a
    ensures IndexOf(a + "." + b, '.') == Some(|a|)
    ensures (a + "." + b)[..|a|] == a && (a + "." + b)[|a| + 1..] == b
  {
    var s := a + "." + b;
    assert s[|a|] == '.';
    assert forall i | 0 <= i < |a| :: s[i] == a[i];
  }

  lemma StripMade(rest: string)
    ensures StripPrefix(STATE_PREFIX + rest) == rest
  {
  }

  /** The key and path of a made reference, when the key has no dot. */
  lemma MadeParts(key: string, path: string)
    requires '.' !in key
    ensures RefKey(RefText(key, path)) == key && RefPath(RefText(key, path)) == path
  {
    if path == "" {
      StripMade(key);
    } else {
      StripMade(key + "." + path);
      FirstDot(key, path);
    }
  }

  /** A dot in the key moves the end of the key. */
  lemma DottedKeyIsCut(key: string, path: string)
    requires '.' in key
    ensures '.' !in RefKey(RefText(key, path))
  {
    var rest := if path == "" then key else key + "." + path;
    StripMade(rest);
    var i :| 0 <= i < |key| && key[i] == '.';
    assert rest[i] == '.';
  }

  /** A made reference reads back as the trimmed key and path exactly when the key has no dot. */
  lemma MadeRefReadsBack(outputKey: string, nestedPath: string)
    requires Trim(outputKey) != ""
    ensures var key, path := Trim(outputKey), Trim(nestedPath);
      '.' !in key <==>
        ParseRef(MakeStepStateRef(outputKey, nestedPath).value) == Some(Ref("$ref", RefText(key, path), key, path))
  {
    var key, path := Trim(outputKey), Trim(nestedPath);
    if '.' !in key {
      MadeParts(key, path);
      TrimIsTrimmed(outputKey);
      TrimOfTrimmed(key);
    } else {
      DottedKeyIsCut(key, path);
      TrimKeepsOut(RefKey(RefText(key, path)), '.');
    }
  }

  // ---- binding ---------------------------------------------------------------------------

  predicate IsProduced(a: Analysis, key: string) {
    Has(a.produced, key)
  }

  /** `bindStepInputRef`. */
  function BindStepInputRef(steps: seq<Step>, outputKey: string, nestedPath: string, fallback: Json): Option<Json> {
    var analysis := Analyze(steps);
    if analysis.Err? || !IsProduced(analysis.value, outputKey) then Some(fallback)
    else MakeStepStateRef(outputKey, nestedPath)
  }

  lemma ProducedKey(steps: seq<Step>, key: string)
    requires Analyze(steps).Ok? && IsProduced(Analyze(steps).value, key)
    ensures key != "" && Trim(key) == key && ProducedBefore(steps, |steps|, key)
  {
    ProducedTable(steps, |steps|);
    var p := Analyze(steps).value.produced;
    assert Points(steps, |steps|, key, Get(p, key));
    TrimIsTrimmed(steps[Get(p, key)].outputKey);
    TrimOfTrimmed(key);
  }

  lemma ProducedIff(steps: seq<Step>, key: string)
    requires Analyze(steps).Ok?
    ensures IsProduced(Analyze(steps).value, key) <==> ProducedBefore(steps, |steps|, key)
  {
    ProducedTable(steps, |steps|);
    var p := Analyze(steps).value.produced;
    if Has(p, key) { assert Points(steps, |steps|, key, Get(p, key)); }
    forall j | 0 <= j < |steps| && Produces(steps[j], key) ensures Has(p, key) {
      assert IndexedAt(p, Trim(steps[j].outputKey), j);
    }
  }

  /** Binding never throws: a key is only referred to when a step produces it. */
  lemma BindNeverThrows(steps: seq<Step>, outputKey: string, nestedPath: string, fallback: Json)
    ensures BindStepInputRef(steps, outputKey, nestedPath, fallback).Some?
  {
    if Analyze(steps).Ok? && IsProduced(Analyze(steps).value, outputKey) { ProducedKey(steps, outputKey); }
  }

  lemma {:induction false} SingleMemberRefs(key: string, v: Json)
    requires v.Obj?
    ensures CollectRefs(Obj([Entry(key, v)])) == CollectRefs(v)
  {
    var ms := [Entry(key, v)];
    assert ms[1..] == [];
    assert CollectMembers(ms) == CollectRefs(v) + CollectMembers(ms[1..]);
  }

  lemma AppendKeepsDependencies(steps: seq<Step>, consumer: Step)
    requires DependenciesHold(steps)
    requires forall r | r in RefsOf(consumer) :: ProducedBefore(steps, |steps|, r.outputKey)
    requires IsProducer(consumer) ==> !ProducedBefore(steps, |steps|, Trim(consumer.outputKey))
    ensures DependenciesHold(steps + [consumer])
  {
    var all := steps + [consumer];
    forall i | 0 <= i < |all| ensures RefsProduced(all, i) {
      forall r | r in RefsOf(all[i]) ensures ProducedBefore(all, i, r.outputKey) {
        if i < |steps| { assert RefsProduced(steps, i); }
        var j :| 0 <= j < i && Produces(steps[j], r.outputKey);
        assert Produces(all[j], r.outputKey);
      }
    }
    forall i, j | 0 <= i < j < |all| && IsProducer(all[i]) && IsProducer(all[j])
      ensures Trim(all[i].outputKey) != Trim(all[j].outputKey)
    {
      if j == |steps| { assert Produces(steps[i], Trim(steps[i].outputKey)); }
    }
  }

  /**
   * A step whose input is bound to a produced key without dots can be appended to an accepted
   * list, whatever its input is called and wherever the path leads.
   */
  lemma BoundStepIsAccepted(steps: seq<Step>, outputKey: string, nestedPath: string, fallback: Json,
                            id: string, tool: string, out: string, inputKey: string)
    requires Analyze(steps).Ok? && IsProduced(Analyze(steps).value, outputKey) && '.' !in outputKey
    requires !IsProduced(Analyze(steps).value, Trim(out))
    ensures BindStepInputRef(steps, outputKey, nestedPath, fallback).Some?
    ensures var bound := BindStepInputRef(steps, outputKey, nestedPath, fallback).value;
      Analyze(steps + [ToolCall(id, tool, out, Obj([Entry(inputKey, bound)]))]).Ok?
  {
    ProducedKey(steps, outputKey);
    MadeRefReadsBack(outputKey, nestedPath);
    var bound := MakeStepStateRef(outputKey, nestedPath).value;
    var consumer := ToolCall(id, tool, out, Obj([Entry(inputKey, bound)]));
    SingleMemberRefs(inputKey, bound);
    AnalyzeOkIff(steps);
    ProducedIff(steps, Trim(out));
    AppendKeepsDependencies(steps, consumer);
    AnalyzeOkIff(steps + [consumer]);
  }

  // ---- required derived inputs -----------------------------------------------------------

  datatype Rule = Rule(consumerToolId: string, inputKey: string, producerOutputKey: string, nestedPath: string)

  const MUST_USE_REF := "STEP_DERIVED_INPUT_MUST_USE_REF"
  const MISMATCH := "STEP_DERIVED_INPUT_REF_MISMATCH"

  function Property(v: Json, key: string): Option<Json> {
    if v.Obj? && Has(v.members, key) then Some(Get(v.members, key)) else None
  }

  predicate Applies(a: Analysis, step: Step, rule: Rule) {
    step.ToolCall? && step.toolId == rule.consumerToolId && IsProduced(a, rule.producerOutputKey)
  }

  function InputRef(step: Step, key: string): Option<Ref>
    requires step.ToolCall?
  {
    var v := Property(step.input, key);
    if v.None? then None else ParseRef(v.value)
  }

  /** Why a step breaks a rule. */
  function RuleError(a: Analysis, step: Step, rule: Rule): Option<string> {
    if !Applies(a, step, rule) then None
    else
      var ref := InputRef(step, rule.inputKey);
      if ref.None? then Some(MUST_USE_REF)
      else if ref.value.outputKey != rule.producerOutputKey || ref.value.nestedPath != rule.nestedPath then Some(MISMATCH)
      else None
  }

  /** The step takes the input the rule names from the key and path the rule names. */
  predicate Obeys(a: Analysis, step: Step, rule: Rule) {
    Applies(a, step, rule) ==>
      var ref := InputRef(step, rule.inputKey);
      ref.Some? && ref.value.outputKey == rule.producerOutputKey && ref.value.nestedPath == rule.nestedPath
  }

  /** Rule `k` on step `i` is the first one broken, steps before rules. */
  ghost predicate IsFirstError(a: Analysis, steps: seq<Step>, rules: seq<Rule>, i: nat, k: nat, error: string)
    requires i < |steps| && k < |rules|
  {
    && RuleError(a, steps[i], rules[k]) == Some(error)
    && (forall j, m | 0 <= j < i && 0 <= m < |rules| :: Obeys(a, steps[j], rules[m]))
    && (forall m | 0 <= m < k :: Obeys(a, steps[i], rules[m]))
  }

  method ValidateRequiredDerivedInputs(steps: seq<Step>, rules: seq<Rule>) returns (r: Result<(), string>)
    ensures Analyze(steps).Err? ==> r == Err(Analyze(steps).error)
    ensures Analyze(steps).Ok? ==>
      (r.Ok? <==> forall i, k | 0 <= i < |steps| && 0 <= k < |rules| :: Obeys(Analyze(steps).value, steps[i], rules[k]))
    ensures Analyze(steps).Ok? && r.Err? ==>
      exists i, k | 0 <= i < |steps| && 0 <= k < |rules| ::
        IsFirstError(Analyze(steps).value, steps, rules, i, k, r.error)
  {
    var analysis := AnalyzeStepDependencies(steps);
    if analysis.Err? {
      return Err(analysis.error);
    }
    var a := analysis.value;
    for i := 0 to |steps|
      invariant forall j, k | 0 <= j < i && 0 <= k < |rules| :: Obeys(a, steps[j], rules[k])
    {
      for k := 0 to |rules|
        invariant forall m | 0 <= m < k :: Obeys(a, steps[i], rules[m])
      {
        var error := RuleError(a, steps[i], rules[k]);
        if error.Some? {
          assert !Obeys(a, steps[i], rules[k]);
          assert IsFirstError(a, steps, rules, i, k, error.value);
          return Err(error.value);
        }
      }
    }
    return Ok(());
  }

  /** An input bound as the rule asks obeys the rule, when key and path are written as they are read back. */
  lemma BoundInputObeys(a: Analysis, step: Step, rule: Rule)
    requires step.ToolCall? && '.' !in rule.producerOutputKey && rule.producerOutputKey != ""
    requires Trim(rule.producerOutputKey) == rule.producerOutputKey && Trim(rule.nestedPath) == rule.nestedPath
    requires Property(step.input, rule.inputKey) == MakeStepStateRef(rule.producerOutputKey, rule.nestedPath)
    ensures Obeys(a, step, rule)
  {
    MadeRefReadsBack(rule.producerOutputKey, rule.nestedPath);
  }
}
