/**
 * Running a plan built from capabilities when its tools answer in the form later steps refer to:
 * no reference fails in any way, so the run stops only where a tool itself throws.
 */
module CapabilityAnswers {
  import opened Common
  import opened JsStrings
  import opened Records
  import opened Json
  import opened PlanTypes
  import opened CanonicalPlan
  import opened PlanIdempotence
  import opened StepDependencies
  import opened StepBinding
  import opened CapabilityRules
  import opened CapabilityPipeline
  import opened CapabilityRuns
  import opened MockAdapter
  import opened DependencySoundness
  import Executor

  // ---- what the tools answer -------------------------------------------------------------

  /** The answer is an object with the field. */
  predicate HasField(answer: Json, key: string) {
    answer.Obj? && Has(answer.members, key)
  }

  /** Normalize answers with a text, extract and select with a value, whenever they answer. */
  ghost predicate AnswersInForm(rt: Runtime) {
    forall c: Capability, input | (c.TextNormalize? || c.JsonExtract? || c.JsonSelect?) && rt.tools(ToolId(c), input).Ok? ::
      HasField(rt.tools(ToolId(c), input).value, PathOf(c))
  }

  /** `JSON.parse` reads back what the interpreter stored of an answer. */
  ghost predicate ReadsBack(rt: Runtime) {
    forall tool, input | rt.tools(tool, input).Ok? ::
      rt.parse(Canonical(rt.tools(tool, input).value)) == Some(SortKeys(rt.tools(tool, input).value))
  }

  // ---- one reference ---------------------------------------------------------------------

  lemma SortedHas(ms: seq<Entry<Json>>, key: string)
    requires Has(ms, key)
    ensures Has(SortKeys(Obj(ms)).members, key)
  {
    var es := SortKeysMembers(ms);
    var i :| 0 <= i < |ms| && ms[i].key == key;
    assert es[i].key == key;
    HasIffKey(es, key);
    SortByKeyKeeps(es);
    HasIffKey(SortByKey(es), key);
  }

  lemma OnePart(c: Capability)
    ensures PathParts(PathOf(c)) == [PathOf(c)]
  {
    assert PathOf(c) == "text" || PathOf(c) == "value";
    assert '.' !in PathOf(c);
  }

  /** The field is found in the stored answer, whose keys are sorted. */
  lemma FieldIsFound(answer: Json, c: Capability)
    requires HasField(answer, PathOf(c))
    ensures GetPathValue(SortKeys(answer), PathOf(c)).Ok?
  {
    SortedHas(answer.members, PathOf(c));
    OnePart(c);
    var parts := [PathOf(c)];
    assert parts[1..] == [];
    assert Walk(Get(SortKeys(answer).members, PathOf(c)), parts[1..], PathOf(c)).Ok?;
  }

  /** The steps of a canonical built plan, as `CanonicalEdgesPointBackward` gives them. */
  ghost predicate Built(steps: seq<Step>) {
    AllPlain(steps) && DependenciesHold(steps)
  }

  lemma KeyIsNoSetKey(c: Capability)
    ensures OutKey(c) != "goal" && OutKey(c) != "intent"
  {
    KeySignatureIs(c);
  }

  /** The producer of a key is the call of the one capability with that key. */
  lemma ProducerIsCall(step: Step, c: Capability)
    requires PlainStep(step) && Produces(step, OutKey(c))
    ensures IsCallOf(step, c)
  {
    var x :| IsCallOf(step, x);
    KeyIsClean(x);
    OutKeyTells(x, c);
  }

  lemma OthersWriteOthers(steps: seq<Step>, j: nat, m: nat, c: Capability)
    requires Built(steps) && j < m < |steps| && IsCallOf(steps[j], c)
    ensures !Writes(steps[m], OutKey(c))
  {
    KeyIsNoSetKey(c);
    PlainIsNotLoop(steps[m]);
    if steps[m].ToolCall? {
      var x :| IsCallOf(steps[m], x);
      KeyIsClean(x);
      KeyIsClean(c);
      assert IsProducer(steps[j]) && IsProducer(steps[m]);
    }
  }

  /** A reference to a capability finds the earlier step that calls it. */
  lemma CallBefore(steps: seq<Step>, n: nat, c: Capability, key: string) returns (j: nat)
    requires Built(steps) && n < |steps| && steps[n].ToolCall? && key == OutKey(c)
    requires exists r :: r in RefsOf(steps[n]) && r.outputKey == key
    ensures j < n && IsCallOf(steps[j], c) && NotRewritten(steps, j, n, key)
  {
    assert RefsProduced(steps, n);
    j :| 0 <= j < n && Produces(steps[j], key);
    ProducerIsCall(steps[j], c);
    forall m | j < m < n ensures !Writes(steps[m], key) { OthersWriteOthers(steps, j, m, c); }
  }

  lemma AnswerOf(rt: Runtime, steps: seq<Step>, j: nat)
    requires j < |steps| && steps[j].ToolCall? && StateAfter(rt, steps, j + 1).Some?
    ensures exists input :: rt.tools(steps[j].toolId, input) == Ok(OutputOf(rt, steps, j))
  {
    var state := StateAfter(rt, steps, j).value;
    var input := ResolveInputRefs(rt.parse, state.values, steps[j].input).value;
    assert rt.tools(steps[j].toolId, input) == Ok(OutputOf(rt, steps, j));
  }

  lemma {:induction false} StateBefore(rt: Runtime, steps: seq<Step>, m: nat, n: nat)
    requires m <= n <= |steps| && StateAfter(rt, steps, n).Some?
    ensures StateAfter(rt, steps, m).Some?
  {
    if m < n { StateBefore(rt, steps, m, n - 1); }
  }

  lemma AnswerInForm(rt: Runtime, steps: seq<Step>, j: nat, c: Capability)
    requires AnswersInForm(rt) && ReadsBack(rt) && j < |steps| && IsCallOf(steps[j], c) && StateAfter(rt, steps, j + 1).Some?
    requires c.TextNormalize? || c.JsonExtract? || c.JsonSelect?
    ensures HasField(OutputOf(rt, steps, j), PathOf(c))
    ensures rt.parse(Canonical(OutputOf(rt, steps, j))) == Some(SortKeys(OutputOf(rt, steps, j)))
  {
    AnswerOf(rt, steps, j);
    var input :| rt.tools(steps[j].toolId, input) == Ok(OutputOf(rt, steps, j));
    assert rt.tools(ToolId(c), input).Ok?;
  }

  /** What makes a reference into the answer of step `j` resolve at step `n`. */
  ghost predicate PointsInto(rt: Runtime, steps: seq<Step>, j: nat, n: nat, expr: string) {
    && j < n <= |steps| && steps[j].ToolCall? && StateAfter(rt, steps, j + 1).Some? && StateAfter(rt, steps, n).Some?
    && NotRewritten(steps, j, n, steps[j].outputKey) && RefKey(expr) == steps[j].outputKey
    && rt.parse(Canonical(OutputOf(rt, steps, j))) == Some(SortKeys(OutputOf(rt, steps, j)))
    && GetPathValue(SortKeys(OutputOf(rt, steps, j)), RefPath(expr)).Ok?
  }

  lemma ReferenceInto(rt: Runtime, steps: seq<Step>, j: nat, n: nat, expr: string, v: Json)
    requires PointsInto(rt, steps, j, n, expr) && v == Obj([Entry("$ref", Str(expr))])
    ensures ResolveInputRefs(rt.parse, StateAfter(rt, steps, n).value.values, v).Ok?
  {
    ReferenceReadsOutput(rt, steps, j, n, expr);
  }

  lemma MadeExpr(c: Capability) returns (expr: string)
    requires c.TextNormalize? || c.JsonExtract? || c.JsonSelect?
    ensures Made(c, PathOf(c)) == Obj([Entry("$ref", Str(expr))]) && RefKey(expr) == OutKey(c) && RefPath(expr) == PathOf(c)
  {
    expr := RefText(OutKey(c), PathOf(c));
    KeyHasNoDot(c);
    MadeParts(OutKey(c), PathOf(c));
  }

  /** A reference into the answer of the step that calls the capability. */
  lemma ReferencePoints(rt: Runtime, steps: seq<Step>, j: nat, n: nat, c: Capability, expr: string)
    requires AnswersInForm(rt) && ReadsBack(rt) && j < n <= |steps| && IsCallOf(steps[j], c)
    requires c.TextNormalize? || c.JsonExtract? || c.JsonSelect?
    requires StateAfter(rt, steps, n).Some? && NotRewritten(steps, j, n, OutKey(c))
    requires RefKey(expr) == OutKey(c) && RefPath(expr) == PathOf(c)
    ensures PointsInto(rt, steps, j, n, expr)
  {
    StateBefore(rt, steps, j + 1, n);
    AnswerInForm(rt, steps, j, c);
    FieldIsFound(OutputOf(rt, steps, j), c);
  }

  // ---- one input -------------------------------------------------------------------------

  lemma PlainResolves(parse: string -> Option<Json>, values: seq<Entry<string>>, v: Json)
    requires NoRefs(v)
    ensures ResolveInputRefs(parse, values, v).Ok?
  {
    if v.Arr? {
      var items := [Str("name"), Str("role")];
      assert items[1..] == [Str("role")] && items[1..][1..] == [];
      assert ResolveItems(parse, values, items[1..][1..]) == Ok([]);
      assert ResolveItems(parse, values, items[1..]).Ok?;
    }
  }

  lemma {:induction false} MembersResolve(parse: string -> Option<Json>, values: seq<Entry<string>>, ms: seq<Entry<Json>>)
    requires forall i | 0 <= i < |ms| :: ResolveInputRefs(parse, values, ms[i].value).Ok?
    ensures ResolveMembers(parse, values, ms).Ok?
  {
    if ms != [] { MembersResolve(parse, values, ms[1..]); }
  }

  lemma MadeRef(c: Capability)
    requires c.TextNormalize? || c.JsonExtract? || c.JsonSelect?
    ensures exists r :: r in CollectRefs(Made(c, PathOf(c))) && r.outputKey == OutKey(c)
  {
    PathsAreTrimmed();
    MadeCollected(c, PathOf(c));
    assert CollectRefs(Made(c, PathOf(c)))[0].outputKey == OutKey(c);
  }

  lemma FieldResolves(rt: Runtime, steps: seq<Step>, n: nat, i: nat)
    requires AnswersInForm(rt) && ReadsBack(rt) && Built(steps) && n < |steps| && StateAfter(rt, steps, n).Some?
    requires steps[n].ToolCall? && steps[n].input.Obj? && PlainInput(steps[n].input.members) && i < |steps[n].input.members|
    ensures ResolveInputRefs(rt.parse, StateAfter(rt, steps, n).value.values, steps[n].input.members[i].value).Ok?
  {
    var ms := steps[n].input.members;
    var v := ms[i].value;
    if NoRefs(v) {
      PlainResolves(rt.parse, StateAfter(rt, steps, n).value.values, v);
    } else {
      var c :| IsMadeOf(v, c);
      MadeRef(c);
      var r :| r in CollectRefs(v) && r.outputKey == OutKey(c);
      RefOfField(ms, i, r);
      var j := CallBefore(steps, n, c, OutKey(c));
      var expr := MadeExpr(c);
      ReferencePoints(rt, steps, j, n, c, expr);
      ReferenceInto(rt, steps, j, n, expr, v);
    }
  }

  lemma RefOfField(ms: seq<Entry<Json>>, i: nat, r: Ref)
    requires PlainInput(ms) && i < |ms| && r in CollectRefs(ms[i].value)
    ensures r in CollectRefs(Obj(ms))
  {
    MemberRefs(ms, i, r);
    assert !IsRefShape(ms);
  }

  /** A step of the plan throws only when its tool does. */
  lemma StepOnlyThrows(rt: Runtime, steps: seq<Step>, n: nat)
    requires AnswersInForm(rt) && ReadsBack(rt) && Built(steps) && n < |steps| && StateAfter(rt, steps, n).Some?
    ensures var r := MockStep(rt, StateAfter(rt, steps, n).value, steps[n]);
      r.Err? ==> r.error.Threw?
  {
    PlainIsNotLoop(steps[n]);
    if steps[n].ToolCall? {
      var ms := steps[n].input.members;
      forall i | 0 <= i < |ms|
        ensures ResolveInputRefs(rt.parse, StateAfter(rt, steps, n).value.values, ms[i].value).Ok?
      {
        FieldResolves(rt, steps, n, i);
      }
      MembersResolve(rt.parse, StateAfter(rt, steps, n).value.values, ms);
      assert !IsRefShape(ms);
    }
  }

  // ---- the run ---------------------------------------------------------------------------

  lemma {:induction false} StopsSomewhere(rt: Runtime, steps: seq<Step>, n: nat) returns (k: nat)
    requires n <= |steps| && StateAfter(rt, steps, n).None?
    ensures k < n && StateAfter(rt, steps, k).Some? && StateAfter(rt, steps, k + 1).None?
  {
    if StateAfter(rt, steps, n - 1).Some? {
      k := n - 1;
    } else {
      k := StopsSomewhere(rt, steps, n - 1);
    }
  }

  lemma RunOnlyThrows(rt: Runtime, steps: seq<Step>)
    requires AnswersInForm(rt) && ReadsBack(rt) && Built(steps)
    ensures Run(rt, steps).Failed? ==> Run(rt, steps).error.Threw?
  {
    RunPassesThrough(rt, steps, |steps|);
    if StateAfter(rt, steps, |steps|).None? {
      var k := StopsSomewhere(rt, steps, |steps|);
      RunPassesThrough(rt, steps, k);
      RunOne(rt, steps, k, StateAfter(rt, steps, k).value);
      StepOnlyThrows(rt, steps, k);
    }
  }

  /**
   * Executing a built plan: when normalize answers with a text and extract and select with a value,
   * no reference fails in any way, and the run stops only where a tool throws.
   */
  lemma BuiltPlansFailOnlyInTools(env: Executor.Env, p: Params, n: Normalized)
    requires NfcLaws(env.nfc) && AnswersInForm(env.rt) && ReadsBack(env.rt)
    requires Canonicalize(env.nfc, PlanFields(Plan(PlanId(p), SynthSteps(p, n)))).Some?
    ensures
      var steps := Canonicalize(env.nfc, PlanFields(Plan(PlanId(p), SynthSteps(p, n)))).value.steps;
      var l := Executor.Steps(env, steps, |steps|);
      l.Halted? ==> l.error.Threw?
  {
    CanonicalEdgesPointBackward(env.nfc, p, n);
    var steps := Canonicalize(env.nfc, PlanFields(Plan(PlanId(p), SynthSteps(p, n)))).value.steps;
    RunOnlyThrows(env.rt, steps);
    Executor.RunOfSteps(env, steps);
  }
}
