/** The schema check of planner output (src/prompts/planner/planner-contract.ts). */
module PlannerContract {
  import opened Common
  import opened JsStrings
  import opened Records
  import opened Json
  import opened CanonicalPlan

  const TOP_LEVEL_KEYS := {"decisionSummary", "requiresClarification", "clarificationQuestion", "assumptions", "missingInputs", "steps"}
  const STEP_KEYS := {"step", "tool", "parameters", "explanation", "dependsOn"}
  const DEFAULT_MAX_STEPS := 8

  /** `readNonEmptyString`. */
  function NonEmptyText(v: Option<Json>): Option<string> {
    if v.Some? && v.value.Str? && Trim(v.value.s) != "" then Some(Trim(v.value.s)) else None
  }

  predicate IsTextArray(v: Option<Json>) {
    v.Some? && v.value.Arr? && forall i | 0 <= i < |v.value.items| :: v.value.items[i].Str?
  }

  predicate IsRecord(v: Option<Json>) {
    v.Some? && v.value.Obj?
  }

  function StepPath(index: nat): string {
    "$.steps[" + NatText(index) + "]"
  }

  predicate DependencyOk(d: Json, step: int) {
    d.Num? && 0 < d.n <= MAX_SAFE && d.n < step
  }

  predicate DependenciesOk(v: Option<Json>, step: int) {
    v.Some? ==> v.value.Arr? && forall i | 0 <= i < |v.value.items| :: DependencyOk(v.value.items[i], step)
  }

  /** The path at which the step numbered `index + 1` fails first, if it does. */
  function StepFault(step: Json, index: nat, allowed: Option<seq<string>>): Option<string> {
    var path := StepPath(index);
    if !step.Obj? || !OnlyKeys(step.members, STEP_KEYS) then Some(path)
    else
      var ms := step.members;
      var tool := NonEmptyText(Field(ms, "tool"));
      if Field(ms, "step") != Some(Num(index + 1)) then Some(path + ".step")
      else if tool.None? then Some(path + ".tool")
      else if allowed.Some? && tool.value !in allowed.value then Some(path + ".tool")
      else if !IsRecord(Field(ms, "parameters")) then Some(path + ".parameters")
      else if NonEmptyText(Field(ms, "explanation")).None? then Some(path + ".explanation")
      else if !DependenciesOk(Field(ms, "dependsOn"), index + 1) then Some(path + ".dependsOn")
      else None
  }

  /** The checks before the loop over the steps, first failing path. */
  function HeaderFault(ms: seq<Entry<Json>>, maxSteps: int): Option<string> {
    var clarify, question, steps := Field(ms, "requiresClarification"), Field(ms, "clarificationQuestion"), Field(ms, "steps");
    if !OnlyKeys(ms, TOP_LEVEL_KEYS) then Some("$")
    else if NonEmptyText(Field(ms, "decisionSummary")).None? then Some("$.decisionSummary")
    else if clarify.None? || !clarify.value.Bool? then Some("$.requiresClarification")
    else if clarify.value.b && NonEmptyText(question).None? then Some("$.clarificationQuestion")
    else if !clarify.value.b && question != Some(Null) then Some("$.clarificationQuestion")
    else if !IsTextArray(Field(ms, "assumptions")) then Some("$.assumptions")
    else if !IsTextArray(Field(ms, "missingInputs")) then Some("$.missingInputs")
    else if steps.None? || !steps.value.Arr? then Some("$.steps")
    else if !(0 < maxSteps <= MAX_SAFE) then Some("$.maxSteps")
    else if |steps.value.items| > maxSteps then Some("$.steps")
    else if clarify.value.b && |steps.value.items| != 0 then Some("$.steps")
    else if !clarify.value.b && |steps.value.items| == 0 then Some("$.steps")
    else None
  }

  function StepItems(output: Json): seq<Json> {
    if output.Obj? && Field(output.members, "steps").Some? && Field(output.members, "steps").value.Arr?
    then Field(output.members, "steps").value.items else []
  }

  function FirstStepFault(items: seq<Json>, from: nat, allowed: Option<seq<string>>): Option<string>
    requires from <= |items|
    decreases |items| - from
  {
    if from == |items| then None
    else
      var fault := StepFault(items[from], from, allowed);
      if fault.Some? then fault else FirstStepFault(items, from + 1, allowed)
  }

  function MaxStepsOf(maxSteps: Option<int>): int {
    if maxSteps.Some? then maxSteps.value else DEFAULT_MAX_STEPS
  }

  /** `validatePlannerPromptOutput`: `None` when it accepts, else the path of the first failure. */
  function OutputFault(output: Json, allowed: Option<seq<string>>, maxSteps: Option<int>): Option<string> {
    if !output.Obj? then Some("$")
    else
      var header := HeaderFault(output.members, MaxStepsOf(maxSteps));
      if header.Some? then header else FirstStepFault(StepItems(output), 0, allowed)
  }

  method ValidatePlannerPromptOutput(output: Json, allowed: Option<seq<string>>, maxSteps: Option<int>)
    returns (fault: Option<string>)
    ensures fault == OutputFault(output, allowed, maxSteps)
  {
    if !output.Obj? {
      return Some("$");
    }
    var header := HeaderFault(output.members, MaxStepsOf(maxSteps));
    if header.Some? {
      return header;
    }
    var items := StepItems(output);
    var index := 0;
    while index < |items|
      invariant 0 <= index <= |items|
      invariant FirstStepFault(items, index, allowed) == FirstStepFault(items, 0, allowed)
    {
      var stepFault := StepFault(items[index], index, allowed);
      if stepFault.Some? {
        return stepFault;
      }
      index := index + 1;
    }
    return None;
  }

  // ---- what is accepted ------------------------------------------------------------------

  /** A step as the contract wants it: exact number, a declared tool, a record, backward dependencies. */
  predicate StepConforms(step: Json, index: nat, allowed: Option<seq<string>>) {
    && step.Obj? && OnlyKeys(step.members, STEP_KEYS)
    && Field(step.members, "step") == Some(Num(index + 1))
    && NonEmptyText(Field(step.members, "tool")).Some?
    && (allowed.Some? ==> NonEmptyText(Field(step.members, "tool")).value in allowed.value)
    && IsRecord(Field(step.members, "parameters"))
    && NonEmptyText(Field(step.members, "explanation")).Some?
    && DependenciesOk(Field(step.members, "dependsOn"), index + 1)
  }

  predicate StepsConform(items: seq<Json>, allowed: Option<seq<string>>) {
    forall i | 0 <= i < |items| :: StepConforms(items[i], i, allowed)
  }

  /** Whether the output asks for clarification; it then has a question and no steps, else no question and steps. */
  predicate AsksOrPlans(ms: seq<Entry<Json>>, items: seq<Json>) {
    || (Field(ms, "requiresClarification") == Some(Bool(true)) && NonEmptyText(Field(ms, "clarificationQuestion")).Some? && items == [])
    || (Field(ms, "requiresClarification") == Some(Bool(false)) && Field(ms, "clarificationQuestion") == Some(Null) && items != [])
  }

  predicate HeaderConforms(ms: seq<Entry<Json>>, maxSteps: int) {
    && OnlyKeys(ms, TOP_LEVEL_KEYS) && NonEmptyText(Field(ms, "decisionSummary")).Some?
    && IsTextArray(Field(ms, "assumptions")) && IsTextArray(Field(ms, "missingInputs"))
    && Field(ms, "steps").Some? && Field(ms, "steps").value.Arr?
    && 0 < maxSteps <= MAX_SAFE && |Field(ms, "steps").value.items| <= maxSteps
    && AsksOrPlans(ms, Field(ms, "steps").value.items)
  }

  predicate OutputConforms(output: Json, allowed: Option<seq<string>>, maxSteps: Option<int>) {
    output.Obj? && HeaderConforms(output.members, MaxStepsOf(maxSteps)) && StepsConform(StepItems(output), allowed)
  }

  lemma HeaderIff(ms: seq<Entry<Json>>, maxSteps: int)
    ensures HeaderFault(ms, maxSteps).None? <==> HeaderConforms(ms, maxSteps)
  {
  }

  lemma StepIff(step: Json, index: nat, allowed: Option<seq<string>>)
    ensures StepFault(step, index, allowed).None? <==> StepConforms(step, index, allowed)
  {
  }

  lemma {:induction false} StepsIff(items: seq<Json>, from: nat, allowed: Option<seq<string>>)
    requires from <= |items|
    ensures FirstStepFault(items, from, allowed).None? <==> forall i | from <= i < |items| :: StepConforms(items[i], i, allowed)
    decreases |items| - from
  {
    if from < |items| {
      StepIff(items[from], from, allowed);
      StepsIff(items, from + 1, allowed);
    }
  }

  /** The contract accepts exactly the outputs that conform. */
  lemma ContractAcceptsIff(output: Json, allowed: Option<seq<string>>, maxSteps: Option<int>)
    ensures OutputFault(output, allowed, maxSteps).None? <==> OutputConforms(output, allowed, maxSteps)
  {
    if output.Obj? {
      HeaderIff(output.members, MaxStepsOf(maxSteps));
      StepsIff(StepItems(output), 0, allowed);
    }
  }
}
