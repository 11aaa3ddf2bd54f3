/**
 * What a bridged plan holds (src/agent-run/llm-live-planner-bridge.ts): which planner step each of
 * its steps is, and that no two of them write the same key.
 */
module BridgeContents {
  import opened Common
  import opened Sorting
  import opened JsStrings
  import opened Records
  import opened Json
  import opened PlanTypes
  import opened CanonicalPlan
  import opened PlanIdempotence
  import opened CanonicalContents
  import opened PlannerBridge

  /**
   * The step calls the planner step's tool with its parameters in canonical form; its id ends in
   * the number of the planner step, padded to four digits, and its output key in the number itself.
   */
  ghost predicate Bridged(nfc: Normalizer, names: Names, step: PlannerStep, s: Step) {
    && s.ToolCall? && s.toolId == Trim(nfc(step.tool)) && Canonizes(nfc, step.parameters, s.input)
    && s.id == TrimStart(nfc(names.stepIdPrefix)) + ("_" + PadStart(step.number, 4))
    && s.outputKey == TrimStart(nfc(names.outputKeyPrefix)) + ("_" + NatText(step.number))
  }

  /** The output key of a step in the canonical plan: normalization leaves the number alone. */
  lemma NormalizedKey(nfc: Normalizer, prefix: string, n: nat)
    requires NfcLaws(nfc)
    ensures Trim(nfc(OutputKey(prefix, n))) == TrimStart(nfc(prefix)) + ("_" + NatText(n))
  {
    var s := "_" + NatText(n);
    DigitsAscii(NatText(n));
    assert s[1..] == NatText(n) && s[|s| - 1] == NatText(n)[|NatText(n)| - 1];
    assert IsAscii(s);
    assert OutputKey(prefix, n) == prefix + s;
    TrimAppend(nfc(prefix), s);
  }

  lemma BuiltIsBridged(nfc: Normalizer, names: Names, step: PlannerStep)
    requires NfcLaws(nfc) && WellFormed(step.parameters) && BuiltStep(nfc, names, step).Some?
    ensures Bridged(nfc, names, step, BuiltStep(nfc, names, step).value)
  {
    NormalizedId(nfc, names.stepIdPrefix, step.number);
    NormalizedKey(nfc, names.outputKeyPrefix, step.number);
    CanonValueIff(nfc, step.parameters, CanonValue(nfc, step.parameters));
  }

  ghost predicate BridgedBySome(nfc: Normalizer, names: Names, steps: seq<PlannerStep>, s: Step) {
    exists i | 0 <= i < |steps| :: Bridged(nfc, names, steps[i], s)
  }

  ghost predicate BridgedToSome(nfc: Normalizer, names: Names, step: PlannerStep, steps: seq<Step>) {
    exists j | 0 <= j < |steps| :: Bridged(nfc, names, step, steps[j])
  }

  /** The steps of the plan are the planner's steps, each once. */
  ghost predicate BridgesAll(nfc: Normalizer, names: Names, steps: seq<PlannerStep>, plan: Plan) {
    && |plan.steps| == |steps|
    && (forall i | 0 <= i < |steps| :: BridgedToSome(nfc, names, steps[i], plan.steps))
    && (forall j | 0 <= j < |plan.steps| :: BridgedBySome(nfc, names, steps, plan.steps[j]))
  }

  lemma PlaceOf(s: Step, steps: seq<Step>) returns (j: nat)
    requires s in steps
    ensures j < |steps| && steps[j] == s
  {
    j :| 0 <= j < |steps| && steps[j] == s;
  }

  /** The built steps in any order are bridged, and bridge every planner step. */
  lemma ListedAreBridged(nfc: Normalizer, names: Names, steps: seq<PlannerStep>, built: seq<Step>, listed: seq<Step>)
    requires |built| == |steps| && forall i | 0 <= i < |steps| :: Bridged(nfc, names, steps[i], built[i])
    requires forall x :: x in listed <==> x in built
    ensures forall i | 0 <= i < |steps| :: BridgedToSome(nfc, names, steps[i], listed)
    ensures forall j | 0 <= j < |listed| :: BridgedBySome(nfc, names, steps, listed[j])
  {
    forall i | 0 <= i < |steps| ensures BridgedToSome(nfc, names, steps[i], listed) {
      var j := PlaceOf(built[i], listed);
    }
    forall j | 0 <= j < |listed| ensures BridgedBySome(nfc, names, steps, listed[j]) {
      var i := PlaceOf(listed[j], built);
    }
  }

  lemma SortedAreBridged(nfc: Normalizer, names: Names, steps: seq<PlannerStep>, sorted: seq<Step>)
    requires NfcLaws(nfc) && AllBuilt(nfc, names, steps) && sorted == Sort(StepLeq, BuiltSteps(nfc, names, steps))
    requires forall i | 0 <= i < |steps| :: WellFormed(steps[i].parameters)
    ensures forall i | 0 <= i < |steps| :: BridgedToSome(nfc, names, steps[i], sorted)
    ensures forall j | 0 <= j < |sorted| :: BridgedBySome(nfc, names, steps, sorted[j])
  {
    var built := BuiltSteps(nfc, names, steps);
    SortKeepsElements(StepLeq, built);
    SameElements(sorted, built);
    forall i | 0 <= i < |steps| ensures Bridged(nfc, names, steps[i], built[i]) {
      BuiltIsBridged(nfc, names, steps[i]);
    }
    ListedAreBridged(nfc, names, steps, built, sorted);
  }

  /** Every step of a bridged plan is one of the planner's steps and every planner step is there. */
  lemma BridgeHoldsSteps(nfc: Normalizer, names: Names, steps: seq<PlannerStep>)
    requires NfcLaws(nfc) && Bridge(nfc, names, false, steps).Some?
    requires forall i | 0 <= i < |steps| :: WellFormed(steps[i].parameters)
    ensures BridgesAll(nfc, ReadNames(names).value, steps, Bridge(nfc, names, false, steps).value)
    ensures Bridge(nfc, names, false, steps).value.planId == Trim(nfc(Trim(names.planId)))
  {
    var read := ReadNames(names).value;
    CanonicalOf(nfc, read, steps);
    RawPlanHeader(nfc, read, steps);
    SortedAreBridged(nfc, read, steps, Bridge(nfc, names, false, steps).value.steps);
  }

  lemma KeysTellNumbers(p: string, m: nat, n: nat)
    requires p + ("_" + NatText(m)) == p + ("_" + NatText(n))
    ensures m == n
  {
    DropPrefix(p, NatText(m), NatText(n));
    NatTextInjective(m, n);
  }

  /** Of two bridged steps with one output key, both are the same planner step, with the same id. */
  lemma SameKeySameId(nfc: Normalizer, names: Names, a: PlannerStep, s: Step, b: PlannerStep, t: Step)
    requires Bridged(nfc, names, a, s) && Bridged(nfc, names, b, t) && s.outputKey == t.outputKey
    ensures a.number == b.number && s.id == t.id
  {
    KeysTellNumbers(TrimStart(nfc(names.outputKeyPrefix)), a.number, b.number);
  }

  /** No two steps of a bridged plan write the same key. */
  lemma OutputKeysDistinct(nfc: Normalizer, names: Names, steps: seq<PlannerStep>, i: nat, j: nat)
    requires NfcLaws(nfc) && Bridge(nfc, names, false, steps).Some?
    requires forall k | 0 <= k < |steps| :: WellFormed(steps[k].parameters)
    requires i < j < |Bridge(nfc, names, false, steps).value.steps|
    ensures var s, t := Bridge(nfc, names, false, steps).value.steps[i], Bridge(nfc, names, false, steps).value.steps[j];
      s.ToolCall? && t.ToolCall? && s.outputKey != t.outputKey
  {
    var read, plan := ReadNames(names).value, Bridge(nfc, names, false, steps).value;
    BridgeHoldsSteps(nfc, names, steps);
    assert BridgedBySome(nfc, read, steps, plan.steps[i]) && BridgedBySome(nfc, read, steps, plan.steps[j]);
    var k :| 0 <= k < |steps| && Bridged(nfc, read, steps[k], plan.steps[i]);
    var m :| 0 <= m < |steps| && Bridged(nfc, read, steps[m], plan.steps[j]);
    assert Ids(plan.steps)[i] != Ids(plan.steps)[j];
    if plan.steps[i].outputKey == plan.steps[j].outputKey {
      SameKeySameId(nfc, read, steps[k], plan.steps[i], steps[m], plan.steps[j]);
    }
  }
}
