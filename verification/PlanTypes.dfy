/** Plans, steps and agent state (src/agent/plan-types.ts). */
module PlanTypes {
  import opened Common
  import opened JsStrings
  import opened Records
  import opened Json

  /** A step as `normalizeStepRaw` builds it: each kind has exactly the fields it needs. */
  datatype Step =
    | Set(id: string, key: string, value: string)
    | Increment(id: string, key: string, delta: int)
    | AppendLog(id: string, value: string)
    | SandboxOpen(id: string, sessionId: string, url: string)
    | SandboxClick(id: string, sessionId: string, selector: string)
    | SandboxType(id: string, sessionId: string, selector: string, text: string)
    | SandboxExtract(id: string, sessionId: string, selector: string, outputKey: string)
    | ToolCall(id: string, toolId: string, outputKey: string, input: Json)
    | ToolLoop(id: string, toolId: string, outputKey: string, input: Json, maxIterations: int)
  {
    function Kind(): string {
      match this
      case Set(_, _, _) => "set"
      case Increment(_, _, _) => "increment"
      case AppendLog(_, _) => "append_log"
      case SandboxOpen(_, _, _) => "sandbox.open"
      case SandboxClick(_, _, _) => "sandbox.click"
      case SandboxType(_, _, _, _) => "sandbox.type"
      case SandboxExtract(_, _, _, _) => "sandbox.extract"
      case ToolCall(_, _, _, _) => "tool.call"
      case ToolLoop(_, _, _, _, _) => "tool.loop"
    }

    predicate IsSandbox() {
      SandboxOpen? || SandboxClick? || SandboxType? || SandboxExtract?
    }

    predicate IsTool() {
      ToolCall? || ToolLoop?
    }

    /** The step as a JavaScript object, fields in the order they are assigned. */
    function Fields(): seq<Entry<Json>> {
      [Entry("id", Str(id)), Entry("kind", Str(Kind()))] +
      match this
      case Set(_, key, value) => [Entry("key", Str(key)), Entry("value", Str(value))]
      case Increment(_, key, delta) => [Entry("key", Str(key)), Entry("value", Num(delta))]
      case AppendLog(_, value) => [Entry("value", Str(value))]
      case SandboxOpen(_, s, url) => [Entry("sessionId", Str(s)), Entry("url", Str(url))]
      case SandboxClick(_, s, sel) => [Entry("sessionId", Str(s)), Entry("selector", Str(sel))]
      case SandboxType(_, s, sel, text) =>
        [Entry("sessionId", Str(s)), Entry("selector", Str(sel)), Entry("text", Str(text))]
      case SandboxExtract(_, s, sel, out) =>
        [Entry("sessionId", Str(s)), Entry("selector", Str(sel)), Entry("outputKey", Str(out))]
      case ToolCall(_, tool, out, input) =>
        [Entry("toolId", Str(tool)), Entry("outputKey", Str(out)), Entry("input", input)]
      case ToolLoop(_, tool, out, input, max) =>
        [Entry("toolId", Str(tool)), Entry("outputKey", Str(out)), Entry("input", input),
         Entry("maxIterations", Num(max))]
    }
  }

  datatype Plan = Plan(planId: string, steps: seq<Step>)

  function StepsJson(steps: seq<Step>): (r: seq<Json>)
    ensures |r| == |steps| && forall i | 0 <= i < |steps| :: r[i] == Obj(steps[i].Fields())
  {
    if steps == [] then [] else [Obj(steps[0].Fields())] + StepsJson(steps[1..])
  }

  function PlanFields(plan: Plan): seq<Entry<Json>> {
    [Entry("planId", Str(plan.planId)), Entry("version", Num(1)), Entry("steps", Arr(StepsJson(plan.steps)))]
  }

  /** Counters and values are records in insertion order, as in the source. */
  datatype AgentState = AgentState(counters: seq<Entry<int>>, values: seq<Entry<string>>, logs: seq<string>)

  const INITIAL_STATE := AgentState([], [], [])

  /** The plan's text determines the plan: field names and order are fixed by the kind. */
  lemma KindInjective(a: Step, b: Step)
    requires a.Kind() == b.Kind()
    ensures a.Set? == b.Set? && a.Increment? == b.Increment? && a.AppendLog? == b.AppendLog?
    ensures a.SandboxOpen? == b.SandboxOpen? && a.SandboxClick? == b.SandboxClick?
    ensures a.SandboxType? == b.SandboxType? && a.SandboxExtract? == b.SandboxExtract?
    ensures a.ToolCall? == b.ToolCall? && a.ToolLoop? == b.ToolLoop?
  {
  }

  lemma FieldsInjective(a: Step, b: Step)
    requires a.Fields() == b.Fields()
    ensures a == b
  {
    var fs, gs := a.Fields(), b.Fields();
    assert fs[0] == gs[0] && fs[1] == gs[1] && fs[2] == gs[2];
    KindInjective(a, b);
    assert |fs| == |gs|;
    if |fs| > 3 { assert fs[3] == gs[3]; }
    if |fs| > 4 { assert fs[4] == gs[4]; }
    if |fs| > 5 { assert fs[5] == gs[5]; }
  }

  lemma PlanFieldsInjective(a: Plan, b: Plan)
    requires PlanFields(a) == PlanFields(b)
    ensures a == b
  {
    assert PlanFields(a)[0] == PlanFields(b)[0] && PlanFields(a)[2] == PlanFields(b)[2];
    assert |StepsJson(a.steps)| == |StepsJson(b.steps)|;
    forall i | 0 <= i < |a.steps| ensures a.steps[i] == b.steps[i] {
      assert StepsJson(a.steps)[i] == StepsJson(b.steps)[i];
      FieldsInjective(a.steps[i], b.steps[i]);
    }
  }
}
