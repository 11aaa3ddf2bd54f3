/**
 * What the static checks report: which steps the policy check (src/agent/policies.ts) accepts, kind
 * by kind, and which issue the plan verifier (src/planner/plan-verifier.ts) reports where.
 */
module IssueContents {
  import opened Common
  import opened Sorting
  import opened JsStrings
  import opened Records
  import opened Json
  import opened CanonicalPlan
  import opened Policies
  import PlannerContract
  import opened PlanVerifier

  // ---- the policy check ------------------------------------------------------------------

  predicate NonBlankAt(ms: seq<Entry<Json>>, k: string) {
    Has(ms, k) && Get(ms, k).Str? && Trim(Get(ms, k).s) != ""
  }

  predicate TextAt(ms: seq<Entry<Json>>, k: string) {
    Has(ms, k) && Get(ms, k).Str?
  }

  predicate NumberAt(ms: seq<Entry<Json>>, k: string) {
    Has(ms, k) && Get(ms, k).Num?
  }

  predicate IsKind(ms: seq<Entry<Json>>, kind: string) {
    Has(ms, "kind") && Get(ms, "kind") == Str(kind)
  }

  /** What a step of a core kind must have. */
  predicate CoreFields(ms: seq<Entry<Json>>) {
    && (IsKind(ms, "set") ==> NonBlankAt(ms, "key") && TextAt(ms, "value"))
    && (IsKind(ms, "increment") ==> NonBlankAt(ms, "key") && NumberAt(ms, "value"))
    && (IsKind(ms, "append_log") ==> TextAt(ms, "value"))
  }

  /** What a step of a sandbox kind must have. */
  predicate SandboxFields(ms: seq<Entry<Json>>) {
    && (IsKind(ms, "sandbox.open") ==>
         NonBlankAt(ms, "sessionId") && NonBlankAt(ms, "url") && ("http://" <= Get(ms, "url").s || "https://" <= Get(ms, "url").s))
    && (IsKind(ms, "sandbox.click") ==> NonBlankAt(ms, "sessionId") && NonBlankAt(ms, "selector"))
    && (IsKind(ms, "sandbox.type") ==>
         NonBlankAt(ms, "sessionId") && NonBlankAt(ms, "selector") && NonBlankAt(ms, "text"))
    && (IsKind(ms, "sandbox.extract") ==>
         NonBlankAt(ms, "sessionId") && NonBlankAt(ms, "selector") && NonBlankAt(ms, "outputKey"))
  }

  /** What a step that runs a tool must have. */
  predicate ToolFields(ms: seq<Entry<Json>>) {
    && (IsKind(ms, "tool.call") ==> NonBlankAt(ms, "toolId") && NonBlankAt(ms, "outputKey") && Has(ms, "input"))
    && (IsKind(ms, "tool.loop") ==>
         && NonBlankAt(ms, "toolId") && NonBlankAt(ms, "outputKey") && Has(ms, "input")
         && NumberAt(ms, "maxIterations") && 0 < Get(ms, "maxIterations").n <= 9007199254740991)
  }

  lemma CheckIs(ms: seq<Entry<Json>>, k: string)
    ensures Passes(NonBlank, Field(ms, k)) == NonBlankAt(ms, k) && Passes(IsText, Field(ms, k)) == TextAt(ms, k)
    ensures Passes(IsInteger, Field(ms, k)) == NumberAt(ms, k) && Passes(IsPresent, Field(ms, k)) == Has(ms, k)
    ensures Passes(HttpUrl, Field(ms, k)) == (NonBlankAt(ms, k) && ("http://" <= Get(ms, k).s || "https://" <= Get(ms, k).s))
    ensures Passes(IsPositive, Field(ms, k)) == (NumberAt(ms, k) && 0 < Get(ms, k).n <= 9007199254740991)
  {
  }

  predicate Check(ms: seq<Entry<Json>>, r: Requirement) {
    Passes(r.check, Field(ms, r.field))
  }

  lemma MeetsOne(ms: seq<Entry<Json>>, a: Requirement)
    ensures MeetsAll(ms, [a]) <==> Check(ms, a)
  {
    if MeetsAll(ms, [a]) { assert Passes([a][0].check, Field(ms, [a][0].field)); }
  }

  lemma MeetsBoth(ms: seq<Entry<Json>>, rs: seq<Requirement>, a: Requirement)
    ensures MeetsAll(ms, rs + [a]) <==> MeetsAll(ms, rs) && Check(ms, a)
  {
    var all := rs + [a];
    if MeetsAll(ms, all) {
      assert Passes(all[|rs|].check, Field(ms, all[|rs|].field));
      forall i | 0 <= i < |rs| ensures Passes(rs[i].check, Field(ms, rs[i].field)) { assert all[i] == rs[i]; }
    }
  }

  lemma MeetsTwo(ms: seq<Entry<Json>>, a: Requirement, b: Requirement)
    ensures MeetsAll(ms, [a, b]) <==> Check(ms, a) && Check(ms, b)
  {
    MeetsOne(ms, a);
    MeetsBoth(ms, [a], b);
    assert [a] + [b] == [a, b];
  }

  lemma CoreMeets(ms: seq<Entry<Json>>, kind: StepKind)
    requires kind == KindOf(ms) && (kind.KSet? || kind.KIncrement? || kind.KAppendLog?)
    ensures MeetsAll(ms, Requirements(kind)) <==> CoreFields(ms) && SandboxFields(ms) && ToolFields(ms)
  {
    var rs := Requirements(kind);
    CheckIs(ms, "key");
    CheckIs(ms, "value");
    if kind.KAppendLog? {
      MeetsOne(ms, rs[0]);
      assert rs == [rs[0]];
    } else {
      MeetsTwo(ms, rs[0], rs[1]);
      assert rs == [rs[0], rs[1]];
    }
  }

  lemma OpenMeets(ms: seq<Entry<Json>>)
    requires KindOf(ms).KOpen?
    ensures MeetsAll(ms, Requirements(KOpen)) <==> CoreFields(ms) && SandboxFields(ms) && ToolFields(ms)
  {
    var rs := Requirements(KOpen);
    CheckIs(ms, "sessionId");
    CheckIs(ms, "url");
    MeetsTwo(ms, rs[0], rs[1]);
    assert rs == [rs[0], rs[1]];
  }

  lemma SelectorMeets(ms: seq<Entry<Json>>, kind: StepKind)
    requires kind == KindOf(ms) && (kind.KClick? || kind.KType? || kind.KExtract?)
    ensures MeetsAll(ms, Requirements(kind)) <==> CoreFields(ms) && SandboxFields(ms) && ToolFields(ms)
  {
    var rs := Requirements(kind);
    CheckIs(ms, "sessionId");
    CheckIs(ms, "selector");
    MeetsTwo(ms, rs[0], rs[1]);
    assert SELECTOR_RULES == [rs[0], rs[1]];
    if !kind.KClick? {
      CheckIs(ms, rs[2].field);
      MeetsBoth(ms, SELECTOR_RULES, rs[2]);
    }
  }

  lemma ToolMeets(ms: seq<Entry<Json>>, kind: StepKind)
    requires kind == KindOf(ms) && (kind.KCall? || kind.KLoop?)
    ensures MeetsAll(ms, Requirements(kind)) <==> CoreFields(ms) && SandboxFields(ms) && ToolFields(ms)
  {
    var rs := Requirements(kind);
    CheckIs(ms, "toolId");
    CheckIs(ms, "outputKey");
    CheckIs(ms, "input");
    MeetsTwo(ms, rs[0], rs[1]);
    MeetsBoth(ms, [rs[0], rs[1]], rs[2]);
    assert TOOL_RULES == [rs[0], rs[1]] + [rs[2]];
    if kind.KLoop? {
      CheckIs(ms, "maxIterations");
      MeetsBoth(ms, TOOL_RULES, rs[3]);
    }
  }

  lemma OtherMeets(ms: seq<Entry<Json>>)
    requires KindOf(ms).KOther?
    ensures CoreFields(ms) && SandboxFields(ms) && ToolFields(ms)
  {
  }

  /** Exactly which steps the policy check accepts: the id and the fields of their kind; an unknown kind asks for nothing. */
  lemma StepAcceptedIff(step: Json)
    ensures StepAccepted(step) <==>
      step.Obj? && NonBlankAt(step.members, "id")
      && CoreFields(step.members) && SandboxFields(step.members) && ToolFields(step.members)
  {
    if step.Obj? {
      var ms := step.members;
      var kind := KindOf(ms);
      CheckIs(ms, "id");
      if kind.KOther? {
        OtherMeets(ms);
      } else if kind.KCall? || kind.KLoop? {
        ToolMeets(ms, kind);
      } else if kind.KSet? || kind.KIncrement? || kind.KAppendLog? {
        CoreMeets(ms, kind);
      } else if kind.KOpen? {
        OpenMeets(ms);
      } else {
        SelectorMeets(ms, kind);
      }
    }
  }

  // ---- the plan verifier -----------------------------------------------------------------

  predicate AllParameters(issues: seq<Issue>) {
    forall i | 0 <= i < |issues| :: issues[i].code == "PLAN_TOOL_PARAMETERS_INVALID"
  }

  lemma {:induction false} MissingCodes(keys: seq<string>, value: seq<Entry<Json>>, path: string)
    ensures AllParameters(MissingIssues(keys, value, path))
  {
    if keys != [] { MissingCodes(keys[1..], value, path); }
  }

  lemma {:induction false} PropertyCodes(value: seq<Entry<Json>>, properties: seq<Entry<Json>>, schema: Json, path: string)
    requires forall i | 0 <= i < |properties| :: properties[i].value.Obj? && properties[i].value < schema
    ensures AllParameters(PropertyIssues(value, properties, schema, path))
    decreases schema, 0, |properties|
  {
    if properties != [] {
      var p := properties[0];
      PropertyCodes(value, properties[1..], schema, path);
      if Has(value, p.key) { SchemaCodes(Get(value, p.key), p.value.members, path + "." + p.key); }
    }
  }

  lemma {:induction false} SchemaCodes(value: Json, schema: seq<Entry<Json>>, path: string)
    ensures AllParameters(SchemaIssues(value, schema, path))
    decreases Obj(schema), 1, 0
  {
    if BasicsOk(value, schema) && value.Obj? {
      MissingCodes(RequiredKeys(schema), value.members, path);
      PropertyCodes(value.members, Properties(schema), Obj(schema), path);
    }
  }

  lemma {:induction false} DependencyCodes(deps: seq<Json>, number: int, path: string, seen: set<Json>)
    ensures forall i | 0 <= i < |DependencyIssues(deps, number, path, seen)| ::
      DependencyIssues(deps, number, path, seen)[i] == Issue("PLAN_DEPENDENCY_INVALID", path)
  {
    if deps != [] {
      if !PlannerContract.DependencyOk(deps[0], number) || deps[0] in seen {
        DependencyCodes(deps[1..], number, path, seen);
      } else {
        DependencyCodes(deps[1..], number, path, seen + {deps[0]});
      }
    }
  }

  /** The dependencies of the step are distinct numbers of earlier steps. */
  predicate DependenciesFit(step: Json, index: nat) {
    && Distinct(Dependencies(step))
    && forall i | 0 <= i < |Dependencies(step)| ::
      Dependencies(step)[i].Num? && 1 <= Dependencies(step)[i].n <= 9007199254740991 && Dependencies(step)[i].n < index + 1
  }

  ghost predicate Reports(issues: seq<Issue>, code: string) {
    exists i | 0 <= i < |issues| :: issues[i].code == code
  }

  lemma ReportsEither(a: seq<Issue>, b: seq<Issue>, code: string)
    ensures Reports(a + b, code) <==> Reports(a, code) || Reports(b, code)
  {
    var all := a + b;
    if Reports(a, code) {
      var i :| 0 <= i < |a| && a[i].code == code;
      assert all[i] == a[i];
    }
    if Reports(b, code) {
      var i :| 0 <= i < |b| && b[i].code == code;
      assert all[|a| + i] == b[i];
    }
  }

  /** The issues of a declared tool's step: those of its dependencies, then those of its parameters. */
  lemma DeclaredReports(dependencies: seq<Issue>, parameters: seq<Issue>, path: string)
    requires forall i | 0 <= i < |dependencies| :: dependencies[i] == Issue("PLAN_DEPENDENCY_INVALID", path)
    requires AllParameters(parameters)
    ensures Reports(dependencies + parameters, "PLAN_DEPENDENCY_INVALID") <==> dependencies != []
    ensures Reports(dependencies + parameters, "PLAN_TOOL_PARAMETERS_INVALID") <==> parameters != []
    ensures !Reports(dependencies + parameters, "PLAN_TOOL_NOT_ALLOWED")
  {
    ReportsEither(dependencies, parameters, "PLAN_DEPENDENCY_INVALID");
    ReportsEither(dependencies, parameters, "PLAN_TOOL_PARAMETERS_INVALID");
    ReportsEither(dependencies, parameters, "PLAN_TOOL_NOT_ALLOWED");
    CodesDiffer();
    if dependencies != [] { assert dependencies[0].code == "PLAN_DEPENDENCY_INVALID"; }
    if parameters != [] { assert parameters[0].code == "PLAN_TOOL_PARAMETERS_INVALID"; }
  }

  lemma CodesDiffer()
    ensures "PLAN_DEPENDENCY_INVALID" != "PLAN_TOOL_PARAMETERS_INVALID"
    ensures "PLAN_TOOL_NOT_ALLOWED" != "PLAN_TOOL_PARAMETERS_INVALID" && "PLAN_TOOL_NOT_ALLOWED" != "PLAN_DEPENDENCY_INVALID"
  {
    assert |"PLAN_DEPENDENCY_INVALID"| == 23 && |"PLAN_TOOL_PARAMETERS_INVALID"| == 28 && |"PLAN_TOOL_NOT_ALLOWED"| == 21;
  }

  lemma DependencyReports(step: Json, index: nat, path: string)
    ensures DependencyIssues(Dependencies(step), index + 1, path, {}) == [] <==> DependenciesFit(step, index)
  {
    DependenciesIff(Dependencies(step), index + 1, path, {});
  }

  /** What is reported of a step: the tool if it is not declared, else its dependencies and its parameters. */
  ghost predicate ReportsStep(m: seq<Entry<Tool>>, step: Json, index: nat, issues: seq<Issue>) {
    if !Has(m, ToolOf(step)) then issues == [Issue("PLAN_TOOL_NOT_ALLOWED", "$.steps[" + NatText(index) + "]" + ".tool")]
    else
      && (Reports(issues, "PLAN_DEPENDENCY_INVALID") <==> !DependenciesFit(step, index))
      && (Reports(issues, "PLAN_TOOL_PARAMETERS_INVALID") <==> !Conforms(ParametersOf(step), Get(m, ToolOf(step)).schema))
      && !Reports(issues, "PLAN_TOOL_NOT_ALLOWED")
  }

  lemma StepReports(m: seq<Entry<Tool>>, step: Json, index: nat)
    ensures ReportsStep(m, step, index, PlannedStepIssues(m, step, index))
  {
    if Has(m, ToolOf(step)) {
      var path, schema := PlannerContract.StepPath(index), Get(m, ToolOf(step)).schema;
      var dependencies := DependencyIssues(Dependencies(step), index + 1, path + ".dependsOn", {});
      var parameters := SchemaIssues(ParametersOf(step), schema, path + ".parameters");
      DependencyCodes(Dependencies(step), index + 1, path + ".dependsOn", {});
      SchemaCodes(ParametersOf(step), schema, path + ".parameters");
      DeclaredReports(dependencies, parameters, path + ".dependsOn");
      DependencyReports(step, index, path + ".dependsOn");
      SchemaIff(ParametersOf(step), schema, path + ".parameters");
    }
  }

  lemma {:induction false} SomePush(m: seq<Entry<Tool>>, items: seq<Json>, from: nat, issue: Issue)
    requires from <= |items|
    ensures issue in PlannedIssues(m, items, from) <==>
      exists i | from <= i < |items| :: issue in PlannedStepIssues(m, items[i], i)
    decreases |items| - from
  {
    if from < |items| {
      SomePush(m, items, from + 1, issue);
      assert PlannedIssues(m, items, from) == PlannedStepIssues(m, items[from], from) + PlannedIssues(m, items, from + 1);
    }
  }

  /**
   * What a refused plan is refused for: the contract alone, or the clarification it asks for and
   * the issues of its steps, each reported for the reason it names.
   */
  lemma RefusalsTell(output: Json, ctx: Context, issue: Issue)
    requires VerifyPlan(output, ctx).Refused?
    requires PlannerContract.OutputFault(output, Some(ToolNames(ToolMap(ctx.tools, |ctx.tools|))), ctx.maxSteps).None?
    ensures var m := ToolMap(ctx.tools, |ctx.tools|);
      issue in VerifyPlan(output, ctx).issues <==>
        || (ctx.requireExecutable && NeedsClarification(output)
            && issue == Issue("PLAN_REQUIRES_CLARIFICATION", "$.requiresClarification"))
        || exists i | 0 <= i < |PlannerContract.StepItems(output)| :: issue in PlannedStepIssues(m, PlannerContract.StepItems(output)[i], i)
  {
    SomePush(ToolMap(ctx.tools, |ctx.tools|), PlannerContract.StepItems(output), 0, issue);
  }
}
