/** The deterministic plan verifier (src/planner/plan-verifier.ts). */
module PlanVerifier {
  import opened Common
  import opened Sorting
  import opened JsStrings
  import opened Records
  import opened Json
  import opened CanonicalPlan
  import opened PlannerContract

  datatype Issue = Issue(code: string, path: string)

  const PARAMETERS := "PLAN_TOOL_PARAMETERS_INVALID"
  const DEPENDENCY := "PLAN_DEPENDENCY_INVALID"
  const SCHEMA := "PLAN_SCHEMA_INVALID"
  const NOT_ALLOWED := "PLAN_TOOL_NOT_ALLOWED"
  const CLARIFICATION := "PLAN_REQUIRES_CLARIFICATION"

  // ---- parameter schemas -----------------------------------------------------------------

  function SchemaType(schema: seq<Entry<Json>>): Option<string> {
    var t := Field(schema, "type");
    if t.Some? && t.value.Str? then Some(t.value.s) else None
  }

  /** `validatePrimitiveType`; a type name it does not know accepts everything. */
  predicate HasType(value: Json, expected: string) {
    if expected == "string" then value.Str?
    else if expected == "number" then value.Num?
    else if expected == "integer" then value.Num? && -MAX_SAFE <= value.n <= MAX_SAFE
    else if expected == "boolean" then value.Bool?
    else if expected == "object" then value.Obj?
    else if expected == "array" then value.Arr?
    else if expected == "null" then value.Null?
    else true
  }

  /** `Object.is` on values read from JSON: equal primitives; two objects or arrays are never the same one. */
  predicate SamePrimitive(a: Json, b: Json) {
    a == b && !a.Arr? && !a.Obj?
  }

  predicate EnumOk(value: Json, schema: seq<Entry<Json>>) {
    var e := Field(schema, "enum");
    e.Some? && e.value.Arr? ==> exists i | 0 <= i < |e.value.items| :: SamePrimitive(e.value.items[i], value)
  }

  function TextsOf(items: seq<Json>): seq<string> {
    if items == [] then []
    else (if items[0].Str? then [items[0].s] else []) + TextsOf(items[1..])
  }

  function RequiredKeys(schema: seq<Entry<Json>>): seq<string> {
    var r := Field(schema, "required");
    if r.Some? && r.value.Arr? then TextsOf(r.value.items) else []
  }

  /** The properties whose schema is an object, in order. */
  function Properties(schema: seq<Entry<Json>>): (r: seq<Entry<Json>>)
    ensures forall i | 0 <= i < |r| :: r[i].value.Obj? && r[i].value < Obj(schema)
  {
    var p := Field(schema, "properties");
    if p.Some? && p.value.Obj? then
      FieldIsSmaller(schema, "properties");
      RecordsOnlySmaller(p.value.members);
      RecordsOnly(p.value.members)
    else []
  }

  function RecordsOnly(ms: seq<Entry<Json>>): (r: seq<Entry<Json>>)
    ensures forall i | 0 <= i < |r| :: r[i] in ms && r[i].value.Obj?
  {
    if ms == [] then []
    else (if ms[0].value.Obj? then [ms[0]] else []) + RecordsOnly(ms[1..])
  }

  lemma FieldIsSmaller(schema: seq<Entry<Json>>, k: string)
    requires Field(schema, k).Some?
    ensures Field(schema, k).value < Obj(schema)
  {
    var i :| 0 <= i < |schema| && schema[i] == Entry(k, Get(schema, k));
    assert schema[i].value < Obj(schema);
  }

  lemma RecordsOnlySmaller(ms: seq<Entry<Json>>)
    ensures forall i | 0 <= i < |RecordsOnly(ms)| :: RecordsOnly(ms)[i].value < Obj(ms)
  {
    var r := RecordsOnly(ms);
    forall i | 0 <= i < |r| ensures r[i].value < Obj(ms) {
      var j :| 0 <= j < |ms| && ms[j] == r[i];
      assert ms[j].value < Obj(ms);
    }
  }

  function MissingIssues(keys: seq<string>, value: seq<Entry<Json>>, path: string): seq<Issue> {
    if keys == [] then []
    else (if Has(value, keys[0]) then [] else [Issue(PARAMETERS, path + "." + keys[0])]) + MissingIssues(keys[1..], value, path)
  }

  /** The first unknown key in sorted order. */
  function FirstUnknown(sorted: seq<Entry<Json>>, allowed: seq<Entry<Json>>): Option<string> {
    if sorted == [] then None
    else if Has(allowed, sorted[0].key) then FirstUnknown(sorted[1..], allowed)
    else Some(sorted[0].key)
  }

  function UnknownIssues(schema: seq<Entry<Json>>, value: seq<Entry<Json>>, path: string): seq<Issue> {
    if Field(schema, "additionalProperties") != Some(Bool(false)) then []
    else
      var unknown := FirstUnknown(SortByKey(value), Properties(schema));
      if unknown.Some? then [Issue(PARAMETERS, path + "." + unknown.value)] else []
  }

  predicate BasicsOk(value: Json, schema: seq<Entry<Json>>) {
    (SchemaType(schema).Some? ==> HasType(value, SchemaType(schema).value)) && EnumOk(value, schema)
  }

  /** `validateParameterSchema`. */
  function SchemaIssues(value: Json, schema: seq<Entry<Json>>, path: string): seq<Issue>
    decreases Obj(schema), 1, 0
  {
    if !BasicsOk(value, schema) then [Issue(PARAMETERS, path)]
    else if !value.Obj? then []
    else
      MissingIssues(RequiredKeys(schema), value.members, path)
      + PropertyIssues(value.members, Properties(schema), Obj(schema), path)
      + UnknownIssues(schema, value.members, path)
  }

  function PropertyIssues(value: seq<Entry<Json>>, properties: seq<Entry<Json>>, schema: Json, path: string): seq<Issue>
    requires forall i | 0 <= i < |properties| :: properties[i].value.Obj? && properties[i].value < schema
    decreases schema, 0, |properties|
  {
    if properties == [] then []
    else
      var p := properties[0];
      (if Has(value, p.key) then SchemaIssues(Get(value, p.key), p.value.members, path + "." + p.key) else [])
      + PropertyIssues(value, properties[1..], schema, path)
  }

  method ValidateParameterSchema(value: Json, schema: seq<Entry<Json>>, path: string) returns (issues: seq<Issue>)
    ensures issues == SchemaIssues(value, schema, path)
    decreases Obj(schema), 1
  {
    if !BasicsOk(value, schema) {
      return [Issue(PARAMETERS, path)];
    }
    if !value.Obj? {
      return [];
    }
    var required := MissingIssues(RequiredKeys(schema), value.members, path);
    var nested := ValidateProperties(value.members, Properties(schema), Obj(schema), path);
    return required + nested + UnknownIssues(schema, value.members, path);
  }

  /** The loop over the declared properties. */
  method ValidateProperties(value: seq<Entry<Json>>, properties: seq<Entry<Json>>, ghost schema: Json, path: string)
    returns (issues: seq<Issue>)
    requires forall i | 0 <= i < |properties| :: properties[i].value.Obj? && properties[i].value < schema
    ensures issues == PropertyIssues(value, properties, schema, path)
    decreases schema, 0
  {
    issues := [];
    var i := 0;
    assert properties[0..] == properties;
    while i < |properties|
      invariant 0 <= i <= |properties|
      invariant issues + PropertyIssues(value, properties[i..], schema, path) == PropertyIssues(value, properties, schema, path)
    {
      var p := properties[i];
      NextProperty(issues, value, properties, i, schema, path);
      if Has(value, p.key) {
        var nested := ValidateParameterSchema(Get(value, p.key), p.value.members, path + "." + p.key);
        issues := issues + nested;
      } else {
        assert issues + [] == issues;
      }
      i := i + 1;
    }
  }

  lemma NextProperty(found: seq<Issue>, value: seq<Entry<Json>>, properties: seq<Entry<Json>>, i: nat, schema: Json, path: string)
    requires i < |properties|
    requires forall j | 0 <= j < |properties| :: properties[j].value.Obj? && properties[j].value < schema
    ensures var p := properties[i];
      found + PropertyIssues(value, properties[i..], schema, path) ==
        found + (if Has(value, p.key) then SchemaIssues(Get(value, p.key), p.value.members, path + "." + p.key) else [])
        + PropertyIssues(value, properties[i + 1..], schema, path)
  {
    assert properties[i..][0] == properties[i] && properties[i..][1..] == properties[i + 1..];
  }

  // ---- what conforms ---------------------------------------------------------------------

  /**
   * A value conforms to a schema: it has the type and is one of the enumerated values, and when it
   * is a record it has the required keys, its declared properties conform, and, if the schema says
   * so, it has no others.
   */
  predicate Conforms(value: Json, schema: seq<Entry<Json>>)
    decreases Obj(schema)
  {
    && BasicsOk(value, schema)
    && (value.Obj? ==>
      && (forall i | 0 <= i < |RequiredKeys(schema)| :: Has(value.members, RequiredKeys(schema)[i]))
      && (forall i | 0 <= i < |Properties(schema)| && Has(value.members, Properties(schema)[i].key) ::
        Conforms(Get(value.members, Properties(schema)[i].key), Properties(schema)[i].value.members))
      && (Field(schema, "additionalProperties") == Some(Bool(false)) ==> NoOthers(value.members, Properties(schema))))
  }

  predicate NoOthers(value: seq<Entry<Json>>, properties: seq<Entry<Json>>) {
    forall i | 0 <= i < |value| :: Has(properties, value[i].key)
  }

  lemma {:induction false} MissingIff(keys: seq<string>, value: seq<Entry<Json>>, path: string)
    ensures MissingIssues(keys, value, path) == [] <==> forall i | 0 <= i < |keys| :: Has(value, keys[i])
  {
    if keys != [] {
      MissingIff(keys[1..], value, path);
      assert keys == [keys[0]] + keys[1..];
    }
  }

  lemma {:induction false} FirstUnknownIff(sorted: seq<Entry<Json>>, allowed: seq<Entry<Json>>)
    ensures FirstUnknown(sorted, allowed).None? <==> NoOthers(sorted, allowed)
  {
    if sorted != [] {
      FirstUnknownIff(sorted[1..], allowed);
      assert sorted == [sorted[0]] + sorted[1..];
    }
  }

  lemma UnknownIff(schema: seq<Entry<Json>>, value: seq<Entry<Json>>, path: string)
    ensures UnknownIssues(schema, value, path) == [] <==>
      (Field(schema, "additionalProperties") == Some(Bool(false)) ==> NoOthers(value, Properties(schema)))
  {
    var sorted := SortByKey(value);
    FirstUnknownIff(sorted, Properties(schema));
    SortByKeyKeeps(value);
    if NoOthers(value, Properties(schema)) {
      forall i | 0 <= i < |sorted| ensures Has(Properties(schema), sorted[i].key) { assert sorted[i] in value; }
    }
    if NoOthers(sorted, Properties(schema)) {
      forall i | 0 <= i < |value| ensures Has(Properties(schema), value[i].key) { assert value[i] in sorted; }
    }
  }

  predicate PropertiesConform(value: seq<Entry<Json>>, properties: seq<Entry<Json>>)
    requires forall i | 0 <= i < |properties| :: properties[i].value.Obj?
  {
    forall i | 0 <= i < |properties| && Has(value, properties[i].key) ::
      Conforms(Get(value, properties[i].key), properties[i].value.members)
  }

  lemma {:induction false} PropertiesIff(value: seq<Entry<Json>>, properties: seq<Entry<Json>>, schema: Json, path: string)
    requires forall i | 0 <= i < |properties| :: properties[i].value.Obj? && properties[i].value < schema
    ensures PropertyIssues(value, properties, schema, path) == [] <==> PropertiesConform(value, properties)
    decreases schema, 0, |properties|
  {
    if properties != [] {
      var p := properties[0];
      PropertiesIff(value, properties[1..], schema, path);
      if Has(value, p.key) { SchemaIff(Get(value, p.key), p.value.members, path + "." + p.key); }
      assert properties == [p] + properties[1..];
    }
  }

  /** The check reports no issue exactly for the values that conform. */
  lemma {:induction false} SchemaIff(value: Json, schema: seq<Entry<Json>>, path: string)
    ensures SchemaIssues(value, schema, path) == [] <==> Conforms(value, schema)
    decreases Obj(schema), 1, 0
  {
    if BasicsOk(value, schema) && value.Obj? {
      MissingIff(RequiredKeys(schema), value.members, path);
      PropertiesIff(value.members, Properties(schema), Obj(schema), path);
      UnknownIff(schema, value.members, path);
    }
  }

  // ---- tools -----------------------------------------------------------------------------

  datatype Tool = Tool(name: string, schema: seq<Entry<Json>>)

  /** `buildToolMap` on the first `n` tools: trimmed names, blank names skipped, the last tool of a name wins. */
  function ToolMap(tools: seq<Tool>, n: nat): seq<Entry<Tool>>
    requires n <= |tools|
  {
    if n == 0 then []
    else
      var before, name := ToolMap(tools, n - 1), Trim(tools[n - 1].name);
      if name == "" then before else Put(before, name, tools[n - 1])
  }

  method BuildToolMap(tools: seq<Tool>) returns (m: seq<Entry<Tool>>)
    ensures m == ToolMap(tools, |tools|)
  {
    m := [];
    for i := 0 to |tools|
      invariant m == ToolMap(tools, i)
    {
      var name := Trim(tools[i].name);
      if name != "" {
        m := Put(m, name, tools[i]);
      }
    }
  }

  /** Tool `i` is the last of the first `n` with this trimmed name. */
  ghost predicate LastNamed(tools: seq<Tool>, n: nat, name: string, i: nat)
    requires n <= |tools|
  {
    && i < n && Trim(tools[i].name) == name
    && forall j | i < j < n :: Trim(tools[j].name) != name
  }

  /** The map holds the last of the first `n` tools with the name, or there is none. */
  ghost predicate Holds(tools: seq<Tool>, n: nat, name: string, m: seq<Entry<Tool>>)
    requires n <= |tools|
  {
    if Has(m, name) then name != "" && exists i: nat :: LastNamed(tools, n, name, i) && Get(m, name) == tools[i]
    else name == "" || forall i | 0 <= i < n :: Trim(tools[i].name) != name
  }

  lemma HoldsSkip(tools: seq<Tool>, n: nat, name: string, m: seq<Entry<Tool>>)
    requires n < |tools| && Holds(tools, n, name, m) && (Trim(tools[n].name) == "" || Trim(tools[n].name) != name)
    ensures Holds(tools, n + 1, name, m)
  {
    if Has(m, name) {
      var i: nat :| LastNamed(tools, n, name, i) && Get(m, name) == tools[i];
      assert LastNamed(tools, n + 1, name, i);
    }
  }

  lemma HoldsNext(tools: seq<Tool>, n: nat, name: string, m: seq<Entry<Tool>>, next: seq<Entry<Tool>>)
    requires n < |tools| && Holds(tools, n, name, m) && Trim(tools[n].name) != ""
    requires Has(next, name) <==> Has(m, name) || name == Trim(tools[n].name)
    requires Has(next, name) ==> Get(next, name) == if name == Trim(tools[n].name) then tools[n] else Get(m, name)
    ensures Holds(tools, n + 1, name, next)
  {
    if Trim(tools[n].name) == name {
      assert LastNamed(tools, n + 1, name, n);
    } else {
      HoldsSkip(tools, n, name, m);
    }
  }

  lemma {:induction false} ToolMapKeeps(tools: seq<Tool>, n: nat, name: string)
    requires n <= |tools|
    ensures Holds(tools, n, name, ToolMap(tools, n))
  {
    if n > 0 {
      ToolMapKeeps(tools, n - 1, name);
      var before, last := ToolMap(tools, n - 1), Trim(tools[n - 1].name);
      if last == "" {
        HoldsSkip(tools, n - 1, name, before);
      } else {
        PutGet(before, last, tools[n - 1], name);
        HoldsNext(tools, n - 1, name, before, Put(before, last, tools[n - 1]));
      }
    }
  }

  /** The map holds the last tool of every name that is not blank. */
  lemma ToolMapHolds(tools: seq<Tool>, n: nat, name: string)
    requires n <= |tools|
    ensures Has(ToolMap(tools, n), name) <==> name != "" && exists i: nat :: i < n && Trim(tools[i].name) == name
    ensures Has(ToolMap(tools, n), name) ==>
      exists i: nat :: LastNamed(tools, n, name, i) && Get(ToolMap(tools, n), name) == tools[i]
  {
    ToolMapKeeps(tools, n, name);
  }

  function Names(es: seq<Entry<Tool>>): (r: seq<string>)
    ensures |r| == |es| && forall i | 0 <= i < |es| :: r[i] == es[i].key
  {
    if es == [] then [] else [es[0].key] + Names(es[1..])
  }

  /** `[...toolMap.keys()].sort()`. */
  function ToolNames(m: seq<Entry<Tool>>): seq<string> {
    Names(SortByKey(m))
  }

  // ---- steps and plans -------------------------------------------------------------------

  function Dependencies(step: Json): seq<Json> {
    if step.Obj? && Field(step.members, "dependsOn").Some? && Field(step.members, "dependsOn").value.Arr?
    then Field(step.members, "dependsOn").value.items else []
  }

  /** `verifyStepDependencies`, on the dependencies left and those seen. */
  function DependencyIssues(deps: seq<Json>, number: int, path: string, seen: set<Json>): seq<Issue> {
    if deps == [] then []
    else if !DependencyOk(deps[0], number) || deps[0] in seen then
      [Issue(DEPENDENCY, path)] + DependencyIssues(deps[1..], number, path, seen)
    else DependencyIssues(deps[1..], number, path, seen + {deps[0]})
  }

  method VerifyStepDependencies(deps: seq<Json>, number: int, path: string) returns (issues: seq<Issue>)
    ensures issues == DependencyIssues(deps, number, path, {})
  {
    issues := [];
    var seen: set<Json> := {};
    var i := 0;
    assert deps[0..] == deps;
    while i < |deps|
      invariant 0 <= i <= |deps|
      invariant issues + DependencyIssues(deps[i..], number, path, seen) == DependencyIssues(deps, number, path, {})
    {
      assert deps[i..][0] == deps[i] && deps[i..][1..] == deps[i + 1..];
      if !DependencyOk(deps[i], number) || deps[i] in seen {
        issues := issues + [Issue(DEPENDENCY, path)];
      } else {
        seen := seen + {deps[i]};
      }
      i := i + 1;
    }
  }

  function ToolOf(step: Json): string {
    if step.Obj? && Field(step.members, "tool").Some? && Field(step.members, "tool").value.Str?
    then Field(step.members, "tool").value.s else ""
  }

  function ParametersOf(step: Json): Json {
    if step.Obj? && Field(step.members, "parameters").Some? then Field(step.members, "parameters").value else Null
  }

  /** The issues of a step that passed the schema; its tool is looked up by its name as written. */
  function PlannedStepIssues(m: seq<Entry<Tool>>, step: Json, index: nat): seq<Issue> {
    var path := StepPath(index);
    if !Has(m, ToolOf(step)) then [Issue(NOT_ALLOWED, path + ".tool")]
    else
      DependencyIssues(Dependencies(step), index + 1, path + ".dependsOn", {})
      + SchemaIssues(ParametersOf(step), Get(m, ToolOf(step)).schema, path + ".parameters")
  }

  function StepCheck(m: seq<Entry<Tool>>): (Json, nat) -> seq<Issue> {
    (step: Json, index: nat) => PlannedStepIssues(m, step, index)
  }

  function PlannedIssues(m: seq<Entry<Tool>>, items: seq<Json>, from: nat): seq<Issue>
    requires from <= |items|
  {
    Pushed(StepCheck(m), items, from)
  }

  datatype Context = Context(tools: seq<Tool>, maxSteps: Option<int>, requireExecutable: bool)

  datatype Verification = Accepted(executable: bool, toolNames: seq<string>) | Refused(issues: seq<Issue>)

  predicate NeedsClarification(output: Json) {
    output.Obj? && Field(output.members, "requiresClarification") == Some(Bool(true))
  }

  function ClarificationIssues(output: Json, ctx: Context): seq<Issue> {
    if ctx.requireExecutable && NeedsClarification(output) then [Issue(CLARIFICATION, "$.requiresClarification")] else []
  }

  /** `verifyDeterministicPlan`. */
  function VerifyPlan(output: Json, ctx: Context): Verification {
    var m := ToolMap(ctx.tools, |ctx.tools|);
    var fault := OutputFault(output, Some(ToolNames(m)), ctx.maxSteps);
    if fault.Some? then Refused([Issue(SCHEMA, fault.value)])
    else
      var issues := ClarificationIssues(output, ctx) + PlannedIssues(m, StepItems(output), 0);
      if issues != [] then Refused(issues) else Accepted(!NeedsClarification(output), ToolNames(m))
  }

  method VerifyStep(m: seq<Entry<Tool>>, step: Json, index: nat) returns (issues: seq<Issue>)
    ensures issues == PlannedStepIssues(m, step, index)
  {
    var path := StepPath(index);
    if !Has(m, ToolOf(step)) {
      return [Issue(NOT_ALLOWED, path + ".tool")];
    }
    var dependencies := VerifyStepDependencies(Dependencies(step), index + 1, path + ".dependsOn");
    var parameters := ValidateParameterSchema(ParametersOf(step), Get(m, ToolOf(step)).schema, path + ".parameters");
    return dependencies + parameters;
  }

  lemma OneMoreStep(m: seq<Entry<Tool>>, items: seq<Json>, index: nat, issues: seq<Issue>, all: seq<Issue>)
    requires index < |items| && issues + PlannedIssues(m, items, index) == all
    ensures issues + PlannedStepIssues(m, items[index], index) + PlannedIssues(m, items, index + 1) == all
  {
    var now, later := PlannedStepIssues(m, items[index], index), PlannedIssues(m, items, index + 1);
    assert PlannedIssues(m, items, index) == now + later;
    assert issues + now + later == issues + (now + later);
  }

  method VerifySteps(m: seq<Entry<Tool>>, items: seq<Json>, found: seq<Issue>) returns (issues: seq<Issue>)
    ensures issues == found + PlannedIssues(m, items, 0)
  {
    issues := found;
    ghost var all := found + PlannedIssues(m, items, 0);
    var index := 0;
    while index < |items|
      invariant 0 <= index <= |items|
      invariant issues + PlannedIssues(m, items, index) == all
    {
      OneMoreStep(m, items, index, issues, all);
      var stepIssues := VerifyStep(m, items[index], index);
      issues := issues + stepIssues;
      index := index + 1;
    }
  }

  method VerifyDeterministicPlan(output: Json, ctx: Context) returns (r: Verification)
    ensures r == VerifyPlan(output, ctx)
  {
    var m := BuildToolMap(ctx.tools);
    var fault := ValidatePlannerPromptOutput(output, Some(ToolNames(m)), ctx.maxSteps);
    if fault.Some? {
      return Refused([Issue(SCHEMA, fault.value)]);
    }
    var issues := VerifySteps(m, StepItems(output), ClarificationIssues(output, ctx));
    return if issues != [] then Refused(issues) else Accepted(!NeedsClarification(output), ToolNames(m));
  }

  // ---- what is accepted ------------------------------------------------------------------

  lemma {:induction false} DependenciesIff(deps: seq<Json>, number: int, path: string, seen: set<Json>)
    ensures DependencyIssues(deps, number, path, seen) == [] <==>
      (&& (forall i | 0 <= i < |deps| :: DependencyOk(deps[i], number) && deps[i] !in seen)
       && Distinct(deps))
  {
    if deps != [] {
      var rest := deps[1..];
      assert deps == [deps[0]] + rest;
      DependenciesIff(rest, number, path, seen + {deps[0]});
      if (forall i | 0 <= i < |deps| :: DependencyOk(deps[i], number) && deps[i] !in seen) && Distinct(deps) {
        forall i | 0 <= i < |rest| ensures DependencyOk(rest[i], number) && rest[i] !in seen + {deps[0]} {
          assert rest[i] == deps[i + 1] && deps[0] != deps[i + 1];
        }
        forall i, j | 0 <= i < j < |rest| ensures rest[i] != rest[j] { assert deps[i + 1] != deps[j + 1]; }
      }
      if DependencyIssues(deps, number, path, seen) == [] {
        forall i | 0 <= i < |deps| ensures DependencyOk(deps[i], number) && deps[i] !in seen {
          if i > 0 { assert deps[i] == rest[i - 1]; }
        }
        forall i, j | 0 <= i < j < |deps| ensures deps[i] != deps[j] {
          assert deps[j] == rest[j - 1] && rest[j - 1] !in seen + {deps[0]};
          if i > 0 { assert rest[i - 1] != rest[j - 1]; }
        }
      }
    }
  }

  /** A step is verified: a tool under its exact name, distinct backward dependencies, conforming parameters. */
  predicate StepVerified(m: seq<Entry<Tool>>, step: Json, index: nat) {
    && Has(m, ToolOf(step))
    && Distinct(Dependencies(step))
    && (forall i | 0 <= i < |Dependencies(step)| :: DependencyOk(Dependencies(step)[i], index + 1))
    && Conforms(ParametersOf(step), Get(m, ToolOf(step)).schema)
  }

  lemma StepVerifiedIff(m: seq<Entry<Tool>>, step: Json, index: nat)
    ensures PlannedStepIssues(m, step, index) == [] <==> StepVerified(m, step, index)
  {
    if Has(m, ToolOf(step)) {
      DependenciesIff(Dependencies(step), index + 1, StepPath(index) + ".dependsOn", {});
      SchemaIff(ParametersOf(step), Get(m, ToolOf(step)).schema, StepPath(index) + ".parameters");
    }
  }

  lemma PlannedIff(m: seq<Entry<Tool>>, items: seq<Json>)
    ensures PlannedIssues(m, items, 0) == [] <==> forall i | 0 <= i < |items| :: StepVerified(m, items[i], i)
  {
    PushedNothing(StepCheck(m), items, 0);
    forall i | 0 <= i < |items| ensures StepCheck(m)(items[i], i) == [] <==> StepVerified(m, items[i], i) {
      StepVerifiedIff(m, items[i], i);
    }
  }

  /** The declarative specification of the verifier. */
  predicate Acceptable(output: Json, ctx: Context) {
    var m := ToolMap(ctx.tools, |ctx.tools|);
    && OutputConforms(output, Some(ToolNames(m)), ctx.maxSteps)
    && (ctx.requireExecutable ==> !NeedsClarification(output))
    && forall i | 0 <= i < |StepItems(output)| :: StepVerified(m, StepItems(output)[i], i)
  }

  /** The verifier accepts exactly the outputs the specification describes. */
  lemma VerifierAcceptsIff(output: Json, ctx: Context)
    ensures VerifyPlan(output, ctx).Accepted? <==> Acceptable(output, ctx)
  {
    var m := ToolMap(ctx.tools, |ctx.tools|);
    ContractAcceptsIff(output, Some(ToolNames(m)), ctx.maxSteps);
    PlannedIff(m, StepItems(output));
  }

  /**
   * Accepted steps name a declared tool exactly: the contract only compares trimmed names, so a
   * name with spaces around it passes the contract and is refused here.
   */
  lemma AcceptedToolsAreExact(output: Json, ctx: Context, i: nat)
    requires VerifyPlan(output, ctx).Accepted? && i < |StepItems(output)|
    ensures var tool := ToolOf(StepItems(output)[i]);
      Trim(tool) == tool != "" && exists j: nat :: LastNamed(ctx.tools, |ctx.tools|, tool, j)
  {
    VerifierAcceptsIff(output, ctx);
    var tool := ToolOf(StepItems(output)[i]);
    assert StepVerified(ToolMap(ctx.tools, |ctx.tools|), StepItems(output)[i], i);
    ToolMapHolds(ctx.tools, |ctx.tools|, tool);
    var j: nat :| j < |ctx.tools| && Trim(ctx.tools[j].name) == tool;
    TrimIsTrimmed(ctx.tools[j].name);
    TrimOfTrimmed(tool);
  }
}
