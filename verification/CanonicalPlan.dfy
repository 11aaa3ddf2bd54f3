/**
 * Plan canonicalization (src/agent/canonical-plan.ts): every text is normalized, every input's
 * keys are sorted, steps are sorted by `compareSteps`. `None` stands for a thrown error.
 */
module CanonicalPlan {
  import opened Common
  import opened Sorting
  import opened JsStrings
  import opened Records
  import opened Json
  import opened PlanTypes

  const MAX_SAFE := 9007199254740991

  type Normalizer = string -> string

  predicate IsAscii(s: string) {
    forall i | 0 <= i < |s| :: s[i] as int < 128
  }

  /** An ASCII text whose last character composes with nothing that may follow. */
  predicate EndsInColon(s: string) {
    IsAscii(s) && s != "" && s[|s| - 1] == ':'
  }

  /** What the model relies on about Unicode NFC normalization. */
  ghost predicate NfcLaws(nfc: Normalizer) {
    && nfc("") == ""
    && (forall s {:trigger nfc(nfc(s))} :: nfc(nfc(s)) == nfc(s))
    && (forall s {:trigger nfc(Trim(nfc(s)))} :: nfc(Trim(nfc(s))) == Trim(nfc(s)))
    && (forall s {:trigger Trim(nfc(s))} :: Trim(s) != "" ==> Trim(nfc(s)) != "")
    && (forall s, t {:trigger nfc(s + t)} :: IsAscii(t) ==> nfc(s + t) == nfc(s) + t)
    && (forall s, t {:trigger nfc(s + t)} :: EndsInColon(s) ==> nfc(s + t) == s + nfc(t))
  }

  /** Normalization leaves ASCII texts alone. */
  lemma NfcOfAscii(nfc: Normalizer, t: string)
    requires NfcLaws(nfc) && IsAscii(t)
    ensures nfc(t) == t
  {
    assert nfc("" + t) == nfc("") + t;
    assert "" + t == t;
  }

  // ---- JSON inputs -----------------------------------------------------------------------

  /** An object with the single key `$ref` or `__valueFromState`. */
  predicate IsRefShape(ms: seq<Entry<Json>>) {
    |ms| == 1 && (ms[0].key == "$ref" || ms[0].key == "__valueFromState")
  }

  /** `canonicalizeJsonValue` throws exactly on a reference whose expression is not a text or is blank. */
  predicate CanonOk(v: Json) {
    match v
    case Arr(items) => forall i | 0 <= i < |items| :: CanonOk(items[i])
    case Obj(ms) =>
      if IsRefShape(ms) then ms[0].value.Str? && Trim(ms[0].value.s) != ""
      else forall i | 0 <= i < |ms| :: CanonOk(ms[i].value)
    case _ => true
  }

  /** The value `canonicalizeJsonValue` returns when it does not throw. */
  function CanonValue(nfc: Normalizer, v: Json): Json
    requires CanonOk(v)
    decreases v, 1
  {
    match v
    case Str(s) => Str(nfc(s))
    case Arr(items) => Arr(CanonItems(nfc, items))
    case Obj(ms) =>
      if IsRefShape(ms) then Obj([Entry(ms[0].key, Str(Trim(nfc(ms[0].value.s))))])
      else Obj(SortByKey(CanonMembers(nfc, ms)))
    case _ => v
  }

  function CanonItems(nfc: Normalizer, items: seq<Json>): (r: seq<Json>)
    requires forall i | 0 <= i < |items| :: CanonOk(items[i])
    ensures |r| == |items| && forall i | 0 <= i < |items| :: r[i] == CanonValue(nfc, items[i])
    decreases items, 0
  {
    if items == [] then [] else [CanonValue(nfc, items[0])] + CanonItems(nfc, items[1..])
  }

  function CanonMembers(nfc: Normalizer, ms: seq<Entry<Json>>): (r: seq<Entry<Json>>)
    requires forall i | 0 <= i < |ms| :: CanonOk(ms[i].value)
    ensures |r| == |ms| && forall i | 0 <= i < |ms| :: r[i] == Entry(ms[i].key, CanonValue(nfc, ms[i].value))
    decreases ms, 0
  {
    if ms == [] then []
    else [Entry(ms[0].key, CanonValue(nfc, ms[0].value))] + CanonMembers(nfc, ms[1..])
  }

  // ---- fields of a step ------------------------------------------------------------------

  function Field(ms: seq<Entry<Json>>, k: string): Option<Json> {
    if Has(ms, k) then Some(Get(ms, k)) else None
  }

  predicate OnlyKeys(ms: seq<Entry<Json>>, allowed: set<string>) {
    forall i | 0 <= i < |ms| :: ms[i].key in allowed
  }

  /** `normalizeStringStrict`. */
  function NormText(nfc: Normalizer, v: Option<Json>, maxLen: nat): Option<string> {
    if v.None? || !v.value.Str? then None
    else
      var t := Trim(nfc(v.value.s));
      if t == "" || |t| > maxLen then None else Some(t)
  }

  function NormUrl(nfc: Normalizer, v: Option<Json>): Option<string> {
    var t := NormText(nfc, v, 2048);
    if t.Some? && !("http://" <= t.value) && !("https://" <= t.value) then None else t
  }

  /** `normalizeSafeInteger`. */
  function NormInteger(v: Option<Json>): Option<int> {
    if v.Some? && v.value.Num? && -MAX_SAFE <= v.value.n <= MAX_SAFE then Some(v.value.n) else None
  }

  function NormInput(nfc: Normalizer, v: Option<Json>): Option<Json> {
    if v.Some? && CanonOk(v.value) then Some(CanonValue(nfc, v.value)) else None
  }

  /** What `normalizeStepRaw` reads from a raw step: its keys, and each field as normalized. */
  datatype Reads = Reads(
    keys: set<string>,
    kind: Option<Json>, id: Option<string>,
    sessionId: Option<string>, url: Option<string>, selector: Option<string>, text: Option<string>,
    toolId: Option<string>, outputKey: Option<string>, input: Option<Json>, maxIterations: Option<int>,
    key: Option<string>, value: Option<string>, delta: Option<int>)

  function Read(nfc: Normalizer, ms: seq<Entry<Json>>): Reads {
    var kind := Field(ms, "kind");
    Reads(
      KeySet(ms),
      if kind.Some? && kind.value.Str? then kind else None, NormText(nfc, Field(ms, "id"), 256),
      NormText(nfc, Field(ms, "sessionId"), 256), NormUrl(nfc, Field(ms, "url")),
      NormText(nfc, Field(ms, "selector"), 512), NormText(nfc, Field(ms, "text"), 4096),
      NormText(nfc, Field(ms, "toolId"), 256), NormText(nfc, Field(ms, "outputKey"), 256),
      NormInput(nfc, Field(ms, "input")), NormInteger(Field(ms, "maxIterations")),
      NormText(nfc, Field(ms, "key"), 256), NormText(nfc, Field(ms, "value"), 4096), NormInteger(Field(ms, "value")))
  }

  function BuildSandbox(r: Reads, kind: string, id: string): Option<Step> {
    if !(r.keys <= {"id", "kind", "sessionId", "url", "selector", "text", "outputKey"}) || r.sessionId.None? then None
    else if kind == "sandbox.open" then
      if r.url.None? then None else Some(SandboxOpen(id, r.sessionId.value, r.url.value))
    else if r.selector.None? then None
    else if kind == "sandbox.click" then Some(SandboxClick(id, r.sessionId.value, r.selector.value))
    else if kind == "sandbox.type" then
      if r.text.None? then None else Some(SandboxType(id, r.sessionId.value, r.selector.value, r.text.value))
    else if r.outputKey.None? then None
    else Some(SandboxExtract(id, r.sessionId.value, r.selector.value, r.outputKey.value))
  }

  function BuildTool(r: Reads, kind: string, id: string): Option<Step> {
    if r.toolId.None? || r.outputKey.None? || r.input.None? then None
    else if kind == "tool.call" then
      if !(r.keys <= {"id", "kind", "toolId", "input", "outputKey"}) then None
      else Some(ToolCall(id, r.toolId.value, r.outputKey.value, r.input.value))
    else if !(r.keys <= {"id", "kind", "toolId", "input", "outputKey", "maxIterations"}) || r.maxIterations.None? then None
    else Some(ToolLoop(id, r.toolId.value, r.outputKey.value, r.input.value, r.maxIterations.value))
  }

  function BuildCore(r: Reads, kind: string, id: string): Option<Step> {
    if !(r.keys <= {"id", "kind", "key", "value"}) then None
    else if kind == "append_log" then
      if "key" in r.keys || r.value.None? then None else Some(AppendLog(id, r.value.value))
    else if r.key.None? then None
    else if kind == "set" then
      if r.value.None? then None else Some(Set(id, r.key.value, r.value.value))
    else if r.delta.None? then None
    else Some(Increment(id, r.key.value, r.delta.value))
  }

  predicate IsSandboxKind(kind: string) {
    kind == "sandbox.open" || kind == "sandbox.click" || kind == "sandbox.type" || kind == "sandbox.extract"
  }

  predicate IsToolKind(kind: string) {
    kind == "tool.call" || kind == "tool.loop"
  }

  predicate IsCoreKind(kind: string) {
    kind == "set" || kind == "increment" || kind == "append_log"
  }

  function Build(r: Reads): Option<Step> {
    if r.id.None? || r.kind.None? || !r.kind.value.Str? then None
    else if IsSandboxKind(r.kind.value.s) then BuildSandbox(r, r.kind.value.s, r.id.value)
    else if IsToolKind(r.kind.value.s) then BuildTool(r, r.kind.value.s, r.id.value)
    else if IsCoreKind(r.kind.value.s) then BuildCore(r, r.kind.value.s, r.id.value)
    else None
  }

  /** `normalizeStepRaw`. */
  function NormStep(nfc: Normalizer, raw: Json): Option<Step> {
    if raw.Obj? then Build(Read(nfc, raw.members)) else None
  }

  // ---- the order of steps ----------------------------------------------------------------

  /** The ten texts `compareSteps` compares in turn; absent fields compare as empty. */
  function SortTexts(s: Step): seq<string> {
    var session := if s.IsSandbox() then s.sessionId else "";
    var key := if s.Set? || s.Increment? then s.key else "";
    var url := if s.SandboxOpen? then s.url else "";
    var selector := if s.IsSandbox() && !s.SandboxOpen? then s.selector else "";
    var text := if s.SandboxType? then s.text else "";
    var out := if s.SandboxExtract? || s.IsTool() then s.outputKey else "";
    var valueType := if s.Increment? then "number" else if s.Set? || s.AppendLog? then "string" else "undefined";
    var value := if s.Increment? then IntText(s.delta) else if s.Set? || s.AppendLog? then s.value else "";
    [s.id, s.Kind(), session, key, url, selector, text, out, valueType, value]
  }

  /** Negative, zero or positive: the first texts that differ decide. */
  function CompareTexts(a: seq<string>, b: seq<string>): int
    requires |a| == |b|
  {
    if a == [] then 0
    else if Less(a[0], b[0]) then -1
    else if Less(b[0], a[0]) then 1
    else CompareTexts(a[1..], b[1..])
  }

  function CompareSteps(a: Step, b: Step): int {
    CompareTexts(SortTexts(a), SortTexts(b))
  }

  predicate StepLeq(a: Step, b: Step) {
    CompareSteps(a, b) <= 0
  }

  lemma {:induction false} CompareTextsAntisymmetric(a: seq<string>, b: seq<string>)
    requires |a| == |b|
    ensures CompareTexts(a, b) == -CompareTexts(b, a)
  {
    if a != [] {
      if Less(a[0], b[0]) { LessAsymmetric(a[0], b[0]); }
      if Less(b[0], a[0]) { LessAsymmetric(b[0], a[0]); }
      CompareTextsAntisymmetric(a[1..], b[1..]);
    }
  }

  lemma {:induction false} CompareTextsTransitive(a: seq<string>, b: seq<string>, c: seq<string>)
    requires |a| == |b| == |c| && CompareTexts(a, b) <= 0 && CompareTexts(b, c) <= 0
    ensures CompareTexts(a, c) <= 0
  {
    if a != [] {
      LessTotal(a[0], b[0]);
      LessTotal(b[0], c[0]);
      if Less(a[0], b[0]) && Less(b[0], c[0]) {
        LessTransitive(a[0], b[0], c[0]);
      } else if a[0] == b[0] && b[0] == c[0] {
        CompareTextsTransitive(a[1..], b[1..], c[1..]);
      }
    }
  }

  lemma StepLeqTotal()
    ensures TotalPreorder(StepLeq)
  {
    forall a, b ensures StepLeq(a, b) || StepLeq(b, a) {
      CompareTextsAntisymmetric(SortTexts(a), SortTexts(b));
    }
    forall a, b, c | StepLeq(a, b) && StepLeq(b, c) ensures StepLeq(a, c) {
      CompareTextsTransitive(SortTexts(a), SortTexts(b), SortTexts(c));
    }
  }

  /** Steps tie only when their ids are equal; their ids decide otherwise. */
  lemma IdsDecide(a: Step, b: Step)
    ensures Less(a.id, b.id) ==> StepLeq(a, b) && !StepLeq(b, a)
    ensures StepLeq(a, b) && StepLeq(b, a) ==> a.id == b.id
    ensures StepLeq(a, b) ==> Leq(a.id, b.id)
  {
    LessTotal(a.id, b.id);
    if Less(a.id, b.id) { LessAsymmetric(a.id, b.id); }
    if Less(b.id, a.id) { LessAsymmetric(b.id, a.id); }
  }

  // ---- the plan --------------------------------------------------------------------------

  function NormAll(nfc: Normalizer, items: seq<Json>): (r: Option<seq<Step>>)
    ensures r.Some? <==> forall i | 0 <= i < |items| :: NormStep(nfc, items[i]).Some?
    ensures r.Some? ==> |r.value| == |items|
    ensures r.Some? ==> forall i | 0 <= i < |items| :: NormStep(nfc, items[i]) == Some(r.value[i])
  {
    Traverse(raw => NormStep(nfc, raw), items)
  }

  function Ids(steps: seq<Step>): (r: seq<string>)
    ensures |r| == |steps| && forall i | 0 <= i < |steps| :: r[i] == steps[i].id
  {
    if steps == [] then [] else [steps[0].id] + Ids(steps[1..])
  }

  /** Everything `canonicalizePlan` checks before it looks at the steps, and the raw steps. */
  function PlanHeader(nfc: Normalizer, raw: seq<Entry<Json>>): Option<(string, seq<Json>)> {
    var planId, steps := NormText(nfc, Field(raw, "planId"), 256), Field(raw, "steps");
    if !OnlyKeys(raw, {"planId", "version", "steps"}) || planId.None? || Field(raw, "version") != Some(Num(1))
       || steps.None? || !steps.value.Arr? then None
    else Some((planId.value, steps.value.items))
  }

  /** What `canonicalizePlan` returns. */
  function Canonicalize(nfc: Normalizer, raw: seq<Entry<Json>>): Option<Plan> {
    match PlanHeader(nfc, raw)
    case None => None
    case Some((planId, items)) =>
      var steps := NormAll(nfc, items);
      if steps.None? || !Distinct(Ids(Sort(StepLeq, steps.value))) then None
      else Some(Plan(planId, Sort(StepLeq, steps.value)))
  }

  method CanonicalizePlan(nfc: Normalizer, raw: seq<Entry<Json>>) returns (r: Option<Plan>)
    ensures r == Canonicalize(nfc, raw)
  {
    var header := PlanHeader(nfc, raw);
    if header.None? {
      return None;
    }
    var (planId, items) := header.value;
    var steps := NormAll(nfc, items);
    if steps.None? {
      return None;
    }
    var normalizedSteps := Sort(StepLeq, steps.value);
    var distinct := DistinctIds(normalizedSteps);
    return if distinct then Some(Plan(planId, normalizedSteps)) else None;
  }

  /** The loop over the sorted steps that remembers the ids it has seen. */
  method DistinctIds(steps: seq<Step>) returns (ok: bool)
    ensures ok <==> Distinct(Ids(steps))
  {
    var seen: set<string> := {};
    for i := 0 to |steps|
      invariant forall j, k | 0 <= j < k < i :: steps[j].id != steps[k].id
      invariant forall x :: x in seen <==> exists j | 0 <= j < i :: steps[j].id == x
    {
      if steps[i].id in seen {
        var j :| 0 <= j < i && steps[j].id == steps[i].id;
        assert Ids(steps)[j] == Ids(steps)[i];
        return false;
      }
      seen := seen + {steps[i].id};
    }
    return true;
  }
}
