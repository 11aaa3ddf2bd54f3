/** A canonical plan is a fixed point: canonicalizing it again gives it back. */
module PlanIdempotence {
  import opened Common
  import opened Sorting
  import opened JsStrings
  import opened Records
  import opened Json
  import opened PlanTypes
  import opened CanonicalPlan

  predicate IsNorm(nfc: Normalizer, t: string, maxLen: nat) {
    t != "" && |t| <= maxLen && Trim(nfc(t)) == t
  }

  lemma NormTextIsNorm(nfc: Normalizer, v: Option<Json>, maxLen: nat)
    requires NfcLaws(nfc) && NormText(nfc, v, maxLen).Some?
    ensures IsNorm(nfc, NormText(nfc, v, maxLen).value, maxLen)
  {
    var t := Trim(nfc(v.value.s));
    TrimIsTrimmed(nfc(v.value.s));
    TrimOfTrimmed(t);
    assert nfc(t) == t;
  }

  predicate IsCanonInput(nfc: Normalizer, v: Json) {
    CanonOk(v) && CanonValue(nfc, v) == v
  }

  lemma {:induction false} CanonTwice(nfc: Normalizer, v: Json)
    requires NfcLaws(nfc) && CanonOk(v)
    ensures IsCanonInput(nfc, CanonValue(nfc, v))
    decreases v, 1
  {
    match v
    case Str(s) => assert nfc(nfc(s)) == nfc(s);
    case Arr(items) =>
      var r := CanonItems(nfc, items);
      forall i | 0 <= i < |items| ensures IsCanonInput(nfc, r[i]) { CanonTwice(nfc, items[i]); }
      assert CanonItems(nfc, r) == r;
    case Obj(ms) =>
      if IsRefShape(ms) {
        RefCanonTwice(nfc, ms[0].value.s);
      } else {
        var es := CanonMembers(nfc, ms);
        forall i | 0 <= i < |ms| ensures IsCanonInput(nfc, es[i].value) { CanonTwice(nfc, ms[i].value); }
        SortedCanonMembers(nfc, es);
        assert IsRefShape(es) <==> IsRefShape(ms);
      }
    case _ =>
  }

  lemma RefCanonTwice(nfc: Normalizer, s: string)
    requires NfcLaws(nfc) && Trim(s) != ""
    ensures var t := Trim(nfc(s)); Trim(t) != "" && Trim(nfc(t)) == t
  {
    var t := Trim(nfc(s));
    TrimIsTrimmed(nfc(s));
    TrimOfTrimmed(t);
    assert nfc(t) == t && t != "";
  }

  lemma SortedCanonMembers(nfc: Normalizer, es: seq<Entry<Json>>)
    requires !IsRefShape(es) && forall i | 0 <= i < |es| :: IsCanonInput(nfc, es[i].value)
    ensures IsCanonInput(nfc, Obj(SortByKey(es)))
  {
    var r := SortByKey(es);
    SortByKeyKeeps(es);
    forall i | 0 <= i < |r| ensures IsCanonInput(nfc, r[i].value) {
      assert r[i] in es;
    }
    if |r| == 1 { assert r[0] in es; }
    assert CanonMembers(nfc, r) == r;
    KeyLeqTotal<Json>();
    SortOrdered(KeyLeq<Json>, es);
    SortOfOrdered(KeyLeq<Json>, r);
  }

  /** What every canonical step satisfies: normalized texts, safe integers, canonical input. */
  predicate IsCanonStep(nfc: Normalizer, s: Step) {
    && IsNorm(nfc, s.id, 256)
    && match s
      case Set(_, key, value) => IsNorm(nfc, key, 256) && IsNorm(nfc, value, 4096)
      case Increment(_, key, delta) => IsNorm(nfc, key, 256) && -MAX_SAFE <= delta <= MAX_SAFE
      case AppendLog(_, value) => IsNorm(nfc, value, 4096)
      case SandboxOpen(_, session, url) =>
        IsNorm(nfc, session, 256) && IsNorm(nfc, url, 2048) && ("http://" <= url || "https://" <= url)
      case SandboxClick(_, session, selector) => IsNorm(nfc, session, 256) && IsNorm(nfc, selector, 512)
      case SandboxType(_, session, selector, text) =>
        IsNorm(nfc, session, 256) && IsNorm(nfc, selector, 512) && IsNorm(nfc, text, 4096)
      case SandboxExtract(_, session, selector, out) =>
        IsNorm(nfc, session, 256) && IsNorm(nfc, selector, 512) && IsNorm(nfc, out, 256)
      case ToolCall(_, tool, out, input) => IsNorm(nfc, tool, 256) && IsNorm(nfc, out, 256) && IsCanonInput(nfc, input)
      case ToolLoop(_, tool, out, input, max) =>
        IsNorm(nfc, tool, 256) && IsNorm(nfc, out, 256) && IsCanonInput(nfc, input) && -MAX_SAFE <= max <= MAX_SAFE
  }

  ghost predicate NormalReads(nfc: Normalizer, r: Reads) {
    && NormOrNone(nfc, r.id, 256) && NormOrNone(nfc, r.sessionId, 256) && NormOrNone(nfc, r.url, 2048)
    && NormOrNone(nfc, r.selector, 512) && NormOrNone(nfc, r.text, 4096) && NormOrNone(nfc, r.toolId, 256)
    && NormOrNone(nfc, r.outputKey, 256) && NormOrNone(nfc, r.key, 256) && NormOrNone(nfc, r.value, 4096)
    && (r.url.Some? ==> "http://" <= r.url.value || "https://" <= r.url.value)
    && (r.input.Some? ==> IsCanonInput(nfc, r.input.value))
    && (r.delta.Some? ==> -MAX_SAFE <= r.delta.value <= MAX_SAFE)
    && (r.maxIterations.Some? ==> -MAX_SAFE <= r.maxIterations.value <= MAX_SAFE)
  }

  ghost predicate NormOrNone(nfc: Normalizer, t: Option<string>, maxLen: nat) {
    t.Some? ==> IsNorm(nfc, t.value, maxLen)
  }

  lemma FieldIsNormal(nfc: Normalizer, ms: seq<Entry<Json>>, k: string, maxLen: nat)
    requires NfcLaws(nfc)
    ensures NormOrNone(nfc, NormText(nfc, Field(ms, k), maxLen), maxLen)
  {
    if NormText(nfc, Field(ms, k), maxLen).Some? { NormTextIsNorm(nfc, Field(ms, k), maxLen); }
  }

  lemma InputIsNormal(nfc: Normalizer, v: Option<Json>)
    requires NfcLaws(nfc)
    ensures NormInput(nfc, v).Some? ==> IsCanonInput(nfc, NormInput(nfc, v).value)
  {
    if NormInput(nfc, v).Some? { CanonTwice(nfc, v.value); }
  }

  lemma ReadIsNormal(nfc: Normalizer, ms: seq<Entry<Json>>)
    requires NfcLaws(nfc)
    ensures NormalReads(nfc, Read(nfc, ms))
  {
    FieldIsNormal(nfc, ms, "id", 256);
    FieldIsNormal(nfc, ms, "sessionId", 256);
    FieldIsNormal(nfc, ms, "url", 2048);
    FieldIsNormal(nfc, ms, "selector", 512);
    FieldIsNormal(nfc, ms, "text", 4096);
    FieldIsNormal(nfc, ms, "toolId", 256);
    FieldIsNormal(nfc, ms, "outputKey", 256);
    FieldIsNormal(nfc, ms, "key", 256);
    FieldIsNormal(nfc, ms, "value", 4096);
    InputIsNormal(nfc, Field(ms, "input"));
  }

  lemma BuildSandboxIsCanon(nfc: Normalizer, r: Reads, kind: string, id: string)
    requires NormalReads(nfc, r) && IsNorm(nfc, id, 256) && BuildSandbox(r, kind, id).Some?
    ensures IsCanonStep(nfc, BuildSandbox(r, kind, id).value)
  {
  }

  lemma BuildToolIsCanon(nfc: Normalizer, r: Reads, kind: string, id: string)
    requires NormalReads(nfc, r) && IsNorm(nfc, id, 256) && BuildTool(r, kind, id).Some?
    ensures IsCanonStep(nfc, BuildTool(r, kind, id).value)
  {
  }

  lemma BuildCoreIsCanon(nfc: Normalizer, r: Reads, kind: string, id: string)
    requires NormalReads(nfc, r) && IsNorm(nfc, id, 256) && BuildCore(r, kind, id).Some?
    ensures IsCanonStep(nfc, BuildCore(r, kind, id).value)
  {
  }

  lemma BuildIsCanon(nfc: Normalizer, r: Reads)
    requires NormalReads(nfc, r) && Build(r).Some?
    ensures IsCanonStep(nfc, Build(r).value)
  {
    var kind, id := r.kind.value.s, r.id.value;
    if IsSandboxKind(kind) {
      BuildSandboxIsCanon(nfc, r, kind, id);
    } else if IsToolKind(kind) {
      BuildToolIsCanon(nfc, r, kind, id);
    } else {
      BuildCoreIsCanon(nfc, r, kind, id);
    }
  }

  lemma NormStepIsCanon(nfc: Normalizer, raw: Json)
    requires NfcLaws(nfc) && NormStep(nfc, raw).Some?
    ensures IsCanonStep(nfc, NormStep(nfc, raw).value)
  {
    ReadIsNormal(nfc, raw.members);
    BuildIsCanon(nfc, Read(nfc, raw.members));
  }

  lemma FieldAt(ms: seq<Entry<Json>>, i: nat)
    requires DistinctKeys(ms) && i < |ms|
    ensures Field(ms, ms[i].key) == Some(ms[i].value)
  {
    GetAt(ms, i);
  }

  /** A normalized text field is read back as it is. */
  lemma TextAt(nfc: Normalizer, ms: seq<Entry<Json>>, i: nat, maxLen: nat)
    requires DistinctKeys(ms) && i < |ms| && ms[i].value.Str? && IsNorm(nfc, ms[i].value.s, maxLen)
    ensures NormText(nfc, Field(ms, ms[i].key), maxLen) == Some(ms[i].value.s)
  {
    FieldAt(ms, i);
  }

  lemma FieldsDistinct(s: Step)
    ensures DistinctKeys(s.Fields())
  {
  }

  lemma IdAndKindRead(nfc: Normalizer, s: Step)
    requires IsNorm(nfc, s.id, 256)
    ensures Read(nfc, s.Fields()).id == Some(s.id) && Read(nfc, s.Fields()).kind == Some(Str(s.Kind()))
  {
    FieldsDistinct(s);
    var ms := s.Fields();
    assert ms[0] == Entry("id", Str(s.id)) && ms[1] == Entry("kind", Str(s.Kind()));
    TextAt(nfc, ms, 0, 256);
    FieldAt(ms, 1);
  }

  /** Which keys a raw step of each kind may have. */
  function KeysOf(s: Step): set<string> {
    if s.IsSandbox() then {"id", "kind", "sessionId", "url", "selector", "text", "outputKey"}
    else if s.ToolCall? then {"id", "kind", "toolId", "input", "outputKey"}
    else if s.ToolLoop? then {"id", "kind", "toolId", "input", "outputKey", "maxIterations"}
    else if s.AppendLog? then {"id", "kind", "value"}
    else {"id", "kind", "key", "value"}
  }

  lemma FieldKeys(s: Step)
    ensures KeySet(s.Fields()) <= KeysOf(s)
  {
  }

  /** What reading the fields of a raw step must give for the step to be built from it. */
  ghost predicate ReadsAs(r: Reads, s: Step) {
    && r.keys <= KeysOf(s) && r.id == Some(s.id) && r.kind == Some(Str(s.Kind()))
    && match s
      case Set(_, key, value) => r.key == Some(key) && r.value == Some(value)
      case Increment(_, key, delta) => r.key == Some(key) && r.delta == Some(delta)
      case AppendLog(_, value) => r.value == Some(value)
      case SandboxOpen(_, session, url) => r.sessionId == Some(session) && r.url == Some(url)
      case SandboxClick(_, session, selector) => r.sessionId == Some(session) && r.selector == Some(selector)
      case SandboxType(_, session, selector, text) =>
        r.sessionId == Some(session) && r.selector == Some(selector) && r.text == Some(text)
      case SandboxExtract(_, session, selector, out) =>
        r.sessionId == Some(session) && r.selector == Some(selector) && r.outputKey == Some(out)
      case ToolCall(_, tool, out, input) => r.toolId == Some(tool) && r.outputKey == Some(out) && r.input == Some(input)
      case ToolLoop(_, tool, out, input, max) =>
        r.toolId == Some(tool) && r.outputKey == Some(out) && r.input == Some(input) && r.maxIterations == Some(max)
  }

  lemma SandboxBuilds(r: Reads, s: Step)
    requires s.IsSandbox() && r.id == Some(s.id) && r.kind == Some(Str(s.Kind()))
    ensures BuildSandbox(r, s.Kind(), s.id) == Some(s) <==> ReadsAs(r, s)
  {
  }

  lemma ToolBuilds(r: Reads, s: Step)
    requires s.IsTool() && r.id == Some(s.id) && r.kind == Some(Str(s.Kind()))
    ensures BuildTool(r, s.Kind(), s.id) == Some(s) <==> ReadsAs(r, s)
  {
  }

  lemma CoreBuilds(r: Reads, s: Step)
    requires !s.IsSandbox() && !s.IsTool() && r.id == Some(s.id) && r.kind == Some(Str(s.Kind()))
    ensures BuildCore(r, s.Kind(), s.id) == Some(s) <==> ReadsAs(r, s)
  {
    if r.keys <= {"id", "kind", "key", "value"} && "key" !in r.keys {
      assert r.keys <= {"id", "kind", "value"};
    }
  }

  lemma KindDispatch(s: Step)
    ensures IsSandboxKind(s.Kind()) == s.IsSandbox() && IsToolKind(s.Kind()) == s.IsTool()
    ensures IsCoreKind(s.Kind()) == (!s.IsSandbox() && !s.IsTool())
  {
  }

  lemma BuildsOf(r: Reads, s: Step)
    requires r.id == Some(s.id) && r.kind == Some(Str(s.Kind()))
    ensures Build(r) == Some(s) <==> ReadsAs(r, s)
  {
    KindDispatch(s);
    if s.IsSandbox() {
      SandboxBuilds(r, s);
    } else if s.IsTool() {
      ToolBuilds(r, s);
    } else {
      CoreBuilds(r, s);
    }
  }

  /** A step that is built has the id and kind that were read. */
  lemma BuiltIdAndKind(r: Reads, s: Step)
    requires Build(r) == Some(s)
    ensures r.id == Some(s.id) && r.kind == Some(Str(s.Kind()))
  {
  }

  /** Exactly when a step is built from what was read. */
  lemma Builds(r: Reads, s: Step)
    ensures Build(r) == Some(s) <==> ReadsAs(r, s)
  {
    if Build(r) == Some(s) { BuiltIdAndKind(r, s); }
    if r.id == Some(s.id) && r.kind == Some(Str(s.Kind())) { BuildsOf(r, s); }
  }

  lemma CoreReads(nfc: Normalizer, s: Step)
    requires !s.IsSandbox() && !s.IsTool() && IsCanonStep(nfc, s)
    ensures ReadsAs(Read(nfc, s.Fields()), s)
  {
    var ms := s.Fields();
    FieldsDistinct(s);
    FieldKeys(s);
    IdAndKindRead(nfc, s);
    match s
    case Set(_, _, _) => TextAt(nfc, ms, 2, 256); TextAt(nfc, ms, 3, 4096);
    case Increment(_, _, _) => TextAt(nfc, ms, 2, 256); FieldAt(ms, 3);
    case AppendLog(_, _) => TextAt(nfc, ms, 2, 4096);
  }

  lemma SandboxReads(nfc: Normalizer, s: Step)
    requires s.IsSandbox() && IsCanonStep(nfc, s)
    ensures ReadsAs(Read(nfc, s.Fields()), s)
  {
    var ms := s.Fields();
    FieldsDistinct(s);
    FieldKeys(s);
    IdAndKindRead(nfc, s);
    TextAt(nfc, ms, 2, 256);
    match s
    case SandboxOpen(_, _, _) => TextAt(nfc, ms, 3, 2048);
    case SandboxClick(_, _, _) => TextAt(nfc, ms, 3, 512);
    case SandboxType(_, _, _, _) => TextAt(nfc, ms, 3, 512); TextAt(nfc, ms, 4, 4096);
    case SandboxExtract(_, _, _, _) => TextAt(nfc, ms, 3, 512); TextAt(nfc, ms, 4, 256);
  }

  lemma ToolReads(nfc: Normalizer, s: Step)
    requires s.IsTool() && IsCanonStep(nfc, s)
    ensures ReadsAs(Read(nfc, s.Fields()), s)
  {
    var ms := s.Fields();
    FieldsDistinct(s);
    FieldKeys(s);
    IdAndKindRead(nfc, s);
    TextAt(nfc, ms, 2, 256);
    TextAt(nfc, ms, 3, 256);
    FieldAt(ms, 4);
    if s.ToolLoop? { FieldAt(ms, 5); }
  }

  lemma StepReadsBack(nfc: Normalizer, s: Step)
    requires IsCanonStep(nfc, s)
    ensures NormStep(nfc, Obj(s.Fields())) == Some(s)
  {
    if s.IsSandbox() {
      SandboxReads(nfc, s);
    } else if s.IsTool() {
      ToolReads(nfc, s);
    } else {
      CoreReads(nfc, s);
    }
    Builds(Read(nfc, s.Fields()), s);
  }

  /** What every plan `canonicalizePlan` returns satisfies. */
  ghost predicate IsCanonPlan(nfc: Normalizer, p: Plan) {
    && IsNorm(nfc, p.planId, 256)
    && (forall i | 0 <= i < |p.steps| :: IsCanonStep(nfc, p.steps[i]))
    && Ordered(StepLeq, p.steps) && Distinct(Ids(p.steps))
  }

  lemma CanonicalizeIsCanon(nfc: Normalizer, raw: seq<Entry<Json>>)
    requires NfcLaws(nfc) && Canonicalize(nfc, raw).Some?
    ensures IsCanonPlan(nfc, Canonicalize(nfc, raw).value)
  {
    var (planId, items) := PlanHeader(nfc, raw).value;
    NormTextIsNorm(nfc, Field(raw, "planId"), 256);
    var steps := NormAll(nfc, items).value;
    var sorted := Sort(StepLeq, steps);
    SortKeepsElements(StepLeq, steps);
    SameElements(sorted, steps);
    forall i | 0 <= i < |sorted| ensures IsCanonStep(nfc, sorted[i]) {
      assert sorted[i] in steps;
      var j :| 0 <= j < |steps| && steps[j] == sorted[i];
      NormStepIsCanon(nfc, items[j]);
    }
    StepLeqTotal();
    SortOrdered(StepLeq, steps);
  }

  lemma PlanHeaderOf(nfc: Normalizer, p: Plan)
    requires IsNorm(nfc, p.planId, 256)
    ensures PlanHeader(nfc, PlanFields(p)) == Some((p.planId, StepsJson(p.steps)))
  {
    var ms := PlanFields(p);
    FieldAt(ms, 0);
    FieldAt(ms, 1);
    FieldAt(ms, 2);
    assert ms[0].key == "planId" && ms[1].key == "version" && ms[2].key == "steps";
  }

  lemma StepsReadBack(nfc: Normalizer, steps: seq<Step>)
    requires forall i | 0 <= i < |steps| :: IsCanonStep(nfc, steps[i])
    ensures NormAll(nfc, StepsJson(steps)) == Some(steps)
  {
    var items := StepsJson(steps);
    forall i | 0 <= i < |items| ensures NormStep(nfc, items[i]) == Some(steps[i]) {
      StepReadsBack(nfc, steps[i]);
    }
    var r := NormAll(nfc, items);
    assert r.value == steps;
  }

  /** A canonical plan, written out and canonicalized again, is itself. */
  lemma CanonPlanIsFixed(nfc: Normalizer, p: Plan)
    requires IsCanonPlan(nfc, p)
    ensures Canonicalize(nfc, PlanFields(p)) == Some(p)
  {
    PlanHeaderOf(nfc, p);
    StepsReadBack(nfc, p.steps);
    SortOfOrdered(StepLeq, p.steps);
  }

  lemma CanonicalizeIdempotent(nfc: Normalizer, raw: seq<Entry<Json>>)
    requires NfcLaws(nfc) && Canonicalize(nfc, raw).Some?
    ensures Canonicalize(nfc, PlanFields(Canonicalize(nfc, raw).value)) == Canonicalize(nfc, raw)
  {
    CanonicalizeIsCanon(nfc, raw);
    CanonPlanIsFixed(nfc, Canonicalize(nfc, raw).value);
  }
}
