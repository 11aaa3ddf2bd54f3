/**
 * The static policy check of a raw plan (src/agent/policies.ts): the issue codes it reports, and
 * the declarative rule for when it reports none. Every value of the model is JSON, so
 * `isJsonValue` only refuses an absent input.
 */
module Policies {
  import opened Common
  import opened Sorting
  import opened JsStrings
  import opened Records
  import opened Json
  import opened PlanTypes
  import opened CanonicalPlan
  import opened PlanPermutation
  import opened PlanIdempotence

  datatype Check = NonBlank | HttpUrl | IsText | IsInteger | IsPresent | IsPositive

  /** One check of `validateStep`: the field, what it must be, and the code reported otherwise. */
  datatype Requirement = Requirement(field: string, check: Check, code: string)

  predicate IsNonBlank(v: Option<Json>) {
    v.Some? && v.value.Str? && Trim(v.value.s) != ""
  }

  predicate Passes(c: Check, v: Option<Json>) {
    match c
    case NonBlank => IsNonBlank(v)
    case HttpUrl => IsNonBlank(v) && ("http://" <= v.value.s || "https://" <= v.value.s)
    case IsText => v.Some? && v.value.Str?
    case IsInteger => v.Some? && v.value.Num?
    case IsPresent => v.Some?
    case IsPositive => v.Some? && v.value.Num? && 0 < v.value.n <= MAX_SAFE
  }

  const ID_RULE := Requirement("id", NonBlank, "INVALID_STEP_ID")

  datatype StepKind = KSet | KIncrement | KAppendLog | KOpen | KClick | KType | KExtract | KCall | KLoop | KOther

  function ParseKind(text: string): StepKind {
    if text == "set" then KSet
    else if text == "increment" then KIncrement
    else if text == "append_log" then KAppendLog
    else if text == "sandbox.open" then KOpen
    else if text == "sandbox.click" then KClick
    else if text == "sandbox.type" then KType
    else if text == "sandbox.extract" then KExtract
    else if text == "tool.call" then KCall
    else if text == "tool.loop" then KLoop
    else KOther
  }

  /** The checks `validateStep` makes for each kind, in order. */
  function Requirements(kind: StepKind): seq<Requirement> {
    match kind
    case KSet => [Requirement("key", NonBlank, "INVALID_STEP_KEY"), Requirement("value", IsText, "INVALID_STEP_VALUE")]
    case KIncrement =>
      [Requirement("key", NonBlank, "INVALID_STEP_KEY"), Requirement("value", IsInteger, "INVALID_STEP_VALUE")]
    case KAppendLog => [Requirement("value", IsText, "INVALID_STEP_VALUE")]
    case KOpen =>
      [Requirement("sessionId", NonBlank, "INVALID_SANDBOX_SESSION"), Requirement("url", HttpUrl, "INVALID_SANDBOX_URL")]
    case KClick => SELECTOR_RULES
    case KType => SELECTOR_RULES + [Requirement("text", NonBlank, "INVALID_SANDBOX_TEXT")]
    case KExtract => SELECTOR_RULES + [Requirement("outputKey", NonBlank, "INVALID_SANDBOX_OUTPUT_KEY")]
    case KCall => TOOL_RULES
    case KLoop => TOOL_RULES + [Requirement("maxIterations", IsPositive, "INVALID_TOOL_MAX_ITER")]
    case KOther => []
  }

  const SELECTOR_RULES := [
    Requirement("sessionId", NonBlank, "INVALID_SANDBOX_SESSION"),
    Requirement("selector", NonBlank, "INVALID_SANDBOX_SELECTOR")]

  const TOOL_RULES := [
    Requirement("toolId", NonBlank, "INVALID_TOOL_ID"),
    Requirement("outputKey", NonBlank, "INVALID_TOOL_OUTPUT_KEY"),
    Requirement("input", IsPresent, "INVALID_TOOL_INPUT")]

  /** The step's fields; a value that is not an object has none. */
  function MembersOf(step: Json): seq<Entry<Json>> {
    if step.Obj? then step.members else []
  }

  function KindOf(ms: seq<Entry<Json>>): StepKind {
    var kind := Field(ms, "kind");
    if kind.Some? && kind.value.Str? then ParseKind(kind.value.s) else KOther
  }

  function Failures(ms: seq<Entry<Json>>, rules: seq<Requirement>): seq<string> {
    if rules == [] then []
    else
      (if Passes(rules[0].check, Field(ms, rules[0].field)) then [] else [rules[0].code]) + Failures(ms, rules[1..])
  }

  /** `validateStep`. */
  function StepIssues(step: Json): seq<string> {
    var ms := MembersOf(step);
    Failures(ms, [ID_RULE] + Requirements(KindOf(ms)))
  }

  predicate Falsy(v: Json) {
    v == Null || v == Bool(false) || v == Num(0) || v == Str("")
  }

  /** One turn of the loop over the steps: the issues it reports and the ids seen after it. */
  function Visit(step: Json, seen: set<string>): (seq<string>, set<string>) {
    if Falsy(step) then (["UNDEFINED_STEP"], seen)
    else
      var id := Field(MembersOf(step), "id");
      if !IsNonBlank(id) then (StepIssues(step), seen)
      else if id.value.s in seen then (StepIssues(step) + ["DUPLICATE_STEP_ID"], seen + {id.value.s})
      else (StepIssues(step), seen + {id.value.s})
  }

  /** The issues of the steps, given the ids seen before them. */
  function StepsIssues(items: seq<Json>, seen: set<string>): seq<string> {
    if items == [] then []
    else Visit(items[0], seen).0 + StepsIssues(items[1..], Visit(items[0], seen).1)
  }

  /** Visiting one more step: what the loop has reported and what is left to report add up. */
  lemma VisitNext(issues: seq<string>, items: seq<Json>, i: nat, seen: set<string>)
    requires i < |items|
    ensures issues + StepsIssues(items[i..], seen)
         == issues + Visit(items[i], seen).0 + StepsIssues(items[i + 1..], Visit(items[i], seen).1)
  {
    assert items[i..][0] == items[i] && items[i..][1..] == items[i + 1..];
  }

  function HeaderIssues(raw: seq<Entry<Json>>): seq<string> {
    var steps := Field(raw, "steps");
    (if IsNonBlank(Field(raw, "planId")) then [] else ["INVALID_PLAN_ID"])
    + (if Field(raw, "version") == Some(Num(1)) then [] else ["UNSUPPORTED_PLAN_VERSION"])
    + (if steps.Some? && steps.value.Arr? && steps.value.items != [] then [] else ["EMPTY_PLAN"])
  }

  function Items(raw: seq<Entry<Json>>): seq<Json> {
    var steps := Field(raw, "steps");
    if steps.Some? && steps.value.Arr? then steps.value.items else []
  }

  /** `steps.length` throws when there is nothing to take the length of. */
  predicate Throws(raw: seq<Entry<Json>>) {
    Field(raw, "steps").None? || Field(raw, "steps").value == Null
  }

  /** All issue codes in the order `validatePlan` pushes them; `None` when it throws. */
  function PlanIssues(raw: seq<Entry<Json>>): Option<seq<string>> {
    if Throws(raw) then None else Some(HeaderIssues(raw) + StepsIssues(Items(raw), {}))
  }

  method ValidatePlan(raw: seq<Entry<Json>>) returns (r: Option<seq<string>>)
    ensures r == PlanIssues(raw)
  {
    var header := HeaderIssues(raw);
    if Throws(raw) {
      return None;
    }
    var issues := ValidateSteps(header, Items(raw));
    return Some(issues);
  }

  /** The loop over the steps, pushing to the issues already found. */
  method ValidateSteps(found: seq<string>, items: seq<Json>) returns (issues: seq<string>)
    ensures issues == found + StepsIssues(items, {})
  {
    issues := found;
    var seenIds: set<string> := {};
    var i := 0;
    while i < |items|
      invariant 0 <= i <= |items|
      invariant issues + StepsIssues(items[i..], seenIds) == found + StepsIssues(items, {})
    {
      VisitNext(issues, items, i, seenIds);
      ghost var before := issues;
      var step := items[i];
      if Falsy(step) {
        issues := issues + ["UNDEFINED_STEP"];
      } else {
        var stepIssues := StepIssues(step);
        issues := issues + stepIssues;
        var id := Field(MembersOf(step), "id");
        if IsNonBlank(id) {
          if id.value.s in seenIds {
            assert issues + ["DUPLICATE_STEP_ID"] == before + (stepIssues + ["DUPLICATE_STEP_ID"]);
            issues := issues + ["DUPLICATE_STEP_ID"];
          }
          seenIds := seenIds + {id.value.s};
        }
      }
      i := i + 1;
    }
  }

  // ---- when a plan is accepted -----------------------------------------------------------

  predicate MeetsAll(ms: seq<Entry<Json>>, rules: seq<Requirement>) {
    forall i | 0 <= i < |rules| :: Passes(rules[i].check, Field(ms, rules[i].field))
  }

  predicate StepAccepted(step: Json) {
    && step.Obj? && IsNonBlank(Field(step.members, "id"))
    && MeetsAll(step.members, Requirements(KindOf(step.members)))
  }

  function RawId(step: Json): string {
    var id := Field(MembersOf(step), "id");
    if IsNonBlank(id) then id.value.s else ""
  }

  /** The plans without an issue: named, version 1, at least one step, every step as its kind wants, ids distinct. */
  predicate Accepts(raw: seq<Entry<Json>>) {
    && IsNonBlank(Field(raw, "planId")) && Field(raw, "version") == Some(Num(1))
    && Items(raw) != [] && StepsAccepted(Items(raw))
  }

  predicate StepsAccepted(items: seq<Json>) {
    (forall i | 0 <= i < |items| :: StepAccepted(items[i])) && Distinct(MapSeq(RawId, items))
  }

  lemma {:induction false} FailuresIff(ms: seq<Entry<Json>>, rules: seq<Requirement>)
    ensures Failures(ms, rules) == [] <==> MeetsAll(ms, rules)
  {
    if rules != [] {
      FailuresIff(ms, rules[1..]);
      assert rules == [rules[0]] + rules[1..];
    }
  }

  lemma StepIssuesIff(step: Json)
    requires !Falsy(step)
    ensures StepIssues(step) == [] <==> StepAccepted(step)
  {
    var ms := MembersOf(step);
    var rules := [ID_RULE] + Requirements(KindOf(ms));
    FailuresIff(ms, rules);
    assert rules[0] == ID_RULE && rules[1..] == Requirements(KindOf(ms));
    if MeetsAll(ms, rules) {
      forall i | 0 <= i < |rules| - 1 ensures Passes(rules[1..][i].check, Field(ms, rules[1..][i].field)) {
        assert rules[i + 1] == rules[1..][i];
      }
    }
  }

  /** No two ids repeat, and none was seen before. */
  ghost predicate NewIds(items: seq<Json>, seen: set<string>) {
    && Distinct(MapSeq(RawId, items))
    && forall i | 0 <= i < |items| :: RawId(items[i]) !in seen
  }

  lemma NewIdsTail(items: seq<Json>, seen: set<string>)
    requires items != [] && NewIds(items, seen)
    ensures RawId(items[0]) !in seen && NewIds(items[1..], seen + {RawId(items[0])})
  {
    var ids, rest := MapSeq(RawId, items), MapSeq(RawId, items[1..]);
    assert forall i | 0 <= i < |rest| :: rest[i] == ids[i + 1];
    forall i | 0 <= i < |rest| ensures RawId(items[1..][i]) !in seen + {RawId(items[0])} {
      assert items[1..][i] == items[i + 1] && ids[0] != ids[i + 1];
    }
    forall i, j | 0 <= i < j < |rest| ensures rest[i] != rest[j] { assert ids[i + 1] != ids[j + 1]; }
  }

  lemma NewIdsCons(items: seq<Json>, seen: set<string>)
    requires items != [] && RawId(items[0]) !in seen && NewIds(items[1..], seen + {RawId(items[0])})
    ensures NewIds(items, seen)
  {
    var ids, rest := MapSeq(RawId, items), MapSeq(RawId, items[1..]);
    forall i | 0 <= i < |items| ensures RawId(items[i]) !in seen {
      if i > 0 { assert items[i] == items[1..][i - 1]; }
    }
    forall i, j | 0 <= i < j < |ids| ensures ids[i] != ids[j] {
      assert ids[j] == RawId(items[1..][j - 1]);
      if i > 0 { assert rest[i - 1] != rest[j - 1]; }
    }
  }

  lemma NewIdsStep(items: seq<Json>, seen: set<string>)
    requires items != []
    ensures NewIds(items, seen) <==> RawId(items[0]) !in seen && NewIds(items[1..], seen + {RawId(items[0])})
  {
    if NewIds(items, seen) { NewIdsTail(items, seen); }
    if RawId(items[0]) !in seen && NewIds(items[1..], seen + {RawId(items[0])}) { NewIdsCons(items, seen); }
  }

  lemma {:induction false} StepsIssuesIff(items: seq<Json>, seen: set<string>)
    ensures StepsIssues(items, seen) == []
      <==> (forall i | 0 <= i < |items| :: StepAccepted(items[i])) && NewIds(items, seen)
  {
    if items != [] {
      assert items == [items[0]] + items[1..];
      if Falsy(items[0]) {
        assert !StepAccepted(items[0]);
      } else {
        StepIssuesIff(items[0]);
        if StepAccepted(items[0]) {
          StepsIssuesIff(items[1..], seen + {RawId(items[0])});
          NewIdsStep(items, seen);
        }
      }
    }
  }

  /** `validatePlan` reports no issue exactly for the accepted plans. */
  lemma AcceptedIff(raw: seq<Entry<Json>>)
    ensures PlanIssues(raw) == Some([]) <==> Accepts(raw)
  {
    StepsIssuesIff(Items(raw), {});
  }

  // ---- acceptance forgets the order of steps and keys ------------------------------------

  /** The checks only look at whether a field is there and at its text or number. */
  lemma PassesOfSame(ms: seq<Entry<Json>>, ns: seq<Entry<Json>>, k: string, c: Check)
    requires WellFormed(Obj(ms)) && WellFormed(Obj(ns)) && Same(Obj(ms), Obj(ns))
    ensures Passes(c, Field(ms, k)) == Passes(c, Field(ns, k))
    ensures IsNonBlank(Field(ms, k)) ==> Field(ms, k) == Field(ns, k)
    ensures Field(ms, k).Some? && Field(ms, k).value.Str? ==> Field(ns, k) == Field(ms, k)
    ensures Field(ns, k).Some? && Field(ns, k).value.Str? ==> Field(ns, k) == Field(ms, k)
  {
    HasIffKey(ms, k);
    HasIffKey(ns, k);
    if Has(ms, k) {
      var i :| 0 <= i < |ms| && ms[i] == Entry(k, Get(ms, k));
      var j :| 0 <= j < |ns| && ns[j] == Entry(k, Get(ns, k));
      assert Same(ms[i].value, ns[j].value);
    }
  }

  lemma StepAcceptedOfSame(a: Json, b: Json)
    requires WellFormed(a) && WellFormed(b) && Same(a, b)
    ensures StepAccepted(a) == StepAccepted(b) && RawId(a) == RawId(b)
  {
    if a.Obj? {
      var ms, ns := a.members, b.members;
      PassesOfSame(ms, ns, "id", NonBlank);
      PassesOfSame(ms, ns, "kind", IsText);
      var rules := Requirements(KindOf(ms));
      forall i | 0 <= i < |rules|
        ensures Passes(rules[i].check, Field(ms, rules[i].field)) == Passes(rules[i].check, Field(ns, rules[i].field))
      {
        PassesOfSame(ms, ns, rules[i].field, rules[i].check);
      }
    }
  }

  lemma StepsAcceptedOfSorted(items: seq<Json>)
    requires WellFormed(Arr(items))
    ensures StepsAccepted(items) == StepsAccepted(SortKeysItems(items))
  {
    var zs := SortKeysItems(items);
    forall i | 0 <= i < |items| ensures StepAccepted(items[i]) == StepAccepted(zs[i]) && RawId(items[i]) == RawId(zs[i]) {
      SameAsSorted(items[i]);
      StepAcceptedOfSame(items[i], zs[i]);
    }
    assert MapSeq(RawId, items) == MapSeq(RawId, zs);
  }

  lemma StepsAcceptedOfPermutation(a: seq<Json>, b: seq<Json>)
    requires multiset(a) == multiset(b)
    ensures StepsAccepted(a) == StepsAccepted(b)
  {
    SameElements(a, b);
    MapPermutation(RawId, a, b);
    DistinctOfPermutation(MapSeq(RawId, a), MapSeq(RawId, b));
    if StepsAccepted(a) { AllOfPermutation(a, b); }
    if StepsAccepted(b) { AllOfPermutation(b, a); }
  }

  lemma AllOfPermutation(a: seq<Json>, b: seq<Json>)
    requires forall x :: x in b ==> x in a
    requires forall i | 0 <= i < |a| :: StepAccepted(a[i])
    ensures forall i | 0 <= i < |b| :: StepAccepted(b[i])
  {
    forall i | 0 <= i < |b| ensures StepAccepted(b[i]) {
      assert b[i] in a;
    }
  }

  lemma StepsAcceptedOfSame(xs: seq<Json>, ys: seq<Json>)
    requires WellFormed(Arr(xs)) && WellFormed(Arr(ys))
    requires multiset(SortKeysItems(xs)) == multiset(SortKeysItems(ys))
    ensures StepsAccepted(xs) == StepsAccepted(ys)
  {
    var a, b := StepsAccepted(xs), StepsAccepted(ys);
    assert a == StepsAccepted(SortKeysItems(xs)) by { StepsAcceptedOfSorted(xs); }
    assert b == StepsAccepted(SortKeysItems(ys)) by { StepsAcceptedOfSorted(ys); }
    assert StepsAccepted(SortKeysItems(xs)) == StepsAccepted(SortKeysItems(ys)) by {
      StepsAcceptedOfPermutation(SortKeysItems(xs), SortKeysItems(ys));
    }
  }

  /** Whether a plan passes the policies does not depend on step order or key order. */
  lemma AcceptsOfSamePlan(a: seq<Entry<Json>>, b: seq<Entry<Json>>)
    requires WellFormed(Obj(a)) && WellFormed(Obj(b)) && SamePlan(a, b)
    ensures Accepts(a) == Accepts(b) && Throws(a) == Throws(b)
  {
    StepsWellFormed(a);
    StepsWellFormed(b);
    StepsAcceptedOfSame(Items(a), Items(b));
    SameElements(SortKeysItems(Items(a)), SortKeysItems(Items(b)));
  }

  // ---- canonical plans are accepted ------------------------------------------------------

  lemma NormNotBlank(nfc: Normalizer, t: string, maxLen: nat)
    requires IsNorm(nfc, t, maxLen)
    ensures Trim(t) == t != ""
  {
    TrimIsTrimmed(nfc(t));
    TrimOfTrimmed(t);
  }

  lemma NonBlankAt(nfc: Normalizer, ms: seq<Entry<Json>>, i: nat, maxLen: nat)
    requires DistinctKeys(ms) && i < |ms| && ms[i].value.Str? && IsNorm(nfc, ms[i].value.s, maxLen)
    ensures Field(ms, ms[i].key) == Some(ms[i].value) && IsNonBlank(Field(ms, ms[i].key))
  {
    FieldAt(ms, i);
    NormNotBlank(nfc, ms[i].value.s, maxLen);
  }

  function TagOf(s: Step): StepKind {
    match s
    case Set(_, _, _) => KSet
    case Increment(_, _, _) => KIncrement
    case AppendLog(_, _) => KAppendLog
    case SandboxOpen(_, _, _) => KOpen
    case SandboxClick(_, _, _) => KClick
    case SandboxType(_, _, _, _) => KType
    case SandboxExtract(_, _, _, _) => KExtract
    case ToolCall(_, _, _, _) => KCall
    case ToolLoop(_, _, _, _, _) => KLoop
  }

  lemma KindParses(s: Step)
    ensures ParseKind(s.Kind()) == TagOf(s)
  {
  }

  /** The fields of a canonical step that the policies look at pass them. */
  lemma CoreAccepted(nfc: Normalizer, s: Step)
    requires IsCanonStep(nfc, s) && !s.IsSandbox() && !s.IsTool()
    ensures MeetsAll(s.Fields(), Requirements(TagOf(s)))
  {
    match s
    case Set(id, key, value) => SetAccepted(nfc, id, key, value);
    case Increment(id, key, delta) => IncrementAccepted(nfc, id, key, delta);
    case AppendLog(id, value) =>
      FieldsDistinct(s);
      FieldAt(s.Fields(), 2);
  }

  lemma SetAccepted(nfc: Normalizer, id: string, key: string, value: string)
    requires IsNorm(nfc, key, 256)
    ensures MeetsAll(Set(id, key, value).Fields(), Requirements(KSet))
  {
    var ms := Set(id, key, value).Fields();
    FieldsDistinct(Set(id, key, value));
    NonBlankAt(nfc, ms, 2, 256);
    FieldAt(ms, 3);
  }

  lemma IncrementAccepted(nfc: Normalizer, id: string, key: string, delta: int)
    requires IsNorm(nfc, key, 256)
    ensures MeetsAll(Increment(id, key, delta).Fields(), Requirements(KIncrement))
  {
    var ms := Increment(id, key, delta).Fields();
    FieldsDistinct(Increment(id, key, delta));
    NonBlankAt(nfc, ms, 2, 256);
    FieldAt(ms, 3);
  }

  lemma OpenAccepted(nfc: Normalizer, id: string, session: string, url: string)
    requires IsNorm(nfc, session, 256) && IsNorm(nfc, url, 2048) && ("http://" <= url || "https://" <= url)
    ensures MeetsAll(SandboxOpen(id, session, url).Fields(), Requirements(KOpen))
  {
    var ms := SandboxOpen(id, session, url).Fields();
    FieldsDistinct(SandboxOpen(id, session, url));
    NonBlankAt(nfc, ms, 2, 256);
    NonBlankAt(nfc, ms, 3, 2048);
  }

  /** The session and selector checks, for any record that lists the two fields third and fourth. */
  lemma SelectorAccepted(nfc: Normalizer, ms: seq<Entry<Json>>)
    requires DistinctKeys(ms) && |ms| >= 4 && ms[2].key == "sessionId" && ms[3].key == "selector"
    requires ms[2].value.Str? && IsNorm(nfc, ms[2].value.s, 256)
    requires ms[3].value.Str? && IsNorm(nfc, ms[3].value.s, 512)
    ensures MeetsAll(ms, SELECTOR_RULES)
  {
    NonBlankAt(nfc, ms, 2, 256);
    NonBlankAt(nfc, ms, 3, 512);
  }

  lemma MeetsOneMore(ms: seq<Entry<Json>>, rules: seq<Requirement>, last: Requirement)
    requires MeetsAll(ms, rules) && Passes(last.check, Field(ms, last.field))
    ensures MeetsAll(ms, rules + [last])
  {
  }

  lemma TypeAccepted(nfc: Normalizer, s: Step)
    requires s.SandboxType? && IsCanonStep(nfc, s)
    ensures MeetsAll(s.Fields(), Requirements(KType))
  {
    var ms := s.Fields();
    FieldsDistinct(s);
    SelectorAccepted(nfc, ms);
    assert ms[4] == Entry("text", Str(s.text));
    NonBlankAt(nfc, ms, 4, 4096);
    MeetsOneMore(ms, SELECTOR_RULES, Requirement("text", NonBlank, "INVALID_SANDBOX_TEXT"));
  }

  lemma ExtractAccepted(nfc: Normalizer, s: Step)
    requires s.SandboxExtract? && IsCanonStep(nfc, s)
    ensures MeetsAll(s.Fields(), Requirements(KExtract))
  {
    var ms := s.Fields();
    FieldsDistinct(s);
    SelectorAccepted(nfc, ms);
    assert ms[4] == Entry("outputKey", Str(s.outputKey));
    NonBlankAt(nfc, ms, 4, 256);
    MeetsOneMore(ms, SELECTOR_RULES, Requirement("outputKey", NonBlank, "INVALID_SANDBOX_OUTPUT_KEY"));
  }

  lemma ClickAccepted(nfc: Normalizer, s: Step)
    requires s.SandboxClick? && IsCanonStep(nfc, s)
    ensures MeetsAll(s.Fields(), Requirements(KClick))
  {
    FieldsDistinct(s);
    SelectorAccepted(nfc, s.Fields());
  }

  lemma SandboxAccepted(nfc: Normalizer, s: Step)
    requires IsCanonStep(nfc, s) && s.IsSandbox()
    ensures MeetsAll(s.Fields(), Requirements(TagOf(s)))
  {
    match s
    case SandboxOpen(id, session, url) => OpenAccepted(nfc, id, session, url);
    case SandboxClick(_, _, _) => ClickAccepted(nfc, s);
    case SandboxType(_, _, _, _) => TypeAccepted(nfc, s);
    case SandboxExtract(_, _, _, _) => ExtractAccepted(nfc, s);
  }

  lemma ToolFieldsAccepted(nfc: Normalizer, ms: seq<Entry<Json>>)
    requires DistinctKeys(ms) && |ms| >= 5 && ms[2].key == "toolId" && ms[3].key == "outputKey" && ms[4].key == "input"
    requires ms[2].value.Str? && IsNorm(nfc, ms[2].value.s, 256)
    requires ms[3].value.Str? && IsNorm(nfc, ms[3].value.s, 256)
    ensures MeetsAll(ms, TOOL_RULES)
  {
    NonBlankAt(nfc, ms, 2, 256);
    NonBlankAt(nfc, ms, 3, 256);
    FieldAt(ms, 4);
  }

  lemma CallAccepted(nfc: Normalizer, s: Step)
    requires s.ToolCall? && IsCanonStep(nfc, s)
    ensures MeetsAll(s.Fields(), Requirements(KCall))
  {
    FieldsDistinct(s);
    ToolFieldsAccepted(nfc, s.Fields());
  }

  lemma LoopAccepted(nfc: Normalizer, s: Step)
    requires s.ToolLoop? && IsCanonStep(nfc, s) && s.maxIterations > 0
    ensures MeetsAll(s.Fields(), Requirements(KLoop))
  {
    var ms := s.Fields();
    FieldsDistinct(s);
    ToolFieldsAccepted(nfc, ms);
    assert ms[5] == Entry("maxIterations", Num(s.maxIterations));
    FieldAt(ms, 5);
    MeetsOneMore(ms, TOOL_RULES, Requirement("maxIterations", IsPositive, "INVALID_TOOL_MAX_ITER"));
  }

  lemma CanonStepAccepted(nfc: Normalizer, s: Step)
    requires IsCanonStep(nfc, s) && (s.ToolLoop? ==> s.maxIterations > 0)
    ensures StepAccepted(Obj(s.Fields())) && RawId(Obj(s.Fields())) == s.id
  {
    var ms := s.Fields();
    FieldsDistinct(s);
    NonBlankAt(nfc, ms, 0, 256);
    FieldAt(ms, 1);
    KindParses(s);
    if s.IsSandbox() {
      SandboxAccepted(nfc, s);
    } else if s.IsTool() {
      if s.ToolCall? { CallAccepted(nfc, s); } else { LoopAccepted(nfc, s); }
    } else {
      CoreAccepted(nfc, s);
    }
  }

  lemma LoopRules(ms: seq<Entry<Json>>)
    requires MeetsAll(ms, Requirements(KLoop))
    ensures Passes(IsPositive, Field(ms, "maxIterations"))
  {
    var rules := Requirements(KLoop);
    assert Passes(rules[3].check, Field(ms, rules[3].field));
  }

  /** The policies already checked that a loop step may run at least once. */
  lemma LoopBudget(nfc: Normalizer, raw: Json)
    requires StepAccepted(raw) && NormStep(nfc, raw).Some? && NormStep(nfc, raw).value.ToolLoop?
    ensures NormStep(nfc, raw).value.maxIterations > 0
  {
    LoopRead(Read(nfc, raw.members));
    LoopRules(raw.members);
  }

  lemma LoopRead(r: Reads)
    requires Build(r).Some? && Build(r).value.ToolLoop?
    ensures r.kind == Some(Str("tool.loop")) && r.maxIterations == Some(Build(r).value.maxIterations)
  {
  }

  ghost predicate LoopsMayRun(steps: seq<Step>) {
    forall i | 0 <= i < |steps| :: steps[i].ToolLoop? ==> steps[i].maxIterations > 0
  }

  lemma LoopsOfAccepted(nfc: Normalizer, raw: seq<Entry<Json>>)
    requires Accepts(raw) && Canonicalize(nfc, raw).Some?
    ensures LoopsMayRun(Canonicalize(nfc, raw).value.steps)
  {
    var items := PlanHeader(nfc, raw).value.1;
    var steps := NormAll(nfc, items).value;
    var sorted := Sort(StepLeq, steps);
    SortKeepsElements(StepLeq, steps);
    SameElements(sorted, steps);
    forall i | 0 <= i < |sorted| && sorted[i].ToolLoop? ensures sorted[i].maxIterations > 0 {
      assert sorted[i] in steps;
      var j :| 0 <= j < |steps| && steps[j] == sorted[i];
      LoopBudget(nfc, items[j]);
    }
  }

  /** The canonical form of an accepted plan is accepted. */
  lemma CanonicalFormAccepted(nfc: Normalizer, raw: seq<Entry<Json>>)
    requires NfcLaws(nfc) && Accepts(raw) && Canonicalize(nfc, raw).Some?
    ensures Accepts(PlanFields(Canonicalize(nfc, raw).value))
  {
    var p := Canonicalize(nfc, raw).value;
    CanonicalizeIsCanon(nfc, raw);
    LoopsOfAccepted(nfc, raw);
    CanonPlanAccepted(nfc, p);
  }

  lemma CanonPlanAccepted(nfc: Normalizer, p: Plan)
    requires IsCanonPlan(nfc, p) && p.steps != [] && LoopsMayRun(p.steps)
    ensures Accepts(PlanFields(p))
  {
    var ms := PlanFields(p);
    FieldAt(ms, 1);
    FieldAt(ms, 2);
    NonBlankAt(nfc, ms, 0, 256);
    var items := StepsJson(p.steps);
    forall i | 0 <= i < |items| ensures StepAccepted(items[i]) && RawId(items[i]) == p.steps[i].id {
      CanonStepAccepted(nfc, p.steps[i]);
    }
    assert MapSeq(RawId, items) == Ids(p.steps);
    assert Items(ms) == items;
  }
}
