/**
 * What becomes of a plan built from capabilities (src/agent-run/capability-pipeline.ts) once it is
 * canonicalized and run: normalization leaves its ids, keys and references alone, so every reference
 * still points back to its producer, and no step misses the value it refers to.
 */
module CapabilityRuns {
  import opened Common
  import opened Sorting
  import opened JsStrings
  import opened Records
  import opened Json
  import opened PlanTypes
  import opened CanonicalPlan
  import opened PlanPermutation
  import opened PlanIdempotence
  import opened StepDependencies
  import opened StepBinding
  import opened CapabilityRules
  import opened CapabilityPipeline
  import opened MockAdapter
  import DependencySoundness
  import Executor

  // ---- the shape of built steps ----------------------------------------------------------

  /** What later steps refer to in the answer of a step. */
  function PathOf(c: Capability): string {
    if c.TextNormalize? then "text" else "value"
  }

  /** A reference the builder makes: to the text or the value of an earlier step. */
  predicate IsMadeOf(v: Json, c: Capability) {
    (c.TextNormalize? || c.JsonExtract? || c.JsonSelect?) && v == Made(c, PathOf(c))
  }

  ghost predicate IsMade(v: Json) {
    exists c :: IsMadeOf(v, c)
  }

  /** The fields of a built input: plain values and references, under other keys than a reference's. */
  ghost predicate PlainInput(ms: seq<Entry<Json>>) {
    forall i | 0 <= i < |ms| ::
      (NoRefs(ms[i].value) || IsMade(ms[i].value)) && ms[i].key != "$ref" && ms[i].key != "__valueFromState"
  }

  predicate IsCallOf(step: Step, c: Capability) {
    step.ToolCall? && step.outputKey == OutKey(c) && step.toolId == ToolId(c)
  }

  /** The goal or the intent, a log, or the call of a capability on a plain input. */
  ghost predicate PlainStep(step: Step) {
    || (step.Set? && (step.key == "goal" || step.key == "intent")) || step.AppendLog?
    || ((exists c :: IsCallOf(step, c)) && step.input.Obj? && PlainInput(step.input.members))
  }

  ghost predicate AllPlain(steps: seq<Step>) {
    forall i | 0 <= i < |steps| :: PlainStep(steps[i])
  }

  ghost predicate PlainBuilder(b: Builder, s: set<Capability>) {
    Good(b, s) && AllPlain(b.steps)
  }

  lemma BoundIsMade(b: Builder, s: set<Capability>)
    requires RefsFollow(b, s)
    ensures NoRefs(b.textRef) || IsMade(b.textRef)
    ensures b.objectRef.Some? ==> IsMade(b.objectRef.value)
  {
    if TextNormalize in s { assert IsMadeOf(b.textRef, TextNormalize); }
    if JsonSelect in s {
      assert IsMadeOf(b.objectRef.value, JsonSelect);
    } else if JsonExtract in s {
      assert IsMadeOf(b.objectRef.value, JsonExtract);
    }
  }

  lemma CallIsPlain(p: Params, c: Capability, b: Builder, s: set<Capability>)
    requires RefsFollow(b, s) && b.next < 26
    ensures PlainStep(Call(p, c, b))
  {
    BoundIsMade(b, s);
    var ms := Input(p, c, b);
    forall i | 0 <= i < |ms|
      ensures (NoRefs(ms[i].value) || IsMade(ms[i].value)) && ms[i].key != "$ref" && ms[i].key != "__valueFromState"
    {
      InputFields(p, c, b, i);
    }
    assert IsCallOf(Call(p, c, b), c);
  }

  lemma PushPlain(p: Params, c: Capability, b: Builder, s: set<Capability>)
    requires PlainBuilder(b, s) && Before(s, c) && b.next < 13
    ensures PlainBuilder(Push(p, c, b), s + {c}) && Push(p, c, b).next == b.next + 1
  {
    PushGood(p, c, b, s);
    CallIsPlain(p, c, b, s);
  }

  ghost function PlainInvariant(): (Builder, set<Capability>) -> bool {
    (b: Builder, s: set<Capability>) => PlainBuilder(b, s)
  }

  lemma BuildToolsPlain(p: Params, caps: seq<Capability>)
    ensures AllPlain(BuildTools(p, caps).steps)
  {
    StartHolds(p);
    if MathAdd in caps || (|caps| == 1 && caps[0] == Echo) {
      PushPlain(p, if MathAdd in caps then MathAdd else Echo, Start(p), {});
    } else {
      forall b, t, c ensures PushKeeps(Pushing(p), PlainInvariant(), b, t, c) {
        if PlainBuilder(b, t) && Before(t, c) && b.next < 13 { PushPlain(p, c, b, t); }
      }
      BuildKeeps(Pushing(p), PlainInvariant(), Start(p), CapSet(caps), PLACES);
    }
  }

  // ---- what normalization does to built inputs -------------------------------------------

  lemma MadeText(c: Capability)
    requires c.TextNormalize? || c.JsonExtract? || c.JsonSelect?
    ensures var t := RefText(OutKey(c), PathOf(c)); IsAscii(t) && Trimmed(t) && t != ""
  {
  }

  lemma CanonOfMade(nfc: Normalizer, v: Json)
    requires NfcLaws(nfc) && IsMade(v)
    ensures CanonOk(v) && CanonValue(nfc, v) == v
  {
    var c :| IsMadeOf(v, c);
    MadeText(c);
    NfcOfAscii(nfc, RefText(OutKey(c), PathOf(c)));
    TrimOfTrimmed(RefText(OutKey(c), PathOf(c)));
  }

  lemma CanonOfPlain(nfc: Normalizer, v: Json)
    requires NfcLaws(nfc) && NoRefs(v)
    ensures CanonOk(v) && NoRefs(CanonValue(nfc, v))
  {
    if v.Arr? {
      NfcOfAscii(nfc, "name");
      NfcOfAscii(nfc, "role");
      assert CanonItems(nfc, v.items) == v.items;
    }
  }

  /** A normalized field refers to what the field did. */
  lemma CanonField(nfc: Normalizer, v: Json)
    requires NfcLaws(nfc) && (NoRefs(v) || IsMade(v))
    ensures CanonOk(v) && (NoRefs(CanonValue(nfc, v)) || IsMade(CanonValue(nfc, v)))
    ensures CollectRefs(CanonValue(nfc, v)) == CollectRefs(v)
  {
    if NoRefs(v) {
      CanonOfPlain(nfc, v);
      NoRefsCollected(v);
      NoRefsCollected(CanonValue(nfc, v));
    } else {
      CanonOfMade(nfc, v);
    }
  }

  /** The fields of a normalized input, in whatever order they are sorted. */
  lemma CanonFieldAt(nfc: Normalizer, ms: seq<Entry<Json>>, i: nat) returns (k: nat)
    requires NfcLaws(nfc) && PlainInput(ms) && forall j | 0 <= j < |ms| :: CanonOk(ms[j].value)
    requires i < |SortByKey(CanonMembers(nfc, ms))|
    ensures k < |ms| && SortByKey(CanonMembers(nfc, ms))[i] == Entry(ms[k].key, CanonValue(nfc, ms[k].value))
  {
    var es := CanonMembers(nfc, ms);
    SortByKeyKeeps(es);
    assert SortByKey(es)[i] in es;
    k :| 0 <= k < |es| && es[k] == SortByKey(es)[i];
  }

  /** A normalized input refers to nothing the input did not refer to. */
  lemma CanonInputRefs(nfc: Normalizer, ms: seq<Entry<Json>>, r: Ref)
    requires NfcLaws(nfc) && PlainInput(ms) && CanonOk(Obj(ms)) && r in CollectRefs(CanonValue(nfc, Obj(ms)))
    ensures r in CollectRefs(Obj(ms))
  {
    var qs := SortByKey(CanonMembers(nfc, ms));
    if |qs| == 1 { var k := CanonFieldAt(nfc, ms, 0); }
    RefOfMember(qs, r);
    var i :| 0 <= i < |qs| && r in CollectRefs(qs[i].value);
    var k := CanonFieldAt(nfc, ms, i);
    CanonField(nfc, ms[k].value);
    MemberRefs(ms, k, r);
  }

  lemma MadeIsClean(v: Json)
    requires IsMade(v)
    ensures DependencySoundness.CleanRefs(v)
  {
    var c :| IsMadeOf(v, c);
    KeyHasNoDot(c);
    KeyIsClean(c);
    MadeParts(OutKey(c), PathOf(c));
  }

  lemma PlainIsClean(v: Json)
    requires NoRefs(v)
    ensures DependencySoundness.CleanRefs(v)
  {
  }

  lemma CanonInputPlain(nfc: Normalizer, ms: seq<Entry<Json>>)
    requires NfcLaws(nfc) && PlainInput(ms) && CanonOk(Obj(ms))
    ensures CanonValue(nfc, Obj(ms)).Obj? && PlainInput(CanonValue(nfc, Obj(ms)).members)
  {
    var qs := SortByKey(CanonMembers(nfc, ms));
    forall i | 0 <= i < |qs|
      ensures (NoRefs(qs[i].value) || IsMade(qs[i].value)) && qs[i].key != "$ref" && qs[i].key != "__valueFromState"
    {
      var k := CanonFieldAt(nfc, ms, i);
      CanonField(nfc, ms[k].value);
    }
  }

  lemma PlainInputClean(ms: seq<Entry<Json>>)
    requires PlainInput(ms)
    ensures DependencySoundness.CleanRefs(Obj(ms))
  {
    forall i | 0 <= i < |ms| ensures DependencySoundness.CleanRefs(ms[i].value) {
      if NoRefs(ms[i].value) { PlainIsClean(ms[i].value); } else { MadeIsClean(ms[i].value); }
    }
  }

  // ---- what normalization does to built steps --------------------------------------------

  /** A normalized step: same id, still plain; a tool call keeps its tool and key and refers to nothing new. */
  ghost predicate StaysTrue(a: Step, b: Step) {
    && b.id == a.id && PlainStep(b) && (a.ToolCall? <==> b.ToolCall?)
    && (a.ToolCall? ==> b.outputKey == a.outputKey && forall r | r in CollectRefs(b.input) :: r in CollectRefs(a.input))
  }

  lemma PlainIsNotLoop(step: Step)
    requires PlainStep(step)
    ensures step.IsTool() ==> step.ToolCall? && step.input.Obj? && PlainInput(step.input.members)
  {
  }

  lemma FieldReads(s: Step)
    ensures Field(s.Fields(), "id") == Some(Str(s.id)) && Field(s.Fields(), "kind") == Some(Str(s.Kind()))
    ensures s.Set? ==> Field(s.Fields(), "key") == Some(Str(s.key))
    ensures s.ToolCall? ==> Field(s.Fields(), "toolId") == Some(Str(s.toolId))
    ensures s.ToolCall? ==> Field(s.Fields(), "outputKey") == Some(Str(s.outputKey)) && Field(s.Fields(), "input") == Some(s.input)
  {
    FieldsDistinct(s);
    var ms := s.Fields();
    assert ms[0] == Entry("id", Str(s.id)) && ms[1] == Entry("kind", Str(s.Kind()));
    FieldAt(ms, 0);
    FieldAt(ms, 1);
    if s.Set? { FieldAt(ms, 2); }
    if s.ToolCall? {
      FieldAt(ms, 2);
      assert ms[3] == Entry("outputKey", Str(s.outputKey)) && ms[4] == Entry("input", s.input);
      FieldAt(ms, 3);
      FieldAt(ms, 4);
    }
  }

  lemma BuildKeepsKind(r: Reads, s: Step)
    requires r.kind == Some(Str(s.Kind())) && Build(r).Some? && (s.Set? || s.AppendLog? || s.ToolCall?)
    ensures var b := Build(r).value;
      && b.id == r.id.value && b.Set? == s.Set? && b.AppendLog? == s.AppendLog? && b.ToolCall? == s.ToolCall?
      && (s.Set? ==> r.key == Some(b.key))
      && (s.ToolCall? ==> r.toolId == Some(b.toolId) && r.outputKey == Some(b.outputKey) && r.input == Some(b.input))
  {
    KindDispatch(s);
  }

  lemma ShortAsciiIsNorm(nfc: Normalizer, t: string, maxLen: nat)
    requires NfcLaws(nfc) && IsAscii(t) && Trimmed(t)
    ensures NormText(nfc, Some(Str(t)), maxLen).Some? ==> NormText(nfc, Some(Str(t)), maxLen).value == t
  {
    NfcOfAscii(nfc, t);
    TrimOfTrimmed(t);
  }

  /** What normalization makes of each field of a built step. */
  ghost predicate NormedFields(nfc: Normalizer, s: Step, t: Step) {
    && NormText(nfc, Some(Str(s.id)), 256) == Some(t.id)
    && t.Set? == s.Set? && t.AppendLog? == s.AppendLog? && t.ToolCall? == s.ToolCall?
    && (s.Set? ==> NormText(nfc, Some(Str(s.key)), 256) == Some(t.key))
    && (s.ToolCall? ==> NormText(nfc, Some(Str(s.toolId)), 256) == Some(t.toolId)
                        && NormText(nfc, Some(Str(s.outputKey)), 256) == Some(t.outputKey)
                        && NormInput(nfc, Some(s.input)) == Some(t.input))
  }

  lemma NormReads(nfc: Normalizer, s: Step)
    requires (s.Set? || s.AppendLog? || s.ToolCall?) && NormStep(nfc, Obj(s.Fields())).Some?
    ensures NormedFields(nfc, s, NormStep(nfc, Obj(s.Fields())).value)
  {
    FieldReads(s);
    BuildKeepsKind(Read(nfc, s.Fields()), s);
  }

  lemma NormStaysTrue(nfc: Normalizer, s: Step)
    requires NfcLaws(nfc) && PlainStep(s) && IsAscii(s.id) && Trimmed(s.id) && NormStep(nfc, Obj(s.Fields())).Some?
    ensures StaysTrue(s, NormStep(nfc, Obj(s.Fields())).value)
  {
    NormReads(nfc, s);
    NormedStays(nfc, s, NormStep(nfc, Obj(s.Fields())).value);
  }

  lemma NormedStays(nfc: Normalizer, s: Step, t: Step)
    requires NfcLaws(nfc) && PlainStep(s) && IsAscii(s.id) && Trimmed(s.id) && NormedFields(nfc, s, t)
    ensures StaysTrue(s, t)
  {
    ShortAsciiIsNorm(nfc, s.id, 256);
    if s.Set? {
      ShortAsciiIsNorm(nfc, s.key, 256);
    } else if s.ToolCall? {
      CallStaysTrue(nfc, s, t);
    }
  }

  lemma CallStaysTrue(nfc: Normalizer, s: Step, t: Step)
    requires NfcLaws(nfc) && PlainStep(s) && s.ToolCall? && t.ToolCall? && t.id == s.id
    requires NormText(nfc, Some(Str(s.toolId)), 256) == Some(t.toolId)
    requires NormText(nfc, Some(Str(s.outputKey)), 256) == Some(t.outputKey) && NormInput(nfc, Some(s.input)) == Some(t.input)
    ensures StaysTrue(s, t)
  {
    var c :| IsCallOf(s, c);
    KeyIsAscii(c);
    ToolIdIsAscii(c);
    ShortAsciiIsNorm(nfc, s.outputKey, 256);
    ShortAsciiIsNorm(nfc, s.toolId, 256);
    assert IsCallOf(t, c);
    CanonInputPlain(nfc, s.input.members);
    forall r | r in CollectRefs(t.input) ensures r in CollectRefs(s.input) {
      CanonInputRefs(nfc, s.input.members, r);
    }
  }

  lemma KeyIsAscii(c: Capability)
    ensures IsAscii(OutKey(c)) && Trimmed(OutKey(c))
  {
    if c.CatalogProduct? || c.CatalogPrice? || c.CatalogAvailability? {
      CatalogKeyIsAscii(c);
    } else if c.OrdersFindById? || c.KbFindByProductName? || c.TextNormalize? {
      LookupKeyIsAscii(c);
    } else {
      JsonKeyIsAscii(c);
    }
  }

  lemma CatalogKeyIsAscii(c: Capability)
    requires c.CatalogProduct? || c.CatalogPrice? || c.CatalogAvailability?
    ensures IsAscii(OutKey(c)) && Trimmed(OutKey(c))
  {
    KeySignatureIs(c);
  }

  lemma LookupKeyIsAscii(c: Capability)
    requires c.OrdersFindById? || c.KbFindByProductName? || c.TextNormalize?
    ensures IsAscii(OutKey(c)) && Trimmed(OutKey(c))
  {
    KeySignatureIs(c);
  }

  lemma JsonKeyIsAscii(c: Capability)
    requires c.JsonExtract? || c.JsonSelect? || c.JsonMerge? || c.MathAdd? || c.Echo?
    ensures IsAscii(OutKey(c)) && Trimmed(OutKey(c))
  {
    KeySignatureIs(c);
  }

  lemma ToolIdIsAscii(c: Capability)
    ensures IsAscii(ToolId(c)) && Trimmed(ToolId(c))
  {
    if c.CatalogProduct? || c.CatalogPrice? || c.CatalogAvailability? {
      CatalogIdIsAscii(c);
    } else if c.OrdersFindById? || c.KbFindByProductName? || c.TextNormalize? {
      LookupIdIsAscii(c);
    } else {
      JsonIdIsAscii(c);
    }
  }

  lemma CatalogIdIsAscii(c: Capability)
    requires c.CatalogProduct? || c.CatalogPrice? || c.CatalogAvailability?
    ensures IsAscii(ToolId(c)) && Trimmed(ToolId(c))
  {
    assert |ToolId(c)| == ToolIdLength(c);
  }

  lemma LookupIdIsAscii(c: Capability)
    requires c.OrdersFindById? || c.KbFindByProductName? || c.TextNormalize?
    ensures IsAscii(ToolId(c)) && Trimmed(ToolId(c))
  {
    assert |ToolId(c)| == ToolIdLength(c);
  }

  lemma JsonIdIsAscii(c: Capability)
    requires c.JsonExtract? || c.JsonSelect? || c.JsonMerge? || c.MathAdd? || c.Echo?
    ensures IsAscii(ToolId(c)) && Trimmed(ToolId(c))
  {
    assert |ToolId(c)| == ToolIdLength(c);
  }

  // ---- the canonical plan ----------------------------------------------------------------

  /** A step as `canonicalizePlan` normalizes it. */
  function Normed(nfc: Normalizer): Step -> Step {
    (s: Step) => if NormStep(nfc, Obj(s.Fields())).Some? then NormStep(nfc, Obj(s.Fields())).value else s
  }

  ghost predicate AllStayTrue(xs: seq<Step>, ys: seq<Step>) {
    |xs| == |ys| && forall i | 0 <= i < |xs| :: StaysTrue(xs[i], ys[i])
  }

  lemma StaysProducer(a: Step, b: Step, key: string)
    requires StaysTrue(a, b)
    ensures Produces(a, key) <==> Produces(b, key)
    ensures forall r | r in RefsOf(b) :: r in RefsOf(a)
  {
    PlainIsNotLoop(b);
  }

  lemma ProducedAlike(xs: seq<Step>, ys: seq<Step>, i: nat, key: string)
    requires AllStayTrue(xs, ys) && i <= |xs| && ProducedBefore(xs, i, key)
    ensures ProducedBefore(ys, i, key)
  {
    var j :| 0 <= j < i && Produces(xs[j], key);
    StaysProducer(xs[j], ys[j], key);
  }

  lemma DependenciesStay(xs: seq<Step>, ys: seq<Step>)
    requires AllStayTrue(xs, ys) && DependenciesHold(xs)
    ensures DependenciesHold(ys)
  {
    forall i, j | 0 <= i < j < |ys| && IsProducer(ys[i]) && IsProducer(ys[j])
      ensures Trim(ys[i].outputKey) != Trim(ys[j].outputKey)
    {
      assert StaysTrue(xs[i], ys[i]) && StaysTrue(xs[j], ys[j]);
    }
    forall i | 0 <= i < |ys| ensures RefsProduced(ys, i) {
      StaysProducer(xs[i], ys[i], "");
      assert RefsProduced(xs, i);
      forall r | r in RefsOf(ys[i]) ensures ProducedBefore(ys, i, r.outputKey) {
        ProducedAlike(xs, ys, i, r.outputKey);
      }
    }
  }

  /** Steps in the order of their ids sort to themselves once normalized. */
  lemma NormedInOrder(xs: seq<Step>, ys: seq<Step>)
    requires AllStayTrue(xs, ys) && forall i, j | 0 <= i < j < |xs| :: Less(xs[i].id, xs[j].id)
    ensures Ordered(StepLeq, ys) && Distinct(Ids(ys))
  {
    forall i, j | 0 <= i < j < |ys| ensures StepLeq(ys[i], ys[j]) && ys[i].id != ys[j].id {
      assert StaysTrue(xs[i], ys[i]) && StaysTrue(xs[j], ys[j]);
      IdsDecide(ys[i], ys[j]);
      LessAsymmetric(ys[i].id, ys[j].id);
    }
  }

  lemma LetterIsAscii(k: nat)
    requires k < 26
    ensures IsAscii(Letter(k)) && Trimmed(Letter(k))
  {
  }

  lemma OrderIsPlain(b: Builder, inserted: seq<Capability>)
    requires AllPlain(b.steps)
    ensures AllPlain(InLetterOrder(b, inserted))
  {
    var q := InLetterOrder(b, inserted);
    forall i | 0 <= i < |q| ensures PlainStep(q[i]) {
      if i < |b.steps| { assert q[i] == b.steps[i]; }
    }
  }

  ghost predicate IdsIncrease(q: seq<Step>) {
    && (forall i | 0 <= i < |q| :: IsAscii(q[i].id) && Trimmed(q[i].id))
    && (forall i, j | 0 <= i < j < |q| :: Less(q[i].id, q[j].id))
  }

  lemma OrderIncreases(b: Builder, inserted: seq<Capability>)
    requires Lettered(b) && b.next <= 12
    ensures IdsIncrease(InLetterOrder(b, inserted))
  {
    var q := InLetterOrder(b, inserted);
    forall i | 0 <= i < |q| ensures IsAscii(q[i].id) && Trimmed(q[i].id) {
      LetterOrderIds(b, inserted, i);
      LetterIsAscii(if i <= b.next then i else 25);
    }
    forall i, j | 0 <= i < j < |q| ensures Less(q[i].id, q[j].id) {
      LetterOrderIds(b, inserted, i);
      LetterOrderIds(b, inserted, j);
      LettersLess(if i <= b.next then i else 25, if j <= b.next then j else 25);
    }
  }

  /** The steps in letter order: increasing ids, plain, and every reference pointing back. */
  lemma LetterOrderIs(p: Params, n: Normalized) returns (q: seq<Step>)
    ensures multiset(q) == multiset(SynthSteps(p, n)) && DependenciesHold(q) && AllPlain(q) && IdsIncrease(q)
  {
    BuildToolsGood(p, n.capabilities);
    BuildToolsPlain(p, n.capabilities);
    SortedEdgesPointBackward(p, n);
    q := OrderOf(BuildTools(p, n.capabilities), n.inserted, SynthSteps(p, n));
  }

  lemma OrderOf(b: Builder, inserted: seq<Capability>, steps: seq<Step>) returns (q: seq<Step>)
    requires Lettered(b) && b.next <= 12 && AllPlain(b.steps)
    requires steps == Finish(b, inserted) && DependenciesHold(Sort(StepLeq, steps))
    ensures multiset(q) == multiset(steps) && DependenciesHold(q) && AllPlain(q) && IdsIncrease(q)
  {
    SortedFinish(b, inserted);
    OrderIsPlain(b, inserted);
    OrderIncreases(b, inserted);
    SortKeepsElements(StepLeq, steps);
    q := InLetterOrder(b, inserted);
  }

  lemma HeaderSteps(nfc: Normalizer, plan: Plan)
    requires PlanHeader(nfc, PlanFields(plan)).Some?
    ensures PlanHeader(nfc, PlanFields(plan)).value.1 == StepsJson(plan.steps)
  {
    var raw := PlanFields(plan);
    FieldAt(raw, 2);
    assert raw[2].key == "steps";
  }

  lemma CanonicalSteps(nfc: Normalizer, raw: seq<Entry<Json>>)
    requires Canonicalize(nfc, raw).Some?
    ensures PlanHeader(nfc, raw).Some? && NormAll(nfc, PlanHeader(nfc, raw).value.1).Some?
    ensures Canonicalize(nfc, raw).value.steps == Sort(StepLeq, NormAll(nfc, PlanHeader(nfc, raw).value.1).value)
  {
  }

  predicate NormsTo(nfc: Normalizer, s: Step, t: Step) {
    NormStep(nfc, Obj(s.Fields())) == Some(t)
  }

  lemma NormedIs(nfc: Normalizer, s: Step, t: Step)
    requires NormsTo(nfc, s, t)
    ensures Normed(nfc)(s) == t
  {
  }

  /** Each step normalizes to the step in its place. */
  ghost predicate AllNormTo(nfc: Normalizer, steps: seq<Step>, normed: seq<Step>) {
    |steps| == |normed| && forall i | 0 <= i < |steps| :: NormsTo(nfc, steps[i], normed[i])
  }

  lemma NormAllNorms(nfc: Normalizer, steps: seq<Step>, items: seq<Json>, normed: seq<Step>)
    requires items == StepsJson(steps) && NormAll(nfc, items) == Some(normed)
    ensures AllNormTo(nfc, steps, normed)
  {
    forall i | 0 <= i < |steps| ensures NormsTo(nfc, steps[i], normed[i]) {
      assert items[i] == Obj(steps[i].Fields());
    }
  }

  lemma MapsTo(nfc: Normalizer, steps: seq<Step>, normed: seq<Step>)
    requires AllNormTo(nfc, steps, normed)
    ensures MapSeq(Normed(nfc), steps) == normed
  {
    forall i | 0 <= i < |steps| ensures MapSeq(Normed(nfc), steps)[i] == normed[i] {
      NormedIs(nfc, steps[i], normed[i]);
    }
  }

  lemma CanonicalStepsAre(nfc: Normalizer, plan: Plan) returns (normed: seq<Step>)
    requires Canonicalize(nfc, PlanFields(plan)).Some?
    ensures AllNormTo(nfc, plan.steps, normed)
    ensures Canonicalize(nfc, PlanFields(plan)).value.steps == Sort(StepLeq, normed)
  {
    CanonicalSteps(nfc, PlanFields(plan));
    HeaderSteps(nfc, plan);
    normed := NormAll(nfc, StepsJson(plan.steps)).value;
    NormAllNorms(nfc, plan.steps, StepsJson(plan.steps), normed);
  }

  lemma NormedStaysTrue(nfc: Normalizer, s: Step, steps: seq<Step>, normed: seq<Step>)
    requires NfcLaws(nfc) && AllNormTo(nfc, steps, normed) && s in steps && PlainStep(s) && IsAscii(s.id) && Trimmed(s.id)
    ensures StaysTrue(s, Normed(nfc)(s))
  {
    var k :| 0 <= k < |steps| && steps[k] == s;
    NormedIs(nfc, s, normed[k]);
    NormStaysTrue(nfc, s);
  }

  lemma SortedNormed(nfc: Normalizer, q: seq<Step>, steps: seq<Step>, normed: seq<Step>)
    requires NfcLaws(nfc) && multiset(q) == multiset(steps) && AllPlain(q) && IdsIncrease(q) && AllNormTo(nfc, steps, normed)
    ensures AllStayTrue(q, Sort(StepLeq, normed))
  {
    var ordered := MapSeq(Normed(nfc), q);
    SameElements(q, steps);
    forall i | 0 <= i < |q| ensures StaysTrue(q[i], ordered[i]) {
      assert q[i] in steps;
      NormedStaysTrue(nfc, q[i], steps, normed);
    }
    NormedInOrder(q, ordered);
    MapPermutation(Normed(nfc), q, steps);
    MapsTo(nfc, steps, normed);
    SortOfPermutedSteps(ordered, normed);
    SortOfOrdered(StepLeq, ordered);
  }

  /**
   * In the canonical form of a built plan, when its texts are short enough to have one, every
   * reference still points back to the one step that produces its key, written as it is looked up.
   */
  lemma CanonicalEdgesPointBackward(nfc: Normalizer, p: Params, n: Normalized)
    requires NfcLaws(nfc) && Canonicalize(nfc, PlanFields(Plan(PlanId(p), SynthSteps(p, n)))).Some?
    ensures
      var steps := Canonicalize(nfc, PlanFields(Plan(PlanId(p), SynthSteps(p, n)))).value.steps;
      && DependenciesHold(steps) && Distinct(Ids(steps)) && Ordered(StepLeq, steps) && AllPlain(steps)
      && forall i | 0 <= i < |steps| :: DependencySoundness.CleanRefs(DependencySoundness.InputOf(steps[i]))
  {
    var raw := PlanFields(Plan(PlanId(p), SynthSteps(p, n)));
    var q := LetterOrderIs(p, n);
    var normed := CanonicalStepsAre(nfc, Plan(PlanId(p), SynthSteps(p, n)));
    SortedNormed(nfc, q, SynthSteps(p, n), normed);
    var steps := Canonicalize(nfc, raw).value.steps;
    DependenciesStay(q, steps);
    CanonicalizeIsCanon(nfc, raw);
    forall i | 0 <= i < |steps| ensures DependencySoundness.CleanRefs(DependencySoundness.InputOf(steps[i])) {
      assert StaysTrue(q[i], steps[i]);
      StepClean(steps[i]);
    }
  }

  lemma StepClean(step: Step)
    requires PlainStep(step)
    ensures DependencySoundness.CleanRefs(DependencySoundness.InputOf(step))
  {
    PlainIsNotLoop(step);
    if step.IsTool() { PlainInputClean(step.input.members); }
  }

  /** Executing a built plan, whatever the tools answer, never fails to find the value of a reference. */
  lemma BuiltPlansMissNothing(env: Executor.Env, p: Params, n: Normalized)
    requires NfcLaws(env.nfc) && Canonicalize(env.nfc, PlanFields(Plan(PlanId(p), SynthSteps(p, n)))).Some?
    ensures
      var steps := Canonicalize(env.nfc, PlanFields(Plan(PlanId(p), SynthSteps(p, n)))).value.steps;
      var l := Executor.Steps(env, steps, |steps|);
      l.Halted? ==> !l.error.KeyMissing?
  {
    var raw := PlanFields(Plan(PlanId(p), SynthSteps(p, n)));
    CanonicalEdgesPointBackward(env.nfc, p, n);
    CanonicalizeIsCanon(env.nfc, raw);
    var plan := Canonicalize(env.nfc, raw).value;
    AnalyzeOkIff(plan.steps);
    Executor.ExecutedReferences(env, plan);
  }
}
