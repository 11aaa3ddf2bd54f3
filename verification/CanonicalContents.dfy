/**
 * What canonicalization (src/agent/canonical-plan.ts) keeps of its input: which value an input
 * becomes, which raw step each canonical step is, and exactly which plans it refuses.
 */
module CanonicalContents {
  import opened Common
  import opened Sorting
  import opened JsStrings
  import opened Records
  import opened Json
  import opened PlanTypes
  import opened CanonicalPlan
  import opened PlanPermutation
  import opened PlanIdempotence

  // ---- inputs ----------------------------------------------------------------------------

  /**
   * `w` is the canonical form of `v`: the same value but for normalized texts, keys in order, and
   * trimmed references, which must be texts that are not blank.
   */
  ghost predicate Canonizes(nfc: Normalizer, v: Json, w: Json) {
    match v
    case Null => w == Null
    case Bool(b) => w == Bool(b)
    case Num(n) => w == Num(n)
    case Str(s) => w == Str(nfc(s))
    case Arr(xs) => w.Arr? && |w.items| == |xs| && forall i | 0 <= i < |xs| :: Canonizes(nfc, xs[i], w.items[i])
    case Obj(ms) =>
      if IsRefShape(ms) then
        && ms[0].value.Str? && Trim(ms[0].value.s) != ""
        && w == Obj([Entry(ms[0].key, Str(Trim(nfc(ms[0].value.s))))])
      else
        && w.Obj? && Ascending(w.members) && KeySet(w.members) == KeySet(ms)
        && forall i | 0 <= i < |ms| :: Has(w.members, ms[i].key) && Canonizes(nfc, ms[i].value, Get(w.members, ms[i].key))
  }

  /** Sorted canonical members: keys in order, each with its canonical value. */
  lemma SortedMembers(nfc: Normalizer, ms: seq<Entry<Json>>)
    requires DistinctKeys(ms) && forall i | 0 <= i < |ms| :: CanonOk(ms[i].value)
    ensures var r := SortByKey(CanonMembers(nfc, ms));
      && Ascending(r) && KeySet(r) == KeySet(ms)
      && forall i | 0 <= i < |ms| :: Has(r, ms[i].key) && Get(r, ms[i].key) == CanonValue(nfc, ms[i].value)
  {
    var es := CanonMembers(nfc, ms);
    SameKeysSameSet(es, ms);
    SortedAscends(es);
    SortByKeyDistinct(es);
    forall i | 0 <= i < |ms| ensures Has(es, ms[i].key) && Get(es, ms[i].key) == CanonValue(nfc, ms[i].value) {
      GetAt(es, i);
    }
  }

  lemma KeyAtSomePlace<V>(es: seq<Entry<V>>, k: string) returns (i: nat)
    requires Has(es, k)
    ensures i < |es| && es[i] == Entry(k, Get(es, k))
  {
    i :| 0 <= i < |es| && es[i] == Entry(k, Get(es, k));
  }

  /** Entries with the same keys as `es`, in order, and its values are its sorted entries. */
  lemma OnlySorted(es: seq<Entry<Json>>, r: seq<Entry<Json>>)
    requires DistinctKeys(es) && Ascending(r) && KeySet(r) == KeySet(es)
    requires forall i | 0 <= i < |es| :: Has(r, es[i].key) && Get(r, es[i].key) == es[i].value
    ensures r == SortByKey(es)
  {
    AscendingIsSorted(r);
    forall k | Has(es, k) && Has(r, k) ensures Get(es, k) == Get(r, k) {
      var i := KeyAtSomePlace(es, k);
    }
    SortByKeyBinds(es, r);
  }

  /** The canonical members are the only entries with these keys in order and these values. */
  lemma SortedMembersUnique(nfc: Normalizer, ms: seq<Entry<Json>>, r: seq<Entry<Json>>)
    requires DistinctKeys(ms) && forall i | 0 <= i < |ms| :: CanonOk(ms[i].value)
    requires Ascending(r) && KeySet(r) == KeySet(ms)
    requires forall i | 0 <= i < |ms| :: Has(r, ms[i].key) && Get(r, ms[i].key) == CanonValue(nfc, ms[i].value)
    ensures r == SortByKey(CanonMembers(nfc, ms))
  {
    var es := CanonMembers(nfc, ms);
    SameKeysSameSet(es, ms);
    OnlySorted(es, r);
  }

  lemma {:induction false} CanonValueCanonizes(nfc: Normalizer, v: Json)
    requires WellFormed(v) && CanonOk(v)
    ensures Canonizes(nfc, v, CanonValue(nfc, v))
    decreases v
  {
    match v
    case Arr(items) =>
      forall i | 0 <= i < |items| ensures Canonizes(nfc, items[i], CanonValue(nfc, items[i])) {
        CanonValueCanonizes(nfc, items[i]);
      }
    case Obj(ms) =>
      if !IsRefShape(ms) {
        forall i | 0 <= i < |ms| ensures Canonizes(nfc, ms[i].value, CanonValue(nfc, ms[i].value)) {
          CanonValueCanonizes(nfc, ms[i].value);
        }
        SortedMembers(nfc, ms);
      }
    case _ =>
  }

  lemma {:induction false} CanonizesIsCanonValue(nfc: Normalizer, v: Json, w: Json)
    requires WellFormed(v) && Canonizes(nfc, v, w)
    ensures CanonOk(v) && w == CanonValue(nfc, v)
    decreases v
  {
    match v
    case Arr(items) =>
      forall i | 0 <= i < |items| ensures CanonOk(items[i]) && w.items[i] == CanonValue(nfc, items[i]) {
        CanonizesIsCanonValue(nfc, items[i], w.items[i]);
      }
      assert w.items == CanonItems(nfc, items);
    case Obj(ms) =>
      if !IsRefShape(ms) {
        forall i | 0 <= i < |ms| ensures CanonOk(ms[i].value) && Get(w.members, ms[i].key) == CanonValue(nfc, ms[i].value) {
          CanonizesIsCanonValue(nfc, ms[i].value, Get(w.members, ms[i].key));
        }
        SortedMembersUnique(nfc, ms, w.members);
      }
    case _ =>
  }

  /** Exactly when an input is accepted, and what it becomes. */
  lemma CanonValueIff(nfc: Normalizer, v: Json, w: Json)
    requires WellFormed(v)
    ensures Canonizes(nfc, v, w) <==> CanonOk(v) && w == CanonValue(nfc, v)
  {
    if Canonizes(nfc, v, w) { CanonizesIsCanonValue(nfc, v, w); }
    if CanonOk(v) { CanonValueCanonizes(nfc, v); }
  }

  /** Every text is normalized already, every reference trimmed as well. */
  ghost predicate TextsNormal(nfc: Normalizer, v: Json) {
    match v
    case Str(s) => nfc(s) == s
    case Arr(items) => forall i | 0 <= i < |items| :: TextsNormal(nfc, items[i])
    case Obj(ms) =>
      if IsRefShape(ms) then ms[0].value.Str? && Trim(ms[0].value.s) != "" && Trim(nfc(ms[0].value.s)) == ms[0].value.s
      else forall i | 0 <= i < |ms| :: TextsNormal(nfc, ms[i].value)
    case _ => true
  }

  /** Of an input whose texts are normal only the keys move. */
  lemma {:induction false} NormalOnlySorts(nfc: Normalizer, v: Json)
    requires TextsNormal(nfc, v)
    ensures CanonOk(v) && CanonValue(nfc, v) == SortKeys(v)
    decreases v
  {
    match v
    case Arr(items) =>
      forall i | 0 <= i < |items| ensures CanonOk(items[i]) && CanonValue(nfc, items[i]) == SortKeys(items[i]) {
        NormalOnlySorts(nfc, items[i]);
      }
      assert CanonItems(nfc, items) == SortKeysItems(items);
    case Obj(ms) =>
      if IsRefShape(ms) {
        assert SortKeysMembers(ms) == [Entry(ms[0].key, ms[0].value)];
      } else {
        forall i | 0 <= i < |ms| ensures CanonOk(ms[i].value) && CanonValue(nfc, ms[i].value) == SortKeys(ms[i].value) {
          NormalOnlySorts(nfc, ms[i].value);
        }
        assert CanonMembers(nfc, ms) == SortKeysMembers(ms);
      }
    case _ =>
  }

  // ---- steps -----------------------------------------------------------------------------

  /** The field is a text that normalizes to `t`, which is not empty and not too long. */
  ghost predicate CarriesText(nfc: Normalizer, ms: seq<Entry<Json>>, k: string, maxLen: nat, t: string) {
    && Has(ms, k) && Get(ms, k).Str? && t == Trim(nfc(Get(ms, k).s)) && 0 < |t| <= maxLen
  }

  ghost predicate CarriesInteger(ms: seq<Entry<Json>>, k: string, n: int) {
    Has(ms, k) && Get(ms, k) == Num(n) && -MAX_SAFE <= n <= MAX_SAFE
  }

  ghost predicate CarriesInput(nfc: Normalizer, ms: seq<Entry<Json>>, input: Json) {
    Has(ms, "input") && Canonizes(nfc, Get(ms, "input"), input)
  }

  /** The step is the raw step with its fields normalized, and the raw step has no other fields. */
  ghost predicate Carries(nfc: Normalizer, raw: Json, s: Step) {
    && raw.Obj? && KeySet(raw.members) <= KeysOf(s)
    && CarriesText(nfc, raw.members, "id", 256, s.id)
    && Has(raw.members, "kind") && Get(raw.members, "kind") == Str(s.Kind())
    && CarriesFields(nfc, raw.members, s)
  }

  ghost predicate CarriesFields(nfc: Normalizer, ms: seq<Entry<Json>>, s: Step) {
    match s
    case Set(_, key, value) => CarriesText(nfc, ms, "key", 256, key) && CarriesText(nfc, ms, "value", 4096, value)
    case Increment(_, key, delta) => CarriesText(nfc, ms, "key", 256, key) && CarriesInteger(ms, "value", delta)
    case AppendLog(_, value) => CarriesText(nfc, ms, "value", 4096, value)
    case SandboxOpen(_, session, url) =>
      && CarriesText(nfc, ms, "sessionId", 256, session) && CarriesText(nfc, ms, "url", 2048, url)
      && ("http://" <= url || "https://" <= url)
    case SandboxClick(_, session, selector) =>
      CarriesText(nfc, ms, "sessionId", 256, session) && CarriesText(nfc, ms, "selector", 512, selector)
    case SandboxType(_, session, selector, text) =>
      && CarriesText(nfc, ms, "sessionId", 256, session) && CarriesText(nfc, ms, "selector", 512, selector)
      && CarriesText(nfc, ms, "text", 4096, text)
    case SandboxExtract(_, session, selector, out) =>
      && CarriesText(nfc, ms, "sessionId", 256, session) && CarriesText(nfc, ms, "selector", 512, selector)
      && CarriesText(nfc, ms, "outputKey", 256, out)
    case ToolCall(_, tool, out, input) =>
      && CarriesText(nfc, ms, "toolId", 256, tool) && CarriesText(nfc, ms, "outputKey", 256, out)
      && CarriesInput(nfc, ms, input)
    case ToolLoop(_, tool, out, input, max) =>
      && CarriesText(nfc, ms, "toolId", 256, tool) && CarriesText(nfc, ms, "outputKey", 256, out)
      && CarriesInput(nfc, ms, input) && CarriesInteger(ms, "maxIterations", max)
  }

  lemma TextIff(nfc: Normalizer, ms: seq<Entry<Json>>, k: string, maxLen: nat, t: string)
    ensures NormText(nfc, Field(ms, k), maxLen) == Some(t) <==> CarriesText(nfc, ms, k, maxLen, t)
  {
  }

  lemma UrlIff(nfc: Normalizer, ms: seq<Entry<Json>>, t: string)
    ensures NormUrl(nfc, Field(ms, "url")) == Some(t)
        <==> CarriesText(nfc, ms, "url", 2048, t) && ("http://" <= t || "https://" <= t)
  {
  }

  lemma IntegerIff(ms: seq<Entry<Json>>, k: string, n: int)
    ensures NormInteger(Field(ms, k)) == Some(n) <==> CarriesInteger(ms, k, n)
  {
  }

  lemma InputIff(nfc: Normalizer, ms: seq<Entry<Json>>, input: Json)
    requires WellFormed(Obj(ms))
    ensures NormInput(nfc, Field(ms, "input")) == Some(input) <==> CarriesInput(nfc, ms, input)
  {
    if Has(ms, "input") {
      var i :| 0 <= i < |ms| && ms[i] == Entry("input", Get(ms, "input"));
      CanonValueIff(nfc, ms[i].value, input);
    }
  }

  lemma HeadIff(nfc: Normalizer, ms: seq<Entry<Json>>, s: Step)
    ensures var r := Read(nfc, ms);
      && r.keys == KeySet(ms)
      && (r.id == Some(s.id) <==> CarriesText(nfc, ms, "id", 256, s.id))
      && (r.kind == Some(Str(s.Kind())) <==> Has(ms, "kind") && Get(ms, "kind") == Str(s.Kind()))
  {
    TextIff(nfc, ms, "id", 256, s.id);
  }

  lemma CoreIff(nfc: Normalizer, ms: seq<Entry<Json>>, s: Step)
    requires !s.IsSandbox() && !s.IsTool()
    ensures ReadsAs(Read(nfc, ms), s) <==> Carries(nfc, Obj(ms), s)
  {
    HeadIff(nfc, ms, s);
    match s
    case Set(_, key, value) => TextIff(nfc, ms, "key", 256, key); TextIff(nfc, ms, "value", 4096, value);
    case Increment(_, key, delta) => TextIff(nfc, ms, "key", 256, key); IntegerIff(ms, "value", delta);
    case AppendLog(_, value) => TextIff(nfc, ms, "value", 4096, value);
  }

  lemma SandboxIff(nfc: Normalizer, ms: seq<Entry<Json>>, s: Step)
    requires s.IsSandbox()
    ensures ReadsAs(Read(nfc, ms), s) <==> Carries(nfc, Obj(ms), s)
  {
    HeadIff(nfc, ms, s);
    TextIff(nfc, ms, "sessionId", 256, s.sessionId);
    if !s.SandboxOpen? { TextIff(nfc, ms, "selector", 512, s.selector); }
    match s
    case SandboxOpen(_, _, url) => UrlIff(nfc, ms, url);
    case SandboxClick(_, _, _) =>
    case SandboxType(_, _, _, text) => TextIff(nfc, ms, "text", 4096, text);
    case SandboxExtract(_, _, _, out) => TextIff(nfc, ms, "outputKey", 256, out);
  }

  lemma ToolIff(nfc: Normalizer, ms: seq<Entry<Json>>, s: Step)
    requires s.IsTool() && WellFormed(Obj(ms))
    ensures ReadsAs(Read(nfc, ms), s) <==> Carries(nfc, Obj(ms), s)
  {
    HeadIff(nfc, ms, s);
    TextIff(nfc, ms, "toolId", 256, s.toolId);
    TextIff(nfc, ms, "outputKey", 256, s.outputKey);
    InputIff(nfc, ms, s.input);
    if s.ToolLoop? { IntegerIff(ms, "maxIterations", s.maxIterations); }
  }

  /** Exactly when a raw step is accepted, and which step it becomes. */
  lemma NormStepIff(nfc: Normalizer, raw: Json, s: Step)
    requires WellFormed(raw)
    ensures NormStep(nfc, raw) == Some(s) <==> Carries(nfc, raw, s)
  {
    if raw.Obj? {
      Builds(Read(nfc, raw.members), s);
      if s.IsSandbox() {
        SandboxIff(nfc, raw.members, s);
      } else if s.IsTool() {
        ToolIff(nfc, raw.members, s);
      } else {
        CoreIff(nfc, raw.members, s);
      }
    }
  }

  // ---- the plan --------------------------------------------------------------------------

  /** The raw plan has the three fields and no others, with this id and these raw steps. */
  ghost predicate HasHeader(nfc: Normalizer, raw: seq<Entry<Json>>, planId: string, items: seq<Json>) {
    && KeySet(raw) <= {"planId", "version", "steps"} && CarriesText(nfc, raw, "planId", 256, planId)
    && Has(raw, "version") && Get(raw, "version") == Num(1) && Has(raw, "steps") && Get(raw, "steps") == Arr(items)
  }

  ghost predicate CarriedBySome(nfc: Normalizer, raw: Json, steps: seq<Step>) {
    exists j | 0 <= j < |steps| :: Carries(nfc, raw, steps[j])
  }

  ghost predicate CarriesSome(nfc: Normalizer, items: seq<Json>, s: Step) {
    exists i | 0 <= i < |items| :: Carries(nfc, items[i], s)
  }

  ghost predicate AscendingIds(steps: seq<Step>) {
    forall i, j | 0 <= i < j < |steps| :: Less(steps[i].id, steps[j].id)
  }

  /** As many steps as raw steps, in strict order of their ids; each is a raw step normalized, and each raw step is there. */
  ghost predicate CanonicalStepsOf(nfc: Normalizer, items: seq<Json>, steps: seq<Step>) {
    && |steps| == |items| && AscendingIds(steps)
    && (forall i | 0 <= i < |items| :: CarriedBySome(nfc, items[i], steps))
    && (forall j | 0 <= j < |steps| :: CarriesSome(nfc, items, steps[j]))
  }

  lemma HeaderIff(nfc: Normalizer, raw: seq<Entry<Json>>, planId: string, items: seq<Json>)
    ensures PlanHeader(nfc, raw) == Some((planId, items)) <==> HasHeader(nfc, raw, planId, items)
  {
    TextIff(nfc, raw, "planId", 256, planId);
    KeysAllowed(raw, {"planId", "version", "steps"});
  }

  lemma KeysAllowed(ms: seq<Entry<Json>>, allowed: set<string>)
    ensures OnlyKeys(ms, allowed) <==> KeySet(ms) <= allowed
  {
    if KeySet(ms) <= allowed {
      forall i | 0 <= i < |ms| ensures ms[i].key in allowed {
        assert ms[i].key in KeySet(ms);
      }
    }
  }

  /** Distinct elements, and another list of the same length with the same elements. */
  lemma SameSizeSameMultiset<T>(a: seq<T>, b: seq<T>)
    requires Distinct(a) && |a| == |b| && forall x :: x in a <==> x in b
    ensures multiset(a) == multiset(b)
  {
    DistinctIffNoRepeat(a);
    forall x ensures multiset(a)[x] <= multiset(b)[x] {
      assert multiset(a)[x] <= 1;
      assert (x in multiset(a) <==> x in a) && (x in multiset(b) <==> x in b);
    }
    var more := multiset(b) - multiset(a);
    assert multiset(b) == multiset(a) + more;
    assert |multiset(a)| == |a| && |multiset(b)| == |b|;
    assert |more| == 0;
  }

  lemma AscendingIdsSorted(steps: seq<Step>)
    requires AscendingIds(steps)
    ensures Ordered(StepLeq, steps) && Distinct(Ids(steps)) && Distinct(steps)
  {
    forall i, j | 0 <= i < j < |steps| ensures StepLeq(steps[i], steps[j]) && steps[i].id != steps[j].id {
      assert Less(steps[i].id, steps[j].id);
      IdsDecide(steps[i], steps[j]);
      LessAsymmetric(steps[i].id, steps[j].id);
    }
  }

  lemma IdsInOrder(a: Step, b: Step)
    requires StepLeq(a, b) && a.id != b.id
    ensures Less(a.id, b.id)
  {
    LessTotal(a.id, b.id);
    IdsDecide(b, a);
  }

  lemma OrderedIdsAscend(steps: seq<Step>)
    requires Ordered(StepLeq, steps) && Distinct(Ids(steps))
    ensures AscendingIds(steps)
  {
    var ids := Ids(steps);
    forall i, j | 0 <= i < j < |steps| ensures Less(steps[i].id, steps[j].id) {
      assert StepLeq(steps[i], steps[j]) && ids[i] != ids[j];
      IdsInOrder(steps[i], steps[j]);
    }
  }

  /** Normalized steps, wherever they are listed, are carried by and carry the raw steps. */
  lemma ListedCarry(nfc: Normalizer, items: seq<Json>, normed: seq<Step>, steps: seq<Step>)
    requires WellFormed(Arr(items)) && NormAll(nfc, items) == Some(normed)
    requires forall x :: x in steps <==> x in normed
    ensures forall i | 0 <= i < |items| :: CarriedBySome(nfc, items[i], steps)
    ensures forall j | 0 <= j < |steps| :: CarriesSome(nfc, items, steps[j])
  {
    forall i | 0 <= i < |items| ensures CarriedBySome(nfc, items[i], steps) {
      assert normed[i] in steps;
      var j :| 0 <= j < |steps| && steps[j] == normed[i];
      NormStepIff(nfc, items[i], normed[i]);
    }
    forall j | 0 <= j < |steps| ensures CarriesSome(nfc, items, steps[j]) {
      assert steps[j] in normed;
      var i :| 0 <= i < |normed| && normed[i] == steps[j];
      NormStepIff(nfc, items[i], normed[i]);
    }
  }

  lemma CarriedStep(nfc: Normalizer, raw: Json, steps: seq<Step>) returns (s: Step)
    requires WellFormed(raw) && CarriedBySome(nfc, raw, steps)
    ensures NormStep(nfc, raw) == Some(s) && s in steps
  {
    var j :| 0 <= j < |steps| && Carries(nfc, raw, steps[j]);
    s := steps[j];
    NormStepIff(nfc, raw, s);
  }

  lemma CarryingPlace(nfc: Normalizer, items: seq<Json>, s: Step) returns (i: nat)
    requires WellFormed(Arr(items)) && CarriesSome(nfc, items, s)
    ensures i < |items| && NormStep(nfc, items[i]) == Some(s)
  {
    i :| 0 <= i < |items| && Carries(nfc, items[i], s);
    NormStepIff(nfc, items[i], s);
  }

  /** Raw steps that are all carried normalize, to steps that carry them. */
  lemma CarriedNormalize(nfc: Normalizer, items: seq<Json>, steps: seq<Step>) returns (normed: seq<Step>)
    requires WellFormed(Arr(items)) && forall i | 0 <= i < |items| :: CarriedBySome(nfc, items[i], steps)
    ensures NormAll(nfc, items) == Some(normed) && forall x | x in normed :: x in steps
  {
    forall i | 0 <= i < |items| ensures NormStep(nfc, items[i]).Some? && NormStep(nfc, items[i]).value in steps {
      var s := CarriedStep(nfc, items[i], steps);
    }
    normed := NormAll(nfc, items).value;
    forall x | x in normed ensures x in steps {
      var i :| 0 <= i < |normed| && normed[i] == x;
      assert NormStep(nfc, items[i]) == Some(x);
    }
  }

  lemma CarryingListed(nfc: Normalizer, items: seq<Json>, steps: seq<Step>, normed: seq<Step>)
    requires WellFormed(Arr(items)) && NormAll(nfc, items) == Some(normed)
    requires forall j | 0 <= j < |steps| :: CarriesSome(nfc, items, steps[j])
    ensures forall x | x in steps :: x in normed
  {
    forall j | 0 <= j < |steps| ensures steps[j] in normed {
      var i := CarryingPlace(nfc, items, steps[j]);
      assert normed[i] == steps[j];
    }
  }

  lemma SortedAreCanonical(nfc: Normalizer, items: seq<Json>, normed: seq<Step>)
    requires WellFormed(Arr(items)) && NormAll(nfc, items) == Some(normed)
    requires Distinct(Ids(Sort(StepLeq, normed)))
    ensures CanonicalStepsOf(nfc, items, Sort(StepLeq, normed))
  {
    StepLeqTotal();
    SortOrdered(StepLeq, normed);
    OrderedIdsAscend(Sort(StepLeq, normed));
    SortKeepsElements(StepLeq, normed);
    SameElements(Sort(StepLeq, normed), normed);
    ListedCarry(nfc, items, normed, Sort(StepLeq, normed));
  }

  lemma OneArrangement(steps: seq<Step>, normed: seq<Step>)
    requires AscendingIds(steps) && |steps| == |normed| && forall x :: x in steps <==> x in normed
    ensures Sort(StepLeq, normed) == steps && Distinct(Ids(steps))
  {
    AscendingIdsSorted(steps);
    SameSizeSameMultiset(steps, normed);
    SortOfPermutedSteps(steps, normed);
    SortOfOrdered(StepLeq, steps);
  }

  lemma CanonicalAreSorted(nfc: Normalizer, items: seq<Json>, steps: seq<Step>)
    requires WellFormed(Arr(items)) && CanonicalStepsOf(nfc, items, steps)
    ensures NormAll(nfc, items).Some? && Sort(StepLeq, NormAll(nfc, items).value) == steps && Distinct(Ids(steps))
  {
    var normed := CarriedNormalize(nfc, items, steps);
    CarryingListed(nfc, items, steps, normed);
    OneArrangement(steps, normed);
  }

  /** Exactly which plans are accepted, and what each becomes. */
  lemma CanonicalizeIff(nfc: Normalizer, raw: seq<Entry<Json>>, p: Plan)
    requires WellFormed(Obj(raw))
    ensures Canonicalize(nfc, raw) == Some(p) <==>
      exists items :: HasHeader(nfc, raw, p.planId, items) && CanonicalStepsOf(nfc, items, p.steps)
  {
    StepsWellFormed(raw);
    if Canonicalize(nfc, raw) == Some(p) {
      var items := PlanHeader(nfc, raw).value.1;
      HeaderIff(nfc, raw, p.planId, items);
      SortedAreCanonical(nfc, items, NormAll(nfc, items).value);
    }
    if items :| HasHeader(nfc, raw, p.planId, items) && CanonicalStepsOf(nfc, items, p.steps) {
      HeaderIff(nfc, raw, p.planId, items);
      CanonicalAreSorted(nfc, items, p.steps);
    }
  }
}
