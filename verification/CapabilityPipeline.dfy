/**
 * Building a plan from capabilities (src/agent-run/capability-pipeline.ts). The goal's entities are
 * parameters. The plan that is built always passes the dependency and derived-input checks, and
 * its edges still point backward once the steps are sorted, although the log step `z` is pushed
 * out of sequence.
 */
module CapabilityPipeline {
  import opened Common
  import opened Sorting
  import opened JsStrings
  import opened Records
  import opened Json
  import opened PlanTypes
  import opened CanonicalPlan
  import opened PlanPermutation
  import opened StepDependencies
  import opened StepBinding
  import opened CapabilityRules

  datatype Params = Params(plannerPrefix: string, goal: string, intent: string, productName: Option<string>, orderId: Option<string>)

  // ---- names -----------------------------------------------------------------------------

  function ToolId(c: Capability): string {
    match c
    case CatalogProduct => "catalog/product-find"
    case CatalogPrice => "catalog/price-find"
    case CatalogAvailability => "catalog/availability-find"
    case OrdersFindById => "orders/find-by-id"
    case KbFindByProductName => "kb/find-by-product-name"
    case TextNormalize => "text/normalize"
    case JsonExtract => "json/extract"
    case JsonSelect => "json/select-keys"
    case JsonMerge => "json/merge"
    case MathAdd => "math/add"
    case Echo => "echo"
  }

  function OutKey(c: Capability): string {
    match c
    case CatalogProduct => "productLookup"
    case CatalogPrice => "priceLookup"
    case CatalogAvailability => "availabilityLookup"
    case OrdersFindById => "orderLookup"
    case KbFindByProductName => "knowledgeLookup"
    case TextNormalize => "normalizedJson"
    case JsonExtract => "extractedUser"
    case JsonSelect => "selected"
    case JsonMerge => "merged"
    case MathAdd => "sum"
    case Echo => "output"
  }

  function Name(c: Capability): string {
    match c
    case CatalogProduct => "catalog.product-find"
    case CatalogPrice => "catalog.price-find"
    case CatalogAvailability => "catalog.availability-find"
    case OrdersFindById => "orders.find-by-id"
    case KbFindByProductName => "kb.find-by-product-name"
    case TextNormalize => "text.normalize"
    case JsonExtract => "json.extract"
    case JsonSelect => "json.select"
    case JsonMerge => "json.merge"
    case MathAdd => "math.add"
    case Echo => "echo"
  }

  function ToolIdLength(c: Capability): nat {
    match c
    case CatalogProduct => 20
    case CatalogPrice => 18
    case CatalogAvailability => 25
    case OrdersFindById => 17
    case KbFindByProductName => 23
    case TextNormalize => 14
    case JsonExtract => 12
    case JsonSelect => 16
    case JsonMerge => 10
    case MathAdd => 8
    case Echo => 4
  }

  lemma ToolIdTells(a: Capability, b: Capability)
    requires ToolId(a) == ToolId(b)
    ensures a == b
  {
    assert |ToolId(a)| == ToolIdLength(a) && |ToolId(b)| == ToolIdLength(b);
  }

  function KeySignature(c: Capability): (nat, char) {
    match c
    case CatalogProduct => (13, 'p')
    case CatalogPrice => (11, 'p')
    case CatalogAvailability => (18, 'a')
    case OrdersFindById => (11, 'o')
    case KbFindByProductName => (15, 'k')
    case TextNormalize => (14, 'n')
    case JsonExtract => (13, 'e')
    case JsonSelect => (8, 's')
    case JsonMerge => (6, 'm')
    case MathAdd => (3, 's')
    case Echo => (6, 'o')
  }

  lemma KeySignatureIs(c: Capability)
    ensures OutKey(c) != "" && (|OutKey(c)|, OutKey(c)[0]) == KeySignature(c)
  {
  }

  lemma OutKeyTells(a: Capability, b: Capability)
    requires OutKey(a) == OutKey(b)
    ensures a == b
  {
    KeySignatureIs(a);
    KeySignatureIs(b);
  }

  lemma KeyIsClean(c: Capability)
    ensures OutKey(c) != "" && Trim(OutKey(c)) == OutKey(c)
  {
    KeySignatureIs(c);
    assert Trimmed(OutKey(c));
    TrimOfTrimmed(OutKey(c));
  }

  lemma KeyHasNoDot(c: Capability)
    requires c.TextNormalize? || c.JsonExtract? || c.JsonSelect?
    ensures '.' !in OutKey(c)
  {
  }

  // ---- building --------------------------------------------------------------------------

  function Letter(k: nat): string
    requires k < 26
  {
    [(k + 97) as char]
  }

  const RAW_JSON := "  {  \"user\" : { \"name\" : \"Oscar\" , \"role\" : \"inventor\" } , \"meta\" : { \"ok\" : true } }  "

  /** The variables of the builder; `next` is the position of the next letter. */
  datatype Builder = Builder(steps: seq<Step>, next: nat, textRef: Json, objectRef: Option<Json>)

  function PlannedLog(prefix: string): string {
    if prefix == "llm-live" then "llm-live:planned" else "llm-mock:plan"
  }

  function Start(p: Params): Builder {
    Builder([Set("a", "goal", p.goal), Set("b", "intent", p.intent), AppendLog("c", PlannedLog(p.plannerPrefix))], 3,
            Str(RAW_JSON), None)
  }

  function OptField(key: string, v: Option<Json>): seq<Entry<Json>> {
    if v.Some? then [Entry(key, v.value)] else []
  }

  function Input(p: Params, c: Capability, b: Builder): seq<Entry<Json>> {
    var product := Str(if p.productName.Some? then p.productName.value else "Laptop X Pro");
    match c
    case OrdersFindById => [Entry("orderId", Str(if p.orderId.Some? then p.orderId.value else "ORDER-12345"))]
    case TextNormalize =>
      [Entry("text", Str(RAW_JSON)), Entry("trim", Bool(true)), Entry("lowercase", Bool(false)), Entry("collapseWhitespace", Bool(true))]
    case JsonExtract => [Entry("text", b.textRef), Entry("path", Str("user"))]
    case JsonSelect => OptField("text", b.objectRef) + [Entry("keys", Arr([Str("name"), Str("role")]))]
    case JsonMerge =>
      OptField("left", b.objectRef)
      + [Entry("right", Str(Stringify(Obj([Entry("source", Str(p.plannerPrefix)), Entry("workflow", Str(p.intent))]))))]
    case MathAdd => [Entry("a", Num(2)), Entry("b", Num(3))]
    case Echo => [Entry("value", Str(p.plannerPrefix + ":" + p.intent))]
    case _ => [Entry("productName", product)]
  }

  /** `bindStepInputRef` with `undefined` as the fallback. */
  function BindOrNothing(steps: seq<Step>, key: string, path: string): Option<Json> {
    if Analyze(steps).Ok? && IsProduced(Analyze(steps).value, key) then MakeStepStateRef(key, path) else None
  }

  function Call(p: Params, c: Capability, b: Builder): Step
    requires b.next < 26
  {
    ToolCall(Letter(b.next), ToolId(c), OutKey(c), Obj(Input(p, c, b)))
  }

  /** Pushes the step of a capability and binds what later steps may refer to. */
  function Push(p: Params, c: Capability, b: Builder): Builder
    requires b.next < 26
  {
    var steps := b.steps + [Call(p, c, b)];
    var text := BindStepInputRef(steps, OutKey(c), "text", Str(RAW_JSON));
    Builder(steps, b.next + 1,
            if c.TextNormalize? && text.Some? then text.value else b.textRef,
            if c.JsonExtract? || c.JsonSelect? then BindOrNothing(steps, OutKey(c), "value") else b.objectRef)
  }

  type Pusher = (Capability, Builder) -> Builder

  /** Pushing a capability; there are always letters left. */
  function Pushing(p: Params): Pusher {
    (c: Capability, b: Builder) => if b.next < 26 then Push(p, c, b) else b
  }

  /** The steps of the members of `s` at the first `k` places. */
  function BuildTo(push: Pusher, start: Builder, s: set<Capability>, k: nat): Builder
    requires k <= PLACES
  {
    if k == 0 then start
    else if At(k - 1) in s then push(At(k - 1), BuildTo(push, start, s, k - 1))
    else BuildTo(push, start, s, k - 1)
  }

  function CapSet(caps: seq<Capability>): set<Capability> {
    set c | c in caps
  }

  function BuildTools(p: Params, caps: seq<Capability>): Builder {
    if MathAdd in caps then Pushing(p)(MathAdd, Start(p))
    else if |caps| == 1 && caps[0] == Echo then Pushing(p)(Echo, Start(p))
    else BuildTo(Pushing(p), Start(p), CapSet(caps), PLACES)
  }

  function Names(caps: seq<Capability>): seq<string> {
    if caps == [] then [] else [Name(caps[0])] + Names(caps[1..])
  }

  /** The log of what was inserted, pushed before the last step under the letter z. */
  function InsertedLog(inserted: seq<Capability>): seq<Step> {
    if inserted == [] then []
    else [AppendLog("z", "capabilities:auto-inserted:" + Join(Sort(Leq, Names(inserted))))]
  }

  function Finish(b: Builder, inserted: seq<Capability>): seq<Step> {
    b.steps + InsertedLog(inserted) + [AppendLog(if b.next < 26 then Letter(b.next) else "", "done")]
  }

  function PlanId(p: Params): string {
    if p.plannerPrefix == "llm-live" then "agent-run-llm-live-mock-v1:" + p.intent
    else if p.plannerPrefix == "llm-mock" then "agent-run-llm-mock-v1:" + p.intent
    else "agent-run-" + p.plannerPrefix + "-v1:" + p.intent
  }

  const RULES := [
    Rule(ToolId(JsonExtract), "text", OutKey(TextNormalize), "text"),
    Rule(ToolId(JsonSelect), "text", OutKey(JsonExtract), "value"),
    Rule(ToolId(JsonMerge), "left", OutKey(JsonSelect), "value")]

  // ---- what holds of every stage ---------------------------------------------------------

  function Made(c: Capability, path: string): Json {
    Obj([Entry("$ref", Str(RefText(OutKey(c), path)))])
  }

  predicate IsStepOf(step: Step, c: Capability) {
    step.ToolCall? && step.toolId == ToolId(c) && step.outputKey == OutKey(c)
  }

  /** A log or set step, or the step of one of the capabilities. */
  ghost predicate FromSet(step: Step, s: set<Capability>) {
    step.Set? || step.AppendLog? || exists c :: c in s && IsStepOf(step, c)
  }

  /** The input the rule names is the reference the rule asks for. */
  predicate TakesRef(step: Step, key: string, producer: Capability, path: string) {
    step.ToolCall? && Property(step.input, key) == Some(Made(producer, path))
  }

  ghost predicate Derived(step: Step, s: set<Capability>) {
    && (IsStepOf(step, JsonExtract) && TextNormalize in s ==> TakesRef(step, "text", TextNormalize, "text"))
    && (IsStepOf(step, JsonSelect) && JsonExtract in s ==> TakesRef(step, "text", JsonExtract, "value"))
    && (IsStepOf(step, JsonMerge) && JsonSelect in s ==> TakesRef(step, "left", JsonSelect, "value"))
  }

  ghost predicate AllFrom(steps: seq<Step>, s: set<Capability>) {
    forall i | 0 <= i < |steps| :: FromSet(steps[i], s)
  }

  ghost predicate AllProduced(steps: seq<Step>, s: set<Capability>) {
    forall c | c in s :: ProducedBefore(steps, |steps|, OutKey(c))
  }

  ghost predicate Lettered(b: Builder) {
    b.next == |b.steps| <= 13 && forall i | 0 <= i < |b.steps| :: b.steps[i].id == Letter(i)
  }

  ghost predicate RefsFollow(b: Builder, s: set<Capability>) {
    && b.textRef == (if TextNormalize in s then Made(TextNormalize, "text") else Str(RAW_JSON))
    && b.objectRef == (if JsonSelect in s then Some(Made(JsonSelect, "value"))
                       else if JsonExtract in s then Some(Made(JsonExtract, "value")) else None)
  }

  ghost predicate AllDerived(steps: seq<Step>, s: set<Capability>) {
    forall i | 0 <= i < |steps| :: Derived(steps[i], s)
  }

  // ---- one push --------------------------------------------------------------------------

  lemma {:induction false} RefOfMember(ms: seq<Entry<Json>>, r: Ref)
    requires r in CollectMembers(ms)
    ensures exists i | 0 <= i < |ms| :: r in CollectRefs(ms[i].value)
  {
    if r !in CollectRefs(ms[0].value) {
      RefOfMember(ms[1..], r);
      var i :| 0 <= i < |ms[1..]| && r in CollectRefs(ms[1..][i].value);
      assert r in CollectRefs(ms[i + 1].value);
    } else {
      assert r in CollectRefs(ms[0].value);
    }
  }

  predicate NoRefs(v: Json) {
    v.Str? || v.Bool? || v.Num? || v == Arr([Str("name"), Str("role")])
  }

  lemma NoRefsCollected(v: Json)
    requires NoRefs(v)
    ensures CollectRefs(v) == []
  {
    if v.Arr? {
      var items := [Str("name"), Str("role")];
      assert items[1..] == [Str("role")] && items[1..][1..] == [];
      assert CollectItems(items[1..]) == CollectRefs(Str("role")) + CollectItems([]);
    }
  }

  lemma MadeCollected(c: Capability, path: string)
    requires c.TextNormalize? || c.JsonExtract? || c.JsonSelect?
    requires Trim(path) == path
    ensures MakeStepStateRef(OutKey(c), path) == Some(Made(c, path))
    ensures ParseRef(Made(c, path)) == Some(Ref("$ref", RefText(OutKey(c), path), OutKey(c), path))
    ensures CollectRefs(Made(c, path)) == [Ref("$ref", RefText(OutKey(c), path), OutKey(c), path)]
  {
    KeyIsClean(c);
    KeyHasNoDot(c);
    MadeRefReadsBack(OutKey(c), path);
  }

  lemma PathsAreTrimmed()
    ensures Trim("text") == "text" && Trim("value") == "value"
  {
    TrimOfTrimmed("text");
    TrimOfTrimmed("value");
  }

  /** Each field of an input has no references, or is what the builder bound. */
  lemma InputFields(p: Params, c: Capability, b: Builder, i: nat)
    requires i < |Input(p, c, b)|
    ensures var v := Input(p, c, b)[i].value;
      NoRefs(v) || (c.JsonExtract? && v == b.textRef) || ((c.JsonSelect? || c.JsonMerge?) && Some(v) == b.objectRef)
    ensures Input(p, c, b)[i].key != "$ref" && Input(p, c, b)[i].key != "__valueFromState"
  {
  }

  lemma BoundRefs(b: Builder, s: set<Capability>, v: Json, r: Ref)
    requires RefsFollow(b, s) && v.Obj? && (v == b.textRef || Some(v) == b.objectRef) && r in CollectRefs(v)
    ensures exists x :: x in s && r.outputKey == OutKey(x)
  {
    PathsAreTrimmed();
    var c, path :| c in s && v == Made(c, path) && Trim(path) == path && (c.TextNormalize? || c.JsonExtract? || c.JsonSelect?);
    MadeCollected(c, path);
  }

  lemma InputRefs(p: Params, c: Capability, b: Builder, s: set<Capability>, r: Ref)
    requires RefsFollow(b, s) && r in CollectRefs(Obj(Input(p, c, b)))
    ensures exists x :: x in s && r.outputKey == OutKey(x)
  {
    var ms := Input(p, c, b);
    if |ms| == 1 { InputFields(p, c, b, 0); }
    RefOfMember(ms, r);
    var i :| 0 <= i < |ms| && r in CollectRefs(ms[i].value);
    InputFields(p, c, b, i);
    if NoRefs(ms[i].value) {
      NoRefsCollected(ms[i].value);
    } else {
      BoundRefs(b, s, ms[i].value, r);
    }
  }

  ghost predicate Before(s: set<Capability>, c: Capability) {
    forall x | x in s :: Place(x) < Place(c)
  }

  lemma ProducerIs(step: Step, s: set<Capability>, key: string)
    requires FromSet(step, s) && Produces(step, key)
    ensures exists x :: x in s && OutKey(x) == key
  {
    var x :| x in s && IsStepOf(step, x);
    KeyIsClean(x);
  }

  lemma ProducedOnlyBySet(steps: seq<Step>, s: set<Capability>, key: string)
    requires AllFrom(steps, s) && ProducedBefore(steps, |steps|, key)
    ensures exists x :: x in s && OutKey(x) == key
  {
    var j :| 0 <= j < |steps| && Produces(steps[j], key);
    ProducerIs(steps[j], s, key);
  }

  lemma NotYetProduced(steps: seq<Step>, s: set<Capability>, c: Capability)
    requires AllFrom(steps, s) && Before(s, c)
    ensures !ProducedBefore(steps, |steps|, OutKey(c))
  {
    if ProducedBefore(steps, |steps|, OutKey(c)) {
      ProducedOnlyBySet(steps, s, OutKey(c));
      var x :| x in s && OutKey(x) == OutKey(c);
      OutKeyTells(x, c);
    }
  }

  lemma PushLettered(p: Params, c: Capability, b: Builder)
    requires Lettered(b) && b.next < 13
    ensures Lettered(Push(p, c, b)) && Push(p, c, b).next == b.next + 1
  {
  }

  lemma CallProduces(p: Params, c: Capability, b: Builder)
    requires b.next < 26
    ensures ProducedBefore(b.steps + [Call(p, c, b)], |b.steps| + 1, OutKey(c))
  {
    KeyIsClean(c);
    assert Produces((b.steps + [Call(p, c, b)])[|b.steps|], OutKey(c));
  }

  lemma ProducedStays(steps: seq<Step>, step: Step, key: string)
    requires ProducedBefore(steps, |steps|, key)
    ensures ProducedBefore(steps + [step], |steps| + 1, key)
  {
    var j :| 0 <= j < |steps| && Produces(steps[j], key);
    assert Produces((steps + [step])[j], key);
  }

  lemma FromSetGrows(step: Step, s: set<Capability>, c: Capability)
    requires FromSet(step, s) || IsStepOf(step, c)
    ensures FromSet(step, s + {c})
  {
    if IsStepOf(step, c) {
      assert c in s + {c};
    } else if !step.Set? && !step.AppendLog? {
      var x :| x in s && IsStepOf(step, x);
      assert x in s + {c};
    }
  }

  lemma PushFrom(p: Params, c: Capability, b: Builder, s: set<Capability>)
    requires b.next < 26 && AllFrom(b.steps, s)
    ensures AllFrom(Push(p, c, b).steps, s + {c})
  {
    var steps := Push(p, c, b).steps;
    forall i | 0 <= i < |steps| ensures FromSet(steps[i], s + {c}) {
      FromSetGrows(steps[i], s, c);
    }
  }

  lemma PushProduced(p: Params, c: Capability, b: Builder, s: set<Capability>)
    requires b.next < 26 && AllProduced(b.steps, s)
    ensures AllProduced(Push(p, c, b).steps, s + {c})
  {
    var call := Call(p, c, b);
    var steps := b.steps + [call];
    forall x | x in s + {c} ensures ProducedBefore(steps, |steps|, OutKey(x)) {
      if x in s { ProducedStays(b.steps, call, OutKey(x)); } else { CallProduces(p, c, b); }
    }
  }

  lemma CallRefsProduced(p: Params, c: Capability, b: Builder, s: set<Capability>)
    requires b.next < 26 && RefsFollow(b, s) && AllProduced(b.steps, s)
    ensures forall r | r in RefsOf(Call(p, c, b)) :: ProducedBefore(b.steps, |b.steps|, r.outputKey)
  {
    forall r | r in RefsOf(Call(p, c, b)) ensures ProducedBefore(b.steps, |b.steps|, r.outputKey) {
      InputRefs(p, c, b, s, r);
    }
  }

  lemma PushDependencies(p: Params, c: Capability, b: Builder, s: set<Capability>)
    requires b.next < 26 && DependenciesHold(b.steps) && RefsFollow(b, s) && Before(s, c)
    requires AllFrom(b.steps, s) && AllProduced(b.steps, s)
    ensures DependenciesHold(Push(p, c, b).steps)
  {
    var call := Call(p, c, b);
    CallRefsProduced(p, c, b, s);
    KeyIsClean(c);
    NotYetProduced(b.steps, s, c);
    AppendKeepsDependencies(b.steps, call);
  }

  lemma BindMakes(steps: seq<Step>, c: Capability, path: string)
    requires c.TextNormalize? || c.JsonExtract? || c.JsonSelect?
    requires DependenciesHold(steps) && ProducedBefore(steps, |steps|, OutKey(c)) && Trim(path) == path
    ensures BindOrNothing(steps, OutKey(c), path) == Some(Made(c, path))
    ensures BindStepInputRef(steps, OutKey(c), path, Str(RAW_JSON)) == Some(Made(c, path))
  {
    AnalyzeOkIff(steps);
    ProducedIff(steps, OutKey(c));
    MadeCollected(c, path);
  }

  /** How binding the key of a new capability moves the references, given what binding returns. */
  function Rebound(c: Capability, text: Json, bound: Option<Json>): (Json, Option<Json>) {
    (if c.TextNormalize? then Made(c, "text") else text,
     if c.JsonExtract? || c.JsonSelect? then Some(Made(c, "value")) else bound)
  }

  lemma PushRebinds(p: Params, c: Capability, b: Builder)
    requires b.next < 26 && DependenciesHold(Push(p, c, b).steps)
    ensures (Push(p, c, b).textRef, Push(p, c, b).objectRef) == Rebound(c, b.textRef, b.objectRef)
  {
    var steps := b.steps + [Call(p, c, b)];
    PathsAreTrimmed();
    CallProduces(p, c, b);
    if c.TextNormalize? {
      BindMakes(steps, c, "text");
    } else if c.JsonExtract? || c.JsonSelect? {
      BindMakes(steps, c, "value");
    }
  }

  lemma ReboundFollows(b: Builder, next: Builder, s: set<Capability>, c: Capability)
    requires RefsFollow(b, s) && Before(s, c) && (next.textRef, next.objectRef) == Rebound(c, b.textRef, b.objectRef)
    ensures RefsFollow(next, s + {c})
  {
  }

  lemma PushRefs(p: Params, c: Capability, b: Builder, s: set<Capability>)
    requires b.next < 26 && DependenciesHold(Push(p, c, b).steps) && RefsFollow(b, s) && Before(s, c)
    ensures RefsFollow(Push(p, c, b), s + {c})
  {
    PushRebinds(p, c, b);
    ReboundFollows(b, Push(p, c, b), s, c);
  }

  lemma PropertyOfFirst(ms: seq<Entry<Json>>)
    requires ms != []
    ensures Property(Obj(ms), ms[0].key) == Some(ms[0].value)
  {
    assert Has(ms, ms[0].key);
  }

  lemma StepOfOne(step: Step, c: Capability, x: Capability)
    requires IsStepOf(step, c) && IsStepOf(step, x)
    ensures x == c
  {
    ToolIdTells(x, c);
  }

  /** The new step takes the references its rules ask for. */
  lemma CallDerived(p: Params, c: Capability, b: Builder, s: set<Capability>)
    requires RefsFollow(b, s) && Before(s, c) && b.next < 26
    ensures Derived(Call(p, c, b), s + {c})
  {
    var call := Call(p, c, b);
    PropertyOfFirst(Input(p, c, b));
    forall x | IsStepOf(call, x) ensures x == c { StepOfOne(call, c, x); }
  }

  /** A step pushed earlier keeps the references its rules ask for: its producers were there before it. */
  lemma EarlierDerived(step: Step, s: set<Capability>, c: Capability)
    requires FromSet(step, s) && Derived(step, s) && Before(s, c)
    ensures Derived(step, s + {c})
  {
    if step.ToolCall? {
      var x :| x in s && IsStepOf(step, x);
      forall y | IsStepOf(step, y) ensures y == x { StepOfOne(step, x, y); }
    }
  }

  lemma PushDerived(p: Params, c: Capability, b: Builder, s: set<Capability>)
    requires b.next < 26 && AllFrom(b.steps, s) && RefsFollow(b, s) && AllDerived(b.steps, s) && Before(s, c)
    ensures AllDerived(Push(p, c, b).steps, s + {c})
  {
    var steps := Push(p, c, b).steps;
    CallDerived(p, c, b, s);
    forall i | 0 <= i < |steps| ensures Derived(steps[i], s + {c}) {
      if i < |b.steps| { EarlierDerived(b.steps[i], s, c); }
    }
  }

  // ---- all stages ------------------------------------------------------------------------

  lemma StartHolds(p: Params)
    ensures Lettered(Start(p)) && DependenciesHold(Start(p).steps) && AllFrom(Start(p).steps, {})
    ensures RefsFollow(Start(p), {}) && AllDerived(Start(p).steps, {}) && AllProduced(Start(p).steps, {})
  {
    var steps := Start(p).steps;
    forall i | 0 <= i < 3 ensures RefsProduced(steps, i) { assert RefsOf(steps[i]) == []; }
  }

  /** The members of `s` at the first `k` places. */
  function Upto(s: set<Capability>, k: nat): set<Capability> {
    set c | c in s && Place(c) < k
  }

  lemma UptoNext(s: set<Capability>, k: nat)
    requires k < PLACES
    ensures Upto(s, k + 1) == if At(k) in s then Upto(s, k) + {At(k)} else Upto(s, k)
    ensures Before(Upto(s, k), At(k))
  {
    forall x | x in s && Place(x) == k ensures x == At(k) { PlaceDecides(x, At(k)); }
  }

  /** Everything that holds of a builder that has pushed the capabilities in `s`. */
  ghost predicate Good(b: Builder, s: set<Capability>) {
    && Lettered(b) && DependenciesHold(b.steps) && RefsFollow(b, s)
    && AllFrom(b.steps, s) && AllProduced(b.steps, s) && AllDerived(b.steps, s)
  }

  lemma PushGood(p: Params, c: Capability, b: Builder, s: set<Capability>)
    requires Good(b, s) && Before(s, c) && b.next < 13
    ensures Good(Push(p, c, b), s + {c}) && Push(p, c, b).next == b.next + 1
  {
    PushLettered(p, c, b);
    PushDependencies(p, c, b, s);
    PushRefs(p, c, b, s);
    PushFrom(p, c, b, s);
    PushProduced(p, c, b, s);
    PushDerived(p, c, b, s);
  }

  /** What a push keeps: the invariant, and a letter a push. */
  ghost predicate PushKeeps(push: Pusher, inv: (Builder, set<Capability>) -> bool, b: Builder, s: set<Capability>, c: Capability) {
    inv(b, s) && Before(s, c) && b.next < 13 ==> inv(push(c, b), s + {c}) && push(c, b).next == b.next + 1
  }

  lemma {:induction false} BuildKeeps(push: Pusher, inv: (Builder, set<Capability>) -> bool, start: Builder, s: set<Capability>, k: nat)
    requires k <= PLACES && inv(start, {}) && start.next == 3
    requires forall b, t, c :: PushKeeps(push, inv, b, t, c)
    ensures inv(BuildTo(push, start, s, k), Upto(s, k)) && BuildTo(push, start, s, k).next <= 3 + k
  {
    if k == 0 {
      assert Upto(s, 0) == {};
    } else {
      BuildKeeps(push, inv, start, s, k - 1);
      UptoNext(s, k - 1);
      assert PushKeeps(push, inv, BuildTo(push, start, s, k - 1), Upto(s, k - 1), At(k - 1));
    }
  }

  ghost function Invariant(): (Builder, set<Capability>) -> bool {
    (b: Builder, s: set<Capability>) => Good(b, s)
  }

  lemma PushingKeeps(p: Params)
    ensures forall b, t, c :: PushKeeps(Pushing(p), Invariant(), b, t, c)
  {
    forall b, t, c ensures PushKeeps(Pushing(p), Invariant(), b, t, c) {
      if Good(b, t) && Before(t, c) && b.next < 13 { PushGood(p, c, b, t); }
    }
  }

  /** Which capabilities a normalized list makes steps of. */
  function Planned(caps: seq<Capability>): set<Capability> {
    if MathAdd in caps then {MathAdd} else if |caps| == 1 && caps[0] == Echo then {Echo} else Upto(CapSet(caps), PLACES)
  }

  lemma BuildToolsGood(p: Params, caps: seq<Capability>)
    ensures Good(BuildTools(p, caps), Planned(caps)) && BuildTools(p, caps).next <= 12
  {
    StartHolds(p);
    PushingKeeps(p);
    if MathAdd in caps || (|caps| == 1 && caps[0] == Echo) {
      var c := if MathAdd in caps then MathAdd else Echo;
      PushGood(p, c, Start(p), {});
      assert {} + {c} == {c};
    } else {
      BuildKeeps(Pushing(p), Invariant(), Start(p), CapSet(caps), PLACES);
    }
  }

  // ---- the whole plan --------------------------------------------------------------------

  lemma LogKeepsDependencies(steps: seq<Step>, log: Step)
    requires DependenciesHold(steps) && log.AppendLog?
    ensures DependenciesHold(steps + [log])
  {
    assert RefsOf(log) == [];
    AppendKeepsDependencies(steps, log);
  }

  lemma LogKeepsRest(steps: seq<Step>, log: Step, s: set<Capability>)
    requires log.AppendLog? && AllFrom(steps, s) && AllDerived(steps, s)
    ensures AllFrom(steps + [log], s) && AllDerived(steps + [log], s)
  {
    forall i | 0 <= i < |steps| + 1 ensures FromSet((steps + [log])[i], s) && Derived((steps + [log])[i], s) {
      if i < |steps| { assert FromSet(steps[i], s) && Derived(steps[i], s); }
    }
  }

  /** What the checks at the end need. */
  ghost predicate Checkable(steps: seq<Step>, s: set<Capability>) {
    DependenciesHold(steps) && AllFrom(steps, s) && AllDerived(steps, s)
  }

  lemma LogKeepsCheckable(steps: seq<Step>, log: Step, s: set<Capability>)
    requires log.AppendLog? && Checkable(steps, s)
    ensures Checkable(steps + [log], s)
  {
    LogKeepsDependencies(steps, log);
    LogKeepsRest(steps, log, s);
  }

  function SynthSteps(p: Params, n: Normalized): seq<Step> {
    Finish(BuildTools(p, n.capabilities), n.inserted)
  }

  lemma SynthIsCheckable(p: Params, n: Normalized)
    ensures Checkable(SynthSteps(p, n), Planned(n.capabilities))
  {
    var b, s := BuildTools(p, n.capabilities), Planned(n.capabilities);
    BuildToolsGood(p, n.capabilities);
    var log := InsertedLog(n.inserted);
    if log == [] {
      assert b.steps + [] == b.steps;
    } else {
      LogKeepsCheckable(b.steps, log[0], s);
      assert log == [log[0]];
    }
    LogKeepsCheckable(b.steps + log, AppendLog(Letter(b.next), "done"), s);
  }

  lemma RuleObeyed(steps: seq<Step>, s: set<Capability>, i: nat, consumer: Capability, key: string, producer: Capability, path: string)
    requires Checkable(steps, s) && i < |steps| && Analyze(steps).Ok? && Trim(path) == path
    requires producer.TextNormalize? || producer.JsonExtract? || producer.JsonSelect?
    requires IsStepOf(steps[i], consumer) && producer in s ==> TakesRef(steps[i], key, producer, path)
    ensures Obeys(Analyze(steps).value, steps[i], Rule(ToolId(consumer), key, OutKey(producer), path))
  {
    var a, step, rule := Analyze(steps).value, steps[i], Rule(ToolId(consumer), key, OutKey(producer), path);
    if Applies(a, step, rule) {
      ProducedIff(steps, OutKey(producer));
      ProducedOnlyBySet(steps, s, OutKey(producer));
      var x :| x in s && OutKey(x) == OutKey(producer);
      OutKeyTells(x, producer);
      assert FromSet(step, s);
      var y :| y in s && IsStepOf(step, y);
      ToolIdTells(y, consumer);
      MadeCollected(producer, path);
    }
  }

  lemma AllRulesObeyed(steps: seq<Step>, s: set<Capability>, i: nat, k: nat)
    requires Checkable(steps, s) && i < |steps| && k < |RULES| && Analyze(steps).Ok?
    ensures Obeys(Analyze(steps).value, steps[i], RULES[k])
  {
    PathsAreTrimmed();
    assert Derived(steps[i], s);
    if k == 0 {
      RuleObeyed(steps, s, i, JsonExtract, "text", TextNormalize, "text");
    } else if k == 1 {
      RuleObeyed(steps, s, i, JsonSelect, "text", JsonExtract, "value");
    } else {
      RuleObeyed(steps, s, i, JsonMerge, "left", JsonSelect, "value");
    }
  }

  /** Whatever the capabilities, both checks at the end of the builder pass. */
  lemma SynthPassesChecks(p: Params, n: Normalized)
    ensures var steps := SynthSteps(p, n);
      && Analyze(steps).Ok?
      && forall i, k | 0 <= i < |steps| && 0 <= k < |RULES| :: Obeys(Analyze(steps).value, steps[i], RULES[k])
  {
    var steps, s := SynthSteps(p, n), Planned(n.capabilities);
    SynthIsCheckable(p, n);
    AnalyzeOkIff(steps);
    forall i, k | 0 <= i < |steps| && 0 <= k < |RULES| ensures Obeys(Analyze(steps).value, steps[i], RULES[k]) {
      AllRulesObeyed(steps, s, i, k);
    }
  }

  /** What `buildCapabilitySynthPlan` returns, or the code of the error it throws. */
  function SynthPlan(p: Params, capabilities: seq<Capability>): Result<Plan, string> {
    var n := Normalize(capabilities);
    match Validate(n.capabilities)
    case Refused(code) => Err(code)
    case Passes => Ok(Plan(PlanId(p), SynthSteps(p, n)))
  }

  lemma BuildOne(push: Pusher, start: Builder, s: set<Capability>, k: nat)
    requires k < PLACES
    ensures BuildTo(push, start, s, k + 1)
         == if At(k) in s then push(At(k), BuildTo(push, start, s, k)) else BuildTo(push, start, s, k)
  {
  }

  method PushCatalog(push: Pusher, start: Builder, caps: seq<Capability>) returns (b: Builder)
    ensures b == BuildTo(push, start, CapSet(caps), 5)
  {
    ghost var s := CapSet(caps);
    b := start;
    BuildOne(push, start, s, 0);
    if CatalogProduct in caps {
      b := push(CatalogProduct, b);
    }
    BuildOne(push, start, s, 1);
    if CatalogPrice in caps {
      b := push(CatalogPrice, b);
    }
    BuildOne(push, start, s, 2);
    if CatalogAvailability in caps {
      b := push(CatalogAvailability, b);
    }
    BuildOne(push, start, s, 3);
    if OrdersFindById in caps {
      b := push(OrdersFindById, b);
    }
    BuildOne(push, start, s, 4);
    if KbFindByProductName in caps {
      b := push(KbFindByProductName, b);
    }
  }

  method PushText(push: Pusher, start: Builder, caps: seq<Capability>, catalog: Builder) returns (b: Builder)
    requires catalog == BuildTo(push, start, CapSet(caps), 5)
    ensures b == BuildTo(push, start, CapSet(caps), PLACES)
  {
    ghost var s := CapSet(caps);
    b := catalog;
    BuildOne(push, start, s, 5);
    if TextNormalize in caps {
      b := push(TextNormalize, b);
    }
    BuildOne(push, start, s, 6);
    if JsonExtract in caps {
      b := push(JsonExtract, b);
    }
    BuildOne(push, start, s, 7);
    if JsonSelect in caps {
      b := push(JsonSelect, b);
    }
    BuildOne(push, start, s, 8);
    if JsonMerge in caps {
      b := push(JsonMerge, b);
    }
  }

  method BuildCapabilitySynthPlan(p: Params, capabilities: seq<Capability>) returns (r: Result<Plan, string>)
    ensures r == SynthPlan(p, capabilities)
  {
    var normalized := NormalizeCapabilityPipelineDetailed(capabilities);
    var caps := normalized.capabilities;
    var validation := ValidateCapabilityPipeline(caps);
    if validation.Refused? {
      return Err(validation.code);
    }
    var push, b := Pushing(p), Start(p);
    if MathAdd in caps {
      b := push(MathAdd, b);
    } else if |caps| == 1 && caps[0] == Echo {
      b := push(Echo, b);
    } else {
      var catalog := PushCatalog(push, b, caps);
      b := PushText(push, b, caps, catalog);
    }
    var steps := Finish(b, normalized.inserted);
    SynthPassesChecks(p, normalized);
    // The source throws when either check fails; neither can.
    var dependencies := AnalyzeStepDependencies(steps);
    if dependencies.Err? {
      assert false;
    }
    var derived := ValidateRequiredDerivedInputs(steps, RULES);
    if derived.Err? {
      assert false;
    }
    return Ok(Plan(PlanId(p), steps));
  }

  /** The builder fails exactly on the lists that cannot be planned. */
  lemma SynthFailsIff(p: Params, capabilities: seq<Capability>)
    ensures SynthPlan(p, capabilities).Err? <==> !Plannable(capabilities)
  {
    ValidAfterNormalizeIff(capabilities);
  }

  // ---- after sorting ---------------------------------------------------------------------

  /** The steps in the order of their letters: the log of what was inserted comes last. */
  function InLetterOrder(b: Builder, inserted: seq<Capability>): seq<Step> {
    b.steps + [AppendLog(if b.next < 26 then Letter(b.next) else "", "done")] + InsertedLog(inserted)
  }

  lemma LettersLess(i: nat, j: nat)
    requires i < j < 26
    ensures Less(Letter(i), Letter(j))
  {
  }

  lemma LetterOrderIds(b: Builder, inserted: seq<Capability>, i: nat)
    requires Lettered(b) && b.next <= 12 && i < |InLetterOrder(b, inserted)|
    ensures InLetterOrder(b, inserted)[i].id == Letter(if i <= b.next then i else 25)
    ensures |InLetterOrder(b, inserted)| <= b.next + 2
  {
  }

  lemma LetterOrderOrdered(b: Builder, inserted: seq<Capability>)
    requires Lettered(b) && b.next <= 12
    ensures Ordered(StepLeq, InLetterOrder(b, inserted)) && Distinct(Ids(InLetterOrder(b, inserted)))
  {
    var q := InLetterOrder(b, inserted);
    forall i, j | 0 <= i < j < |q| ensures StepLeq(q[i], q[j]) && q[i].id != q[j].id {
      LetterOrderIds(b, inserted, i);
      LetterOrderIds(b, inserted, j);
      LettersLess(if i <= b.next then i else 25, if j <= b.next then j else 25);
      IdsDecide(q[i], q[j]);
      LessAsymmetric(q[i].id, q[j].id);
    }
  }

  lemma SortedFinish(b: Builder, inserted: seq<Capability>)
    requires Lettered(b) && b.next <= 12
    ensures Sort(StepLeq, Finish(b, inserted)) == InLetterOrder(b, inserted)
    ensures Distinct(Ids(Finish(b, inserted)))
  {
    var q, f := InLetterOrder(b, inserted), Finish(b, inserted);
    LetterOrderOrdered(b, inserted);
    assert multiset(q) == multiset(f);
    SortOfPermutedSteps(q, f);
    SortOfOrdered(StepLeq, q);
    SortKeepsDistinctIds(f);
  }

  /**
   * The ids of a built plan are distinct, and once the steps are sorted, the step `z` moved to the
   * end, every reference still points backward to the one step that produces its key.
   */
  lemma SortedEdgesPointBackward(p: Params, n: Normalized)
    ensures Distinct(Ids(SynthSteps(p, n)))
    ensures DependenciesHold(Sort(StepLeq, SynthSteps(p, n)))
  {
    var b := BuildTools(p, n.capabilities);
    BuildToolsGood(p, n.capabilities);
    SortedFinish(b, n.inserted);
    var done := AppendLog(Letter(b.next), "done");
    LogKeepsDependencies(b.steps, done);
    var log := InsertedLog(n.inserted);
    if log == [] {
      assert b.steps + [done] + [] == b.steps + [done];
    } else {
      LogKeepsDependencies(b.steps + [done], log[0]);
      assert log == [log[0]];
    }
  }
}
