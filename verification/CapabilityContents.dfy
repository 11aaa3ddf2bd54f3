/**
 * What a plan built from capabilities holds (src/agent-run/capability-pipeline.ts): the goal and the
 * intent, and for each planned capability one call with an input in the goal's own terms.
 */
module CapabilityContents {
  import opened Common
  import opened JsStrings
  import opened Records
  import opened Json
  import opened PlanTypes
  import StepDependencies
  import opened StepBinding
  import opened CapabilityRules
  import opened CapabilityPipeline

  /** The reference to an earlier step's answer. */
  function RefTo(key: string, path: string): Json {
    Obj([Entry("$ref", Str("state.values." + key + "." + path))])
  }

  lemma RefTextIs(key: string, path: string)
    requires path != ""
    ensures RefText(key, path) == "state.values." + key + "." + path
  {
  }

  lemma MadeIsRefTo(c: Capability)
    requires c.TextNormalize? || c.JsonExtract? || c.JsonSelect?
    ensures Made(c, "text") == RefTo(OutKey(c), "text") && Made(c, "value") == RefTo(OutKey(c), "value")
  {
    RefTextIs(OutKey(c), "text");
    RefTextIs(OutKey(c), "value");
  }

  ghost predicate OneField(input: Json, key: string, v: Json) {
    input == Obj([Entry(key, v)])
  }

  /** The product the goal names, or the default one. */
  function Product(p: Params): string {
    match p.productName
    case Some(name) => name
    case None => "Laptop X Pro"
  }

  function Order(p: Params): string {
    match p.orderId
    case Some(id) => id
    case None => "ORDER-12345"
  }

  /** The object that select and merge work on, when one was made. */
  function ObjectTo(s: set<Capability>): Option<Json> {
    if JsonSelect in s then Some(RefTo("selected", "value"))
    else if JsonExtract in s then Some(RefTo("extractedUser", "value"))
    else None
  }

  /** The input of a capability's call, when the capabilities in `s` are planned. */
  ghost predicate InputIs(p: Params, s: set<Capability>, c: Capability, input: Json) {
    match c
    case OrdersFindById => OneField(input, "orderId", Str(Order(p)))
    case TextNormalize =>
      && Property(input, "text") == Some(Str(RAW_JSON)) && Property(input, "trim") == Some(Bool(true))
      && Property(input, "lowercase") == Some(Bool(false)) && Property(input, "collapseWhitespace") == Some(Bool(true))
    case JsonExtract =>
      && Property(input, "path") == Some(Str("user"))
      && Property(input, "text") == Some(if TextNormalize in s then RefTo("normalizedJson", "text") else Str(RAW_JSON))
    case JsonSelect =>
      && Property(input, "keys") == Some(Arr([Str("name"), Str("role")]))
      && Property(input, "text") == ObjectTo(s - {JsonSelect})
    case JsonMerge =>
      && Property(input, "left") == ObjectTo(s)
      && Property(input, "right") == Some(Str(Stringify(Obj([Entry("source", Str(p.plannerPrefix)), Entry("workflow", Str(p.intent))]))))
    case MathAdd => Property(input, "a") == Some(Num(2)) && Property(input, "b") == Some(Num(3))
    case Echo => OneField(input, "value", Str(p.plannerPrefix + ":" + p.intent))
    case _ => OneField(input, "productName", Str(Product(p)))
  }

  lemma PropertyAt(ms: seq<Entry<Json>>, i: nat)
    requires DistinctKeys(ms) && i < |ms|
    ensures Property(Obj(ms), ms[i].key) == Some(ms[i].value)
  {
    GetAt(ms, i);
  }

  lemma ObjectRefIs(b: Builder, s: set<Capability>)
    requires RefsFollow(b, s)
    ensures b.objectRef == ObjectTo(s)
    ensures b.textRef == if TextNormalize in s then RefTo("normalizedJson", "text") else Str(RAW_JSON)
  {
    MadeIsRefTo(TextNormalize);
    MadeIsRefTo(JsonExtract);
    MadeIsRefTo(JsonSelect);
  }

  lemma PlainCalls(p: Params, c: Capability, b: Builder, s: set<Capability>)
    requires !c.JsonExtract? && !c.JsonSelect? && !c.JsonMerge?
    ensures InputIs(p, s, c, Obj(Input(p, c, b)))
  {
    var ms := Input(p, c, b);
    if c.TextNormalize? {
      PropertyAt(ms, 0);
      PropertyAt(ms, 1);
      PropertyAt(ms, 2);
      PropertyAt(ms, 3);
    } else if c.MathAdd? {
      PropertyAt(ms, 0);
      PropertyAt(ms, 1);
    }
  }

  lemma ExtractCall(p: Params, b: Builder, s: set<Capability>)
    requires RefsFollow(b, s)
    ensures InputIs(p, s + {JsonExtract}, JsonExtract, Obj(Input(p, JsonExtract, b)))
  {
    ObjectRefIs(b, s);
    var ms := Input(p, JsonExtract, b);
    PropertyAt(ms, 0);
    PropertyAt(ms, 1);
  }

  lemma SelectCall(p: Params, b: Builder, s: set<Capability>)
    requires RefsFollow(b, s) && Before(s, JsonSelect)
    ensures InputIs(p, s + {JsonSelect}, JsonSelect, Obj(Input(p, JsonSelect, b)))
  {
    ObjectRefIs(b, s);
    assert JsonSelect !in s && s + {JsonSelect} - {JsonSelect} == s;
    var ms := Input(p, JsonSelect, b);
    PropertyAt(ms, |ms| - 1);
    if b.objectRef.Some? { PropertyAt(ms, 0); }
  }

  lemma MergeCall(p: Params, b: Builder, s: set<Capability>)
    requires RefsFollow(b, s)
    ensures InputIs(p, s + {JsonMerge}, JsonMerge, Obj(Input(p, JsonMerge, b)))
  {
    ObjectRefIs(b, s);
    assert ObjectTo(s + {JsonMerge}) == ObjectTo(s);
    var ms := Input(p, JsonMerge, b);
    PropertyAt(ms, |ms| - 1);
    if b.objectRef.Some? { PropertyAt(ms, 0); }
  }

  lemma CallInput(p: Params, c: Capability, b: Builder, s: set<Capability>)
    requires RefsFollow(b, s) && Before(s, c)
    ensures InputIs(p, s + {c}, c, Obj(Input(p, c, b)))
  {
    match c
    case JsonExtract => ExtractCall(p, b, s);
    case JsonSelect => SelectCall(p, b, s);
    case JsonMerge => MergeCall(p, b, s);
    case _ => PlainCalls(p, c, b, s + {c});
  }

  /** A step that calls a tool calls that of a planned capability, on its input, under its key. */
  ghost predicate Tells(p: Params, s: set<Capability>, step: Step) {
    step.ToolCall? ==> exists c :: c in s && IsStepOf(step, c) && InputIs(p, s, c, step.input)
  }

  /** A capability planned later does not change what earlier ones refer to. */
  lemma EarlierTells(p: Params, s: set<Capability>, step: Step, c: Capability)
    requires Tells(p, s, step) && Before(s, c)
    ensures Tells(p, s + {c}, step)
  {
    if step.ToolCall? {
      var x :| x in s && IsStepOf(step, x) && InputIs(p, s, x, step.input);
      assert Place(x) < Place(c);
      if x.JsonSelect? { assert ObjectTo(s + {c} - {JsonSelect}) == ObjectTo(s - {JsonSelect}); }
      assert InputIs(p, s + {c}, x, step.input);
    }
  }

  /** The goal and the intent are set first, and the planner is logged. */
  ghost predicate Opens(p: Params, steps: seq<Step>) {
    && |steps| >= 3 && steps[0] == Set("a", "goal", p.goal) && steps[1] == Set("b", "intent", p.intent)
    && steps[2] == AppendLog("c", if p.plannerPrefix == "llm-live" then "llm-live:planned" else "llm-mock:plan")
  }

  ghost predicate AllTell(p: Params, s: set<Capability>, steps: seq<Step>) {
    forall i | 0 <= i < |steps| :: Tells(p, s, steps[i])
  }

  ghost predicate Told(p: Params, b: Builder, s: set<Capability>) {
    Good(b, s) && Opens(p, b.steps) && AllTell(p, s, b.steps)
  }

  lemma CallTells(p: Params, c: Capability, b: Builder, s: set<Capability>)
    requires RefsFollow(b, s) && Before(s, c) && b.next < 26
    ensures Tells(p, s + {c}, Call(p, c, b))
  {
    CallInput(p, c, b, s);
    assert IsStepOf(Call(p, c, b), c) && c in s + {c};
  }

  lemma PushTells(p: Params, c: Capability, b: Builder, s: set<Capability>)
    requires RefsFollow(b, s) && AllTell(p, s, b.steps) && Before(s, c) && b.next < 13
    ensures AllTell(p, s + {c}, Push(p, c, b).steps)
  {
    CallTells(p, c, b, s);
    var steps := Push(p, c, b).steps;
    forall i | 0 <= i < |steps| ensures Tells(p, s + {c}, steps[i]) {
      if i < |b.steps| { EarlierTells(p, s, b.steps[i], c); }
    }
  }

  lemma PushTold(p: Params, c: Capability, b: Builder, s: set<Capability>)
    requires Told(p, b, s) && Before(s, c) && b.next < 13
    ensures Told(p, Push(p, c, b), s + {c}) && Push(p, c, b).next == b.next + 1
  {
    PushGood(p, c, b, s);
    PushTells(p, c, b, s);
  }

  ghost function ToldInvariant(p: Params): (Builder, set<Capability>) -> bool {
    (b: Builder, s: set<Capability>) => Told(p, b, s)
  }

  lemma StartTold(p: Params)
    ensures Told(p, Start(p), {})
  {
    StartHolds(p);
  }

  lemma NextTold(p: Params, c: Capability, b: Builder, s: set<Capability>, next: Builder)
    requires Told(p, b, s) && Before(s, c) && b.next < 13 && next == Pushing(p)(c, b)
    ensures Told(p, next, s + {c}) && next.next == b.next + 1
  {
    PushTold(p, c, b, s);
  }

  lemma OnePushTells(p: Params, b: Builder, s: set<Capability>, c: Capability)
    ensures PushKeeps(Pushing(p), ToldInvariant(p), b, s, c)
  {
    var inv, next := ToldInvariant(p), Pushing(p)(c, b);
    if inv(b, s) && Before(s, c) && b.next < 13 {
      NextTold(p, c, b, s, next);
      assert inv(next, s + {c}) && next.next == b.next + 1;
    }
  }

  lemma PushingTells(p: Params)
    ensures forall b, t, c :: PushKeeps(Pushing(p), ToldInvariant(p), b, t, c)
  {
    forall b, t, c ensures PushKeeps(Pushing(p), ToldInvariant(p), b, t, c) {
      OnePushTells(p, b, t, c);
    }
  }

  lemma OneTold(p: Params, c: Capability)
    ensures Told(p, Pushing(p)(c, Start(p)), {c})
  {
    StartTold(p);
    OnePushTells(p, Start(p), {}, c);
    assert ToldInvariant(p)(Pushing(p)(c, Start(p)), {} + {c});
    assert {} + {c} == {c};
  }

  lemma SeveralTold(p: Params, s: set<Capability>)
    ensures Told(p, BuildTo(Pushing(p), Start(p), s, PLACES), Upto(s, PLACES))
  {
    StartTold(p);
    PushingTells(p);
    BuildKeeps(Pushing(p), ToldInvariant(p), Start(p), s, PLACES);
  }

  lemma BuildToolsTold(p: Params, caps: seq<Capability>)
    ensures Told(p, BuildTools(p, caps), Planned(caps))
  {
    if MathAdd in caps {
      OneTold(p, MathAdd);
    } else if |caps| == 1 && caps[0] == Echo {
      OneTold(p, Echo);
    } else {
      SeveralTold(p, CapSet(caps));
    }
  }

  /** The capability has its call in the plan. */
  ghost predicate IsCalled(steps: seq<Step>, c: Capability) {
    exists i | 0 <= i < |steps| :: IsStepOf(steps[i], c)
  }

  lemma ProducerIsCall(step: Step, s: set<Capability>, c: Capability)
    requires FromSet(step, s) && StepDependencies.Produces(step, OutKey(c))
    ensures IsStepOf(step, c)
  {
    var x :| x in s && IsStepOf(step, x);
    KeyIsClean(x);
    OutKeyTells(x, c);
  }

  lemma ProducedIsCalled(steps: seq<Step>, s: set<Capability>, c: Capability)
    requires AllFrom(steps, s) && StepDependencies.ProducedBefore(steps, |steps|, OutKey(c))
    ensures IsCalled(steps, c)
  {
    var i :| 0 <= i < |steps| && StepDependencies.Produces(steps[i], OutKey(c));
    ProducerIsCall(steps[i], s, c);
  }

  lemma StillCalled(steps: seq<Step>, more: seq<Step>, c: Capability)
    requires IsCalled(steps, c)
    ensures IsCalled(steps + more, c)
  {
    var i :| 0 <= i < |steps| && IsStepOf(steps[i], c);
    assert (steps + more)[i] == steps[i];
  }

  lemma LogsTell(p: Params, s: set<Capability>, steps: seq<Step>, log: Step)
    requires log.AppendLog? && AllTell(p, s, steps)
    ensures AllTell(p, s, steps + [log])
  {
  }

  lemma InsertedTells(p: Params, s: set<Capability>, steps: seq<Step>, inserted: seq<Capability>)
    requires AllTell(p, s, steps)
    ensures AllTell(p, s, steps + InsertedLog(inserted))
  {
    var log := InsertedLog(inserted);
    if log != [] {
      LogsTell(p, s, steps, log[0]);
      assert log == [log[0]];
    } else {
      assert steps + log == steps;
    }
  }

  lemma FinishTells(p: Params, b: Builder, s: set<Capability>, inserted: seq<Capability>)
    requires Told(p, b, s)
    ensures var steps := Finish(b, inserted);
      && Opens(p, steps) && AllTell(p, s, steps) && (forall c | c in s :: IsCalled(steps, c))
      && steps[|steps| - 1].AppendLog? && steps[|steps| - 1].value == "done"
  {
    var done := AppendLog(if b.next < 26 then Letter(b.next) else "", "done");
    InsertedTells(p, s, b.steps, inserted);
    LogsTell(p, s, b.steps + InsertedLog(inserted), done);
    forall c | c in s ensures IsCalled(Finish(b, inserted), c) {
      ProducedIsCalled(b.steps, s, c);
      StillCalled(b.steps, InsertedLog(inserted), c);
      StillCalled(b.steps + InsertedLog(inserted), [done], c);
    }
  }

  /**
   * A built plan sets the goal and the intent, calls the tool of every planned capability and no
   * other tool, each on the input its capability stands for, and ends by logging that it is done.
   */
  lemma BuiltPlanTells(p: Params, n: Normalized)
    ensures var steps, s := SynthSteps(p, n), Planned(n.capabilities);
      && Opens(p, steps) && AllTell(p, s, steps)
      && (forall c | c in s :: IsCalled(steps, c))
      && steps[|steps| - 1].AppendLog? && steps[|steps| - 1].value == "done"
  {
    var b := BuildTools(p, n.capabilities);
    BuildToolsTold(p, n.capabilities);
    FinishTells(p, b, Planned(n.capabilities), n.inserted);
  }

  // ---- lists that are refused, and what is inserted --------------------------------------

  lemma NormalizedCheck(caps: seq<Capability>)
    requires NoRepeats(caps) && Check(NormalizeUnique(caps).capabilities).Refused?
    ensures Check(NormalizeUnique(caps).capabilities).code
         == if caps == [] then "EMPTY_CAPABILITY_PIPELINE" else "INVALID_CAPABILITY_COMBINATION"
  {
    CheckNormalizedIff(caps);
    if caps == [] { PushedOfNothing(); }
  }

  /** Normalized first, a list is only ever refused for being empty or for mixing echo with something else. */
  lemma SynthErrorTells(p: Params, capabilities: seq<Capability>)
    requires SynthPlan(p, capabilities).Err?
    ensures SynthPlan(p, capabilities).error
         == if capabilities == [] then "EMPTY_CAPABILITY_PIPELINE" else "INVALID_CAPABILITY_COMBINATION"
  {
    var caps := UniqueStable(capabilities);
    UniqueKeeps(capabilities);
    NormalizedNoRepeats(caps);
    UniqueOfNoRepeats(NormalizeUnique(caps).capabilities);
    NormalizedCheck(caps);
    if capabilities != [] { assert capabilities[0] in caps; }
  }

  /** What is reported as inserted is exactly what the normalized list has and the requested one has not. */
  lemma InsertedIs(capabilities: seq<Capability>, c: Capability)
    ensures c in Normalize(capabilities).inserted <==> c in Normalize(capabilities).capabilities && c !in capabilities
  {
    var caps := UniqueStable(capabilities);
    UniqueKeeps(capabilities);
    if MathAdd !in caps && Echo !in caps { PushedIs(caps); }
  }
}
