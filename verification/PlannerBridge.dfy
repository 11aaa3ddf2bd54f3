/**
 * From verified planner output to a canonical plan (src/agent-run/llm-live-planner-bridge.ts). Step
 * ids are zero-padded to four digits and then sorted as texts, so the order of the steps survives
 * up to step 9999 and no further.
 */
module PlannerBridge {
  import opened Common
  import opened Sorting
  import opened JsStrings
  import opened Records
  import opened Json
  import opened PlanTypes
  import opened CanonicalPlan
  import opened PlanPermutation
  import opened PlanIdempotence
  import opened PlannerContract
  import opened PlanVerifier

  datatype PlannerStep = PlannerStep(number: nat, tool: string, parameters: Json)

  datatype Names = Names(planId: string, stepIdPrefix: string, outputKeyPrefix: string)

  // ---- padded numbers --------------------------------------------------------------------

  /** `String(n).padStart(4, "0")`. */
  function Padded(n: nat): (s: string)
    ensures AllDigits(s)
  {
    PadStart(n, 4)
  }

  function Pow10(k: nat): nat {
    if k == 0 then 1 else 10 * Pow10(k - 1)
  }

  /** The last `k` decimal digits of `n`. */
  function FixedDigits(n: nat, k: nat): (s: string)
    ensures |s| == k && AllDigits(s)
  {
    if k == 0 then "" else FixedDigits(n / 10, k - 1) + [Digit(n % 10)]
  }

  lemma {:induction false} FixedZero(k: nat)
    ensures FixedDigits(0, k) == Zeros(k)
  {
    if k > 0 {
      FixedZero(k - 1);
      ZerosEnd(k - 1);
    }
  }

  lemma {:induction false} ZerosEnd(k: nat)
    ensures Zeros(k) + "0" == Zeros(k + 1)
  {
    if k > 0 { ZerosEnd(k - 1); }
  }

  /** A number that fits is its text behind zeros. */
  lemma {:induction false} FixedIsPadded(n: nat, k: nat)
    requires k > 0 && n < Pow10(k)
    ensures |NatText(n)| <= k && FixedDigits(n, k) == Zeros(k - |NatText(n)|) + NatText(n)
  {
    if n < 10 {
      assert n / 10 == 0;
      FixedZero(k - 1);
    } else {
      assert Pow10(k) == 10 * Pow10(k - 1);
      FixedIsPadded(n / 10, k - 1);
    }
  }

  lemma {:induction false} LessAt(a: string, b: string, k: nat)
    requires k < |a| && k < |b| && a[..k] == b[..k] && a[k] < b[k]
    ensures Less(a, b)
  {
    if k > 0 {
      assert a[0] == a[..k][0] && b[0] == b[..k][0];
      assert a[1..][..k - 1] == a[..k][1..] && b[1..][..k - 1] == b[..k][1..];
      LessAt(a[1..], b[1..], k - 1);
    }
  }

  lemma {:induction false} LessExtends(a: string, b: string, x: string, y: string)
    requires Less(a, b) && |a| == |b|
    ensures Less(a + x, b + y)
  {
    assert (a + x)[1..] == a[1..] + x && (b + y)[1..] == b[1..] + y;
    if a[0] == b[0] { LessExtends(a[1..], b[1..], x, y); }
  }

  /** Numbers written with the same number of digits compare as texts the way they compare as numbers. */
  lemma {:induction false} FixedLess(m: nat, n: nat, k: nat)
    requires m < n < Pow10(k)
    ensures Less(FixedDigits(m, k), FixedDigits(n, k))
  {
    var a, b := FixedDigits(m, k), FixedDigits(n, k);
    if m / 10 == n / 10 {
      LessAt(a, b, k - 1);
    } else {
      assert Pow10(k) == 10 * Pow10(k - 1);
      FixedLess(m / 10, n / 10, k - 1);
      LessExtends(FixedDigits(m / 10, k - 1), FixedDigits(n / 10, k - 1), [Digit(m % 10)], [Digit(n % 10)]);
    }
  }

  lemma PowFour()
    ensures Pow10(4) == 10000
  {
    assert Pow10(4) == 10 * Pow10(3) && Pow10(3) == 10 * Pow10(2) && Pow10(2) == 100;
  }

  lemma PaddedWhenShort(n: nat)
    requires |NatText(n)| <= 4
    ensures Padded(n) == Zeros(4 - |NatText(n)|) + NatText(n)
  {
    var text := NatText(n);
    if |text| == 4 { assert Zeros(0) + text == text; }
  }

  lemma PaddedIsFixed(n: nat)
    requires n < Pow10(4)
    ensures Padded(n) == FixedDigits(n, 4)
  {
    FixedIsPadded(n, 4);
    PaddedWhenShort(n);
  }

  /** Padded numbers of four digits compare as numbers. */
  lemma PaddedLess(m: nat, n: nat)
    requires m < n <= 9999
    ensures Less(Padded(m), Padded(n))
  {
    PowFour();
    PaddedIsFixed(m);
    PaddedIsFixed(n);
    FixedLess(m, n, 4);
  }

  /** One digit more, and the order of the texts is no longer that of the numbers. */
  lemma PaddedTooLong()
    ensures Less(Padded(10000), Padded(9999))
  {
    assert NatText(9999) == NatText(999) + "9" && NatText(999) == NatText(99) + "9" && NatText(99) == NatText(9) + "9";
    assert NatText(10000) == NatText(1000) + "0" && NatText(1000) == NatText(100) + "0" && NatText(100) == NatText(10) + "0";
    assert NatText(10) == NatText(1) + "0" && NatText(1) == "1" && NatText(9) == "9";
    LessAt(Padded(10000), Padded(9999), 0);
  }

  // ---- the bridge ------------------------------------------------------------------------

  function StepId(prefix: string, number: nat): string {
    prefix + "_" + Padded(number)
  }

  function OutputKey(prefix: string, number: nat): string {
    prefix + "_" + NatText(number)
  }

  function RawStep(names: Names, step: PlannerStep): Json {
    Obj([Entry("id", Str(StepId(names.stepIdPrefix, step.number))), Entry("kind", Str("tool.call")),
         Entry("toolId", Str(step.tool)), Entry("input", step.parameters),
         Entry("outputKey", Str(OutputKey(names.outputKeyPrefix, step.number)))])
  }

  function RawSteps(names: Names, steps: seq<PlannerStep>): (r: seq<Json>)
    ensures |r| == |steps| && forall i | 0 <= i < |steps| :: r[i] == RawStep(names, steps[i])
  {
    if steps == [] then [] else [RawStep(names, steps[0])] + RawSteps(names, steps[1..])
  }

  function RawPlan(names: Names, steps: seq<PlannerStep>): seq<Entry<Json>> {
    [Entry("planId", Str(names.planId)), Entry("version", Num(1)), Entry("steps", Arr(RawSteps(names, steps)))]
  }

  /** The three names after `readNonEmptyString`; `None` when one is blank. */
  function ReadNames(names: Names): Option<Names> {
    if Trim(names.planId) == "" || Trim(names.stepIdPrefix) == "" || Trim(names.outputKeyPrefix) == "" then None
    else Some(Names(Trim(names.planId), Trim(names.stepIdPrefix), Trim(names.outputKeyPrefix)))
  }

  /** `bridgeVerifiedPlannerOutputToAgentPlan`; `None` when it throws. */
  function Bridge(nfc: Normalizer, names: Names, requiresClarification: bool, steps: seq<PlannerStep>): Option<Plan> {
    match ReadNames(names)
    case None => None
    case Some(read) => if requiresClarification || steps == [] then None else Canonicalize(nfc, RawPlan(read, steps))
  }

  ghost predicate Numbered(steps: seq<PlannerStep>) {
    forall i | 0 <= i < |steps| :: steps[i].number == i + 1
  }

  // ---- ids after normalization -----------------------------------------------------------

  lemma {:induction false} TrimStartAppend(p: string, s: string)
    requires s != "" && !IsSpace(s[0])
    ensures TrimStart(p + s) == TrimStart(p) + s
  {
    if p == "" {
      assert p + s == s;
    } else {
      assert (p + s)[1..] == p[1..] + s;
      if IsSpace(p[0]) { TrimStartAppend(p[1..], s); }
    }
  }

  lemma TrimAppend(p: string, s: string)
    requires s != "" && !IsSpace(s[0]) && !IsSpace(s[|s| - 1])
    ensures Trim(p + s) == TrimStart(p) + s
  {
    TrimStartAppend(p, s);
    var t := TrimStart(p) + s;
    assert t[|t| - 1] == s[|s| - 1];
  }

  lemma DigitsAscii(s: string)
    requires AllDigits(s)
    ensures IsAscii(s) && forall i | 0 <= i < |s| :: !IsSpace(s[i])
  {
  }

  lemma PaddedNotEmpty(n: nat)
    ensures Padded(n) != ""
  {
  }

  /** The id of a step in the canonical plan: normalization leaves the padded number alone. */
  lemma NormalizedId(nfc: Normalizer, prefix: string, n: nat)
    requires NfcLaws(nfc)
    ensures Trim(nfc(StepId(prefix, n))) == TrimStart(nfc(prefix)) + ("_" + Padded(n))
  {
    var s := "_" + Padded(n);
    PaddedNotEmpty(n);
    DigitsAscii(Padded(n));
    assert s[1..] == Padded(n) && s[|s| - 1] == Padded(n)[|Padded(n)| - 1];
    assert IsAscii(s);
    assert StepId(prefix, n) == prefix + s;
    TrimAppend(nfc(prefix), s);
  }

  lemma NormalizedIdLess(nfc: Normalizer, prefix: string, m: nat, n: nat)
    requires NfcLaws(nfc) && Less(Padded(m), Padded(n))
    ensures Less(Trim(nfc(StepId(prefix, m))), Trim(nfc(StepId(prefix, n))))
  {
    NormalizedId(nfc, prefix, m);
    NormalizedId(nfc, prefix, n);
    LessPrefix("_", Padded(m), Padded(n));
    LessPrefix(TrimStart(nfc(prefix)), "_" + Padded(m), "_" + Padded(n));
  }

  lemma RawStepFields(names: Names, step: PlannerStep)
    ensures var ms := RawStep(names, step).members;
      && Field(ms, "id") == Some(Str(StepId(names.stepIdPrefix, step.number))) && Field(ms, "toolId") == Some(Str(step.tool))
      && Field(ms, "kind") == Some(Str("tool.call")) && Field(ms, "input") == Some(step.parameters)
      && Field(ms, "outputKey") == Some(Str(OutputKey(names.outputKeyPrefix, step.number)))
      && KeySet(ms) <= {"id", "kind", "toolId", "input", "outputKey"}
  {
    var ms := RawStep(names, step).members;
    FieldAt(ms, 0);
    FieldAt(ms, 1);
    FieldAt(ms, 2);
    FieldAt(ms, 3);
    FieldAt(ms, 4);
  }

  /** The step a planner step becomes, when each of its texts has an acceptable length and its references are texts. */
  function BuiltStep(nfc: Normalizer, names: Names, step: PlannerStep): Option<Step> {
    var id := NormText(nfc, Some(Str(StepId(names.stepIdPrefix, step.number))), 256);
    var tool := NormText(nfc, Some(Str(step.tool)), 256);
    var out := NormText(nfc, Some(Str(OutputKey(names.outputKeyPrefix, step.number))), 256);
    var input := NormInput(nfc, Some(step.parameters));
    if id.None? || tool.None? || out.None? || input.None? then None
    else Some(ToolCall(id.value, tool.value, out.value, input.value))
  }

  lemma BuildsCall(r: Reads)
    requires r.kind == Some(Str("tool.call")) && r.keys <= {"id", "kind", "toolId", "input", "outputKey"}
    ensures Build(r) ==
      if r.id.None? || r.toolId.None? || r.outputKey.None? || r.input.None? then None
      else Some(ToolCall(r.id.value, r.toolId.value, r.outputKey.value, r.input.value))
  {
  }

  lemma BuiltStepIs(nfc: Normalizer, names: Names, step: PlannerStep)
    ensures NormStep(nfc, RawStep(names, step)) == BuiltStep(nfc, names, step)
  {
    RawStepFields(names, step);
    BuildsCall(Read(nfc, RawStep(names, step).members));
  }

  // ---- order -----------------------------------------------------------------------------

  ghost predicate AllBuilt(nfc: Normalizer, names: Names, steps: seq<PlannerStep>) {
    forall i | 0 <= i < |steps| :: BuiltStep(nfc, names, steps[i]).Some?
  }

  function BuiltSteps(nfc: Normalizer, names: Names, steps: seq<PlannerStep>): (r: seq<Step>)
    requires AllBuilt(nfc, names, steps)
    ensures |r| == |steps| && forall i | 0 <= i < |steps| :: r[i] == BuiltStep(nfc, names, steps[i]).value
  {
    if steps == [] then [] else [BuiltStep(nfc, names, steps[0]).value] + BuiltSteps(nfc, names, steps[1..])
  }

  lemma RawPlanHeader(nfc: Normalizer, names: Names, steps: seq<PlannerStep>)
    ensures var id := NormText(nfc, Some(Str(names.planId)), 256);
      PlanHeader(nfc, RawPlan(names, steps)) == if id.None? then None else Some((id.value, RawSteps(names, steps)))
  {
    var ms := RawPlan(names, steps);
    FieldAt(ms, 0);
    FieldAt(ms, 1);
    FieldAt(ms, 2);
    assert ms[0].key == "planId" && ms[1].key == "version" && ms[2].key == "steps";
  }

  lemma NormAllBuilt(nfc: Normalizer, names: Names, steps: seq<PlannerStep>)
    ensures NormAll(nfc, RawSteps(names, steps)).Some? <==> AllBuilt(nfc, names, steps)
    ensures AllBuilt(nfc, names, steps) ==> NormAll(nfc, RawSteps(names, steps)) == Some(BuiltSteps(nfc, names, steps))
  {
    var items := RawSteps(names, steps);
    forall i | 0 <= i < |items| ensures NormStep(nfc, items[i]) == BuiltStep(nfc, names, steps[i]) {
      BuiltStepIs(nfc, names, steps[i]);
    }
    if AllBuilt(nfc, names, steps) {
      assert NormAll(nfc, items).value == BuiltSteps(nfc, names, steps);
    }
  }

  lemma BuiltId(nfc: Normalizer, names: Names, step: PlannerStep)
    requires BuiltStep(nfc, names, step).Some?
    ensures BuiltStep(nfc, names, step).value.id == Trim(nfc(StepId(names.stepIdPrefix, step.number)))
  {
  }

  /** Even past 9999, where their order is lost, the ids of numbered steps stay distinct. */
  lemma BuiltIdsDistinct(nfc: Normalizer, names: Names, steps: seq<PlannerStep>)
    requires NfcLaws(nfc) && AllBuilt(nfc, names, steps) && Numbered(steps)
    ensures Distinct(Ids(BuiltSteps(nfc, names, steps)))
  {
    var built := BuiltSteps(nfc, names, steps);
    forall i, j | 0 <= i < j < |built| ensures built[i].id != built[j].id {
      BuiltIdsDiffer(nfc, names, steps[i], steps[j]);
    }
  }

  lemma BuiltIdsDiffer(nfc: Normalizer, names: Names, a: PlannerStep, b: PlannerStep)
    requires NfcLaws(nfc) && a.number != b.number
    requires BuiltStep(nfc, names, a).Some? && BuiltStep(nfc, names, b).Some?
    ensures BuiltStep(nfc, names, a).value.id != BuiltStep(nfc, names, b).value.id
  {
    BuiltId(nfc, names, a);
    BuiltId(nfc, names, b);
    if Trim(nfc(StepId(names.stepIdPrefix, a.number))) == Trim(nfc(StepId(names.stepIdPrefix, b.number))) {
      NormalizedIdInjective(nfc, names.stepIdPrefix, a.number, b.number);
    }
  }

  lemma NormalizedIdInjective(nfc: Normalizer, prefix: string, m: nat, n: nat)
    requires NfcLaws(nfc) && Trim(nfc(StepId(prefix, m))) == Trim(nfc(StepId(prefix, n)))
    ensures m == n
  {
    NormalizedId(nfc, prefix, m);
    NormalizedId(nfc, prefix, n);
    DropPrefix(TrimStart(nfc(prefix)), Padded(m), Padded(n));
    PadStartInjective(m, n, 4);
  }

  lemma DropPrefix(p: string, a: string, b: string)
    requires p + ("_" + a) == p + ("_" + b)
    ensures a == b
  {
    assert (p + ("_" + a))[|p| + 1..] == a && (p + ("_" + b))[|p| + 1..] == b;
  }

  /** Up to 9999 steps the built steps are in canonical order. */
  lemma BuiltStepsOrdered(nfc: Normalizer, names: Names, steps: seq<PlannerStep>)
    requires NfcLaws(nfc) && AllBuilt(nfc, names, steps) && Numbered(steps) && |steps| <= 9999
    ensures Ordered(StepLeq, BuiltSteps(nfc, names, steps))
  {
    var built := BuiltSteps(nfc, names, steps);
    forall i, j | 0 <= i < j < |built| ensures StepLeq(built[i], built[j]) {
      BuiltInOrder(nfc, names, steps[i], steps[j]);
    }
  }

  lemma BuiltInOrder(nfc: Normalizer, names: Names, a: PlannerStep, b: PlannerStep)
    requires NfcLaws(nfc) && a.number < b.number <= 9999
    requires BuiltStep(nfc, names, a).Some? && BuiltStep(nfc, names, b).Some?
    ensures StepLeq(BuiltStep(nfc, names, a).value, BuiltStep(nfc, names, b).value)
  {
    BuiltId(nfc, names, a);
    BuiltId(nfc, names, b);
    PaddedLess(a.number, b.number);
    NormalizedIdLess(nfc, names.stepIdPrefix, a.number, b.number);
    IdsDecide(BuiltStep(nfc, names, a).value, BuiltStep(nfc, names, b).value);
  }

  lemma CanonicalOf(nfc: Normalizer, names: Names, steps: seq<PlannerStep>)
    requires Canonicalize(nfc, RawPlan(names, steps)).Some?
    ensures AllBuilt(nfc, names, steps)
    ensures Canonicalize(nfc, RawPlan(names, steps)).value.steps == Sort(StepLeq, BuiltSteps(nfc, names, steps))
  {
    RawPlanHeader(nfc, names, steps);
    NormAllBuilt(nfc, names, steps);
  }

  /** What the bridge needs to succeed. */
  ghost predicate Bridgeable(nfc: Normalizer, names: Names, steps: seq<PlannerStep>) {
    && ReadNames(names).Some? && steps != []
    && NormText(nfc, Some(Str(ReadNames(names).value.planId)), 256).Some?
    && AllBuilt(nfc, ReadNames(names).value, steps)
  }

  lemma CanonicalizesIff(nfc: Normalizer, names: Names, steps: seq<PlannerStep>)
    requires NfcLaws(nfc) && Numbered(steps)
    ensures Canonicalize(nfc, RawPlan(names, steps)).Some? <==>
      NormText(nfc, Some(Str(names.planId)), 256).Some? && AllBuilt(nfc, names, steps)
  {
    RawPlanHeader(nfc, names, steps);
    NormAllBuilt(nfc, names, steps);
    if AllBuilt(nfc, names, steps) {
      BuiltIdsDistinct(nfc, names, steps);
      SortKeepsDistinctIds(BuiltSteps(nfc, names, steps));
    }
  }

  /** The bridge succeeds exactly when there are steps and each can be built: numbered ids never clash. */
  lemma BridgeSucceedsIff(nfc: Normalizer, names: Names, steps: seq<PlannerStep>)
    requires NfcLaws(nfc) && Numbered(steps)
    ensures Bridge(nfc, names, false, steps).Some? <==> Bridgeable(nfc, names, steps)
  {
    if ReadNames(names).Some? && steps != [] { CanonicalizesIff(nfc, ReadNames(names).value, steps); }
  }

  /** The canonical plan lists the steps in the order of their numbers. */
  ghost predicate OrderKept(nfc: Normalizer, names: Names, steps: seq<PlannerStep>, plan: Plan) {
    && ReadNames(names).Some? && |plan.steps| == |steps|
    && forall i | 0 <= i < |steps| :: BuiltStep(nfc, ReadNames(names).value, steps[i]) == Some(plan.steps[i])
  }

  lemma OrderKeptIsBuilt(nfc: Normalizer, names: Names, steps: seq<PlannerStep>, plan: Plan)
    requires ReadNames(names).Some? && AllBuilt(nfc, ReadNames(names).value, steps)
    ensures OrderKept(nfc, names, steps, plan) <==> plan.steps == BuiltSteps(nfc, ReadNames(names).value, steps)
  {
  }

  lemma SortKeepsIff(nfc: Normalizer, names: Names, steps: seq<PlannerStep>)
    requires NfcLaws(nfc) && Numbered(steps) && AllBuilt(nfc, names, steps)
    ensures Sort(StepLeq, BuiltSteps(nfc, names, steps)) == BuiltSteps(nfc, names, steps) <==> |steps| <= 9999
  {
    if |steps| <= 9999 {
      BuiltStepsOrdered(nfc, names, steps);
      SortOfOrdered(StepLeq, BuiltSteps(nfc, names, steps));
    } else {
      LaterIsFirst(nfc, names, steps);
      NotOrdered(BuiltSteps(nfc, names, steps), 9998, 9999);
    }
  }

  /** Order survives the bridge exactly up to 9999 steps. */
  lemma OrderKeptIff(nfc: Normalizer, names: Names, steps: seq<PlannerStep>)
    requires NfcLaws(nfc) && Numbered(steps) && Bridge(nfc, names, false, steps).Some?
    ensures OrderKept(nfc, names, steps, Bridge(nfc, names, false, steps).value) <==> |steps| <= 9999
  {
    var read := ReadNames(names).value;
    CanonicalOf(nfc, read, steps);
    OrderKeptIsBuilt(nfc, names, steps, Bridge(nfc, names, false, steps).value);
    SortKeepsIff(nfc, read, steps);
  }

  lemma NotOrdered(s: seq<Step>, i: nat, j: nat)
    requires i < j < |s| && !StepLeq(s[i], s[j])
    ensures Sort(StepLeq, s) != s
  {
    StepLeqTotal();
    SortOrdered(StepLeq, s);
  }

  /** Step 10000 sorts before step 9999. */
  lemma LaterIsFirst(nfc: Normalizer, names: Names, steps: seq<PlannerStep>)
    requires NfcLaws(nfc) && AllBuilt(nfc, names, steps) && Numbered(steps) && |steps| > 9999
    ensures var built := BuiltSteps(nfc, names, steps); !StepLeq(built[9998], built[9999])
  {
    var built := BuiltSteps(nfc, names, steps);
    BuiltId(nfc, names, steps[9998]);
    BuiltId(nfc, names, steps[9999]);
    PaddedTooLong();
    NormalizedIdLess(nfc, names.stepIdPrefix, 10000, 9999);
    IdsDecide(built[9999], built[9998]);
  }

  // ---- verified output -------------------------------------------------------------------

  function NumberOf(step: Json): nat {
    if step.Obj? && Field(step.members, "step").Some? && Field(step.members, "step").value.Num?
       && Field(step.members, "step").value.n >= 0
    then Field(step.members, "step").value.n else 0
  }

  function PlannerStepsOf(items: seq<Json>): (r: seq<PlannerStep>)
    ensures |r| == |items|
    ensures forall i | 0 <= i < |items| :: r[i] == PlannerStep(NumberOf(items[i]), ToolOf(items[i]), ParametersOf(items[i]))
  {
    if items == [] then []
    else [PlannerStep(NumberOf(items[0]), ToolOf(items[0]), ParametersOf(items[0]))] + PlannerStepsOf(items[1..])
  }

  lemma VerifiedIsNumbered(output: Json, ctx: Context)
    requires VerifyPlan(output, ctx).Accepted?
    ensures Numbered(PlannerStepsOf(StepItems(output)))
  {
    VerifierAcceptsIff(output, ctx);
    var items := StepItems(output);
    forall i | 0 <= i < |items| ensures NumberOf(items[i]) == i + 1 {
      assert StepConforms(items[i], i, Some(ToolNames(ToolMap(ctx.tools, |ctx.tools|))));
    }
  }

  /** The dependency is the number of a step at a smaller position than `i`. */
  predicate RunsBefore(d: Json, i: nat) {
    d.Num? && 0 <= d.n - 1 < i
  }

  /** In the plan of a verified output, every step runs after all the steps it depends on. */
  ghost predicate DependenciesFirst(nfc: Normalizer, names: Names, items: seq<Json>, plan: Plan) {
    && OrderKept(nfc, names, PlannerStepsOf(items), plan)
    && forall i, k | 0 <= i < |items| && 0 <= k < |Dependencies(items[i])| :: RunsBefore(Dependencies(items[i])[k], i)
  }

  lemma VerifiedDependenciesFirst(nfc: Normalizer, names: Names, output: Json, ctx: Context)
    requires NfcLaws(nfc) && VerifyPlan(output, ctx).Accepted? && |StepItems(output)| <= 9999
    requires Bridge(nfc, names, false, PlannerStepsOf(StepItems(output))).Some?
    ensures DependenciesFirst(nfc, names, StepItems(output), Bridge(nfc, names, false, PlannerStepsOf(StepItems(output))).value)
  {
    var items := StepItems(output);
    VerifiedIsNumbered(output, ctx);
    OrderKeptIff(nfc, names, PlannerStepsOf(items));
    VerifierAcceptsIff(output, ctx);
    forall i, k | 0 <= i < |items| && 0 <= k < |Dependencies(items[i])|
      ensures RunsBefore(Dependencies(items[i])[k], i)
    {
      assert StepVerified(ToolMap(ctx.tools, |ctx.tools|), items[i], i);
    }
  }

  // ---- the text entry point --------------------------------------------------------------

  /** `bridgeVerifiedLlmLivePlannerPromptTextToAgentPlan`: the contract runs first, with its own default bound. */
  function PlanFromText(nfc: Normalizer, parse: string -> Option<Json>, text: string, names: Names, tools: seq<Tool>, maxSteps: Option<int>)
    : Option<Plan>
  {
    match parse(text)
    case None => None
    case Some(output) =>
      if OutputFault(output, None, None).Some? then None
      else
        var verification := VerifyPlan(output, Context(tools, maxSteps, true));
        if verification.Refused? then None
        else Bridge(nfc, names, NeedsClarification(output), PlannerStepsOf(StepItems(output)))
  }

  /** A plan from text has at most eight steps whatever bound is asked for, in order, dependencies first. */
  lemma TextPlansAreShort(nfc: Normalizer, parse: string -> Option<Json>, text: string, names: Names, tools: seq<Tool>,
                          maxSteps: Option<int>)
    requires NfcLaws(nfc) && PlanFromText(nfc, parse, text, names, tools, maxSteps).Some?
    ensures parse(text).Some?
    ensures var plan, items := PlanFromText(nfc, parse, text, names, tools, maxSteps).value, StepItems(parse(text).value);
      && 1 <= |plan.steps| <= 8 && OrderKept(nfc, names, PlannerStepsOf(items), plan)
      && DependenciesFirst(nfc, names, items, plan)
  {
    var output := parse(text).value;
    ContractAcceptsIff(output, None, None);
    var ctx := Context(tools, maxSteps, true);
    VerifiedIsNumbered(output, ctx);
    OrderKeptIff(nfc, names, PlannerStepsOf(StepItems(output)));
    VerifiedDependenciesFirst(nfc, names, output, ctx);
  }
}
