/**
 * References between steps and their static check (src/agent-run/step-dependencies.ts): which
 * step produces which key, which inputs refer to it, and that producers come first.
 */
module StepDependencies {
  import opened Common
  import opened JsStrings
  import opened Records
  import opened Json
  import opened PlanTypes
  import opened CanonicalPlan

  // ---- reference expressions -------------------------------------------------------------

  const STATE_PREFIX := "state.values."

  /** The expression without its optional prefix; it is stripped at most once. */
  function StripPrefix(expr: string): string {
    if STATE_PREFIX <= expr then expr[|STATE_PREFIX|..] else expr
  }

  /** The part before the first dot: the key of the state value. */
  function RefKey(expr: string): string {
    var e := StripPrefix(expr);
    var dot := IndexOf(e, '.');
    if dot.Some? then e[..dot.value] else e
  }

  /** The part after the first dot: the path inside the value. */
  function RefPath(expr: string): string {
    var e := StripPrefix(expr);
    var dot := IndexOf(e, '.');
    if dot.Some? then e[dot.value + 1..] else ""
  }

  datatype Ref = Ref(kind: string, expr: string, outputKey: string, nestedPath: string)

  /** `parseStepDependencyRef`: the key is trimmed, and a blank key is no reference. */
  function ParseRef(v: Json): Option<Ref> {
    if !v.Obj? || !IsRefShape(v.members) || !v.members[0].value.Str? then None
    else
      var expr := v.members[0].value.s;
      if Trim(RefKey(expr)) == "" then None
      else Some(Ref(v.members[0].key, expr, Trim(RefKey(expr)), RefPath(expr)))
  }

  /** `collectStepDependencyRefs`, in the order of the input. */
  function CollectRefs(v: Json): seq<Ref>
    decreases v, 1
  {
    if v.Arr? then CollectItems(v.items)
    else if ParseRef(v).Some? then [ParseRef(v).value]
    else if v.Obj? then CollectMembers(v.members)
    else []
  }

  function CollectItems(items: seq<Json>): seq<Ref>
    decreases items, 0
  {
    if items == [] then [] else CollectRefs(items[0]) + CollectItems(items[1..])
  }

  function CollectMembers(ms: seq<Entry<Json>>): seq<Ref>
    decreases ms, 0
  {
    if ms == [] then [] else CollectRefs(ms[0].value) + CollectMembers(ms[1..])
  }

  lemma {:induction false} ItemRefs(items: seq<Json>, i: nat, r: Ref)
    requires i < |items| && r in CollectRefs(items[i])
    ensures r in CollectItems(items)
  {
    if i > 0 { ItemRefs(items[1..], i - 1, r); }
  }

  lemma {:induction false} MemberRefs(ms: seq<Entry<Json>>, i: nat, r: Ref)
    requires i < |ms| && r in CollectRefs(ms[i].value)
    ensures r in CollectMembers(ms)
  {
    if i > 0 { MemberRefs(ms[1..], i - 1, r); }
  }

  /** The references of a step; only tool steps carry an input. */
  function RefsOf(step: Step): seq<Ref> {
    if step.IsTool() then CollectRefs(step.input) else []
  }

  // ---- producers -------------------------------------------------------------------------

  /** `isProducerStep`: only `tool.call` steps count, not loops, sets or extracts. */
  predicate IsProducer(step: Step) {
    step.ToolCall? && Trim(step.outputKey) != ""
  }

  predicate Produces(step: Step, key: string) {
    IsProducer(step) && Trim(step.outputKey) == key
  }

  /** The table after one more step. */
  function Extend(before: Option<seq<Entry<nat>>>, step: Step, n: nat): Option<seq<Entry<nat>>> {
    if before.None? || !IsProducer(step) then before
    else if Has(before.value, Trim(step.outputKey)) then None
    else Some(Put<nat>(before.value, Trim(step.outputKey), n))
  }

  /** `collectProducedOutputKeys` on the first `n` steps; `None` for a repeated key. */
  function Produced(steps: seq<Step>, n: nat): Option<seq<Entry<nat>>>
    requires n <= |steps|
  {
    if n == 0 then Some([]) else Extend(Produced(steps, n - 1), steps[n - 1], n - 1)
  }

  method CollectProducedOutputKeys(steps: seq<Step>) returns (r: Option<seq<Entry<nat>>>)
    ensures r == Produced(steps, |steps|)
  {
    var produced: seq<Entry<nat>> := [];
    for i := 0 to |steps|
      invariant Produced(steps, i) == Some(produced)
    {
      if IsProducer(steps[i]) {
        var key := Trim(steps[i].outputKey);
        if Has(produced, key) {
          NoneStays(steps, i + 1, |steps|);
          return None;
        }
        produced := Put<nat>(produced, key, i);
      }
    }
    return Some(produced);
  }

  lemma {:induction false} NoneStays(steps: seq<Step>, m: nat, n: nat)
    requires m <= n <= |steps| && Produced(steps, m).None?
    ensures Produced(steps, n).None?
    decreases n - m
  {
    if m < n {
      assert Produced(steps, m + 1).None?;
      NoneStays(steps, m + 1, n);
    }
  }

  ghost predicate OutputsDistinct(steps: seq<Step>, n: nat)
    requires n <= |steps|
  {
    forall i, j | 0 <= i < j < n && IsProducer(steps[i]) && IsProducer(steps[j]) ::
      Trim(steps[i].outputKey) != Trim(steps[j].outputKey)
  }

  /** The table holds exactly the producers among the first `n` steps, each under its trimmed key. */
  ghost predicate Table(steps: seq<Step>, n: nat, p: seq<Entry<nat>>)
    requires n <= |steps|
  {
    && (forall k | Has(p, k) :: Points(steps, n, k, Get(p, k)))
    && (forall j | 0 <= j < n && IsProducer(steps[j]) :: IndexedAt(p, Trim(steps[j].outputKey), j))
  }

  ghost predicate Points(steps: seq<Step>, n: nat, k: string, j: int)
    requires n <= |steps|
  {
    0 <= j < n && Produces(steps[j], k)
  }

  ghost predicate IndexedAt(p: seq<Entry<nat>>, key: string, j: nat) {
    Has(p, key) && Get(p, key) == j
  }

  lemma TableStep(steps: seq<Step>, n: nat, p: seq<Entry<nat>>)
    requires n < |steps| && Table(steps, n, p)
    requires IsProducer(steps[n]) && !Has(p, Trim(steps[n].outputKey))
    ensures Table(steps, n + 1, Put<nat>(p, Trim(steps[n].outputKey), n))
  {
    var key := Trim(steps[n].outputKey);
    var q := Put<nat>(p, key, n);
    forall k | Has(q, k) ensures Points(steps, n + 1, k, Get(q, k)) {
      PutGet<nat>(p, key, n, k);
      if k != key { assert Points(steps, n, k, Get(p, k)); }
    }
    forall j | 0 <= j < n + 1 && IsProducer(steps[j]) ensures IndexedAt(q, Trim(steps[j].outputKey), j) {
      PutGet<nat>(p, key, n, Trim(steps[j].outputKey));
      if j < n { assert IndexedAt(p, Trim(steps[j].outputKey), j); }
    }
  }

  lemma TableSkip(steps: seq<Step>, n: nat, p: seq<Entry<nat>>)
    requires n < |steps| && Table(steps, n, p) && !IsProducer(steps[n])
    ensures Table(steps, n + 1, p)
  {
    forall k | Has(p, k) ensures Points(steps, n + 1, k, Get(p, k)) {
      assert Points(steps, n, k, Get(p, k));
    }
  }

  lemma DistinctSkip(steps: seq<Step>, n: nat)
    requires n < |steps|
    ensures OutputsDistinct(steps, n + 1) ==> OutputsDistinct(steps, n)
    ensures OutputsDistinct(steps, n) && !IsProducer(steps[n]) ==> OutputsDistinct(steps, n + 1)
  {
  }

  /** What holds of the table built from the first `n` steps, or of its absence. */
  ghost predicate TableFor(steps: seq<Step>, n: nat, p: Option<seq<Entry<nat>>>)
    requires n <= |steps|
  {
    (p.Some? <==> OutputsDistinct(steps, n)) && (p.Some? ==> Table(steps, n, p.value))
  }

  lemma TableEmpty(steps: seq<Step>)
    ensures TableFor(steps, 0, Some([]))
  {
  }

  lemma ExtendTable(steps: seq<Step>, n: nat, p: Option<seq<Entry<nat>>>)
    requires n < |steps| && TableFor(steps, n, p)
    ensures TableFor(steps, n + 1, Extend(p, steps[n], n))
  {
    DistinctSkip(steps, n);
    if p.Some? {
      if !IsProducer(steps[n]) {
        TableSkip(steps, n, p.value);
      } else {
        RepeatIff(steps, n, p.value);
        if !Has(p.value, Trim(steps[n].outputKey)) { TableStep(steps, n, p.value); }
      }
    }
  }

  lemma {:induction false} ProducedTable(steps: seq<Step>, n: nat)
    requires n <= |steps|
    ensures TableFor(steps, n, Produced(steps, n))
  {
    if n == 0 {
      TableEmpty(steps);
    } else {
      ProducedTable(steps, n - 1);
      ExtendTable(steps, n - 1, Produced(steps, n - 1));
      assert Produced(steps, n) == Extend(Produced(steps, n - 1), steps[n - 1], n - 1);
    }
  }

  /** The next producer repeats a key exactly when the table already has it. */
  lemma RepeatIff(steps: seq<Step>, n: nat, p: seq<Entry<nat>>)
    requires n < |steps| && Table(steps, n, p) && OutputsDistinct(steps, n) && IsProducer(steps[n])
    ensures Has(p, Trim(steps[n].outputKey)) <==> !OutputsDistinct(steps, n + 1)
  {
    var key := Trim(steps[n].outputKey);
    if Has(p, key) {
      assert Points(steps, n, key, Get(p, key));
      assert Trim(steps[Get(p, key)].outputKey) == Trim(steps[n].outputKey);
    } else {
      forall i | 0 <= i < n && IsProducer(steps[i]) ensures Trim(steps[i].outputKey) != key {
        assert IndexedAt(p, Trim(steps[i].outputKey), i);
      }
    }
  }

  // ---- the analysis ----------------------------------------------------------------------

  datatype Edge = Edge(consumerId: string, consumer: nat, producerId: string, producer: nat, ref: Ref)

  datatype Analysis = Analysis(produced: seq<Entry<nat>>, edges: seq<Edge>)

  const DUPLICATE := "DUPLICATE_STEP_OUTPUT_KEY"
  const NOT_FOUND := "STEP_DEPENDENCY_PRODUCER_NOT_FOUND"
  const OUT_OF_ORDER := "STEP_DEPENDENCY_OUT_OF_ORDER"

  /** The edge a reference of step `i` adds, or why it is refused. */
  function CheckRef(produced: seq<Entry<nat>>, steps: seq<Step>, i: nat, ref: Ref): Result<Edge, string>
    requires i < |steps|
  {
    if !Has(produced, ref.outputKey) then Err(NOT_FOUND)
    else
      var j := Get(produced, ref.outputKey);
      if j >= i then Err(OUT_OF_ORDER) else Ok(Edge(steps[i].id, i, steps[j].id, j, ref))
  }

  function CheckRefs(produced: seq<Entry<nat>>, steps: seq<Step>, i: nat, refs: seq<Ref>): Result<seq<Edge>, string>
    requires i < |steps|
  {
    if refs == [] then Ok([])
    else
      match CheckRef(produced, steps, i, refs[0])
      case Err(e) => Err(e)
      case Ok(edge) =>
        match CheckRefs(produced, steps, i, refs[1..])
        case Err(e) => Err(e)
        case Ok(rest) => Ok([edge] + rest)
  }

  function CheckFrom(produced: seq<Entry<nat>>, steps: seq<Step>, i: nat): Result<seq<Edge>, string>
    requires i <= |steps|
    decreases |steps| - i
  {
    if i == |steps| then Ok([])
    else
      match CheckRefs(produced, steps, i, RefsOf(steps[i]))
      case Err(e) => Err(e)
      case Ok(edges) =>
        match CheckFrom(produced, steps, i + 1)
        case Err(e) => Err(e)
        case Ok(rest) => Ok(edges + rest)
  }

  function Analyze(steps: seq<Step>): Result<Analysis, string> {
    var produced := Produced(steps, |steps|);
    if produced.None? then Err(DUPLICATE)
    else
      match CheckFrom(produced.value, steps, 0)
      case Err(e) => Err(e)
      case Ok(edges) => Ok(Analysis(produced.value, edges))
  }

  /** What a loop that has gathered `found` returns when the rest of it gives `rest`. */
  function Gather(found: seq<Edge>, rest: Result<seq<Edge>, string>): Result<seq<Edge>, string> {
    if rest.Ok? then Ok(found + rest.value) else rest
  }

  lemma GatherOne(found: seq<Edge>, edge: Edge, rest: Result<seq<Edge>, string>)
    ensures Gather(found + [edge], rest) == Gather(found, Gather([edge], rest))
  {
    if rest.Ok? { assert found + [edge] + rest.value == found + ([edge] + rest.value); }
  }

  lemma GatherMany(found: seq<Edge>, edges: seq<Edge>, rest: Result<seq<Edge>, string>)
    ensures Gather(found + edges, rest) == Gather(found, Gather(edges, rest))
    ensures Gather([], rest) == rest
    ensures Gather(found, Ok([])) == Ok(found)
  {
    assert found + [] == found;
    if rest.Ok? { assert found + edges + rest.value == found + (edges + rest.value) && [] + rest.value == rest.value; }
  }

  method CheckStep(produced: seq<Entry<nat>>, steps: seq<Step>, i: nat, found: seq<Edge>)
    returns (r: Result<seq<Edge>, string>)
    requires i < |steps|
    ensures r == Gather(found, CheckRefs(produced, steps, i, RefsOf(steps[i])))
  {
    var refs := RefsOf(steps[i]);
    var edges := found;
    var k := 0;
    assert refs[0..] == refs;
    while k < |refs|
      invariant 0 <= k <= |refs|
      invariant Gather(edges, CheckRefs(produced, steps, i, refs[k..]))
             == Gather(found, CheckRefs(produced, steps, i, refs))
    {
      assert refs[k..][0] == refs[k] && refs[k..][1..] == refs[k + 1..];
      ghost var rest := CheckRefs(produced, steps, i, refs[k + 1..]);
      if !Has(produced, refs[k].outputKey) {
        return Err(NOT_FOUND);
      }
      var producer := Get(produced, refs[k].outputKey);
      if producer >= i {
        return Err(OUT_OF_ORDER);
      }
      var edge := Edge(steps[i].id, i, steps[producer].id, producer, refs[k]);
      GatherOne(edges, edge, rest);
      edges := edges + [edge];
      k := k + 1;
    }
    GatherMany(edges, [], Ok([]));
    return Ok(edges);
  }

  method CheckSteps(produced: seq<Entry<nat>>, steps: seq<Step>) returns (r: Result<seq<Edge>, string>)
    ensures r == CheckFrom(produced, steps, 0)
  {
    var edges: seq<Edge> := [];
    var i := 0;
    GatherMany([], [], CheckFrom(produced, steps, 0));
    while i < |steps|
      invariant 0 <= i <= |steps|
      invariant Gather(edges, CheckFrom(produced, steps, i)) == CheckFrom(produced, steps, 0)
    {
      OneMoreStep(produced, steps, i, edges);
      var found := CheckStep(produced, steps, i, edges);
      if found.Err? {
        return found;
      }
      edges := found.value;
      i := i + 1;
    }
    GatherMany(edges, [], Ok([]));
    return Ok(edges);
  }

  method AnalyzeStepDependencies(steps: seq<Step>) returns (r: Result<Analysis, string>)
    ensures r == Analyze(steps)
  {
    var produced := CollectProducedOutputKeys(steps);
    if produced.None? {
      return Err(DUPLICATE);
    }
    var edges := CheckSteps(produced.value, steps);
    return if edges.Ok? then Ok(Analysis(produced.value, edges.value)) else Err(edges.error);
  }

  lemma OneMoreStep(produced: seq<Entry<nat>>, steps: seq<Step>, i: nat, edges: seq<Edge>)
    requires i < |steps|
    ensures var step := CheckRefs(produced, steps, i, RefsOf(steps[i]));
      && (step.Err? ==> Gather(edges, CheckFrom(produced, steps, i)) == Err(step.error))
      && (step.Ok? ==>
        Gather(edges, CheckFrom(produced, steps, i)) == Gather(edges + step.value, CheckFrom(produced, steps, i + 1)))
  {
    var step := CheckRefs(produced, steps, i, RefsOf(steps[i]));
    if step.Ok? { GatherMany(edges, step.value, CheckFrom(produced, steps, i + 1)); }
  }

  // ---- when the analysis accepts ---------------------------------------------------------

  /** Some step before `i` produces the key. */
  ghost predicate ProducedBefore(steps: seq<Step>, i: nat, key: string)
    requires i <= |steps|
  {
    exists j | 0 <= j < i :: Produces(steps[j], key)
  }

  ghost predicate RefsProduced(steps: seq<Step>, i: nat)
    requires i < |steps|
  {
    forall r | r in RefsOf(steps[i]) :: ProducedBefore(steps, i, r.outputKey)
  }

  /** No key is produced twice, and every reference names a key produced earlier. */
  ghost predicate DependenciesHold(steps: seq<Step>) {
    && OutputsDistinct(steps, |steps|)
    && forall i | 0 <= i < |steps| :: RefsProduced(steps, i)
  }

  lemma CheckRefIff(steps: seq<Step>, produced: seq<Entry<nat>>, i: nat, ref: Ref)
    requires i < |steps| && Table(steps, |steps|, produced)
    ensures CheckRef(produced, steps, i, ref).Ok? <==> ProducedBefore(steps, i, ref.outputKey)
  {
    if Has(produced, ref.outputKey) {
      assert Points(steps, |steps|, ref.outputKey, Get(produced, ref.outputKey));
    }
    if ProducedBefore(steps, i, ref.outputKey) {
      var j :| 0 <= j < i && Produces(steps[j], ref.outputKey);
      assert IndexedAt(produced, ref.outputKey, j);
    }
  }

  lemma {:induction false} CheckRefsIff(steps: seq<Step>, produced: seq<Entry<nat>>, i: nat, refs: seq<Ref>)
    requires i < |steps| && Table(steps, |steps|, produced)
    ensures CheckRefs(produced, steps, i, refs).Ok? <==> forall r | r in refs :: ProducedBefore(steps, i, r.outputKey)
  {
    if refs != [] {
      CheckRefIff(steps, produced, i, refs[0]);
      CheckRefsIff(steps, produced, i, refs[1..]);
      assert refs == [refs[0]] + refs[1..];
    }
  }

  lemma RefsProducedIff(steps: seq<Step>, produced: seq<Entry<nat>>, i: nat)
    requires i < |steps| && Table(steps, |steps|, produced)
    ensures CheckRefs(produced, steps, i, RefsOf(steps[i])).Ok? <==> RefsProduced(steps, i)
  {
    CheckRefsIff(steps, produced, i, RefsOf(steps[i]));
  }

  lemma {:induction false} CheckFromIff(steps: seq<Step>, produced: seq<Entry<nat>>, i: nat)
    requires i <= |steps| && Table(steps, |steps|, produced)
    ensures CheckFrom(produced, steps, i).Ok? <==> forall k | i <= k < |steps| :: RefsProduced(steps, k)
    decreases |steps| - i
  {
    if i < |steps| {
      CheckFromIff(steps, produced, i + 1);
      RefsProducedIff(steps, produced, i);
    }
  }

  /** `validateStepDependencies` accepts exactly the step lists whose dependencies hold. */
  lemma AnalyzeOkIff(steps: seq<Step>)
    ensures Analyze(steps).Ok? <==> DependenciesHold(steps)
  {
    ProducedTable(steps, |steps|);
    if Produced(steps, |steps|).Some? { CheckFromIff(steps, Produced(steps, |steps|).value, 0); }
  }
}
