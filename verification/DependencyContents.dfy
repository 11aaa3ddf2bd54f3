/**
 * What the dependency analysis returns (src/agent-run/step-dependencies.ts): one edge for each
 * reference, in order, to the step that produces its key; or the first thing that is wrong. And
 * what binding an input to an earlier step gives.
 */
module DependencyContents {
  import opened Common
  import opened JsStrings
  import opened Records
  import opened Json
  import opened PlanTypes
  import opened StepDependencies
  import opened StepBinding

  // ---- all references --------------------------------------------------------------------

  /** A reference and the step it is in. */
  datatype Use = Use(consumer: nat, ref: Ref)

  function UsesOf(i: nat, refs: seq<Ref>): (r: seq<Use>)
    ensures |r| == |refs| && forall k | 0 <= k < |refs| :: r[k] == Use(i, refs[k])
  {
    seq(|refs|, k requires 0 <= k < |refs| => Use(i, refs[k]))
  }

  /** The references of the steps from `i` on, in the order they are written. */
  function UsesFrom(steps: seq<Step>, i: nat): seq<Use>
    requires i <= |steps|
    decreases |steps| - i
  {
    if i == |steps| then [] else UsesOf(i, RefsOf(steps[i])) + UsesFrom(steps, i + 1)
  }

  /** The edge leads from the step of the reference to the earlier step that produces its key. */
  ghost predicate Joins(steps: seq<Step>, u: Use, e: Edge) {
    && e.consumer == u.consumer < |steps| && e.producer < u.consumer && e.ref == u.ref
    && e.consumerId == steps[u.consumer].id && e.producerId == steps[e.producer].id
    && Produces(steps[e.producer], u.ref.outputKey)
  }

  ghost predicate AllJoined(steps: seq<Step>, uses: seq<Use>, edges: seq<Edge>) {
    |edges| == |uses| && forall k | 0 <= k < |uses| :: Joins(steps, uses[k], edges[k])
  }

  lemma RefJoins(steps: seq<Step>, produced: seq<Entry<nat>>, i: nat, ref: Ref)
    requires i < |steps| && Table(steps, |steps|, produced) && CheckRef(produced, steps, i, ref).Ok?
    ensures Joins(steps, Use(i, ref), CheckRef(produced, steps, i, ref).value)
  {
    assert Points(steps, |steps|, ref.outputKey, Get(produced, ref.outputKey));
  }

  lemma JoinedAppend(steps: seq<Step>, a: seq<Use>, es: seq<Edge>, b: seq<Use>, fs: seq<Edge>)
    requires AllJoined(steps, a, es) && AllJoined(steps, b, fs)
    ensures AllJoined(steps, a + b, es + fs)
  {
  }

  lemma {:induction false} RefsJoin(steps: seq<Step>, produced: seq<Entry<nat>>, i: nat, refs: seq<Ref>)
    requires i < |steps| && Table(steps, |steps|, produced) && CheckRefs(produced, steps, i, refs).Ok?
    ensures AllJoined(steps, UsesOf(i, refs), CheckRefs(produced, steps, i, refs).value)
  {
    if refs != [] {
      RefJoins(steps, produced, i, refs[0]);
      RefsJoin(steps, produced, i, refs[1..]);
      var first, rest := CheckRef(produced, steps, i, refs[0]).value, CheckRefs(produced, steps, i, refs[1..]).value;
      assert UsesOf(i, refs) == [Use(i, refs[0])] + UsesOf(i, refs[1..]);
      JoinedAppend(steps, [Use(i, refs[0])], [first], UsesOf(i, refs[1..]), rest);
    }
  }

  lemma {:induction false} StepsJoin(steps: seq<Step>, produced: seq<Entry<nat>>, i: nat)
    requires i <= |steps| && Table(steps, |steps|, produced) && CheckFrom(produced, steps, i).Ok?
    ensures AllJoined(steps, UsesFrom(steps, i), CheckFrom(produced, steps, i).value)
    decreases |steps| - i
  {
    if i < |steps| {
      RefsJoin(steps, produced, i, RefsOf(steps[i]));
      StepsJoin(steps, produced, i + 1);
      JoinedAppend(steps, UsesOf(i, RefsOf(steps[i])), CheckRefs(produced, steps, i, RefsOf(steps[i])).value,
                   UsesFrom(steps, i + 1), CheckFrom(produced, steps, i + 1).value);
    }
  }

  /** An accepted list gets one edge for each of its references, in order, to the step that produces its key. */
  lemma EdgesJoinReferences(steps: seq<Step>)
    requires Analyze(steps).Ok?
    ensures AllJoined(steps, UsesFrom(steps, 0), Analyze(steps).value.edges)
  {
    ProducedTable(steps, |steps|);
    StepsJoin(steps, Produced(steps, |steps|).value, 0);
  }

  // ---- what is wrong ---------------------------------------------------------------------

  /** Why a reference is refused: nothing produces its key, or nothing before its step does. */
  ghost predicate Unfounded(steps: seq<Step>, u: Use, code: string) {
    && u.consumer < |steps| && !ProducedBefore(steps, u.consumer, u.ref.outputKey)
    && code == if ProducedBefore(steps, |steps|, u.ref.outputKey) then "STEP_DEPENDENCY_OUT_OF_ORDER"
               else "STEP_DEPENDENCY_PRODUCER_NOT_FOUND"
  }

  ghost predicate Founded(steps: seq<Step>, u: Use) {
    u.consumer < |steps| && ProducedBefore(steps, u.consumer, u.ref.outputKey)
  }

  ghost predicate AllFounded(steps: seq<Step>, uses: seq<Use>) {
    forall m | 0 <= m < |uses| :: Founded(steps, uses[m])
  }

  /** The reference after `before` is the first that is refused. */
  ghost predicate FirstUnfounded(steps: seq<Step>, uses: seq<Use>, before: seq<Use>, u: Use, code: string) {
    before + [u] <= uses && AllFounded(steps, before) && Unfounded(steps, u, code)
  }

  lemma HasIffProduced(steps: seq<Step>, produced: seq<Entry<nat>>, key: string)
    requires Table(steps, |steps|, produced)
    ensures Has(produced, key) <==> ProducedBefore(steps, |steps|, key)
  {
    if Has(produced, key) { assert Points(steps, |steps|, key, Get(produced, key)); }
    forall j | 0 <= j < |steps| && Produces(steps[j], key) ensures Has(produced, key) {
      assert IndexedAt(produced, Trim(steps[j].outputKey), j);
    }
  }

  lemma RefRefused(steps: seq<Step>, produced: seq<Entry<nat>>, i: nat, ref: Ref)
    requires i < |steps| && Table(steps, |steps|, produced)
    ensures CheckRef(produced, steps, i, ref).Err? ==> Unfounded(steps, Use(i, ref), CheckRef(produced, steps, i, ref).error)
    ensures CheckRef(produced, steps, i, ref).Ok? ==> Founded(steps, Use(i, ref))
  {
    CheckRefIff(steps, produced, i, ref);
    HasIffProduced(steps, produced, ref.outputKey);
  }

  lemma FoundedBoth(steps: seq<Step>, a: seq<Use>, b: seq<Use>)
    requires AllFounded(steps, a) && AllFounded(steps, b)
    ensures AllFounded(steps, a + b)
  {
  }

  lemma PrefixLater(a: seq<Use>, p: seq<Use>, b: seq<Use>)
    requires p <= b
    ensures a + p <= a + b
  {
    assert b == p + b[|p|..];
    assert a + b == (a + p) + b[|p|..];
  }

  lemma FirstLater(steps: seq<Step>, a: seq<Use>, b: seq<Use>, before: seq<Use>, u: Use, code: string)
    requires FirstUnfounded(steps, b, before, u, code) && AllFounded(steps, a)
    ensures FirstUnfounded(steps, a + b, a + before, u, code)
  {
    PrefixLater(a, before + [u], b);
    assert (a + before) + [u] == a + (before + [u]);
    FoundedBoth(steps, a, before);
  }

  lemma FirstHere(steps: seq<Step>, a: seq<Use>, b: seq<Use>, before: seq<Use>, u: Use, code: string)
    requires FirstUnfounded(steps, a, before, u, code)
    ensures FirstUnfounded(steps, a + b, before, u, code)
  {
  }

  lemma RefsFounded(steps: seq<Step>, produced: seq<Entry<nat>>, i: nat, refs: seq<Ref>)
    requires i < |steps| && Table(steps, |steps|, produced) && CheckRefs(produced, steps, i, refs).Ok?
    ensures AllFounded(steps, UsesOf(i, refs))
  {
    CheckRefsIff(steps, produced, i, refs);
    forall m | 0 <= m < |refs| ensures Founded(steps, UsesOf(i, refs)[m]) {
      assert refs[m] in refs;
    }
  }

  lemma UsesNext(i: nat, refs: seq<Ref>) returns (first: seq<Use>, rest: seq<Use>)
    requires refs != []
    ensures first == [Use(i, refs[0])] && rest == UsesOf(i, refs[1..]) && UsesOf(i, refs) == first + rest
  {
    first, rest := [Use(i, refs[0])], UsesOf(i, refs[1..]);
  }

  lemma {:induction false} RefsRefused(steps: seq<Step>, produced: seq<Entry<nat>>, i: nat, refs: seq<Ref>, code: string)
    returns (before: seq<Use>, u: Use)
    requires i < |steps| && Table(steps, |steps|, produced) && CheckRefs(produced, steps, i, refs) == Err(code)
    ensures FirstUnfounded(steps, UsesOf(i, refs), before, u, code)
  {
    RefRefused(steps, produced, i, refs[0]);
    var first, rest := UsesNext(i, refs);
    if CheckRef(produced, steps, i, refs[0]).Ok? {
      before, u := RefsRefused(steps, produced, i, refs[1..], code);
      FirstLater(steps, first, rest, before, u, code);
      before := first + before;
    } else {
      before, u := [], Use(i, refs[0]);
      assert [] + [u] == first;
    }
  }

  ghost predicate StepPasses(steps: seq<Step>, produced: seq<Entry<nat>>, i: nat)
    requires i < |steps|
  {
    CheckRefs(produced, steps, i, RefsOf(steps[i])).Ok?
  }

  /** The check stops at the first step with a reference that is refused. */
  lemma {:induction false} FirstBadStep(steps: seq<Step>, produced: seq<Entry<nat>>, i: nat, code: string) returns (j: nat)
    requires i <= |steps| && CheckFrom(produced, steps, i) == Err(code)
    ensures i <= j < |steps| && CheckRefs(produced, steps, j, RefsOf(steps[j])) == Err(code)
    ensures forall m | i <= m < j :: StepPasses(steps, produced, m)
    decreases |steps| - i
  {
    if StepPasses(steps, produced, i) {
      j := FirstBadStep(steps, produced, i + 1, code);
    } else {
      j := i;
    }
  }

  /** The references of the first `n` steps. */
  function UsesTo(steps: seq<Step>, n: nat): seq<Use>
    requires n <= |steps|
  {
    if n == 0 then [] else UsesTo(steps, n - 1) + UsesOf(n - 1, RefsOf(steps[n - 1]))
  }

  lemma Regrouped(all: seq<Use>, before: seq<Use>, here: seq<Use>, later: seq<Use>, rest: seq<Use>)
    requires all == before + rest && rest == here + later
    ensures all == (before + here) + later
  {
  }

  lemma {:induction false} UsesSplit(steps: seq<Step>, n: nat)
    requires n <= |steps|
    ensures UsesFrom(steps, 0) == UsesTo(steps, n) + UsesFrom(steps, n)
  {
    if n > 0 {
      UsesSplit(steps, n - 1);
      Regrouped(UsesFrom(steps, 0), UsesTo(steps, n - 1), UsesOf(n - 1, RefsOf(steps[n - 1])), UsesFrom(steps, n),
                UsesFrom(steps, n - 1));
    }
  }

  lemma {:induction false} PassedAreFounded(steps: seq<Step>, produced: seq<Entry<nat>>, n: nat)
    requires n <= |steps| && Table(steps, |steps|, produced) && forall m | 0 <= m < n :: StepPasses(steps, produced, m)
    ensures AllFounded(steps, UsesTo(steps, n))
  {
    if n > 0 {
      PassedAreFounded(steps, produced, n - 1);
      assert StepPasses(steps, produced, n - 1);
      RefsFounded(steps, produced, n - 1, RefsOf(steps[n - 1]));
      FoundedBoth(steps, UsesTo(steps, n - 1), UsesOf(n - 1, RefsOf(steps[n - 1])));
    }
  }

  lemma StepsRefused(steps: seq<Step>, produced: seq<Entry<nat>>, code: string) returns (before: seq<Use>, u: Use)
    requires Table(steps, |steps|, produced) && CheckFrom(produced, steps, 0) == Err(code)
    ensures FirstUnfounded(steps, UsesFrom(steps, 0), before, u, code)
  {
    var j := FirstBadStep(steps, produced, 0, code);
    var earlier, here, later := UsesTo(steps, j), UsesOf(j, RefsOf(steps[j])), UsesFrom(steps, j + 1);
    UsesSplit(steps, j);
    before, u := RefsRefused(steps, produced, j, RefsOf(steps[j]), code);
    PassedAreFounded(steps, produced, j);
    FirstHere(steps, here, later, before, u, code);
    FirstLater(steps, earlier, here + later, before, u, code);
    before := earlier + before;
  }

  /** A refused list repeats an output key, or is refused for its first reference without an earlier producer. */
  lemma AnalysisErrors(steps: seq<Step>) returns (before: seq<Use>, u: Use)
    requires Analyze(steps).Err?
    ensures Analyze(steps).error == "DUPLICATE_STEP_OUTPUT_KEY" <==> !OutputsDistinct(steps, |steps|)
    ensures OutputsDistinct(steps, |steps|) ==> FirstUnfounded(steps, UsesFrom(steps, 0), before, u, Analyze(steps).error)
  {
    before, u := [], Use(0, Ref("", "", "", ""));
    ProducedTable(steps, |steps|);
    if Produced(steps, |steps|).Some? {
      before, u := StepsRefused(steps, Produced(steps, |steps|).value, Analyze(steps).error);
    }
  }

  // ---- binding ---------------------------------------------------------------------------

  /**
   * Binding an input gives a reference to the key, with the trimmed path if there is one, exactly
   * when the steps are accepted and one of them produces the key; otherwise the fallback.
   */
  lemma BindGives(steps: seq<Step>, outputKey: string, nestedPath: string, fallback: Json)
    ensures BindStepInputRef(steps, outputKey, nestedPath, fallback) ==
      Some(if !DependenciesHold(steps) || !ProducedBefore(steps, |steps|, outputKey) then fallback
           else if Trim(nestedPath) == "" then Obj([Entry("$ref", Str("state.values." + outputKey))])
           else Obj([Entry("$ref", Str("state.values." + (outputKey + "." + Trim(nestedPath))))]))
  {
    AnalyzeOkIff(steps);
    if Analyze(steps).Ok? {
      ProducedIff(steps, outputKey);
      if IsProduced(Analyze(steps).value, outputKey) { ProducedKey(steps, outputKey); }
    }
  }
}
