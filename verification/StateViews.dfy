/**
 * What the hashed view of a state (src/agent/trace-chain.ts) tells about the state: its values and
 * logs up to normalization, and the counters that are safe integers.
 */
module StateViews {
  import opened Common
  import opened Sorting
  import opened JsStrings
  import opened Records
  import opened Json
  import opened PlanTypes
  import opened CanonicalPlan
  import opened MockAdapter
  import opened StepLoop
  import opened TraceChain
  import opened Executor

  // ---- what a view tells -----------------------------------------------------------------

  /** The counter, when there is one and it is a safe integer. */
  function SafeCounter(counters: seq<Entry<int>>, k: string): Option<int> {
    if Has(counters, k) && -MAX_SAFE <= Get(counters, k) <= MAX_SAFE then Some(Get(counters, k)) else None
  }

  ghost predicate SameValues(nf: Normalizer, a: seq<Entry<string>>, ng: Normalizer, b: seq<Entry<string>>) {
    && KeySet(a) == KeySet(b)
    && forall k | Has(a, k) && Has(b, k) :: nf(Get(a, k)) == ng(Get(b, k))
  }

  ghost predicate SameCounters(a: seq<Entry<int>>, b: seq<Entry<int>>) {
    forall k :: SafeCounter(a, k) == SafeCounter(b, k)
  }

  ghost predicate SameLogs(nf: Normalizer, a: seq<string>, ng: Normalizer, b: seq<string>) {
    |a| == |b| && forall i | 0 <= i < |a| :: nf(a[i]) == ng(b[i])
  }

  /** The same values and log lines up to normalization, and the same safe counters. */
  ghost predicate SeenAlike(nf: Normalizer, a: AgentState, ng: Normalizer, b: AgentState) {
    SameValues(nf, a.values, ng, b.values) && SameCounters(a.counters, b.counters) && SameLogs(nf, a.logs, ng, b.logs)
  }

  /** No key twice: what the records of every JavaScript state satisfy. */
  ghost predicate DistinctState(s: AgentState) {
    DistinctKeys(s.counters) && DistinctKeys(s.values)
  }

  // ---- values and logs -------------------------------------------------------------------

  function TextOf(nfc: Normalizer): string -> Json {
    s => Str(nfc(s))
  }

  lemma ValuesBind(nf: Normalizer, a: seq<Entry<string>>, ng: Normalizer, b: seq<Entry<string>>)
    requires DistinctKeys(a) && DistinctKeys(b)
    ensures ValueTexts(nf, SortByKey(a)) == ValueTexts(ng, SortByKey(b)) <==> SameValues(nf, a, ng, b)
  {
    var f, g := TextOf(nf), TextOf(ng);
    assert ValueTexts(nf, SortByKey(a)) == MapValues(f, SortByKey(a));
    assert ValueTexts(ng, SortByKey(b)) == MapValues(g, SortByKey(b));
    MappedBinds(f, a, g, b);
  }

  lemma LogsBind(nf: Normalizer, a: seq<string>, ng: Normalizer, b: seq<string>)
    ensures LogTexts(nf, a) == LogTexts(ng, b) <==> SameLogs(nf, a, ng, b)
  {
    var r, s := LogTexts(nf, a), LogTexts(ng, b);
    if r == s {
      forall i | 0 <= i < |a| ensures nf(a[i]) == ng(b[i]) {
        assert r[i] == s[i];
      }
    }
  }

  // ---- counters --------------------------------------------------------------------------

  /** Exactly the safe counters of the entries are listed. */
  lemma {:induction false} SafeIn(es: seq<Entry<int>>, x: Entry<Json>)
    ensures x in SafeCounters(es)
        <==> x.value.Num? && -MAX_SAFE <= x.value.n <= MAX_SAFE && Entry(x.key, x.value.n) in es
  {
    if es != [] {
      SafeIn(es[1..], x);
      assert es == [es[0]] + es[1..];
    }
  }

  lemma {:induction false} SafeAscending(es: seq<Entry<int>>)
    requires Ascending(es)
    ensures Ascending(SafeCounters(es))
  {
    if es != [] {
      var rest := SafeCounters(es[1..]);
      SafeAscending(es[1..]);
      forall j | 0 <= j < |rest| ensures Leq(es[0].key, rest[j].key) && es[0].key != rest[j].key {
        SafeIn(es[1..], rest[j]);
        var i :| 0 <= i < |es[1..]| && es[1..][i] == Entry(rest[j].key, rest[j].value.n);
        assert es[i + 1] == es[1..][i];
      }
    }
  }

  /** What is listed under a key is the safe counter under that key. */
  lemma ListedCounter(counters: seq<Entry<int>>, k: string)
    requires DistinctKeys(counters)
    ensures var r := SafeCounters(SortByKey(counters));
      && (Has(r, k) <==> SafeCounter(counters, k).Some?)
      && (Has(r, k) ==> Get(r, k) == Num(SafeCounter(counters, k).value))
  {
    var r := SafeCounters(SortByKey(counters));
    SortByKeyKeeps(counters);
    EntriesOf(counters);
    if Has(r, k) {
      var v := Get(r, k);
      assert Entry(k, v) in r;
      SafeIn(SortByKey(counters), Entry(k, v));
    }
    if SafeCounter(counters, k).Some? {
      SafeIn(SortByKey(counters), Entry(k, Num(Get(counters, k))));
      var i :| 0 <= i < |r| && r[i] == Entry(k, Num(Get(counters, k)));
    }
  }

  lemma CountersBind(a: seq<Entry<int>>, b: seq<Entry<int>>)
    requires DistinctKeys(a) && DistinctKeys(b)
    ensures SafeCounters(SortByKey(a)) == SafeCounters(SortByKey(b)) <==> SameCounters(a, b)
  {
    var r, s := SafeCounters(SortByKey(a)), SafeCounters(SortByKey(b));
    if r == s {
      forall k ensures SafeCounter(a, k) == SafeCounter(b, k) {
        ListedCounter(a, k);
        ListedCounter(b, k);
      }
    }
    if SameCounters(a, b) {
      forall k ensures (Has(r, k) <==> Has(s, k)) && (Has(r, k) ==> Get(r, k) == Get(s, k)) {
        assert SafeCounter(a, k) == SafeCounter(b, k);
        ListedCounter(a, k);
        ListedCounter(b, k);
      }
      CountersListed(a);
      CountersListed(b);
      SameKeys(r, s);
      SortByKeyBinds(r, s);
    }
  }

  lemma CountersListed(a: seq<Entry<int>>)
    requires DistinctKeys(a)
    ensures var r := SafeCounters(SortByKey(a)); DistinctKeys(r) && SortByKey(r) == r
  {
    SortedAscends(a);
    SafeAscending(SortByKey(a));
    AscendingIsSorted(SafeCounters(SortByKey(a)));
  }

  lemma SameKeys<V>(a: seq<Entry<V>>, b: seq<Entry<V>>)
    requires forall k :: Has(a, k) <==> Has(b, k)
    ensures KeySet(a) == KeySet(b)
  {
    forall k ensures k in KeySet(a) <==> k in KeySet(b) {
      HasIffKey(a, k);
      HasIffKey(b, k);
    }
  }

  // ---- the whole view --------------------------------------------------------------------

  lemma ViewFields(nf: Normalizer, a: AgentState, ng: Normalizer, b: AgentState)
    ensures StateView(nf, a) == StateView(ng, b) <==>
      (&& SafeCounters(SortByKey(a.counters)) == SafeCounters(SortByKey(b.counters))
       && ValueTexts(nf, SortByKey(a.values)) == ValueTexts(ng, SortByKey(b.values))
       && LogTexts(nf, a.logs) == LogTexts(ng, b.logs))
  {
    var p, q := StateView(nf, a).members, StateView(ng, b).members;
    if p == q {
      assert p[0] == q[0] && p[1] == q[1] && p[2] == q[2];
    }
  }

  /** Exactly what the trace binds of a state: values and logs as normalized, and the safe counters. */
  lemma StateViewBinds(nf: Normalizer, a: AgentState, ng: Normalizer, b: AgentState)
    requires DistinctState(a) && DistinctState(b)
    ensures StateView(nf, a) == StateView(ng, b) <==> SeenAlike(nf, a, ng, b)
  {
    ViewFields(nf, a, ng, b);
    ValuesBind(nf, a.values, ng, b.values);
    CountersBind(a.counters, b.counters);
    LogsBind(nf, a.logs, ng, b.logs);
  }

  // ---- the states of a run ---------------------------------------------------------------

  lemma {:induction false} LoopKeepsDistinct(rt: Runtime, state: AgentState, tool: string, out: string, input: Json,
                                             max: int, i: nat, prev: string)
    requires DistinctState(state) && LoopFrom(rt, state, tool, out, input, max, i, prev).Ok?
    ensures DistinctState(LoopFrom(rt, state, tool, out, input, max, i, prev).value)
    decreases max - i
  {
    if i < max {
      var stored := Store(state, out, Canonical(rt.tools(tool, input).value));
      PutKeepsDistinct(state.values, out, Canonical(rt.tools(tool, input).value));
      var after := rt.coreHash(stored.counters, stored.values);
      if after != prev {
        LoopKeepsDistinct(rt, Log(stored, LoopLine(i, tool, out, false)), tool, out, input, max, i + 1, after);
      }
    }
  }

  lemma StepKeepsDistinct(rt: Runtime, state: AgentState, step: Step)
    requires DistinctState(state) && MockStep(rt, state, step).Ok?
    ensures DistinctState(MockStep(rt, state, step).value)
  {
    match step
    case Set(_, key, value) => PutKeepsDistinct(state.values, key, value);
    case Increment(_, key, delta) => PutKeepsDistinct(state.counters, key, Counter(state, key) + delta);
    case SandboxExtract(_, _, selector, out) => PutKeepsDistinct(state.values, out, "mock:" + selector);
    case ToolCall(_, tool, out, input) =>
      var resolved := ResolveInputRefs(rt.parse, state.values, input).value;
      PutKeepsDistinct(state.values, out, Canonical(rt.tools(tool, resolved).value));
    case ToolLoop(_, tool, out, input, max) =>
      LoopKeepsDistinct(rt, state, tool, out, ResolveInputRefs(rt.parse, state.values, input).value, max, 0,
                        rt.coreHash(state.counters, state.values));
    case _ =>
  }

  lemma {:induction false} StateAtDistinct(env: Env, steps: seq<Step>, n: nat)
    requires n <= |steps| && StateAt(Applies(env), steps, n).Some?
    ensures DistinctState(StateAt(Applies(env), steps, n).value)
  {
    if n > 0 {
      StateAtDistinct(env, steps, n - 1);
      StepKeepsDistinct(env.rt, StateAt(Applies(env), steps, n - 1).value, steps[n - 1]);
    }
  }

  /** Every state a run passes through has no key twice. */
  lemma RunStatesDistinct(env: Env, steps: seq<Step>, n: nat)
    requires n <= |steps| && Steps(env, steps, n).Going?
    ensures DistinctState(Steps(env, steps, n).state.state)
  {
    GoingState(Applies(env), Marks(env), steps, n);
    StateAtDistinct(env, steps, n);
  }
}
