/** What the execution trace hashes: views of states and steps, and the linked payloads (src/agent/trace-chain.ts). */
module TraceChain {
  import opened Common
  import opened Sorting
  import opened JsStrings
  import opened Records
  import opened Json
  import opened JsonParser
  import opened PlanTypes
  import opened CanonicalPlan
  import opened PlanIdempotence

  const SCHEMA_VERSION := 1

  // ---- views -----------------------------------------------------------------------------

  /** The counters that are safe integers, in order. */
  function SafeCounters(es: seq<Entry<int>>): seq<Entry<Json>> {
    if es == [] then []
    else
      (if -MAX_SAFE <= es[0].value <= MAX_SAFE then [Entry(es[0].key, Num(es[0].value))] else []) + SafeCounters(es[1..])
  }

  function ValueTexts(nfc: Normalizer, es: seq<Entry<string>>): (r: seq<Entry<Json>>)
    ensures |r| == |es| && forall i | 0 <= i < |es| :: r[i] == Entry(es[i].key, Str(nfc(es[i].value)))
  {
    if es == [] then [] else [Entry(es[0].key, Str(nfc(es[0].value)))] + ValueTexts(nfc, es[1..])
  }

  function LogTexts(nfc: Normalizer, logs: seq<string>): (r: seq<Json>)
    ensures |r| == |logs| && forall i | 0 <= i < |logs| :: r[i] == Str(nfc(logs[i]))
  {
    if logs == [] then [] else [Str(nfc(logs[0]))] + LogTexts(nfc, logs[1..])
  }

  /** `stableStateView`, before it is printed. */
  function StateView(nfc: Normalizer, state: AgentState): Json {
    Obj([Entry("counters", Obj(SafeCounters(SortByKey(state.counters)))),
         Entry("values", Obj(ValueTexts(nfc, SortByKey(state.values)))),
         Entry("logs", Arr(LogTexts(nfc, state.logs)))])
  }

  function KeyView(nfc: Normalizer, step: Step): Json {
    if step.Set? || step.Increment? then Str(nfc(step.key)) else Null
  }

  function ValueView(nfc: Normalizer, step: Step): Json {
    if step.Increment? then Num(step.delta)
    else if step.Set? || step.AppendLog? then Str(nfc(step.value))
    else Null
  }

  function SandboxView(nfc: Normalizer, step: Step): seq<Entry<Json>>
    requires step.IsSandbox()
  {
    [Entry("sessionId", Str(nfc(step.sessionId))),
     Entry("url", if step.SandboxOpen? then Str(nfc(step.url)) else Null),
     Entry("selector", if step.SandboxOpen? then Null else Str(nfc(step.selector))),
     Entry("text", if step.SandboxType? then Str(nfc(step.text)) else Null),
     Entry("outputKey", if step.SandboxExtract? then Str(nfc(step.outputKey)) else Null)]
  }

  /** `stableStepView`, before it is printed. Tool id, input, output key and budget are not in it. */
  function StepView(nfc: Normalizer, step: Step): Json {
    Obj([Entry("id", Str(nfc(step.id))), Entry("kind", Str(step.Kind())),
         Entry("key", KeyView(nfc, step)), Entry("value", ValueView(nfc, step))]
        + if step.IsSandbox() then SandboxView(nfc, step) else [])
  }

  // ---- payloads and hashes ---------------------------------------------------------------

  /** Everything one trace link commits to. */
  datatype Link = Link(previous: string, index: nat, step: Json, beforeHash: string, afterHash: string,
                       before: Json, after: Json)

  function LinkPayload(l: Link): Json {
    Obj([Entry("traceSchemaVersion", Num(SCHEMA_VERSION)), Entry("previousLinkHash", Str(l.previous)),
         Entry("stepIndex", Num(l.index)), Entry("step", l.step), Entry("beforeHashLike", Str(l.beforeHash)),
         Entry("afterHashLike", Str(l.afterHash)), Entry("beforeState", l.before), Entry("afterState", l.after)])
  }

  /** `computeTraceLinkHash`; `sha` is the hex digest. */
  function LinkHash(sha: string -> string, l: Link): string {
    "tl" + sha(Stringify(LinkPayload(l)))
  }

  /** Everything the execution hash commits to. */
  datatype Summary = Summary(planHash: string, stepCount: nat, finalLink: string, finalState: Json)

  function SummaryPayload(s: Summary): Json {
    Obj([Entry("traceSchemaVersion", Num(SCHEMA_VERSION)), Entry("planHash", Str(s.planHash)),
         Entry("stepCount", Num(s.stepCount)), Entry("finalTraceLinkHash", Str(s.finalLink)),
         Entry("finalState", s.finalState)])
  }

  /** `computeExecutionHash`. */
  function ExecutionHash(sha: string -> string, s: Summary): string {
    "eh" + sha(Stringify(SummaryPayload(s)))
  }

  function PlanText(plan: Plan): string {
    Stringify(Obj(PlanFields(plan)))
  }

  /** `computeDeterministicPlanHash`, which canonicalizes once more and throws when that fails. */
  function PlanHash(nfc: Normalizer, sha: string -> string, plan: Plan): Option<string> {
    match Canonicalize(nfc, PlanFields(plan))
    case None => None
    case Some(canonical) => Some("ph" + sha(PlanText(canonical)))
  }

  // ---- what the hashed texts determine ---------------------------------------------------

  lemma StringifyInjective(a: Json, b: Json)
    requires Stringify(a) == Stringify(b)
    ensures a == b
  {
    ParseOfStringify(a);
    ParseOfStringify(b);
  }

  lemma LinkPayloadInjective(a: Link, b: Link)
    requires LinkPayload(a) == LinkPayload(b)
    ensures a == b
  {
    var p, q := LinkPayload(a).members, LinkPayload(b).members;
    assert p[1] == q[1] && p[2] == q[2] && p[3] == q[3] && p[4] == q[4] && p[5] == q[5] && p[6] == q[6] && p[7] == q[7];
  }

  lemma SummaryPayloadInjective(a: Summary, b: Summary)
    requires SummaryPayload(a) == SummaryPayload(b)
    ensures a == b
  {
    var p, q := SummaryPayload(a).members, SummaryPayload(b).members;
    assert p[1] == q[1] && p[2] == q[2] && p[3] == q[3] && p[4] == q[4];
  }

  lemma PrefixedEqual(prefix: string, a: string, b: string)
    requires prefix + a == prefix + b
    ensures a == b
  {
    assert (prefix + a)[|prefix|..] == a && (prefix + b)[|prefix|..] == b;
  }

  /** A link hash determines the link when the hash does not collide on the two payload texts. */
  lemma LinkHashBinds(sha: string -> string, texts: set<string>, a: Link, b: Link)
    requires CollisionFree(sha, texts) && LinkHash(sha, a) == LinkHash(sha, b)
    requires Stringify(LinkPayload(a)) in texts && Stringify(LinkPayload(b)) in texts
    ensures a == b
  {
    PrefixedEqual("tl", sha(Stringify(LinkPayload(a))), sha(Stringify(LinkPayload(b))));
    StringifyInjective(LinkPayload(a), LinkPayload(b));
    LinkPayloadInjective(a, b);
  }

  lemma ExecutionHashBinds(sha: string -> string, texts: set<string>, a: Summary, b: Summary)
    requires CollisionFree(sha, texts) && ExecutionHash(sha, a) == ExecutionHash(sha, b)
    requires Stringify(SummaryPayload(a)) in texts && Stringify(SummaryPayload(b)) in texts
    ensures a == b
  {
    PrefixedEqual("eh", sha(Stringify(SummaryPayload(a))), sha(Stringify(SummaryPayload(b))));
    StringifyInjective(SummaryPayload(a), SummaryPayload(b));
    SummaryPayloadInjective(a, b);
  }

  /** Hashing a canonical plan never throws, and hashes the plan's own text. */
  lemma PlanHashOfCanonical(nfc: Normalizer, sha: string -> string, plan: Plan)
    requires IsCanonPlan(nfc, plan)
    ensures PlanHash(nfc, sha, plan) == Some("ph" + sha(PlanText(plan)))
  {
    CanonPlanIsFixed(nfc, plan);
  }

  /** The plan hash binds every field of a canonical plan, tool fields included. */
  lemma PlanHashBinds(nfc: Normalizer, sha: string -> string, texts: set<string>, a: Plan, b: Plan)
    requires IsCanonPlan(nfc, a) && IsCanonPlan(nfc, b)
    requires CollisionFree(sha, texts) && PlanText(a) in texts && PlanText(b) in texts
    requires PlanHash(nfc, sha, a) == PlanHash(nfc, sha, b)
    ensures a == b
  {
    PlanHashOfCanonical(nfc, sha, a);
    PlanHashOfCanonical(nfc, sha, b);
    PrefixedEqual("ph", sha(PlanText(a)), sha(PlanText(b)));
    StringifyInjective(Obj(PlanFields(a)), Obj(PlanFields(b)));
    PlanFieldsInjective(a, b);
  }

  lemma NormIsFixed(nfc: Normalizer, t: string, maxLen: nat)
    requires NfcLaws(nfc) && IsNorm(nfc, t, maxLen)
    ensures nfc(t) == t
  {
    assert nfc(Trim(nfc(t))) == Trim(nfc(t));
  }

  lemma ViewOfId(nfc: Normalizer, a: Step, b: Step)
    requires NfcLaws(nfc) && IsCanonStep(nfc, a) && IsCanonStep(nfc, b) && StepView(nfc, a) == StepView(nfc, b)
    ensures a.id == b.id && a.Kind() == b.Kind()
    ensures KeyView(nfc, a) == KeyView(nfc, b) && ValueView(nfc, a) == ValueView(nfc, b)
  {
    NormIsFixed(nfc, a.id, 256);
    NormIsFixed(nfc, b.id, 256);
    var p, q := StepView(nfc, a).members, StepView(nfc, b).members;
    assert p[0] == q[0] && p[1] == q[1] && p[2] == q[2] && p[3] == q[3];
  }

  lemma ViewOfSandbox(nfc: Normalizer, a: Step, b: Step)
    requires a.IsSandbox() && b.IsSandbox() && StepView(nfc, a) == StepView(nfc, b)
    ensures SandboxView(nfc, a) == SandboxView(nfc, b)
  {
    var p, q := StepView(nfc, a).members, StepView(nfc, b).members;
    assert p[4..] == SandboxView(nfc, a) && q[4..] == SandboxView(nfc, b);
  }

  lemma SandboxViewBinds(nfc: Normalizer, a: Step, b: Step)
    requires NfcLaws(nfc) && IsCanonStep(nfc, a) && IsCanonStep(nfc, b) && a.IsSandbox() && b.IsSandbox()
    requires a.id == b.id && SandboxView(nfc, a) == SandboxView(nfc, b)
    requires a.SandboxOpen? == b.SandboxOpen? && a.SandboxType? == b.SandboxType? && a.SandboxExtract? == b.SandboxExtract?
    ensures a == b
  {
    var p, q := SandboxView(nfc, a), SandboxView(nfc, b);
    assert p[0] == q[0] && p[1] == q[1] && p[2] == q[2] && p[3] == q[3] && p[4] == q[4];
    NormIsFixed(nfc, a.sessionId, 256);
    NormIsFixed(nfc, b.sessionId, 256);
    if a.SandboxOpen? {
      NormIsFixed(nfc, a.url, 2048);
      NormIsFixed(nfc, b.url, 2048);
    } else {
      NormIsFixed(nfc, a.selector, 512);
      NormIsFixed(nfc, b.selector, 512);
      if a.SandboxType? {
        NormIsFixed(nfc, a.text, 4096);
        NormIsFixed(nfc, b.text, 4096);
      } else if a.SandboxExtract? {
        NormIsFixed(nfc, a.outputKey, 256);
        NormIsFixed(nfc, b.outputKey, 256);
      }
    }
  }

  /** Exactly what the trace binds of a step: everything, except the fields of tool steps. */
  lemma StepViewBinds(nfc: Normalizer, a: Step, b: Step)
    requires NfcLaws(nfc) && IsCanonStep(nfc, a) && IsCanonStep(nfc, b)
    ensures StepView(nfc, a) == StepView(nfc, b)
      <==> a == b || (a.IsTool() && b.IsTool() && a.id == b.id && a.ToolCall? == b.ToolCall?)
  {
    if StepView(nfc, a) == StepView(nfc, b) {
      ViewOfId(nfc, a, b);
      KindInjective(a, b);
      match a
      case Set(_, key, value) =>
        NormIsFixed(nfc, key, 256);
        NormIsFixed(nfc, b.key, 256);
        NormIsFixed(nfc, value, 4096);
        NormIsFixed(nfc, b.value, 4096);
      case Increment(_, key, _) =>
        NormIsFixed(nfc, key, 256);
        NormIsFixed(nfc, b.key, 256);
      case AppendLog(_, value) =>
        NormIsFixed(nfc, value, 4096);
        NormIsFixed(nfc, b.value, 4096);
      case ToolCall(_, _, _, _) =>
      case ToolLoop(_, _, _, _, _) =>
      case _ =>
        ViewOfSandbox(nfc, a, b);
        SandboxViewBinds(nfc, a, b);
    }
  }
}
