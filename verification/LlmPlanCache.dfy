/**
 * The live planner over its plan cache (src/agent-run/planner-llm-live.ts and
 * src/agent-run/llm-live-cache.ts). A cache entry is a file named after the hash of the request's
 * key, holding the canonical text of a record; reading one is parsing that text. How a plan is
 * built from a goal, from plan text or by a model is arbitrary.
 */
module LlmPlanCache {
  import opened Common
  import opened Sorting
  import opened JsStrings
  import opened Records
  import opened Json
  import opened JsonParser
  import opened CanonicalPlan

  datatype Provider = Mock | OpenAiCompatible

  /** A request; `rest` stands for the fields the key does not cover. */
  datatype Request = Request(
    provider: Provider, model: string, temperature: Option<int>, maxTokens: Option<int>, goal: string, demo: string,
    history: Json, lastErrorCode: string, planText: string, rest: Json)

  /** The call: `planAsync`, or `plan`, which cannot ask a model. */
  datatype Call = Call(async: bool, request: Request)

  datatype Outcome = Planned(plan: Json) | Failed

  /** How plans are made; the model may answer each call differently. */
  datatype Builders = Builders(
    mock: string -> Option<Json>, fromText: Request -> Option<Json>, model: (Request, nat) -> Option<Json>,
    sha: string -> string)

  // ---- keys ------------------------------------------------------------------------------

  function OptNumber(v: Option<int>): Json {
    if v.Some? then Num(v.value) else Null
  }

  function ProviderText(p: Provider): string {
    if p.Mock? then "mock" else "openai-compatible"
  }

  function KeyFields(q: Request): seq<Entry<Json>> {
    [Entry("planner", Str("llm-live")), Entry("capabilitySynthesisVersion", Str("v2")),
     Entry("provider", Str(ProviderText(q.provider))), Entry("model", Str(q.model)),
     Entry("temperature", OptNumber(q.temperature)), Entry("maxTokens", OptNumber(q.maxTokens)),
     Entry("goal", Str(q.goal)), Entry("demo", Str(q.demo)), Entry("history", q.history),
     Entry("lastErrorCode", Str(q.lastErrorCode)), Entry("llmPlanText", Str(q.planText))]
  }

  function KeyText(q: Request): string {
    Canonical(Obj(KeyFields(q)))
  }

  /** `computeKey`. */
  function KeyHash(sha: string -> string, q: Request): string {
    sha(KeyText(q))
  }

  lemma KeyFieldsDistinct(q: Request)
    ensures DistinctKeys(KeyFields(q))
  {
    var ms := KeyFields(q);
    assert forall i | 0 <= i < |ms| :: ms[i].key == KeyNames()[i];
    NamesDistinct();
  }

  function KeyNames(): seq<string> {
    ["planner", "capabilitySynthesisVersion", "provider", "model", "temperature", "maxTokens", "goal", "demo", "history",
     "lastErrorCode", "llmPlanText"]
  }

  lemma NamesDistinct()
    ensures forall i, j | 0 <= i < j < |KeyNames()| :: KeyNames()[i] != KeyNames()[j]
  {
  }

  lemma KeyWellFormed(q: Request)
    requires WellFormed(q.history)
    ensures WellFormed(Obj(KeyFields(q)))
  {
    KeyFieldsDistinct(q);
  }

  /** The requests agree in everything the key covers; of the history the order of keys does not matter. */
  ghost predicate SameKey(a: Request, b: Request) {
    && a.provider == b.provider && a.model == b.model && a.temperature == b.temperature && a.maxTokens == b.maxTokens
    && a.goal == b.goal && a.demo == b.demo && Same(a.history, b.history)
    && a.lastErrorCode == b.lastErrorCode && a.planText == b.planText
  }

  /** The requests agree in the `i`-th value of the key. */
  ghost predicate AgreeAt(a: Request, b: Request, i: nat) {
    match i
    case 2 => a.provider == b.provider
    case 3 => a.model == b.model
    case 4 => a.temperature == b.temperature
    case 5 => a.maxTokens == b.maxTokens
    case 6 => a.goal == b.goal
    case 7 => a.demo == b.demo
    case 8 => Same(a.history, b.history)
    case 9 => a.lastErrorCode == b.lastErrorCode
    case 10 => a.planText == b.planText
    case _ => true
  }

  lemma AgreeEverywhere(a: Request, b: Request)
    ensures SameKey(a, b) <==> forall i | 0 <= i < 11 :: AgreeAt(a, b, i)
  {
    if forall i | 0 <= i < 11 :: AgreeAt(a, b, i) {
      assert AgreeAt(a, b, 2) && AgreeAt(a, b, 3) && AgreeAt(a, b, 4) && AgreeAt(a, b, 5) && AgreeAt(a, b, 6);
      assert AgreeAt(a, b, 7) && AgreeAt(a, b, 8) && AgreeAt(a, b, 9) && AgreeAt(a, b, 10);
    }
  }

  lemma ProviderTextTells(p: Provider, q: Provider)
    ensures ProviderText(p) == ProviderText(q) <==> p == q
  {
  }

  lemma ValueAgrees(a: Request, b: Request, i: nat)
    requires i < 11
    ensures |KeyFields(a)| == |KeyFields(b)| == 11 && KeyFields(a)[i].key == KeyFields(b)[i].key
    ensures Same(KeyFields(a)[i].value, KeyFields(b)[i].value) <==> AgreeAt(a, b, i)
  {
    ProviderTextTells(a.provider, b.provider);
  }

  lemma KeyValuesAgree(a: Request, b: Request)
    ensures |KeyFields(a)| == |KeyFields(b)| && forall k | 0 <= k < |KeyFields(a)| :: KeyFields(a)[k].key == KeyFields(b)[k].key
    ensures (forall k | 0 <= k < |KeyFields(a)| :: Same(KeyFields(a)[k].value, KeyFields(b)[k].value))
        <==> (forall k | 0 <= k < 11 :: AgreeAt(a, b, k))
  {
    var ms, ns := KeyFields(a), KeyFields(b);
    forall k | 0 <= k < 11
      ensures ms[k].key == ns[k].key && (Same(ms[k].value, ns[k].value) <==> AgreeAt(a, b, k))
    {
      ValueAgrees(a, b, k);
    }
  }

  lemma TextsAgreeIff(ms: seq<Entry<Json>>, ns: seq<Entry<Json>>)
    requires WellFormed(Obj(ms)) && WellFormed(Obj(ns)) && |ms| == |ns| && forall k | 0 <= k < |ms| :: ms[k].key == ns[k].key
    ensures Canonical(Obj(ms)) == Canonical(Obj(ns)) <==> forall i | 0 <= i < |ms| :: Same(ms[i].value, ns[i].value)
  {
    CanonicalUnambiguous(Obj(ms), Obj(ns));
    SameFields(ms, ns);
  }

  /** Two requests share their key text exactly when they agree in everything the key covers. */
  lemma KeyTextIff(a: Request, b: Request)
    requires WellFormed(a.history) && WellFormed(b.history)
    ensures KeyText(a) == KeyText(b) <==> SameKey(a, b)
  {
    KeyWellFormed(a);
    KeyWellFormed(b);
    KeyValuesAgree(a, b);
    TextsAgreeIff(KeyFields(a), KeyFields(b));
    AgreeEverywhere(a, b);
  }

  /** In particular they ask the same provider for the same goal with the same plan text. */
  lemma KeyTextTells(a: Request, b: Request)
    requires WellFormed(a.history) && WellFormed(b.history) && KeyText(a) == KeyText(b)
    ensures a.provider == b.provider && a.goal == b.goal && a.planText == b.planText
  {
    KeyTextIff(a, b);
  }

  // ---- files -----------------------------------------------------------------------------

  const SCHEMA_NAME := "deterministic-agent-system.llm-live-cache"

  function RecordFields(keyHash: string, plan: Json): seq<Entry<Json>> {
    [Entry("schema", Str(SCHEMA_NAME)), Entry("version", Num(1)), Entry("keyHash", Str(keyHash)), Entry("plan", plan)]
  }

  /** The text `saveCachedPlan` writes. */
  function FileText(keyHash: string, plan: Json): string {
    Canonical(Obj(RecordFields(keyHash, plan))) + "\n"
  }

  type Files = map<string, string>

  /** `JSON.parse` of a text that ends with a line break. */
  function ParseFile(text: string): Option<Json> {
    if text != "" && text[|text| - 1] == '\n' then Parse(text[..|text| - 1]) else Parse(text)
  }

  function PlanOf(record: Json, keyHash: string): Option<Json> {
    if record.Obj? && Field(record.members, "schema") == Some(Str(SCHEMA_NAME)) && Field(record.members, "version") == Some(Num(1))
       && Field(record.members, "keyHash") == Some(Str(keyHash)) then Field(record.members, "plan") else None
  }

  /** `loadCachedPlan`, for files the cache wrote itself. */
  function LoadCachedPlan(files: Files, keyHash: string): Option<Json> {
    if keyHash !in files then None
    else
      match ParseFile(files[keyHash])
      case None => None
      case Some(record) => PlanOf(record, keyHash)
  }

  lemma RecordFieldsDistinct(keyHash: string, plan: Json)
    ensures DistinctKeys(RecordFields(keyHash, plan))
  {
  }

  lemma SortedField(ms: seq<Entry<Json>>, i: nat)
    requires DistinctKeys(ms) && i < |ms|
    ensures Field(SortByKey(SortKeysMembers(ms)), ms[i].key) == Some(SortKeys(ms[i].value))
  {
    var es := SortKeysMembers(ms);
    assert es[i] == Entry(ms[i].key, SortKeys(ms[i].value));
    SortKeysMembersGet(ms);
    SortByKeyDistinct(es);
    GetAt(es, i);
  }

  lemma PlanOfSorted(keyHash: string, plan: Json)
    ensures PlanOf(SortKeys(Obj(RecordFields(keyHash, plan))), keyHash) == Some(SortKeys(plan))
  {
    var ms := RecordFields(keyHash, plan);
    RecordFieldsDistinct(keyHash, plan);
    SortedField(ms, 0);
    SortedField(ms, 1);
    SortedField(ms, 2);
    SortedField(ms, 3);
    assert ms[0].key == "schema" && ms[1].key == "version" && ms[2].key == "keyHash" && ms[3].key == "plan";
  }

  /** What is saved is loaded back, with the keys of every object sorted. */
  lemma LoadOfSave(files: Files, keyHash: string, plan: Json)
    requires keyHash in files && files[keyHash] == FileText(keyHash, plan)
    ensures LoadCachedPlan(files, keyHash) == Some(SortKeys(plan))
  {
    ParseOfCanonical(Obj(RecordFields(keyHash, plan)));
    PlanOfSorted(keyHash, plan);
    LoadParsed(files, keyHash, Canonical(Obj(RecordFields(keyHash, plan))), SortKeys(Obj(RecordFields(keyHash, plan))));
  }

  lemma LoadParsed(files: Files, keyHash: string, text: string, record: Json)
    requires keyHash in files && files[keyHash] == text + "\n" && Parse(text) == Some(record)
    ensures LoadCachedPlan(files, keyHash) == PlanOf(record, keyHash)
  {
    assert (text + "\n")[..|text|] == text;
  }

  // ---- one call --------------------------------------------------------------------------

  predicate HasPlanText(q: Request) {
    q.provider.OpenAiCompatible? && Trim(q.planText) != ""
  }

  /** The plan a call builds when the cache does not answer it. */
  function Built(bs: Builders, c: Call, n: nat): Option<Json> {
    if HasPlanText(c.request) then bs.fromText(c.request)
    else if c.request.provider.Mock? then bs.mock(c.request.goal)
    else if c.async then bs.model(c.request, n)
    else None
  }

  /** One call, the `n`-th: the files afterwards and the outcome. */
  function Plan(bs: Builders, files: Files, c: Call, n: nat): (Files, Outcome) {
    var keyHash := KeyHash(bs.sha, c.request);
    var cached := if HasPlanText(c.request) then None else LoadCachedPlan(files, keyHash);
    if cached.Some? then (files, Planned(cached.value))
    else
      match Built(bs, c, n)
      case None => (files, Failed)
      case Some(plan) => (files[keyHash := FileText(keyHash, plan)], Planned(plan))
  }

  class LlmLivePlanner {
    var files: Files

    constructor ()
      ensures files == map[]
    {
      files := map[];
    }

    method Save(keyHash: string, plan: Json)
      modifies this
      ensures files == old(files)[keyHash := FileText(keyHash, plan)]
    {
      files := files[keyHash := FileText(keyHash, plan)];
    }

    /** `plan` and `planAsync`, which differ only in whether a model can be asked. */
    method Answer(bs: Builders, c: Call, n: nat) returns (r: Outcome)
      modifies this
      ensures (files, r) == Plan(bs, old(files), c, n)
    {
      var q := c.request;
      var keyHash := KeyHash(bs.sha, q);
      if HasPlanText(q) {
        var plan := bs.fromText(q);
        if plan.None? {
          return Failed;
        }
        Save(keyHash, plan.value);
        return Planned(plan.value);
      }
      var cached := LoadCachedPlan(files, keyHash);
      if cached.Some? {
        return Planned(cached.value);
      }
      var built: Option<Json>;
      if q.provider.OpenAiCompatible? {
        if !c.async {
          return Failed;
        }
        built := bs.model(q, n);
      } else {
        built := bs.mock(q.goal);
      }
      if built.None? {
        return Failed;
      }
      Save(keyHash, built.value);
      return Planned(built.value);
    }
  }

  /** What makes the plan of a call the cache does not answer, if anything may. */
  ghost predicate MadeBy(bs: Builders, c: Call, n: nat, plan: Option<Json>) {
    var q := c.request;
    match q.provider
    case Mock => plan == bs.mock(q.goal)
    case OpenAiCompatible =>
      && (Trim(q.planText) != "" ==> plan == bs.fromText(q))
      && (Trim(q.planText) == "" && c.async ==> plan == bs.model(q, n))
      && (Trim(q.planText) == "" && !c.async ==> plan.None?)
  }

  /** The plan is what the key's file now holds, keys sorted; the other files stay. */
  ghost predicate SavedUnder(files: Files, after: Files, keyHash: string, plan: Json) {
    && LoadCachedPlan(after, keyHash) == Some(SortKeys(plan))
    && forall k | k != keyHash :: (k in after <==> k in files) && (k in after ==> after[k] == files[k])
  }

  /** A call the cache does not answer: its plan is made and saved, or cannot be made. */
  ghost predicate Misses(bs: Builders, files: Files, c: Call, n: nat, after: Files, r: Outcome) {
    match r
    case Failed => MadeBy(bs, c, n, None) && after == files
    case Planned(plan) => MadeBy(bs, c, n, Some(plan)) && SavedUnder(files, after, bs.sha(KeyText(c.request)), plan)
  }

  /** The cached plan answers a call unless the call brings plan text. */
  ghost predicate Answers(bs: Builders, files: Files, c: Call, n: nat, after: Files, r: Outcome) {
    var q, cached := c.request, LoadCachedPlan(files, bs.sha(KeyText(c.request)));
    if cached.Some? && (q.provider.Mock? || Trim(q.planText) == "") then after == files && r == Planned(cached.value)
    else Misses(bs, files, c, n, after, r)
  }

  lemma SavesUnder(files: Files, keyHash: string, plan: Json)
    ensures SavedUnder(files, files[keyHash := FileText(keyHash, plan)], keyHash, plan)
  {
    LoadOfSave(files[keyHash := FileText(keyHash, plan)], keyHash, plan);
  }

  /** One call, case by case: a mock or a model is asked on a miss, plan text is always used, `plan` never asks a model. */
  lemma CallAnswers(bs: Builders, files: Files, c: Call, n: nat)
    ensures var (after, r) := Plan(bs, files, c, n); Answers(bs, files, c, n, after, r)
  {
    var plan := Built(bs, c, n);
    if plan.Some? { SavesUnder(files, bs.sha(KeyText(c.request)), plan.value); }
  }

  // ---- histories -------------------------------------------------------------------------

  type Caller = (Files, Call, nat) -> (Files, Outcome)

  function Planner(bs: Builders): Caller {
    (files: Files, c: Call, n: nat) => Plan(bs, files, c, n)
  }

  /** The files after the first `n` calls. */
  function FilesAfter(caller: Caller, calls: seq<Call>, n: nat): Files
    requires n <= |calls|
  {
    if n == 0 then map[] else caller(FilesAfter(caller, calls, n - 1), calls[n - 1], n - 1).0
  }

  function Answered(caller: Caller, calls: seq<Call>, n: nat): Outcome
    requires n < |calls|
  {
    caller(FilesAfter(caller, calls, n), calls[n], n).1
  }

  /** The key texts of the calls: all the texts the hash is ever asked about. */
  ghost function KeyTexts(calls: seq<Call>): set<string> {
    set i | 0 <= i < |calls| :: KeyText(calls[i].request)
  }

  ghost predicate WellFormedCalls(calls: seq<Call>) {
    forall i | 0 <= i < |calls| :: WellFormed(calls[i].request.history)
  }

  /** What a call depends on, without the details: its key, the text it writes, the plan it builds. */
  datatype Shape = Shape(key: Call -> string, text: (string, Json) -> string, built: (Call, nat) -> Option<Json>)

  function ShapeOf(bs: Builders): Shape {
    Shape((c: Call) => KeyHash(bs.sha, c.request), (keyHash: string, plan: Json) => FileText(keyHash, plan),
          (c: Call, n: nat) => Built(bs, c, n))
  }

  /** Call `i` built and wrote the file. */
  ghost predicate WroteFile(shape: Shape, calls: seq<Call>, i: nat, keyHash: string, text: string)
    requires i < |calls|
  {
    && shape.key(calls[i]) == keyHash && shape.built(calls[i], i).Some?
    && text == shape.text(keyHash, shape.built(calls[i], i).value)
  }

  ghost predicate Written(shape: Shape, calls: seq<Call>, n: nat, keyHash: string, text: string)
    requires n <= |calls|
  {
    exists i: nat :: i < n && WroteFile(shape, calls, i, keyHash, text)
  }

  /** What one call may do to the files: nothing, or write its own. */
  ghost predicate WritesOwn(shape: Shape, files: Files, c: Call, n: nat, next: Files) {
    || next == files
    || (shape.built(c, n).Some? && next == files[shape.key(c) := shape.text(shape.key(c), shape.built(c, n).value)])
  }

  lemma PlanWritesOwn(bs: Builders, files: Files, c: Call, n: nat)
    ensures WritesOwn(ShapeOf(bs), files, c, n, Plan(bs, files, c, n).0)
  {
  }

  ghost predicate CallerWritesOwn(shape: Shape, caller: Caller) {
    forall files, c, n :: WritesOwn(shape, files, c, n, caller(files, c, n).0)
  }

  lemma PlannerWritesOwn(bs: Builders)
    ensures CallerWritesOwn(ShapeOf(bs), Planner(bs))
  {
    forall files, c, n ensures WritesOwn(ShapeOf(bs), files, c, n, Planner(bs)(files, c, n).0) {
      PlanWritesOwn(bs, files, c, n);
    }
  }

  lemma WrittenStays(shape: Shape, calls: seq<Call>, n: nat, keyHash: string, text: string)
    requires n < |calls| && Written(shape, calls, n, keyHash, text)
    ensures Written(shape, calls, n + 1, keyHash, text)
  {
    var i: nat :| i < n && WroteFile(shape, calls, i, keyHash, text);
    assert i < n + 1;
  }

  lemma {:induction false} FilesAreWritten(shape: Shape, caller: Caller, calls: seq<Call>, n: nat, keyHash: string)
    requires n <= |calls| && CallerWritesOwn(shape, caller) && keyHash in FilesAfter(caller, calls, n)
    ensures Written(shape, calls, n, keyHash, FilesAfter(caller, calls, n)[keyHash])
  {
    var before, after := FilesAfter(caller, calls, n - 1), FilesAfter(caller, calls, n);
    assert WritesOwn(shape, before, calls[n - 1], n - 1, after);
    if keyHash in before && after[keyHash] == before[keyHash] {
      FilesAreWritten(shape, caller, calls, n - 1, keyHash);
      WrittenStays(shape, calls, n - 1, keyHash, after[keyHash]);
    } else {
      assert WroteFile(shape, calls, n - 1, keyHash, after[keyHash]);
    }
  }

  /** A call leaves the files of other keys alone. */
  lemma OtherKeyUntouched(shape: Shape, caller: Caller, calls: seq<Call>, n: nat, keyHash: string)
    requires n < |calls| && CallerWritesOwn(shape, caller) && shape.key(calls[n]) != keyHash
    requires keyHash in FilesAfter(caller, calls, n)
    ensures keyHash in FilesAfter(caller, calls, n + 1)
    ensures FilesAfter(caller, calls, n + 1)[keyHash] == FilesAfter(caller, calls, n)[keyHash]
  {
    assert WritesOwn(shape, FilesAfter(caller, calls, n), calls[n], n, FilesAfter(caller, calls, n + 1));
  }

  lemma SameKeySameRequest(bs: Builders, calls: seq<Call>, i: nat, j: nat)
    requires i < |calls| && j < |calls| && WellFormedCalls(calls) && CollisionFree(bs.sha, KeyTexts(calls))
    requires KeyHash(bs.sha, calls[i].request) == KeyHash(bs.sha, calls[j].request)
    ensures var a, b := calls[i].request, calls[j].request;
      a.provider == b.provider && a.goal == b.goal && a.planText == b.planText
  {
    assert KeyText(calls[i].request) in KeyTexts(calls) && KeyText(calls[j].request) in KeyTexts(calls);
    KeyTextTells(calls[i].request, calls[j].request);
  }

  /** What the cache holds for a call was built by a call of the same provider, goal and plan text. */
  lemma CachedIsBuilt(bs: Builders, calls: seq<Call>, n: nat) returns (i: nat)
    requires n < |calls| && WellFormedCalls(calls) && CollisionFree(bs.sha, KeyTexts(calls))
    requires KeyHash(bs.sha, calls[n].request) in FilesAfter(Planner(bs), calls, n)
    ensures i < n && Built(bs, calls[i], i).Some?
    ensures var a, b := calls[i].request, calls[n].request;
      a.provider == b.provider && a.goal == b.goal && a.planText == b.planText
    ensures LoadCachedPlan(FilesAfter(Planner(bs), calls, n), KeyHash(bs.sha, calls[n].request))
         == Some(SortKeys(Built(bs, calls[i], i).value))
  {
    var keyHash, files := KeyHash(bs.sha, calls[n].request), FilesAfter(Planner(bs), calls, n);
    PlannerWritesOwn(bs);
    FilesAreWritten(ShapeOf(bs), Planner(bs), calls, n, keyHash);
    i :| i < n && WroteFile(ShapeOf(bs), calls, i, keyHash, files[keyHash]);
    SameKeySameRequest(bs, calls, i, n);
    LoadOfSave(files, keyHash, Built(bs, calls[i], i).value);
  }

  /** The answer when a builder gives `plan`. */
  function Found(plan: Option<Json>): Outcome {
    if plan.Some? then Planned(plan.value) else Failed
  }

  /** The cache has an entry for the call. */
  predicate Hit(bs: Builders, calls: seq<Call>, n: nat)
    requires n < |calls|
  {
    KeyHash(bs.sha, calls[n].request) in FilesAfter(Planner(bs), calls, n)
  }

  /** What a call answers and writes when nothing is cached for it. */
  lemma MissAnswers(bs: Builders, files: Files, c: Call, n: nat)
    requires HasPlanText(c.request) || KeyHash(bs.sha, c.request) !in files
    ensures Plan(bs, files, c, n).1 == Found(Built(bs, c, n))
    ensures Built(bs, c, n).Some? ==>
      Plan(bs, files, c, n).0
      == files[KeyHash(bs.sha, c.request) := FileText(KeyHash(bs.sha, c.request), Built(bs, c, n).value)]
  {
  }

  lemma HitAnswers(bs: Builders, files: Files, c: Call, n: nat, plan: Json)
    requires !HasPlanText(c.request) && LoadCachedPlan(files, KeyHash(bs.sha, c.request)) == Some(plan)
    ensures Plan(bs, files, c, n) == (files, Planned(plan))
  {
  }

  /**
   * In every cache state reached by sequential calls, a mock request is answered as the builder
   * without a cache would answer it: on a miss with that very plan, on a hit with its keys sorted.
   */
  lemma MockAgreesWithUncached(bs: Builders, calls: seq<Call>, n: nat)
    requires n < |calls| && WellFormedCalls(calls) && CollisionFree(bs.sha, KeyTexts(calls))
    requires calls[n].request.provider.Mock?
    ensures var built, answer := bs.mock(calls[n].request.goal), Answered(Planner(bs), calls, n);
      && (built.None? ==> answer == Failed && !Hit(bs, calls, n))
      && (built.Some? ==> answer == Planned(if Hit(bs, calls, n) then SortKeys(built.value) else built.value))
      && (answer == Found(built) <==> (!Hit(bs, calls, n) || SortKeys(built.value) == built.value))
  {
    var files := FilesAfter(Planner(bs), calls, n);
    if Hit(bs, calls, n) {
      var i := CachedIsBuilt(bs, calls, n);
      HitAnswers(bs, files, calls[n], n, SortKeys(Built(bs, calls[i], i).value));
    } else {
      MissAnswers(bs, files, calls[n], n);
    }
  }

  /** A request with plan text is answered with the plan of its own text, whatever is cached. */
  lemma PlanTextIsAlwaysUsed(bs: Builders, calls: seq<Call>, n: nat)
    requires n < |calls| && HasPlanText(calls[n].request)
    ensures Answered(Planner(bs), calls, n) == Found(bs.fromText(calls[n].request))
  {
    MissAnswers(bs, FilesAfter(Planner(bs), calls, n), calls[n], n);
  }

  // ---- requests that ask a model ---------------------------------------------------------

  predicate AsksModel(q: Request) {
    q.provider.OpenAiCompatible? && !HasPlanText(q)
  }

  /** A cached answer to a request that asks a model was made by a model, never from plan text. */
  lemma CachedModelAnswer(bs: Builders, calls: seq<Call>, n: nat) returns (i: nat)
    requires n < |calls| && WellFormedCalls(calls) && CollisionFree(bs.sha, KeyTexts(calls))
    requires AsksModel(calls[n].request) && KeyHash(bs.sha, calls[n].request) in FilesAfter(Planner(bs), calls, n)
    ensures i < n && AsksModel(calls[i].request) && bs.model(calls[i].request, i).Some?
    ensures Answered(Planner(bs), calls, n) == Planned(SortKeys(bs.model(calls[i].request, i).value))
  {
    i := CachedIsBuilt(bs, calls, n);
  }

  lemma HitChangesNothing(bs: Builders, calls: seq<Call>, n: nat)
    requires n < |calls| && WellFormedCalls(calls) && CollisionFree(bs.sha, KeyTexts(calls))
    requires AsksModel(calls[n].request) && KeyHash(bs.sha, calls[n].request) in FilesAfter(Planner(bs), calls, n)
    ensures FilesAfter(Planner(bs), calls, n + 1) == FilesAfter(Planner(bs), calls, n)
  {
    var i := CachedIsBuilt(bs, calls, n);
    HitKeeps(bs, FilesAfter(Planner(bs), calls, n), calls[n], n);
  }

  lemma HitKeeps(bs: Builders, files: Files, c: Call, n: nat)
    requires AsksModel(c.request) && LoadCachedPlan(files, KeyHash(bs.sha, c.request)).Some?
    ensures Plan(bs, files, c, n).0 == files
  {
  }

  /** The file of a key, at two moments. */
  ghost predicate SameFile(a: Files, b: Files, keyHash: string) {
    keyHash in a && keyHash in b && a[keyHash] == b[keyHash]
  }

  /** Call `j` leaves the file of the key, if there is one, as it is. */
  ghost predicate KeepsFile(caller: Caller, calls: seq<Call>, j: nat, keyHash: string)
    requires j < |calls|
  {
    keyHash in FilesAfter(caller, calls, j)
    ==> SameFile(FilesAfter(caller, calls, j), FilesAfter(caller, calls, j + 1), keyHash)
  }

  lemma ModelFileStep(bs: Builders, calls: seq<Call>, n: nat, k: nat)
    requires n < |calls| && k < |calls| && WellFormedCalls(calls) && CollisionFree(bs.sha, KeyTexts(calls))
    requires AsksModel(calls[k].request)
    ensures KeepsFile(Planner(bs), calls, n, KeyHash(bs.sha, calls[k].request))
  {
    var keyHash := KeyHash(bs.sha, calls[k].request);
    if keyHash in FilesAfter(Planner(bs), calls, n) {
      if KeyHash(bs.sha, calls[n].request) == keyHash {
        SameKeySameRequest(bs, calls, n, k);
        HitChangesNothing(bs, calls, n);
      } else {
        PlannerWritesOwn(bs);
        assert ShapeOf(bs).key(calls[n]) != keyHash;
        OtherKeyUntouched(ShapeOf(bs), Planner(bs), calls, n, keyHash);
      }
    }
  }

  ghost predicate AllKeep(caller: Caller, calls: seq<Call>, keyHash: string) {
    forall j: nat | j < |calls| :: KeepsFile(caller, calls, j, keyHash)
  }

  lemma {:induction false} FileStays(caller: Caller, calls: seq<Call>, m: nat, n: nat, keyHash: string)
    requires m <= n <= |calls| && keyHash in FilesAfter(caller, calls, m)
    requires AllKeep(caller, calls, keyHash)
    ensures SameFile(FilesAfter(caller, calls, m), FilesAfter(caller, calls, n), keyHash)
  {
    if m < n {
      FileStays(caller, calls, m, n - 1, keyHash);
      assert KeepsFile(caller, calls, n - 1, keyHash);
    }
  }

  /** No call rewrites the file of a request that asks a model. */
  lemma ModelFilesAreKept(bs: Builders, calls: seq<Call>, k: nat)
    requires k < |calls| && WellFormedCalls(calls) && CollisionFree(bs.sha, KeyTexts(calls)) && AsksModel(calls[k].request)
    ensures AllKeep(Planner(bs), calls, KeyHash(bs.sha, calls[k].request))
  {
    forall j: nat | j < |calls| ensures KeepsFile(Planner(bs), calls, j, KeyHash(bs.sha, calls[k].request)) {
      ModelFileStep(bs, calls, j, k);
    }
  }

  /** The cache holds the plan, with its keys sorted. */
  ghost predicate Cached(files: Files, keyHash: string, plan: Json) {
    LoadCachedPlan(files, keyHash) == Some(SortKeys(plan))
  }

  /** After a call that was answered, the cache holds the answer under the call's key. */
  lemma AnswerIsCached(bs: Builders, calls: seq<Call>, m: nat)
    requires m < |calls| && WellFormedCalls(calls) && CollisionFree(bs.sha, KeyTexts(calls))
    requires AsksModel(calls[m].request) && Answered(Planner(bs), calls, m).Planned?
    ensures KeyHash(bs.sha, calls[m].request) in FilesAfter(Planner(bs), calls, m + 1)
    ensures Cached(FilesAfter(Planner(bs), calls, m + 1), KeyHash(bs.sha, calls[m].request),
                   Answered(Planner(bs), calls, m).plan)
  {
    var files := FilesAfter(Planner(bs), calls, m);
    if Hit(bs, calls, m) {
      var i := CachedIsBuilt(bs, calls, m);
      var plan := Built(bs, calls[i], i).value;
      HitAnswers(bs, files, calls[m], m, SortKeys(plan));
      SortKeysTwice(plan);
    } else {
      MissAnswers(bs, files, calls[m], m);
      LoadOfSave(FilesAfter(Planner(bs), calls, m + 1), KeyHash(bs.sha, calls[m].request), Answered(Planner(bs), calls, m).plan);
    }
  }

  lemma CachedInBoth(a: Files, b: Files, keyHash: string, plan: Json)
    requires SameFile(a, b, keyHash) && Cached(a, keyHash, plan)
    ensures Cached(b, keyHash, plan)
  {
  }

  lemma CachedIsAnswered(bs: Builders, files: Files, c: Call, n: nat, plan: Json)
    requires AsksModel(c.request) && Cached(files, KeyHash(bs.sha, c.request), plan)
    ensures Plan(bs, files, c, n).1 == Planned(SortKeys(plan))
  {
    HitAnswers(bs, files, c, n, SortKeys(plan));
  }

  /**
   * Once a request that asks a model has been answered, every later request with the same key gets
   * that first plan with its keys sorted, however the model would answer now and whatever plan
   * texts came in between.
   */
  lemma FirstModelPlanIsKept(bs: Builders, calls: seq<Call>, m: nat, n: nat)
    requires m < n < |calls| && WellFormedCalls(calls) && CollisionFree(bs.sha, KeyTexts(calls))
    requires AsksModel(calls[m].request) && KeyHash(bs.sha, calls[m].request) == KeyHash(bs.sha, calls[n].request)
    requires Answered(Planner(bs), calls, m).Planned?
    ensures Answered(Planner(bs), calls, n) == Planned(SortKeys(Answered(Planner(bs), calls, m).plan))
  {
    SameKeySameRequest(bs, calls, m, n);
    ModelFilesAreKept(bs, calls, m);
    AnswerIsCached(bs, calls, m);
    FileIsKept(Planner(bs), calls, m, n, KeyHash(bs.sha, calls[m].request), Answered(Planner(bs), calls, m).plan);
    CachedIsAnswered(bs, FilesAfter(Planner(bs), calls, n), calls[n], n, Answered(Planner(bs), calls, m).plan);
  }

  lemma FileIsKept(caller: Caller, calls: seq<Call>, m: nat, n: nat, keyHash: string, plan: Json)
    requires m < n < |calls| && AllKeep(caller, calls, keyHash)
    requires keyHash in FilesAfter(caller, calls, m + 1) && Cached(FilesAfter(caller, calls, m + 1), keyHash, plan)
    ensures Cached(FilesAfter(caller, calls, n), keyHash, plan)
  {
    FileStays(caller, calls, m + 1, n, keyHash);
    CachedInBoth(FilesAfter(caller, calls, m + 1), FilesAfter(caller, calls, n), keyHash, plan);
  }
}
