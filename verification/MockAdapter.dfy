/**
 * The step interpreter (src/agent/mock-adapter.ts): resolving references in inputs, applying one
 * step to the state, and the bounded loop of `tool.loop`. Tools, `JSON.parse` and the 32-bit core
 * hash are arbitrary functions.
 */
module MockAdapter {
  import opened Common
  import opened JsStrings
  import opened Records
  import opened Json
  import opened PlanTypes
  import opened CanonicalPlan
  import opened StepDependencies

  datatype Runtime = Runtime(
    tools: (string, Json) -> Result<Json, string>,
    parse: string -> Option<Json>,
    coreHash: (seq<Entry<int>>, seq<Entry<string>>) -> string)

  /** Why a step throws. */
  datatype StepError =
    | KeyMissing(key: string, rawRef: string)
    | BadJson(rawRef: string)
    | BadIndex(path: string)
    | PathMissing(path: string)
    | Threw(message: string)

  /** The message of the thrown error. */
  function Message(e: StepError): string {
    match e
    case KeyMissing(_, rawRef) => "tool_input_ref_not_found: " + rawRef
    case BadJson(rawRef) => "tool_input_ref_invalid_json: " + rawRef
    case BadIndex(path) => "tool_input_ref_invalid_path: " + path
    case PathMissing(path) => "tool_input_ref_not_found: " + path
    case Threw(message) => message
  }

  // ---- paths -----------------------------------------------------------------------------

  /** `path.split(".").filter((x) => x.length > 0)`. */
  function PathParts(path: string): (r: seq<string>)
    ensures forall i | 0 <= i < |r| :: r[i] != ""
    decreases |path|
  {
    if path == "" then []
    else
      var dot := IndexOf(path, '.');
      if dot.None? then [path]
      else (if dot.value == 0 then [] else [path[..dot.value]]) + PathParts(path[dot.value + 1..])
  }

  /** `/^(0|[1-9][0-9]*)$/`. */
  predicate IsIndexText(part: string) {
    part == "0" || (part != "" && AllDigits(part) && part[0] != '0')
  }

  function Walk(current: Json, parts: seq<string>, path: string): Result<Json, StepError>
    decreases |parts|
  {
    if parts == [] then Ok(current)
    else
      match current
      case Arr(items) =>
        if !IsIndexText(parts[0]) then Err(BadIndex(path))
        else
          var index := Fold(0, parts[0]);
          if index >= |items| then Err(PathMissing(path)) else Walk(items[index], parts[1..], path)
      case Obj(ms) =>
        if !Has(ms, parts[0]) then Err(PathMissing(path)) else Walk(Get(ms, parts[0]), parts[1..], path)
      case _ => Err(PathMissing(path))
  }

  function GetPathValue(root: Json, path: string): Result<Json, StepError> {
    Walk(root, PathParts(path), path)
  }

  // ---- references in inputs --------------------------------------------------------------

  /** `String(value ?? "")`. */
  function JsText(v: Json): string
    decreases v, 1
  {
    match v
    case Null => ""
    case Bool(b) => if b then "true" else "false"
    case Num(n) => IntText(n)
    case Str(s) => s
    case Arr(items) => Join(JsTexts(items))
    case Obj(_) => "[object Object]"
  }

  function JsTexts(items: seq<Json>): seq<string>
    decreases items, 0
  {
    if items == [] then [] else [JsText(items[0])] + JsTexts(items[1..])
  }

  /** The value a reference stands for; the key is used as written, untrimmed. */
  function ResolveRef(parse: string -> Option<Json>, values: seq<Entry<string>>, rawRef: string): Result<Json, StepError> {
    if !Has(values, RefKey(rawRef)) then Err(KeyMissing(RefKey(rawRef), rawRef))
    else
      var stored := Get(values, RefKey(rawRef));
      if RefPath(rawRef) == "" then Ok(Str(stored))
      else
        match parse(stored)
        case None => Err(BadJson(rawRef))
        case Some(root) => GetPathValue(root, RefPath(rawRef))
  }

  /** `resolveInputRefs`: at any depth, an object that is a reference is replaced by its value. */
  function ResolveInputRefs(parse: string -> Option<Json>, values: seq<Entry<string>>, v: Json): Result<Json, StepError>
    decreases v, 1
  {
    match v
    case Arr(items) =>
      var r := ResolveItems(parse, values, items);
      if r.Ok? then Ok(Arr(r.value)) else Err(r.error)
    case Obj(ms) =>
      if IsRefShape(ms) then ResolveRef(parse, values, JsText(ms[0].value))
      else
        var r := ResolveMembers(parse, values, ms);
        if r.Ok? then Ok(Obj(r.value)) else Err(r.error)
    case _ => Ok(v)
  }

  function ResolveItems(parse: string -> Option<Json>, values: seq<Entry<string>>, items: seq<Json>)
    : (r: Result<seq<Json>, StepError>)
    decreases items, 0
  {
    if items == [] then Ok([])
    else
      match ResolveInputRefs(parse, values, items[0])
      case Err(e) => Err(e)
      case Ok(first) =>
        match ResolveItems(parse, values, items[1..])
        case Err(e) => Err(e)
        case Ok(rest) => Ok([first] + rest)
  }

  function ResolveMembers(parse: string -> Option<Json>, values: seq<Entry<string>>, ms: seq<Entry<Json>>)
    : (r: Result<seq<Entry<Json>>, StepError>)
    decreases ms, 0
  {
    if ms == [] then Ok([])
    else
      match ResolveInputRefs(parse, values, ms[0].value)
      case Err(e) => Err(e)
      case Ok(first) =>
        match ResolveMembers(parse, values, ms[1..])
        case Err(e) => Err(e)
        case Ok(rest) => Ok([Entry(ms[0].key, first)] + rest)
  }

  // ---- one step --------------------------------------------------------------------------

  function Log(state: AgentState, line: string): AgentState {
    state.(logs := state.logs + [line])
  }

  function Store(state: AgentState, key: string, value: string): AgentState {
    state.(values := Put(state.values, key, value))
  }

  function LoopLine(i: nat, tool: string, out: string, fix: bool): string {
    "tool.loop:i=" + NatText(i) + ":tool=" + tool + ":out=" + out + ":fix=" + (if fix then "1" else "0")
  }

  /** The iterations of `tool.loop` from number `i` on, `prev` being the core hash before them. */
  function LoopFrom(rt: Runtime, state: AgentState, tool: string, out: string, input: Json, max: int, i: nat, prev: string)
    : Result<AgentState, StepError>
    decreases max - i
  {
    if i >= max then Ok(state)
    else
      match rt.tools(tool, input)
      case Err(message) => Err(Threw(message))
      case Ok(output) =>
        var stored := Store(state, out, Canonical(output));
        var after := rt.coreHash(stored.counters, stored.values);
        var next := Log(stored, LoopLine(i, tool, out, after == prev));
        if after == prev then Ok(next) else LoopFrom(rt, next, tool, out, input, max, i + 1, after)
  }

  function CallTool(rt: Runtime, state: AgentState, tool: string, out: string, input: Json): Result<AgentState, StepError> {
    match ResolveInputRefs(rt.parse, state.values, input)
    case Err(e) => Err(e)
    case Ok(resolved) =>
      match rt.tools(tool, resolved)
      case Err(message) => Err(Threw(message))
      case Ok(output) => Ok(Log(Store(state, out, Canonical(output)), "tool.call:" + tool + ":out=" + out))
  }

  function LoopTool(rt: Runtime, state: AgentState, tool: string, out: string, input: Json, max: int)
    : Result<AgentState, StepError>
  {
    match ResolveInputRefs(rt.parse, state.values, input)
    case Err(e) => Err(e)
    case Ok(resolved) => LoopFrom(rt, state, tool, out, resolved, max, 0, rt.coreHash(state.counters, state.values))
  }

  function Counter(state: AgentState, key: string): int {
    if Has(state.counters, key) then Get(state.counters, key) else 0
  }

  /** What `applyMockStep` returns; the state it is given is not touched. */
  function MockStep(rt: Runtime, state: AgentState, step: Step): Result<AgentState, StepError> {
    match step
    case Set(_, key, value) => Ok(Store(state, key, value))
    case Increment(_, key, delta) => Ok(state.(counters := Put(state.counters, key, Counter(state, key) + delta)))
    case AppendLog(_, value) => Ok(Log(state, value))
    case SandboxOpen(_, session, url) => Ok(Log(state, "sandbox.open:" + session + ":" + url))
    case SandboxClick(_, session, selector) => Ok(Log(state, "sandbox.click:" + session + ":" + selector))
    case SandboxType(_, session, selector, text) =>
      Ok(Log(state, "sandbox.type:" + session + ":" + selector + ":len=" + NatText(|text|)))
    case SandboxExtract(_, session, selector, out) =>
      Ok(Log(Store(state, out, "mock:" + selector), "sandbox.extract:" + session + ":" + selector + ":out=" + out))
    case ToolCall(_, tool, out, input) => CallTool(rt, state, tool, out, input)
    case ToolLoop(_, tool, out, input, max) => LoopTool(rt, state, tool, out, input, max)
  }

  method RunToolLoop(rt: Runtime, state: AgentState, tool: string, out: string, input: Json, maxIterations: int)
    returns (r: Result<AgentState, StepError>)
    ensures r == LoopFrom(rt, state, tool, out, input, maxIterations, 0, rt.coreHash(state.counters, state.values))
  {
    var next := state;
    var prevCoreHash := rt.coreHash(next.counters, next.values);
    var i := 0;
    while i < maxIterations
      invariant 0 <= i
      invariant LoopFrom(rt, next, tool, out, input, maxIterations, i, prevCoreHash)
             == LoopFrom(rt, state, tool, out, input, maxIterations, 0, rt.coreHash(state.counters, state.values))
    {
      var output := rt.tools(tool, input);
      if output.Err? {
        return Err(Threw(output.error));
      }
      next := Store(next, out, Canonical(output.value));
      var afterCoreHash := rt.coreHash(next.counters, next.values);
      var fix := afterCoreHash == prevCoreHash;
      next := Log(next, LoopLine(i, tool, out, fix));
      if fix {
        return Ok(next);
      }
      prevCoreHash := afterCoreHash;
      i := i + 1;
    }
    return Ok(next);
  }

  method ApplyMockStep(rt: Runtime, state: AgentState, step: Step) returns (r: Result<AgentState, StepError>)
    ensures r == MockStep(rt, state, step)
  {
    var next := state;
    match step {
    case Set(_, key, value) => next := Store(next, key, value);
    case Increment(_, key, delta) =>
      var prev := Counter(next, key);
      next := next.(counters := Put(next.counters, key, prev + delta));
    case AppendLog(_, value) => next := Log(next, value);
    case SandboxOpen(_, session, url) => next := Log(next, "sandbox.open:" + session + ":" + url);
    case SandboxClick(_, session, selector) => next := Log(next, "sandbox.click:" + session + ":" + selector);
    case SandboxType(_, session, selector, text) =>
      next := Log(next, "sandbox.type:" + session + ":" + selector + ":len=" + NatText(|text|));
    case SandboxExtract(_, session, selector, out) =>
      next := Store(next, out, "mock:" + selector);
      next := Log(next, "sandbox.extract:" + session + ":" + selector + ":out=" + out);
    case ToolCall(_, tool, out, input) =>
      var resolved := ResolveInputRefs(rt.parse, state.values, input);
      if resolved.Err? {
        return Err(resolved.error);
      }
      var output := rt.tools(tool, resolved.value);
      if output.Err? {
        return Err(Threw(output.error));
      }
      next := Log(Store(next, out, Canonical(output.value)), "tool.call:" + tool + ":out=" + out);
    case ToolLoop(_, tool, out, input, max) =>
      var resolved := ResolveInputRefs(rt.parse, state.values, input);
      if resolved.Err? {
        return Err(resolved.error);
      }
      r := RunToolLoop(rt, next, tool, out, resolved.value, max);
      return;
    }
    return Ok(next);
  }

  // ---- the loop stops after two iterations -----------------------------------------------

  lemma StoreTwice(state: AgentState, line: string, key: string, value: string)
    ensures Store(Log(Store(state, key, value), line), key, value) == Log(Store(state, key, value), line)
  {
    PutTwice(state.values, key, value);
  }

  /** What a loop that may run at least once leaves when the tool answers. */
  function LoopResult(rt: Runtime, state: AgentState, tool: string, out: string, output: Json, max: int): AgentState {
    var stored := Store(state, out, Canonical(output));
    var fixed := rt.coreHash(stored.counters, stored.values) == rt.coreHash(state.counters, state.values);
    var once := Log(stored, LoopLine(0, tool, out, fixed));
    if fixed || max == 1 then once else Log(once, LoopLine(1, tool, out, true))
  }

  /**
   * Whatever the core hash, colliding or not: the second iteration stores the same value again,
   * so its hash is the one just computed and the loop ends.
   */
  lemma LoopStops(rt: Runtime, state: AgentState, tool: string, out: string, input: Json, max: int)
    requires max >= 1
    ensures var prev := rt.coreHash(state.counters, state.values);
      LoopFrom(rt, state, tool, out, input, max, 0, prev) ==
        if rt.tools(tool, input).Ok? then Ok(LoopResult(rt, state, tool, out, rt.tools(tool, input).value, max))
        else Err(Threw(rt.tools(tool, input).error))
  {
    var prev := rt.coreHash(state.counters, state.values);
    if rt.tools(tool, input).Ok? {
      var text := Canonical(rt.tools(tool, input).value);
      var stored := Store(state, out, text);
      var after := rt.coreHash(stored.counters, stored.values);
      if after != prev {
        var once := Log(stored, LoopLine(0, tool, out, false));
        StoreTwice(state, LoopLine(0, tool, out, false), out, text);
        assert LoopFrom(rt, state, tool, out, input, max, 0, prev) == LoopFrom(rt, once, tool, out, input, max, 1, after);
      }
    }
  }

  /** A loop fails exactly when one call would, and leaves the counters and values of one call. */
  lemma LoopLikeCall(rt: Runtime, state: AgentState, tool: string, out: string, input: Json, max: int)
    requires max >= 1
    ensures var loop, call := LoopTool(rt, state, tool, out, input, max), CallTool(rt, state, tool, out, input);
      && loop.Ok? == call.Ok?
      && (loop.Err? ==> loop == call)
      && (loop.Ok? ==> loop.value.values == call.value.values && loop.value.counters == call.value.counters)
      && (loop.Ok? ==> exists lines :: 1 <= |lines| <= 2 && loop.value.logs == state.logs + lines)
  {
    var resolved := ResolveInputRefs(rt.parse, state.values, input);
    if resolved.Ok? {
      LoopStops(rt, state, tool, out, resolved.value, max);
      if rt.tools(tool, resolved.value).Ok? {
        LoopLines(rt, state, tool, out, rt.tools(tool, resolved.value).value, max);
      }
    }
  }

  lemma LoopLines(rt: Runtime, state: AgentState, tool: string, out: string, output: Json, max: int)
    ensures exists lines :: 1 <= |lines| <= 2 && LoopResult(rt, state, tool, out, output, max).logs == state.logs + lines
  {
    var r := LoopResult(rt, state, tool, out, output, max);
    var lines := r.logs[|state.logs|..];
    assert r.logs == state.logs + lines;
  }
}
