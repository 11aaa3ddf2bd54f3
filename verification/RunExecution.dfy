/**
 * Executing a run: the retry loop (src/enterprise/agent-executor.ts), the checkpoint store
 * (src/enterprise/state-manager.ts) and the two handlers (src/http/handlers/run-execute.ts). The
 * executor is a parameter; in the asynchronous handler, any registry operations of others may
 * happen while it is awaited.
 */
module RunExecution {
  import opened Common
  import opened JsStrings
  import opened Records
  import opened Json
  import opened RunRegistry

  datatype ExecResult = Done(execution: Json) | ExecError(code: string, message: string) | ExecThrows(message: string)

  const MAX_ITERATIONS := 20
  const BASE_BACKOFF := 25
  const MAX_BACKOFF := 1000

  predicate IsRetryable(code: string) {
    code == "NETWORK_ERROR" || code == "TIMEOUT" || code == "OVERLOADED" || code == "INTERNAL_ERROR"
  }

  function Pow2(n: nat): nat {
    if n == 0 then 1 else 2 * Pow2(n - 1)
  }

  function BackoffMs(attempt: nat, base: int, cap: int): int {
    var raw := base * Pow2(attempt);
    if raw > cap then cap else raw
  }

  /** `parseFailNTimes`: the number after `FAIL_N_TIMES:`, when the digits end the text or a colon follows. */
  function InjectedFails(traceId: Option<string>): nat {
    if traceId.None? || !("FAIL_N_TIMES:" <= traceId.value) then 0
    else
      var rest := traceId.value[13..];
      var (n, tail) := ReadDigits(0, rest);
      if |tail| == |rest| || (tail != "" && tail[0] != ':') then 0 else n
  }

  /** The faults a trace id asks for, with or without a suffix after a colon. */
  lemma InjectedFailsReads(n: nat, suffix: string)
    requires suffix == "" || suffix[0] == ':'
    ensures InjectedFails(Some("FAIL_N_TIMES:" + (NatText(n) + suffix))) == n
  {
    var id := "FAIL_N_TIMES:" + (NatText(n) + suffix);
    assert id[13..] == NatText(n) + suffix;
    assert suffix == "" || !IsDigit(suffix[0]);
    ReadDigitsOf(0, NatText(n), suffix);
    FoldOfNatText(n);
  }

  // ---- the retry loop --------------------------------------------------------------------

  datatype FixStatus = FixCompleted | FixFailed | FixTerminal

  datatype FixOutcome = FixOutcome(
    status: FixStatus, iterations: nat, schedule: seq<int>, code: string, message: string, execution: Option<Json>)

  datatype Budget = Budget(maxIterations: nat, base: int, cap: int)

  /** The loop of `executeWithFixpoint` from iteration `iter` on; an error is one the executor threw. */
  function FixpointFrom(injected: nat, result: ExecResult, b: Budget, iter: nat, schedule: seq<int>): Result<FixOutcome, string>
    decreases b.maxIterations - iter
  {
    if iter >= b.maxIterations then
      Ok(FixOutcome(FixTerminal, b.maxIterations, schedule, "FIXPOINT_MAX_ITER",
                    "Fixpoint did not converge within max iterations", None))
    else if iter < injected then FixpointFrom(injected, result, b, iter + 1, schedule + [BackoffMs(iter, b.base, b.cap)])
    else
      match result
      case ExecThrows(message) => Err(message)
      case Done(execution) => Ok(FixOutcome(FixCompleted, iter + 1, schedule, "", "", Some(execution)))
      case ExecError(code, message) =>
        if !IsRetryable(code) then
          Ok(FixOutcome(if code == "EXECUTION_CONVERGENCE_FAILED" then FixTerminal else FixFailed, iter + 1, schedule,
                        code, message, None))
        else FixpointFrom(injected, result, b, iter + 1, schedule + [BackoffMs(iter, b.base, b.cap)])
  }

  function Fixpoint(injected: nat, result: ExecResult, b: Budget): Result<FixOutcome, string> {
    FixpointFrom(injected, result, b, 0, [])
  }

  /** The first `n` backoffs: the base doubled each time, up to the cap. */
  function Backoffs(b: Budget, n: nat): (r: seq<int>)
    ensures |r| == n && forall i | 0 <= i < n :: r[i] == if b.base * Pow2(i) > b.cap then b.cap else b.base * Pow2(i)
  {
    if n == 0 then [] else Backoffs(b, n - 1) + [BackoffMs(n - 1, b.base, b.cap)]
  }

  /** The loop when it gives up. */
  function GivenUp(b: Budget): FixOutcome {
    FixOutcome(FixTerminal, b.maxIterations, Backoffs(b, b.maxIterations), "FIXPOINT_MAX_ITER",
               "Fixpoint did not converge within max iterations", None)
  }

  lemma {:induction false} KeepsRetrying(injected: nat, result: ExecResult, b: Budget, iter: nat)
    requires iter <= b.maxIterations
    requires injected >= b.maxIterations || (result.ExecError? && IsRetryable(result.code))
    ensures FixpointFrom(injected, result, b, iter, Backoffs(b, iter)) == Ok(GivenUp(b))
    decreases b.maxIterations - iter
  {
    if iter < b.maxIterations { KeepsRetrying(injected, result, b, iter + 1); }
  }

  lemma {:induction false} ReachesExecutor(injected: nat, result: ExecResult, b: Budget, iter: nat)
    requires iter <= injected < b.maxIterations
    ensures FixpointFrom(injected, result, b, iter, Backoffs(b, iter))
         == FixpointFrom(injected, result, b, injected, Backoffs(b, injected))
    decreases injected - iter
  {
    if iter < injected { ReachesExecutor(injected, result, b, iter + 1); }
  }

  /**
   * With `k` injected faults the executor is asked at iteration `k + 1`, after exactly the first
   * `k` backoffs; when `k` reaches the limit, or the executor keeps failing with a retryable code,
   * the loop gives up after the limit.
   */
  function Expected(injected: nat, result: ExecResult, b: Budget): Result<FixOutcome, string> {
    if injected >= b.maxIterations then Ok(GivenUp(b))
    else
      match result
      case Done(execution) => Ok(FixOutcome(FixCompleted, injected + 1, Backoffs(b, injected), "", "", Some(execution)))
      case ExecThrows(message) => Err(message)
      case ExecError(code, message) =>
        if IsRetryable(code) then Ok(GivenUp(b))
        else Ok(FixOutcome(if code == "EXECUTION_CONVERGENCE_FAILED" then FixTerminal else FixFailed, injected + 1,
                           Backoffs(b, injected), code, message, None))
  }

  lemma FixpointIs(injected: nat, result: ExecResult, b: Budget)
    ensures Fixpoint(injected, result, b) == Expected(injected, result, b)
  {
    assert Backoffs(b, 0) == [];
    if injected >= b.maxIterations || (result.ExecError? && IsRetryable(result.code)) {
      KeepsRetrying(injected, result, b, 0);
    } else {
      ReachesExecutor(injected, result, b, 0);
    }
  }

  // ---- the checkpoint store --------------------------------------------------------------

  class InMemoryCheckpointStore {
    var latest: map<string, RunRecord>

    constructor ()
      ensures latest == map[]
    {
      latest := map[];
    }

    method SaveValid(runId: string, snapshot: RunRecord)
      modifies this
      ensures latest == old(latest)[runId := snapshot]
    {
      latest := latest[runId := snapshot];
    }

    method LoadLatestValid(runId: string) returns (r: Option<RunRecord>)
      ensures r == if runId in latest then Some(latest[runId]) else None
    {
      return if runId in latest then Some(latest[runId]) else None;
    }
  }

  // ---- the synchronous handler -----------------------------------------------------------

  /** A response: its status code, and the run it carries when it is a success. */
  datatype Http = Http(statusCode: nat, run: Option<RunRecord>)

  function NumberArray(ns: seq<int>): seq<Json> {
    if ns == [] then [] else [Num(ns[0])] + NumberArray(ns[1..])
  }

  /** The output stored with a completed run. */
  function CompletedOutput(execution: Json, iterations: nat, schedule: seq<int>): Json {
    Obj([Entry("execution", execution),
         Entry("metrics", Obj([Entry("fixpointIterations", Num(iterations)),
                               Entry("backoffScheduleMs", Arr(NumberArray(schedule)))]))])
  }

  function RefusedStatus(e: RegistryError): nat {
    if e.NotFound? then 404 else 409
  }

  /** How a finished loop is recorded. */
  function Recording(runId: string, outcome: Result<FixOutcome, string>): Op {
    match outcome
    case Err(_) => Fail(runId, "INTERNAL_ERROR", "Unhandled execute exception")
    case Ok(o) =>
      if o.status.FixCompleted? && o.execution.Some? then Complete(runId, Some(CompletedOutput(o.execution.value, o.iterations, o.schedule)))
      else Fail(runId, o.code, o.message)
  }

  const HANDLER_BUDGET := Budget(MAX_ITERATIONS, BASE_BACKOFF, MAX_BACKOFF)

  /** What `handleExecuteRun` leaves in the registry, and its response. */
  function ExecuteRun(s: State, runId: string, bodyIsObject: bool, injected: nat, result: ExecResult): (State, Http) {
    if Trim(runId) == "" || !bodyIsObject then (s, Http(400, None))
    else
      var (started, answer) := Perform(s, Start(runId));
      if answer.Err? then (s, Http(RefusedStatus(answer.error), None))
      else
        var (ended, final) := Perform(started, Recording(runId, Fixpoint(injected, result, HANDLER_BUDGET)));
        if final.Err? then (ended, Http(RefusedStatus(final.error), None)) else (ended, Http(200, Some(final.value)))
  }

  /** `executeWithFixpoint`, restoring the snapshot before each retry: the registry is as it was. */
  method ExecuteWithFixpoint(registry: AgentRunRegistry, store: InMemoryCheckpointStore, runId: string,
                             injected: nat, result: ExecResult, b: Budget)
    returns (r: Result<FixOutcome, string>)
    requires runId in registry.runs && runId in store.latest && store.latest[runId] == registry.runs[runId]
    requires registry.runs[runId].runId == runId
    modifies registry`runs
    ensures registry.runs == old(registry.runs)
    ensures r == Fixpoint(injected, result, b)
  {
    var schedule: seq<int> := [];
    var iter := 0;
    while iter < b.maxIterations
      invariant 0 <= iter <= b.maxIterations
      invariant registry.runs == old(registry.runs)
      invariant FixpointFrom(injected, result, b, iter, schedule) == Fixpoint(injected, result, b)
    {
      if injected > 0 && iter < injected {
      } else if result.ExecThrows? {
        return Err(result.message);
      } else if result.Done? {
        return Ok(FixOutcome(FixCompleted, iter + 1, schedule, "", "", Some(result.execution)));
      } else if !IsRetryable(result.code) {
        return Ok(FixOutcome(if result.code == "EXECUTION_CONVERGENCE_FAILED" then FixTerminal else FixFailed, iter + 1,
                             schedule, result.code, result.message, None));
      }
      schedule := schedule + [BackoffMs(iter, b.base, b.cap)];
      var snap := store.LoadLatestValid(runId);
      if snap.Some? {
        registry.Restore(snap.value);
      }
      iter := iter + 1;
    }
    return Ok(FixOutcome(FixTerminal, b.maxIterations, schedule, "FIXPOINT_MAX_ITER",
                         "Fixpoint did not converge within max iterations", None));
  }

  /** The end of the handler: the outcome of the loop becomes the end of the run. */
  method RecordOutcome(registry: AgentRunRegistry, runId: string, outcome: Result<FixOutcome, string>) returns (answer: Answer)
    modifies registry`runs
    ensures (registry.Current(), answer) == Perform(old(registry.Current()), Recording(runId, outcome))
  {
    if outcome.Ok? && outcome.value.status.FixCompleted? && outcome.value.execution.Some? {
      answer := registry.CompleteRun(
        runId, Some(CompletedOutput(outcome.value.execution.value, outcome.value.iterations, outcome.value.schedule)));
    } else if outcome.Ok? {
      answer := registry.FailRun(runId, outcome.value.code, outcome.value.message);
    } else {
      answer := registry.FailRun(runId, "INTERNAL_ERROR", "Unhandled execute exception");
    }
  }

  method HandleExecuteRun(registry: AgentRunRegistry, store: InMemoryCheckpointStore, runId: string, bodyIsObject: bool,
                          traceId: Option<string>, result: ExecResult)
    returns (http: Http)
    requires Valid(registry.Current())
    modifies registry`runs, store
    ensures (registry.Current(), http) == ExecuteRun(old(registry.Current()), runId, bodyIsObject, InjectedFails(traceId), result)
  {
    if Trim(runId) == "" || !bodyIsObject {
      return Http(400, None);
    }
    var started := registry.StartRun(runId);
    if started.Err? {
      return Http(RefusedStatus(started.error), None);
    }
    var runningSnapshot := registry.Get(runId);
    store.SaveValid(runId, runningSnapshot.value);
    var outcome := ExecuteWithFixpoint(registry, store, runId, InjectedFails(traceId), result, HANDLER_BUDGET);
    var answer := RecordOutcome(registry, runId, outcome);
    return if answer.Err? then Http(RefusedStatus(answer.error), None) else Http(200, Some(answer.value));
  }

  lemma StartCreated(s: State, runId: string)
    requires runId in s.runs && s.runs[runId].status.Created?
    ensures Perform(s, Start(runId)) ==
      (s.(runs := s.runs[runId := s.runs[runId].(status := Running)]), Ok(s.runs[runId].(status := Running)))
  {
  }

  predicate Ends(op: Op, runId: string) {
    (op.Complete? || op.Fail?) && op.runId == runId
  }

  lemma EndRunning(s: State, runId: string, op: Op)
    requires runId in s.runs && s.runs[runId].status.Running? && Ends(op, runId)
    ensures var ended := Updated(s.runs[runId], op);
      && Perform(s, op) == (s.(runs := s.runs[runId := ended]), Ok(ended))
      && ended.status == (if op.Complete? then Completed else Failed)
  {
  }

  lemma EndTerminal(s: State, runId: string, op: Op)
    requires runId in s.runs && IsTerminal(s.runs[runId].status) && Ends(op, runId)
    ensures Perform(s, op).0 == s && Perform(s, op).1.Err?
  {
  }

  lemma RecordingIs(runId: string, injected: nat, result: ExecResult)
    ensures var op := Recording(runId, Fixpoint(injected, result, HANDLER_BUDGET));
      && Ends(op, runId) && (op.Complete? <==> injected < MAX_ITERATIONS && result.Done?)
      && (injected >= MAX_ITERATIONS ==> op.Fail? && op.code == "FIXPOINT_MAX_ITER")
  {
    FixpointIs(injected, result, HANDLER_BUDGET);
  }

  /**
   * The synchronous handler: a run that can be started ends completed, when fewer faults than
   * iterations are injected and the executor succeeds, and failed otherwise; nothing else changes.
   */
  lemma SyncAlwaysEnds(s: State, runId: string, injected: nat, result: ExecResult)
    requires Trim(runId) != "" && runId in s.runs && s.runs[runId].status.Created?
    ensures var (t, http) := ExecuteRun(s, runId, true, injected, result);
      && runId in t.runs && http == Http(200, Some(t.runs[runId]))
      && t == s.(runs := s.runs[runId := t.runs[runId]])
      && t.runs[runId].status == (if injected < MAX_ITERATIONS && result.Done? then Completed else Failed)
      && (injected >= MAX_ITERATIONS ==> t.runs[runId].error.Some? && t.runs[runId].error.value.code == "FIXPOINT_MAX_ITER")
  {
    var op := Recording(runId, Fixpoint(injected, result, HANDLER_BUDGET));
    StartCreated(s, runId);
    RecordingIs(runId, injected, result);
    var started := Perform(s, Start(runId)).0;
    EndRunning(started, runId, op);
    var ended := Updated(started.runs[runId], op);
    assert s.runs[runId := ended] == started.runs[runId := ended];
  }

  /** A run that cannot be started is left alone: unknown, or already started. */
  lemma SyncRefuses(s: State, runId: string, injected: nat, result: ExecResult)
    requires Trim(runId) != "" && (runId !in s.runs || !s.runs[runId].status.Created?)
    ensures ExecuteRun(s, runId, true, injected, result) == (s, Http(if runId in s.runs then 409 else 404, None))
  {
  }

  // ---- the asynchronous handler ----------------------------------------------------------

  /** How an iteration ends after the await: with a response, or with the snapshot restored for another try. */
  datatype IterEnd = Finished(state: State, http: Http) | Again(state: State, code: string, message: string)

  function EndIteration(s: State, runId: string, snap: RunRecord, result: ExecResult, iter: nat, schedule: seq<int>): IterEnd {
    match result
    case ExecThrows(message) => Again(Restored(s, snap), "INTERNAL_ERROR", message)
    case Done(execution) => Record(s, Complete(runId, Some(CompletedOutput(execution, iter + 1, schedule))), snap)
    case ExecError(code, message) =>
      if IsRetryable(code) then Again(Restored(s, snap), code, message) else Record(s, Fail(runId, code, message), snap)
  }

  /** The registry call inside the `try`: when it throws, the catch block restores the snapshot. */
  function Record(s: State, op: Op, snap: RunRecord): IterEnd {
    var (t, answer) := Perform(s, op);
    if answer.Ok? then Finished(t, Http(200, Some(answer.value)))
    else Again(Restored(t, snap), "INTERNAL_ERROR", ErrorText(answer.error))
  }

  /** What the executor returns at each iteration, and what others do to the registry while it is awaited. */
  datatype Async = Async(results: nat -> ExecResult, others: nat -> seq<Op>)

  function AwaitedState(s: State, a: Async, iter: nat): State {
    RunOps(s, a.others(iter), |a.others(iter)|)
  }

  /** One iteration: the state after the await, and how the iteration ends. */
  datatype Turn = Turn(awaited: State, end: IterEnd)

  /** The iterations, each from the state, its number and the backoffs so far. */
  type Turning = (State, nat, seq<int>) -> Turn

  function Turns(runId: string, snap: RunRecord, a: Async): Turning {
    (s: State, iter: nat, schedule: seq<int>) =>
      var t := AwaitedState(s, a, iter);
      Turn(t, EndIteration(t, runId, snap, a.results(iter), iter, schedule))
  }

  /** The `fail` after the last iteration; `None` is an error that leaves the handler. */
  type GivingUp = (State, string, string) -> (State, Option<Http>)

  function LastFail(runId: string): GivingUp {
    (s: State, code: string, message: string) =>
      var (t, answer) := Perform(s, Fail(runId, code, message));
      (t, if answer.Ok? then Some(Http(200, Some(answer.value))) else None)
  }

  function NextSchedule(schedule: seq<int>, iter: nat): seq<int> {
    schedule + [BackoffMs(iter, BASE_BACKOFF, MAX_BACKOFF)]
  }

  /** The loop from iteration `iter` on. */
  function AsyncFrom(turns: Turning, last: GivingUp, s: State, iter: nat, schedule: seq<int>, code: string, message: string)
    : (State, Option<Http>)
    decreases MAX_ITERATIONS - iter
  {
    if iter >= MAX_ITERATIONS then last(s, code, message)
    else
      match turns(s, iter, schedule).end
      case Finished(t, http) => (t, Some(http))
      case Again(t, c, m) => AsyncFrom(turns, last, t, iter + 1, NextSchedule(schedule, iter), c, m)
  }

  function Lookup(s: State, runId: string): Option<RunRecord> {
    if runId in s.runs then Some(s.runs[runId]) else None
  }

  predicate Ended(r: Option<RunRecord>) {
    r.Some? && IsTerminal(r.value.status)
  }

  /** The response is a success that carries the run as it is left, completed or failed. */
  ghost predicate Answered(s: State, http: Http, runId: string) {
    && runId in s.runs && http == Http(200, Some(s.runs[runId]))
    && (s.runs[runId].status.Completed? || s.runs[runId].status.Failed?)
  }

  /**
   * What one iteration does to the run, from any state satisfying `inv`: the await leaves the
   * snapshot or an ended run; the iteration answers only in the first case, and otherwise puts the
   * snapshot back.
   */
  ghost predicate TurnsWell(turns: Turning, inv: State -> bool, runId: string, snap: RunRecord) {
    forall s, iter, schedule | inv(s) ::
      var Turn(t, e) := turns(s, iter, schedule);
      && (Lookup(t, runId) == Some(snap) || Ended(Lookup(t, runId)))
      && (e.Finished? ==> Lookup(t, runId) == Some(snap) && Answered(e.state, e.http, runId))
      && (e.Again? ==> inv(e.state) && Lookup(e.state, runId) == Some(snap))
  }

  ghost predicate GivesUpWell(last: GivingUp, inv: State -> bool, runId: string) {
    forall s, code, message | inv(s) ::
      last(s, code, message).1.Some? && Answered(last(s, code, message).0, last(s, code, message).1.value, runId)
  }

  lemma {:induction false} LoopAlwaysAnswers(turns: Turning, last: GivingUp, inv: State -> bool, runId: string, snap: RunRecord,
                                             s: State, iter: nat, schedule: seq<int>, code: string, message: string)
    requires TurnsWell(turns, inv, runId, snap) && GivesUpWell(last, inv, runId) && inv(s)
    ensures var (t, http) := AsyncFrom(turns, last, s, iter, schedule, code, message);
      http.Some? && Answered(t, http.value, runId)
    decreases MAX_ITERATIONS - iter
  {
    if iter < MAX_ITERATIONS {
      var e := turns(s, iter, schedule).end;
      if e.Again? {
        LoopAlwaysAnswers(turns, last, inv, runId, snap, e.state, iter + 1, NextSchedule(schedule, iter), e.code, e.message);
      }
    }
  }

  // ---- terminal absorption ---------------------------------------------------------------

  /** The records of the run from iteration `iter` on: after each await, and after what the handler then does. */
  function RecordsSeen(turns: Turning, last: GivingUp, runId: string, s: State, iter: nat, schedule: seq<int>,
                       code: string, message: string): seq<Option<RunRecord>>
    decreases MAX_ITERATIONS - iter
  {
    if iter >= MAX_ITERATIONS then [Lookup(last(s, code, message).0, runId)]
    else
      var Turn(t, e) := turns(s, iter, schedule);
      [Lookup(t, runId), Lookup(e.state, runId)]
      + if e.Finished? then [] else RecordsSeen(turns, last, runId, e.state, iter + 1, NextSchedule(schedule, iter), e.code, e.message)
  }

  /** Once ended, the run stays as it is. */
  ghost predicate Absorbing(rs: seq<Option<RunRecord>>) {
    forall i, j | 0 <= i < j < |rs| && Ended(rs[i]) :: rs[j] == rs[i]
  }

  /** During some await that the handler reaches, others end the run. */
  ghost predicate Interrupted(turns: Turning, runId: string, s: State, iter: nat, schedule: seq<int>)
    decreases MAX_ITERATIONS - iter
  {
    && iter < MAX_ITERATIONS
    && var Turn(t, e) := turns(s, iter, schedule);
      Ended(Lookup(t, runId)) || (e.Again? && Interrupted(turns, runId, e.state, iter + 1, NextSchedule(schedule, iter)))
  }

  lemma TwoMore(x: Option<RunRecord>, y: Option<RunRecord>, rest: seq<Option<RunRecord>>)
    requires !Ended(x) && !Ended(y)
    ensures Absorbing([x, y] + rest) <==> Absorbing(rest)
  {
    var all := [x, y] + rest;
    if Absorbing(all) {
      forall i, j | 0 <= i < j < |rest| && Ended(rest[i]) ensures rest[j] == rest[i] {
        assert all[i + 2] == rest[i] && all[j + 2] == rest[j];
      }
    }
  }

  lemma Overwritten(x: Option<RunRecord>, y: Option<RunRecord>, rest: seq<Option<RunRecord>>)
    requires Ended(x) && !Ended(y)
    ensures !Absorbing([x, y] + rest)
  {
    var all := [x, y] + rest;
    assert all[0] == x && all[1] == y;
  }

  lemma {:induction false} LoopAbsorbsIff(turns: Turning, last: GivingUp, inv: State -> bool, runId: string, snap: RunRecord,
                                          s: State, iter: nat, schedule: seq<int>, code: string, message: string)
    requires TurnsWell(turns, inv, runId, snap) && inv(s) && snap.status.Running?
    ensures Absorbing(RecordsSeen(turns, last, runId, s, iter, schedule, code, message))
       <==> !Interrupted(turns, runId, s, iter, schedule)
    decreases MAX_ITERATIONS - iter
  {
    if iter < MAX_ITERATIONS {
      var Turn(t, e) := turns(s, iter, schedule);
      if e.Again? {
        var rest := RecordsSeen(turns, last, runId, e.state, iter + 1, NextSchedule(schedule, iter), e.code, e.message);
        if Ended(Lookup(t, runId)) {
          Overwritten(Lookup(t, runId), Some(snap), rest);
        } else {
          LoopAbsorbsIff(turns, last, inv, runId, snap, e.state, iter + 1, NextSchedule(schedule, iter), e.code, e.message);
          TwoMore(Some(snap), Some(snap), rest);
        }
      }
    }
  }

  // ---- the handler's own iterations ------------------------------------------------------

  /** The run the handler has started: its record is the snapshot, which is running. */
  ghost predicate Started(s: State, runId: string, snap: RunRecord) {
    Issued(s, runId) && Lookup(s, runId) == Some(snap) && snap.status.Running? && snap.runId == runId
  }

  /** The record is the snapshot, or others have ended the run. */
  ghost predicate Awaited(t: State, runId: string, snap: RunRecord) {
    && Issued(t, runId) && runId in t.runs && snap.runId == runId && snap.status.Running?
    && (t.runs[runId] == snap || IsTerminal(t.runs[runId].status))
  }

  lemma OpWhileAwaited(t: State, runId: string, snap: RunRecord, op: Op)
    requires Awaited(t, runId, snap)
    ensures Awaited(Perform(t, op).0, runId, snap)
  {
    IssuedStays(t, op, runId);
  }

  lemma {:induction false} AfterAwait(s: State, runId: string, snap: RunRecord, ops: seq<Op>, n: nat)
    requires n <= |ops| && Started(s, runId, snap)
    ensures Awaited(RunOps(s, ops, n), runId, snap)
  {
    if n > 0 {
      AfterAwait(s, runId, snap, ops, n - 1);
      OpWhileAwaited(RunOps(s, ops, n - 1), runId, snap, ops[n - 1]);
    }
  }

  lemma RecordEnds(t: State, runId: string, snap: RunRecord, op: Op)
    requires Awaited(t, runId, snap) && Ends(op, runId)
    ensures t.runs[runId] == snap ==>
      Record(t, op, snap) == Finished(t.(runs := t.runs[runId := Updated(snap, op)]), Http(200, Some(Updated(snap, op))))
    ensures t.runs[runId] != snap ==> Record(t, op, snap).Again? && Record(t, op, snap).state == Restored(t, snap)
  {
    if t.runs[runId] == snap {
      EndRunning(t, runId, op);
    } else {
      EndTerminal(t, runId, op);
    }
  }

  /** After the await: a running record is completed, failed or kept; an ended one is always put back to running. */
  lemma EndsOrRestores(t: State, runId: string, snap: RunRecord, result: ExecResult, iter: nat, schedule: seq<int>)
    requires Awaited(t, runId, snap)
    ensures var e := EndIteration(t, runId, snap, result, iter, schedule);
      && (e.Finished? ==> t.runs[runId] == snap && Answered(e.state, e.http, runId))
      && (e.Again? ==> e.state == Restored(t, snap))
  {
    match result
    case ExecThrows(_) =>
    case Done(execution) =>
      var op := Complete(runId, Some(CompletedOutput(execution, iter + 1, schedule)));
      RecordEnds(t, runId, snap, op);
      if t.runs[runId] == snap { EndRunning(t, runId, op); }
    case ExecError(code, message) =>
      RecordEnds(t, runId, snap, Fail(runId, code, message));
      if t.runs[runId] == snap { EndRunning(t, runId, Fail(runId, code, message)); }
  }

  ghost function Inv(runId: string, snap: RunRecord): State -> bool {
    s => Started(s, runId, snap)
  }

  lemma RestoreStarts(t: State, runId: string, snap: RunRecord)
    requires Awaited(t, runId, snap)
    ensures Started(Restored(t, snap), runId, snap)
  {
    var n: nat :| n < t.nextId && runId == RunId(n);
    assert n < Restored(t, snap).nextId;
  }

  lemma HandlerTurnsWell(runId: string, snap: RunRecord, a: Async)
    ensures TurnsWell(Turns(runId, snap, a), Inv(runId, snap), runId, snap)
  {
    forall s, iter: nat, schedule | Started(s, runId, snap)
      ensures var t := AwaitedState(s, a, iter);
        var e := EndIteration(t, runId, snap, a.results(iter), iter, schedule);
        && (Lookup(t, runId) == Some(snap) || Ended(Lookup(t, runId)))
        && (e.Finished? ==> Lookup(t, runId) == Some(snap) && Answered(e.state, e.http, runId))
        && (e.Again? ==> Started(e.state, runId, snap))
    {
      var t := AwaitedState(s, a, iter);
      AfterAwait(s, runId, snap, a.others(iter), |a.others(iter)|);
      EndsOrRestores(t, runId, snap, a.results(iter), iter, schedule);
      RestoreStarts(t, runId, snap);
    }
  }

  lemma HandlerGivesUpWell(runId: string, snap: RunRecord)
    ensures GivesUpWell(LastFail(runId), Inv(runId, snap), runId)
  {
    forall s, code, message | Started(s, runId, snap)
      ensures var (t, answer) := Perform(s, Fail(runId, code, message)); answer.Ok? && Answered(t, Http(200, Some(answer.value)), runId)
    {
      EndRunning(s, runId, Fail(runId, code, message));
    }
  }

  // ---- the asynchronous handler as a method ----------------------------------------------

  method PerformOp(registry: AgentRunRegistry, op: Op)
    modifies registry
    ensures registry.Current() == Perform(old(registry.Current()), op).0
  {
    match op
    case Create(agentId, input) =>
      var _ := registry.CreateRun(agentId, input);
    case Start(runId) =>
      var _ := registry.StartRun(runId);
    case Complete(runId, output) =>
      var _ := registry.CompleteRun(runId, output);
    case Fail(runId, code, message) =>
      var _ := registry.FailRun(runId, code, message);
    case Cancel(runId, reason) =>
      var _ := registry.CancelRun(runId, reason);
  }

  /** While the executor is awaited, others use the registry. */
  method Await(registry: AgentRunRegistry, ops: seq<Op>)
    modifies registry
    ensures registry.Current() == RunOps(old(registry.Current()), ops, |ops|)
  {
    for i := 0 to |ops|
      invariant registry.Current() == RunOps(old(registry.Current()), ops, i)
    {
      PerformOp(registry, ops[i]);
    }
  }

  /** The body of the `try` after the await, and the catch block: a response, or the error to remember. */
  method FinishIteration(registry: AgentRunRegistry, store: InMemoryCheckpointStore, runId: string, snap: RunRecord,
                         result: ExecResult, iter: nat, schedule: seq<int>)
    returns (http: Option<Http>, code: string, message: string)
    requires runId in store.latest && store.latest[runId] == snap && snap.runId == runId
    modifies registry`runs
    ensures var e := EndIteration(old(registry.Current()), runId, snap, result, iter, schedule);
      && registry.Current() == e.state
      && (e.Finished? ==> http == Some(e.http)) && (e.Again? ==> http == None && code == e.code && message == e.message)
  {
    code, message := "", "";
    var answer: Answer;
    match result {
      case Done(execution) =>
        answer := registry.CompleteRun(runId, Some(CompletedOutput(execution, iter + 1, schedule)));
        if answer.Ok? {
          return Some(Http(200, Some(answer.value))), code, message;
        }
        code, message := "INTERNAL_ERROR", ErrorText(answer.error);
      case ExecError(c, m) =>
        code, message := c, m;
        if !IsRetryable(c) {
          answer := registry.FailRun(runId, c, m);
          if answer.Ok? {
            return Some(Http(200, Some(answer.value))), code, message;
          }
          code, message := "INTERNAL_ERROR", ErrorText(answer.error);
        }
      case ExecThrows(m) =>
        code, message := "INTERNAL_ERROR", m;
    }
    var saved := store.LoadLatestValid(runId);
    if saved.Some? {
      registry.Restore(saved.value);
    }
    return None, code, message;
  }

  const NOT_CONVERGED := "Fixpoint did not converge within max iterations"

  lemma OneTurn(runId: string, snap: RunRecord, a: Async, s: State, iter: nat, schedule: seq<int>, code: string, message: string)
    requires iter < MAX_ITERATIONS
    ensures AsyncFrom(Turns(runId, snap, a), LastFail(runId), s, iter, schedule, code, message) ==
      match EndIteration(AwaitedState(s, a, iter), runId, snap, a.results(iter), iter, schedule)
      case Finished(t, http) => (t, Some(http))
      case Again(t, c, m) => AsyncFrom(Turns(runId, snap, a), LastFail(runId), t, iter + 1, NextSchedule(schedule, iter), c, m)
  {
  }

  /** The loop of `handleExecuteRunAsync`, once the run is started and its snapshot saved. */
  method ExecuteAsync(registry: AgentRunRegistry, store: InMemoryCheckpointStore, runId: string, snap: RunRecord, a: Async)
    returns (http: Option<Http>)
    requires runId in store.latest && store.latest[runId] == snap && snap.runId == runId
    modifies registry
    ensures (registry.Current(), http)
         == AsyncFrom(Turns(runId, snap, a), LastFail(runId), old(registry.Current()), 0, [], "FIXPOINT_MAX_ITER", NOT_CONVERGED)
  {
    ghost var turns := Turns(runId, snap, a);
    ghost var start := registry.Current();
    var schedule: seq<int> := [];
    var lastErrorCode, lastErrorMessage := "FIXPOINT_MAX_ITER", NOT_CONVERGED;
    var iter: nat := 0;
    while iter < MAX_ITERATIONS
      invariant 0 <= iter <= MAX_ITERATIONS
      invariant AsyncFrom(turns, LastFail(runId), registry.Current(), iter, schedule, lastErrorCode, lastErrorMessage)
             == AsyncFrom(turns, LastFail(runId), start, 0, [], "FIXPOINT_MAX_ITER", NOT_CONVERGED)
    {
      OneTurn(runId, snap, a, registry.Current(), iter, schedule, lastErrorCode, lastErrorMessage);
      Await(registry, a.others(iter));
      http, lastErrorCode, lastErrorMessage :=
        FinishIteration(registry, store, runId, snap, a.results(iter), iter, schedule);
      if http.Some? {
        return http;
      }
      schedule := NextSchedule(schedule, iter);
      iter := iter + 1;
    }
    var failed := registry.FailRun(runId, lastErrorCode, lastErrorMessage);
    return if failed.Ok? then Some(Http(200, Some(failed.value))) else None;
  }

  /** What `handleExecuteRunAsync` leaves in the registry, and its response. */
  function ExecuteRunAsync(s: State, runId: string, bodyIsObject: bool, a: Async): (State, Option<Http>) {
    if Trim(runId) == "" || !bodyIsObject then (s, Some(Http(400, None)))
    else
      var (started, answer) := Perform(s, Start(runId));
      if answer.Err? then (s, Some(Http(RefusedStatus(answer.error), None)))
      else AsyncFrom(Turns(runId, answer.value, a), LastFail(runId), started, 0, [], "FIXPOINT_MAX_ITER", NOT_CONVERGED)
  }

  method HandleExecuteRunAsync(registry: AgentRunRegistry, store: InMemoryCheckpointStore, runId: string, bodyIsObject: bool, a: Async)
    returns (http: Option<Http>)
    requires Valid(registry.Current())
    modifies registry, store
    ensures (registry.Current(), http) == ExecuteRunAsync(old(registry.Current()), runId, bodyIsObject, a)
  {
    if Trim(runId) == "" || !bodyIsObject {
      return Some(Http(400, None));
    }
    var started := registry.StartRun(runId);
    if started.Err? {
      return Some(Http(RefusedStatus(started.error), None));
    }
    var runningSnapshot := registry.Get(runId);
    store.SaveValid(runId, runningSnapshot.value);
    http := ExecuteAsync(registry, store, runId, runningSnapshot.value, a);
  }

  lemma StartedIs(s: State, runId: string)
    requires Valid(s) && runId in s.runs && s.runs[runId].status.Created?
    ensures Perform(s, Start(runId)).1.Ok?
    ensures Started(Perform(s, Start(runId)).0, runId, Perform(s, Start(runId)).1.value)
  {
    StartCreated(s, runId);
    var n: nat :| 1 <= n < s.nextId && runId == RunId(n);
    assert n < Perform(s, Start(runId)).0.nextId;
  }

  /** Whatever others do during the awaits, a created run ends completed or failed, in a 200 response. */
  lemma AsyncAlwaysEnds(s: State, runId: string, a: Async)
    requires Valid(s) && Trim(runId) != "" && runId in s.runs && s.runs[runId].status.Created?
    ensures var (t, http) := ExecuteRunAsync(s, runId, true, a);
      http.Some? && Answered(t, http.value, runId)
  {
    StartedIs(s, runId);
    var (started, answer) := Perform(s, Start(runId));
    HandlerTurnsWell(runId, answer.value, a);
    HandlerGivesUpWell(runId, answer.value);
    LoopAlwaysAnswers(Turns(runId, answer.value, a), LastFail(runId), Inv(runId, answer.value), runId, answer.value,
                      started, 0, [], "FIXPOINT_MAX_ITER", NOT_CONVERGED);
  }

  /** The records of the run while the handler works on it, after it was started. */
  function AsyncRecords(s: State, runId: string, a: Async): seq<Option<RunRecord>>
    requires Perform(s, Start(runId)).1.Ok?
  {
    var (started, answer) := Perform(s, Start(runId));
    RecordsSeen(Turns(runId, answer.value, a), LastFail(runId), runId, started, 0, [], "FIXPOINT_MAX_ITER", NOT_CONVERGED)
  }

  ghost predicate AsyncInterrupted(s: State, runId: string, a: Async)
    requires Perform(s, Start(runId)).1.Ok?
  {
    var (started, answer) := Perform(s, Start(runId));
    Interrupted(Turns(runId, answer.value, a), runId, started, 0, [])
  }

  /**
   * Ended runs stay as they are under the asynchronous handler exactly when nobody ends the run
   * during an await: a cancellation that intervenes is restored to running, and then overwritten.
   */
  lemma AsyncAbsorbsIff(s: State, runId: string, a: Async)
    requires Valid(s) && runId in s.runs && s.runs[runId].status.Created?
    ensures Perform(s, Start(runId)).1.Ok?
    ensures Absorbing(AsyncRecords(s, runId, a)) <==> !AsyncInterrupted(s, runId, a)
  {
    StartedIs(s, runId);
    var (started, answer) := Perform(s, Start(runId));
    HandlerTurnsWell(runId, answer.value, a);
    LoopAbsorbsIff(Turns(runId, answer.value, a), LastFail(runId), Inv(runId, answer.value), runId, answer.value,
                   started, 0, [], "FIXPOINT_MAX_ITER", NOT_CONVERGED);
  }

  /** The executor succeeds at once, and somebody cancels the run while it is first awaited. */
  function CancelledOnce(runId: string, reason: string, execution: Json): Async {
    Async((iter: nat) => Done(execution), (iter: nat) => if iter == 0 then [Cancel(runId, reason)] else [])
  }

  lemma CancelRunning(s: State, runId: string, reason: string)
    requires runId in s.runs && s.runs[runId].status.Running?
    ensures Lookup(RunOps(s, [Cancel(runId, reason)], 1), runId).Some?
    ensures Lookup(RunOps(s, [Cancel(runId, reason)], 1), runId).value.status.Cancelled?
  {
    assert RunOps(s, [Cancel(runId, reason)], 1) == Perform(RunOps(s, [Cancel(runId, reason)], 0), Cancel(runId, reason)).0;
  }

  /** After a cancelled await the snapshot is back, and the next iteration completes the run. */
  lemma CancelledThenCompletes(turns: Turning, last: GivingUp, s: State)
    requires turns(s, 0, []).end.Again?
    requires
      var e := turns(s, 0, []).end;
      turns(e.state, 1, NextSchedule([], 0)).end.Finished?
    ensures
      var e := turns(s, 0, []).end;
      var f := turns(e.state, 1, NextSchedule([], 0)).end;
      AsyncFrom(turns, last, s, 0, [], "FIXPOINT_MAX_ITER", NOT_CONVERGED) == (f.state, Some(f.http))
  {
    var e := turns(s, 0, []).end;
    var schedule := NextSchedule([], 0);
    assert AsyncFrom(turns, last, s, 0, [], "FIXPOINT_MAX_ITER", NOT_CONVERGED)
        == AsyncFrom(turns, last, e.state, 1, schedule, e.code, e.message);
  }

  /** A turn in which the run is cancelled, for an executor that succeeds: the snapshot is restored. */
  lemma CancelledTurn(t: State, runId: string, snap: RunRecord, execution: Json, iter: nat, schedule: seq<int>)
    requires Awaited(t, runId, snap) && t.runs[runId].status.Cancelled?
    ensures var e := EndIteration(t, runId, snap, Done(execution), iter, schedule);
      e.Again? && Started(e.state, runId, snap)
  {
    RecordEnds(t, runId, snap, Complete(runId, Some(CompletedOutput(execution, iter + 1, schedule))));
    RestoreStarts(t, runId, snap);
  }

  /** A turn in which nobody interferes, for an executor that succeeds: the run is completed. */
  lemma QuietTurn(t: State, runId: string, snap: RunRecord, execution: Json, iter: nat, schedule: seq<int>)
    requires Started(t, runId, snap)
    ensures var e := EndIteration(t, runId, snap, Done(execution), iter, schedule);
      && e.Finished? && runId in e.state.runs && e.state.runs[runId].status.Completed?
      && e.http == Http(200, Some(e.state.runs[runId]))
  {
    var op := Complete(runId, Some(CompletedOutput(execution, iter + 1, schedule)));
    RecordEnds(t, runId, snap, op);
    EndRunning(t, runId, op);
  }

  /** The two turns of the handler, from the state in which the run is started. */
  lemma CancelledThenQuiet(s: State, runId: string, snap: RunRecord, reason: string, execution: Json)
    requires Started(s, runId, snap)
    ensures
      var turns := Turns(runId, snap, CancelledOnce(runId, reason, execution));
      var first := turns(s, 0, []);
      && runId in first.awaited.runs && first.awaited.runs[runId].status.Cancelled? && first.end.Again?
      && var second := turns(first.end.state, 1, NextSchedule([], 0)).end;
        && second.Finished? && runId in second.state.runs && second.state.runs[runId].status.Completed?
        && second.http == Http(200, Some(second.state.runs[runId]))
  {
    var a := CancelledOnce(runId, reason, execution);
    CancelRunning(s, runId, reason);
    AfterAwait(s, runId, snap, a.others(0), 1);
    var t := AwaitedState(s, a, 0);
    CancelledTurn(t, runId, snap, execution, 0, []);
    var u := EndIteration(t, runId, snap, Done(execution), 0, []).state;
    assert AwaitedState(u, a, 1) == u;
    QuietTurn(u, runId, snap, execution, 1, NextSchedule([], 0));
  }

  /**
   * A run that is cancelled while its executor works: the handler restores it, completes it and
   * answers 200, so the cancellation the canceller was told of is lost.
   */
  lemma CancellationIsLost(s: State, runId: string, reason: string, execution: Json)
    requires Valid(s) && Trim(runId) != "" && runId in s.runs && s.runs[runId].status.Created?
    ensures
      var awaited := AwaitedState(Perform(s, Start(runId)).0, CancelledOnce(runId, reason, execution), 0);
      runId in awaited.runs && awaited.runs[runId].status.Cancelled?
    ensures
      var (t, http) := ExecuteRunAsync(s, runId, true, CancelledOnce(runId, reason, execution));
      runId in t.runs && t.runs[runId].status.Completed? && http == Some(Http(200, Some(t.runs[runId])))
  {
    StartedIs(s, runId);
    var (started, answer) := Perform(s, Start(runId));
    CancelledThenQuiet(started, runId, answer.value, reason, execution);
    CancelledThenCompletes(Turns(runId, answer.value, CancelledOnce(runId, reason, execution)), LastFail(runId), started);
  }

  lemma FirstRun()
    ensures RunId(1) == "run_000001"
    ensures
      var s := RunOps(INITIAL, [Create("agent", None)], 1);
      Valid(s) && "run_000001" in s.runs && s.runs["run_000001"].status.Created? && Trim("run_000001") == "run_000001"
  {
    assert NatText(1) == "1" && Zeros(5) == "00000" by {
      assert Zeros(1) == "0" && Zeros(2) == "00" && Zeros(3) == "000" && Zeros(4) == "0000";
    }
    var ops := [Create("agent", None)];
    ValidAlways(INITIAL, ops, 1);
    assert RunOps(INITIAL, ops, 1) == Perform(RunOps(INITIAL, ops, 0), ops[0]).0;
    TrimOfTrimmed("run_000001");
  }

  /** In a new registry: create a run, execute it, cancel it during the first await. */
  lemma CancellationIsLostAtOnce()
    ensures
      var s := RunOps(INITIAL, [Create("agent", None)], 1);
      var a := CancelledOnce("run_000001", "stop", Null);
      && "run_000001" in s.runs && Perform(s, Start("run_000001")).1.Ok?
      && !Absorbing(AsyncRecords(s, "run_000001", a))
      && "run_000001" in ExecuteRunAsync(s, "run_000001", true, a).0.runs
      && ExecuteRunAsync(s, "run_000001", true, a).0.runs["run_000001"].status.Completed?
  {
    var s := RunOps(INITIAL, [Create("agent", None)], 1);
    FirstRun();
    LostIsNotAbsorbed(s, "run_000001", "stop", Null);
  }

  lemma LostIsNotAbsorbed(s: State, runId: string, reason: string, execution: Json)
    requires Valid(s) && Trim(runId) != "" && runId in s.runs && s.runs[runId].status.Created?
    ensures Perform(s, Start(runId)).1.Ok?
    ensures !Absorbing(AsyncRecords(s, runId, CancelledOnce(runId, reason, execution)))
    ensures var t := ExecuteRunAsync(s, runId, true, CancelledOnce(runId, reason, execution)).0;
      runId in t.runs && t.runs[runId].status.Completed?
  {
    var a := CancelledOnce(runId, reason, execution);
    StartedIs(s, runId);
    CancellationIsLost(s, runId, reason, execution);
    AsyncAbsorbsIff(s, runId, a);
    var (started, answer) := Perform(s, Start(runId));
    assert Turns(runId, answer.value, a)(started, 0, []).awaited == AwaitedState(started, a, 0);
  }
}
