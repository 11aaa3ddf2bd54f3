/**
 * What the records of runs say (src/http/runs/registry.ts, src/http/handlers/run-execute.ts): every
 * field of a record comes from the call that gave it, over any history.
 */
module RunContents {
  import opened Common
  import opened JsStrings
  import opened Records
  import opened Json
  import opened RunRegistry
  import opened RunExecution

  // ---- where the fields come from --------------------------------------------------------

  /** One of the first `n` operations is this one. */
  ghost predicate Called(ops: seq<Op>, n: nat, op: Op)
    requires n <= |ops|
  {
    exists i | 0 <= i < n :: ops[i] == op
  }

  ghost predicate CancelledBy(ops: seq<Op>, n: nat, r: RunRecord)
    requires n <= |ops|
  {
    exists i | 0 <= i < n :: ops[i].Cancel? && ops[i].runId == r.runId
      && r.error == if ops[i].reason == "" then None else Some(RunError("RUN_CANCELLED", ops[i].reason))
  }

  /**
   * The record's agent and input are those of a `create`; it has an output only when completed and
   * an error only when failed or cancelled, and both are those of the call that ended it.
   */
  ghost predicate Accounted(ops: seq<Op>, n: nat, r: RunRecord)
    requires n <= |ops|
  {
    && Called(ops, n, Create(r.agentId, r.input))
    && match r.status
      case Created => r.output.None? && r.error.None?
      case Running => r.output.None? && r.error.None?
      case Completed => r.error.None? && Called(ops, n, Complete(r.runId, r.output))
      case Failed => r.output.None? && r.error.Some? && Called(ops, n, Fail(r.runId, r.error.value.code, r.error.value.message))
      case Cancelled => r.output.None? && CancelledBy(ops, n, r)
  }

  lemma CalledLonger(ops: seq<Op>, n: nat, op: Op)
    requires n < |ops| && Called(ops, n, op)
    ensures Called(ops, n + 1, op)
  {
  }

  lemma AccountedLonger(ops: seq<Op>, n: nat, r: RunRecord)
    requires n < |ops| && Accounted(ops, n, r)
    ensures Accounted(ops, n + 1, r)
  {
    CalledLonger(ops, n, Create(r.agentId, r.input));
    if r.status.Completed? { CalledLonger(ops, n, Complete(r.runId, r.output)); }
    if r.status.Failed? { CalledLonger(ops, n, Fail(r.runId, r.error.value.code, r.error.value.message)); }
    if r.status.Cancelled? {
      var i :| 0 <= i < n && ops[i].Cancel? && ops[i].runId == r.runId
        && r.error == if ops[i].reason == "" then None else Some(RunError("RUN_CANCELLED", ops[i].reason));
    }
  }

  ghost predicate AllAccounted(ops: seq<Op>, n: nat, s: State)
    requires n <= |ops|
  {
    forall id | id in s.runs :: s.runs[id].runId == id && Accounted(ops, n, s.runs[id])
  }

  /** What the next operation leaves under an id: what was there, or the record it makes. */
  lemma AccountedNext(ops: seq<Op>, n: nat, s: State, id: string)
    requires n < |ops| && AllAccounted(ops, n, s) && id in Perform(s, ops[n]).0.runs
    ensures Perform(s, ops[n]).0.runs[id].runId == id && Accounted(ops, n + 1, Perform(s, ops[n]).0.runs[id])
  {
    var op, t := ops[n], Perform(s, ops[n]).0;
    if id in s.runs {
      AccountedLonger(ops, n, s.runs[id]);
    }
    if !(id in s.runs && t.runs[id] == s.runs[id]) {
      if op.Create? {
        assert ops[n] == Create(t.runs[id].agentId, t.runs[id].input);
      } else {
        assert id == op.runId && t.runs[id] == Updated(s.runs[id], op);
      }
    }
  }

  lemma AllAccountedNext(ops: seq<Op>, n: nat, s: State, t: State)
    requires n < |ops| && AllAccounted(ops, n, s) && t == Perform(s, ops[n]).0
    ensures AllAccounted(ops, n + 1, t)
  {
    forall id | id in t.runs ensures t.runs[id].runId == id && Accounted(ops, n + 1, t.runs[id]) {
      AccountedNext(ops, n, s, id);
    }
  }

  lemma {:induction false} HistoryAccounts(ops: seq<Op>, n: nat, s: State)
    requires n <= |ops| && s == RunOps(INITIAL, ops, n)
    ensures AllAccounted(ops, n, s)
    decreases n
  {
    if n > 0 {
      var before := RunOps(INITIAL, ops, n - 1);
      HistoryAccounts(ops, n - 1, before);
      AllAccountedNext(ops, n - 1, before, s);
    }
  }

  /** Over any history, every field of every record was given by a call. */
  lemma EveryRunIsAccounted(ops: seq<Op>, id: string)
    requires id in RunOps(INITIAL, ops, |ops|).runs
    ensures RunOps(INITIAL, ops, |ops|).runs[id].runId == id
    ensures Accounted(ops, |ops|, RunOps(INITIAL, ops, |ops|).runs[id])
  {
    HistoryAccounts(ops, |ops|, RunOps(INITIAL, ops, |ops|));
  }

  // ---- what the handler records ----------------------------------------------------------

  /** The backoffs after `n` retries: 25 ms doubled each time, at most a second. */
  ghost predicate DoublingBackoffs(items: seq<Json>, n: nat) {
    |items| == n && forall i | 0 <= i < n :: items[i] == Num(if 25 * Pow2(i) > 1000 then 1000 else 25 * Pow2(i))
  }

  /** The stored output holds the execution, how many iterations it took and how long each retry waited. */
  ghost predicate OutputTells(output: Option<Json>, execution: Json, retries: nat) {
    output.Some? && output.value.Obj?
    && Has(output.value.members, "execution") && Get(output.value.members, "execution") == execution
    && Has(output.value.members, "metrics") && Get(output.value.members, "metrics").Obj?
    && var metrics := Get(output.value.members, "metrics").members;
      && Has(metrics, "fixpointIterations") && Get(metrics, "fixpointIterations") == Num(retries + 1)
      && Has(metrics, "backoffScheduleMs") && Get(metrics, "backoffScheduleMs").Arr?
      && DoublingBackoffs(Get(metrics, "backoffScheduleMs").items, retries)
  }

  lemma {:induction false} NumbersAre(ns: seq<int>)
    ensures |NumberArray(ns)| == |ns| && forall i | 0 <= i < |ns| :: NumberArray(ns)[i] == Num(ns[i])
  {
    if ns != [] { NumbersAre(ns[1..]); }
  }

  lemma TwoFields(a: string, v: Json, b: string, w: Json)
    requires a != b
    ensures var ms := [Entry(a, v), Entry(b, w)];
      Has(ms, a) && Get(ms, a) == v && Has(ms, b) && Get(ms, b) == w
  {
    var ms := [Entry(a, v), Entry(b, w)];
    GetAt(ms, 0);
    GetAt(ms, 1);
  }

  lemma CompletedTells(execution: Json, retries: nat)
    ensures OutputTells(Some(CompletedOutput(execution, retries + 1, Backoffs(HANDLER_BUDGET, retries))), execution, retries)
  {
    var schedule := Backoffs(HANDLER_BUDGET, retries);
    NumbersAre(schedule);
    TwoFields("fixpointIterations", Num(retries + 1), "backoffScheduleMs", Arr(NumberArray(schedule)));
    TwoFields("execution", execution, "metrics",
              Obj([Entry("fixpointIterations", Num(retries + 1)), Entry("backoffScheduleMs", Arr(NumberArray(schedule)))]));
  }

  const GAVE_UP := RunError("FIXPOINT_MAX_ITER", "Fixpoint did not converge within max iterations")

  predicate WorthRetrying(code: string) {
    code == "NETWORK_ERROR" || code == "TIMEOUT" || code == "OVERLOADED" || code == "INTERNAL_ERROR"
  }

  /** The error a run ends with, if it does not complete. */
  function EndingError(injected: nat, result: ExecResult): Option<RunError> {
    if injected >= 20 then Some(GAVE_UP)
    else
      match result
      case Done(_) => None
      case ExecThrows(_) => Some(RunError("INTERNAL_ERROR", "Unhandled execute exception"))
      case ExecError(code, message) => Some(if WorthRetrying(code) then GAVE_UP else RunError(code, message))
  }

  /** How the record of a run ends, from the injected faults and what the executor answers. */
  ghost predicate EndsAs(before: RunRecord, after: RunRecord, injected: nat, result: ExecResult) {
    && after.runId == before.runId && after.agentId == before.agentId && after.input == before.input
    && (EndingError(injected, result).Some? ==>
         after.status == Failed && after.error == EndingError(injected, result) && after.output == before.output)
    && (EndingError(injected, result).None? ==>
         && after.status == Completed && after.error == before.error
         && result.Done? && OutputTells(after.output, result.execution, injected))
  }

  lemma RecordedFailure(runId: string, injected: nat, result: ExecResult)
    requires EndingError(injected, result).Some?
    ensures Recording(runId, Expected(injected, result, HANDLER_BUDGET))
         == Fail(runId, EndingError(injected, result).value.code, EndingError(injected, result).value.message)
  {
  }

  lemma RecordedSuccess(runId: string, injected: nat, result: ExecResult)
    requires EndingError(injected, result).None?
    ensures result.Done? && Recording(runId, Expected(injected, result, HANDLER_BUDGET))
         == Complete(runId, Some(CompletedOutput(result.execution, injected + 1, Backoffs(HANDLER_BUDGET, injected))))
  {
  }

  lemma FailureEnds(run: RunRecord, runId: string, injected: nat, result: ExecResult)
    requires EndingError(injected, result).Some?
    ensures EndsAs(run, Updated(run, Recording(runId, Expected(injected, result, HANDLER_BUDGET))), injected, result)
  {
    RecordedFailure(runId, injected, result);
  }

  lemma SuccessEnds(run: RunRecord, runId: string, injected: nat, result: ExecResult)
    requires EndingError(injected, result).None?
    ensures EndsAs(run, Updated(run, Recording(runId, Expected(injected, result, HANDLER_BUDGET))), injected, result)
  {
    RecordedSuccess(runId, injected, result);
    CompletedTells(result.execution, injected);
  }

  lemma RecordedAs(run: RunRecord, runId: string, injected: nat, result: ExecResult)
    ensures EndsAs(run, Updated(run, Recording(runId, Fixpoint(injected, result, HANDLER_BUDGET))), injected, result)
  {
    FixpointIs(injected, result, HANDLER_BUDGET);
    if EndingError(injected, result).Some? {
      FailureEnds(run, runId, injected, result);
    } else {
      SuccessEnds(run, runId, injected, result);
    }
  }

  /**
   * The synchronous handler on a run that can be started: the record ends with the execution and
   * its retry metrics, or with the error that ended it, and only the record changes.
   */
  lemma SyncRecords(s: State, runId: string, injected: nat, result: ExecResult)
    requires Trim(runId) != "" && runId in s.runs && s.runs[runId].status.Created?
    ensures var (t, http) := ExecuteRun(s, runId, true, injected, result);
      && runId in t.runs && http == Http(200, Some(t.runs[runId])) && t == s.(runs := s.runs[runId := t.runs[runId]])
      && EndsAs(s.runs[runId], t.runs[runId], injected, result)
  {
    SyncAlwaysEnds(s, runId, injected, result);
    StartCreated(s, runId);
    var started := Perform(s, Start(runId)).0;
    RecordingIs(runId, injected, result);
    EndRunning(started, runId, Recording(runId, Fixpoint(injected, result, HANDLER_BUDGET)));
    RecordedAs(started.runs[runId], runId, injected, result);
  }
}
