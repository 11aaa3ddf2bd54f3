/** The run registry (src/http/runs/registry.ts): transitions, ids, and what holds over whole histories. */
module RunRegistry {
  import opened Common
  import opened JsStrings
  import opened Json

  datatype Status = Created | Running | Completed | Failed | Cancelled

  datatype RunError = RunError(code: string, message: string)

  /** A run record; its timestamps are left out. */
  datatype RunRecord = RunRecord(
    runId: string, agentId: string, status: Status, input: Option<Json>, output: Option<Json>, error: Option<RunError>)

  predicate IsTerminal(s: Status) {
    s.Completed? || s.Failed? || s.Cancelled?
  }

  predicate CanTransition(from: Status, to: Status) {
    || (from.Created? && (to.Running? || to.Cancelled?))
    || (from.Running? && (to.Completed? || to.Failed? || to.Cancelled?))
  }

  datatype RegistryError = NotFound(runId: string) | InvalidTransition(from: Status, to: Status)

  function StatusText(s: Status): string {
    match s
    case Created => "created"
    case Running => "running"
    case Completed => "completed"
    case Failed => "failed"
    case Cancelled => "cancelled"
  }

  /** The message of the error a method throws. */
  function ErrorText(e: RegistryError): string {
    match e
    case NotFound(runId) => "Run not found: " + runId
    case InvalidTransition(from, to) => "Invalid transition: " + StatusText(from) + " -> " + StatusText(to)
  }

  type Answer = Result<RunRecord, RegistryError>

  // ---- ids -------------------------------------------------------------------------------

  /** `"run_" + String(n).padStart(6, "0")`. */
  function RunId(n: nat): string {
    "run_" + PadStart(n, 6)
  }

  /** No two numbers give the same id, padded or not. */
  lemma RunIdInjective(m: nat, n: nat)
    requires RunId(m) == RunId(n)
    ensures m == n
  {
    assert RunId(m)[4..] == PadStart(m, 6) && RunId(n)[4..] == PadStart(n, 6);
    PadStartInjective(m, n, 6);
  }

  // ---- operations on the state -----------------------------------------------------------

  datatype State = State(runs: map<string, RunRecord>, nextId: nat)

  const INITIAL := State(map[], 1)

  datatype Op =
    | Create(agentId: string, input: Option<Json>)
    | Start(runId: string)
    | Complete(runId: string, output: Option<Json>)
    | Fail(runId: string, code: string, message: string)
    | Cancel(runId: string, reason: string)

  function NewRun(s: State, agentId: string, input: Option<Json>): RunRecord {
    RunRecord(RunId(s.nextId), agentId, Created, input, None, None)
  }

  /** The record after an operation that its status allows. */
  function Updated(run: RunRecord, op: Op): RunRecord {
    match op
    case Create(_, _) => run
    case Start(_) => run.(status := Running)
    case Complete(_, output) => run.(status := Completed, output := output)
    case Fail(_, code, message) => run.(status := Failed, error := Some(RunError(code, message)))
    case Cancel(_, reason) =>
      run.(status := Cancelled, error := if reason == "" then run.error else Some(RunError("RUN_CANCELLED", reason)))
  }

  function Target(op: Op): Status {
    match op
    case Create(_, _) => Created
    case Start(_) => Running
    case Complete(_, _) => Completed
    case Fail(_, _, _) => Failed
    case Cancel(_, _) => Cancelled
  }

  /** What each public method does: the new state and its answer. */
  function Perform(s: State, op: Op): (State, Answer) {
    match op
    case Create(agentId, input) =>
      var run := NewRun(s, agentId, input);
      (State(s.runs[run.runId := run], s.nextId + 1), Ok(run))
    case _ =>
      if op.runId !in s.runs then (s, Err(NotFound(op.runId)))
      else
        var run := s.runs[op.runId];
        if op.Cancel? && run.status.Cancelled? then (s, Ok(run))
        else if !CanTransition(run.status, Target(op)) then (s, Err(InvalidTransition(run.status, Target(op))))
        else (s.(runs := s.runs[op.runId := Updated(run, op)]), Ok(Updated(run, op)))
  }

  /** `restore`: the snapshot replaces the record, whatever its status. */
  function Restored(s: State, snapshot: RunRecord): State {
    s.(runs := s.runs[snapshot.runId := snapshot])
  }

  class AgentRunRegistry {
    var runs: map<string, RunRecord>
    var nextId: nat

    constructor ()
      ensures Current() == INITIAL
    {
      runs, nextId := map[], 1;
    }

    ghost function Current(): State
      reads this
    {
      State(runs, nextId)
    }

    method CreateRun(agentId: string, input: Option<Json>) returns (run: RunRecord)
      modifies this
      ensures (Current(), Ok(run)) == Perform(old(Current()), Create(agentId, input))
    {
      var runId := RunId(nextId);
      nextId := nextId + 1;
      run := RunRecord(runId, agentId, Created, input, None, None);
      runs := runs[runId := run];
    }

    method Get(runId: string) returns (r: Option<RunRecord>)
      ensures r == if runId in runs then Some(runs[runId]) else None
    {
      return if runId in runs then Some(runs[runId]) else None;
    }

    method Restore(snapshot: RunRecord)
      modifies this`runs
      ensures Current() == Restored(old(Current()), snapshot)
    {
      runs := runs[snapshot.runId := snapshot];
    }

    method StartRun(runId: string) returns (r: Answer)
      modifies this`runs
      ensures (Current(), r) == Perform(old(Current()), Start(runId))
    {
      if runId !in runs {
        return Err(NotFound(runId));
      }
      var current := runs[runId];
      if !CanTransition(current.status, Running) {
        return Err(InvalidTransition(current.status, Running));
      }
      var updated := current.(status := Running);
      runs := runs[runId := updated];
      return Ok(updated);
    }

    method CompleteRun(runId: string, output: Option<Json>) returns (r: Answer)
      modifies this`runs
      ensures (Current(), r) == Perform(old(Current()), Complete(runId, output))
    {
      if runId !in runs {
        return Err(NotFound(runId));
      }
      var current := runs[runId];
      if !CanTransition(current.status, Completed) {
        return Err(InvalidTransition(current.status, Completed));
      }
      var updated := current.(status := Completed, output := output);
      runs := runs[runId := updated];
      return Ok(updated);
    }

    method FailRun(runId: string, code: string, message: string) returns (r: Answer)
      modifies this`runs
      ensures (Current(), r) == Perform(old(Current()), Fail(runId, code, message))
    {
      if runId !in runs {
        return Err(NotFound(runId));
      }
      var current := runs[runId];
      if !CanTransition(current.status, Failed) {
        return Err(InvalidTransition(current.status, Failed));
      }
      var updated := current.(status := Failed, error := Some(RunError(code, message)));
      runs := runs[runId := updated];
      return Ok(updated);
    }

    method CancelRun(runId: string, reason: string) returns (r: Answer)
      modifies this`runs
      ensures (Current(), r) == Perform(old(Current()), Cancel(runId, reason))
    {
      if runId !in runs {
        return Err(NotFound(runId));
      }
      var current := runs[runId];
      if current.status.Cancelled? {
        return Ok(current);
      }
      if IsTerminal(current.status) || !CanTransition(current.status, Cancelled) {
        return Err(InvalidTransition(current.status, Cancelled));
      }
      var updated := current.(status := Cancelled,
                              error := if reason == "" then current.error else Some(RunError("RUN_CANCELLED", reason)));
      runs := runs[runId := updated];
      return Ok(updated);
    }
  }

  // ---- histories -------------------------------------------------------------------------

  /** The state after the first `n` operations. */
  function RunOps(s: State, ops: seq<Op>, n: nat): State
    requires n <= |ops|
  {
    if n == 0 then s else Perform(RunOps(s, ops, n - 1), ops[n - 1]).0
  }

  /** The ids in use are those of the numbers below the next one, each run under its own. */
  ghost predicate Valid(s: State) {
    && s.nextId >= 1
    && (forall id | id in s.runs :: s.runs[id].runId == id && exists n: nat :: 1 <= n < s.nextId && id == RunId(n))
    && (forall n: nat | 1 <= n < s.nextId :: RunId(n) in s.runs)
  }

  lemma FreshId(s: State)
    requires Valid(s)
    ensures RunId(s.nextId) !in s.runs
  {
    if RunId(s.nextId) in s.runs {
      var n: nat :| 1 <= n < s.nextId && RunId(s.nextId) == RunId(n);
      RunIdInjective(s.nextId, n);
    }
  }

  lemma ValidAfterCreate(s: State, agentId: string, input: Option<Json>)
    requires Valid(s)
    ensures Valid(Perform(s, Create(agentId, input)).0)
  {
    var t := Perform(s, Create(agentId, input)).0;
    forall id | id in t.runs ensures t.runs[id].runId == id && exists n: nat :: 1 <= n < t.nextId && id == RunId(n) {
      if id in s.runs && id != RunId(s.nextId) {
        var n: nat :| 1 <= n < s.nextId && id == RunId(n);
        assert n < t.nextId;
      } else {
        assert s.nextId < t.nextId && id == RunId(s.nextId);
      }
    }
  }

  lemma ValidAfterUpdate(s: State, id: string, run: RunRecord)
    requires Valid(s) && id in s.runs && run.runId == id
    ensures Valid(s.(runs := s.runs[id := run]))
  {
    var t := s.(runs := s.runs[id := run]);
    forall k | k in t.runs ensures t.runs[k].runId == k && exists n: nat :: 1 <= n < t.nextId && k == RunId(n) {
      assert k in s.runs;
    }
  }

  lemma ValidAfter(s: State, op: Op)
    requires Valid(s)
    ensures Valid(Perform(s, op).0)
  {
    if op.Create? {
      ValidAfterCreate(s, op.agentId, op.input);
    } else if op.runId in s.runs && Perform(s, op).0 != s {
      ValidAfterUpdate(s, op.runId, Updated(s.runs[op.runId], op));
      assert Perform(s, op).0 == s.(runs := s.runs[op.runId := Updated(s.runs[op.runId], op)]);
    }
  }

  lemma {:induction false} ValidAlways(s: State, ops: seq<Op>, n: nat)
    requires n <= |ops| && Valid(s)
    ensures Valid(RunOps(s, ops, n))
  {
    if n > 0 {
      ValidAlways(s, ops, n - 1);
      ValidAfter(RunOps(s, ops, n - 1), ops[n - 1]);
    }
  }

  lemma OpKeepsRuns(s: State, op: Op, id: string)
    requires id in s.runs
    ensures id in Perform(s, op).0.runs
  {
  }

  /** Runs are never removed. */
  lemma {:induction false} RunsStay(ops: seq<Op>, m: nat, n: nat, id: string)
    requires m <= n <= |ops| && id in RunOps(INITIAL, ops, m).runs
    ensures id in RunOps(INITIAL, ops, n).runs
  {
    if m < n {
      RunsStay(ops, m, n - 1, id);
      OpKeepsRuns(RunOps(INITIAL, ops, n - 1), ops[n - 1], id);
    }
  }

  /** The id the `i`-th operation of a history hands out, when it is a `create`. */
  function IdHandedOut(ops: seq<Op>, i: nat): string
    requires i < |ops| && ops[i].Create?
  {
    RunId(RunOps(INITIAL, ops, i).nextId)
  }

  lemma HandsOut(s: State, op: Op)
    requires op.Create? && Valid(s)
    ensures Perform(s, op).1.Ok? && Perform(s, op).1.value.runId == RunId(s.nextId)
    ensures RunId(s.nextId) !in s.runs && RunId(s.nextId) in Perform(s, op).0.runs
  {
    FreshId(s);
  }

  /** Over any history, `create` hands out an id no run has; every id handed out before is still a run's. */
  lemma IdsAreNeverReused(ops: seq<Op>, i: nat)
    requires i < |ops| && ops[i].Create?
    ensures var s := RunOps(INITIAL, ops, i);
      && Perform(s, ops[i]).1.Ok? && Perform(s, ops[i]).1.value.runId == IdHandedOut(ops, i) && IdHandedOut(ops, i) !in s.runs
      && forall j | 0 <= j < i && ops[j].Create? :: IdHandedOut(ops, j) in s.runs
  {
    ValidAlways(INITIAL, ops, i);
    HandsOut(RunOps(INITIAL, ops, i), ops[i]);
    forall j | 0 <= j < i && ops[j].Create? ensures IdHandedOut(ops, j) in RunOps(INITIAL, ops, i).runs {
      ValidAlways(INITIAL, ops, j);
      HandsOut(RunOps(INITIAL, ops, j), ops[j]);
      RunsStay(ops, j + 1, i, IdHandedOut(ops, j));
    }
  }

  /** The id is the one of a number already used. */
  ghost predicate Issued(s: State, id: string) {
    exists n: nat :: n < s.nextId && id == RunId(n)
  }

  lemma IssuedStays(s: State, op: Op, id: string)
    requires Issued(s, id)
    ensures Issued(Perform(s, op).0, id) && (op.Create? ==> id != RunId(s.nextId))
  {
    var n: nat :| n < s.nextId && id == RunId(n);
    assert n < Perform(s, op).0.nextId;
    if RunId(s.nextId) == id { RunIdInjective(s.nextId, n); }
  }

  /** What an operation may do to a run: nothing, or one allowed transition that keeps agent and input. */
  ghost predicate Follows(a: RunRecord, b: RunRecord) {
    b == a || (CanTransition(a.status, b.status) && b.runId == a.runId && b.agentId == a.agentId && b.input == a.input)
  }

  lemma OpFollows(s: State, op: Op, id: string)
    requires Issued(s, id) && id in s.runs && s.runs[id].runId == id
    ensures id in Perform(s, op).0.runs && Follows(s.runs[id], Perform(s, op).0.runs[id])
  {
    IssuedStays(s, op, id);
  }

  function Rank(s: Status): nat {
    match s
    case Created => 0
    case Running => 1
    case _ => 2
  }

  /** The same run further on: under its agent and input, its status never behind, unchanged when not ahead. */
  ghost predicate Ahead(a: RunRecord, b: RunRecord) {
    && b.runId == a.runId && b.agentId == a.agentId && b.input == a.input && Rank(a.status) <= Rank(b.status)
    && (Rank(a.status) == Rank(b.status) ==> a == b)
  }

  lemma AheadFollows(a: RunRecord, b: RunRecord, c: RunRecord)
    requires Ahead(a, b) && Follows(b, c)
    ensures Ahead(a, c)
  {
  }

  lemma {:induction false} RunMoves(s: State, ops: seq<Op>, n: nat, id: string)
    requires n <= |ops| && Issued(s, id) && id in s.runs && s.runs[id].runId == id
    ensures Issued(RunOps(s, ops, n), id) && id in RunOps(s, ops, n).runs && Ahead(s.runs[id], RunOps(s, ops, n).runs[id])
  {
    if n > 0 {
      RunMoves(s, ops, n - 1, id);
      var t := RunOps(s, ops, n - 1);
      IssuedStays(t, ops[n - 1], id);
      OpFollows(t, ops[n - 1], id);
      AheadFollows(s.runs[id], t.runs[id], Perform(t, ops[n - 1]).0.runs[id]);
    }
  }

  lemma ReachedRuns(past: seq<Op>, id: string)
    requires id in RunOps(INITIAL, past, |past|).runs
    ensures Issued(RunOps(INITIAL, past, |past|), id) && RunOps(INITIAL, past, |past|).runs[id].runId == id
  {
    ValidAlways(INITIAL, past, |past|);
  }

  /** In every reachable registry and over every further history, runs stay and their status only moves forward. */
  lemma RunsOnlyMoveForward(past: seq<Op>, ops: seq<Op>, id: string)
    requires id in RunOps(INITIAL, past, |past|).runs
    ensures var s := RunOps(INITIAL, past, |past|);
      var t := RunOps(s, ops, |ops|);
      id in t.runs && Ahead(s.runs[id], t.runs[id])
  {
    ReachedRuns(past, id);
    RunMoves(RunOps(INITIAL, past, |past|), ops, |ops|, id);
  }

  /** A terminal run never changes again, in any way, whatever is done to the registry. */
  lemma TerminalIsForever(past: seq<Op>, ops: seq<Op>, id: string)
    requires id in RunOps(INITIAL, past, |past|).runs && IsTerminal(RunOps(INITIAL, past, |past|).runs[id].status)
    ensures var s := RunOps(INITIAL, past, |past|);
      var t := RunOps(s, ops, |ops|);
      id in t.runs && t.runs[id] == s.runs[id]
  {
    RunsOnlyMoveForward(past, ops, id);
  }
}
