/**
 * The loop shared by the two executors: apply a step, link it into the trace, go on. How a step is
 * applied and how a link is made are parameters, so nothing here depends on either.
 */
module StepLoop {
  import opened Common
  import opened Loops
  import opened JsStrings
  import opened PlanTypes
  import opened MockAdapter

  datatype StepTrace = StepTrace(
    traceSchemaVersion: int, stepIndex: nat, stepId: string, kind: string,
    beforeHashLike: string, afterHashLike: string, previousTraceLinkHash: string, traceLinkHash: string)

  type Apply = (AgentState, Step) -> Result<AgentState, StepError>

  /** The trace entry of a step, from its index, the link before it and the states around it. */
  type Mark = (nat, Step, string, AgentState, AgentState) -> StepTrace

  /** The variables of the loop. */
  datatype Progress = Progress(state: AgentState, trace: seq<StepTrace>, link: string)

  /** What the first link of every trace points to. */
  function ZeroLink(): string {
    "tl" + Zeros(64)
  }

  function Start(): Progress {
    Progress(INITIAL_STATE, [], ZeroLink())
  }

  /** One turn of the loop. */
  function Advance(apply: Apply, mark: Mark, p: Progress, i: nat, step: Step): Result<Progress, StepError> {
    match apply(p.state, step)
    case Err(e) => Err(e)
    case Ok(next) =>
      var t := mark(i, step, p.link, p.state, next);
      Ok(Progress(next, p.trace + [t], t.traceLinkHash))
  }

  function Turns(apply: Apply, mark: Mark): Body<Progress, Step, StepError> {
    (p: Progress, i: nat, step: Step) => Advance(apply, mark, p, i, step)
  }

  /** Where the loop stands after `n` steps. */
  function After(apply: Apply, mark: Mark, steps: seq<Step>, n: nat): Loop<Progress, StepError>
    requires n <= |steps|
  {
    Iterate(Turns(apply, mark), Start(), steps, n)
  }

  /** One turn, from a loop that goes on: how the loop stands after it, and that a halted one stays so. */
  lemma NextTurn(apply: Apply, mark: Mark, steps: seq<Step>, i: nat, p: Progress, next: Result<AgentState, StepError>)
    requires i < |steps| && After(apply, mark, steps, i) == Going(p) && next == apply(p.state, steps[i])
    ensures next.Err? ==> After(apply, mark, steps, |steps|) == Halted(i, next.error)
    ensures next.Ok? ==>
      var entry := mark(i, steps[i], p.link, p.state, next.value);
      After(apply, mark, steps, i + 1) == Going(Progress(next.value, p.trace + [entry], entry.traceLinkHash))
  {
    assert After(apply, mark, steps, i + 1) == Turn(Turns(apply, mark), Going(p), i, steps[i]);
    if next.Err? { HaltedStays(Turns(apply, mark), Start(), steps, i + 1, |steps|); }
  }

  /** The states of the loop alone. */
  function StateAt(apply: Apply, steps: seq<Step>, n: nat): Option<AgentState>
    requires n <= |steps|
  {
    if n == 0 then Some(INITIAL_STATE)
    else
      match StateAt(apply, steps, n - 1)
      case None => None
      case Some(state) =>
        var next := apply(state, steps[n - 1]);
        if next.Ok? then Some(next.value) else None
  }

  lemma {:induction false} GoingState(apply: Apply, mark: Mark, steps: seq<Step>, n: nat)
    requires n <= |steps| && After(apply, mark, steps, n).Going?
    ensures StateAt(apply, steps, n) == Some(After(apply, mark, steps, n).state.state)
  {
    if n > 0 {
      GoingStep(Turns(apply, mark), Start(), steps, n);
      GoingState(apply, mark, steps, n - 1);
    }
  }

  lemma HaltedState(apply: Apply, mark: Mark, steps: seq<Step>, n: nat)
    requires n <= |steps| && After(apply, mark, steps, n).Halted?
    ensures var l := After(apply, mark, steps, n);
      && l.at < n && StateAt(apply, steps, l.at).Some?
      && apply(StateAt(apply, steps, l.at).value, steps[l.at]) == Err(l.error)
  {
    HaltedAt(Turns(apply, mark), Start(), steps, n);
    GoingState(apply, mark, steps, After(apply, mark, steps, n).at);
  }

  /** One more trace entry than steps taken, each made from the states around its step. */
  lemma {:induction false} TraceOfRun(apply: Apply, mark: Mark, steps: seq<Step>, n: nat)
    requires n <= |steps| && After(apply, mark, steps, n).Going?
    ensures |After(apply, mark, steps, n).state.trace| == n
    ensures forall i | 0 <= i < n :: EntryAt(apply, mark, steps, i, After(apply, mark, steps, n).state.trace[i])
    ensures n > 0 ==> After(apply, mark, steps, n).state.link == After(apply, mark, steps, n).state.trace[n - 1].traceLinkHash
  {
    if n > 0 {
      GoingStep(Turns(apply, mark), Start(), steps, n);
      TraceOfRun(apply, mark, steps, n - 1);
      var p, q := After(apply, mark, steps, n - 1).state, After(apply, mark, steps, n).state;
      assert EntryAt(apply, mark, steps, n - 1, q.trace[n - 1]);
      forall i | 0 <= i < n ensures EntryAt(apply, mark, steps, i, q.trace[i]) {
        if i < n - 1 { assert q.trace[i] == p.trace[i]; }
      }
    }
  }

  ghost predicate EntryAt(apply: Apply, mark: Mark, steps: seq<Step>, i: nat, entry: StepTrace)
    requires i < |steps|
  {
    && After(apply, mark, steps, i).Going? && After(apply, mark, steps, i + 1).Going?
    && var p, q := After(apply, mark, steps, i).state, After(apply, mark, steps, i + 1).state;
      entry == mark(i, steps[i], p.link, p.state, q.state) && q.link == entry.traceLinkHash
  }

  /** Applying steps alike gives the same loop. */
  lemma {:induction false} SameApply(f: Apply, g: Apply, mark: Mark, steps: seq<Step>, n: nat)
    requires n <= |steps|
    requires forall i, s | 0 <= i < |steps| :: f(s, steps[i]) == g(s, steps[i])
    ensures After(f, mark, steps, n) == After(g, mark, steps, n)
  {
    if n > 0 {
      SameApply(f, g, mark, steps, n - 1);
      if After(f, mark, steps, n - 1).Going? {
        assert f(After(f, mark, steps, n - 1).state.state, steps[n - 1]) == g(After(f, mark, steps, n - 1).state.state, steps[n - 1]);
      }
    }
  }
}
