/**
 * What equal hashes of two executions force: the last trace link commits to every step view and
 * state view before it, the execution hash to the canonical plan as well.
 */
module TraceCommitment {
  import opened Common
  import opened Loops
  import opened JsStrings
  import opened Records
  import opened Json
  import opened PlanTypes
  import opened CanonicalPlan
  import opened PlanIdempotence
  import opened MockAdapter
  import opened StepLoop
  import opened TraceChain
  import opened StateViews
  import Policies
  import opened Executor

  // ---- chains of links -------------------------------------------------------------------

  /** The link carries its index and the hash of the one before; the first points to `zero`. */
  ghost predicate Linked(h: Link -> string, zero: string, ls: seq<Link>, i: nat)
    requires i < |ls|
  {
    ls[i].index == i && ls[i].previous == if i == 0 then zero else h(ls[i - 1])
  }

  ghost predicate IsChain(h: Link -> string, zero: string, ls: seq<Link>) {
    forall i | 0 <= i < |ls| :: Linked(h, zero, ls, i)
  }

  ghost predicate InjectiveOn(h: Link -> string, ls: seq<Link>, ms: seq<Link>) {
    forall a, b | a in ls && b in ms && h(a) == h(b) :: a == b
  }

  lemma ChainPrefix(h: Link -> string, zero: string, ls: seq<Link>)
    requires IsChain(h, zero, ls) && ls != []
    ensures IsChain(h, zero, ls[..|ls| - 1])
  {
    var init := ls[..|ls| - 1];
    forall i | 0 <= i < |init| ensures Linked(h, zero, init, i) {
      assert Linked(h, zero, ls, i);
    }
  }

  lemma ChainGrows(h: Link -> string, zero: string, ls: seq<Link>, l: Link)
    requires IsChain(h, zero, ls) && l.index == |ls|
    requires l.previous == if ls == [] then zero else h(ls[|ls| - 1])
    ensures IsChain(h, zero, ls + [l])
  {
    forall i | 0 <= i < |ls| + 1 ensures Linked(h, zero, ls + [l], i) {
      if i < |ls| { assert Linked(h, zero, ls, i); }
    }
  }

  /** The hash of the last link determines the whole chain, its length included. */
  lemma {:induction false} ChainsAgree(h: Link -> string, zero: string, ls: seq<Link>, ms: seq<Link>)
    requires IsChain(h, zero, ls) && IsChain(h, zero, ms) && ls != [] && ms != []
    requires InjectiveOn(h, ls, ms)
    requires h(ls[|ls| - 1]) == h(ms[|ms| - 1])
    ensures ls == ms
    decreases |ls|
  {
    var n := |ls|;
    assert Linked(h, zero, ls, n - 1) && Linked(h, zero, ms, |ms| - 1);
    assert ls[n - 1] in ls && ms[|ms| - 1] in ms;
    assert ls[n - 1] == ms[|ms| - 1] && |ms| == n;
    var xs, ys := ls[..n - 1], ms[..n - 1];
    if n > 1 {
      ChainPrefix(h, zero, ls);
      ChainPrefix(h, zero, ms);
      ChainsAgree(h, zero, xs, ys);
    }
    assert ls == xs + [ls[n - 1]] && ms == ys + [ms[n - 1]];
  }

  // ---- the links of a run ----------------------------------------------------------------

  type Linker = (nat, Step, string, AgentState, AgentState) -> Link

  /** The marks of a run hash the links it makes. */
  ghost predicate Hashes(mark: Mark, h: Link -> string, link: Linker) {
    forall i, step, previous, before, after ::
      && mark(i, step, previous, before, after).traceLinkHash == h(link(i, step, previous, before, after))
      && link(i, step, previous, before, after).index == i
      && link(i, step, previous, before, after).previous == previous
  }

  function LinksOf(apply: Apply, mark: Mark, link: Linker, steps: seq<Step>, n: nat): (r: seq<Link>)
    requires n <= |steps| && After(apply, mark, steps, n).Going?
    ensures |r| == n
  {
    if n == 0 then []
    else
      GoingStep(Turns(apply, mark), Start(), steps, n);
      var p, q := After(apply, mark, steps, n - 1).state, After(apply, mark, steps, n).state;
      LinksOf(apply, mark, link, steps, n - 1) + [link(n - 1, steps[n - 1], p.link, p.state, q.state)]
  }

  lemma {:induction false} LinksAreChain(apply: Apply, mark: Mark, h: Link -> string, link: Linker, steps: seq<Step>, n: nat)
    requires n <= |steps| && After(apply, mark, steps, n).Going? && Hashes(mark, h, link)
    ensures IsChain(h, ZeroLink(), LinksOf(apply, mark, link, steps, n))
    ensures After(apply, mark, steps, n).state.link
         == if n == 0 then ZeroLink() else h(LinksOf(apply, mark, link, steps, n)[n - 1])
  {
    if n > 0 {
      GoingStep(Turns(apply, mark), Start(), steps, n);
      LinksAreChain(apply, mark, h, link, steps, n - 1);
      var p, q := After(apply, mark, steps, n - 1).state, After(apply, mark, steps, n).state;
      ChainGrows(h, ZeroLink(), LinksOf(apply, mark, link, steps, n - 1),
                 link(n - 1, steps[n - 1], p.link, p.state, q.state));
    }
  }

  /** What a link of a run is made from: its step and the states around it. */
  lemma {:induction false} LinkAt(apply: Apply, mark: Mark, link: Linker, steps: seq<Step>, n: nat, i: nat)
    requires i < n <= |steps| && After(apply, mark, steps, n).Going?
    ensures After(apply, mark, steps, i).Going? && After(apply, mark, steps, i + 1).Going?
    ensures LinksOf(apply, mark, link, steps, n)[i]
         == link(i, steps[i], After(apply, mark, steps, i).state.link, After(apply, mark, steps, i).state.state,
                 After(apply, mark, steps, i + 1).state.state)
    decreases n
  {
    GoingStep(Turns(apply, mark), Start(), steps, n);
    if i < n - 1 { LinkAt(apply, mark, link, steps, n - 1, i); }
  }

  /** Two runs whose links hash to the same final link made the same links. */
  lemma RunsAgree(h: Link -> string, apply: Apply, mark: Mark, link: Linker, xs: seq<Step>,
                  apply': Apply, mark': Mark, link': Linker, ys: seq<Step>)
    requires Hashes(mark, h, link) && Hashes(mark', h, link') && xs != [] && ys != []
    requires After(apply, mark, xs, |xs|).Going? && After(apply', mark', ys, |ys|).Going?
    requires InjectiveOn(h, LinksOf(apply, mark, link, xs, |xs|), LinksOf(apply', mark', link', ys, |ys|))
    requires After(apply, mark, xs, |xs|).state.link == After(apply', mark', ys, |ys|).state.link
    ensures LinksOf(apply, mark, link, xs, |xs|) == LinksOf(apply', mark', link', ys, |ys|)
  {
    LinksAreChain(apply, mark, h, link, xs, |xs|);
    LinksAreChain(apply', mark', h, link', ys, |ys|);
    ChainsAgree(h, ZeroLink(), LinksOf(apply, mark, link, xs, |xs|), LinksOf(apply', mark', link', ys, |ys|));
  }

  // ---- executions ------------------------------------------------------------------------

  function Linking(env: Env): Linker {
    (i: nat, step: Step, previous: string, before: AgentState, after: AgentState) =>
      MakeLink(env, i, step, previous, before, after)
  }

  function Hashing(sha: string -> string): Link -> string {
    l => LinkHash(sha, l)
  }

  lemma EnvHashes(env: Env)
    ensures Hashes(Marks(env), Hashing(env.sha), Linking(env))
  {
  }

  ghost predicate Completes(env: Env, steps: seq<Step>) {
    Steps(env, steps, |steps|).Going?
  }

  /** The links of a completed run. */
  function RunLinks(env: Env, steps: seq<Step>): (r: seq<Link>)
    requires Completes(env, steps)
    ensures |r| == |steps|
  {
    LinksOf(Applies(env), Marks(env), Linking(env), steps, |steps|)
  }

  function FinalLink(env: Env, steps: seq<Step>): string
    requires Completes(env, steps)
  {
    Steps(env, steps, |steps|).state.link
  }

  function FinalState(env: Env, steps: seq<Step>): AgentState
    requires Completes(env, steps)
  {
    Steps(env, steps, |steps|).state.state
  }

  ghost function LinkTexts(ls: seq<Link>): set<string> {
    set l | l in ls :: Stringify(LinkPayload(l))
  }

  lemma CollisionFreeLinks(sha: string -> string, ls: seq<Link>, ms: seq<Link>)
    requires CollisionFree(sha, LinkTexts(ls) + LinkTexts(ms))
    ensures InjectiveOn(Hashing(sha), ls, ms)
  {
    forall a, b | a in ls && b in ms && Hashing(sha)(a) == Hashing(sha)(b) ensures a == b {
      LinkHashBinds(sha, LinkTexts(ls) + LinkTexts(ms), a, b);
    }
  }

  /**
   * Two completed runs with the same final link and a hash that does not collide on their own
   * payloads made the same links: as many, each with the same step view and state views.
   */
  lemma FinalLinkCommits(a: Env, xs: seq<Step>, b: Env, ys: seq<Step>)
    requires a.sha == b.sha && xs != [] && ys != [] && Completes(a, xs) && Completes(b, ys)
    requires CollisionFree(a.sha, LinkTexts(RunLinks(a, xs)) + LinkTexts(RunLinks(b, ys)))
    requires FinalLink(a, xs) == FinalLink(b, ys)
    ensures |xs| == |ys| && RunLinks(a, xs) == RunLinks(b, ys)
  {
    EnvHashes(a);
    EnvHashes(b);
    CollisionFreeLinks(a.sha, RunLinks(a, xs), RunLinks(b, ys));
    RunsAgree(Hashing(a.sha), Applies(a), Marks(a), Linking(a), xs, Applies(b), Marks(b), Linking(b), ys);
  }

  lemma LinkedViewsAgree(a: Env, xs: seq<Step>, b: Env, ys: seq<Step>, i: nat)
    requires a.sha == b.sha && xs != [] && ys != [] && Completes(a, xs) && Completes(b, ys)
    requires CollisionFree(a.sha, LinkTexts(RunLinks(a, xs)) + LinkTexts(RunLinks(b, ys)))
    requires FinalLink(a, xs) == FinalLink(b, ys) && i < |xs|
    ensures |xs| == |ys| && Steps(a, xs, i).Going? && Steps(a, xs, i + 1).Going?
    ensures Steps(b, ys, i).Going? && Steps(b, ys, i + 1).Going?
    ensures StepView(a.nfc, xs[i]) == StepView(b.nfc, ys[i])
    ensures StateView(a.nfc, Steps(a, xs, i).state.state) == StateView(b.nfc, Steps(b, ys, i).state.state)
    ensures StateView(a.nfc, Steps(a, xs, i + 1).state.state) == StateView(b.nfc, Steps(b, ys, i + 1).state.state)
  {
    FinalLinkCommits(a, xs, b, ys);
    LinkAt(Applies(a), Marks(a), Linking(a), xs, |xs|, i);
    LinkAt(Applies(b), Marks(b), Linking(b), ys, |ys|, i);
    LinkFields(a, b, RunLinks(a, xs)[i], xs[i], ys[i], Steps(a, xs, i).state, Steps(b, ys, i).state,
               Steps(a, xs, i + 1).state.state, Steps(b, ys, i + 1).state.state, i);
  }

  /** Both runs get past their first `i` steps, to states the trace does not tell apart. */
  ghost predicate AlikeAfter(a: Env, xs: seq<Step>, b: Env, ys: seq<Step>, i: nat) {
    && i <= |xs| && i <= |ys| && Steps(a, xs, i).Going? && Steps(b, ys, i).Going?
    && SeenAlike(a.nfc, Steps(a, xs, i).state.state, b.nfc, Steps(b, ys, i).state.state)
  }

  lemma StatesSeenAlike(a: Env, xs: seq<Step>, b: Env, ys: seq<Step>, i: nat)
    requires i <= |xs| && i <= |ys| && Steps(a, xs, i).Going? && Steps(b, ys, i).Going?
    requires StateView(a.nfc, Steps(a, xs, i).state.state) == StateView(b.nfc, Steps(b, ys, i).state.state)
    ensures AlikeAfter(a, xs, b, ys, i)
  {
    RunStatesDistinct(a, xs, i);
    RunStatesDistinct(b, ys, i);
    StateViewBinds(a.nfc, Steps(a, xs, i).state.state, b.nfc, Steps(b, ys, i).state.state);
  }

  lemma AlikeBeforeStep(a: Env, xs: seq<Step>, b: Env, ys: seq<Step>, i: nat)
    requires a.sha == b.sha && xs != [] && ys != [] && Completes(a, xs) && Completes(b, ys)
    requires CollisionFree(a.sha, LinkTexts(RunLinks(a, xs)) + LinkTexts(RunLinks(b, ys)))
    requires FinalLink(a, xs) == FinalLink(b, ys) && i < |xs|
    ensures |xs| == |ys| && AlikeAfter(a, xs, b, ys, i) && StepView(a.nfc, xs[i]) == StepView(b.nfc, ys[i])
  {
    LinkedViewsAgree(a, xs, b, ys, i);
    StatesSeenAlike(a, xs, b, ys, i);
  }

  lemma ViewAtEnd(a: Env, xs: seq<Step>, b: Env, ys: seq<Step>)
    requires a.sha == b.sha && xs != [] && ys != [] && Completes(a, xs) && Completes(b, ys)
    requires CollisionFree(a.sha, LinkTexts(RunLinks(a, xs)) + LinkTexts(RunLinks(b, ys)))
    requires FinalLink(a, xs) == FinalLink(b, ys)
    ensures |xs| == |ys| && StateView(a.nfc, FinalState(a, xs)) == StateView(b.nfc, FinalState(b, ys))
  {
    LinkedViewsAgree(a, xs, b, ys, |xs| - 1);
  }

  lemma AlikeAtEnd(a: Env, xs: seq<Step>, b: Env, ys: seq<Step>)
    requires a.sha == b.sha && xs != [] && ys != [] && Completes(a, xs) && Completes(b, ys)
    requires CollisionFree(a.sha, LinkTexts(RunLinks(a, xs)) + LinkTexts(RunLinks(b, ys)))
    requires FinalLink(a, xs) == FinalLink(b, ys)
    ensures |xs| == |ys| && AlikeAfter(a, xs, b, ys, |xs|)
  {
    ViewAtEnd(a, xs, b, ys);
    StatesSeenAlike(a, xs, b, ys, |xs|);
  }

  /**
   * The same theorem in the words of the run: before every step and at the end, the same values
   * and log lines up to normalization and the same safe counters; at every step the same view.
   */
  lemma FinalLinkCommitsViews(a: Env, xs: seq<Step>, b: Env, ys: seq<Step>, i: nat)
    requires a.sha == b.sha && xs != [] && ys != [] && Completes(a, xs) && Completes(b, ys)
    requires CollisionFree(a.sha, LinkTexts(RunLinks(a, xs)) + LinkTexts(RunLinks(b, ys)))
    requires FinalLink(a, xs) == FinalLink(b, ys) && i <= |xs|
    ensures |xs| == |ys| && AlikeAfter(a, xs, b, ys, i)
    ensures i < |xs| ==> StepView(a.nfc, xs[i]) == StepView(b.nfc, ys[i])
  {
    if i < |xs| {
      AlikeBeforeStep(a, xs, b, ys, i);
    } else {
      AlikeAtEnd(a, xs, b, ys);
    }
  }

  /** Of canonical plans, the final link commits to every step but the fields of tool steps. */
  lemma FinalLinkCommitsSteps(a: Env, p: Plan, b: Env, q: Plan, i: nat)
    requires a.sha == b.sha && p.steps != [] && q.steps != [] && Completes(a, p.steps) && Completes(b, q.steps)
    requires CollisionFree(a.sha, LinkTexts(RunLinks(a, p.steps)) + LinkTexts(RunLinks(b, q.steps)))
    requires FinalLink(a, p.steps) == FinalLink(b, q.steps) && i < |p.steps|
    requires a.nfc == b.nfc && NfcLaws(a.nfc) && IsCanonPlan(a.nfc, p) && IsCanonPlan(b.nfc, q)
    ensures |p.steps| == |q.steps|
    ensures var x, y := p.steps[i], q.steps[i];
      x == y || (x.IsTool() && y.IsTool() && x.id == y.id && x.ToolCall? == y.ToolCall?)
  {
    FinalLinkCommitsViews(a, p.steps, b, q.steps, i);
    StepViewBinds(a.nfc, p.steps[i], q.steps[i]);
  }

  lemma LinkFields(a: Env, b: Env, l: Link, x: Step, y: Step, p: Progress, q: Progress, after: AgentState,
                   other: AgentState, i: nat)
    requires l == Linking(a)(i, x, p.link, p.state, after) == Linking(b)(i, y, q.link, q.state, other)
    ensures StepView(a.nfc, x) == StepView(b.nfc, y)
    ensures StateView(a.nfc, p.state) == StateView(b.nfc, q.state)
    ensures StateView(a.nfc, after) == StateView(b.nfc, other)
  {
  }

  // ---- the execution hash ----------------------------------------------------------------

  function FinalSummary(env: Env, plan: Plan): Summary
    requires Completes(env, plan.steps)
  {
    SummaryOf(env, plan, "ph" + env.sha(PlanText(plan)), Steps(env, plan.steps, |plan.steps|).state)
  }

  ghost predicate TextsIn(env: Env, plan: Plan, texts: set<string>)
    requires Completes(env, plan.steps)
  {
    PlanText(plan) in texts && Stringify(SummaryPayload(FinalSummary(env, plan))) in texts
  }

  lemma PlanTextBinds(sha: string -> string, texts: set<string>, p: Plan, q: Plan)
    requires CollisionFree(sha, texts) && PlanText(p) in texts && PlanText(q) in texts
    requires "ph" + sha(PlanText(p)) == "ph" + sha(PlanText(q))
    ensures p == q
  {
    PrefixedEqual("ph", sha(PlanText(p)), sha(PlanText(q)));
    StringifyInjective(Obj(PlanFields(p)), Obj(PlanFields(q)));
    PlanFieldsInjective(p, q);
  }

  /**
   * Equal execution hashes force equal canonical plans and final links, and final states with the
   * same values and log lines up to normalization and the same safe counters.
   */
  lemma ExecutionHashCommits(a: Env, p: Plan, b: Env, q: Plan, texts: set<string>)
    requires a.sha == b.sha && Completes(a, p.steps) && Completes(b, q.steps)
    requires CollisionFree(a.sha, texts) && TextsIn(a, p, texts) && TextsIn(b, q, texts)
    requires ExecutionHash(a.sha, FinalSummary(a, p)) == ExecutionHash(b.sha, FinalSummary(b, q))
    ensures p == q
    ensures FinalLink(a, p.steps) == FinalLink(b, q.steps)
    ensures SeenAlike(a.nfc, FinalState(a, p.steps), b.nfc, FinalState(b, q.steps))
  {
    ExecutionHashBinds(a.sha, texts, FinalSummary(a, p), FinalSummary(b, q));
    PlanTextBinds(a.sha, texts, p, q);
    StatesSeenAlike(a, p.steps, b, q.steps, |p.steps|);
  }

  /** The hashes in a successful response are those of the canonical plan and its run. */
  lemma ResponseHashes(env: Env, raw: seq<Entry<Json>>, maxSteps: int)
    requires NfcLaws(env.nfc) && Execute(env, raw, maxSteps).Succeeded?
    ensures Canonicalize(env.nfc, raw).Some?
    ensures var plan, r := Canonicalize(env.nfc, raw).value, Execute(env, raw, maxSteps).result;
      && Completes(env, plan.steps) && plan.steps != []
      && r.planHash == "ph" + env.sha(PlanText(plan))
      && r.executionHash == ExecutionHash(env.sha, FinalSummary(env, plan))
      && r.finalTraceLinkHash == FinalLink(env, plan.steps) && r.finalState == FinalState(env, plan.steps)
  {
    var plan := Canonicalize(env.nfc, raw).value;
    CanonicalizeIsCanon(env.nfc, raw);
    PlanHashOfCanonical(env.nfc, env.sha, plan);
    SucceedsIff(env, raw, maxSteps);
    NotEmpty(env, raw);
  }

  lemma NotEmpty(env: Env, raw: seq<Entry<Json>>)
    requires Policies.Accepts(raw) && Canonicalize(env.nfc, raw).Some?
    ensures Canonicalize(env.nfc, raw).value.steps != []
  {
  }
}
