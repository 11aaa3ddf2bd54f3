/** A loop over a sequence that carries a state and stops at the first element that fails. */
module Loops {
  import opened Common

  type Body<!S, !X, !E> = (S, nat, X) -> Result<S, E>

  datatype Loop<S, E> = Going(state: S) | Halted(at: nat, error: E)

  function Turn<S, X, E>(body: Body<S, X, E>, l: Loop<S, E>, i: nat, x: X): Loop<S, E> {
    match l
    case Halted(_, _) => l
    case Going(s) =>
      match body(s, i, x)
      case Ok(next) => Going(next)
      case Err(e) => Halted(i, e)
  }

  /** Where the loop stands after the first `n` elements. */
  function Iterate<S, X, E>(body: Body<S, X, E>, start: S, xs: seq<X>, n: nat): Loop<S, E>
    requires n <= |xs|
  {
    if n == 0 then Going(start) else Turn(body, Iterate(body, start, xs, n - 1), n - 1, xs[n - 1])
  }

  lemma {:induction false} HaltedStays<S, X, E>(body: Body<S, X, E>, start: S, xs: seq<X>, m: nat, n: nat)
    requires m <= n <= |xs| && Iterate(body, start, xs, m).Halted?
    ensures Iterate(body, start, xs, n) == Iterate(body, start, xs, m)
    decreases n
  {
    if m < n { HaltedStays(body, start, xs, m, n - 1); }
  }

  /** A loop that goes on reached each state from the one before. */
  lemma GoingStep<S, X, E>(body: Body<S, X, E>, start: S, xs: seq<X>, n: nat)
    requires 0 < n <= |xs| && Iterate(body, start, xs, n).Going?
    ensures Iterate(body, start, xs, n - 1).Going?
    ensures body(Iterate(body, start, xs, n - 1).state, n - 1, xs[n - 1]) == Ok(Iterate(body, start, xs, n).state)
  {
  }

  lemma {:induction false} HaltedAt<S, X, E>(body: Body<S, X, E>, start: S, xs: seq<X>, n: nat)
    requires n <= |xs| && Iterate(body, start, xs, n).Halted?
    ensures var l := Iterate(body, start, xs, n);
      && l.at < n && Iterate(body, start, xs, l.at).Going?
      && body(Iterate(body, start, xs, l.at).state, l.at, xs[l.at]) == Err(l.error)
  {
    if Iterate(body, start, xs, n - 1).Halted? { HaltedAt(body, start, xs, n - 1); }
  }

  function MapResult<S, T, E, F>(state: S -> T, error: E -> F, r: Result<S, E>): Result<T, F> {
    if r.Ok? then Ok(state(r.value)) else Err(error(r.error))
  }

  function MapLoop<S, T, E, F>(state: S -> T, error: E -> F, l: Loop<S, E>): Loop<T, F> {
    if l.Going? then Going(state(l.state)) else Halted(l.at, error(l.error))
  }

  /** A body that looks like another through a view of its state makes a loop that looks like the other. */
  lemma {:induction false} LoopSeenAs<S(!new), T, X(!new), E, F>(
      f: Body<S, X, E>, g: Body<T, X, F>, state: S -> T, error: E -> F, start: S, xs: seq<X>, n: nat)
    requires n <= |xs|
    requires forall s, i, x | x in xs :: MapResult(state, error, f(s, i, x)) == g(state(s), i, x)
    ensures MapLoop(state, error, Iterate(f, start, xs, n)) == Iterate(g, state(start), xs, n)
  {
    if n > 0 {
      LoopSeenAs(f, g, state, error, start, xs, n - 1);
      var l := Iterate(f, start, xs, n - 1);
      if l.Going? {
        assert xs[n - 1] in xs;
        assert MapResult(state, error, f(l.state, n - 1, xs[n - 1])) == g(state(l.state), n - 1, xs[n - 1]);
      }
    }
  }
}
