/** Result types shared by the whole model: a source function that returns or throws. */
module Common {

  datatype Option<+T> = None | Some(value: T)

  datatype Result<+T, +E> = Ok(value: T) | Err(error: E)

  /** `h` does not collide on the strings in `texts`: the only strings it is ever asked about. */
  ghost predicate CollisionFree(h: string -> string, texts: set<string>) {
    forall x, y | x in texts && y in texts && h(x) == h(y) :: x == y
  }

  /** Every result of a loop that throws at the first element `f` has no result for. */
  function Traverse<T, U>(f: T -> Option<U>, xs: seq<T>): (r: Option<seq<U>>)
    ensures r.Some? <==> forall i | 0 <= i < |xs| :: f(xs[i]).Some?
    ensures r.Some? ==> |r.value| == |xs| && forall i | 0 <= i < |xs| :: f(xs[i]) == Some(r.value[i])
  {
    if xs == [] then Some([])
    else
      var first, rest := f(xs[0]), Traverse(f, xs[1..]);
      assert xs == [xs[0]] + xs[1..];
      if first.Some? && rest.Some? then Some([first.value] + rest.value) else None
  }

  /** What a loop from index `from` on pushes in all, when each element pushes `f` of it. */
  function Pushed<T, U>(f: (T, nat) -> seq<U>, xs: seq<T>, from: nat): seq<U>
    requires from <= |xs|
    decreases |xs| - from
  {
    if from == |xs| then [] else f(xs[from], from) + Pushed(f, xs, from + 1)
  }

  lemma {:induction false} PushedNothing<T, U>(f: (T, nat) -> seq<U>, xs: seq<T>, from: nat)
    requires from <= |xs|
    ensures Pushed(f, xs, from) == [] <==> forall i | from <= i < |xs| :: f(xs[i], i) == []
    decreases |xs| - from
  {
    if from < |xs| { PushedNothing(f, xs, from + 1); }
  }
}
