/** A value that may be absent, and lists built from lists. */
module Wrappers {
  datatype Option<+T> = None | Some(value: T)

  /** What each element contributes, in order. */
  function FlatMap<T, U>(f: T -> seq<U>, xs: seq<T>): seq<U> {
    if xs == [] then [] else FlatMap(f, xs[..|xs| - 1]) + f(xs[|xs| - 1])
  }

  lemma {:induction false} FlatMapJoins<T, U>(f: T -> seq<U>, xs: seq<T>, ys: seq<T>)
    ensures FlatMap(f, xs + ys) == FlatMap(f, xs) + FlatMap(f, ys)
  {
    if ys == [] {
      assert xs + ys == xs;
    } else {
      FlatMapJoins(f, xs, ys[..|ys| - 1]);
      assert (xs + ys)[..|xs + ys| - 1] == xs + ys[..|ys| - 1];
    }
  }

  /** One pass after another is one pass. */
  lemma {:induction false} FlatMapFuses<T, U, V>(f: T -> seq<U>, g: U -> seq<V>, h: T -> seq<V>, xs: seq<T>)
    requires forall x :: x in xs ==> h(x) == FlatMap(g, f(x))
    ensures FlatMap(g, FlatMap(f, xs)) == FlatMap(h, xs)
  {
    if xs == [] {
    } else {
      var init, last := xs[..|xs| - 1], xs[|xs| - 1];
      FlatMapFuses(f, g, h, init);
      FlatMapJoins(g, FlatMap(f, init), f(last));
      assert last in xs;
    }
  }
}
