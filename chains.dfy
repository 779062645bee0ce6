/**
 * An interceptor chain: each element in list order sees what the one before it returned,
 * the first one the original value. Both the request and the response chains are this.
 */
module Chains {
  function FoldLeft<X, T>(chain: seq<X>, step: (X, T) -> T, t: T): T {
    if chain == [] then t else step(chain[|chain| - 1], FoldLeft(chain[..|chain| - 1], step, t))
  }

  /** Running two lists back to back is running their concatenation: each element once, in list order. */
  lemma {:induction false} FoldAppend<X, T>(a: seq<X>, b: seq<X>, step: (X, T) -> T, t: T)
    ensures FoldLeft(a + b, step, t) == FoldLeft(b, step, FoldLeft(a, step, t))
  {
    if b == [] {
      assert a + b == a;
    } else {
      var b' := b[..|b| - 1];
      assert (a + b)[..|a + b| - 1] == a + b';
      FoldAppend(a, b', step, t);
    }
  }

  /** The first element sees the original value, and the rest see what it returned. */
  lemma FoldFirst<X, T>(x: X, rest: seq<X>, step: (X, T) -> T, t: T)
    ensures FoldLeft([x] + rest, step, t) == FoldLeft(rest, step, step(x, t))
  {
    FoldAppend([x], rest, step, t);
    assert FoldLeft([x], step, t) == step(x, FoldLeft([], step, t));
  }
}
