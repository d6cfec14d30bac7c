/** Generic sequence notions shared by the modules: Kotlin `take`, and subsequences. */
module Collections {

  /** Kotlin `take(n)`. */
  function Take<T>(s: seq<T>, n: nat): (r: seq<T>)
    ensures r <= s
    ensures |r| == if |s| <= n then |s| else n
  {
    if |s| <= n then s else s[..n]
  }

  /** `a` is obtained from `b` by deleting elements. */
  predicate IsSubsequence<T(==)>(a: seq<T>, b: seq<T>)
    decreases |b|
  {
    if a == [] then true
    else if b == [] then false
    else (a[0] == b[0] && IsSubsequence(a[1..], b[1..])) || IsSubsequence(a, b[1..])
  }

  lemma {:induction false} PrefixOfSubsequence<T>(p: seq<T>, a: seq<T>, b: seq<T>)
    requires p <= a && IsSubsequence(a, b)
    ensures IsSubsequence(p, b)
    decreases |b|
  {
    if p != [] {
      assert a != [] && b != [];
      if a[0] == b[0] && IsSubsequence(a[1..], b[1..]) {
        PrefixOfSubsequence(p[1..], a[1..], b[1..]);
      } else {
        PrefixOfSubsequence(p, a, b[1..]);
      }
    }
  }

  /**
    The state reached from `s` by handling the elements of `xs` one after the other:
    the sequential `collect { x -> state = step(state, x) }`.
   */
  function FoldLeft<S, X>(step: (S, X) -> S, s: S, xs: seq<X>): S
    decreases |xs|
  {
    if xs == [] then s else step(FoldLeft(step, s, xs[..|xs| - 1]), xs[|xs| - 1])
  }

  lemma FoldLeftSnoc<S, X>(step: (S, X) -> S, s: S, xs: seq<X>, x: X)
    ensures FoldLeft(step, s, xs + [x]) == step(FoldLeft(step, s, xs), x)
  {
    assert (xs + [x])[..|xs|] == xs;
  }

  lemma {:induction false} FoldLeftAppend<S, X>(step: (S, X) -> S, s: S, xs: seq<X>, ys: seq<X>)
    ensures FoldLeft(step, s, xs + ys) == FoldLeft(step, FoldLeft(step, s, xs), ys)
    decreases |ys|
  {
    if ys == [] {
      assert xs + ys == xs;
    } else {
      var init := ys[..|ys| - 1];
      var last := ys[|ys| - 1];
      assert xs + ys == (xs + init) + [last];
      assert ys == init + [last];
      FoldLeftSnoc(step, s, xs + init, last);
      FoldLeftSnoc(step, FoldLeft(step, s, xs), init, last);
      FoldLeftAppend(step, s, xs, init);
    }
  }
}
