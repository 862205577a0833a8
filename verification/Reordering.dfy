/** Sums of multisets over a list, in whatever order the list is. */
module Reordering {
  import opened Common

  /** What `f` gives for all elements together. */
  function Union<T, B>(s: seq<T>, f: T -> multiset<B>): multiset<B> {
    if s == [] then multiset{} else Union(s[..|s| - 1], f) + f(Last(s))
  }

  lemma UnionMore<T, B>(s: seq<T>, p: T, f: T -> multiset<B>)
    ensures Union(s + [p], f) == Union(s, f) + f(p)
  {
    assert (s + [p])[..|s|] == s;
  }

  lemma {:induction false} UnionConcat<T, B>(a: seq<T>, b: seq<T>, f: T -> multiset<B>)
    ensures Union(a + b, f) == Union(a, f) + Union(b, f)
  {
    if b == [] {
      assert a + b == a;
    } else {
      UnionConcat(a, b[..|b| - 1], f);
      assert (a + b)[..|a + b| - 1] == a + b[..|b| - 1];
    }
  }

  /** The order of the elements does not matter. */
  lemma {:induction false} UnionOfReordered<T, B>(a: seq<T>, b: seq<T>, f: T -> multiset<B>)
    requires multiset(a) == multiset(b)
    ensures Union(a, f) == Union(b, f)
    decreases |a|
  {
    if a == [] {
      assert |multiset(b)| == 0;
    } else {
      var x, y := TakeOut(b, Last(a), a);
      UnionOfReordered(a[..|a| - 1], x + y, f);
      UnionConcat(x, y, f);
      UnionConcat(x + [Last(a)], y, f);
      UnionMore(x, Last(a), f);
    }
  }

  lemma TakeOut<T>(b: seq<T>, p: T, a: seq<T>) returns (x: seq<T>, y: seq<T>)
    requires a != [] && p == Last(a) && multiset(a) == multiset(b)
    ensures b == x + [p] + y && multiset(a[..|a| - 1]) == multiset(x + y)
  {
    assert a == a[..|a| - 1] + [p];
    assert p in multiset(b);
    var i :| 0 <= i < |b| && b[i] == p;
    x, y := b[..i], b[i + 1..];
    assert b == x + [p] + y;
    assert multiset(x + y) == multiset(b) - multiset{p};
    assert multiset(a[..|a| - 1]) == multiset(a) - multiset{p};
  }
}
