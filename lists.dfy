/** `Array.prototype.filter` and the "pick a random element" idiom
    `xs[Math.floor(Math.random() * xs.length)]`, with the random number as an input. */
module Lists {

  /** `s.filter(keep)`: the elements of `s` that pass `keep`, in their order. */
  function Filter<T>(s: seq<T>, keep: T -> bool): (r: seq<T>)
    ensures |r| <= |s|
    ensures forall x | x in r :: x in s && keep(x)
    ensures forall i | 0 <= i < |s| && keep(s[i]) :: s[i] in r
    decreases |s|
  {
    if s == [] then []
    else (if keep(s[0]) then [s[0]] else []) + Filter(s[1..], keep)
  }

  /** Filtering works piece by piece: the kept elements of a concatenation are
      the kept elements of the first part followed by those of the second, which
      is what makes the filter order-preserving. */
  lemma {:induction false} FilterAppend<T>(a: seq<T>, b: seq<T>, keep: T -> bool)
    ensures Filter(a + b, keep) == Filter(a, keep) + Filter(b, keep)
    decreases |a|
  {
    if a == [] {
      assert a + b == b;
    } else {
      assert (a + b)[1..] == a[1..] + b;
      FilterAppend(a[1..], b, keep);
    }
  }

  /** A filter that every element passes keeps the sequence as it is. */
  lemma {:induction false} FilterKeepsAll<T>(s: seq<T>, keep: T -> bool)
    requires forall i | 0 <= i < |s| :: keep(s[i])
    ensures Filter(s, keep) == s
    decreases |s|
  {
    if s != [] {
      FilterKeepsAll(s[1..], keep);
    }
  }

  /** Filtering twice with the same test is filtering once. */
  lemma {:induction false} FilterIdempotent<T>(s: seq<T>, keep: T -> bool)
    ensures Filter(Filter(s, keep), keep) == Filter(s, keep)
  {
    var r := Filter(s, keep);
    forall i | 0 <= i < |r| ensures keep(r[i]) {
      assert r[i] in r;
    }
    FilterKeepsAll(r, keep);
  }

  /** `Math.floor(r * n)` for `0 <= r < 1`: always a valid index among `n > 0` items. */
  function RandomIndex(r: real, n: nat): (i: nat)
    requires 0.0 <= r < 1.0 && 0 < n
    ensures i < n
  {
    assert 0.0 <= r * n as real < n as real;
    (r * n as real).Floor
  }

  /** `xs[Math.floor(r * xs.length)]`: an element of `xs`, for every draw `r`. */
  function Pick<T>(xs: seq<T>, r: real): (x: T)
    requires 0.0 <= r < 1.0 && 0 < |xs|
    ensures x in xs
  {
    xs[RandomIndex(r, |xs|)]
  }

  /** Every element can come out of `Pick`: the draw `i / |xs|` yields `xs[i]`. */
  lemma PickReaches<T>(xs: seq<T>, i: nat)
    requires i < |xs|
    ensures 0.0 <= i as real / |xs| as real < 1.0
    ensures Pick(xs, i as real / |xs| as real) == xs[i]
  {
    var n := |xs| as real;
    var r := i as real / n;
    assert r * n == i as real;
  }
}
