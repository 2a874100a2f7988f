/** Counting over sequences, as the scorers' `correct_count += 1` loops do, and
    the ratios they return. */
module Tally {

  /** The number of members of `xs` that satisfy `p`, counted from the front. */
  function Count<T>(xs: seq<T>, p: T -> bool): (c: nat)
    ensures c <= |xs|
  {
    if xs == [] then 0
    else Count(xs[..|xs| - 1], p) + (if p(xs[|xs| - 1]) then 1 else 0)
  }

  /** One more step of a counting loop. */
  lemma CountStep<T>(xs: seq<T>, p: T -> bool, i: int)
    requires 0 <= i < |xs|
    ensures Count(xs[..i + 1], p) == Count(xs[..i], p) + (if p(xs[i]) then 1 else 0)
  {
    assert xs[..i + 1][..i] == xs[..i];
  }

  /** Two tests that agree on every member count the same. */
  lemma {:induction false} CountAgree<T>(xs: seq<T>, p: T -> bool, q: T -> bool)
    requires forall i :: 0 <= i < |xs| ==> p(xs[i]) == q(xs[i])
    ensures Count(xs, p) == Count(xs, q)
  {
    if xs != [] {
      CountAgree(xs[..|xs| - 1], p, q);
    }
  }

  /** The count is zero exactly when no member passes the test. */
  lemma {:induction false} CountZeroIff<T>(xs: seq<T>, p: T -> bool)
    ensures Count(xs, p) == 0 <==> forall i :: 0 <= i < |xs| ==> !p(xs[i])
  {
    if xs != [] {
      var init := xs[..|xs| - 1];
      CountZeroIff(init, p);
      assert forall i :: 0 <= i < |init| ==> init[i] == xs[i];
    }
  }

  /** The count reaches the length exactly when every member passes the test. */
  lemma {:induction false} CountFullIff<T>(xs: seq<T>, p: T -> bool)
    ensures Count(xs, p) == |xs| <==> forall i :: 0 <= i < |xs| ==> p(xs[i])
  {
    if xs != [] {
      var init := xs[..|xs| - 1];
      CountFullIff(init, p);
      assert forall i :: 0 <= i < |init| ==> init[i] == xs[i];
    }
  }

  /** Counting a sequence with one more member. */
  lemma CountAppend<T>(xs: seq<T>, x: T, p: T -> bool)
    ensures Count(xs + [x], p) == Count(xs, p) + (if p(x) then 1 else 0)
  {
    assert (xs + [x])[..|xs|] == xs;
  }

  /** Counting two sequences one after the other. */
  lemma {:induction false} CountConcat<T>(xs: seq<T>, ys: seq<T>, p: T -> bool)
    ensures Count(xs + ys, p) == Count(xs, p) + Count(ys, p)
  {
    if ys != [] {
      var init := ys[..|ys| - 1];
      CountConcat(xs, init, p);
      assert (xs + ys)[..|xs + ys| - 1] == xs + init;
    } else {
      assert xs + ys == xs;
    }
  }

  /** Some index in [k, n) passes `p`: the scan of a `for ... break` loop from `k` on. */
  predicate AnyFrom(p: int -> bool, k: int, n: int)
    decreases n - k
  {
    k < n && (p(k) || AnyFrom(p, k + 1, n))
  }

  lemma {:induction false} AnyFromIff(p: int -> bool, k: int, n: int)
    ensures AnyFrom(p, k, n) <==> exists j :: k <= j < n && p(j)
    decreases n - k
  {
    if k < n {
      AnyFromIff(p, k + 1, n);
      if exists j :: k <= j < n && p(j) {
        var j :| k <= j < n && p(j);
        assert j == k || k + 1 <= j;
      }
    }
  }

  /** `k / n` for a positive `n`, as Python's true division of two counts. */
  function Ratio(k: nat, n: nat): (r: real)
    requires 0 < n
    ensures 0.0 <= r
    ensures k <= n ==> r <= 1.0
    ensures r == 0.0 <==> k == 0
    ensures r == 1.0 <==> k == n
  {
    var r := k as real / n as real;
    assert r * n as real == k as real;
    assert k <= n ==> (1.0 - r) * n as real >= 0.0;
    r
  }
}
