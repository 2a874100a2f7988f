/** The weighted-sum arithmetic that Dimension, MetacognitiveFramework and
    BaseEvaluator share: the admission ceiling for new weights and the score of
    a container as the weighted sum of its members' scores. */
module Aggregate {

  /** The floating-point allowance `1e-10` of the weight ceiling. */
  const Tolerance: real := 1.0 / 10000000000.0

  /** A container's members may weigh at most this much together. */
  const Ceiling: real := 1.0 + Tolerance

  /** One member of a container: its weight and its current score. */
  datatype Weighted = Weighted(weight: real, score: real)

  /** Sum of the weights, accumulated from the front as the source's loops do. */
  function TotalWeight(xs: seq<Weighted>): real {
    if xs == [] then 0.0 else TotalWeight(xs[..|xs| - 1]) + xs[|xs| - 1].weight
  }

  /** Sum of `score * weight`, accumulated from the front. */
  function WeightedSum(xs: seq<Weighted>): real {
    if xs == [] then 0.0
    else WeightedSum(xs[..|xs| - 1]) + xs[|xs| - 1].score * xs[|xs| - 1].weight
  }

  /** The accumulation loop of `calculate_score` and of the framework's
      `evaluate`: `total += score * weight` over the members, front to back. */
  method Accumulate(xs: seq<Weighted>) returns (total: real)
    ensures total == WeightedSum(xs)
  {
    total := 0.0;
    var i := 0;
    while i < |xs|
      invariant 0 <= i <= |xs|
      invariant total == WeightedSum(xs[..i])
    {
      PrefixStep(xs, i);
      total := total + xs[i].score * xs[i].weight;
      i := i + 1;
    }
    assert xs[..|xs|] == xs;
  }

  predicate NonNegativeWeights(xs: seq<Weighted>) {
    forall i :: 0 <= i < |xs| ==> 0.0 <= xs[i].weight
  }

  predicate ScoresWithin(xs: seq<Weighted>, bound: real) {
    forall i :: 0 <= i < |xs| ==> 0.0 <= xs[i].score <= bound
  }

  /** A container admits a member of weight `w` when the ceiling is not passed. */
  predicate Admits(total: real, w: real) {
    total + w <= Ceiling
  }

  lemma ProductBounds(s: real, w: real, bound: real)
    requires 0.0 <= w && 0.0 <= s <= bound
    ensures 0.0 <= s * w <= bound * w
  {
    assert (bound - s) * w >= 0.0;
  }

  /** With non-negative weights and scores in [0, bound], the weighted sum lies
      between 0 and bound times the total weight. */
  lemma {:induction false} WeightedSumBounds(xs: seq<Weighted>, bound: real)
    requires NonNegativeWeights(xs) && ScoresWithin(xs, bound)
    ensures 0.0 <= WeightedSum(xs) <= bound * TotalWeight(xs)
  {
    if xs != [] {
      var init, last := xs[..|xs| - 1], xs[|xs| - 1];
      WeightedSumBounds(init, bound);
      ProductBounds(last.score, last.weight, bound);
    }
  }

  /** Scores in [0, 1] give a weighted sum between 0 and the total weight. */
  lemma ScoreBelowTotal(xs: seq<Weighted>)
    requires NonNegativeWeights(xs) && ScoresWithin(xs, 1.0)
    ensures 0.0 <= WeightedSum(xs) <= TotalWeight(xs)
  {
    WeightedSumBounds(xs, 1.0);
  }

  lemma {:induction false} TotalWeightNonNegative(xs: seq<Weighted>)
    requires NonNegativeWeights(xs)
    ensures 0.0 <= TotalWeight(xs)
  {
    if xs != [] {
      TotalWeightNonNegative(xs[..|xs| - 1]);
    }
  }

  /** The total weight and the weighted sum of a sequence with one more member. */
  lemma SumsOfAppend(xs: seq<Weighted>, x: Weighted)
    ensures TotalWeight(xs + [x]) == TotalWeight(xs) + x.weight
    ensures WeightedSum(xs + [x]) == WeightedSum(xs) + x.score * x.weight
  {
    assert (xs + [x])[..|xs|] == xs;
  }

  /** One more step of a loop that accumulates over a sequence from the front. */
  lemma PrefixStep(xs: seq<Weighted>, i: int)
    requires 0 <= i < |xs|
    ensures TotalWeight(xs[..i + 1]) == TotalWeight(xs[..i]) + xs[i].weight
    ensures WeightedSum(xs[..i + 1]) == WeightedSum(xs[..i]) + xs[i].score * xs[i].weight
  {
    assert xs[..i + 1] == xs[..i] + [xs[i]];
    SumsOfAppend(xs[..i], xs[i]);
  }

  /** With non-negative weights, the members before position `k` together with
      member `k` weigh no more than the whole sequence: a table added one
      member at a time never passes its own total on the way. */
  lemma {:induction false} PrefixWithinTotal(xs: seq<Weighted>, k: int)
    requires NonNegativeWeights(xs)
    requires 0 <= k < |xs|
    ensures TotalWeight(xs[..k]) + xs[k].weight <= TotalWeight(xs)
  {
    var init := xs[..|xs| - 1];
    if k < |xs| - 1 {
      assert init[..k] == xs[..k];
      PrefixWithinTotal(init, k);
    } else {
      assert xs[..k] == init;
    }
  }

  /** Every name occurs once: the last is not among the earlier ones, and
      those are distinct themselves. */
  predicate Distinct(ns: seq<string>) {
    ns == [] || (ns[|ns| - 1] !in ns[..|ns| - 1] && Distinct(ns[..|ns| - 1]))
  }

  /** In a list without repeats, the name at `i` occurs nowhere else. */
  lemma {:induction false} DistinctAt(ns: seq<string>, i: int)
    requires Distinct(ns) && 0 <= i < |ns|
    ensures forall j :: 0 <= j < |ns| && j != i ==> ns[j] != ns[i]
  {
    var init := ns[..|ns| - 1];
    assert forall j :: 0 <= j < |init| ==> ns[j] == init[j] && init[j] in init;
    if i < |ns| - 1 {
      DistinctAt(init, i);
    }
  }

  predicate Covers<T>(ns: seq<string>, ms: map<string, T>) {
    forall i :: 0 <= i < |ns| ==> ns[i] in ms
  }

  /** Sum of the weights `w` of the members of a keyed container named by `ns`,
      in order: the `sum(x.weight for x in d.values())` of the source. */
  function KeyedTotal<T>(ns: seq<string>, ms: map<string, T>, w: T -> real): real
    requires Covers(ns, ms)
  {
    if ns == [] then 0.0
    else KeyedTotal(ns[..|ns| - 1], ms, w) + w(ms[ns[|ns| - 1]])
  }

  lemma {:induction false} KeyedTotalNonNegative<T>(ns: seq<string>, ms: map<string, T>, w: T -> real)
    requires Covers(ns, ms)
    requires forall i :: 0 <= i < |ns| ==> 0.0 <= w(ms[ns[i]])
    ensures 0.0 <= KeyedTotal(ns, ms, w)
  {
    if ns != [] {
      KeyedTotalNonNegative(ns[..|ns| - 1], ms, w);
    }
  }

  /** The total depends only on the weights of the named members. */
  lemma {:induction false} KeyedTotalAgree<T>(ns: seq<string>, ms: map<string, T>, ms': map<string, T>, w: T -> real)
    requires Covers(ns, ms) && Covers(ns, ms')
    requires forall i :: 0 <= i < |ns| ==> w(ms[ns[i]]) == w(ms'[ns[i]])
    ensures KeyedTotal(ns, ms, w) == KeyedTotal(ns, ms', w)
  {
    if ns != [] {
      KeyedTotalAgree(ns[..|ns| - 1], ms, ms', w);
    }
  }

  /** Replacing the member under an existing key changes the total by the
      difference of the old and the new weight. */
  lemma {:induction false} KeyedTotalReplace<T>(ns: seq<string>, ms: map<string, T>, k: string, v: T, w: T -> real)
    requires Covers(ns, ms) && Distinct(ns) && k in ns
    ensures Covers(ns, ms[k := v])
    ensures KeyedTotal(ns, ms[k := v], w) == KeyedTotal(ns, ms, w) - w(ms[k]) + w(v)
  {
    var ms' := ms[k := v];
    var init, last := ns[..|ns| - 1], ns[|ns| - 1];
    if last == k {
      assert k !in init;
      KeyedTotalAgree(init, ms, ms', w);
    } else {
      assert k in init;
      KeyedTotalReplace(init, ms, k, v, w);
    }
  }

  /** Adding a member under a new key adds its weight to the total. */
  lemma KeyedTotalExtend<T>(ns: seq<string>, ms: map<string, T>, k: string, v: T, w: T -> real)
    requires Covers(ns, ms) && k !in ns
    ensures Covers(ns + [k], ms[k := v])
    ensures KeyedTotal(ns + [k], ms[k := v], w) == KeyedTotal(ns, ms, w) + w(v)
  {
    assert (ns + [k])[..|ns|] == ns;
    KeyedTotalAgree(ns, ms, ms[k := v], w);
  }

  /** A keyed container's bookkeeping: `ns` lists the keys of `ms` once each,
      in insertion order, every member is stored under its own key, and the
      weights stay under the ceiling. */
  ghost predicate Table<T>(ns: seq<string>, ms: map<string, T>, key: T -> string, w: T -> real) {
    && Distinct(ns)
    && (forall n :: n in ms <==> n in ns)
    && (forall n :: n in ms ==> key(ms[n]) == n)
    && KeyedTotal(ns, ms, w) <= Ceiling
  }

  /** The key order after storing a member under `k`: a new key goes last, an
      existing key keeps its place, as in a Python dict. */
  function Inserted(ns: seq<string>, k: string): (r: seq<string>)
    ensures k in r && (forall n :: n in ns ==> n in r)
    ensures forall n :: n in r ==> n in ns || n == k
  {
    if k in ns then ns else ns + [k]
  }

  /** Storing under `k` keeps the order listing the keys once each. */
  lemma InsertedLists<T>(ns: seq<string>, ms: map<string, T>, k: string, v: T)
    requires Distinct(ns) && forall n :: n in ms <==> n in ns
    ensures Distinct(Inserted(ns, k))
    ensures forall n :: n in ms[k := v] <==> n in Inserted(ns, k)
  {
    if k !in ns {
      assert (ns + [k])[..|ns|] == ns;
    }
  }

  /** Storing a member the ceiling admits keeps the bookkeeping. */
  lemma TableInsert<T>(ns: seq<string>, ms: map<string, T>, key: T -> string, w: T -> real, v: T)
    requires Table(ns, ms, key, w)
    requires forall n :: n in ms ==> 0.0 <= w(ms[n])
    requires Admits(KeyedTotal(ns, ms, w), w(v))
    ensures Table(Inserted(ns, key(v)), ms[key(v) := v], key, w)
  {
    var k := key(v);
    InsertedLists(ns, ms, k, v);
    if k in ms {
      KeyedTotalReplace(ns, ms, k, v, w);
    } else {
      KeyedTotalExtend(ns, ms, k, v, w);
    }
  }
}
