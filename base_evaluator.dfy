/** BaseEvaluator: the dict-based copy of the metric machinery that the
    dimension evaluators build on.  Each metric is a plain entry of weight and
    score under its name; the ceiling test has no tolerance and weights are not
    range checked. */
module BaseEvaluation {
  import opened Wrappers
  import opened Aggregate
  import opened CoreMetric

  /** The record that `save_results` writes; `additionalData` is the
      evaluator's own results ledger. */
  datatype BaseRecord<L> = BaseRecord(
    dimension: string,
    dimensionWeight: real,
    dimensionScore: real,
    metrics: map<string, Weighted>,
    additionalData: L)

  function WeightOfEntry(x: Weighted): real {
    x.weight
  }

  /** The entries named by `ns`, in order. */
  function EntriesOf(ns: seq<string>, ms: map<string, Weighted>): (es: seq<Weighted>)
    requires Covers(ns, ms)
    ensures |es| == |ns|
    ensures forall i :: 0 <= i < |ns| ==> es[i] == ms[ns[i]]
  {
    if ns == [] then []
    else EntriesOf(ns[..|ns| - 1], ms) + [ms[ns[|ns| - 1]]]
  }

  lemma {:induction false} EntriesOfTotalWeight(ns: seq<string>, ms: map<string, Weighted>)
    requires Covers(ns, ms)
    ensures TotalWeight(EntriesOf(ns, ms)) == KeyedTotal(ns, ms, WeightOfEntry)
  {
    if ns != [] {
      var init := ns[..|ns| - 1];
      EntriesOfTotalWeight(init, ms);
      assert EntriesOf(ns, ms)[..|ns| - 1] == EntriesOf(init, ms);
    }
  }

  /** The order lists the names of the table once each and every stored score
      is in [0, 1]. */
  ghost predicate ScoreTable(ns: seq<string>, ms: map<string, Weighted>) {
    && Distinct(ns)
    && (forall n :: n in ms <==> n in ns)
    && (forall n :: n in ms ==> InRange(ms[n].score))
  }

  /** Storing an entry whose score is in [0, 1] keeps the table's bookkeeping. */
  lemma InsertKeepsScoreTable(ns: seq<string>, ms: map<string, Weighted>, k: string, x: Weighted)
    requires ScoreTable(ns, ms) && InRange(x.score)
    ensures ScoreTable(Inserted(ns, k), ms[k := x])
  {
    if k !in ns {
      assert (ns + [k])[..|ns|] == ns;
      assert Distinct(ns + [k]);
    }
  }

  /** A table whose weights are non-negative and add up to at most 1.0. */
  ghost predicate BoundedTable(ns: seq<string>, ms: map<string, Weighted>) {
    && Covers(ns, ms)
    && (forall n :: n in ms ==> 0.0 <= ms[n].weight)
    && KeyedTotal(ns, ms, WeightOfEntry) <= 1.0
  }

  /** Storing an entry of non-negative weight that the exact ceiling admits
      keeps a table bounded, whether the name is new or replaces an entry
      (whose old weight counted in the test). */
  lemma AdmissionKeepsBound(ns: seq<string>, ms: map<string, Weighted>, k: string, x: Weighted)
    requires Distinct(ns) && BoundedTable(ns, ms)
    requires 0.0 <= x.weight && KeyedTotal(ns, ms, WeightOfEntry) + x.weight <= 1.0
    ensures BoundedTable(Inserted(ns, k), ms[k := x])
  {
    if k in ns {
      KeyedTotalReplace(ns, ms, k, x, WeightOfEntry);
    } else {
      KeyedTotalExtend(ns, ms, k, x, WeightOfEntry);
    }
  }

  class BaseEvaluator {
    const name: string
    const weight: real
    /** `self.metrics`: each registered metric's weight and score, by name. */
    var metrics: map<string, Weighted>
    /** The metric names in insertion order: the iteration order of the dict. */
    var order: seq<string>

    /** The order lists the metric names once each and every stored score is
        in [0, 1]. */
    ghost predicate Valid()
      reads this
    {
      ScoreTable(order, metrics)
    }

    /** The weights are non-negative and add up to at most 1.0.  Nothing in the
        evaluator enforces the first half; the ceiling test keeps the second
        only under it. */
    ghost predicate Bounded()
      reads this
      requires Valid()
    {
      BoundedTable(order, metrics)
    }

    /** The results ledger is the subclass's: see `Record`. */
    constructor (name: string, weight: real)
      ensures Valid() && Bounded()
      ensures this.name == name && this.weight == weight
      ensures metrics == map[] && order == []
    {
      this.name := name;
      this.weight := weight;
      metrics := map[];
      order := [];
    }

    /** `sum(metric['weight'] for metric in self.metrics.values())`. */
    function TotalMetricWeight(): real
      reads this
      requires Valid()
    {
      KeyedTotal(order, metrics, WeightOfEntry)
    }

    /** The weighted sum of the metric scores. */
    function Score(): real
      reads this
      requires Valid()
    {
      WeightedSum(EntriesOf(order, metrics))
    }

    /** Scores in [0, 1] under a bounded table give a dimension score in [0, 1]. */
    lemma ScoreInUnit()
      requires Valid() && Bounded()
      ensures 0.0 <= Score() <= TotalMetricWeight() <= 1.0
    {
      var es := EntriesOf(order, metrics);
      EntriesOfTotalWeight(order, metrics);
      assert NonNegativeWeights(es) && ScoresWithin(es, 1.0) by {
        forall i | 0 <= i < |es|
          ensures 0.0 <= es[i].weight && 0.0 <= es[i].score <= 1.0
        {
          assert order[i] in metrics;
        }
      }
      ScoreBelowTotal(es);
    }

    lemma EmptyIffNoNames()
      requires Valid()
      ensures |metrics| == 0 <==> order == []
    {
      if order != [] {
        assert order[0] in metrics;
      }
    }

    /** Registers the metric with score 0.0 iff the current total plus `w` is at
        most 1.0; a refused call changes nothing.  An existing name is replaced
        and its old weight still counts in the test. */
    method AddMetric(metricName: string, w: real) returns (r: Outcome)
      requires Valid()
      modifies this`metrics, this`order
      ensures Valid()
      ensures r.Pass? <==> old(TotalMetricWeight()) + w <= 1.0
      ensures r.Fail? ==> r.error == WeightCeilingExceeded && metrics == old(metrics) && order == old(order)
      ensures r.Pass? ==> metrics == old(metrics)[metricName := Weighted(w, 0.0)]
      ensures r.Pass? ==> order == Inserted(old(order), metricName)
      ensures old(Bounded()) && 0.0 <= w ==> Bounded()
    {
      var total := TotalMetricWeight();
      if total + w > 1.0 {
        return Fail(WeightCeilingExceeded);
      }
      ghost var wasBounded := Bounded();
      if wasBounded && 0.0 <= w {
        AdmissionKeepsBound(order, metrics, metricName, Weighted(w, 0.0));
      }
      InsertKeepsScoreTable(order, metrics, metricName, Weighted(w, 0.0));
      order := Inserted(order, metricName);
      metrics := metrics[metricName := Weighted(w, 0.0)];
      return Pass;
    }

    /** Stores a score in [0, 1] on a registered metric.  An unknown name or an
        out-of-range score is refused and nothing changes; otherwise only that
        metric's score changes. */
    method SetMetricScore(metricName: string, score: real) returns (r: Outcome)
      requires Valid()
      modifies this`metrics
      ensures Valid()
      ensures r.Pass? <==> metricName in old(metrics) && InRange(score)
      ensures metricName !in old(metrics) ==> r == Fail(UnknownMetric)
      ensures metricName in old(metrics) && !InRange(score) ==> r == Fail(ScoreOutOfRange)
      ensures r.Fail? ==> metrics == old(metrics)
      ensures r.Pass? ==> metrics == old(metrics)[metricName := Weighted(old(metrics)[metricName].weight, score)]
      ensures TotalMetricWeight() == old(TotalMetricWeight())
      ensures old(Bounded()) ==> Bounded()
    {
      if metricName !in metrics {
        return Fail(UnknownMetric);
      }
      if !(0.0 <= score <= 1.0) {
        return Fail(ScoreOutOfRange);
      }
      ghost var before := metrics;
      InsertKeepsScoreTable(order, metrics, metricName, Weighted(metrics[metricName].weight, score));
      metrics := metrics[metricName := Weighted(metrics[metricName].weight, score)];
      KeyedTotalAgree(order, before, metrics, WeightOfEntry);
      return Pass;
    }

    /** `calculate_dimension_score`: 0.0 with no metrics, otherwise the weighted
        sum of the scores; it changes nothing. */
    method CalculateDimensionScore() returns (r: real)
      requires Valid()
      ensures r == Score()
      ensures |metrics| == 0 ==> r == 0.0
    {
      if |metrics| == 0 {
        EmptyIffNoNames();
        return 0.0;
      }
      r := Accumulate(EntriesOf(order, metrics));
    }

    /** The record that `save_results` writes, with the subclass's ledger. */
    function Record<L>(additional: L): (rec: BaseRecord<L>)
      reads this
      requires Valid()
      ensures rec.dimension == name && rec.dimensionWeight == weight
      ensures rec.dimensionScore == Score() && rec.metrics == metrics && rec.additionalData == additional
    {
      BaseRecord(name, weight, Score(), metrics, additional)
    }
  }
}
